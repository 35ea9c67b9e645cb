/** How the two controllers relate: where their motor-state classifiers agree
    and how their rear lights differ. */
module Variants {
  import opened Vehicle
  import Physics
  import Kinematic

  /** A square stays below 0.01 squared exactly when the value lies strictly
      between -0.01 and 0.01. */
  lemma SquareBelowThreshold(s: real)
    ensures s * s < Physics.StillThreshold * Physics.StillThreshold <==>
            -Physics.StillThreshold < s < Physics.StillThreshold
  {
    var m := if s < 0.0 then -s else s;
    assert s * s == m * m;
    SquaresKeepOrder(m, Physics.StillThreshold);
  }

  /** For a car moving along its unit heading with signed speed s (m/s), the
      velocity-based and the speed-based classifiers give the same motor state,
      except for a backward input while creeping forward slower than 0.01 m/s:
      the velocity-based one then already reverses, the speed-based one brakes. */
  lemma ClassifiersAgreeAlongHeading(accelerationInput: real, s: real, forward: Physics.Vec3)
    requires Physics.SqrMagnitude(forward) == 1.0
    ensures Physics.Classify(accelerationInput, Physics.Scale(forward, s), forward)
              == Kinematic.Classify(accelerationInput, s)
            <==> !(accelerationInput < 0.0 && 0.0 < s < Physics.StillThreshold)
  {
    var v := Physics.Scale(forward, s);
    var f := forward;
    assert Physics.Dot(v, f) == s * Physics.SqrMagnitude(f) == s by {
      assert Physics.Dot(v, f) == s * (f.x * f.x + f.y * f.y + f.z * f.z);
    }
    assert Physics.SqrMagnitude(v) == s * s by {
      assert Physics.SqrMagnitude(v) == (s * s) * (f.x * f.x + f.y * f.y + f.z * f.z);
    }
    SquareBelowThreshold(s);
  }

  /** Both rear lights switch on in the same states with the same colour; the
      torque-based controller drives it four times as intensely. */
  lemma RearLightsDifferOnlyInIntensity(state: MotorState, brakeColor: Color, reverseColor: Color)
    ensures var p := Physics.RearLight(state, brakeColor, reverseColor);
            var k := Kinematic.RearLight(state, brakeColor, reverseColor);
            p.On? == k.On? &&
            (p.On? ==> p.emission.color == k.emission.color &&
                       p.emission.intensity == 4.0 * k.emission.intensity)
  {
  }
}
