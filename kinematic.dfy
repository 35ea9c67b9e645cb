/** The kinematic controller: it keeps its own signed speed, classifies the
    motor state from it, smooths the speed toward a per-state target, turns the
    heading in proportion to the steering input and drives the rear light. */
module Kinematic {
  import opened Vehicle

  /** The serialized tuning of a vehicle. */
  datatype Config = Config(
    maxSpeed: real,          // km/h
    maxReverseSpeed: real,   // km/h
    accelerationTime: real,  // seconds from 0 to 100 km/h
    decelerationTime: real,  // seconds from 100 to 0 km/h when coasting
    brakeTime: real,         // seconds from 100 to 0 km/h when braking
    maxSteeringAngle: real,
    brakeLightColor: Color,
    reverseLightColor: Color)

  /** The speed the car is steered toward (m/s) and the time reference for getting there. */
  datatype Setpoint = Setpoint(targetSpeed: real, referenceTime: real)

  /** The smoothing routine the speed update calls, left abstract: from the
      current speed, the target, the routine's velocity memory and a smoothing
      time it gives the new speed and the new velocity memory. */
  type Damper = (real, real, real, real) -> (real, real)

  /** The motor state from the input and the signed speed of the previous
      frame: a negative input reverses from standstill or backward motion and
      brakes forward motion. */
  function Classify(accelerationInput: real, currentSpeed: real): (r: MotorState)
    ensures r == Accelerating <==> accelerationInput > 0.0
    ensures r == Reversing <==> accelerationInput < 0.0 && currentSpeed <= 0.0
    ensures r == Braking <==> accelerationInput < 0.0 && currentSpeed > 0.0
    ensures r == Idle <==> accelerationInput == 0.0
  {
    if accelerationInput > 0.0 then Accelerating
    else if accelerationInput < 0.0 then
      if currentSpeed <= 0.0 then Reversing else Braking
    else Idle
  }

  /** The target speed and reference time of each motor state. */
  function SetpointFor(c: Config, state: MotorState, accelerationInput: real): (r: Setpoint)
    ensures r.targetSpeed != 0.0 ==> (state == Accelerating || state == Reversing) && accelerationInput != 0.0
    ensures state == Accelerating || state == Reversing ==> r.referenceTime == c.accelerationTime
    ensures state == Braking ==> r == Setpoint(0.0, c.brakeTime)
    ensures state == Idle ==> r == Setpoint(0.0, c.decelerationTime)
  {
    match state
    case Accelerating => Setpoint(c.maxSpeed / KmhPerMs * accelerationInput, c.accelerationTime)
    case Braking => Setpoint(0.0, c.brakeTime)
    case Reversing => Setpoint(c.maxReverseSpeed / KmhPerMs * accelerationInput, c.accelerationTime)
    case Idle => Setpoint(0.0, c.decelerationTime)
  }

  function Abs(x: real): real
  {
    if x < 0.0 then -x else x
  }

  /** The smoothing time handed to the damper: proportional to the distance
      still to cover, so it shrinks to nothing as the speed reaches the target. */
  function SmoothTime(targetSpeed: real, currentSpeed: real, referenceTime: real): (r: real)
    ensures referenceTime >= 0.0 ==> r >= 0.0
    ensures referenceTime > 0.0 ==> (r == 0.0 <==> currentSpeed == targetSpeed)
  {
    Abs(targetSpeed - currentSpeed) * referenceTime / 100.0
  }

  /** -1, 0 or +1 with the sign of the speed. */
  function SpeedFactor(currentSpeed: real): (r: real)
    ensures r == 0.0 <==> currentSpeed == 0.0
    ensures r == 1.0 <==> currentSpeed > 0.0
    ensures r == -1.0 <==> currentSpeed < 0.0
  {
    if currentSpeed == 0.0 then 0.0
    else if currentSpeed < 0.0 then -1.0
    else 1.0
  }

  /** The rotation about the up axis applied to the car this frame: none at a
      standstill, the steering angle per second forward, mirrored backward. */
  function HeadingDelta(steeringAngle: real, currentSpeed: real, dt: real): (r: real)
    ensures currentSpeed == 0.0 ==> r == 0.0
    ensures currentSpeed > 0.0 ==> r == steeringAngle * dt
    ensures currentSpeed < 0.0 ==> r == -(steeringAngle * dt)
  {
    steeringAngle * SpeedFactor(currentSpeed) * dt
  }

  /** The rear light: on with the reverse colour while reversing, on with the
      brake colour while braking, colours unscaled; off otherwise. */
  function RearLight(state: MotorState, brakeColor: Color, reverseColor: Color): (r: LightCommand)
    ensures r.On? <==> state == Reversing || state == Braking
    ensures r.On? ==> r.emission.intensity == 1.0
    ensures state == Reversing ==> r == On(Emission(reverseColor, 1.0))
    ensures state == Braking ==> r == On(Emission(brakeColor, 1.0))
  {
    match state
    case Reversing => On(Emission(reverseColor, 1.0))
    case Braking => On(Emission(brakeColor, 1.0))
    case Accelerating => Off
    case Idle => Off
  }

  /** With non-negative speed limits the target never opposes the input: it is
      non-negative for a forward input, non-positive for a backward one and
      zero for no input, whatever the previous speed. */
  lemma TargetFollowsInput(c: Config, accelerationInput: real, currentSpeed: real)
    requires c.maxSpeed >= 0.0 && c.maxReverseSpeed >= 0.0
    ensures var t := SetpointFor(c, Classify(accelerationInput, currentSpeed), accelerationInput).targetSpeed;
      (accelerationInput > 0.0 ==> t >= 0.0) &&
      (accelerationInput < 0.0 ==> t <= 0.0) &&
      (accelerationInput == 0.0 ==> t == 0.0)
  {
    var state := Classify(accelerationInput, currentSpeed);
    if state == Accelerating {
      MulMonotone(0.0, accelerationInput, c.maxSpeed / KmhPerMs);
    } else if state == Reversing {
      MulMonotone(accelerationInput, 0.0, c.maxReverseSpeed / KmhPerMs);
    }
  }

  /** The targets are bounded by the configured maxima, converted to m/s,
      when the input stays in [-1, 1]. */
  lemma TargetWithinLimits(c: Config, accelerationInput: real, currentSpeed: real)
    requires c.maxSpeed >= 0.0 && c.maxReverseSpeed >= 0.0
    requires -1.0 <= accelerationInput <= 1.0
    ensures var t := SetpointFor(c, Classify(accelerationInput, currentSpeed), accelerationInput).targetSpeed;
      -(c.maxReverseSpeed / KmhPerMs) <= t <= c.maxSpeed / KmhPerMs
  {
    var state := Classify(accelerationInput, currentSpeed);
    var t := SetpointFor(c, state, accelerationInput).targetSpeed;
    var forwardLimit := c.maxSpeed / KmhPerMs;
    var reverseLimit := c.maxReverseSpeed / KmhPerMs;
    assert forwardLimit >= 0.0 && reverseLimit >= 0.0;
    match state {
      case Accelerating =>
        assert t == forwardLimit * accelerationInput;
        MulMonotone(0.0, accelerationInput, forwardLimit);
        MulMonotone(accelerationInput, 1.0, forwardLimit);
        assert 0.0 <= t <= forwardLimit;
      case Reversing =>
        assert t == reverseLimit * accelerationInput;
        var pedal := -accelerationInput;
        MulMonotone(pedal, 1.0, reverseLimit);
        MulMonotone(0.0, pedal, reverseLimit);
        assert t == -(pedal * reverseLimit);
        assert 0.0 <= pedal * reverseLimit <= reverseLimit;
        assert t <= 0.0;
      case Braking =>
        assert t == 0.0;
      case Idle =>
        assert t == 0.0;
    }
  }

  /** Steering is mirrored in reverse: the same speed backward turns the car
      the other way by the same angle. */
  lemma SteeringMirrored(steeringAngle: real, currentSpeed: real, dt: real)
    ensures HeadingDelta(steeringAngle, -currentSpeed, dt) == -HeadingDelta(steeringAngle, currentSpeed, dt)
  {
  }

  /** The controller object: its tuning, the steered wheel transforms (each
      held as its yaw about the local up axis) and the fields it updates. */
  class CarControllerNoPhysics {
    const config: Config
    const steeringWheels: array<real>
    var accelerationInput: real
    var steeringInput: real
    var handbrakeIsSet: bool
    var motorState: MotorState
    var currentSpeed: real
    var smoothDampCurrentState: real
    var lightActive: bool
    var lightEmission: Emission

    constructor(config: Config, steeringWheels: array<real>, lightEmission: Emission)
      ensures this.config == config && this.steeringWheels == steeringWheels
      ensures accelerationInput == 0.0 && steeringInput == 0.0 && !handbrakeIsSet
      ensures motorState == Idle && currentSpeed == 0.0 && smoothDampCurrentState == 0.0
      ensures !lightActive && this.lightEmission == lightEmission
    {
      this.config := config;
      this.steeringWheels := steeringWheels;
      accelerationInput, steeringInput, handbrakeIsSet := 0.0, 0.0, false;
      motorState := Idle;
      currentSpeed, smoothDampCurrentState := 0.0, 0.0;
      lightActive := false;
      this.lightEmission := lightEmission;
    }

    /** Stores the sampled axes and button; sampling them is the caller's. */
    method UpdateInput(controls: Controls)
      modifies this`accelerationInput, this`steeringInput, this`handbrakeIsSet
      ensures accelerationInput == controls.accelerationInput
      ensures steeringInput == controls.steeringInput
      ensures handbrakeIsSet == controls.handbrakeIsSet
    {
      accelerationInput := controls.accelerationInput;
      steeringInput := controls.steeringInput;
      handbrakeIsSet := controls.handbrakeIsSet;
    }

    method UpdateMotorState()
      modifies this`motorState
      ensures motorState == Classify(accelerationInput, currentSpeed)
    {
      if accelerationInput > 0.0 {
        motorState := Accelerating;
      } else if accelerationInput < 0.0 {
        if currentSpeed <= 0.0 {
          motorState := Reversing;
        } else {
          motorState := Braking;
        }
      } else {
        motorState := Idle;
      }
    }

    /** Chooses the state's target and reference time, lets the damper move the
        speed, and returns the distance to translate along the heading. */
    method UpdateAcceleration(damp: Damper, dt: real) returns (distance: real)
      modifies this`currentSpeed, this`smoothDampCurrentState
      ensures var sp := SetpointFor(config, motorState, accelerationInput);
        var next := damp(old(currentSpeed), sp.targetSpeed, old(smoothDampCurrentState),
                         SmoothTime(sp.targetSpeed, old(currentSpeed), sp.referenceTime));
        currentSpeed == next.0 && smoothDampCurrentState == next.1
      ensures distance == currentSpeed * dt
    {
      var speedToReach := 0.0;
      var referenceTime := 0.0;
      match motorState {
        case Accelerating =>
          speedToReach := config.maxSpeed / KmhPerMs * accelerationInput;
          referenceTime := config.accelerationTime;
        case Braking =>
          speedToReach := 0.0;
          referenceTime := config.brakeTime;
        case Reversing =>
          speedToReach := config.maxReverseSpeed / KmhPerMs * accelerationInput;
          referenceTime := config.accelerationTime;
        case Idle =>
          speedToReach := 0.0;
          referenceTime := config.decelerationTime;
      }
      assert Setpoint(speedToReach, referenceTime) == SetpointFor(config, motorState, accelerationInput);
      var smoothTime := Abs(speedToReach - currentSpeed) * referenceTime / 100.0;
      assert smoothTime == SmoothTime(speedToReach, currentSpeed, referenceTime);
      var next := damp(currentSpeed, speedToReach, smoothDampCurrentState, smoothTime);
      currentSpeed, smoothDampCurrentState := next.0, next.1;
      distance := currentSpeed * dt;
    }

    /** Sets every steered wheel to the steering angle and returns the heading
        change for this frame. */
    method UpdateSteering(dt: real) returns (headingDelta: real)
      modifies steeringWheels
      ensures headingDelta == HeadingDelta(config.maxSteeringAngle * steeringInput, currentSpeed, dt)
      ensures forall k :: 0 <= k < steeringWheels.Length ==> steeringWheels[k] == config.maxSteeringAngle * steeringInput
    {
      var steeringAngle := config.maxSteeringAngle * steeringInput;
      var speedFactor := 1.0;
      if currentSpeed == 0.0 {
        speedFactor := 0.0;
      } else if currentSpeed < 0.0 {
        speedFactor := -speedFactor;
      }
      headingDelta := steeringAngle * speedFactor * dt;
      var i := 0;
      while i < steeringWheels.Length
        invariant 0 <= i <= steeringWheels.Length
        invariant forall k :: 0 <= k < i ==> steeringWheels[k] == steeringAngle
      {
        steeringWheels[i] := steeringAngle;
        i := i + 1;
      }
    }

    method UpdateRearLight()
      modifies this`lightActive, this`lightEmission
      ensures lightActive == RearLight(motorState, config.brakeLightColor, config.reverseLightColor).On?
      ensures lightEmission ==
        match RearLight(motorState, config.brakeLightColor, config.reverseLightColor)
        case On(e) => e
        case Off => old(lightEmission)
    {
      match motorState {
        case Reversing =>
          lightActive := true;
          lightEmission := Emission(config.reverseLightColor, 1.0);
        case Braking =>
          lightActive := true;
          lightEmission := Emission(config.brakeLightColor, 1.0);
        case _ =>
          lightActive := false;
      }
    }

    /** One frame: input, motor state, speed, steering, rear light. The motor
        state is classified from the speed of the previous frame, before this
        frame's speed update. */
    method Update(controls: Controls, damp: Damper, dt: real) returns (distance: real, headingDelta: real)
      modifies this, steeringWheels
      ensures motorState == Classify(controls.accelerationInput, old(currentSpeed))
      ensures var sp := SetpointFor(config, motorState, controls.accelerationInput);
        var next := damp(old(currentSpeed), sp.targetSpeed, old(smoothDampCurrentState),
                         SmoothTime(sp.targetSpeed, old(currentSpeed), sp.referenceTime));
        currentSpeed == next.0 && smoothDampCurrentState == next.1
      ensures distance == currentSpeed * dt
      ensures headingDelta == HeadingDelta(config.maxSteeringAngle * controls.steeringInput, currentSpeed, dt)
      ensures forall k :: 0 <= k < steeringWheels.Length ==>
        steeringWheels[k] == config.maxSteeringAngle * controls.steeringInput
      ensures accelerationInput == controls.accelerationInput
      ensures steeringInput == controls.steeringInput
      ensures handbrakeIsSet == controls.handbrakeIsSet
      ensures lightActive <==> motorState == Reversing || motorState == Braking
      ensures lightEmission ==
        match RearLight(motorState, config.brakeLightColor, config.reverseLightColor)
        case On(e) => e
        case Off => old(lightEmission)
    {
      UpdateInput(controls);
      UpdateMotorState();
      distance := UpdateAcceleration(damp, dt);
      headingDelta := UpdateSteering(dt);
      UpdateRearLight();
    }
  }
}
