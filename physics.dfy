/** The torque-based controller: it classifies the motor state from the rigid
    body's velocity, writes motor torque, brake torque and steer angle to the
    wheels of every axle, drives the rear light, and provides the linear Remap
    its camera update uses. */
module Physics {
  import opened Vehicle

  datatype Vec3 = Vec3(x: real, y: real, z: real)

  function Dot(u: Vec3, v: Vec3): real
  {
    u.x * v.x + u.y * v.y + u.z * v.z
  }

  function Neg(v: Vec3): Vec3
  {
    Vec3(-v.x, -v.y, -v.z)
  }

  function Scale(v: Vec3, k: real): Vec3
  {
    Vec3(k * v.x, k * v.y, k * v.z)
  }

  function SqrMagnitude(v: Vec3): real
  {
    Dot(v, v)
  }

  /** Below this magnitude (in m/s) the car counts as standing still. */
  const StillThreshold: real := 0.01

  /** |v| < 0.01, stated on the squared magnitude so that no root is needed. */
  predicate NearlyStill(v: Vec3)
  {
    SqrMagnitude(v) < StillThreshold * StillThreshold
  }

  /** `speed` is the controller's Speed property for `velocity`: its magnitude in km/h. */
  predicate IsSpeed(speed: real, velocity: Vec3)
  {
    speed >= 0.0 && speed * speed == KmhPerMs * KmhPerMs * SqrMagnitude(velocity)
  }

  /** Comparing the Speed property with a non-negative cap in km/h is comparing
      the squared velocity, converted to km/h, with the squared cap. */
  lemma SpeedBelowCap(speed: real, velocity: Vec3, cap: real)
    requires IsSpeed(speed, velocity) && cap >= 0.0
    ensures speed < cap <==> KmhPerMs * KmhPerMs * SqrMagnitude(velocity) < cap * cap
  {
    SquaresKeepOrder(speed, cap);
  }

  /** The serialized tuning of a vehicle. */
  datatype Config = Config(
    fullMotorTorque: real,
    maxSpeed: real,          // km/h
    maxReverseSpeed: real,   // km/h
    fullSteeringAngle: real,
    brakesFactor: real,
    handbrakeFactor: real,
    engineBrakeFactor: real,
    brakeLightColor: Color,
    reverseLightColor: Color)

  /** The actuator values of one wheel collider. */
  datatype Wheel = Wheel(motorTorque: real, brakeTorque: real, steerAngle: real)

  /** An axle: its two wheels and whether it is driven and steered. */
  datatype Axle = Axle(left: Wheel, right: Wheel, hasMotor: bool, hasSteering: bool)

  /** The motor state for this physics tick. With a negative input the car
      reverses when it is nearly still or already moving against its heading,
      and brakes otherwise. */
  function Classify(accelerationInput: real, velocity: Vec3, forward: Vec3): (r: MotorState)
    ensures accelerationInput > 0.0 ==> r == Accelerating
    ensures accelerationInput == 0.0 ==> r == Idle
    ensures accelerationInput < 0.0 ==> r == Reversing || r == Braking
    ensures accelerationInput < 0.0 ==>
      (r == Reversing <==> NearlyStill(velocity) || Dot(velocity, forward) < 0.0)
  {
    if accelerationInput > 0.0 then Accelerating
    else if accelerationInput < 0.0 then
      if NearlyStill(velocity) || Dot(velocity, Neg(forward)) > 0.0 then Reversing else Braking
    else Idle
  }

  // What a wheel holds at the end of a tick, stated per actuator value.

  /** Motor torque: full torque times the input, on a driven axle only, while
      accelerating below the forward cap or reversing below the reverse cap. */
  function DriveTorque(c: Config, state: MotorState, input: Controls, speed: real, hasMotor: bool): (r: real)
    ensures r != 0.0 ==> hasMotor && input.accelerationInput != 0.0
    ensures r != 0.0 ==> (state == Accelerating && speed < c.maxSpeed) || (state == Reversing && speed < c.maxReverseSpeed)
  {
    match state
    case Accelerating =>
      if hasMotor && speed < c.maxSpeed then c.fullMotorTorque * input.accelerationInput else 0.0
    case Reversing =>
      if hasMotor && speed < c.maxReverseSpeed then c.fullMotorTorque * input.accelerationInput else 0.0
    case Braking => 0.0
    case Idle => 0.0
  }

  /** Brake torque: the handbrake on a non-driven axle takes precedence; otherwise
      the service brakes while braking, engine braking while idle, none else. */
  function BrakeTorque(c: Config, state: MotorState, input: Controls, hasMotor: bool): (r: real)
    ensures input.handbrakeIsSet && !hasMotor ==> r == c.fullMotorTorque * c.handbrakeFactor
    ensures r != 0.0 ==> (input.handbrakeIsSet && !hasMotor) || state == Braking || state == Idle
  {
    if input.handbrakeIsSet && !hasMotor then c.fullMotorTorque * c.handbrakeFactor
    else
      match state
      case Braking => -(c.fullMotorTorque * input.accelerationInput) * c.brakesFactor
      case Idle => c.fullMotorTorque * c.engineBrakeFactor
      case Accelerating => 0.0
      case Reversing => 0.0
  }

  /** Steer angle: written on steered axles, kept as it was elsewhere. */
  function SteerAngle(c: Config, input: Controls, hasSteering: bool, previous: real): (r: real)
    ensures !hasSteering ==> r == previous
    ensures hasSteering ==> r == c.fullSteeringAngle * input.steeringInput
  {
    if hasSteering then c.fullSteeringAngle * input.steeringInput else previous
  }

  /** One wheel at the end of a tick: never driven and braked at once, and
      keeping its steer angle unless its axle is steered. */
  function WheelAfterTick(c: Config, state: MotorState, input: Controls, speed: real,
                          hasMotor: bool, hasSteering: bool, w: Wheel): (r: Wheel)
    ensures r.motorTorque == 0.0 || r.brakeTorque == 0.0
    ensures !hasSteering ==> r.steerAngle == w.steerAngle
  {
    Wheel(DriveTorque(c, state, input, speed, hasMotor),
          BrakeTorque(c, state, input, hasMotor),
          SteerAngle(c, input, hasSteering, w.steerAngle))
  }

  /** One axle at the end of a tick: it stays driven or steered as it was, and
      both its wheels receive the same torques. */
  function AxleAfterTick(c: Config, state: MotorState, input: Controls, speed: real, ax: Axle): (r: Axle)
    ensures r.hasMotor == ax.hasMotor && r.hasSteering == ax.hasSteering
    ensures r.left.motorTorque == r.right.motorTorque && r.left.brakeTorque == r.right.brakeTorque
  {
    Axle(WheelAfterTick(c, state, input, speed, ax.hasMotor, ax.hasSteering, ax.left),
         WheelAfterTick(c, state, input, speed, ax.hasMotor, ax.hasSteering, ax.right),
         ax.hasMotor, ax.hasSteering)
  }

  /** The axle list after one physics tick: every axle is updated on its own. */
  function TickAxles(c: Config, state: MotorState, input: Controls, speed: real, axles: seq<Axle>): (r: seq<Axle>)
    ensures |r| == |axles|
    ensures forall k :: 0 <= k < |axles| ==> r[k] == AxleAfterTick(c, state, input, speed, axles[k])
  {
    if axles == [] then []
    else [AxleAfterTick(c, state, input, speed, axles[0])] + TickAxles(c, state, input, speed, axles[1..])
  }

  /** The rear light: on with the reverse colour while reversing, on with the
      brake colour while braking, both four times as intense; off otherwise. */
  function RearLight(state: MotorState, brakeColor: Color, reverseColor: Color): (r: LightCommand)
    ensures r.On? <==> state == Reversing || state == Braking
    ensures r.On? ==> r.emission.intensity == 4.0
    ensures state == Reversing ==> r == On(Emission(reverseColor, 4.0))
    ensures state == Braking ==> r == On(Emission(brakeColor, 4.0))
  {
    match state
    case Reversing => On(Emission(reverseColor, 4.0))
    case Braking => On(Emission(brakeColor, 4.0))
    case Accelerating => Off
    case Idle => Off
  }

  /** Linear map of `value` from [min1, max1] onto [min2, max2]. */
  function Remap(value: real, min1: real, max1: real, min2: real, max2: real): (r: real)
    requires max1 != min1
    ensures value == min1 ==> r == min2
    ensures value == max1 ==> r == max2
  {
    min2 + (value - min1) * ((max2 - min2) / (max1 - min1))
  }

  /** Mapping back with the two ranges swapped gives the original value. */
  lemma RemapInverse(value: real, min1: real, max1: real, min2: real, max2: real)
    requires max1 != min1 && max2 != min2
    ensures Remap(Remap(value, min1, max1, min2, max2), min2, max2, min1, max1) == value
  {
  }

  // Properties of one physics tick.

  lemma BrakingAxle(c: Config, input: Controls, speed: real, ax: Axle)
    requires !(input.handbrakeIsSet && !ax.hasMotor)
    ensures var r := AxleAfterTick(c, Braking, input, speed, ax);
      var brake := -(c.fullMotorTorque * input.accelerationInput) * c.brakesFactor;
      r.left.motorTorque == 0.0 && r.right.motorTorque == 0.0 &&
      r.left.brakeTorque == brake && r.right.brakeTorque == brake
  {
  }

  lemma AcceleratingAxle(c: Config, input: Controls, speed: real, ax: Axle)
    ensures var r := AxleAfterTick(c, Accelerating, input, speed, ax);
      var torque := if ax.hasMotor && speed < c.maxSpeed then c.fullMotorTorque * input.accelerationInput else 0.0;
      r.left.motorTorque == torque && r.right.motorTorque == torque &&
      (!(input.handbrakeIsSet && !ax.hasMotor) ==> r.left.brakeTorque == 0.0 && r.right.brakeTorque == 0.0)
  {
  }

  lemma ReversingAxle(c: Config, input: Controls, speed: real, ax: Axle)
    ensures var r := AxleAfterTick(c, Reversing, input, speed, ax);
      var torque := if ax.hasMotor && speed < c.maxReverseSpeed then c.fullMotorTorque * input.accelerationInput else 0.0;
      r.left.motorTorque == torque && r.right.motorTorque == torque &&
      (!(input.handbrakeIsSet && !ax.hasMotor) ==> r.left.brakeTorque == 0.0 && r.right.brakeTorque == 0.0)
  {
  }

  /** The speed cap is hard: at or above it no motor torque at all is written. */
  lemma SpeedCapIsHard(c: Config, input: Controls, speed: real, ax: Axle)
    ensures speed >= c.maxSpeed ==>
      AxleAfterTick(c, Accelerating, input, speed, ax).left.motorTorque == 0.0 &&
      AxleAfterTick(c, Accelerating, input, speed, ax).right.motorTorque == 0.0
    ensures speed >= c.maxReverseSpeed ==>
      AxleAfterTick(c, Reversing, input, speed, ax).left.motorTorque == 0.0 &&
      AxleAfterTick(c, Reversing, input, speed, ax).right.motorTorque == 0.0
  {
  }

  lemma IdleAxle(c: Config, input: Controls, speed: real, ax: Axle)
    requires !(input.handbrakeIsSet && !ax.hasMotor)
    ensures var r := AxleAfterTick(c, Idle, input, speed, ax);
      r.left.motorTorque == 0.0 && r.right.motorTorque == 0.0 &&
      r.left.brakeTorque == c.fullMotorTorque * c.engineBrakeFactor &&
      r.right.brakeTorque == c.fullMotorTorque * c.engineBrakeFactor
  {
  }

  /** The handbrake wins on a non-driven axle whatever the motor state. */
  lemma HandbrakeOverride(c: Config, state: MotorState, input: Controls, speed: real, ax: Axle)
    requires input.handbrakeIsSet && !ax.hasMotor
    ensures var r := AxleAfterTick(c, state, input, speed, ax);
      r.left.brakeTorque == c.fullMotorTorque * c.handbrakeFactor &&
      r.right.brakeTorque == c.fullMotorTorque * c.handbrakeFactor &&
      r.left.motorTorque == 0.0 && r.right.motorTorque == 0.0
  {
  }

  /** On a driven axle the handbrake changes nothing. */
  lemma HandbrakeIgnoredOnDrivenAxle(c: Config, state: MotorState, input: Controls, speed: real, ax: Axle)
    requires ax.hasMotor
    ensures AxleAfterTick(c, state, input.(handbrakeIsSet := true), speed, ax)
         == AxleAfterTick(c, state, input.(handbrakeIsSet := false), speed, ax)
  {
  }

  /** The steer angle is written, identically, on steered axles only. */
  lemma AxleSteering(c: Config, state: MotorState, input: Controls, speed: real, ax: Axle)
    ensures var r := AxleAfterTick(c, state, input, speed, ax);
      (ax.hasSteering ==> r.left.steerAngle == r.right.steerAngle == c.fullSteeringAngle * input.steeringInput) &&
      (!ax.hasSteering ==> r.left.steerAngle == ax.left.steerAngle && r.right.steerAngle == ax.right.steerAngle)
  {
  }

  /** The torques a tick writes do not depend on those of the previous tick, so
      running the same tick twice is the same as running it once. */
  lemma TickIdempotent(c: Config, state: MotorState, input: Controls, speed: real, axles: seq<Axle>)
    ensures TickAxles(c, state, input, speed, TickAxles(c, state, input, speed, axles))
         == TickAxles(c, state, input, speed, axles)
  {
  }

  /** The controller object: its tuning, its axles and the fields it updates. */
  class CarControllerPhysics {
    const config: Config
    const axles: array<Axle>
    var accelerationInput: real
    var steeringInput: real
    var handbrakeIsSet: bool
    var motorState: MotorState
    var lightActive: bool
    var lightEmission: Emission

    function Inputs(): Controls
      reads this
    {
      Controls(accelerationInput, steeringInput, handbrakeIsSet)
    }

    constructor(config: Config, axles: array<Axle>, lightEmission: Emission)
      ensures this.config == config && this.axles == axles
      ensures Inputs() == Controls(0.0, 0.0, false)
      ensures motorState == Idle && !lightActive && this.lightEmission == lightEmission
    {
      this.config := config;
      this.axles := axles;
      accelerationInput, steeringInput, handbrakeIsSet := 0.0, 0.0, false;
      motorState := Idle;
      lightActive := false;
      this.lightEmission := lightEmission;
    }

    /** Stores the sampled axes and button; sampling them is the caller's. */
    method UpdateInput(controls: Controls)
      modifies this`accelerationInput, this`steeringInput, this`handbrakeIsSet
      ensures Inputs() == controls
    {
      accelerationInput := controls.accelerationInput;
      steeringInput := controls.steeringInput;
      handbrakeIsSet := controls.handbrakeIsSet;
    }

    method UpdateMotorState(velocity: Vec3, forward: Vec3)
      modifies this`motorState
      ensures motorState == Classify(accelerationInput, velocity, forward)
    {
      if accelerationInput > 0.0 {
        motorState := Accelerating;
      } else if accelerationInput < 0.0 {
        if NearlyStill(velocity) || Dot(velocity, Neg(forward)) > 0.0 {
          motorState := Reversing;
        } else {
          motorState := Braking;
        }
      } else {
        motorState := Idle;
      }
    }

    /** Writes this tick's commands to every axle in turn: reset both torques,
        steer, apply the motor state's rule, then let the handbrake override the
        brakes of non-driven axles. `speed` is the Speed property, read once. */
    method UpdateMovement(speed: real)
      modifies axles
      ensures axles[..] == TickAxles(config, motorState, Inputs(), speed, old(axles[..]))
    {
      var motorTorque := config.fullMotorTorque * accelerationInput;
      var steeringAngle := config.fullSteeringAngle * steeringInput;
      var i := 0;
      while i < axles.Length
        invariant 0 <= i <= axles.Length
        invariant forall k :: 0 <= k < i ==> axles[k] == AxleAfterTick(config, motorState, Inputs(), speed, old(axles[k]))
        invariant forall k :: i <= k < axles.Length ==> axles[k] == old(axles[k])
      {
        var axle := axles[i];
        var left := axle.left.(motorTorque := 0.0, brakeTorque := 0.0);
        var right := axle.right.(motorTorque := 0.0, brakeTorque := 0.0);
        if axle.hasSteering {
          left := left.(steerAngle := steeringAngle);
          right := right.(steerAngle := steeringAngle);
        }
        match motorState {
          case Braking =>
            left := left.(brakeTorque := -motorTorque * config.brakesFactor);
            right := right.(brakeTorque := -motorTorque * config.brakesFactor);
          case Accelerating =>
            if axle.hasMotor && speed < config.maxSpeed {
              left := left.(motorTorque := motorTorque);
              right := right.(motorTorque := motorTorque);
            }
          case Reversing =>
            if axle.hasMotor && speed < config.maxReverseSpeed {
              left := left.(motorTorque := motorTorque);
              right := right.(motorTorque := motorTorque);
            }
          case Idle =>
            left := left.(brakeTorque := config.fullMotorTorque * config.engineBrakeFactor);
            right := right.(brakeTorque := config.fullMotorTorque * config.engineBrakeFactor);
        }
        if handbrakeIsSet && !axle.hasMotor {
          left := left.(brakeTorque := config.fullMotorTorque * config.handbrakeFactor);
          right := right.(brakeTorque := config.fullMotorTorque * config.handbrakeFactor);
        }
        axles[i] := Axle(left, right, axle.hasMotor, axle.hasSteering);
        i := i + 1;
      }
    }

    /** The fixed-rate tick: classify, then drive the axles with that state. */
    method FixedUpdate(velocity: Vec3, forward: Vec3, speed: real)
      requires IsSpeed(speed, velocity)
      modifies this`motorState, axles
      ensures motorState == Classify(accelerationInput, velocity, forward)
      ensures axles[..] == TickAxles(config, motorState, Inputs(), speed, old(axles[..]))
    {
      UpdateMotorState(velocity, forward);
      UpdateMovement(speed);
    }

    method UpdateRearLight()
      modifies this`lightActive, this`lightEmission
      ensures lightActive == RearLight(motorState, config.brakeLightColor, config.reverseLightColor).On?
      ensures lightEmission ==
        match RearLight(motorState, config.brakeLightColor, config.reverseLightColor)
        case On(e) => e
        case Off => old(lightEmission)
    {
      match motorState {
        case Reversing =>
          lightActive := true;
          lightEmission := Emission(config.reverseLightColor, 4.0);
        case Braking =>
          lightActive := true;
          lightEmission := Emission(config.brakeLightColor, 4.0);
        case _ =>
          lightActive := false;
      }
    }

    /** The render-rate tick: store the input, then light the rear light from
        the motor state of the last physics tick, not from this input. */
    method Update(controls: Controls)
      modifies this`accelerationInput, this`steeringInput, this`handbrakeIsSet, this`lightActive, this`lightEmission
      ensures Inputs() == controls && motorState == old(motorState)
      ensures lightActive <==> old(motorState) == Reversing || old(motorState) == Braking
      ensures lightEmission ==
        match RearLight(motorState, config.brakeLightColor, config.reverseLightColor)
        case On(e) => e
        case Off => old(lightEmission)
    {
      UpdateInput(controls);
      UpdateRearLight();
    }
  }
}
