# Simple car controller, modelled in Dafny

A model of the decision logic of the two Unity car controllers in this
repository. Each turns three values sampled per frame (acceleration axis,
steering axis, handbrake button) into one of four motor states and derives
commands from it.

- `CarControllerPhysics` (module `Physics`, file `physics.dfy`) is torque based.
  On every fixed-rate tick it classifies the motor state from the rigid body's
  velocity and the car's forward axis. It then writes motor torque, brake torque
  to both wheels of every axle, and the steer angle to both wheels of the steered
  axles: a hard speed cap, engine braking when idle, and a handbrake that
  overrides the brakes of non-driven axles. On
  every frame it drives the rear light. `Remap` is its linear range mapping.
- `CarControllerNoPhysics` (module `Kinematic`, file `kinematic.dfy`) is
  kinematic. It keeps its own signed speed and classifies the motor state from
  the speed of the previous frame. It picks a target speed and a reference time
  per state, hands both to a smoothing routine, and returns the distance to
  translate. It turns the heading by the steering angle times the sign of the
  speed, sets every steered wheel to the steering angle, and drives the rear
  light.
- `vehicle.dfy` (module `Vehicle`) holds the shared types: the motor state, the
  sampled controls, colours and the rear-light command.
- `variants.dfy` (module `Variants`) states where the two classifiers agree and
  how the two rear lights differ.

Unity `float` is modelled as `real`. The velocity and forward axis are real
triples. The smoothing routine and the elapsed time are parameters. A wheel
collider is a record `{motorTorque, brakeTorque, steerAngle}` inside an axle
record, and the axle list is an array whose elements the physics tick
overwrites.

Each per-tick method is proved against a specification function. For the
physics variant these are `DriveTorque`, `BrakeTorque` and `SteerAngle`, which
give each actuator's end-of-tick value directly, with the handbrake's priority
explicit. `UpdateMovement` performs the source's sequence of writes (reset,
steer, per-state rule, handbrake override) and is proved to end in exactly the
state `TickAxles` describes.

The code does not guard the denominator of `Remap`. The model follows the code
and requires `max1 != min1` rather than inventing a clamp.

## Model

| member | source | states |
|---|---|---|
| Physics.Classify | Assets/CarControllerPhysics.cs:83-102 | a positive input gives ACCELERATING whatever the velocity, a zero input gives IDLE, and a negative input gives REVERSING exactly when the magnitude of v is below 0.01 or the velocity points against the forward axis (dot(v, forward) < 0), BRAKING otherwise |
| Physics.CarControllerPhysics.UpdateMotorState | Assets/CarControllerPhysics.cs:81-103 | the stored motor state becomes the classification of the current input, velocity and forward axis |
| Physics.SpeedBelowCap | Assets/CarControllerPhysics.cs:9 | the Speed property is the velocity's magnitude times 3.6 (IsSpeed: non-negative, and its square is 3.6² times the squared magnitude); for a non-negative cap in km/h, Speed < cap exactly when 3.6² times the squared magnitude is below the squared cap |
| Physics.DriveTorque | Assets/CarControllerPhysics.cs:127-140 | a wheel's motor torque is non-zero only on a driven axle with a non-zero input, while accelerating below maxSpeed or reversing below maxReverseSpeed |
| Physics.BrakeTorque | Assets/CarControllerPhysics.cs:121-153 | the handbrake on a non-driven axle sets brake torque fullMotorTorque*handbrakeFactor whatever the state; otherwise brake torque is non-zero only while braking or idle |
| Physics.SteerAngle | Assets/CarControllerPhysics.cs:116-120 | a steered axle's wheel gets fullSteeringAngle*steeringInput, any other wheel keeps its previous angle |
| Physics.WheelAfterTick | Assets/CarControllerPhysics.cs:112-153 | no wheel ends a tick with both motor torque and brake torque, the handbrake override included; a wheel of an unsteered axle keeps its steer angle |
| Physics.AxleAfterTick | Assets/CarControllerPhysics.cs:112-153 | an axle stays driven and steered as it was, and both its wheels end the tick with the same motor torque and the same brake torque |
| Physics.TickAxles | Assets/CarControllerPhysics.cs:110-154 | the axle list after a tick has the same length, and each axle is the per-axle result for its own previous value only (no cross-axle coupling) |
| Physics.CarControllerPhysics.UpdateMovement | Assets/CarControllerPhysics.cs:105-155 | the loop's in-place writes (reset both torques, steer, per-state rule, handbrake override) leave the axle array equal to the tick specification of its old contents; nothing but the axle array changes |
| Physics.CarControllerPhysics.FixedUpdate | Assets/CarControllerPhysics.cs:49-53 | the tick classifies first and drives the axles with the freshly classified state; the speed used for the caps is the velocity's magnitude in km/h |
| Physics.BrakingAxle | Assets/CarControllerPhysics.cs:123-126 | while braking, unless the handbrake overrides, both wheels of every axle, driven or not, get brake torque -(fullMotorTorque*input)*brakesFactor and no motor torque |
| Physics.AcceleratingAxle | Assets/CarControllerPhysics.cs:127-133 | while accelerating, both wheels get motor torque fullMotorTorque*input on a driven axle below maxSpeed and exactly 0 otherwise, with no brake torque unless the handbrake overrides |
| Physics.ReversingAxle | Assets/CarControllerPhysics.cs:134-140 | the same rule as accelerating, gated by maxReverseSpeed |
| Physics.SpeedCapIsHard | Assets/CarControllerPhysics.cs:127-140 | at or above the state's cap, no motor torque at all is written on any axle |
| Physics.IdleAxle | Assets/CarControllerPhysics.cs:141-144 | while idle, unless the handbrake overrides, every axle, driven or not, gets engine-brake torque fullMotorTorque*engineBrakeFactor and no motor torque |
| Physics.HandbrakeOverride | Assets/CarControllerPhysics.cs:149-153 | with the handbrake set, a non-driven axle ends with brake torque fullMotorTorque*handbrakeFactor and no motor torque, whatever the motor state |
| Physics.HandbrakeIgnoredOnDrivenAxle | Assets/CarControllerPhysics.cs:149 | on a driven axle the result is identical with and without the handbrake |
| Physics.AxleSteering | Assets/CarControllerPhysics.cs:116-120 | the steer angle fullSteeringAngle*steeringInput is written, the same on both wheels, on steered axles only; other axles keep each wheel's previous angle |
| Physics.TickIdempotent | Assets/CarControllerPhysics.cs:112-115 | the torques of a tick do not depend on the previous tick's, so applying the same tick twice equals applying it once |
| Physics.RearLight | Assets/CarControllerPhysics.cs:167-183 | the light is on exactly in REVERSING and BRAKING; REVERSING gives the reverse colour and BRAKING the brake colour, each at four times the intensity |
| Physics.CarControllerPhysics.UpdateRearLight | Assets/CarControllerPhysics.cs:167-183 | the light is switched on with the reverse colour ×4 for REVERSING or the brake colour ×4 for BRAKING; otherwise it is switched off and the material keeps its previous emission |
| Physics.CarControllerPhysics.Update | Assets/CarControllerPhysics.cs:55-60 | the frame stores the new input and lights the rear light from the motor state of the last physics tick, which it does not change; the emission becomes that state's light colour, or stays as it was when the light goes off |
| Physics.CarControllerPhysics.UpdateInput | Assets/CarControllerPhysics.cs:74-79 | the three sampled values become the controller's input fields |
| Physics.Remap | Assets/CarControllerPhysics.cs:195-198 | with max1 != min1, min1 maps to min2 and max1 maps to max2 |
| Physics.RemapInverse | Assets/CarControllerPhysics.cs:195-198 | remapping back with the ranges swapped returns the original value, so the mapping is a bijection |
| Kinematic.Classify | Assets/CarControllerNoPhysics.cs:52-73 | each state in terms of the input and the previous speed, in both directions: ACCELERATING iff input > 0; REVERSING iff input < 0 and speed <= 0; BRAKING iff input < 0 and speed > 0; IDLE iff input == 0 |
| Kinematic.CarControllerNoPhysics.UpdateMotorState | Assets/CarControllerNoPhysics.cs:52-73 | the stored motor state becomes the classification of the input and the stored speed |
| Kinematic.SetpointFor | Assets/CarControllerNoPhysics.cs:86-104 | the target speed is non-zero only while accelerating or reversing with a non-zero input; both of those use accelerationTime; BRAKING aims at 0 within brakeTime and IDLE at 0 within decelerationTime |
| Kinematic.SmoothTime | Assets/CarControllerNoPhysics.cs:105 | the smoothing time abs(target - speed) * referenceTime / 100 is non-negative for a non-negative reference time, and for a positive one it is zero exactly when the speed already equals the target |
| Kinematic.CarControllerNoPhysics.UpdateAcceleration | Assets/CarControllerNoPhysics.cs:82-108 | the speed and the damper memory become the damper's output for the state's target and reference time (ACCELERATING: maxSpeed/3.6*input and accelerationTime; BRAKING: 0 and brakeTime; REVERSING: maxReverseSpeed/3.6*input and accelerationTime; IDLE: 0 and decelerationTime), with the smoothing time taken from the speed before the update; the distance returned is the new speed times the frame time |
| Kinematic.TargetFollowsInput | Assets/CarControllerNoPhysics.cs:84-104 | with non-negative speed limits, the target of the classified state is >= 0 for a forward input, <= 0 for a backward input and 0 for no input, whatever the previous speed |
| Kinematic.TargetWithinLimits | Assets/CarControllerNoPhysics.cs:88-99 | for inputs in [-1, 1] the target lies between -maxReverseSpeed/3.6 and maxSpeed/3.6 |
| Kinematic.SpeedFactor | Assets/CarControllerNoPhysics.cs:113-121 | the factor is 0 exactly at zero speed, -1 exactly for negative speed and +1 exactly for positive speed |
| Kinematic.HeadingDelta | Assets/CarControllerNoPhysics.cs:112-123 | the heading change is 0 at a standstill, steeringAngle*dt when moving forward and -(steeringAngle*dt) when moving backward |
| Kinematic.SteeringMirrored | Assets/CarControllerNoPhysics.cs:112-123 | the same speed backward turns the car the other way by the same angle |
| Kinematic.CarControllerNoPhysics.UpdateSteering | Assets/CarControllerNoPhysics.cs:110-129 | returns the heading change maxSteeringAngle*steeringInput*speedFactor*dt, and every steered wheel's yaw becomes maxSteeringAngle*steeringInput, independent of the speed |
| Kinematic.RearLight | Assets/CarControllerNoPhysics.cs:131-147 | the light is on exactly in REVERSING and BRAKING; REVERSING gives the reverse colour and BRAKING the brake colour, both unscaled |
| Kinematic.CarControllerNoPhysics.UpdateRearLight | Assets/CarControllerNoPhysics.cs:131-147 | the light is switched on with the reverse colour for REVERSING or the brake colour for BRAKING; otherwise it is switched off and the material keeps its previous emission |
| Kinematic.CarControllerNoPhysics.UpdateInput | Assets/CarControllerNoPhysics.cs:75-80 | the three sampled values become the controller's input fields |
| Kinematic.CarControllerNoPhysics.Update | Assets/CarControllerNoPhysics.cs:30-38 | the motor state is classified from the speed of the previous frame (before this frame's speed update); speed, distance, heading change, wheel yaws and light then follow from that state; the stored inputs become the sampled controls, and the emission becomes that state's light colour or stays as it was when the light goes off |
| Variants.ClassifiersAgreeAlongHeading | Assets/CarControllerPhysics.cs:87-98 | for a car moving along its unit heading at signed speed s, the two classifiers agree except for a backward input at 0 < s < 0.01 m/s, where the torque-based one already reverses and the kinematic one brakes |
| Variants.RearLightsDifferOnlyInIntensity | Assets/CarControllerPhysics.cs:167-183 | both controllers switch the light on in the same states with the same colour; the torque-based one uses four times the intensity |

## Left out

- Input polling (`Input.GetAxis`, `Input.GetButton`) is I/O. `UpdateInput` takes the three sampled values as a parameter.
- `OnGUI` is a debug display. The jitter setting in `Awake` (`ConfigureVehicleSubsteps`) and the rigid-body lookup are engine setup.
- `UpdateWheelVisuals` copies the wheel collider's pose onto its visual child, or does nothing when there is no child. This is scene-graph plumbing, and the kinematic file's copy is never called.
- `Mathf.SmoothDamp` is an engine routine whose code is not part of this model. It is the `Damper` parameter. Nothing is claimed about convergence or overshoot.
- `transform.Translate` and `transform.Rotate` are engine geometry. The model returns their arguments instead: the distance along the heading, and the heading change about the up axis. A steered wheel's `Quaternion.AngleAxis` rotation is kept as its yaw angle.
- `UpdateCamera` in both files (noise amplitude gain and field of view) is camera plumbing. Only `Remap` is modelled.
- Float rounding is not modelled. `Mathf.Approximately(currentSpeed, 0)` is modelled as `currentSpeed == 0`. Unity's tolerance for a comparison with zero covers only values of subnormal size.
- Colour arithmetic is not modelled. A colour is opaque, and the ×4 of the torque-based light is recorded as an intensity factor on the emission.
- A wheel collider is a value inside its axle record. Two axles that share one collider object, and writes through such an alias, are not captured.
- The C# `MotorState` field starts at the enum's zero value, which names no state. The constructors start at `Idle` instead. Before the first physics tick the field is also read by `OnGUI` and the public `MotorState` property, which are not part of this model; among the modelled members only the rear-light update reads it, and its default branch switches the light off for both values.
- The physics `Speed` property is read on each axle's iteration. The model reads it once per tick. The velocity does not change within one fixed-rate tick, so the result is the same.
- The kinematic controller samples the handbrake button but never reads it. The model stores it and does nothing else with it.
- Physics.Remap: requires `max1 != min1`. The source divides unguarded, which in `float` yields an infinity or NaN that a real number cannot represent.
