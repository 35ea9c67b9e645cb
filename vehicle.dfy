/** Types shared by both car controllers: the motor state, one tick's driver
    input and the rear-light command. */
module Vehicle {

  /** What the driver is asking of the motor this tick. The source declares the
      four values as bit flags but never combines them, so they are a plain
      closed set here. */
  datatype MotorState = Accelerating | Braking | Reversing | Idle

  /** The three values sampled from the input axes and the handbrake button. */
  datatype Controls = Controls(accelerationInput: real, steeringInput: real, handbrakeIsSet: bool)

  /** A colour, kept opaque: the controllers only choose between two of them. */
  datatype Color = Color(r: real, g: real, b: real, a: real)

  /** An emission colour together with the factor the controller multiplies it by. */
  datatype Emission = Emission(color: Color, intensity: real)

  /** What a rear-light update does: switch the light off (its material keeps
      whatever emission it had) or switch it on with the given emission. */
  datatype LightCommand = Off | On(emission: Emission)

  /** Kilometres per hour in one metre per second. */
  const KmhPerMs: real := 3.6

  /** Multiplying by a non-negative factor keeps the order. */
  lemma MulMonotone(a: real, b: real, c: real)
    requires a <= b && c >= 0.0
    ensures a * c <= b * c
  {
    assert (b - a) * c >= 0.0;
    assert (b - a) * c == b * c - a * c;
  }

  /** A product of two positive factors is positive. */
  lemma MulPositive(a: real, b: real)
    requires a > 0.0 && b > 0.0
    ensures a * b > 0.0
  {
    MulMonotone(0.0, a, b);
    assert a * b != 0.0;
  }

  /** For non-negative values, squaring keeps the strict order. */
  lemma SquaresKeepOrder(a: real, b: real)
    requires a >= 0.0 && b >= 0.0
    ensures a < b <==> a * a < b * b
  {
    if a < b {
      MulPositive(b - a, b + a);
      assert (b - a) * (b + a) == b * b - a * a;
    } else {
      MulMonotone(b, a, a);
      MulMonotone(b, a, b);
    }
  }
}
