/**
 * The hologram settings value object and Python's int() conversion of a float.
 * Floats are modelled as exact reals; IEEE rounding is not modelled.
 */
module Settings {

  /** The nine fields of the settings model, with their documented defaults in DefaultSettings. */
  datatype HologramSettings = HologramSettings(
    hologramSize: real,
    hologramPositionX: real,
    hologramPositionY: real,
    glowIntensity: real,
    flickerIntensity: real,
    scanlines: bool,
    blueTint: bool,
    rotationAngle: real,
    transparency: real)

  /** The value that Python constructs for `HologramSettings()` with no fields given. */
  const DefaultSettings := HologramSettings(0.3, 0.5, 0.5, 0.7, 0.3, true, true, 0.0, 0.7)

  /** Python's int() on a float: truncation toward zero. */
  function Trunc(x: real): int {
    if x >= 0.0 then x.Floor else -((-x).Floor)
  }

  /** Truncation drops the fractional part and keeps the sign: it moves toward zero by less than 1. */
  lemma TruncBounds(x: real)
    ensures x >= 0.0 ==> 0 <= Trunc(x) && Trunc(x) as real <= x < Trunc(x) as real + 1.0
    ensures x < 0.0 ==> Trunc(x) <= 0 && Trunc(x) as real - 1.0 < x <= Trunc(x) as real
  {
  }

  /** On the non-negative values the settings are meant to hold, truncation is the floor. */
  lemma TruncIsFloorOnNonNegative(x: real)
    requires x >= 0.0
    ensures Trunc(x) == x.Floor
  {
  }

  /** Truncation is monotone: a larger float never truncates to a smaller integer. */
  lemma TruncMonotone(x: real, y: real)
    requires x <= y
    ensures Trunc(x) <= Trunc(y)
  {
  }

  /** Truncating a real that already is an integer gives that integer back. */
  lemma TruncOfInteger(n: int)
    ensures Trunc(n as real) == n
  {
  }
}
