/**
 * Shared vocabulary of the model: optional values (Java's nullable
 * references), the angle conversions of java.lang.Math, Java's truncating
 * integer division, and the vector values the perceptors deliver.
 */
module Common {

  /** A Java reference that may be null. */
  datatype Option<T> = None | Some(value: T)

  /**
   * The decimal reader: Double.parseDouble / Double.valueOf, None where
   * they throw NumberFormatException.
   */
  type NumberReader = string -> Option<real>

  /** Math.PI, written out as the decimal the JDK prints for it. */
  const PI: real := 3.141592653589793

  /** Math.toRadians, over the reals. */
  function ToRadians(deg: real): real
  {
    deg * PI / 180.0
  }

  /** Math.toDegrees, over the reals. */
  function ToDegrees(rad: real): real
  {
    rad * 180.0 / PI
  }

  lemma DegreesRadiansRoundTrip(deg: real)
    ensures ToDegrees(ToRadians(deg)) == deg
  {
  }

  function Abs(x: real): real
  {
    if x < 0.0 then -x else x
  }

  /**
   * Java's `int / int`: the quotient is truncated toward zero, unlike
   * Dafny's Euclidean division.
   */
  function JavaDiv(a: int, b: int): int
    requires b > 0
  {
    if a >= 0 then a / b else -((-a) / b)
  }

  /** A cartesian Vector3D value (accelerometer, gyroscope, foot force). */
  datatype Vec3 = Vec3(x: real, y: real, z: real)

  /**
   * A Vector3D built from a polar vision reading: distance, horizontal
   * angle alpha and vertical angle delta, both in radians.
   */
  datatype Polar = Polar(distance: real, alpha: real, delta: real)

  /** A string of `n` spaces. */
  function Spaces(n: nat): (s: string)
    ensures |s| == n && forall i :: 0 <= i < n ==> s[i] == ' '
  {
    if n == 0 then "" else Spaces(n - 1) + " "
  }
}
