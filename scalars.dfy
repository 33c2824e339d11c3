/** Scalar building blocks shared by the math library, the viewer and the OBJ reader:
    the C math routines the source calls, the two degree-to-radian conversions it uses,
    and the width of its unsigned integers. */
module Scalars {

  /** The C math library routines the source calls: `sqrt`, `sinf`/`sin`, `cosf`/`cos`
      and `tan`. Their floating-point values are not modelled, so every operation that
      needs one of them receives them as this parameter. */
  datatype Libm = Libm(sqrt: real -> real, sin: real -> real, cos: real -> real, tan: real -> real)

  /** M_PI as the C library defines it; `rotate` and `prespective` use it. */
  const Pi: real := 3.14159265358979323846

  /** A value that may be absent: a search that can fail, a line that can be rejected. */
  datatype Option<T> = None | Some(value: T)

  /** `unsigned int` / `GLuint`: 32-bit unsigned. */
  newtype uint32 = x: int | 0 <= x < 0x1_0000_0000

  /** The RADIANS macro of Math.h: degrees to radians with the truncated constant 3.1415. */
  function Radians(degrees: real): real
  {
    degrees * 3.1415 / 180.0
  }

  /** The conversion written out inside `rotate` and `prespective`: `angle * M_PI / 180`. */
  function DegreesToRadians(degrees: real): real
  {
    degrees * Pi / 180.0
  }

  /** RADIANS is not the M_PI conversion: for every positive angle it yields a strictly
      smaller value, and the two agree only at 0. */
  lemma RadiansUsesTruncatedPi(degrees: real)
    ensures Radians(180.0) == 3.1415 && DegreesToRadians(180.0) == Pi
    ensures degrees > 0.0 ==> Radians(degrees) < DegreesToRadians(degrees)
    ensures Radians(degrees) == DegreesToRadians(degrees) <==> degrees == 0.0
  {
  }
}
