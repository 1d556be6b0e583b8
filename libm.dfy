/** The C math library calls the kernel makes, kept uninterpreted.
    Nothing is assumed about these functions: a lemma that needs a value of
    one of them (sin 0 = 0, sqrt 1 = 1, ...) takes that value as a premise. */
module Libm {

  /** sqrt/sqrtf, sin/sinf, cos/cosf, tan, acos, asin/asinf, atan2/atan2f and
      the value of M_PI, supplied by the caller's platform. */
  datatype Libm = Libm(
    sqrt: real -> real,
    sin: real -> real,
    cos: real -> real,
    tan: real -> real,
    acos: real -> real,
    asin: real -> real,
    atan2: (real, real) -> real,
    pi: real)
}
