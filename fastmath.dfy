/** The transcendental collaborators of the filters. Their definitions
    (the Padé approximants of fastmath.h and the C library's sin, cos,
    tan, sinh, asinh) are not part of this model: each engine receives
    them at construction and the proofs use nothing about them. */
module FastMath {

  /** A real function the model knows nothing about; whatever is proved
      holds for the function the engine is built with. */
  datatype Curve = Curve(f: real -> real)
  {
    /** The function's value at `x`. */
    function At(x: real): real
    {
      f(x)
    }
  }

  /** Rational approximations of hyperbolic functions used by the filters. */
  datatype Pade = Pade(
    tanhPade32: Curve,
    sinhPade34: Curve,
    sinhPade54: Curve,
    coshPade54: Curve,
    asinhPade54: Curve,
    dAsinhPade54: Curve)

  /** The C library functions the design code and one SVF scheme call. */
  datatype Libm = Libm(
    sin: Curve,
    cos: Curve,
    tan: Curve,
    sinh: Curve,
    asinh: Curve)

  /** The value of `M_PI`. */
  const Pi: real := 3.14159265358979323846
}
