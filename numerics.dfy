/** Real-number helpers shared by every module: the C operators the sources
    rely on (`abs`, integer truncation, division) stated over `real`. */
module Numerics {

  /** Absolute value of a real. The sources call an unqualified `abs` on
      float differences; this model reads it as the real absolute value. */
  function Abs(x: real): (r: real)
    ensures r >= 0.0
    ensures r == x || r == -x
  {
    if x < 0.0 then -x else x
  }

  /** The C cast `(int)x`, which truncates toward zero. */
  function Trunc(x: real): (r: int)
    ensures 0.0 <= x ==> 0 <= r && r as real <= x < r as real + 1.0
    ensures x < 0.0 ==> r <= 0 && r as real - 1.0 < x <= r as real
  {
    if x >= 0.0 then x.Floor else -((-x).Floor)
  }

  /** Floating-point division `a / b`. For a zero divisor the source yields
      an infinity or a NaN, which a real cannot hold; the model yields 0 there. */
  function Quot(a: real, b: real): (r: real)
    ensures b != 0.0 ==> r * b == a
    ensures b == 0.0 ==> r == 0.0
  {
    if b == 0.0 then 0.0 else a / b
  }

  /** The input after the dither every engine adds to it:
      `input + 1e-6 * 2 * (u - 0.5)` for the uniform draw `u = rand()/RAND_MAX`,
      which lies in [0, 1]; it moves the input by at most 1e-6. */
  function Dithered(input: real, u: real): (r: real)
    requires 0.0 <= u <= 1.0
    ensures input - 1.0e-6 <= r <= input + 1.0e-6
  {
    input + 1.0e-6 * 2.0 * (u - 0.5)
  }

  /** Distributing a product over a sum, with the terms given: the solver
      then sees both sides as the same products. Used by the normal-form
      lemmas behind the trapezoidal residuals (`SallenKey.ResidualLeft`,
      `SallenKey.ScaledP0`, `SVFilter.ResidualExpanded`,
      `SVFilter.RuleExpanded`, `SVFilter.InverseResidualIsTrapezoidal`). */
  lemma MulAdd(a: real, b: real, c: real)
    ensures a * (b + c) == a * b + a * c
  {
  }

  /** Distributing a product over a difference. Used by
      `SallenKey.ScaledSlope1` and `SallenKey.ScaledP0`. */
  lemma MulSub(a: real, b: real, c: real)
    ensures a * (b - c) == a * b - a * c
  {
  }

  /** Distributing a difference over a product. Used by
      `SallenKey.ScaledP0`, `SallenKey.ScaledSlope` and
      `SVFilter.ResidualExpanded`. */
  lemma SubMul(a: real, b: real, c: real)
    ensures (a - b) * c == a * c - b * c
  {
  }

  /** Distributing a sum over a product. Used by `SallenKey.ScaledSlope`
      and `SVFilter.ResidualExpanded`. */
  lemma AddMul(a: real, b: real, c: real)
    ensures (a + b) * c == a * c + b * c
  {
  }

  /** Regrouping a product of three. Used by `SallenKey.ScaledP0`,
      `SallenKey.ScaledSlope` and `SVFilter.RuleExpanded`. */
  lemma MulAssoc(a: real, b: real, c: real)
    ensures (a * b) * c == a * (b * c)
  {
  }

  /** A product with a positive factor is positive only if the other factor
      is. Used by `Iir.PoleAngleInOpenQuadrant` and
      `Ladder.TrapezoidalCoefficients` to bound a quotient without dividing. */
  lemma PositiveFactor(x: real, y: real)
    requires y > 0.0 && x * y > 0.0
    ensures x > 0.0
  {
    assert x == (x * y) / y;
  }
}
