/** The state-variable engine of svfilter.cpp: a band-pass state `bp`
    integrated from the high-pass signal `hp = u - lp - fb*bp - sinh(bp)` and
    a low-pass state `lp` integrated from `bp`, with damping
    `fb = 1 - 3.5*Resonance`, run `oversamplingFactor` times per input sample
    by one of three schemes, tapped as low-, band- or high-pass and
    decimated through an order-16 Butterworth cascade. */
module SVFilter {
  import opened Numerics
  import opened FastMath
  import opened NewtonRaphson
  import opened Iir
  import opened Decimation

  /** `SVFFilterMode` of svfilter.h; `UnknownMode` is any other value of the
      enum, which the output switch sends to its `default` branch. */
  datatype SVFFilterMode = LowpassMode | BandpassMode | HighpassMode | UnknownMode

  /** `SVFIntegrationMethod` of svfilter.h; `UnknownMethod` is any other
      value. The integration switch has no case for the predictor-corrector,
      so it does nothing for it either. */
  datatype SVFIntegrationMethod =
    | SemiImplicitEuler
    | PredictorCorrector
    | Trapezoidal
    | InverseTrapezoidal
    | UnknownMethod

  /** `IIR_DOWNSAMPLE_ORDER`. */
  const DownsampleOrder: int := 16

  /** The integration rate `44100/(sampleRate*oversamplingFactor)*cutoff`,
      clamped at 0 from below only: unlike the other two engines there is
      no upper clamp here. */
  function IntegrationRate(sampleRate: real, oversamplingFactor: int, cutoff: real): (dt: real)
    requires sampleRate > 0.0 && oversamplingFactor >= 1
    ensures 0.0 <= dt
    ensures var raw := 44100.0 / OversampledRate(sampleRate, oversamplingFactor) * cutoff;
      && (0.0 <= raw ==> dt == raw)
      && (raw < 0.0 ==> dt == 0.0)
  {
    var dt := 44100.0 / OversampledRate(sampleRate, oversamplingFactor) * cutoff;
    if dt < 0.0 then 0.0 else dt
  }

  /** A higher cutoff never gives a lower integration rate and, with no
      upper clamp, a strictly higher one for non-negative cutoffs. */
  lemma IntegrationRateMonotone(sampleRate: real, oversamplingFactor: int, c1: real, c2: real)
    requires sampleRate > 0.0 && oversamplingFactor >= 1 && c1 <= c2
    ensures IntegrationRate(sampleRate, oversamplingFactor, c1) <= IntegrationRate(sampleRate, oversamplingFactor, c2)
    ensures 0.0 <= c1 < c2 ==> IntegrationRate(sampleRate, oversamplingFactor, c1) < IntegrationRate(sampleRate, oversamplingFactor, c2)
  {
    var k := 44100.0 / OversampledRate(sampleRate, oversamplingFactor);
    assert k > 0.0;
    assert k * c1 >= 0.0 <== c1 >= 0.0;
    assert k * c2 - k * c1 == k * (c2 - c1);
    assert c1 < c2 ==> k * (c2 - c1) > 0.0;
  }

  /** The largest rate each scheme is run at: 0.8 for the trapezoidal
      scheme, 1.0 for the inverse one and 0.25 for every other method. */
  function RateCap(m: SVFIntegrationMethod): (cap: real)
    ensures 0.25 <= cap <= 1.0
    ensures m == Trapezoidal ==> cap == 0.8
    ensures m == InverseTrapezoidal ==> cap == 1.0
  {
    match m
    case Trapezoidal => 0.8
    case InverseTrapezoidal => 1.0
    case _ => 0.25
  }

  /** The local rate `dt2` of one call: the stored rate, lowered to the cap
      of the selected scheme when it exceeds it. */
  function ClampedRate(m: SVFIntegrationMethod, dt: real): (dt2: real)
    ensures dt2 <= RateCap(m) && dt2 <= dt
    ensures dt2 == dt || dt2 == RateCap(m)
    ensures 0.0 <= dt ==> 0.0 <= dt2
  {
    if dt > RateCap(m) then RateCap(m) else dt
  }

  /** The loss factor `beta = 1 - 0.0025/oversamplingFactor` of every
      scheme: a slight damping of `bp`, lighter the higher the factor. */
  function Beta(oversamplingFactor: int): (beta: real)
    requires oversamplingFactor >= 1
    ensures 0.9975 <= beta < 1.0
  {
    var f := oversamplingFactor as real;
    var loss := 0.0025 / f;
    assert loss * f == 0.0025;
    1.0 - loss
  }

  // ---------------------------------------------------------------------
  // The integration schemes, one oversampling step each.

  /** The three outputs: the two states `lp` and `bp` and the high-pass
      signal `hp` last computed. */
  datatype Bands = Bands(lp: real, bp: real, hp: real)

  /** The high-pass signal `u - lp - fb*bp - sat(bp)`: the slope of `bp`. */
  function Highpass(sat: Curve, u: real, lp: real, bp: real, fb: real): real
  {
    u - lp - fb * bp - sat.At(bp)
  }

  /** Semi-implicit Euler: `hp` from the old states, then `bp` from the new
      `hp` (and damped by `beta`), then `lp` from the new `bp`. */
  function Euler(sinh: Curve, b: Bands, dt2: real, fb: real, beta: real, input: real): (r: Bands)
    ensures r.hp == Highpass(sinh, input, b.lp, b.bp, fb)
    ensures r.bp == beta * (b.bp + dt2 * r.hp)
    ensures r.lp - b.lp == dt2 * r.bp
  {
    var hp := Highpass(sinh, input, b.lp, b.bp, fb);
    var bp := beta * (b.bp + dt2 * hp);
    Bands(b.lp + dt2 * bp, bp, hp)
  }

  /** `alpha2 = dt2^2/4 + fb*alpha` of both trapezoidal schemes. */
  function Alpha2(dt2: real, fb: real): real
  {
    dt2 * dt2 / 4.0 + fb * (dt2 / 2.0)
  }

  /** The known right-hand side `D_t` of the implicit equation for `bp`,
      with `sat` the saturation the scheme evaluates at the old `bp`. */
  function TrapezoidalTarget(sat: Curve, b: Bands, dt2: real, fb: real, ut1: real, input: real): real
  {
    (1.0 - dt2 * dt2 / 4.0) * b.bp + dt2 / 2.0 * (ut1 + input - 2.0 * b.lp - fb * b.bp - sat.At(b.bp))
  }

  /** The residual `x + alpha*sat(x) + alpha2*x - D_t` of the implicit
      equation for the new `bp`. */
  function TrapezoidalResidual(sat: Curve, alpha: real, alpha2: real, d: real, x: real): real
  {
    x + alpha * sat.At(x) + alpha2 * x - d
  }

  /** One Newton step on that residual, with the derivative
      `1 + alpha*cosh(x) + alpha2` as the source writes it. */
  function TrapezoidalNewton(pade: Pade, alpha: real, alpha2: real, d: real, x: real): real
  {
    x - Quot(TrapezoidalResidual(pade.sinhPade54, alpha, alpha2, d, x), 1.0 + alpha * pade.coshPade54.At(x) + alpha2)
  }

  /** That step as the function the bounded loop iterates. */
  function TrapezoidalNewtonStep(pade: Pade, alpha: real, alpha2: real, d: real): real -> real
  {
    (x: real) => TrapezoidalNewton(pade, alpha, alpha2, d, x)
  }

  /** The residual `alpha*y + asinh(y)*(1 + alpha2) - D_t` of the inverse
      scheme, whose unknown is `y = sinh(bp)`. */
  function InverseResidual(asinh: Curve, alpha: real, alpha2: real, d: real, y: real): real
  {
    alpha * y + asinh.At(y) * (1.0 + alpha2) - d
  }

  /** One Newton step on the inverse residual, with the derivative
      `alpha + (1 + alpha2)*dasinh(y)`. */
  function InverseNewton(pade: Pade, alpha: real, alpha2: real, d: real, y: real): real
  {
    y - Quot(InverseResidual(pade.asinhPade54, alpha, alpha2, d, y), alpha + (1.0 + alpha2) * pade.dAsinhPade54.At(y))
  }

  /** That step as the function the bounded loop iterates. */
  function InverseNewtonStep(pade: Pade, alpha: real, alpha2: real, d: real): real -> real
  {
    (y: real) => InverseNewton(pade, alpha, alpha2, d, y)
  }

  /** The state update once the loop has left `x` as the undamped new `bp`:
      `lp` moves by `alpha` times the old and the new `bp` (the trapezoid
      rule for `dlp/dt = bp`), the new `bp` is `beta*x`, and `hp` is
      recomputed from the new states without the saturation term. */
  function TrapezoidalFinish(b: Bands, alpha: real, fb: real, beta: real, input: real, x: real): (r: Bands)
    ensures r.bp == beta * x
    ensures r.lp - b.lp == alpha * (b.bp + r.bp)
    ensures r.hp + r.lp + fb * r.bp == input
  {
    var lp := b.lp + alpha * b.bp;
    var bp := beta * x;
    var lp2 := lp + alpha * bp;
    Bands(lp2, bp, input - lp2 - fb * bp)
  }

  /** Implicit trapezoidal integration: the new `bp` from the bounded Newton
      loop started at the old `bp`, then `lp` and `hp` from it. */
  function TrapezoidalScheme(pade: Pade, b: Bands, dt2: real, fb: real, beta: real, ut1: real, input: real): (r: Bands)
    ensures r.lp - b.lp == dt2 / 2.0 * (b.bp + r.bp)
    ensures r.hp + r.lp + fb * r.bp == input
  {
    var alpha := dt2 / 2.0;
    var d := TrapezoidalTarget(pade.sinhPade54, b, dt2, fb, ut1, input);
    var x := Converge(TrapezoidalNewtonStep(pade, alpha, Alpha2(dt2, fb), d), b.bp, MaxIterations);
    TrapezoidalFinish(b, alpha, fb, beta, input, x)
  }

  /** Inverse trapezoidal integration: the same equation solved for
      `y = sinh(bp)` with the C library's `sinh`, started at `sinh` of the
      old `bp`; the new `bp` is `beta*asinh(y)`. */
  function InverseTrapezoidalScheme(pade: Pade, libm: Libm, b: Bands, dt2: real, fb: real, beta: real, ut1: real, input: real): (r: Bands)
    ensures r.lp - b.lp == dt2 / 2.0 * (b.bp + r.bp)
    ensures r.hp + r.lp + fb * r.bp == input
  {
    TrapezoidalFinish(b, dt2 / 2.0, fb, beta, input, InverseSolution(pade, libm, b, dt2, fb, ut1, input))
  }

  /** The undamped new `bp` of the inverse scheme: `asinh` of the point the
      bounded Newton loop leaves. */
  function InverseSolution(pade: Pade, libm: Libm, b: Bands, dt2: real, fb: real, ut1: real, input: real): real
  {
    var alpha := dt2 / 2.0;
    var d := TrapezoidalTarget(libm.sinh, b, dt2, fb, ut1, input);
    var y := Converge(InverseNewtonStep(pade, alpha, Alpha2(dt2, fb), d), libm.sinh.At(b.bp), MaxIterations);
    libm.asinh.At(y)
  }

  /** The scheme the integration switch selects; the predictor-corrector and
      an unknown method leave the states alone. */
  function Integrate(pade: Pade, libm: Libm, m: SVFIntegrationMethod, b: Bands, dt2: real, fb: real, beta: real,
                     ut1: real, input: real): (r: Bands)
    ensures m == PredictorCorrector || m == UnknownMethod ==> r == b
  {
    match m
    case SemiImplicitEuler => Euler(pade.sinhPade54, b, dt2, fb, beta, input)
    case Trapezoidal => TrapezoidalScheme(pade, b, dt2, fb, beta, ut1, input)
    case InverseTrapezoidal => InverseTrapezoidalScheme(pade, libm, b, dt2, fb, beta, ut1, input)
    case _ => b
  }

  // ---------------------------------------------------------------------
  // What the implicit equations mean.

  /** The implicit equation is the trapezoid rule for the continuous filter
      `dbp/dt = hp`, `dlp/dt = bp`: `x` is a root of the residual if and only
      if moving `bp` to `x` (and `lp` by the trapezoid rule to
      `lp + alpha*(bp + x)`) moves `bp` by `alpha` times the sum of the
      high-pass signal at the start (previous input `ut1`, old states) and
      at the end (current input, new states). */
  lemma ImplicitEquationIsTrapezoidRule(sat: Curve, b: Bands, dt2: real, fb: real, ut1: real, input: real, x: real)
    ensures var alpha := dt2 / 2.0;
      var lpEnd := b.lp + alpha * (b.bp + x);
      (TrapezoidalResidual(sat, alpha, Alpha2(dt2, fb), TrapezoidalTarget(sat, b, dt2, fb, ut1, input), x) == 0.0)
      <==> (x - b.bp == alpha * (Highpass(sat, ut1, b.lp, b.bp, fb) + Highpass(sat, input, lpEnd, x, fb)))
  {
    ResidualExpanded(sat, b, dt2, fb, ut1, input, x);
    RuleExpanded(sat, b, dt2, fb, ut1, input, x);
  }

  /** The residual with every product expanded. */
  lemma ResidualExpanded(sat: Curve, b: Bands, dt2: real, fb: real, ut1: real, input: real, x: real)
    ensures var alpha := dt2 / 2.0;
      TrapezoidalResidual(sat, alpha, Alpha2(dt2, fb), TrapezoidalTarget(sat, b, dt2, fb, ut1, input), x)
      == x + alpha * sat.At(x) + (alpha * alpha) * x + (fb * alpha) * x
         - b.bp + (alpha * alpha) * b.bp
         - alpha * ut1 - alpha * input + 2.0 * (alpha * b.lp) + (fb * alpha) * b.bp + alpha * sat.At(b.bp)
  {
    var alpha := dt2 / 2.0;
    assert dt2 * dt2 / 4.0 == alpha * alpha;
    MulAdd(alpha * alpha + fb * alpha, x, 0.0);
    AddMul(alpha * alpha, fb * alpha, x);
    SubMul(1.0, alpha * alpha, b.bp);
  }

  /** The trapezoid rule for `bp`, moved to one side, with every product
      expanded. */
  lemma RuleExpanded(sat: Curve, b: Bands, dt2: real, fb: real, ut1: real, input: real, x: real)
    ensures var alpha := dt2 / 2.0;
      var lpEnd := b.lp + alpha * (b.bp + x);
      x - b.bp - alpha * (Highpass(sat, ut1, b.lp, b.bp, fb) + Highpass(sat, input, lpEnd, x, fb))
      == x + alpha * sat.At(x) + (alpha * alpha) * x + (fb * alpha) * x
         - b.bp + (alpha * alpha) * b.bp
         - alpha * ut1 - alpha * input + 2.0 * (alpha * b.lp) + (fb * alpha) * b.bp + alpha * sat.At(b.bp)
  {
    var alpha := dt2 / 2.0;
    var lpEnd := b.lp + alpha * (b.bp + x);
    MulAdd(alpha, b.bp, x);
    MulAdd(alpha, Highpass(sat, ut1, b.lp, b.bp, fb), Highpass(sat, input, lpEnd, x, fb));
    MulAssoc(alpha, alpha, x);
    MulAssoc(alpha, alpha, b.bp);
  }

  /** The inverse scheme solves the same equation in the unknown
      `y = sinh(bp)`: wherever `asinh` undoes `sat` at `y`, its residual at
      `y` is the trapezoidal residual at `asinh(y)`. */
  lemma InverseResidualIsTrapezoidal(sat: Curve, asinh: Curve, alpha: real, alpha2: real, d: real, y: real)
    requires sat.At(asinh.At(y)) == y
    ensures InverseResidual(asinh, alpha, alpha2, d, y) == TrapezoidalResidual(sat, alpha, alpha2, d, asinh.At(y))
  {
    MulAdd(asinh.At(y), 1.0, alpha2);
  }

  /** A fixed point of the trapezoidal Newton step where the derivative does
      not vanish is a root of the implicit equation. */
  lemma NewtonFixedPointIsRoot(pade: Pade, alpha: real, alpha2: real, d: real, x: real)
    requires TrapezoidalNewton(pade, alpha, alpha2, d, x) == x
    requires 1.0 + alpha * pade.coshPade54.At(x) + alpha2 != 0.0
    ensures TrapezoidalResidual(pade.sinhPade54, alpha, alpha2, d, x) == 0.0
  {
    var g := TrapezoidalResidual(pade.sinhPade54, alpha, alpha2, d, x);
    var dg := 1.0 + alpha * pade.coshPade54.At(x) + alpha2;
    assert Quot(g, dg) * dg == g;
  }

  /** The same for the inverse scheme's Newton step. */
  lemma InverseNewtonFixedPointIsRoot(pade: Pade, alpha: real, alpha2: real, d: real, y: real)
    requires InverseNewton(pade, alpha, alpha2, d, y) == y
    requires alpha + (1.0 + alpha2) * pade.dAsinhPade54.At(y) != 0.0
    ensures InverseResidual(pade.asinhPade54, alpha, alpha2, d, y) == 0.0
  {
    var g := InverseResidual(pade.asinhPade54, alpha, alpha2, d, y);
    var dg := alpha + (1.0 + alpha2) * pade.dAsinhPade54.At(y);
    assert Quot(g, dg) * dg == g;
  }

  // ---------------------------------------------------------------------
  // A filter resting at a constant input stays there.

  /** The curves through the origin that the rest argument needs. */
  predicate OddAtZero(pade: Pade, libm: Libm)
  {
    && pade.sinhPade54.At(0.0) == 0.0 && pade.asinhPade54.At(0.0) == 0.0
    && libm.sinh.At(0.0) == 0.0 && libm.asinh.At(0.0) == 0.0
  }

  /** With the saturation curves through the origin, a filter whose low-pass
      state holds the constant input `u` (which was also the previous input)
      and whose other signals are zero is kept there by every scheme: the
      low-pass output passes a constant unchanged. */
  lemma IntegrateKeepsRest(pade: Pade, libm: Libm, m: SVFIntegrationMethod, dt2: real, fb: real, beta: real, u: real)
    requires OddAtZero(pade, libm)
    ensures Integrate(pade, libm, m, Bands(u, 0.0, 0.0), dt2, fb, beta, u, u) == Bands(u, 0.0, 0.0)
  {
    var b := Bands(u, 0.0, 0.0);
    match m {
      case SemiImplicitEuler =>
        assert Highpass(pade.sinhPade54, u, u, 0.0, fb) == 0.0;
      case Trapezoidal =>
        TrapezoidalKeepsRest(pade, dt2, fb, beta, u);
      case InverseTrapezoidal =>
        InverseTrapezoidalKeepsRest(pade, libm, dt2, fb, beta, u);
      case PredictorCorrector =>
      case UnknownMethod =>
    }
  }

  /** At rest the known side of the implicit equation is zero. */
  lemma TargetAtRest(sat: Curve, dt2: real, fb: real, u: real)
    requires sat.At(0.0) == 0.0
    ensures TrapezoidalTarget(sat, Bands(u, 0.0, 0.0), dt2, fb, u, u) == 0.0
  {
    assert u + u - 2.0 * u - fb * 0.0 - sat.At(0.0) == 0.0;
  }

  /** The finishing update of a step that leaves `bp` at zero keeps the rest. */
  lemma FinishAtRest(alpha: real, fb: real, beta: real, u: real)
    ensures TrapezoidalFinish(Bands(u, 0.0, 0.0), alpha, fb, beta, u, 0.0) == Bands(u, 0.0, 0.0)
  {
  }

  lemma TrapezoidalKeepsRest(pade: Pade, dt2: real, fb: real, beta: real, u: real)
    requires pade.sinhPade54.At(0.0) == 0.0
    ensures TrapezoidalScheme(pade, Bands(u, 0.0, 0.0), dt2, fb, beta, u, u) == Bands(u, 0.0, 0.0)
  {
    var alpha := dt2 / 2.0;
    var alpha2 := Alpha2(dt2, fb);
    TargetAtRest(pade.sinhPade54, dt2, fb, u);
    var d := TrapezoidalTarget(pade.sinhPade54, Bands(u, 0.0, 0.0), dt2, fb, u, u);
    assert TrapezoidalResidual(pade.sinhPade54, alpha, alpha2, d, 0.0) == 0.0;
    assert TrapezoidalNewtonStep(pade, alpha, alpha2, d)(0.0) == 0.0;
    ConvergeFromFixedPoint(TrapezoidalNewtonStep(pade, alpha, alpha2, d), 0.0, MaxIterations);
    FinishAtRest(alpha, fb, beta, u);
  }

  lemma InverseTrapezoidalKeepsRest(pade: Pade, libm: Libm, dt2: real, fb: real, beta: real, u: real)
    requires OddAtZero(pade, libm)
    ensures InverseTrapezoidalScheme(pade, libm, Bands(u, 0.0, 0.0), dt2, fb, beta, u, u) == Bands(u, 0.0, 0.0)
  {
    var alpha := dt2 / 2.0;
    var alpha2 := Alpha2(dt2, fb);
    TargetAtRest(libm.sinh, dt2, fb, u);
    var d := TrapezoidalTarget(libm.sinh, Bands(u, 0.0, 0.0), dt2, fb, u, u);
    assert InverseResidual(pade.asinhPade54, alpha, alpha2, d, 0.0) == 0.0;
    assert InverseNewtonStep(pade, alpha, alpha2, d)(0.0) == 0.0;
    ConvergeFromFixedPoint(InverseNewtonStep(pade, alpha, alpha2, d), 0.0, MaxIterations);
    FinishAtRest(alpha, fb, beta, u);
  }

  // ---------------------------------------------------------------------
  // Output tap and the oversampled tick.

  /** The output switch: low-pass `lp`, band-pass `bp`, high-pass `hp`,
      anything else 0. */
  function Tap(mode: SVFFilterMode, b: Bands): (y: real)
    ensures b == Bands(0.0, 0.0, 0.0) || mode == UnknownMode ==> y == 0.0
  {
    match mode
    case LowpassMode => b.lp
    case BandpassMode => b.bp
    case HighpassMode => b.hp
    case UnknownMode => 0.0
  }

  /** The settings a tick reads; `fb` is `1 - 3.5*Resonance` and `dt` the
      stored rate before the per-scheme cap. */
  datatype Settings = Settings(
    integration: SVFIntegrationMethod, mode: SVFFilterMode,
    dt: real, fb: real, oversamplingFactor: int)

  /** The state a tick changes inside its loop: the three signals, the
      output and the decimation filter's delay line. */
  datatype Voice = Voice(b: Bands, out: real, z: seq<real>)

  /** One oversampling step: integrate at the capped rate with the loss
      factor of the current oversampling factor, tap, and run the output
      through the decimation cascade when the factor exceeds 1. */
  function Step(pade: Pade, libm: Libm, s: Settings, c: Cascade, v: Voice, ut1: real, input: real): (w: Voice)
    requires s.oversamplingFactor >= 1 && Fits(c, v.z, |c.a1|)
    ensures |w.z| == |v.z|
  {
    var b := Integrate(pade, libm, s.integration, v.b, ClampedRate(s.integration, s.dt), s.fb,
                       Beta(s.oversamplingFactor), ut1, input);
    var y := Tap(s.mode, b);
    var r := if s.oversamplingFactor > 1 then Tick(c, v.z, y, |c.a1|) else (y, v.z);
    Voice(b, r.0, r.1)
  }

  /** `n` oversampling steps on the same input and the same previous input.
      Without oversampling the delay line of the decimation cascade is
      untouched, and in low-pass mode the output is then `lp`. */
  function Run(pade: Pade, libm: Libm, s: Settings, c: Cascade, v: Voice, ut1: real, input: real, n: nat): (w: Voice)
    requires s.oversamplingFactor >= 1 && Fits(c, v.z, |c.a1|)
    ensures |w.z| == |v.z|
    ensures s.oversamplingFactor == 1 ==> w.z == v.z
    ensures n >= 1 && s.oversamplingFactor == 1 && s.mode == LowpassMode ==> w.out == w.b.lp
    decreases n
  {
    if n == 0 then v else Step(pade, libm, s, c, Run(pade, libm, s, c, v, ut1, input, n - 1), ut1, input)
  }

  /** Under the predictor-corrector the states never move, whatever the
      input: only the output and the decimation delay line change. */
  lemma {:induction false} PredictorCorrectorFreezesStates(pade: Pade, libm: Libm, s: Settings, c: Cascade, v: Voice,
                                                            ut1: real, input: real, n: nat)
    requires s.oversamplingFactor >= 1 && Fits(c, v.z, |c.a1|)
    requires s.integration == PredictorCorrector
    ensures Run(pade, libm, s, c, v, ut1, input, n).b == v.b
    decreases n
  {
    if n > 0 {
      PredictorCorrectorFreezesStates(pade, libm, s, c, v, ut1, input, n - 1);
    }
  }

  /** The engine object. */
  class SVFilter {
    const pade: Pade
    const libm: Libm
    const iir: IIRLowpass

    var cutoffFrequency: real
    var resonance: real
    var oversamplingFactor: int
    var filterMode: SVFFilterMode
    var sampleRate: real
    var dt: real
    var integrationMethod: SVFIntegrationMethod

    var lp: real
    var bp: real
    var hp: real
    var ut1: real

    var out: real

    ghost var Repr: set<object>

    /** The decimation cascade is a separate order-16 Butterworth design at
        the oversampled rate with its cutoff at 0.9 of the base Nyquist
        frequency whose coefficient arrays hold that design, and `dt` is
        always the clamped rate of the parameters. */
    ghost predicate Valid()
      reads `Repr, `sampleRate, `oversamplingFactor, `cutoffFrequency, `dt, iir
      reads iir.a1, iir.a2, iir.K, iir.paReal, iir.paImag, iir.pReal, iir.pImag
    {
      && this in Repr && iir in Repr
      && iir.Repr <= Repr && this !in iir.Repr
      && iir.Valid()
      && iir.order == DownsampleOrder
      && sampleRate > 0.0 && oversamplingFactor >= 1
      && iir.samplerate == OversampledRate(sampleRate, oversamplingFactor)
      && iir.cutoff == DecimationCutoff(sampleRate)
      && dt == IntegrationRate(sampleRate, oversamplingFactor, cutoffFrequency)
      && iir.Designed()
    }

    ghost function Config(): Settings
      reads `integrationMethod, `filterMode, `dt, `resonance, `oversamplingFactor
    {
      Settings(integrationMethod, filterMode, dt, 1.0 - 3.5 * resonance, oversamplingFactor)
    }

    ghost function State(): Voice
      reads `lp, `bp, `hp, `out, iir, iir.z
    {
      Voice(Bands(lp, bp, hp), out, iir.z[..])
    }

    constructor (pade: Pade, libm: Libm, newCutoff: real, newResonance: real, newOversamplingFactor: int,
                 newFilterMode: SVFFilterMode, newSampleRate: real, newIntegrationMethod: SVFIntegrationMethod)
      requires newSampleRate > 0.0 && newOversamplingFactor >= 1
      ensures Valid() && fresh(Repr)
      ensures cutoffFrequency == newCutoff && resonance == newResonance
      ensures oversamplingFactor == newOversamplingFactor && filterMode == newFilterMode
      ensures sampleRate == newSampleRate && integrationMethod == newIntegrationMethod
      ensures lp == 0.0 && bp == 0.0 && hp == 0.0 && out == 0.0 && ut1 == 0.0
      ensures iir.Zeroed() && iir.Designed()
    {
      this.pade := pade;
      this.libm := libm;
      cutoffFrequency := newCutoff;
      resonance := newResonance;
      oversamplingFactor := newOversamplingFactor;
      filterMode := newFilterMode;
      sampleRate := newSampleRate;
      dt := IntegrationRate(newSampleRate, newOversamplingFactor, newCutoff);
      hp, bp, lp, out, ut1 := 0.0, 0.0, 0.0, 0.0, 0.0;
      integrationMethod := newIntegrationMethod;
      iir := new IIRLowpass(libm, OversampledRate(newSampleRate, newOversamplingFactor),
                            DecimationCutoff(newSampleRate), DownsampleOrder);
      new;
      Repr := {this} + iir.Repr;
    }

    /** The default engine: cutoff 0.25, resonance 0.5, factor 2, low-pass,
        44100 Hz, trapezoidal. */
    constructor Default(pade: Pade, libm: Libm)
      ensures Valid() && fresh(Repr)
      ensures cutoffFrequency == 0.25 && resonance == 0.5 && oversamplingFactor == 2
      ensures filterMode == LowpassMode && sampleRate == 44100.0
      ensures integrationMethod == Trapezoidal
      ensures lp == 0.0 && bp == 0.0 && hp == 0.0 && out == 0.0 && ut1 == 0.0
      ensures iir.Zeroed() && iir.Designed()
    {
      this.pade := pade;
      this.libm := libm;
      cutoffFrequency := 0.25;
      resonance := 0.5;
      oversamplingFactor := 2;
      filterMode := LowpassMode;
      sampleRate := 44100.0;
      dt := IntegrationRate(44100.0, 2, 0.25);
      hp, bp, lp, out, ut1 := 0.0, 0.0, 0.0, 0.0, 0.0;
      integrationMethod := Trapezoidal;
      iir := new IIRLowpass(libm, OversampledRate(44100.0, 2), DecimationCutoff(44100.0), DownsampleOrder);
      new;
      Repr := {this} + iir.Repr;
    }

    /** Cutoff 0.25, resonance 0.5, the three signals, the output and the
        previous input zeroed, and the decimation cascade redesigned (which
        zeroes its delay line); mode, method, factor and sample rate stay. */
    method ResetFilterState()
      requires Valid()
      modifies `cutoffFrequency, `resonance, `dt, `lp, `bp, `hp, `out, `ut1, iir.Repr
      ensures Valid()
      ensures cutoffFrequency == 0.25 && resonance == 0.5
      ensures lp == 0.0 && bp == 0.0 && hp == 0.0 && out == 0.0 && ut1 == 0.0
      ensures iir.Zeroed() && iir.Designed()
    {
      ResetFields();
      RedesignDecimation();
    }

    /** The engine's own part of the reset: parameters, rate, signals,
        output and previous input. */
    method ResetFields()
      requires sampleRate > 0.0 && oversamplingFactor >= 1
      modifies `cutoffFrequency, `resonance, `dt, `lp, `bp, `hp, `out, `ut1
      ensures cutoffFrequency == 0.25 && resonance == 0.5
      ensures dt == IntegrationRate(sampleRate, oversamplingFactor, cutoffFrequency)
      ensures lp == 0.0 && bp == 0.0 && hp == 0.0 && out == 0.0 && ut1 == 0.0
    {
      cutoffFrequency := 0.25;
      resonance := 0.5;
      SetFilterIntegrationRate();
      hp, bp, lp, out, ut1 := 0.0, 0.0, 0.0, 0.0, 0.0;
    }

    /** `dt = 44100/(sampleRate*oversamplingFactor)*cutoffFrequency`, raised
        to 0 when negative. */
    method SetFilterIntegrationRate()
      requires sampleRate > 0.0 && oversamplingFactor >= 1
      modifies `dt
      ensures dt == IntegrationRate(sampleRate, oversamplingFactor, cutoffFrequency)
    {
      dt := 44100.0 / OversampledRate(sampleRate, oversamplingFactor) * cutoffFrequency;
      if dt < 0.0 {
        dt := 0.0;
      }
    }

    /** `SetFilterSamplerate(sampleRate*oversamplingFactor)` then
        `SetFilterCutoff(0.9*sampleRate/2)` on the decimation cascade, each
        zeroing its delay line and redesigning it. */
    method RedesignDecimation()
      requires iir.Valid() && iir.order == DownsampleOrder && this !in iir.Repr
      requires sampleRate > 0.0 && oversamplingFactor >= 1
      modifies iir.Repr
      ensures iir.Valid() && iir.Repr == old(iir.Repr) && iir.order == DownsampleOrder
      ensures iir.samplerate == OversampledRate(sampleRate, oversamplingFactor)
      ensures iir.cutoff == DecimationCutoff(sampleRate)
      ensures iir.Zeroed() && iir.Designed()
    {
      iir.SetFilterSamplerate(OversampledRate(sampleRate, oversamplingFactor));
      iir.SetFilterCutoff(DecimationCutoff(sampleRate));
    }

    method SetFilterCutoff(newCutoff: real)
      requires Valid()
      modifies `cutoffFrequency, `dt
      ensures Valid()
      ensures cutoffFrequency == newCutoff
    {
      cutoffFrequency := newCutoff;
      SetFilterIntegrationRate();
    }

    method SetFilterResonance(newResonance: real)
      modifies `resonance
      ensures resonance == newResonance
    {
      resonance := newResonance;
    }

    /** Redesigns the decimation cascade for the new oversampled rate (which
        zeroes its delay line) and recomputes `dt`. */
    method SetFilterOversamplingFactor(newOversamplingFactor: int)
      requires Valid() && newOversamplingFactor >= 1
      modifies `oversamplingFactor, `dt, iir.Repr
      ensures Valid()
      ensures oversamplingFactor == newOversamplingFactor
      ensures iir.Zeroed() && iir.Designed()
    {
      oversamplingFactor := newOversamplingFactor;
      RedesignDecimation();
      SetFilterIntegrationRate();
    }

    method SetFilterMode(newFilterMode: SVFFilterMode)
      modifies `filterMode
      ensures filterMode == newFilterMode
    {
      filterMode := newFilterMode;
    }

    /** Redesigns the decimation cascade for the new rate and recomputes `dt`. */
    method SetFilterSampleRate(newSampleRate: real)
      requires Valid() && newSampleRate > 0.0
      modifies `sampleRate, `dt, iir.Repr
      ensures Valid()
      ensures sampleRate == newSampleRate
      ensures iir.Zeroed() && iir.Designed()
    {
      sampleRate := newSampleRate;
      RedesignDecimation();
      SetFilterIntegrationRate();
    }

    /** Selecting a method also resets the engine: cutoff 0.25, resonance
        0.5, every signal zeroed and the decimation cascade redesigned. */
    method SetFilterIntegrationMethod(newMethod: SVFIntegrationMethod)
      requires Valid()
      modifies `integrationMethod, `cutoffFrequency, `resonance, `dt, `lp, `bp, `hp, `out, `ut1, iir.Repr
      ensures Valid()
      ensures integrationMethod == newMethod
      ensures cutoffFrequency == 0.25 && resonance == 0.5
      ensures lp == 0.0 && bp == 0.0 && hp == 0.0 && out == 0.0 && ut1 == 0.0
      ensures iir.Zeroed() && iir.Designed()
    {
      integrationMethod := newMethod;
      ResetFilterState();
    }

    function GetFilterCutoff(): real
      reads this
    {
      cutoffFrequency
    }

    function GetFilterResonance(): real
      reads this
    {
      resonance
    }

    function GetFilterOversamplingFactor(): int
      reads this
    {
      oversamplingFactor
    }

    function GetFilterOutput(): real
      reads this
    {
      out
    }

    function GetFilterMode(): SVFFilterMode
      reads this
    {
      filterMode
    }

    function GetFilterSampleRate(): real
      reads this
    {
      sampleRate
    }

    function GetFilterIntegrationMethod(): SVFIntegrationMethod
      reads this
    {
      integrationMethod
    }

    function GetFilterLowpass(): real
      reads this
    {
      lp
    }

    function GetFilterBandpass(): real
      reads this
    {
      bp
    }

    function GetFilterHighpass(): real
      reads this
    {
      hp
    }

    /** One input sample. `u` is the draw `rand()/RAND_MAX`. The rate is
        capped for the selected scheme in a local copy (the stored `dt` is
        left alone), exactly `oversamplingFactor` steps of `Step` run on the
        dithered input and the previous call's input, and the dithered input
        then becomes the previous input. */
    method Filter(input: real, u: real)
      requires Valid() && 0.0 <= u <= 1.0
      modifies `lp, `bp, `hp, `out, `ut1, iir.z
      ensures ut1 == Dithered(input, u)
      ensures State() == Run(pade, libm, old(Config()), old(iir.Coeffs()), old(State()), old(ut1), ut1, oversamplingFactor)
    {
      var x := Dithered(input, u);
      var dt2 := ClampedRate(integrationMethod, dt);
      Oversampling(x, dt2);
      ut1 := x;
    }

    /** The oversampling loop: `oversamplingFactor` passes of its body on the
        same input. */
    method Oversampling(x: real, dt2: real)
      requires iir.Ready() && oversamplingFactor >= 1 && dt2 == ClampedRate(integrationMethod, dt)
      modifies `lp, `bp, `hp, `out, iir.z
      ensures State() == Run(pade, libm, old(Config()), old(iir.Coeffs()), old(State()), ut1, x, oversamplingFactor)
    {
      ghost var s, c, v := Config(), iir.Coeffs(), State();
      var nn := 0;
      while nn < oversamplingFactor
        invariant 0 <= nn <= oversamplingFactor
        invariant iir.Ready() && dt2 == ClampedRate(s.integration, s.dt)
        invariant Config() == s && iir.Coeffs() == c
        invariant State() == Run(pade, libm, s, c, v, ut1, x, nn)
      {
        Oversample(x, dt2, s, c);
        nn := nn + 1;
      }
    }

    /** One pass of the oversampling loop body: integrate by the selected
        scheme, tap the selected output and, when oversampling, push it
        through the decimation cascade. */
    method Oversample(x: real, dt2: real, ghost s: Settings, ghost c: Cascade)
      requires iir.Ready() && oversamplingFactor >= 1
      requires Config() == s && iir.Coeffs() == c && dt2 == ClampedRate(s.integration, s.dt)
      modifies `lp, `bp, `hp, `out, iir.z
      ensures iir.Ready() && Config() == s && iir.Coeffs() == c
      ensures State() == Step(pade, libm, s, c, old(State()), ut1, x)
    {
      ghost var v := State();
      var fb := 1.0 - 3.5 * resonance;
      var b := IntegrateStep(pade, libm, integrationMethod, Bands(lp, bp, hp), dt2, fb, oversamplingFactor, ut1, x);
      var y := Tap(filterMode, b);
      y := Decimate(y, s, c);
      ghost var r := (y, iir.z[..]);
      StepParts(pade, libm, s, c, v, ut1, x, b, r);
      Commit(b, y, s, c);
    }

    /** The pass through the decimation cascade when oversampling. */
    method Decimate(x: real, ghost s: Settings, ghost c: Cascade) returns (y: real)
      requires iir.Ready()
      requires Config() == s && iir.Coeffs() == c
      modifies iir.z
      ensures iir.Ready() && Config() == s && iir.Coeffs() == c
      ensures lp == old(lp) && bp == old(bp) && hp == old(hp) && out == old(out)
      ensures (y, iir.z[..]) == if s.oversamplingFactor > 1 then Tick(c, old(iir.z[..]), x, |c.a1|) else (x, old(iir.z[..]))
    {
      y := x;
      if oversamplingFactor > 1 {
        y := iir.IIRfilter(x);
      }
    }

    /** Stores the integrated signals and the output. */
    method Commit(b: Bands, y: real, ghost s: Settings, ghost c: Cascade)
      requires iir.Ready()
      requires Config() == s && iir.Coeffs() == c
      modifies `lp, `bp, `hp, `out
      ensures iir.Ready() && Config() == s && iir.Coeffs() == c
      ensures State() == Voice(b, y, old(iir.z[..]))
    {
      lp, bp, hp, out := b.lp, b.bp, b.hp, y;
    }
  }

  /** `Step` taken apart into its integration, its tap and its pass through
      the decimation cascade. */
  lemma StepParts(pade: Pade, libm: Libm, s: Settings, c: Cascade, v: Voice, ut1: real, x: real, b: Bands, r: (real, seq<real>))
    requires s.oversamplingFactor >= 1 && Fits(c, v.z, |c.a1|)
    requires b == Integrate(pade, libm, s.integration, v.b, ClampedRate(s.integration, s.dt), s.fb,
                            Beta(s.oversamplingFactor), ut1, x)
    requires r == if s.oversamplingFactor > 1 then Tick(c, v.z, Tap(s.mode, b), |c.a1|) else (Tap(s.mode, b), v.z)
    ensures Step(pade, libm, s, c, v, ut1, x) == Voice(b, r.0, r.1)
  {
  }

  /** The integration switch of the oversampling loop; each scheme computes
      its own loss factor from the oversampling factor. */
  method IntegrateStep(pade: Pade, libm: Libm, m: SVFIntegrationMethod, b: Bands, dt2: real, fb: real,
                       oversamplingFactor: int, ut1: real, input: real) returns (q: Bands)
    requires oversamplingFactor >= 1
    ensures q == Integrate(pade, libm, m, b, dt2, fb, Beta(oversamplingFactor), ut1, input)
  {
    match m {
      case SemiImplicitEuler =>
        var beta := 1.0 - 0.0025 / oversamplingFactor as real;
        q := EulerStep(pade, b, dt2, fb, beta, input);
      case Trapezoidal =>
        var beta := 1.0 - 0.0025 / oversamplingFactor as real;
        q := TrapezoidalStep(pade, b, dt2, fb, beta, ut1, input);
      case InverseTrapezoidal =>
        var beta := 1.0 - 0.0025 / oversamplingFactor as real;
        q := InverseTrapezoidalStep(pade, libm, b, dt2, fb, beta, ut1, input);
      case PredictorCorrector =>
        q := b;
      case UnknownMethod =>
        q := b;
    }
  }

  /** The Euler step as the source runs it, one assignment at a time. */
  method EulerStep(pade: Pade, b: Bands, dt2: real, fb: real, beta: real, input: real) returns (q: Bands)
    ensures q == Euler(pade.sinhPade54, b, dt2, fb, beta, input)
  {
    var lp, bp := b.lp, b.bp;
    var hp := input - lp - fb * bp - pade.sinhPade54.At(bp);
    bp := bp + dt2 * hp;
    bp := bp * beta;
    lp := lp + dt2 * bp;
    q := Bands(lp, bp, hp);
  }

  /** The trapezoidal step as the source runs it: the Newton loop for the
      new `bp`, then `lp`, `bp` and `hp` in turn. */
  method TrapezoidalStep(pade: Pade, b: Bands, dt2: real, fb: real, beta: real, ut1: real, input: real) returns (q: Bands)
    ensures q == TrapezoidalScheme(pade, b, dt2, fb, beta, ut1, input)
  {
    var alpha := dt2 / 2.0;
    var d := TrapezoidalTarget(pade.sinhPade54, b, dt2, fb, ut1, input);
    var x := Solve(TrapezoidalNewtonStep(pade, alpha, Alpha2(dt2, fb), d), b.bp);
    q := Advance(b, alpha, fb, beta, input, x);
  }

  /** The inverse trapezoidal step as the source runs it. */
  method InverseTrapezoidalStep(pade: Pade, libm: Libm, b: Bands, dt2: real, fb: real, beta: real, ut1: real, input: real)
    returns (q: Bands)
    ensures q == InverseTrapezoidalScheme(pade, libm, b, dt2, fb, beta, ut1, input)
  {
    var alpha := dt2 / 2.0;
    var d := TrapezoidalTarget(libm.sinh, b, dt2, fb, ut1, input);
    var y := Solve(InverseNewtonStep(pade, alpha, Alpha2(dt2, fb), d), libm.sinh.At(b.bp));
    q := Advance(b, alpha, fb, beta, input, libm.asinh.At(y));
  }

  /** `lp += alpha*bp; bp = beta*x; lp += alpha*bp; hp = input - lp - fb*bp`. */
  method Advance(b: Bands, alpha: real, fb: real, beta: real, input: real, x: real) returns (q: Bands)
    ensures q == TrapezoidalFinish(b, alpha, fb, beta, input, x)
  {
    var lp, bp := b.lp, b.bp;
    lp := lp + alpha * bp;
    bp := beta * x;
    lp := lp + alpha * bp;
    var hp := input - lp - fb * bp;
    q := Bands(lp, bp, hp);
  }
}
