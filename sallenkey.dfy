/** The two-pole Sallen-Key engine of sallenkey.cpp: a low-pass state `p0`
    feeding a saturating state `p1` through the resonance feedback
    `fb = bp + 4*Resonance*p1`, driven by three routed inputs, integrated
    `oversamplingFactor` times per input sample by one of three schemes and
    decimated through an order-8 Butterworth cascade. */
module SallenKey {
  import opened Numerics
  import opened FastMath
  import opened NewtonRaphson
  import opened Iir
  import opened Decimation

  /** `SKFilterMode` of sallenkey.h; `UnknownMode` is any other value of the
      enum, which the routing switch sends to its `default` branch. */
  datatype SKFilterMode = LowpassMode | BandpassMode | HighpassMode | UnknownMode

  /** `SKIntegrationMethod` of sallenkey.h; `UnknownMethod` is any other
      value, for which the integration switch does nothing. */
  datatype SKIntegrationMethod = SemiImplicitEuler | PredictorCorrector | Trapezoidal | UnknownMethod

  /** `IIR_DOWNSAMPLE_ORDER`. */
  const DownsampleOrder: int := 8

  /** The integration rate `44100/(sampleRate*oversamplingFactor)*cutoff`,
      clamped into [0, 0.35]. */
  function IntegrationRate(sampleRate: real, oversamplingFactor: int, cutoff: real): (dt: real)
    requires sampleRate > 0.0 && oversamplingFactor >= 1
    ensures 0.0 <= dt <= 0.35
    ensures var raw := 44100.0 / OversampledRate(sampleRate, oversamplingFactor) * cutoff;
      && (0.0 <= raw <= 0.35 ==> dt == raw)
      && (raw < 0.0 ==> dt == 0.0)
      && (raw > 0.35 ==> dt == 0.35)
  {
    var dt := 44100.0 / OversampledRate(sampleRate, oversamplingFactor) * cutoff;
    if dt < 0.0 then 0.0 else if dt > 0.35 then 0.35 else dt
  }

  /** A higher cutoff never gives a lower integration rate. */
  lemma IntegrationRateMonotone(sampleRate: real, oversamplingFactor: int, c1: real, c2: real)
    requires sampleRate > 0.0 && oversamplingFactor >= 1 && c1 <= c2
    ensures IntegrationRate(sampleRate, oversamplingFactor, c1) <= IntegrationRate(sampleRate, oversamplingFactor, c2)
  {
    var k := 44100.0 / OversampledRate(sampleRate, oversamplingFactor);
    assert k > 0.0;
    assert k * c2 - k * c1 == k * (c2 - c1) >= 0.0;
  }

  // ---------------------------------------------------------------------
  // Inputs and their routing.

  /** The low-, band- and high-pass inputs of the engine. */
  datatype Inputs = Inputs(lp: real, bp: real, hp: real)

  /** The inputs an integration scheme reads: the low- and band-pass ones. */
  datatype Drive = Drive(lp: real, bp: real)

  /** The mode switch at the start of a tick: the input goes to the one
      input the mode names and the other two are zeroed; an unknown mode
      zeroes all three. */
  function Route(mode: SKFilterMode, x: real): (r: Inputs)
    ensures r.lp + r.bp + r.hp == (if mode == UnknownMode then 0.0 else x)
    ensures (r.lp == 0.0 && r.bp == 0.0) || (r.lp == 0.0 && r.hp == 0.0) || (r.bp == 0.0 && r.hp == 0.0)
    ensures r.lp != 0.0 ==> mode == LowpassMode
    ensures r.bp != 0.0 ==> mode == BandpassMode
    ensures r.hp != 0.0 ==> mode == HighpassMode
  {
    match mode
    case LowpassMode => Inputs(x, 0.0, 0.0)
    case BandpassMode => Inputs(0.0, x, 0.0)
    case HighpassMode => Inputs(0.0, 0.0, x)
    case UnknownMode => Inputs(0.0, 0.0, 0.0)
  }

  // ---------------------------------------------------------------------
  // The three integration schemes, one oversampling step each.

  /** The two states `p0` and `p1`. */
  datatype Poles = Poles(p0: real, p1: real)

  /** The resonance feedback `bp + res*p1`. */
  function Feedback(bp: real, res: real, p1: real): real
  {
    bp + res * p1
  }

  /** The saturation term `SinhPade(4x)/4` of the second state. */
  function Saturation(sinh: Curve, x: real): real
  {
    0.25 * sinh.At(4.0 * x)
  }

  /** The slope of `p0`: `lp - p0 - fb`. */
  function Slope0(p0: real, lp: real, fb: real): real
  {
    lp - p0 - fb
  }

  /** The slope of `p1`: `p0 + fb - p1 - sat`. */
  function Slope1(p0: real, fb: real, p1: real, sat: real): real
  {
    p0 + fb - p1 - sat
  }

  /** Semi-implicit Euler: `p0` moves first, and the `p1` update sees the new
      `p0`, which is also where its saturation is evaluated. */
  function Euler(pade: Pade, p: Poles, dt: real, res: real, cur: Drive): (r: Poles)
    ensures dt == 0.0 ==> r == p
  {
    var fb := Feedback(cur.bp, res, p.p1);
    var q0 := p.p0 + dt * Slope0(p.p0, cur.lp, fb);
    var q1 := p.p1 + dt * Slope1(q0, fb, p.p1, Saturation(pade.sinhPade34, q0));
    Poles(q0, q1)
  }

  /** Predictor-corrector: an Euler predictor from the previous inputs, then
      each state moves by `dt/2` times the sum of its slope at the start and
      at the predicted end, the end slope driven by the current inputs. The
      saturation term of both `p1` slopes is evaluated at the starting `p1`. */
  function PredictorCorrectorStep(pade: Pade, p: Poles, dt: real, res: real, cur: Drive, prev: Drive): (r: Poles)
    ensures dt == 0.0 ==> r == p
  {
    var sat := Saturation(pade.sinhPade34, p.p1);
    var fb := Feedback(prev.bp, res, p.p1);
    var d0 := p.p0 + dt * Slope0(p.p0, prev.lp, fb);
    var d1 := p.p1 + dt * Slope1(p.p0, fb, p.p1, sat);
    var fb2 := Feedback(cur.bp, res, d1);
    var q1 := p.p1 + 0.5 * dt * (Slope1(p.p0, fb, p.p1, sat) + Slope1(d0, fb2, d1, sat));
    var q0 := p.p0 + 0.5 * dt * (Slope0(p.p0, prev.lp, fb) + Slope0(d0, cur.lp, fb2));
    Poles(q0, q1)
  }

  /** The Euler scheme is semi-implicit: `p0` moves by `dt` times its slope
      with the feedback of the old `p1`, and `p1` then moves by `dt` times
      its slope driven by the NEW `p0`, with the saturation taken at the NEW
      `p0`. */
  lemma EulerIsSemiImplicit(pade: Pade, p: Poles, dt: real, res: real, cur: Drive)
    ensures var r := Euler(pade, p, dt, res, cur);
      var fb := cur.bp + res * p.p1;
      && r.p0 - p.p0 == dt * (cur.lp - p.p0 - fb)
      && r.p1 - p.p1 == dt * (r.p0 + fb - p.p1 - pade.sinhPade34.At(4.0 * r.p0) / 4.0)
  {
  }

  /** The predictor-corrector scheme is Heun's method: an Euler predictor
      `(d0, d1)` from the previous inputs, then each state moves by `dt/2`
      times its slope at the start plus its slope at the predicted end, the
      end slope seeing the current inputs and the feedback of `d1`. */
  lemma PredictorCorrectorIsHeun(pade: Pade, p: Poles, dt: real, res: real, cur: Drive, prev: Drive)
    ensures var r := PredictorCorrectorStep(pade, p, dt, res, cur, prev);
      var sat := pade.sinhPade34.At(4.0 * p.p1) / 4.0;
      var fb := prev.bp + res * p.p1;
      var d0 := p.p0 + dt * (prev.lp - p.p0 - fb);
      var d1 := p.p1 + dt * (p.p0 + fb - p.p1 - sat);
      var fb2 := cur.bp + res * d1;
      && r.p0 - p.p0 == dt / 2.0 * ((prev.lp - p.p0 - fb) + (cur.lp - d0 - fb2))
      && r.p1 - p.p1 == dt / 2.0 * ((p.p0 + fb - p.p1 - sat) + (d0 + fb2 - d1 - sat))
  {
  }

  /** `alpha - alpha^2/(1 + alpha)` of the trapezoidal scheme. */
  function Share(alpha: real): real
    requires alpha >= 0.0
  {
    alpha - alpha * alpha / (1.0 + alpha)
  }

  /** The part of the new `p0` that does not depend on the new `p1`:
      `p0/(1 + alpha) + alpha/(1 + alpha)*(lp_t1 - p0 - fb_t + lp)`. */
  function KnownP0(p: Poles, alpha: real, fbT: real, cur: Drive, prev: Drive): real
    requires alpha >= 0.0
  {
    p.p0 / (1.0 + alpha) + alpha / (1.0 + alpha) * (prev.lp - p.p0 - fbT + cur.lp)
  }

  /** The new `p0` once the new `p1` (and with it the new feedback `fb`) is
      known. */
  function TrapezoidalP0(p: Poles, alpha: real, fbT: real, fb: real, cur: Drive, prev: Drive): real
    requires alpha >= 0.0
  {
    p.p0 / (1.0 + alpha) + alpha / (1.0 + alpha) * (prev.lp - p.p0 - fbT + cur.lp - fb)
  }

  /** The coefficient `c` of the unknown in the implicit equation for `p1`. */
  function TrapezoidalSlope(alpha: real, res: real): real
    requires alpha >= 0.0
  {
    1.0 - Share(alpha) * res + alpha
  }

  /** The known right-hand side `D_n` of the implicit equation for `p1`. */
  function TrapezoidalTarget(pade: Pade, p: Poles, alpha: real, res: real, cur: Drive, prev: Drive): real
    requires alpha >= 0.0
  {
    var fbT := Feedback(prev.bp, res, p.p1);
    var a := Slope1(p.p0, fbT, p.p1, Saturation(pade.sinhPade54, p.p1)) + KnownP0(p, alpha, fbT, cur, prev);
    p.p1 + alpha * a + Share(alpha) * cur.bp
  }

  /** One Newton step on `c*x + alpha*SinhPade54(4x)/4 - D_n = 0`, with the
      derivative `c + alpha*CoshPade54(4x)` as the source writes it. */
  function TrapezoidalNewton(pade: Pade, alpha: real, c: real, d: real, x: real): real
  {
    x - Quot(c * x + alpha * Saturation(pade.sinhPade54, x) - d, c + alpha * pade.coshPade54.At(4.0 * x))
  }

  /** That step as the function the bounded loop iterates. */
  function TrapezoidalNewtonStep(pade: Pade, alpha: real, c: real, d: real): real -> real
  {
    (x: real) => TrapezoidalNewton(pade, alpha, c, d, x)
  }

  /** The value of the Newton step at one point. */
  lemma NewtonStepAt(pade: Pade, alpha: real, c: real, d: real, x: real)
    ensures TrapezoidalNewtonStep(pade, alpha, c, d)(x) == TrapezoidalNewton(pade, alpha, c, d, x)
  {
  }

  /** The new `p1`: the bounded Newton iteration started at the old `p1`. */
  function TrapezoidalP1(pade: Pade, p: Poles, dt: real, res: real, cur: Drive, prev: Drive): real
    requires dt >= 0.0
  {
    var alpha := dt / 2.0;
    var c := TrapezoidalSlope(alpha, res);
    var d := TrapezoidalTarget(pade, p, alpha, res, cur, prev);
    Converge(TrapezoidalNewtonStep(pade, alpha, c, d), p.p1, MaxIterations)
  }

  /** Implicit trapezoidal integration: `p1` from the Newton loop, then `p0`
      from it. */
  function TrapezoidalScheme(pade: Pade, p: Poles, dt: real, res: real, cur: Drive, prev: Drive): Poles
    requires dt >= 0.0
  {
    TrapezoidalFinish(p, dt / 2.0, res, cur, prev, TrapezoidalP1(pade, p, dt, res, cur, prev))
  }

  /** The new state pair once the loop has left `x` as the new `p1`: `p0`
      takes the trapezoid step of its own equation, driven by the new
      feedback `bp + res*x`. */
  function TrapezoidalFinish(p: Poles, alpha: real, res: real, cur: Drive, prev: Drive, x: real): (r: Poles)
    requires alpha >= 0.0
    ensures r.p1 == x
    ensures r.p0 - p.p0 == alpha * (Slope0(p.p0, prev.lp, Feedback(prev.bp, res, p.p1))
                                    + Slope0(r.p0, cur.lp, Feedback(cur.bp, res, x)))
  {
    TrapezoidalP0IsTrapezoidRule(p, alpha, Feedback(prev.bp, res, p.p1), Feedback(cur.bp, res, x), cur, prev);
    Poles(TrapezoidalP0(p, alpha, Feedback(prev.bp, res, p.p1), Feedback(cur.bp, res, x), cur, prev), x)
  }

  /** `alpha - alpha^2/(1 + alpha)` is `alpha/(1 + alpha)`, and both pieces
      of the `p0` update add up. */
  lemma ShareIsRatio(alpha: real)
    requires alpha >= 0.0
    ensures Share(alpha) == alpha / (1.0 + alpha)
    ensures Share(alpha) + Share(alpha) * alpha == alpha
  {
    var k := 1.0 + alpha;
    assert (alpha * alpha / k) * k == alpha * alpha;
    assert Share(alpha) * k == alpha * k - alpha * alpha;
  }

  /** `alpha * alpha/(1 + alpha)` is `alpha - alpha/(1 + alpha)`. */
  lemma RatioProduct(alpha: real)
    requires alpha >= 0.0
    ensures alpha * (alpha / (1.0 + alpha)) == alpha - alpha / (1.0 + alpha)
  {
    var r := alpha / (1.0 + alpha);
    assert r * (1.0 + alpha) == alpha;
  }

  /** The new `p0` is the trapezoid rule for `dp0/dt = lp - p0 - fb`: it
      moves by `alpha = dt/2` times the sum of the slopes at the start
      (previous inputs, old feedback) and at the end (current inputs, new
      feedback). */
  lemma TrapezoidalP0IsTrapezoidRule(p: Poles, alpha: real, fbT: real, fb: real, cur: Drive, prev: Drive)
    requires alpha >= 0.0
    ensures var q0 := TrapezoidalP0(p, alpha, fbT, fb, cur, prev);
      q0 - p.p0 == alpha * (Slope0(p.p0, prev.lp, fbT) + Slope0(q0, cur.lp, fb))
  {
    var k := 1.0 + alpha;
    var l := prev.lp - p.p0 - fbT + cur.lp - fb;
    var q0 := TrapezoidalP0(p, alpha, fbT, fb, cur, prev);
    assert q0 * k == (p.p0 / k) * k + (alpha / k * l) * k;
    assert q0 * k == p.p0 + alpha * l;
  }

  /** The implicit equation the Newton loop solves is exactly the trapezoid
      rule for `dp1/dt = p0 + fb - p1 - SinhPade54(4 p1)/4` with the
      trapezoidal `p0`: `x` is a root of `c*x + alpha*SinhPade54(4x)/4 = D_n`
      if and only if moving `p1` to `x` moves it by `alpha` times the sum of
      the start and end slopes. */
  lemma TrapezoidalP1IsTrapezoidRule(pade: Pade, p: Poles, alpha: real, res: real, cur: Drive, prev: Drive, x: real)
    requires alpha >= 0.0
    ensures var fbT := Feedback(prev.bp, res, p.p1);
      var fb := Feedback(cur.bp, res, x);
      var q0 := TrapezoidalP0(p, alpha, fbT, fb, cur, prev);
      (TrapezoidalSlope(alpha, res) * x + alpha * Saturation(pade.sinhPade54, x) == TrapezoidalTarget(pade, p, alpha, res, cur, prev))
      <==> (x - p.p1 == alpha * (Slope1(p.p0, fbT, p.p1, Saturation(pade.sinhPade54, p.p1))
                                 + Slope1(q0, fb, x, Saturation(pade.sinhPade54, x))))
  {
    TrapezoidalResidual(pade, p, alpha, res, cur, prev, x);
  }

  /** How far `x` is from satisfying the trapezoid rule for `p1` is exactly
      the residual of the implicit equation at `x`. */
  lemma TrapezoidalResidual(pade: Pade, p: Poles, alpha: real, res: real, cur: Drive, prev: Drive, x: real)
    requires alpha >= 0.0
    ensures var fbT := Feedback(prev.bp, res, p.p1);
      var fb := Feedback(cur.bp, res, x);
      var q0 := TrapezoidalP0(p, alpha, fbT, fb, cur, prev);
      x - p.p1 - alpha * (Slope1(p.p0, fbT, p.p1, Saturation(pade.sinhPade54, p.p1))
                          + Slope1(q0, fb, x, Saturation(pade.sinhPade54, x)))
      == TrapezoidalSlope(alpha, res) * x + alpha * Saturation(pade.sinhPade54, x) - TrapezoidalTarget(pade, p, alpha, res, cur, prev)
  {
    ResidualLeft(pade, p, alpha, res, cur, prev, x);
    ResidualRight(pade, p, alpha, res, cur, prev, x);
  }

  /** The left side of the residual identity with every product expanded. */
  lemma ResidualLeft(pade: Pade, p: Poles, alpha: real, res: real, cur: Drive, prev: Drive, x: real)
    requires alpha >= 0.0
    ensures var fbT := Feedback(prev.bp, res, p.p1);
      var fb := Feedback(cur.bp, res, x);
      var q0 := TrapezoidalP0(p, alpha, fbT, fb, cur, prev);
      var a := Slope1(p.p0, fbT, p.p1, Saturation(pade.sinhPade54, p.p1));
      var r, l := alpha / (1.0 + alpha), prev.lp - p.p0 - fbT + cur.lp;
      x - p.p1 - alpha * (a + Slope1(q0, fb, x, Saturation(pade.sinhPade54, x)))
      == x - p.p1 - alpha * a - alpha * (p.p0 / (1.0 + alpha)) - alpha * (r * l) - r * cur.bp - r * (res * x)
         + alpha * x + alpha * Saturation(pade.sinhPade54, x)
  {
    var fbT := Feedback(prev.bp, res, p.p1);
    var fb := Feedback(cur.bp, res, x);
    var q0 := TrapezoidalP0(p, alpha, fbT, fb, cur, prev);
    var a := Slope1(p.p0, fbT, p.p1, Saturation(pade.sinhPade54, p.p1));
    ScaledSlope1(alpha, a, q0, fb, x, Saturation(pade.sinhPade54, x));
    ScaledP0(p, alpha, fbT, fb, cur, prev);
    MulAdd(alpha / (1.0 + alpha), cur.bp, res * x);
  }

  /** The right side of the residual identity with every product expanded. */
  lemma ResidualRight(pade: Pade, p: Poles, alpha: real, res: real, cur: Drive, prev: Drive, x: real)
    requires alpha >= 0.0
    ensures var fbT := Feedback(prev.bp, res, p.p1);
      var a := Slope1(p.p0, fbT, p.p1, Saturation(pade.sinhPade54, p.p1));
      var r, l := alpha / (1.0 + alpha), prev.lp - p.p0 - fbT + cur.lp;
      TrapezoidalSlope(alpha, res) * x + alpha * Saturation(pade.sinhPade54, x) - TrapezoidalTarget(pade, p, alpha, res, cur, prev)
      == x - p.p1 - alpha * a - alpha * (p.p0 / (1.0 + alpha)) - alpha * (r * l) - r * cur.bp - r * (res * x)
         + alpha * x + alpha * Saturation(pade.sinhPade54, x)
  {
    ScaledTarget(pade, p, alpha, res, cur, prev);
    ScaledSlope(alpha, res, x);
  }

  /** `alpha` times the sum of a slope and the `p1` slope, term by term. */
  lemma ScaledSlope1(alpha: real, a: real, p0: real, fb: real, p1: real, sat: real)
    ensures alpha * (a + Slope1(p0, fb, p1, sat)) == alpha * a + alpha * p0 + alpha * fb - alpha * p1 - alpha * sat
  {
    MulAdd(alpha, a, Slope1(p0, fb, p1, sat));
    MulSub(alpha, p0 + fb - p1, sat);
    MulSub(alpha, p0 + fb, p1);
    MulAdd(alpha, p0, fb);
  }

  /** `alpha` times the new `p0`, term by term, with
      `alpha * alpha/(1 + alpha) = alpha - alpha/(1 + alpha)`. */
  lemma ScaledP0(p: Poles, alpha: real, fbT: real, fb: real, cur: Drive, prev: Drive)
    requires alpha >= 0.0
    ensures var r, l := alpha / (1.0 + alpha), prev.lp - p.p0 - fbT + cur.lp;
      alpha * TrapezoidalP0(p, alpha, fbT, fb, cur, prev)
      == alpha * (p.p0 / (1.0 + alpha)) + alpha * (r * l) - alpha * fb + r * fb
  {
    var r, w := alpha / (1.0 + alpha), p.p0 / (1.0 + alpha);
    var l := prev.lp - p.p0 - fbT + cur.lp;
    RatioProduct(alpha);
    MulAdd(alpha, w, r * (l - fb));
    MulSub(r, l, fb);
    MulSub(alpha, r * l, r * fb);
    MulAssoc(alpha, r, fb);
    SubMul(alpha, r, fb);
  }

  /** `alpha` times the known part of the drive of `p1`, term by term. */
  lemma ScaledDrive(alpha: real, a: real, p: Poles, fbT: real, cur: Drive, prev: Drive)
    requires alpha >= 0.0
    ensures var r, l := alpha / (1.0 + alpha), prev.lp - p.p0 - fbT + cur.lp;
      alpha * (a + KnownP0(p, alpha, fbT, cur, prev)) == alpha * a + alpha * (p.p0 / (1.0 + alpha)) + alpha * (r * l)
  {
    MulAdd(alpha, a, KnownP0(p, alpha, fbT, cur, prev));
    MulAdd(alpha, p.p0 / (1.0 + alpha), alpha / (1.0 + alpha) * (prev.lp - p.p0 - fbT + cur.lp));
  }

  /** The right-hand side of the implicit equation, term by term. */
  lemma ScaledTarget(pade: Pade, p: Poles, alpha: real, res: real, cur: Drive, prev: Drive)
    requires alpha >= 0.0
    ensures var fbT := Feedback(prev.bp, res, p.p1);
      var r, l := alpha / (1.0 + alpha), prev.lp - p.p0 - fbT + cur.lp;
      TrapezoidalTarget(pade, p, alpha, res, cur, prev)
      == p.p1 + alpha * Slope1(p.p0, fbT, p.p1, Saturation(pade.sinhPade54, p.p1))
         + alpha * (p.p0 / (1.0 + alpha)) + alpha * (r * l) + r * cur.bp
  {
    var fbT := Feedback(prev.bp, res, p.p1);
    ScaledDrive(alpha, Slope1(p.p0, fbT, p.p1, Saturation(pade.sinhPade54, p.p1)), p, fbT, cur, prev);
    ShareIsRatio(alpha);
  }

  /** The coefficient of the implicit equation times `x`, term by term. */
  lemma ScaledSlope(alpha: real, res: real, x: real)
    requires alpha >= 0.0
    ensures TrapezoidalSlope(alpha, res) * x == x - alpha / (1.0 + alpha) * (res * x) + alpha * x
  {
    ShareIsRatio(alpha);
    SubMul(1.0, Share(alpha) * res, x);
    AddMul(1.0 - Share(alpha) * res, alpha, x);
    MulAssoc(Share(alpha), res, x);
  }

  /** A fixed point of the Newton step where the derivative does not vanish
      is a root of `c*x + alpha*SinhPade54(4x)/4 = d`. */
  lemma NewtonFixedPointIsRoot(pade: Pade, alpha: real, c: real, d: real, x: real)
    requires TrapezoidalNewton(pade, alpha, c, d, x) == x
    requires c + alpha * pade.coshPade54.At(4.0 * x) != 0.0
    ensures c * x + alpha * Saturation(pade.sinhPade54, x) == d
  {
    var g := c * x + alpha * Saturation(pade.sinhPade54, x) - d;
    var dg := c + alpha * pade.coshPade54.At(4.0 * x);
    assert Quot(g, dg) * dg == g;
  }

  /** The scheme the integration switch selects; an unknown method leaves
      both states alone. */
  function Integrate(pade: Pade, m: SKIntegrationMethod, p: Poles, dt: real, res: real, cur: Inputs, prev: Inputs): (r: Poles)
    requires dt >= 0.0
    ensures m == UnknownMethod || (dt == 0.0 && m != Trapezoidal) ==> r == p
  {
    var u, uT := Drive(cur.lp, cur.bp), Drive(prev.lp, prev.bp);
    match m
    case SemiImplicitEuler => Euler(pade, p, dt, res, u)
    case PredictorCorrector => PredictorCorrectorStep(pade, p, dt, res, u, uT)
    case Trapezoidal => TrapezoidalScheme(pade, p, dt, res, u, uT)
    case UnknownMethod => p
  }

  /** A state pair at which both slopes vanish, with the saturation taken at
      `p0` as the Euler scheme takes it, is kept by the Euler scheme. */
  lemma EulerKeepsEquilibrium(pade: Pade, p: Poles, dt: real, res: real, cur: Drive)
    requires Slope0(p.p0, cur.lp, Feedback(cur.bp, res, p.p1)) == 0.0
    requires Slope1(p.p0, Feedback(cur.bp, res, p.p1), p.p1, Saturation(pade.sinhPade34, p.p0)) == 0.0
    ensures Euler(pade, p, dt, res, cur) == p
  {
  }

  /** With unchanged inputs, a state pair at which both slopes vanish is
      kept by the predictor-corrector. */
  lemma PredictorCorrectorKeepsEquilibrium(pade: Pade, p: Poles, dt: real, res: real, cur: Drive)
    requires Slope0(p.p0, cur.lp, Feedback(cur.bp, res, p.p1)) == 0.0
    requires Slope1(p.p0, Feedback(cur.bp, res, p.p1), p.p1, Saturation(pade.sinhPade34, p.p1)) == 0.0
    ensures PredictorCorrectorStep(pade, p, dt, res, cur, cur) == p
  {
  }

  /** No scheme reads the high-pass inputs: whatever they hold, the states
      move the same way. */
  lemma IntegrateIgnoresHighpass(pade: Pade, m: SKIntegrationMethod, p: Poles, dt: real, res: real,
                                 cur: Inputs, prev: Inputs, hp: real, hpT1: real)
    requires dt >= 0.0
    ensures Integrate(pade, m, p, dt, res, cur.(hp := hp), prev.(hp := hpT1)) == Integrate(pade, m, p, dt, res, cur, prev)
  {
  }

  /** With the saturation curves through the origin, an engine at rest with
      no drive stays at rest under every scheme. */
  lemma RestStaysAtRest(pade: Pade, m: SKIntegrationMethod, dt: real, res: real)
    requires dt >= 0.0
    requires pade.sinhPade34.At(0.0) == 0.0 && pade.sinhPade54.At(0.0) == 0.0
    ensures Integrate(pade, m, Poles(0.0, 0.0), dt, res, Inputs(0.0, 0.0, 0.0), Inputs(0.0, 0.0, 0.0)) == Poles(0.0, 0.0)
  {
    match m {
      case SemiImplicitEuler =>
        assert Saturation(pade.sinhPade34, 0.0) == 0.0;
      case PredictorCorrector =>
        assert Saturation(pade.sinhPade34, 0.0) == 0.0;
      case Trapezoidal =>
        TrapezoidalRestStaysAtRest(pade, dt, res);
      case UnknownMethod =>
    }
  }

  lemma TrapezoidalRestStaysAtRest(pade: Pade, dt: real, res: real)
    requires dt >= 0.0
    requires pade.sinhPade54.At(0.0) == 0.0
    ensures TrapezoidalScheme(pade, Poles(0.0, 0.0), dt, res, Drive(0.0, 0.0), Drive(0.0, 0.0)) == Poles(0.0, 0.0)
  {
    var p, zero := Poles(0.0, 0.0), Drive(0.0, 0.0);
    var alpha := dt / 2.0;
    var c := TrapezoidalSlope(alpha, res);
    assert Saturation(pade.sinhPade54, 0.0) == 0.0;
    var d := TrapezoidalTarget(pade, p, alpha, res, zero, zero);
    assert d == 0.0 by {
      assert KnownP0(p, alpha, 0.0, zero, zero) == 0.0;
    }
    var step := TrapezoidalNewtonStep(pade, alpha, c, d);
    NewtonStepAt(pade, alpha, c, d, 0.0);
    assert c * 0.0 + alpha * Saturation(pade.sinhPade54, 0.0) - d == 0.0;
    ConvergeFromFixedPoint(step, 0.0, MaxIterations);
    assert TrapezoidalP0(p, alpha, 0.0, 0.0, zero, zero) == 0.0;
  }

  /** Hence in high-pass mode an engine at rest whose previous inputs are
      zero stays at rest: the integrators see no drive at all. */
  lemma HighpassModeDrivesNothing(pade: Pade, m: SKIntegrationMethod, dt: real, res: real, x: real)
    requires dt >= 0.0
    requires pade.sinhPade34.At(0.0) == 0.0 && pade.sinhPade54.At(0.0) == 0.0
    ensures Integrate(pade, m, Poles(0.0, 0.0), dt, res, Route(HighpassMode, x), Inputs(0.0, 0.0, 0.0)) == Poles(0.0, 0.0)
  {
    var zero := Inputs(0.0, 0.0, 0.0);
    assert Route(HighpassMode, x) == zero.(hp := x);
    IntegrateIgnoresHighpass(pade, m, Poles(0.0, 0.0), dt, res, zero, zero, x, 0.0);
    RestStaysAtRest(pade, m, dt, res);
  }

  // ---------------------------------------------------------------------
  // The oversampled tick.

  /** The settings a tick reads; `res` is `4*Resonance`. */
  datatype Settings = Settings(integration: SKIntegrationMethod, dt: real, res: real, oversamplingFactor: int)

  /** The state a tick changes: both states, the output and the decimation
      filter's delay line. */
  datatype Voice = Voice(p: Poles, out: real, z: seq<real>)

  /** The output a step leaves before decimation: `p1` under every known
      scheme, the previous output under an unknown one. */
  function Output(m: SKIntegrationMethod, p: Poles, out: real): (y: real)
    ensures m != UnknownMethod ==> y == p.p1
    ensures m == UnknownMethod ==> y == out
  {
    if m == UnknownMethod then out else p.p1
  }

  /** One oversampling step: integrate, set the output, and run it through
      the decimation cascade when the factor exceeds 1. */
  function Step(pade: Pade, s: Settings, c: Cascade, v: Voice, cur: Inputs, prev: Inputs): (w: Voice)
    requires s.dt >= 0.0 && Fits(c, v.z, |c.a1|)
    ensures |w.z| == |v.z|
  {
    var p := Integrate(pade, s.integration, v.p, s.dt, s.res, cur, prev);
    var y := Output(s.integration, p, v.out);
    var r := if s.oversamplingFactor > 1 then Tick(c, v.z, y, |c.a1|) else (y, v.z);
    Voice(p, r.0, r.1)
  }

  /** `n` oversampling steps on the same inputs. Without oversampling the
      delay line of the decimation cascade is untouched, and after at least
      one step under a known scheme the output is `p1`. */
  function Run(pade: Pade, s: Settings, c: Cascade, v: Voice, cur: Inputs, prev: Inputs, n: nat): (w: Voice)
    requires s.dt >= 0.0 && Fits(c, v.z, |c.a1|)
    ensures |w.z| == |v.z|
    ensures s.oversamplingFactor <= 1 ==> w.z == v.z
    ensures n >= 1 && s.oversamplingFactor <= 1 && s.integration != UnknownMethod ==> w.out == w.p.p1
    decreases n
  {
    if n == 0 then v else Step(pade, s, c, Run(pade, s, c, v, cur, prev, n - 1), cur, prev)
  }

  /** The engine object. */
  class SKFilter {
    const pade: Pade
    const iir: IIRLowpass

    var cutoffFrequency: real
    var resonance: real
    var oversamplingFactor: int
    var filterMode: SKFilterMode
    var sampleRate: real
    var dt: real
    var integrationMethod: SKIntegrationMethod

    var p0: real
    var p1: real

    var inputLp: real
    var inputBp: real
    var inputHp: real
    var inputLpT1: real
    var inputBpT1: real
    var inputHpT1: real

    var out: real

    ghost var Repr: set<object>

    /** The decimation cascade is a separate order-8 Butterworth design at
        the oversampled rate with its cutoff at 0.9 of the base Nyquist
        frequency whose coefficient arrays hold that design, and `dt` is
        always the clamped rate of the parameters. */
    ghost predicate Valid()
      reads `Repr, `sampleRate, `oversamplingFactor, `cutoffFrequency, `dt, iir
      reads iir.a1, iir.a2, iir.K, iir.paReal, iir.paImag, iir.pReal, iir.pImag
    {
      && this in Repr && iir in Repr
      && iir.Repr <= Repr && this !in iir.Repr
      && iir.Valid()
      && iir.order == DownsampleOrder
      && sampleRate > 0.0 && oversamplingFactor >= 1
      && iir.samplerate == OversampledRate(sampleRate, oversamplingFactor)
      && iir.cutoff == DecimationCutoff(sampleRate)
      && dt == IntegrationRate(sampleRate, oversamplingFactor, cutoffFrequency)
      && iir.Designed()
    }

    ghost function Config(): Settings
      reads `integrationMethod, `dt, `resonance, `oversamplingFactor
    {
      Settings(integrationMethod, dt, 4.0 * resonance, oversamplingFactor)
    }

    ghost function State(): Voice
      reads `p0, `p1, `out, iir, iir.z
    {
      Voice(Poles(p0, p1), out, iir.z[..])
    }

    /** `input_lp`, `input_bp`, `input_hp`. */
    function Current(): Inputs
      reads `inputLp, `inputBp, `inputHp
    {
      Inputs(inputLp, inputBp, inputHp)
    }

    /** `input_lp_t1`, `input_bp_t1`, `input_hp_t1`. */
    function Previous(): Inputs
      reads `inputLpT1, `inputBpT1, `inputHpT1
    {
      Inputs(inputLpT1, inputBpT1, inputHpT1)
    }

    constructor (pade: Pade, libm: Libm, newCutoff: real, newResonance: real, newOversamplingFactor: int,
                 newFilterMode: SKFilterMode, newSampleRate: real, newIntegrationMethod: SKIntegrationMethod)
      requires newSampleRate > 0.0 && newOversamplingFactor >= 1
      ensures Valid() && fresh(Repr)
      ensures cutoffFrequency == newCutoff && resonance == newResonance
      ensures oversamplingFactor == newOversamplingFactor && filterMode == newFilterMode
      ensures sampleRate == newSampleRate && integrationMethod == newIntegrationMethod
      ensures p0 == 0.0 && p1 == 0.0 && out == 0.0
      ensures Current() == Inputs(0.0, 0.0, 0.0) && Previous() == Inputs(0.0, 0.0, 0.0)
      ensures iir.Zeroed() && iir.Designed()
    {
      this.pade := pade;
      cutoffFrequency := newCutoff;
      resonance := newResonance;
      oversamplingFactor := newOversamplingFactor;
      filterMode := newFilterMode;
      sampleRate := newSampleRate;
      dt := IntegrationRate(newSampleRate, newOversamplingFactor, newCutoff);
      p0, p1, out := 0.0, 0.0, 0.0;
      inputLp, inputBp, inputHp := 0.0, 0.0, 0.0;
      inputLpT1, inputBpT1, inputHpT1 := 0.0, 0.0, 0.0;
      integrationMethod := newIntegrationMethod;
      iir := new IIRLowpass(libm, OversampledRate(newSampleRate, newOversamplingFactor),
                            DecimationCutoff(newSampleRate), DownsampleOrder);
      new;
      Repr := {this} + iir.Repr;
    }

    /** The default engine: cutoff 0.25, resonance 0.5, factor 2, low-pass,
        44100 Hz, trapezoidal. */
    constructor Default(pade: Pade, libm: Libm)
      ensures Valid() && fresh(Repr)
      ensures cutoffFrequency == 0.25 && resonance == 0.5 && oversamplingFactor == 2
      ensures filterMode == LowpassMode && sampleRate == 44100.0
      ensures integrationMethod == Trapezoidal
      ensures p0 == 0.0 && p1 == 0.0 && out == 0.0
      ensures Current() == Inputs(0.0, 0.0, 0.0) && Previous() == Inputs(0.0, 0.0, 0.0)
      ensures iir.Zeroed() && iir.Designed()
    {
      this.pade := pade;
      cutoffFrequency := 0.25;
      resonance := 0.5;
      oversamplingFactor := 2;
      filterMode := LowpassMode;
      sampleRate := 44100.0;
      dt := IntegrationRate(44100.0, 2, 0.25);
      p0, p1, out := 0.0, 0.0, 0.0;
      inputLp, inputBp, inputHp := 0.0, 0.0, 0.0;
      inputLpT1, inputBpT1, inputHpT1 := 0.0, 0.0, 0.0;
      integrationMethod := Trapezoidal;
      iir := new IIRLowpass(libm, OversampledRate(44100.0, 2), DecimationCutoff(44100.0), DownsampleOrder);
      new;
      Repr := {this} + iir.Repr;
    }

    /** Cutoff 0.25, resonance 0.5, both states, the output and all six
        inputs zeroed, and the decimation cascade redesigned (which zeroes
        its delay line); mode, method, factor and sample rate stay. */
    method ResetFilterState()
      requires Valid()
      modifies `cutoffFrequency, `resonance, `dt, `p0, `p1, `out
      modifies `inputLp, `inputBp, `inputHp, `inputLpT1, `inputBpT1, `inputHpT1, iir.Repr
      ensures Valid()
      ensures cutoffFrequency == 0.25 && resonance == 0.5
      ensures p0 == 0.0 && p1 == 0.0 && out == 0.0
      ensures Current() == Inputs(0.0, 0.0, 0.0) && Previous() == Inputs(0.0, 0.0, 0.0)
      ensures iir.Zeroed() && iir.Designed()
    {
      ResetFields();
      RedesignDecimation();
    }

    /** The engine's own part of the reset: parameters, rate, states,
        output and inputs. */
    method ResetFields()
      requires sampleRate > 0.0 && oversamplingFactor >= 1
      modifies `cutoffFrequency, `resonance, `dt, `p0, `p1, `out
      modifies `inputLp, `inputBp, `inputHp, `inputLpT1, `inputBpT1, `inputHpT1
      ensures cutoffFrequency == 0.25 && resonance == 0.5
      ensures dt == IntegrationRate(sampleRate, oversamplingFactor, cutoffFrequency)
      ensures p0 == 0.0 && p1 == 0.0 && out == 0.0
      ensures Current() == Inputs(0.0, 0.0, 0.0) && Previous() == Inputs(0.0, 0.0, 0.0)
    {
      p0, p1, out := 0.0, 0.0, 0.0;
      inputLp, inputBp, inputHp := 0.0, 0.0, 0.0;
      inputLpT1, inputBpT1, inputHpT1 := 0.0, 0.0, 0.0;
      cutoffFrequency := 0.25;
      resonance := 0.5;
      SetFilterIntegrationRate();
    }

    /** `dt = 44100/(sampleRate*oversamplingFactor)*cutoffFrequency`, clamped
        into [0, 0.35]. */
    method SetFilterIntegrationRate()
      requires sampleRate > 0.0 && oversamplingFactor >= 1
      modifies `dt
      ensures dt == IntegrationRate(sampleRate, oversamplingFactor, cutoffFrequency)
    {
      dt := 44100.0 / OversampledRate(sampleRate, oversamplingFactor) * cutoffFrequency;
      if dt < 0.0 {
        dt := 0.0;
      } else if dt > 0.35 {
        dt := 0.35;
      }
    }

    /** `SetFilterSamplerate(sampleRate*oversamplingFactor)` then
        `SetFilterCutoff(0.9*sampleRate/2)` on the decimation cascade, each
        zeroing its delay line and redesigning it. */
    method RedesignDecimation()
      requires iir.Valid() && iir.order == DownsampleOrder && this !in iir.Repr
      requires sampleRate > 0.0 && oversamplingFactor >= 1
      modifies iir.Repr
      ensures iir.Valid() && iir.Repr == old(iir.Repr) && iir.order == DownsampleOrder
      ensures iir.samplerate == OversampledRate(sampleRate, oversamplingFactor)
      ensures iir.cutoff == DecimationCutoff(sampleRate)
      ensures iir.Zeroed() && iir.Designed()
    {
      iir.SetFilterSamplerate(OversampledRate(sampleRate, oversamplingFactor));
      iir.SetFilterCutoff(DecimationCutoff(sampleRate));
    }

    method SetFilterCutoff(newCutoff: real)
      requires Valid()
      modifies `cutoffFrequency, `dt
      ensures Valid()
      ensures cutoffFrequency == newCutoff
    {
      cutoffFrequency := newCutoff;
      SetFilterIntegrationRate();
    }

    method SetFilterResonance(newResonance: real)
      modifies `resonance
      ensures resonance == newResonance
    {
      resonance := newResonance;
    }

    /** Redesigns the decimation cascade for the new oversampled rate (which
        zeroes its delay line) and recomputes `dt`. */
    method SetFilterOversamplingFactor(newOversamplingFactor: int)
      requires Valid() && newOversamplingFactor >= 1
      modifies `oversamplingFactor, `dt, iir.Repr
      ensures Valid()
      ensures oversamplingFactor == newOversamplingFactor
      ensures iir.Zeroed() && iir.Designed()
    {
      oversamplingFactor := newOversamplingFactor;
      RedesignDecimation();
      SetFilterIntegrationRate();
    }

    method SetFilterMode(newFilterMode: SKFilterMode)
      modifies `filterMode
      ensures filterMode == newFilterMode
    {
      filterMode := newFilterMode;
    }

    /** Redesigns the decimation cascade for the new rate and recomputes `dt`. */
    method SetFilterSampleRate(newSampleRate: real)
      requires Valid() && newSampleRate > 0.0
      modifies `sampleRate, `dt, iir.Repr
      ensures Valid()
      ensures sampleRate == newSampleRate
      ensures iir.Zeroed() && iir.Designed()
    {
      sampleRate := newSampleRate;
      RedesignDecimation();
      SetFilterIntegrationRate();
    }

    method SetFilterIntegrationMethod(newMethod: SKIntegrationMethod)
      modifies `integrationMethod
      ensures integrationMethod == newMethod
    {
      integrationMethod := newMethod;
    }

    method SetFilterLowpassInput(input: real)
      modifies `inputLp
      ensures inputLp == input
    {
      inputLp := input;
    }

    method SetFilterBandpassInput(input: real)
      modifies `inputBp
      ensures inputBp == input
    {
      inputBp := input;
    }

    method SetFilterHighpassInput(input: real)
      modifies `inputHp
      ensures inputHp == input
    {
      inputHp := input;
    }

    function GetFilterCutoff(): real
      reads this
    {
      cutoffFrequency
    }

    function GetFilterResonance(): real
      reads this
    {
      resonance
    }

    function GetFilterOversamplingFactor(): int
      reads this
    {
      oversamplingFactor
    }

    function GetFilterOutput(): real
      reads this
    {
      out
    }

    function GetFilterMode(): SKFilterMode
      reads this
    {
      filterMode
    }

    function GetFilterSampleRate(): real
      reads this
    {
      sampleRate
    }

    function GetFilterIntegrationMethod(): SKIntegrationMethod
      reads this
    {
      integrationMethod
    }

    /** One input sample. `u` is the draw `rand()/RAND_MAX`. The dithered
        input is routed by the mode, overwriting whatever the input setters
        stored; then exactly `oversamplingFactor` steps of `Step` run on the
        routed inputs and the previous call's inputs; finally the routed
        inputs become the previous inputs. */
    method Filter(input: real, u: real)
      requires Valid() && 0.0 <= u <= 1.0
      modifies `inputLp, `inputBp, `inputHp, `inputLpT1, `inputBpT1, `inputHpT1, `p0, `p1, `out, iir.z
      ensures Current() == Route(filterMode, Dithered(input, u)) && Previous() == Current()
      ensures State() == Run(pade, old(Config()), old(iir.Coeffs()), old(State()), Current(), old(Previous()), oversamplingFactor)
    {
      Process(Dithered(input, u));
    }

    /** The body of `Filter` on the dithered sample `x`. */
    method Process(x: real)
      requires iir.Ready() && dt >= 0.0 && oversamplingFactor >= 1
      modifies `inputLp, `inputBp, `inputHp, `inputLpT1, `inputBpT1, `inputHpT1, `p0, `p1, `out, iir.z
      ensures Current() == Route(filterMode, x) && Previous() == Current()
      ensures State() == Run(pade, old(Config()), old(iir.Coeffs()), old(State()), Current(), old(Previous()), oversamplingFactor)
    {
      RouteInput(x);
      Oversampling();
      ShiftInputs();
    }

    /** The oversampling loop: `oversamplingFactor` passes of its body on the
        current and previous inputs. */
    method Oversampling()
      requires iir.Ready() && dt >= 0.0 && oversamplingFactor >= 1
      modifies `p0, `p1, `out, iir.z
      ensures State() == Run(pade, old(Config()), old(iir.Coeffs()), old(State()), Current(), Previous(), oversamplingFactor)
    {
      ghost var s, c, v, cur, prev := Config(), iir.Coeffs(), State(), Current(), Previous();
      var nn := 0;
      while nn < oversamplingFactor
        invariant 0 <= nn <= oversamplingFactor
        invariant iir.Ready() && dt >= 0.0
        invariant Config() == s && iir.Coeffs() == c && Current() == cur && Previous() == prev
        invariant State() == Run(pade, s, c, v, cur, prev, nn)
      {
        Oversample(s, c, cur, prev);
        nn := nn + 1;
      }
    }

    /** The mode switch: the input goes to the input the mode names. */
    method RouteInput(x: real)
      modifies `inputLp, `inputBp, `inputHp
      ensures Current() == Route(filterMode, x)
    {
      match filterMode {
        case LowpassMode => inputLp, inputBp, inputHp := x, 0.0, 0.0;
        case BandpassMode => inputLp, inputBp, inputHp := 0.0, x, 0.0;
        case HighpassMode => inputLp, inputBp, inputHp := 0.0, 0.0, x;
        case UnknownMode => inputLp, inputBp, inputHp := 0.0, 0.0, 0.0;
      }
    }

    /** The inputs of this call become the previous inputs. */
    method ShiftInputs()
      modifies `inputLpT1, `inputBpT1, `inputHpT1
      ensures Previous() == Current()
    {
      inputLpT1, inputBpT1, inputHpT1 := inputLp, inputBp, inputHp;
    }

    /** One pass of the oversampling loop body: integrate by the selected
        scheme, set the output and, when oversampling, push it through the
        decimation cascade. */
    method Oversample(ghost s: Settings, ghost c: Cascade, ghost cur: Inputs, ghost prev: Inputs)
      requires iir.Ready() && dt >= 0.0
      requires Config() == s && iir.Coeffs() == c && Current() == cur && Previous() == prev
      modifies `p0, `p1, `out, iir.z
      ensures iir.Ready() && Config() == s && iir.Coeffs() == c && Current() == cur && Previous() == prev
      ensures State() == Step(pade, s, c, old(State()), cur, prev)
    {
      ghost var v := State();
      var p := IntegrateStep(pade, integrationMethod, Poles(p0, p1), dt, 4.0 * resonance, Current(), Previous());
      var y := Output(integrationMethod, p, out);
      y := Decimate(y, s, c, cur, prev);
      ghost var r := (y, iir.z[..]);
      StepParts(pade, s, c, v, cur, prev, p, r);
      Commit(p, y, s, c, cur, prev);
    }

    /** The pass through the decimation cascade when oversampling. */
    method Decimate(x: real, ghost s: Settings, ghost c: Cascade, ghost cur: Inputs, ghost prev: Inputs) returns (y: real)
      requires iir.Ready()
      requires Config() == s && iir.Coeffs() == c && Current() == cur && Previous() == prev
      modifies iir.z
      ensures iir.Ready() && Config() == s && iir.Coeffs() == c && Current() == cur && Previous() == prev
      ensures p0 == old(p0) && p1 == old(p1) && out == old(out)
      ensures (y, iir.z[..]) == if s.oversamplingFactor > 1 then Tick(c, old(iir.z[..]), x, |c.a1|) else (x, old(iir.z[..]))
    {
      y := x;
      if oversamplingFactor > 1 {
        y := iir.IIRfilter(x);
      }
    }

    /** Stores the integrated states and the output. */
    method Commit(p: Poles, y: real, ghost s: Settings, ghost c: Cascade, ghost cur: Inputs, ghost prev: Inputs)
      requires iir.Ready()
      requires Config() == s && iir.Coeffs() == c && Current() == cur && Previous() == prev
      modifies `p0, `p1, `out
      ensures iir.Ready() && Config() == s && iir.Coeffs() == c && Current() == cur && Previous() == prev
      ensures State() == Voice(p, y, old(iir.z[..]))
    {
      p0, p1, out := p.p0, p.p1, y;
    }
  }

  /** `Step` taken apart into its integration, its output and its pass
      through the decimation cascade. */
  lemma StepParts(pade: Pade, s: Settings, c: Cascade, v: Voice, cur: Inputs, prev: Inputs, p: Poles, r: (real, seq<real>))
    requires s.dt >= 0.0 && Fits(c, v.z, |c.a1|)
    requires p == Integrate(pade, s.integration, v.p, s.dt, s.res, cur, prev)
    requires r == if s.oversamplingFactor > 1 then Tick(c, v.z, Output(s.integration, p, v.out), |c.a1|)
                  else (Output(s.integration, p, v.out), v.z)
    ensures Step(pade, s, c, v, cur, prev) == Voice(p, r.0, r.1)
  {
  }

  /** The integration switch of the oversampling loop. */
  method IntegrateStep(pade: Pade, m: SKIntegrationMethod, p: Poles, dt: real, res: real, cur: Inputs, prev: Inputs)
    returns (q: Poles)
    requires dt >= 0.0
    ensures q == Integrate(pade, m, p, dt, res, cur, prev)
  {
    var u, uT := Drive(cur.lp, cur.bp), Drive(prev.lp, prev.bp);
    match m {
      case SemiImplicitEuler => q := Euler(pade, p, dt, res, u);
      case PredictorCorrector => q := PredictorCorrectorStep(pade, p, dt, res, u, uT);
      case Trapezoidal => q := TrapezoidalIntegration(pade, p, dt, res, u, uT);
      case UnknownMethod => q := p;
    }
  }

  /** The trapezoidal step as the source runs it: the Newton loop for `p1`,
      then `p0` from the new feedback. */
  method TrapezoidalIntegration(pade: Pade, p: Poles, dt: real, res: real, cur: Drive, prev: Drive) returns (q: Poles)
    requires dt >= 0.0
    ensures q == TrapezoidalScheme(pade, p, dt, res, cur, prev)
  {
    var alpha := dt / 2.0;
    var c := TrapezoidalSlope(alpha, res);
    var d := TrapezoidalTarget(pade, p, alpha, res, cur, prev);
    var x := Solve(TrapezoidalNewtonStep(pade, alpha, c, d), p.p1);
    var fb := Feedback(cur.bp, res, x);
    q := Poles(TrapezoidalP0(p, alpha, Feedback(prev.bp, res, p.p1), fb, cur, prev), x);
  }
}
