/** The four-pole transistor ladder engine of ladder.cpp: four cascaded
    one-pole stages with tanh saturation and global feedback `fb = 8*Resonance`,
    integrated `oversamplingFactor` times per input sample by one of four
    schemes, tapped as low-, band- or high-pass and decimated through an
    order-8 Butterworth cascade. */
module Ladder {
  import opened Numerics
  import opened FastMath
  import opened NewtonRaphson
  import opened Iir
  import opened Decimation

  /** `LadderFilterMode` of ladder.h; `UnknownMode` is any other value of
      the enum, which the output switch sends to its `default` branch. */
  datatype LadderFilterMode = LowpassMode | BandpassMode | HighpassMode | UnknownMode

  /** `LadderIntegrationMethod` of ladder.h; `UnknownMethod` is any other
      value, for which the integration switch does nothing. */
  datatype LadderIntegrationMethod =
    | EulerFullTanh
    | PredictorCorrectorFullTanh
    | PredictorCorrectorFeedbackTanh
    | TrapezoidalFeedbackTanh
    | UnknownMethod

  /** The four stage states `p0..p3`. */
  datatype Poles = Poles(p0: real, p1: real, p2: real, p3: real)

  /** `IIR_DOWNSAMPLE_ORDER`. */
  const DownsampleOrder: int := 8

  /** The integration rate `44100/(sampleRate*oversamplingFactor)*cutoff`,
      clamped into [0, 0.85]. */
  function IntegrationRate(sampleRate: real, oversamplingFactor: int, cutoff: real): (dt: real)
    requires sampleRate > 0.0 && oversamplingFactor >= 1
    ensures 0.0 <= dt <= 0.85
    ensures var raw := 44100.0 / OversampledRate(sampleRate, oversamplingFactor) * cutoff;
      && (0.0 <= raw <= 0.85 ==> dt == raw)
      && (raw < 0.0 ==> dt == 0.0)
      && (raw > 0.85 ==> dt == 0.85)
  {
    var dt := 44100.0 / OversampledRate(sampleRate, oversamplingFactor) * cutoff;
    if dt < 0.0 then 0.0 else if dt > 0.85 then 0.85 else dt
  }

  /** A higher cutoff never gives a lower integration rate. */
  lemma IntegrationRateMonotone(sampleRate: real, oversamplingFactor: int, c1: real, c2: real)
    requires sampleRate > 0.0 && oversamplingFactor >= 1 && c1 <= c2
    ensures IntegrationRate(sampleRate, oversamplingFactor, c1) <= IntegrationRate(sampleRate, oversamplingFactor, c2)
  {
    var k := 44100.0 / OversampledRate(sampleRate, oversamplingFactor);
    var raw1, raw2 := k * c1, k * c2;
    assert k > 0.0;
    assert raw2 - raw1 == k * (c2 - c1) >= 0.0;
  }

  // ---------------------------------------------------------------------
  // The four integration schemes, one oversampling step each.

  /** The input less the resonance feedback from the last stage, `u - fb*p3`. */
  function Feedback(input: real, fb: real, p3: real): real
  {
    input - fb * p3
  }

  /** One explicit Euler stage with tanh saturation on both ends:
      `x + dt*(tanh(drive) - tanh(x))`. */
  function Stage(tanh: Curve, x: real, drive: real, dt: real): real
  {
    x + dt * (tanh.At(drive) - tanh.At(x))
  }

  /** One corrector stage with tanh saturation: `x` moves by `dt/2` times the
      sum of the slope at the start and the slope at the predicted end. */
  function Corrector(tanh: Curve, x: real, drive: real, predicted: real, predictedDrive: real, dt: real): real
  {
    x + 0.5 * dt * ((tanh.At(drive) - tanh.At(x)) + (tanh.At(predictedDrive) - tanh.At(predicted)))
  }

  /** The linear Euler stage `x + dt*(drive - x)`. */
  function LinearStage(x: real, drive: real, dt: real): real
  {
    x + dt * (drive - x)
  }

  /** The linear corrector stage. */
  function LinearCorrector(x: real, drive: real, predicted: real, predictedDrive: real, dt: real): real
  {
    x + 0.5 * dt * ((drive - x) + (predictedDrive - predicted))
  }

  /** Semi-implicit Euler with a tanh at every stage: each stage uses the
      already updated previous stage. */
  function Euler(tanh: Curve, p: Poles, dt: real, fb: real, input: real): (r: Poles)
    ensures dt == 0.0 ==> r == p
  {
    var q0 := Stage(tanh, p.p0, Feedback(input, fb, p.p3), dt);
    var q1 := Stage(tanh, p.p1, q0, dt);
    var q2 := Stage(tanh, p.p2, q1, dt);
    var q3 := Stage(tanh, p.p3, q2, dt);
    Poles(q0, q1, q2, q3)
  }

  /** The Euler scheme is semi-implicit: every stage moves by `dt` times
      its saturated slope, and stages 2 to 4 are driven by the stage before
      them as already updated in this step. */
  lemma EulerIsSemiImplicit(tanh: Curve, p: Poles, dt: real, fb: real, input: real)
    ensures var r := Euler(tanh, p, dt, fb, input);
      && r.p0 - p.p0 == dt * (tanh.At(Feedback(input, fb, p.p3)) - tanh.At(p.p0))
      && r.p1 - p.p1 == dt * (tanh.At(r.p0) - tanh.At(p.p1))
      && r.p2 - p.p2 == dt * (tanh.At(r.p1) - tanh.At(p.p2))
      && r.p3 - p.p3 == dt * (tanh.At(r.p2) - tanh.At(p.p3))
  {
  }

  /** Predictor-corrector with a tanh at every stage. The predictor uses the
      previous input `ut1`; the corrector runs from the last stage down, so the
      `p0` corrector sees the corrected `p3` and the current input. */
  function PredictorCorrectorFull(tanh: Curve, p: Poles, dt: real, fb: real, ut1: real, input: real): (r: Poles)
    ensures dt == 0.0 ==> r == p
  {
    var d0 := Stage(tanh, p.p0, Feedback(ut1, fb, p.p3), dt);
    var d1 := Stage(tanh, p.p1, p.p0, dt);
    var d2 := Stage(tanh, p.p2, p.p1, dt);
    var d3 := Stage(tanh, p.p3, p.p2, dt);
    var q3 := Corrector(tanh, p.p3, p.p2, d3, d2, dt);
    var q2 := Corrector(tanh, p.p2, p.p1, d2, d1, dt);
    var q1 := Corrector(tanh, p.p1, p.p0, d1, d0, dt);
    var q0 := Corrector(tanh, p.p0, Feedback(ut1, fb, p.p3), d0, Feedback(input, fb, q3), dt);
    Poles(q0, q1, q2, q3)
  }

  /** Predictor-corrector with the tanh only in the feedback path. */
  function PredictorCorrectorFeedback(tanh: Curve, p: Poles, dt: real, fb: real, ut1: real, input: real): (r: Poles)
    ensures dt == 0.0 ==> r == p
  {
    var d0 := LinearStage(p.p0, tanh.At(Feedback(ut1, fb, p.p3)), dt);
    var d1 := LinearStage(p.p1, p.p0, dt);
    var d2 := LinearStage(p.p2, p.p1, dt);
    var d3 := LinearStage(p.p3, p.p2, dt);
    var q3 := LinearCorrector(p.p3, p.p2, d3, d2, dt);
    var q2 := LinearCorrector(p.p2, p.p1, d2, d1, dt);
    var q1 := LinearCorrector(p.p1, p.p0, d1, d0, dt);
    var q0 := LinearCorrector(p.p0, tanh.At(Feedback(ut1, fb, p.p3)), d0, tanh.At(Feedback(input, fb, q3)), dt);
    Poles(q0, q1, q2, q3)
  }

  /** A stage whose drive saturates to its own level does not move. */
  lemma StageAtRest(tanh: Curve, x: real, drive: real, dt: real)
    requires tanh.At(drive) == tanh.At(x)
    ensures Stage(tanh, x, drive, dt) == x
  {
  }

  /** The same for a corrector stage: both slopes vanish. */
  lemma CorrectorAtRest(tanh: Curve, x: real, drive: real, predicted: real, predictedDrive: real, dt: real)
    requires tanh.At(drive) == tanh.At(x) && tanh.At(predictedDrive) == tanh.At(predicted)
    ensures Corrector(tanh, x, drive, predicted, predictedDrive, dt) == x
  {
  }

  /** `b = (dt/2)/(1 + dt/2)` of the trapezoidal scheme. */
  function TrapezoidalGain(dt: real): real
    requires dt >= 0.0
  {
    (0.5 * dt) / (1.0 + 0.5 * dt)
  }

  /** `c = (1 - dt/2)/(1 + dt/2)` of the trapezoidal scheme. */
  function TrapezoidalDecay(dt: real): real
    requires dt >= 0.0
  {
    (1.0 - 0.5 * dt) / (1.0 + 0.5 * dt)
  }

  /** For every rate the clamp allows (indeed for every `dt` in [0, 2)),
      `c + 2b = 1`, `0 <= b < 1/2` and `0 < c <= 1`: each trapezoidal stage
      update is a convex combination of its old value and its drives. */
  lemma TrapezoidalCoefficients(dt: real)
    requires 0.0 <= dt < 2.0
    ensures TrapezoidalDecay(dt) + 2.0 * TrapezoidalGain(dt) == 1.0
    ensures 0.0 <= TrapezoidalGain(dt) < 0.5
    ensures 0.0 < TrapezoidalDecay(dt) <= 1.0
  {
    var h := 0.5 * dt;
    var b, c := TrapezoidalGain(dt), TrapezoidalDecay(dt);
    assert b * (1.0 + h) == h;
    assert c * (1.0 + h) == 1.0 - h;
    assert (c + 2.0 * b) * (1.0 + h) == 1.0 + h;
    assert b < 0.5 by {
      assert (0.5 - b) * (1.0 + h) == 0.5 - 0.5 * h;
      PositiveFactor(0.5 - b, 1.0 + h);
    }
    assert 0.0 < c by {
      PositiveFactor(c, 1.0 + h);
    }
    assert c <= 1.0 by {
      assert (1.0 - c) * (1.0 + h) == 2.0 * h;
      if h > 0.0 {
        PositiveFactor(1.0 - c, 1.0 + h);
      }
    }
  }

  /** The drive `ut = tanh(ut_1 - fb*p3)` of the first stage at the start
      of the step. */
  function TrapezoidalDrive(tanh: Curve, p: Poles, fb: real, ut1: real): real
  {
    tanh.At(Feedback(ut1, fb, p.p3))
  }

  /** `D_t`: the part of the new `p3` that is known before the end-of-step
      drive is solved for. */
  function TrapezoidalKnownPart(p: Poles, b: real, c: real, ut: real): real
  {
    c * p.p3 + (b + c * b) * p.p2 + (b * b + b * b * c) * p.p1
      + (b * b * b + b * b * b * c) * p.p0 + b * b * b * b * ut
  }

  /** The gain `g = -fb*b^4` with which the end-of-step drive reaches the
      feedback path through the four stages. */
  function TrapezoidalNewtonGain(fb: real, b: real): real
  {
    -fb * b * b * b * b
  }

  /** One Newton step for the end-of-step drive `x` of
      `x + x*tanh(g x)*C - tanh(g x) - C = 0`, with the derivative as in
      the source (`g*(1 - tanh(g x)^2)` for the tanh term). */
  function TrapezoidalNewtonStep(tanh: Curve, g: real, ct: real): real -> real
  {
    (x: real) =>
      var t := tanh.At(g * x);
      var t2 := g * (1.0 - tanh.At(g * x) * tanh.At(g * x));
      x - Quot(x + x * t * ct - t - ct, 1.0 + ct * (t + x * t2) - t2)
  }

  /** The end-of-step drive `ut_2`: the bounded Newton iteration started at
      the start-of-step drive, with `g = -fb*b^4` and `C = tanh(u - fb*D_t)`. */
  function TrapezoidalSolution(tanh: Curve, p: Poles, dt: real, fb: real, ut1: real, input: real): real
    requires dt >= 0.0
  {
    var b, c := TrapezoidalGain(dt), TrapezoidalDecay(dt);
    var ut := TrapezoidalDrive(tanh, p, fb, ut1);
    var g := TrapezoidalNewtonGain(fb, b);
    var ct := tanh.At(Feedback(input, fb, TrapezoidalKnownPart(p, b, c, ut)));
    Converge(TrapezoidalNewtonStep(tanh, g, ct), ut, MaxIterations)
  }

  /** The stage updates once both drives are known:
      `pk := c*pk + b*(in_old + in_new)`, first stage driven by `ut` and
      `ut_2`, every other stage by the previous stage's old and new value. */
  function TrapezoidalUpdate(p: Poles, b: real, c: real, ut: real, ut2: real): Poles
  {
    var q0 := c * p.p0 + b * (ut + ut2);
    var q1 := c * p.p1 + b * (p.p0 + q0);
    var q2 := c * p.p2 + b * (p.p1 + q1);
    var q3 := c * p.p3 + b * (p.p2 + q2);
    Poles(q0, q1, q2, q3)
  }

  /** Implicit trapezoidal integration with the tanh only in the feedback path. */
  function Trapezoidal(tanh: Curve, p: Poles, dt: real, fb: real, ut1: real, input: real): (r: Poles)
    requires dt >= 0.0
    ensures dt == 0.0 ==> r == p
  {
    TrapezoidalUpdate(p, TrapezoidalGain(dt), TrapezoidalDecay(dt),
                      TrapezoidalDrive(tanh, p, fb, ut1), TrapezoidalSolution(tanh, p, dt, fb, ut1, input))
  }

  /** Each trapezoidal stage update is the trapezoid rule for
      `dp/dt = drive - p`: the step is `dt/2` times the sum of the slopes at
      the start and at the end of the step. */
  lemma TrapezoidalIsTrapezoidRule(p: Poles, dt: real, ut: real, ut2: real)
    requires dt >= 0.0
    ensures var q := TrapezoidalUpdate(p, TrapezoidalGain(dt), TrapezoidalDecay(dt), ut, ut2);
      && q.p0 - p.p0 == 0.5 * dt * ((ut - p.p0) + (ut2 - q.p0))
      && q.p1 - p.p1 == 0.5 * dt * ((p.p0 - p.p1) + (q.p0 - q.p1))
      && q.p2 - p.p2 == 0.5 * dt * ((p.p1 - p.p2) + (q.p1 - q.p2))
      && q.p3 - p.p3 == 0.5 * dt * ((p.p2 - p.p3) + (q.p2 - q.p3))
  {
    var q := TrapezoidalUpdate(p, TrapezoidalGain(dt), TrapezoidalDecay(dt), ut, ut2);
    TrapezoidRuleStage(p.p0, ut, ut2, dt, q.p0);
    TrapezoidRuleStage(p.p1, p.p0, q.p0, dt, q.p1);
    TrapezoidRuleStage(p.p2, p.p1, q.p1, dt, q.p2);
    TrapezoidRuleStage(p.p3, p.p2, q.p2, dt, q.p3);
  }

  /** One stage: `q = c*x + b*(u + u2)` is the trapezoid step from `x`. */
  lemma TrapezoidRuleStage(x: real, u: real, u2: real, dt: real, q: real)
    requires dt >= 0.0
    requires q == TrapezoidalDecay(dt) * x + TrapezoidalGain(dt) * (u + u2)
    ensures q - x == 0.5 * dt * ((u - x) + (u2 - q))
  {
    var h := 0.5 * dt;
    var b, c := TrapezoidalGain(dt), TrapezoidalDecay(dt);
    assert b * (1.0 + h) == h;
    assert c * (1.0 + h) == 1.0 - h;
    assert q * (1.0 + h) == (c * (1.0 + h)) * x + (b * (1.0 + h)) * (u + u2);
    assert q * (1.0 + h) == (1.0 - h) * x + h * (u + u2);
  }

  /** `D_t` is exactly the new `p3` less the `b^4`-weighted end-of-step
      drive, which is why the Newton equation carries the gain
      `g = -fb*b^4` on its unknown. */
  lemma TrapezoidalKnownPartIsP3(p: Poles, b: real, c: real, ut: real, ut2: real)
    ensures TrapezoidalUpdate(p, b, c, ut, ut2).p3 == TrapezoidalKnownPart(p, b, c, ut) + b * b * b * b * ut2
  {
    var q := TrapezoidalUpdate(p, b, c, ut, ut2);
    assert q.p1 == c * p.p1 + (b + b * c) * p.p0 + b * b * (ut + ut2);
    assert q.p2 == c * p.p2 + (b + b * c) * p.p1 + (b * b + b * b * c) * p.p0 + b * b * b * (ut + ut2);
  }

  /** Stages at a common level `v` driven by `v` at both ends of the step
      stay at `v` whenever `c + 2b = 1`, which every admissible rate gives. */
  lemma TrapezoidalKeepsEquilibrium(v: real, dt: real)
    requires 0.0 <= dt < 2.0
    ensures TrapezoidalUpdate(Poles(v, v, v, v), TrapezoidalGain(dt), TrapezoidalDecay(dt), v, v) == Poles(v, v, v, v)
  {
    TrapezoidalCoefficients(dt);
    var b, c := TrapezoidalGain(dt), TrapezoidalDecay(dt);
    assert c * v + b * (v + v) == (c + 2.0 * b) * v;
  }

  /** The scheme the integration switch selects; an unknown method leaves
      the stages alone. */
  function Integrate(tanh: Curve, m: LadderIntegrationMethod, p: Poles, dt: real, fb: real, ut1: real, input: real): (r: Poles)
    requires dt >= 0.0
    ensures m == UnknownMethod || dt == 0.0 ==> r == p
  {
    match m
    case EulerFullTanh => Euler(tanh, p, dt, fb, input)
    case PredictorCorrectorFullTanh => PredictorCorrectorFull(tanh, p, dt, fb, ut1, input)
    case PredictorCorrectorFeedbackTanh => PredictorCorrectorFeedback(tanh, p, dt, fb, ut1, input)
    case TrapezoidalFeedbackTanh => Trapezoidal(tanh, p, dt, fb, ut1, input)
    case UnknownMethod => p
  }

  /** Every stage at a common level `v` whose feedback drive
      `tanh(u - fb*v)` equals the stage's own `tanh(v)` is an equilibrium of
      the Euler scheme. */
  lemma {:induction false} EulerKeepsEquilibrium(tanh: Curve, v: real, dt: real, fb: real, input: real)
    requires tanh.At(Feedback(input, fb, v)) == tanh.At(v)
    ensures Euler(tanh, Poles(v, v, v, v), dt, fb, input) == Poles(v, v, v, v)
  {
    StageAtRest(tanh, v, Feedback(input, fb, v), dt);
    StageAtRest(tanh, v, v, dt);
  }

  /** The same equilibrium survives the full-tanh predictor-corrector when
      the previous input equals the current one. */
  lemma {:induction false} PredictorCorrectorFullKeepsEquilibrium(tanh: Curve, v: real, dt: real, fb: real, input: real)
    requires tanh.At(Feedback(input, fb, v)) == tanh.At(v)
    ensures PredictorCorrectorFull(tanh, Poles(v, v, v, v), dt, fb, input, input) == Poles(v, v, v, v)
  {
    StageAtRest(tanh, v, Feedback(input, fb, v), dt);
    StageAtRest(tanh, v, v, dt);
    CorrectorAtRest(tanh, v, v, v, v, dt);
    CorrectorAtRest(tanh, v, Feedback(input, fb, v), v, Feedback(input, fb, v), dt);
  }

  /** With the tanh only in the feedback path the equilibrium level is the
      fixed point `v = tanh(u - fb*v)`. */
  lemma {:induction false} PredictorCorrectorFeedbackKeepsEquilibrium(tanh: Curve, v: real, dt: real, fb: real, input: real)
    requires tanh.At(Feedback(input, fb, v)) == v
    ensures PredictorCorrectorFeedback(tanh, Poles(v, v, v, v), dt, fb, input, input) == Poles(v, v, v, v)
  {
    assert LinearStage(v, v, dt) == v;
    assert LinearCorrector(v, v, v, v, dt) == v;
  }

  // ---------------------------------------------------------------------
  // Output tap and the oversampled tick.

  /** The output switch: low-pass `p3`, band-pass `p1 - p3`, high-pass
      `tanh(input - p0 - fb*p3)`, anything else 0. */
  function Tap(tanh: Curve, mode: LadderFilterMode, p: Poles, fb: real, input: real): (y: real)
    ensures p == Poles(0.0, 0.0, 0.0, 0.0) ==> y == (if mode == HighpassMode then tanh.At(input) else 0.0)
  {
    match mode
    case LowpassMode => p.p3
    case BandpassMode => p.p1 - p.p3
    case HighpassMode => tanh.At(Feedback(input, fb, p.p3) - p.p0)
    case UnknownMode => 0.0
  }

  /** The settings a tick reads. */
  datatype Settings = Settings(
    integration: LadderIntegrationMethod, mode: LadderFilterMode,
    dt: real, fb: real, oversamplingFactor: int)

  /** The state a tick changes: stages, previous input, output and the
      decimation filter's delay line. */
  datatype Voice = Voice(p: Poles, ut1: real, out: real, z: seq<real>)

  /** One oversampling step: integrate, remember the input as `ut_1`, tap,
      and run the output through the decimation cascade when the factor
      exceeds 1. */
  function Step(tanh: Curve, s: Settings, c: Cascade, v: Voice, input: real): (w: Voice)
    requires s.dt >= 0.0 && Fits(c, v.z, |c.a1|)
    ensures |w.z| == |v.z|
  {
    var p := Integrate(tanh, s.integration, v.p, s.dt, s.fb, v.ut1, input);
    var y := Tap(tanh, s.mode, p, s.fb, input);
    var r := if s.oversamplingFactor > 1 then Tick(c, v.z, y, |c.a1|) else (y, v.z);
    Voice(p, input, r.0, r.1)
  }

  /** `n` oversampling steps on the same input. After at least one step the
      previous input is this input; without oversampling the delay line of
      the decimation cascade is untouched; in low-pass mode without
      oversampling the output is the last stage. */
  function Run(tanh: Curve, s: Settings, c: Cascade, v: Voice, input: real, n: nat): (w: Voice)
    requires s.dt >= 0.0 && Fits(c, v.z, |c.a1|)
    ensures |w.z| == |v.z|
    ensures n >= 1 ==> w.ut1 == input
    ensures s.oversamplingFactor <= 1 ==> w.z == v.z
    ensures n >= 1 && s.oversamplingFactor <= 1 && s.mode == LowpassMode ==> w.out == w.p.p3
    decreases n
  {
    if n == 0 then v else Step(tanh, s, c, Run(tanh, s, c, v, input, n - 1), input)
  }

  /** The engine object. */
  class Ladder {
    const tanh: Curve
    const iir: IIRLowpass

    var cutoffFrequency: real
    var resonance: real
    var oversamplingFactor: int
    var filterMode: LadderFilterMode
    var sampleRate: real
    var dt: real
    var integrationMethod: LadderIntegrationMethod

    var p0: real
    var p1: real
    var p2: real
    var p3: real
    var ut1: real
    var out: real

    ghost var Repr: set<object>

    /** The decimation cascade is a separate order-8 Butterworth design at
        the oversampled rate with its cutoff at 0.9 of the base Nyquist
        frequency whose coefficient arrays hold that design, and `dt` is
        always the clamped rate of the parameters. */
    ghost predicate Valid()
      reads `Repr, `sampleRate, `oversamplingFactor, `cutoffFrequency, `dt, iir
      reads iir.a1, iir.a2, iir.K, iir.paReal, iir.paImag, iir.pReal, iir.pImag
    {
      && this in Repr && iir in Repr
      && iir.Repr <= Repr && this !in iir.Repr
      && iir.Valid()
      && iir.order == DownsampleOrder
      && sampleRate > 0.0 && oversamplingFactor >= 1
      && iir.samplerate == OversampledRate(sampleRate, oversamplingFactor)
      && iir.cutoff == DecimationCutoff(sampleRate)
      && dt == IntegrationRate(sampleRate, oversamplingFactor, cutoffFrequency)
      && iir.Designed()
    }

    ghost function Config(): Settings
      reads `integrationMethod, `filterMode, `dt, `resonance, `oversamplingFactor
    {
      Settings(integrationMethod, filterMode, dt, 8.0 * resonance, oversamplingFactor)
    }

    ghost function State(): Voice
      reads `p0, `p1, `p2, `p3, `ut1, `out, iir, iir.z
    {
      Voice(Poles(p0, p1, p2, p3), ut1, out, iir.z[..])
    }

    constructor (tanh: Curve, libm: Libm, newCutoff: real, newResonance: real, newOversamplingFactor: int,
                 newFilterMode: LadderFilterMode, newSampleRate: real, newIntegrationMethod: LadderIntegrationMethod)
      requires newSampleRate > 0.0 && newOversamplingFactor >= 1
      ensures Valid() && fresh(Repr)
      ensures cutoffFrequency == newCutoff && resonance == newResonance
      ensures oversamplingFactor == newOversamplingFactor && filterMode == newFilterMode
      ensures sampleRate == newSampleRate && integrationMethod == newIntegrationMethod
      ensures p0 == 0.0 && p1 == 0.0 && p2 == 0.0 && p3 == 0.0 && out == 0.0 && ut1 == 0.0
      ensures iir.Zeroed() && iir.Designed()
    {
      this.tanh := tanh;
      cutoffFrequency := newCutoff;
      resonance := newResonance;
      oversamplingFactor := newOversamplingFactor;
      filterMode := newFilterMode;
      sampleRate := newSampleRate;
      dt := IntegrationRate(newSampleRate, newOversamplingFactor, newCutoff);
      p0, p1, p2, p3, out, ut1 := 0.0, 0.0, 0.0, 0.0, 0.0, 0.0;
      integrationMethod := newIntegrationMethod;
      iir := new IIRLowpass(libm, OversampledRate(newSampleRate, newOversamplingFactor),
                            DecimationCutoff(newSampleRate), DownsampleOrder);
      new;
      Repr := {this} + iir.Repr;
    }

    /** The default engine: cutoff 0.25, resonance 0.5, factor 2, low-pass,
        44100 Hz, full-tanh predictor-corrector. */
    constructor Default(tanh: Curve, libm: Libm)
      ensures Valid() && fresh(Repr)
      ensures cutoffFrequency == 0.25 && resonance == 0.5 && oversamplingFactor == 2
      ensures filterMode == LowpassMode && sampleRate == 44100.0
      ensures integrationMethod == PredictorCorrectorFullTanh
      ensures p0 == 0.0 && p1 == 0.0 && p2 == 0.0 && p3 == 0.0 && out == 0.0 && ut1 == 0.0
      ensures iir.Zeroed() && iir.Designed()
    {
      this.tanh := tanh;
      cutoffFrequency := 0.25;
      resonance := 0.5;
      oversamplingFactor := 2;
      filterMode := LowpassMode;
      sampleRate := 44100.0;
      dt := IntegrationRate(44100.0, 2, 0.25);
      p0, p1, p2, p3, out, ut1 := 0.0, 0.0, 0.0, 0.0, 0.0, 0.0;
      integrationMethod := PredictorCorrectorFullTanh;
      iir := new IIRLowpass(libm, OversampledRate(44100.0, 2), DecimationCutoff(44100.0), DownsampleOrder);
      new;
      Repr := {this} + iir.Repr;
    }

    /** Cutoff 0.25, resonance 0, every stage, the output and the previous
        input zeroed, and the decimation cascade redesigned (which zeroes its
        delay line); mode, method, factor and sample rate stay. */
    method ResetFilterState()
      requires Valid()
      modifies `cutoffFrequency, `resonance, `dt, `p0, `p1, `p2, `p3, `out, `ut1, iir.Repr
      ensures Valid()
      ensures cutoffFrequency == 0.25 && resonance == 0.0
      ensures p0 == 0.0 && p1 == 0.0 && p2 == 0.0 && p3 == 0.0 && out == 0.0 && ut1 == 0.0
      ensures iir.Zeroed() && iir.Designed()
    {
      cutoffFrequency := 0.25;
      resonance := 0.0;
      SetFilterIntegrationRate();
      ZeroVoice();
      RedesignDecimation();
    }

    /** `dt = 44100/(sampleRate*oversamplingFactor)*cutoffFrequency`, clamped
        into [0, 0.85]. */
    method SetFilterIntegrationRate()
      requires sampleRate > 0.0 && oversamplingFactor >= 1
      modifies `dt
      ensures dt == IntegrationRate(sampleRate, oversamplingFactor, cutoffFrequency)
    {
      dt := 44100.0 / OversampledRate(sampleRate, oversamplingFactor) * cutoffFrequency;
      if dt < 0.0 {
        dt := 0.0;
      } else if dt > 0.85 {
        dt := 0.85;
      }
    }

    /** Every stage, the output and the previous input back to zero. */
    method ZeroVoice()
      modifies `p0, `p1, `p2, `p3, `out, `ut1
      ensures p0 == 0.0 && p1 == 0.0 && p2 == 0.0 && p3 == 0.0 && out == 0.0 && ut1 == 0.0
    {
      p0, p1, p2, p3, out, ut1 := 0.0, 0.0, 0.0, 0.0, 0.0, 0.0;
    }

    /** The two calls every rate change makes on the decimation cascade:
        `SetFilterSamplerate(sampleRate*oversamplingFactor)` then
        `SetFilterCutoff(0.9*sampleRate/2)`, each zeroing its delay line and
        redesigning it. */
    method RedesignDecimation()
      requires iir.Valid() && iir.order == DownsampleOrder && this !in iir.Repr
      requires sampleRate > 0.0 && oversamplingFactor >= 1
      modifies iir.Repr
      ensures iir.Valid() && iir.Repr == old(iir.Repr) && iir.order == DownsampleOrder
      ensures iir.samplerate == OversampledRate(sampleRate, oversamplingFactor)
      ensures iir.cutoff == DecimationCutoff(sampleRate)
      ensures iir.Zeroed() && iir.Designed()
    {
      iir.SetFilterSamplerate(OversampledRate(sampleRate, oversamplingFactor));
      iir.SetFilterCutoff(DecimationCutoff(sampleRate));
    }

    method SetFilterCutoff(newCutoff: real)
      requires Valid()
      modifies this
      ensures Valid() && Repr == old(Repr)
      ensures cutoffFrequency == newCutoff
      ensures resonance == old(resonance) && oversamplingFactor == old(oversamplingFactor)
      ensures sampleRate == old(sampleRate) && filterMode == old(filterMode)
      ensures integrationMethod == old(integrationMethod) && State() == old(State())
    {
      cutoffFrequency := newCutoff;
      dt := IntegrationRate(sampleRate, oversamplingFactor, cutoffFrequency);
    }

    method SetFilterResonance(newResonance: real)
      requires Valid()
      modifies this
      ensures Valid() && Repr == old(Repr)
      ensures resonance == newResonance
      ensures cutoffFrequency == old(cutoffFrequency) && dt == old(dt)
      ensures oversamplingFactor == old(oversamplingFactor) && sampleRate == old(sampleRate)
      ensures filterMode == old(filterMode) && integrationMethod == old(integrationMethod)
      ensures State() == old(State())
    {
      resonance := newResonance;
    }

    /** Redesigns the decimation cascade for the new oversampled rate (which
        zeroes its delay line) and recomputes `dt`. */
    method SetFilterOversamplingFactor(newOversamplingFactor: int)
      requires Valid() && newOversamplingFactor >= 1
      modifies Repr
      ensures Valid() && Repr == old(Repr)
      ensures oversamplingFactor == newOversamplingFactor
      ensures cutoffFrequency == old(cutoffFrequency) && resonance == old(resonance)
      ensures sampleRate == old(sampleRate) && filterMode == old(filterMode)
      ensures integrationMethod == old(integrationMethod)
      ensures p0 == old(p0) && p1 == old(p1) && p2 == old(p2) && p3 == old(p3)
      ensures ut1 == old(ut1) && out == old(out)
      ensures iir.Zeroed() && iir.Designed()
    {
      oversamplingFactor := newOversamplingFactor;
      RedesignDecimation();
      dt := IntegrationRate(sampleRate, oversamplingFactor, cutoffFrequency);
    }

    method SetFilterMode(newFilterMode: LadderFilterMode)
      requires Valid()
      modifies this
      ensures Valid() && Repr == old(Repr)
      ensures filterMode == newFilterMode
      ensures cutoffFrequency == old(cutoffFrequency) && resonance == old(resonance) && dt == old(dt)
      ensures oversamplingFactor == old(oversamplingFactor) && sampleRate == old(sampleRate)
      ensures integrationMethod == old(integrationMethod) && State() == old(State())
    {
      filterMode := newFilterMode;
    }

    /** Redesigns the decimation cascade for the new rate and recomputes `dt`. */
    method SetFilterSampleRate(newSampleRate: real)
      requires Valid() && newSampleRate > 0.0
      modifies Repr
      ensures Valid() && Repr == old(Repr)
      ensures sampleRate == newSampleRate
      ensures cutoffFrequency == old(cutoffFrequency) && resonance == old(resonance)
      ensures oversamplingFactor == old(oversamplingFactor) && filterMode == old(filterMode)
      ensures integrationMethod == old(integrationMethod)
      ensures p0 == old(p0) && p1 == old(p1) && p2 == old(p2) && p3 == old(p3)
      ensures ut1 == old(ut1) && out == old(out)
      ensures iir.Zeroed() && iir.Designed()
    {
      sampleRate := newSampleRate;
      RedesignDecimation();
      dt := IntegrationRate(sampleRate, oversamplingFactor, cutoffFrequency);
    }

    method SetFilterIntegrationMethod(newMethod: LadderIntegrationMethod)
      requires Valid()
      modifies this
      ensures Valid() && Repr == old(Repr)
      ensures integrationMethod == newMethod
      ensures cutoffFrequency == old(cutoffFrequency) && resonance == old(resonance) && dt == old(dt)
      ensures oversamplingFactor == old(oversamplingFactor) && sampleRate == old(sampleRate)
      ensures filterMode == old(filterMode) && State() == old(State())
    {
      integrationMethod := newMethod;
    }

    function GetFilterCutoff(): real
      reads this
    {
      cutoffFrequency
    }

    function GetFilterResonance(): real
      reads this
    {
      resonance
    }

    function GetFilterOversamplingFactor(): int
      reads this
    {
      oversamplingFactor
    }

    function GetFilterOutput(): real
      reads this
    {
      out
    }

    function GetFilterMode(): LadderFilterMode
      reads this
    {
      filterMode
    }

    function GetFilterSampleRate(): real
      reads this
    {
      sampleRate
    }

    function GetFilterIntegrationMethod(): LadderIntegrationMethod
      reads this
    {
      integrationMethod
    }

    function GetFilterLowpass(): real
      reads this
    {
      p3
    }

    function GetFilterBandpass(): real
    {
      0.0
    }

    function GetFilterHighpass(): real
    {
      0.0
    }

    /** One input sample. `u` is the draw `rand()/RAND_MAX`. The call runs
        exactly `oversamplingFactor` steps of `Step` on the dithered input
        and changes nothing but the stages, `ut_1`, `out` and the decimation
        delay line. */
    method LadderFilter(input: real, u: real)
      requires Valid() && 0.0 <= u <= 1.0
      modifies `p0, `p1, `p2, `p3, `ut1, `out, iir.z
      ensures State() == Run(tanh, old(Config()), old(iir.Coeffs()), old(State()), Dithered(input, u), oversamplingFactor)
    {
      var x := Dithered(input, u);
      Oversampling(x);
    }

    /** The oversampling loop: `oversamplingFactor` passes of its body on the
        same input. */
    method Oversampling(x: real)
      requires iir.Ready() && dt >= 0.0 && oversamplingFactor >= 1
      modifies `p0, `p1, `p2, `p3, `ut1, `out, iir.z
      ensures State() == Run(tanh, old(Config()), old(iir.Coeffs()), old(State()), x, oversamplingFactor)
    {
      ghost var s, c, v := Config(), iir.Coeffs(), State();
      var nn := 0;
      while nn < oversamplingFactor
        invariant 0 <= nn <= oversamplingFactor
        invariant iir.Ready() && dt >= 0.0
        invariant Config() == s && iir.Coeffs() == c
        invariant State() == Run(tanh, s, c, v, x, nn)
      {
        Oversample(x, s, c);
        nn := nn + 1;
      }
    }

    /** One pass of the oversampling loop body: integrate by the selected
        scheme, remember the input, tap the selected output and, when
        oversampling, push it through the decimation cascade. */
    method Oversample(x: real, ghost s: Settings, ghost c: Cascade)
      requires iir.Ready() && dt >= 0.0
      requires Config() == s && iir.Coeffs() == c
      modifies `p0, `p1, `p2, `p3, `ut1, `out, iir.z
      ensures iir.Ready() && Config() == s && iir.Coeffs() == c
      ensures State() == Step(tanh, s, c, old(State()), x)
    {
      ghost var v := State();
      var fb := 8.0 * resonance;
      var p := IntegrateStep(tanh, integrationMethod, Poles(p0, p1, p2, p3), dt, fb, ut1, x);
      var y := Tap(tanh, filterMode, p, fb, x);
      y := Decimate(y, s, c);
      ghost var r := (y, iir.z[..]);
      StepParts(tanh, s, c, v, x, p, r);
      Commit(p, x, y, s, c);
    }

    /** The pass through the decimation cascade when oversampling. */
    method Decimate(x: real, ghost s: Settings, ghost c: Cascade) returns (y: real)
      requires iir.Ready()
      requires Config() == s && iir.Coeffs() == c
      modifies iir.z
      ensures iir.Ready() && Config() == s && iir.Coeffs() == c
      ensures p0 == old(p0) && p1 == old(p1) && p2 == old(p2) && p3 == old(p3) && ut1 == old(ut1) && out == old(out)
      ensures (y, iir.z[..]) == if s.oversamplingFactor > 1 then Tick(c, old(iir.z[..]), x, |c.a1|) else (x, old(iir.z[..]))
    {
      y := x;
      if oversamplingFactor > 1 {
        y := iir.IIRfilter(x);
      }
    }

    /** Stores the integrated stages, the input and the output; nothing the
        decimation cascade or the parameters hold changes. */
    method Commit(p: Poles, x: real, y: real, ghost s: Settings, ghost c: Cascade)
      requires iir.Ready()
      requires Config() == s && iir.Coeffs() == c
      modifies `p0, `p1, `p2, `p3, `ut1, `out
      ensures iir.Ready() && Config() == s && iir.Coeffs() == c
      ensures State() == Voice(p, x, y, old(iir.z[..]))
    {
      p0, p1, p2, p3, ut1, out := p.p0, p.p1, p.p2, p.p3, x, y;
    }
  }

  /** `Step` taken apart into its integration, its tap and its pass through
      the decimation cascade. */
  lemma StepParts(tanh: Curve, s: Settings, c: Cascade, v: Voice, x: real, p: Poles, r: (real, seq<real>))
    requires s.dt >= 0.0 && Fits(c, v.z, |c.a1|)
    requires p == Integrate(tanh, s.integration, v.p, s.dt, s.fb, v.ut1, x)
    requires r == if s.oversamplingFactor > 1 then Tick(c, v.z, Tap(tanh, s.mode, p, s.fb, x), |c.a1|)
                  else (Tap(tanh, s.mode, p, s.fb, x), v.z)
    ensures Step(tanh, s, c, v, x) == Voice(p, x, r.0, r.1)
  {
  }

  /** The integration switch of the oversampling loop. */
  method IntegrateStep(tanh: Curve, m: LadderIntegrationMethod, p: Poles, dt: real, fb: real, ut1: real, input: real)
    returns (q: Poles)
    requires dt >= 0.0
    ensures q == Integrate(tanh, m, p, dt, fb, ut1, input)
  {
    match m {
      case EulerFullTanh => q := Euler(tanh, p, dt, fb, input);
      case PredictorCorrectorFullTanh => q := PredictorCorrectorFull(tanh, p, dt, fb, ut1, input);
      case PredictorCorrectorFeedbackTanh => q := PredictorCorrectorFeedback(tanh, p, dt, fb, ut1, input);
      case TrapezoidalFeedbackTanh => q := TrapezoidalStep(tanh, p, dt, fb, ut1, input);
      case UnknownMethod => q := p;
    }
  }

  /** The trapezoidal step as the source runs it: the end-of-step drive is
      found by the Newton loop, then the four stages are updated in turn. */
  method TrapezoidalStep(tanh: Curve, p: Poles, dt: real, fb: real, ut1: real, input: real) returns (q: Poles)
    requires dt >= 0.0
    ensures q == Trapezoidal(tanh, p, dt, fb, ut1, input)
  {
    var ut := TrapezoidalDrive(tanh, p, fb, ut1);
    var b, c := TrapezoidalGain(dt), TrapezoidalDecay(dt);
    var g := TrapezoidalNewtonGain(fb, b);
    var dT := TrapezoidalKnownPart(p, b, c, ut);
    var cT := tanh.At(Feedback(input, fb, dT));
    var ut2 := Solve(TrapezoidalNewtonStep(tanh, g, cT), ut);
    q := TrapezoidalUpdate(p, b, c, ut, ut2);
  }
}
