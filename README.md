# Kocmoc OWL patches: filter engines and digital delays in Dafny

This project models the signal-processing core of the Kocmoc OWL patches. It covers:

- the Butterworth anti-alias cascade `IIRLowpass` (`iir.cpp`);
- the three virtual-analog filter engines that own one: the four-pole ladder `Ladder` (`ladder.cpp`), the two-pole Sallen-Key `SKFilter` (`sallenkey.cpp`) and the state-variable filter `SVFilter` (`svfilter.cpp`);
- the two ring-buffer delay patches, `DigiDelayPatch.hpp` and its clock-synchronised twin `DigiDelayClockedPatch.hpp`.

Every engine is a Dafny `class` with the source's fields, and its methods update them in place. Each method is proved against a pure specification function:

- `Iir.Tick` runs one sample through the biquad cascade.
- `Ladder.Run`, `SallenKey.Run` and `SVFilter.Run` fold one oversampling step (integration scheme, output tap, decimation) over the oversampling factor.
- `DigiDelay.Write` and `DigiDelay.Read` describe the ring buffer.
- `DigiDelay.Hysteresis` and `DigiDelay.FadeStep` describe the crossfade.
- `DigiDelay.Loop` describes a whole audio block.
- `DigiDelayClocked.ButtonChange` and `DigiDelayClocked.ClockRun` describe the clock detector.

The properties the code promises are then proved about those functions:

- unity DC gain of the designed cascade;
- the bilinear division inverting complex multiplication;
- the trapezoidal updates satisfying the trapezoid rule;
- the implicit equations solved by Newton's method being the trapezoid rule;
- fixed points of each Newton step being roots;
- equilibria kept by each scheme;
- the read pointer staying in range, and a write shifting every whole-sample delay by one;
- the crossfade reaching its target after 25 samples;
- clock periods measured as counter plus offset.

Floats are modelled as `real`. The rational Padé approximants of `fastmath.h` and the C library's `sin`, `cos`, `tan`, `sinh` and `asinh` are function-valued fields (`FastMath.Pade`, `FastMath.Libm`) given to the constructors. Nothing is assumed about them, so every result holds for any such functions.

Modules:

| module | file | models |
|---|---|---|
| `Numerics` | numerics.dfy | C `abs`, `(int)` casts, division, the dither term |
| `FastMath` | fastmath.dfy | the Padé and libm collaborators, `M_PI` |
| `NewtonRaphson` | newton.dfy | the bounded Newton loop shared by every implicit scheme |
| `Decimation` | decimation.dfy | oversampled rate and decimation cutoff shared by the engines |
| `Iir` | iir.dfy | `IIRLowpass` |
| `Ladder` | ladder.dfy | `Ladder` |
| `SallenKey` | sallenkey.dfy | `SKFilter` |
| `SVFilter` | svfilter.dfy | `SVFilter` |
| `DigiDelay` | digidelay.dfy | `DigiDelayPatch`, plus the ring buffer and crossfade both patches share |
| `DigiDelayClocked` | digidelay_clocked.dfy | `DigiDelayClockedPatch` |

The two delay headers repeat `readDelay`, `writeDelay`, the hysteresis and the crossfade word for word:

- DigiDelayPatch.hpp:73-148
- DigiDelayClockedPatch.hpp:85-218

The model defines each once, as the classes `DigiDelay.DelayLine` and `DigiDelay.Crossfade`, and both patch classes hold one of each. The engines' getters are plain field reads (`GetFilterCutoff` …). They are modelled as functions without contracts, and so have no row below. The ladder's `GetFilterBandpass` and `GetFilterHighpass` return the constant 0, as in ladder.cpp:324-330.

Points of the code that the model keeps as written:

- The SVF integration switch (svfilter.cpp:207-287) has cases for semi-implicit Euler, trapezoidal and inverse trapezoidal integration only. Under the predictor-corrector method its `default` branch runs, so `lp`, `bp` and `hp` keep their values (`SVFilter.PredictorCorrectorFreezesStates`).
- The SVF loss factor `beta` multiplies `bp` in the Euler case (svfilter.cpp:211-215) and in both trapezoidal cases (svfilter.cpp:223 and 247, 256 and 280).
- The stored SVF rate is clamped at 0 from below and has no upper clamp (svfilter.cpp:130-138). The per-scheme caps 0.8, 1.0 and 0.25 apply to the local copy `dt2` (svfilter.cpp:185-201).
- Each Newton loop runs at most 8 iterations and leaves early once two iterates differ by less than 1e-9 (ladder.cpp:259-275, sallenkey.cpp:265-275, svfilter.cpp:233-244 and 266-277; `NewtonRaphson.ConvergeIsFirstSettledIterate`).
- The Sallen-Key Euler scheme saturates `p0` (sallenkey.cpp:229), while the other two schemes saturate `p1` (sallenkey.cpp:240-244 and 257, 266).
- The ladder reset sets resonance to 0.0 (ladder.cpp:83), while the Sallen-Key and SVF resets set it to 0.5.

The model departs from the code in one place. The clocked patch gives the faded-to side `time2^4` (DigiDelayClockedPatch.hpp:179, 183); the model's `DigiDelayClockedPatch.ProcessAudio` gives it the clock-derived time itself, so that the delay follows the clock. "## Findings" records the as-written behaviour and the correction.

## Model

| member | source | states |
|---|---|---|
| Numerics.Abs | ladder.cpp:269 | the magnitude used by every Newton stopping test is non-negative and equals `x` or `-x` |
| Numerics.Trunc | DigiDelayPatch.hpp:77 | the `(int)` cast truncates toward zero: for non-negative `x` it is the largest integer not above `x`, for negative `x` the smallest not below |
| Numerics.Quot | iir.cpp:214 | a quotient times a non-zero divisor gives back the dividend; a zero divisor yields 0 |
| Numerics.Dithered | ladder.cpp:178-181 | the dithered input differs from the input by at most 1e-6 for any draw of `rand()/RAND_MAX` |
| NewtonRaphson.StopCount | ladder.cpp:259-275 | the loop performs at least one and at most as many iterations as it has fuel |
| NewtonRaphson.ConvergeIsFirstSettledIterate | ladder.cpp:259-275 | the loop's result is the iterate after its stop count; it stops early only at the first iterate within 1e-9 of its predecessor, and no earlier iterate was |
| NewtonRaphson.ConvergeFromFixedPoint | ladder.cpp:265-272 | started on a fixed point of its step, the loop returns that point |
| NewtonRaphson.FixedPointIsRoot | ladder.cpp:265-266 | a fixed point of `x - f(x)/f'(x)` with non-zero derivative is a root of `f` |
| NewtonRaphson.Solve | ladder.cpp:258-277 | the eight-iteration loop with early exit returns exactly the iterate the convergence function and its stop count describe |
| Decimation.OversampledRate | ladder.cpp:52 | the rate the stages and the decimation cascade run at is never below the base rate |
| Decimation.DecimationCutoff | ladder.cpp:29-52 | the decimation cutoff lies strictly inside the base Nyquist band |
| Iir.DivideInvertsMul | iir.cpp:207-218 | the conjugate-and-scale division inverts complex multiplication whenever the divisor's squared magnitude is non-zero |
| Iir.PoleIndexIsBijection | iir.cpp:191-197 | the slot map `k = order/2 - ii` visits every pole index 1..order/2 exactly once |
| Iir.PoleAngleInOpenQuadrant | iir.cpp:191-197 | every Butterworth pole angle lies strictly between 0 and pi/2 |
| Iir.BilinearSolvesTransform | iir.cpp:207-218 | the digital pole `p` satisfies `p*(x+iy) = u+iv` whenever `x*x + y*y` is non-zero |
| Iir.PrewarpedCutoff | iir.cpp:200 | where `tan` is the identity at `pi*fc/fs` the pre-warped cutoff is `fc` itself: pre-warping undoes only the tangent |
| Iir.AnalogPole | iir.cpp:199-204 | the scaled pole points the same way as the unit pole |
| Iir.SectionFromPole | iir.cpp:221-225 | `a2` is the squared magnitude of the pole (so non-negative) and `4K = 1 + a1 + a2` |
| Iir.Section | iir.cpp:162-169 | the section's second delay takes its old first delay, its output is `w + 2*z1 + z2` with the new first delay `w`, and no other cell changes |
| Iir.Tick | iir.cpp:155-173 | running the sections in order keeps the delay line's length and leaves the cells past the sections untouched |
| Iir.SectionDcFixedPoint | iir.cpp:162-169 | a section with `4K = 1 + a1 + a2`, delays `x/4` and input `x` outputs `x` and keeps its delays at `x/4` |
| Iir.CascadeDcFixedPoint | iir.cpp:160-172 | with every delay at `x/4`, a constant input `x` passes the whole cascade unchanged and leaves the delay line as it was |
| Iir.NewArrays | iir.cpp:33-43 | eight fresh, pairwise distinct arrays: seven of order/2 cells and one of order cells |
| Iir.IIRLowpass.constructor | iir.cpp:26-50 | stores the design parameters, allocates arrays of order/2 and order cells, zeroes the delay line and leaves the design computed |
| Iir.IIRLowpass.Default | iir.cpp:53-77 | the default design is 44100 Hz, 440 Hz, order 32, zeroed and designed |
| Iir.IIRLowpass.SetFilterOrder | iir.cpp:94-126 | fresh arrays for the new order, rate and cutoff kept, delay line zeroed, design recomputed |
| Iir.IIRLowpass.Reallocate | iir.cpp:94-119 | the arrays are replaced by fresh ones of order/2 and order cells; rate and cutoff are kept |
| Iir.IIRLowpass.Install | iir.cpp:109-119 | the eight fields take the given arrays and the order; rate and cutoff are kept |
| Iir.IIRLowpass.SetFilterSamplerate | iir.cpp:128-136 | new rate, same order and cutoff, same arrays, delay line zeroed, design recomputed |
| Iir.IIRLowpass.SetFilterCutoff | iir.cpp:138-146 | new cutoff, same order and rate, same arrays, delay line zeroed, design recomputed |
| Iir.IIRLowpass.InitializeBiquadCascade | iir.cpp:148-153 | both cells of every section become 0; for an even order that is every cell, for an odd order the last cell is kept |
| Iir.IIRLowpass.IIRfilter | iir.cpp:155-173 | the returned sample and the new delay line are those of the sections run in order on the old delay line; only the delay line changes |
| Iir.IIRLowpass.ComputeCoefficients | iir.cpp:187-226 | after the four loops every slot holds the analog pole, its bilinear image and the section derived from it |
| Iir.IIRLowpass.PlacePoles | iir.cpp:188-197 | slot `ii` holds `-sin(theta) + i cos(theta)` for the angle of pole `order/2 - ii` |
| Iir.IIRLowpass.PrewarpPoles | iir.cpp:199-204 | every unit pole is scaled by `2*pi*Fc` with the pre-warped cutoff |
| Iir.IIRLowpass.BilinearTransform | iir.cpp:206-218 | every slot's digital pole is the bilinear image of its analog pole |
| Iir.IIRLowpass.CascadeCoefficients | iir.cpp:220-225 | every section's `a1`, `a2`, `K` are derived from its digital pole |
| Iir.IIRLowpass.DesignedHasUnityDcGain | iir.cpp:160-172 | a designed cascade passes a constant input unchanged from its DC steady state: unity DC gain |
| Ladder.IntegrationRate | ladder.cpp:129-140 | `dt` is the raw rate `44100/(fs*factor)*cutoff` when that lies in [0, 0.85], 0 when it is negative and 0.85 when it is above |
| Ladder.IntegrationRateMonotone | ladder.cpp:129-140 | raising the cutoff never lowers the integration rate |
| Ladder.StageAtRest | ladder.cpp:192-195 | an Euler stage whose saturated drive equals its saturated state does not move |
| Ladder.CorrectorAtRest | ladder.cpp:213-216 | a corrector stage with both slopes zero does not move |
| Ladder.TrapezoidalCoefficients | ladder.cpp:250-251 | for `dt` in [0, 2): `c + 2b = 1`, `0 <= b < 1/2`, `0 < c <= 1` |
| Ladder.TrapezoidalIsTrapezoidRule | ladder.cpp:279-287 | the closed-form pole updates satisfy the trapezoid rule for the linear stage equations |
| Ladder.TrapezoidRuleStage | ladder.cpp:284-287 | one update `c*x + b*(u + u2)` is one trapezoid step of `x' = u - x` |
| Ladder.TrapezoidalKnownPartIsP3 | ladder.cpp:254-255 | `D_t` is the last pole's update with the unknown feedback value still to be added |
| Ladder.TrapezoidalKeepsEquilibrium | ladder.cpp:279-287 | all poles and both feedback values at `v` stay at `v` |
| Ladder.EulerKeepsEquilibrium | ladder.cpp:188-197 | all poles at `v` with saturated drive equal to the saturated state stay at `v` |
| Ladder.PredictorCorrectorFullKeepsEquilibrium | ladder.cpp:199-218 | the full-tanh predictor-corrector keeps the same equilibrium |
| Ladder.PredictorCorrectorFeedbackKeepsEquilibrium | ladder.cpp:220-240 | the feedback-tanh predictor-corrector keeps an equilibrium whose saturated drive equals the poles |
| Ladder.Euler | ladder.cpp:188-197 | with `dt = 0` the poles do not move |
| Ladder.EulerIsSemiImplicit | ladder.cpp:188-197 | each pole moves by `dt` times the saturated difference between its drive and itself, and each stage after the first is driven by the NEW value of the stage before |
| Ladder.PredictorCorrectorFull | ladder.cpp:199-218 | with `dt = 0` the poles do not move |
| Ladder.PredictorCorrectorFeedback | ladder.cpp:220-240 | with `dt = 0` the poles do not move |
| Ladder.Trapezoidal | ladder.cpp:242-289 | with `dt = 0` the poles do not move |
| Ladder.Integrate | ladder.cpp:187-293 | an unknown method, or `dt = 0`, leaves the poles unchanged |
| Ladder.Tap | ladder.cpp:299-311 | at rest the low-pass, band-pass and unknown-mode taps are 0 and the high-pass tap is `tanh(input)` |
| Ladder.Step | ladder.cpp:185-317 | one oversampling step keeps the decimation delay line's length |
| Ladder.Run | ladder.cpp:185-317 | after at least one step `ut_1` is the input; without oversampling the decimation delay line is untouched and the low-pass output is `p3` |
| Ladder.Ladder.constructor | ladder.cpp:35-53 | the parameters are stored, `dt` is their clamped rate, all poles, `out` and `ut_1` are zero, and the order-8 decimation cascade runs at the oversampled rate with its cutoff at 0.9 of the base Nyquist frequency, delay line zeroed and design computed |
| Ladder.Ladder.Default | ladder.cpp:56-73 | defaults cutoff 0.25, resonance 0.5, factor 2, low-pass, 44100 Hz, full-tanh predictor-corrector, zeroed state, cascade designed and zeroed |
| Ladder.Ladder.ResetFilterState | ladder.cpp:80-93 | cutoff 0.25, resonance 0.0, poles, `out` and `ut_1` zero, decimation redesigned and zeroed, design computed |
| Ladder.Ladder.SetFilterIntegrationRate | ladder.cpp:129-140 | `dt` becomes the clamped rate of the current parameters |
| Ladder.Ladder.ZeroVoice | ladder.cpp:88 | poles, `out` and `ut_1` become zero |
| Ladder.Ladder.RedesignDecimation | ladder.cpp:91-92 | the cascade is redesigned for the oversampled rate and 0.9 of the base Nyquist frequency, delay line zeroed |
| Ladder.Ladder.SetFilterCutoff | ladder.cpp:95-99 | new cutoff, `dt` recomputed, every other parameter and the voice unchanged |
| Ladder.Ladder.SetFilterResonance | ladder.cpp:101-103 | only the resonance changes |
| Ladder.Ladder.SetFilterOversamplingFactor | ladder.cpp:105-111 | new factor, cascade redesigned (design computed) and zeroed, `dt` recomputed, voice unchanged |
| Ladder.Ladder.SetFilterMode | ladder.cpp:113-115 | only the mode changes |
| Ladder.Ladder.SetFilterSampleRate | ladder.cpp:117-123 | new rate, cascade redesigned (design computed) and zeroed, `dt` recomputed, voice unchanged |
| Ladder.Ladder.SetFilterIntegrationMethod | ladder.cpp:125-127 | only the method changes |
| Ladder.Ladder.LadderFilter | ladder.cpp:170-318 | the new voice is exactly `oversamplingFactor` steps of `Step` on the dithered input, with `fb = 8*Resonance` |
| Ladder.Ladder.Oversampling | ladder.cpp:185-317 | the oversampling loop performs exactly `oversamplingFactor` steps of `Step` |
| Ladder.Ladder.Oversample | ladder.cpp:186-316 | one loop pass is one `Step` and keeps the settings and coefficients |
| Ladder.Ladder.Decimate | ladder.cpp:314-316 | the tap goes through the cascade only when the factor exceeds 1; the poles are untouched |
| Ladder.Ladder.Commit | ladder.cpp:296-311 | the poles, `ut_1` and `out` take the step's values and the delay line is kept |
| Ladder.IntegrateStep | ladder.cpp:187-293 | the integration switch computes `Integrate`, an unknown method changing nothing |
| Ladder.TrapezoidalStep | ladder.cpp:242-289 | the trapezoidal case with its Newton loop computes `Trapezoidal` |
| SallenKey.IntegrationRate | sallenkey.cpp:141-152 | `dt` lies in [0, 0.35]: the raw rate when in range, 0 below, 0.35 above |
| SallenKey.IntegrationRateMonotone | sallenkey.cpp:141-152 | raising the cutoff never lowers the integration rate |
| SallenKey.Route | sallenkey.cpp:197-217 | the input lands in the one routed input the mode names, the other two are zero, and an unknown mode zeroes all three |
| SallenKey.ShareIsRatio | sallenkey.cpp:256-258 | the share `alpha/(1+alpha)` satisfies `s + s*alpha = alpha` |
| SallenKey.TrapezoidalP0IsTrapezoidRule | sallenkey.cpp:279 | the closed-form `p0` is the trapezoid step of the `p0` equation between the previous and current feedback |
| SallenKey.TrapezoidalP1IsTrapezoidRule | sallenkey.cpp:255-266 | the scalar equation Newton solves holds exactly when `x` is a trapezoid step of the `p1` equation |
| SallenKey.NewtonFixedPointIsRoot | sallenkey.cpp:266 | a fixed point of the Newton step with non-zero derivative solves `c*x + alpha*sinh(4x)/4 = D_n` |
| SallenKey.EulerKeepsEquilibrium | sallenkey.cpp:227-230 | with both slopes zero the Euler step does not move the poles |
| SallenKey.PredictorCorrectorKeepsEquilibrium | sallenkey.cpp:236-248 | with both slopes zero and unchanged inputs the predictor-corrector does not move the poles |
| SallenKey.IntegrateIgnoresHighpass | sallenkey.cpp:223-285 | no scheme reads the high-pass inputs |
| SallenKey.RestStaysAtRest | sallenkey.cpp:223-285 | with zero inputs, every scheme keeps the poles at zero |
| SallenKey.TrapezoidalRestStaysAtRest | sallenkey.cpp:253-280 | the trapezoidal scheme keeps zero poles at zero under zero drive |
| SallenKey.HighpassModeDrivesNothing | sallenkey.cpp:197-285 | in high-pass mode a resting filter stays at rest whatever the input |
| SallenKey.Euler | sallenkey.cpp:227-229 | with `dt = 0` the poles do not move |
| SallenKey.PredictorCorrectorStep | sallenkey.cpp:236-246 | with `dt = 0` the poles do not move |
| SallenKey.EulerIsSemiImplicit | sallenkey.cpp:227-229 | `p0` moves by `dt*(lp - p0 - fb)`, then `p1` by `dt*(p0 + fb - p1 - SinhPade34(4*p0)/4)` with the NEW `p0` in both places |
| SallenKey.PredictorCorrectorIsHeun | sallenkey.cpp:238-246 | an Euler predictor from the previous inputs, then each state moves by `dt/2` times its start slope plus its predicted-end slope, the end slope driven by the current inputs and the predicted `p1`'s feedback |
| SallenKey.TrapezoidalFinish | sallenkey.cpp:277-279 | `p1` takes the Newton result and `p0` advances by one trapezoid step of its equation between the previous and the current feedback |
| SallenKey.Integrate | sallenkey.cpp:223-285 | an unknown method changes nothing, and with `dt = 0` the Euler and predictor-corrector schemes do not move |
| SallenKey.Output | sallenkey.cpp:223-285 | every known scheme sets `out = p1`; the unknown method keeps the old `out` |
| SallenKey.Step | sallenkey.cpp:221-291 | one oversampling step keeps the decimation delay line's length |
| SallenKey.Run | sallenkey.cpp:221-291 | without oversampling the delay line is untouched and a known scheme leaves `out = p1` |
| SallenKey.SKFilter.constructor | sallenkey.cpp:35-57 | parameters stored, poles, `out` and all six routed inputs zero, cascade designed and zeroed |
| SallenKey.SKFilter.Default | sallenkey.cpp:60-81 | defaults cutoff 0.25, resonance 0.5, factor 2, low-pass, 44100 Hz, trapezoidal, zeroed state, cascade designed and zeroed |
| SallenKey.SKFilter.ResetFilterState | sallenkey.cpp:88-105 | cutoff 0.25, resonance 0.5, poles, `out` and all six inputs zero, cascade redesigned (design computed) and zeroed |
| SallenKey.SKFilter.ResetFields | sallenkey.cpp:90-100 | the field half of the reset, with `dt` recomputed |
| SallenKey.SKFilter.SetFilterIntegrationRate | sallenkey.cpp:141-152 | `dt` becomes the clamped rate of the current parameters |
| SallenKey.SKFilter.RedesignDecimation | sallenkey.cpp:103-104 | the cascade is redesigned for the oversampled rate and 0.9 of the base Nyquist frequency, delay line zeroed |
| SallenKey.SKFilter.SetFilterCutoff | sallenkey.cpp:107-111 | new cutoff, `dt` recomputed, nothing else changes |
| SallenKey.SKFilter.SetFilterResonance | sallenkey.cpp:113-115 | only the resonance changes |
| SallenKey.SKFilter.SetFilterOversamplingFactor | sallenkey.cpp:117-123 | new factor, cascade redesigned (design computed) and zeroed, `dt` recomputed |
| SallenKey.SKFilter.SetFilterMode | sallenkey.cpp:125-127 | only the mode changes |
| SallenKey.SKFilter.SetFilterSampleRate | sallenkey.cpp:129-135 | new rate, cascade redesigned (design computed) and zeroed, `dt` recomputed |
| SallenKey.SKFilter.SetFilterIntegrationMethod | sallenkey.cpp:137-139 | only the method changes |
| SallenKey.SKFilter.SetFilterLowpassInput | sallenkey.cpp:299-301 | only `input_lp` changes |
| SallenKey.SKFilter.SetFilterBandpassInput | sallenkey.cpp:303-305 | only `input_bp` changes |
| SallenKey.SKFilter.SetFilterHighpassInput | sallenkey.cpp:307-309 | only `input_hp` changes |
| SallenKey.SKFilter.Filter | sallenkey.cpp:182-297 | the routed inputs are the mode's routing of the dithered input, whatever the input setters stored; the voice is `oversamplingFactor` steps; afterwards the `_t1` inputs equal this call's routed inputs |
| SallenKey.SKFilter.Oversampling | sallenkey.cpp:221-291 | the loop performs exactly `oversamplingFactor` steps of `Step` |
| SallenKey.SKFilter.RouteInput | sallenkey.cpp:197-217 | the three current inputs become the mode's routing of the input |
| SallenKey.SKFilter.ShiftInputs | sallenkey.cpp:294-296 | the previous inputs become the current ones |
| SallenKey.SKFilter.Oversample | sallenkey.cpp:222-290 | one loop pass is one `Step` and keeps settings, coefficients and inputs |
| SallenKey.SKFilter.Decimate | sallenkey.cpp:288-290 | the output goes through the cascade only when the factor exceeds 1; the poles are untouched |
| SallenKey.SKFilter.Commit | sallenkey.cpp:277-280 | poles and output take the step's values and the delay line is kept |
| SallenKey.IntegrateStep | sallenkey.cpp:223-285 | the integration switch computes `Integrate`, an unknown method changing nothing |
| SallenKey.TrapezoidalIntegration | sallenkey.cpp:251-282 | the trapezoidal case with its Newton loop computes `TrapezoidalScheme` |
| SVFilter.IntegrationRate | svfilter.cpp:130-138 | `dt` is the raw rate when non-negative and 0 otherwise, with no upper clamp |
| SVFilter.IntegrationRateMonotone | svfilter.cpp:130-138 | raising the cutoff never lowers the integration rate, and for non-negative cutoffs strictly raises it, since there is no upper clamp |
| SVFilter.ClampedRate | svfilter.cpp:176-201 | the local rate is the stored rate or the scheme's cap (0.8, 1.0 or 0.25), whichever is lower |
| SVFilter.Beta | svfilter.cpp:211 | the loss factor `1 - 0.0025/factor` lies in [0.9975, 1) for every factor >= 1 |
| SVFilter.TrapezoidalFinish | svfilter.cpp:246-249 | `bp = beta*x`, `lp` advances by `alpha` times the old plus the new `bp`, and `hp + lp + fb*bp` equals the input |
| SVFilter.Integrate | svfilter.cpp:207-287 | the predictor-corrector and unknown methods leave the three bands unchanged |
| SVFilter.ImplicitEquationIsTrapezoidRule | svfilter.cpp:222-235 | the equation the trapezoidal Newton loop solves holds exactly when `x` is a trapezoid step of `bp' = hp` |
| SVFilter.InverseResidualIsTrapezoidal | svfilter.cpp:255-268 | the inverse scheme's equation in `y` is the trapezoidal equation at `asinh(y)` |
| SVFilter.NewtonFixedPointIsRoot | svfilter.cpp:233-235 | a fixed point of the trapezoidal Newton step with non-zero derivative solves its equation |
| SVFilter.InverseNewtonFixedPointIsRoot | svfilter.cpp:266-268 | a fixed point of the inverse Newton step with non-zero derivative solves its equation |
| SVFilter.IntegrateKeepsRest | svfilter.cpp:207-287 | with `lp` at a constant input and `bp`, `hp` zero, every scheme keeps the filter there |
| SVFilter.TrapezoidalKeepsRest | svfilter.cpp:219-251 | the trapezoidal scheme keeps that rest state |
| SVFilter.InverseTrapezoidalKeepsRest | svfilter.cpp:252-284 | the inverse-trapezoidal scheme keeps that rest state |
| SVFilter.RateCap | svfilter.cpp:185-201 | the cap is 0.8 for trapezoidal, 1.0 for inverse trapezoidal and 0.25 otherwise, always in [0.25, 1] |
| SVFilter.Euler | svfilter.cpp:208-218 | `hp` is the high-pass of the old bands, `bp` the damped update with the NEW `hp`, and `lp` advances by `dt2` times the NEW `bp` |
| SVFilter.TrapezoidalScheme | svfilter.cpp:219-251 | `lp` advances by `dt2/2` times the old plus the new `bp`, and `hp + lp + fb*bp` equals the input |
| SVFilter.InverseTrapezoidalScheme | svfilter.cpp:252-284 | the same two relations for the scheme solved in `y = sinh(bp)` |
| SVFilter.Tap | svfilter.cpp:289-301 | at rest, or under an unknown mode, the tap is 0 |
| SVFilter.Step | svfilter.cpp:205-306 | one oversampling step keeps the decimation delay line's length |
| SVFilter.Run | svfilter.cpp:205-306 | without oversampling the delay line is untouched and the low-pass output is `lp` |
| SVFilter.PredictorCorrectorFreezesStates | svfilter.cpp:207-287 | under the predictor-corrector method a whole tick leaves `lp`, `bp` and `hp` as they were |
| SVFilter.SVFilter.constructor | svfilter.cpp:35-53 | parameters stored, bands, `out` and `u_t1` zero, cascade designed and zeroed |
| SVFilter.SVFilter.Default | svfilter.cpp:56-73 | defaults cutoff 0.25, resonance 0.5, factor 2, low-pass, 44100 Hz, trapezoidal, zeroed state, cascade designed and zeroed |
| SVFilter.SVFilter.ResetFilterState | svfilter.cpp:80-93 | cutoff 0.25, resonance 0.5, bands, `out` and `u_t1` zero, cascade redesigned (design computed) and zeroed |
| SVFilter.SVFilter.ResetFields | svfilter.cpp:82-88 | the field half of the reset, with `dt` recomputed |
| SVFilter.SVFilter.SetFilterIntegrationRate | svfilter.cpp:130-138 | `dt` becomes the rate of the current parameters, clamped at 0 |
| SVFilter.SVFilter.RedesignDecimation | svfilter.cpp:91-92 | the 16th-order cascade is redesigned for the oversampled rate and 0.9 of the base Nyquist frequency, delay line zeroed |
| SVFilter.SVFilter.SetFilterCutoff | svfilter.cpp:95-99 | new cutoff, `dt` recomputed, nothing else changes |
| SVFilter.SVFilter.SetFilterResonance | svfilter.cpp:101-103 | only the resonance changes |
| SVFilter.SVFilter.SetFilterOversamplingFactor | svfilter.cpp:105-111 | new factor, cascade redesigned (design computed) and zeroed, `dt` recomputed |
| SVFilter.SVFilter.SetFilterMode | svfilter.cpp:113-115 | only the mode changes |
| SVFilter.SVFilter.SetFilterSampleRate | svfilter.cpp:117-123 | new rate, cascade redesigned (design computed) and zeroed, `dt` recomputed |
| SVFilter.SVFilter.SetFilterIntegrationMethod | svfilter.cpp:125-128 | the method changes and the whole reset runs: cutoff 0.25, resonance 0.5, every band, `out` and `u_t1` zero, cascade designed and zeroed |
| SVFilter.SVFilter.Filter | svfilter.cpp:168-311 | `u_t1` ends as the dithered input, and the voice is `oversamplingFactor` steps from the old `u_t1` with `fb = 1 - 3.5*Resonance` |
| SVFilter.SVFilter.Oversampling | svfilter.cpp:205-307 | the loop performs exactly `oversamplingFactor` steps of `Step` with the capped rate |
| SVFilter.SVFilter.Oversample | svfilter.cpp:206-306 | one loop pass is one `Step` and keeps settings and coefficients |
| SVFilter.SVFilter.Decimate | svfilter.cpp:304-306 | the tap goes through the cascade only when the factor exceeds 1; the bands are untouched |
| SVFilter.SVFilter.Commit | svfilter.cpp:289-301 | bands and output take the step's values and the delay line is kept |
| SVFilter.IntegrateStep | svfilter.cpp:207-287 | the integration switch computes `Integrate`; the predictor-corrector and unknown methods change nothing |
| SVFilter.EulerStep | svfilter.cpp:208-218 | the Euler case computes `Euler`: `hp` from the old bands, then `bp := beta*(bp + dt2*hp)`, then `lp += dt2*bp` |
| SVFilter.TrapezoidalStep | svfilter.cpp:219-251 | the trapezoidal case with its Newton loop computes `TrapezoidalScheme` |
| SVFilter.InverseTrapezoidalStep | svfilter.cpp:252-284 | the inverse-trapezoidal case with its Newton loop in `y = sinh(bp)` computes `InverseTrapezoidalScheme` |
| SVFilter.Advance | svfilter.cpp:246-249 | the closing updates of both trapezoidal schemes compute `TrapezoidalFinish` |
| DigiDelay.Position | DigiDelayPatch.hpp:77-88 | the read position `time*bufferLength` lies within [0, bufferLength] for a time in [0, 1] |
| DigiDelay.Wrap | DigiDelayPatch.hpp:78-85 | adding `bufferLength` to a negative pointer lands it in [0, bufferLength) |
| DigiDelay.ReadPointer | DigiDelayPatch.hpp:77-80 | `readPointer` lies in [0, bufferLength) and is `writePointer` minus the whole delay, wrapped once |
| DigiDelay.Write | DigiDelayPatch.hpp:92-104 | the write pointer advances by one modulo the length, only that cell changes, and it receives the high-pass state minus the input |
| DigiDelay.WriteBlocksDc | DigiDelayPatch.hpp:98-103 | the stored sample is `-(1 - 0.00005)*(input - hp)`: an input at the tracked DC level is stored as 0 and the level does not move |
| DigiDelay.ReadWholeSamples | DigiDelayPatch.hpp:73-90 | a delay of exactly `k` samples reads the cell `k` behind the write pointer, wrapped |
| DigiDelay.WriteShiftsDelay | DigiDelayPatch.hpp:73-104 | after a write, a delay of `k` samples reads what a delay of `k-1` read before |
| DigiDelay.Read | DigiDelayPatch.hpp:73-90 | the value read lies between the cell `time*bufferLength` whole samples behind the write pointer and the cell before it |
| DigiDelay.PositionMonotone | DigiDelayPatch.hpp:77 | a later time reads further behind the write pointer |
| DigiDelay.LerpOrdered | DigiDelayPatch.hpp:88-89 | the interpolated read lies between the two cells it mixes |
| DigiDelay.LerpSymmetric | DigiDelayPatch.hpp:88-89 | interpolating from `a` to `b` with weight `w` equals interpolating from `b` to `a` with `1-w` |
| DigiDelay.ConvexBound | DigiDelayPatch.hpp:88-89 | mixing two values within [-m, m] stays within [-m, m] |
| DigiDelay.ReadBounded | DigiDelayPatch.hpp:73-90 | a read from a buffer bounded by `m` is bounded by `m` |
| DigiDelay.Pow4 | DigiDelayPatch.hpp:122-126 | the fourth power maps [0, 1] into [0, 1] |
| DigiDelay.HysteresisTo | DigiDelayPatch.hpp:116-128 | `time2` ends within 0.006 of `time`; it moves only when the jump exceeds 0.006, and then the fade state flips and the newly faded-to side gets the given read time; the fade value is untouched, and a well-formed crossfade stays well formed |
| DigiDelay.Hysteresis | DigiDelayPatch.hpp:116-128 | the same with the read time `time^4` |
| DigiDelay.FadeStep | DigiDelayPatch.hpp:137-148 | the fade value moves 0.04 toward the fade state, stopping there, and stays in [0, 1]; nothing else changes |
| DigiDelay.FadeRunDistance | DigiDelayPatch.hpp:135-148 | after `n` samples the distance to the target is the initial distance less `0.04*n`, floored at 0 |
| DigiDelay.FadeCompletes | DigiDelayPatch.hpp:135-148 | 25 samples always complete a crossfade |
| DigiDelay.Mix | DigiDelayPatch.hpp:151 | a settled crossfade (weight 0 or 1) reads only the side it settled on |
| DigiDelay.WriteInput | DigiDelayPatch.hpp:154 | with no feedback the buffer receives the dry signal `gain*input` |
| DigiDelay.Output | DigiDelayPatch.hpp:157 | `drywet = 0` outputs the dry signal and `drywet = 1` the delayed signal |
| DigiDelay.MixBounded | DigiDelayPatch.hpp:151 | the crossfaded delay signal is bounded by the buffer's bound |
| DigiDelay.PerSample | DigiDelayPatch.hpp:136-157 | one sample keeps the buffer well formed, takes one fade step, and with `drywet = 0` outputs `gain*input` |
| DigiDelay.Loop | DigiDelayPatch.hpp:135-158 | a block of `n` samples produces `n` outputs and takes `n` fade steps |
| DigiDelay.DryOutput | DigiDelayPatch.hpp:135-158 | with `drywet = 0` every output sample of a block is `gain` times its input |
| DigiDelay.ZeroedCellsAsWritten | DigiDelayPatch.hpp:61-63 | the zeroing loop as written touches the indices 0 to `2*bufferLength - 1` |
| DigiDelay.ZeroingOverrunsBuffer | DigiDelayPatch.hpp:58-63 | half of those indices, starting with `bufferLength`, lie past the allocation |
| DigiDelay.UninitialisedFadeEscapes | DigiDelayPatch.hpp:137-148 | from a stale `fade_value` of 2.0 one fade step leaves 1.96, outside [0, 1], so `1 - fade_value` is negative |
| DigiDelay.DelayLine.constructor | DigiDelayPatch.hpp:54-70 | buffer of `2*sampleRate` cells, all zero, write pointer 0, high-pass state 0 |
| DigiDelay.DelayLine.ReadDelay | DigiDelayPatch.hpp:73-90 | the returned sample is `Read` of the buffer at that time |
| DigiDelay.DelayLine.WriteDelay | DigiDelayPatch.hpp:92-104 | the new buffer, pointer and high-pass state are `Write` of the old ones |
| DigiDelay.Crossfade.constructor | DigiDelayPatch.hpp:65-68 | `time2` is the time control, fade state 0, both fade times 0, and the fade value 0, so the crossfade starts well formed |
| DigiDelay.Crossfade.ApplyHysteresis | DigiDelayPatch.hpp:116-128 | the crossfade state becomes `HysteresisTo` of the old one with the given read time |
| DigiDelay.Crossfade.StepFade | DigiDelayPatch.hpp:137-148 | the crossfade state becomes `FadeStep` of the old one |
| DigiDelay.ProcessSample | DigiDelayPatch.hpp:136-157 | buffer, crossfade and output sample are `PerSample` of the old state |
| DigiDelay.ProcessAt | DigiDelayPatch.hpp:135-158 | processing sample `i` extends the block's run by that sample |
| DigiDelay.DigiDelayPatch.constructor | DigiDelayPatch.hpp:48-71 | a zeroed two-second buffer and a well-formed crossfade at the time control |
| DigiDelay.DigiDelayPatch.ProcessAudio | DigiDelayPatch.hpp:106-159 | buffer, crossfade and the audio block end as `Loop` of the old state after hysteresis on the time control |
| DigiDelayClocked.ButtonChange | DigiDelayClockedPatch.hpp:118-139 | other buttons change nothing; button A posts an event exactly when the level changes (1 rising, 2 falling), records the offset only then, and leaves counter and period alone |
| DigiDelayClocked.NoRepeatedRise | DigiDelayClockedPatch.hpp:123-135 | two rising events never follow each other without a fall between |
| DigiDelayClocked.ClockTick | DigiDelayClockedPatch.hpp:192-204 | a sample never changes the level or the offset, and keeps a well-formed clock well formed |
| DigiDelayClocked.ClockRun | DigiDelayClockedPatch.hpp:190-205 | a block keeps a well-formed clock well formed |
| DigiDelayClocked.ClockCounts | DigiDelayClockedPatch.hpp:192-204 | with no event due in the block the counter advances by the block size and nothing else changes |
| DigiDelayClocked.RisingEdgeSetsPeriod | DigiDelayClockedPatch.hpp:196-200 | a rising edge at offset `o` stores `counter + o + 1` as the period, restarts the count, and clears the event |
| DigiDelayClocked.FallingEdgeIsDropped | DigiDelayClockedPatch.hpp:202-204 | a falling edge only clears the event; the count goes on |
| DigiDelayClocked.Ratio | DigiDelayClockedPatch.hpp:152-162 | the table index `(int)(15*time)` is in [0, 15] and the ratio is `(index+1)/2`, within [0.5, 8] |
| DigiDelayClocked.RatioMonotone | DigiDelayClockedPatch.hpp:152-162 | a larger time control never selects a smaller ratio |
| DigiDelayClocked.ClockedTime | DigiDelayClockedPatch.hpp:164-169 | the delay time is at most 0.995 and non-negative for a non-negative period |
| DigiDelayClocked.ClockedPosition | DigiDelayClockedPatch.hpp:162-169 | below the cap, the clock-derived time of the two-second buffer is exactly `ratio * clk_period` samples |
| DigiDelayClocked.ClockedReadTime | DigiDelayClockedPatch.hpp:162-169 | the read time lies in [0, 1] and, below the cap, sits `ratio * clk_period` samples behind the write head |
| DigiDelayClocked.DelayTracksClock | DigiDelayClockedPatch.hpp:162-184 | with the untapered read time, a new delay time below the cap puts the read head the fade heads for exactly `ratio * clk_period` samples behind |
| DigiDelayClocked.TaperedClockedHysteresis | DigiDelayClockedPatch.hpp:173-184 | as written: a new delay time `t` sets `time2 = t` and gives the faded-to side `t^4` |
| DigiDelayClocked.TaperShortens | DigiDelayClockedPatch.hpp:179-183 | strictly inside (0, 1), `t^4 < t`, so the tapered read head is strictly closer to the write head |
| DigiDelayClocked.TaperedDelayFallsShort | DigiDelayClockedPatch.hpp:162-184 | as written, a new delay time strictly between 0 and the cap puts the read head fewer than `ratio * clk_period` samples behind |
| DigiDelayClocked.DigiDelayClockedPatch.constructor | DigiDelayClockedPatch.hpp:54-83 | a zeroed buffer, a well-formed crossfade, and all clock fields zero |
| DigiDelayClocked.DigiDelayClockedPatch.ButtonChanged | DigiDelayClockedPatch.hpp:118-139 | the clock fields become `ButtonChange` of the old ones |
| DigiDelayClocked.DigiDelayClockedPatch.CountSample | DigiDelayClockedPatch.hpp:192-204 | the clock fields become `ClockTick` of the old ones |
| DigiDelayClocked.DigiDelayClockedPatch.DelayTime | DigiDelayClockedPatch.hpp:159-169 | the derived time is `ClockedTime` of the control, period and sample rate |
| DigiDelayClocked.DigiDelayClockedPatch.ProcessAudio | DigiDelayClockedPatch.hpp:141-229 | the clock advances by the block, and buffer, crossfade and audio end as `Loop` after hysteresis on the clock-derived time, with that time itself as the read time |
| DigiDelayClocked.DigiDelayClockedPatch.ClockedSample | DigiDelayClockedPatch.hpp:190-228 | one sample ticks the clock and extends the block's run |
| DigiDelayClocked.DigiDelayClockedPatch.RunBlock | DigiDelayClockedPatch.hpp:190-228 | the per-sample loop advances the clock by the block and runs `Loop` |

## Left out

- Floating point: every float is a `real`. Rounding, overflow to infinity, NaN and denormals are not modelled. The dither's purpose of avoiding denormals is therefore invisible here.
- `fastmath.h` is not part of this model. The Padé approximants (`TanhPade32`, `SinhPade34/54`, `CoshPade54`, `ASinhPade54`, `dASinhPade54`) are arbitrary real functions, and so are libm `sin`, `cos`, `tan`, `sinh` and `asinh`. No accuracy, boundedness or convergence result depends on them. In particular, the -3 dB point at the cutoff is not stated.
- Numerics.Abs: the source calls an unqualified `abs`, which some toolchains resolve to the integer overload. That overload would truncate the difference and change the Newton exit and the hysteresis test. The model reads it as the real absolute value.
- Numerics.Quot: a zero divisor yields 0, where the source yields an infinity or a NaN. This affects the Newton steps and the bilinear `1/(x*x + y*y)`.
- `rand()` is a parameter `u` in [0, 1] of the tick methods.
- Host glue is not modelled: `Patch`, `registerParameter`, `getParameterValue`, `getSampleRate` and `AudioBuffer`. The controls and sample rate are method parameters, and the audio block is an `array<real>`.
- LADRPatch.hpp, SKFPatch.hpp and SVFPatch.hpp only map host parameters onto the engines' setters and are not part of this model.
- `delete`/`delete[]` are not modelled; reallocation makes fresh arrays.
- DigiDelayClocked.ClockTick: `clk_counter` is a C `int`. Its wrap-around after 2^31 samples is not modelled; the counter is unbounded.
- The delay's write head stores `hp - input`, the inverted high-passed signal, exactly as written. The model keeps that polarity.
- The SVF Euler high-pass carries the `SinhPade54(bp)` term, but the trapezoidal schemes recompute `hp` without it (svfilter.cpp:213 and 249). Both are modelled as written.
- Ladder.Step, SallenKey.Step, SVFilter.Step: their own contracts state only the delay-line length. The full meaning of a step is its definition, which the tick methods are proved to compute.
- Ladder.PredictorCorrectorFull, Ladder.PredictorCorrectorFeedback, Ladder.Trapezoidal: their own contracts state only that `dt = 0` freezes the poles. The trapezoid rule and the equilibria are stated by `TrapezoidalIsTrapezoidRule` and the `KeepsEquilibrium` lemmas.
- SallenKey.TrapezoidalScheme has no contract of its own. Its trapezoid rule is stated piecewise by `TrapezoidalP1IsTrapezoidRule` (the Newton equation) and `TrapezoidalFinish` (the closing update).
- Iir.AnalogPole: its contract states the pole's direction only. Its length depends on `sin`, `cos` and `tan`, which are arbitrary here.
- DigiDelayClocked.DigiDelayClockedPatch.ProcessAudio: reads at the clock-derived time itself, the corrected behaviour of the finding below. The tapered read of the code as written is `TaperedClockedHysteresis`.
- DigiDelay.PerSample: its contract states the dry path only. The wet path is its definition, which `ProcessSample` is proved to compute, and `MixBounded` bounds it.

## Findings

| source | as written | input that shows it | evidently intended | confidence | as-written member | corrected member |
|---|---|---|---|---|---|---|
| DigiDelayPatch.hpp:59-63 | the constructor zeroes `2*bufferLength` cells of a `bufferLength` buffer | any sample rate: index `bufferLength` is already past the end | zero the `bufferLength` cells that exist | high, not executed | DigiDelay.ZeroingOverrunsBuffer | DigiDelay.DelayLine.constructor |
| DigiDelayClockedPatch.hpp:65-69 | the same overrunning zeroing loop | any sample rate: index `bufferLength` is already past the end | zero the `bufferLength` cells that exist | high, not executed | DigiDelay.ZeroingOverrunsBuffer | DigiDelay.DelayLine.constructor |
| DigiDelayPatch.hpp:42-68 | `fade_value` is never initialised, and the per-sample clamp only catches values that cross a bound in the direction of travel | stale `fade_value = 2.0` with `fade_state = 0`: one step leaves 1.96, so the delay mix weights are -0.96 and 1.96 | start the crossfade at 0 | high, not executed | DigiDelay.UninitialisedFadeEscapes | DigiDelay.Crossfade.constructor |
| DigiDelayClockedPatch.hpp:42-74 | the same uninitialised `fade_value` | stale `fade_value = 2.0` with `fade_state = 0` | start the crossfade at 0 | high, not executed | DigiDelay.UninitialisedFadeEscapes | DigiDelay.Crossfade.constructor |
| DigiDelayClockedPatch.hpp:179, 183 | the clock-derived delay time gets the `t^4` taper meant for the unclocked time control | control 0.1 (ratio 1), clock period 48000 samples at 48 kHz: the time is 0.5, so the read head sits 0.0625 * 96000 = 6000 samples behind instead of 48000 | read at the clock-derived time, so the delay is `ratio` clock periods | medium, not executed | DigiDelayClocked.TaperedDelayFallsShort | DigiDelayClocked.DelayTracksClock |
