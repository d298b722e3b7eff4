/** The DigiDelay patch of DigiDelayPatch.hpp: a two-second ring buffer
    written through a DC-blocking high-pass and read at two delay times
    with linear interpolation, crossfading between them whenever the time
    control moves past a hysteresis threshold. The ring buffer and the
    crossfade are the classes `DelayLine` and `Crossfade`, which the clocked
    variant of the patch shares. */
module DigiDelay {
  import opened Numerics

  /** `TIME_THRESHOLD`: how far the time control must move to retrigger. */
  const TimeThreshold: real := 0.006

  /** `FADE_RATE`: how far the crossfade moves per sample. */
  const FadeRate: real := 0.04

  /** The coefficient of the write head's one-pole high-pass. */
  const DcBlockRate: real := 0.00005

  // ---------------------------------------------------------------------
  // The ring buffer.

  /** The buffer contents, the write pointer and the DC blocker's state. */
  datatype Line = Line(buf: seq<real>, wp: int, hp: real)

  /** A non-empty buffer with the write pointer inside it. */
  predicate LineOk(l: Line)
  {
    |l.buf| > 0 && 0 <= l.wp < |l.buf|
  }

  /** A fraction of a non-negative value is at most that value. Used by
      `Position`, `LerpOrdered`, `ReadBounded` and
      `DigiDelayClocked.TaperShortens`. */
  lemma FractionAtMost(a: real, b: real)
    requires 0.0 <= a <= 1.0 && 0.0 <= b
    ensures 0.0 <= a * b <= b
  {
    assert b - a * b == (1.0 - a) * b;
  }

  /** The delay in cells, `time*bufferLength`, for a time in [0, 1]. */
  function Position(time: real, len: int): (pos: real)
    requires 0.0 <= time <= 1.0 && len > 0
    ensures 0.0 <= pos <= len as real
  {
    FractionAtMost(time, len as real);
    time * len as real
  }

  /** A later time is a longer delay. Used by
      `DigiDelayClocked.TaperShortens`. */
  lemma PositionMonotone(a: real, b: real, len: int)
    requires 0.0 <= a < b <= 1.0 && len > 0
    ensures Position(a, len) < Position(b, len)
  {
    var l := len as real;
    assert b * l - a * l == (b - a) * l > 0.0;
  }

  /** The delay time of `k` whole samples in a buffer of `len` cells. */
  function WholeDelay(k: int, len: int): (time: real)
    requires 0 <= k <= len && len > 0
    ensures 0.0 <= time <= 1.0 && Position(time, len) == k as real
  {
    k as real / len as real
  }

  /** An index one buffer length or less out of range, wrapped back in. */
  function Wrap(i: int, len: int): (r: int)
    requires len > 0 && -len <= i < len
    ensures 0 <= r < len
    ensures r == i || r == i + len
  {
    if i < 0 then i + len else i
  }

  /** `readPointer`: the whole cells of the delay behind the write
      pointer, around the ring. */
  function ReadPointer(l: Line, pos: real): (r: int)
    requires LineOk(l) && 0.0 <= pos <= |l.buf| as real
    ensures 0 <= r < |l.buf|
    ensures r == l.wp - Trunc(pos) || r == l.wp - Trunc(pos) + |l.buf|
  {
    Wrap(l.wp - Trunc(pos), |l.buf|)
  }

  /** The weighted mean `(1 - w)*a + w*b`. */
  function Lerp(w: real, a: real, b: real): real
  {
    (1.0 - w) * a + w * b
  }

  /** Linear interpolation between the cell `pos` whole cells behind the
      write pointer and the cell one further back, by the fraction of
      `pos`. */
  function ReadAt(l: Line, pos: real): real
    requires LineOk(l) && 0.0 <= pos <= |l.buf| as real
  {
    var r := ReadPointer(l, pos);
    Lerp(pos - Trunc(pos) as real, l.buf[r], l.buf[Wrap(r - 1, |l.buf|)])
  }

  /** `readDelay`: the value read lies between the two cells it
      interpolates, the one `time*bufferLength` whole cells behind the write
      pointer and the one before it. */
  function Read(l: Line, time: real): (v: real)
    requires LineOk(l) && 0.0 <= time <= 1.0
    ensures var i := ReadPointer(l, Position(time, |l.buf|));
      var a, b := l.buf[i], l.buf[Wrap(i - 1, |l.buf|)];
      (a <= b ==> a <= v <= b) && (b <= a ==> b <= v <= a)
  {
    var pos := Position(time, |l.buf|);
    var i := ReadPointer(l, pos);
    var w := pos - Trunc(pos) as real;
    var a, b := l.buf[i], l.buf[Wrap(i - 1, |l.buf|)];
    if a <= b then
      LerpOrdered(w, a, b);
      ReadAt(l, pos)
    else
      LerpSymmetric(w, a, b);
      LerpOrdered(1.0 - w, b, a);
      ReadAt(l, pos)
  }

  /** `writeDelay`: the pointer moves one cell on, around the ring; the DC
      blocker's state moves `0.00005` of the way to the input; the one cell
      under the new pointer receives `hp - input`, and no other cell
      changes. */
  function Write(l: Line, x: real): (r: Line)
    requires LineOk(l)
    ensures LineOk(r) && |r.buf| == |l.buf|
    ensures r.wp == (if l.wp == |l.buf| - 1 then 0 else l.wp + 1)
    ensures r.buf[r.wp] == r.hp - x
    ensures forall i :: 0 <= i < |l.buf| && i != r.wp ==> r.buf[i] == l.buf[i]
  {
    var wp := if l.wp + 1 > |l.buf| - 1 then l.wp + 1 - |l.buf| else l.wp + 1;
    var hp := l.hp + DcBlockRate * (x - l.hp);
    Line(l.buf[wp := hp - x], wp, hp)
  }

  /** The write head stores the input's distance from the level the DC
      blocker tracks, scaled by `1 - 0.00005` and with its sign inverted; an
      input at the tracked level is stored as 0 and leaves the level alone. */
  lemma WriteBlocksDc(l: Line, x: real)
    requires LineOk(l)
    ensures var r := Write(l, x);
      && r.buf[r.wp] == -(1.0 - DcBlockRate) * (x - l.hp)
      && (x == l.hp ==> r.buf[r.wp] == 0.0 && r.hp == l.hp)
  {
  }

  /** A delay of a whole number `k` of samples reads exactly the cell `k`
      behind the write pointer. */
  lemma ReadWholeSamples(l: Line, k: int)
    requires LineOk(l) && 0 <= k <= |l.buf|
    ensures var r := Read(l, WholeDelay(k, |l.buf|));
      && (l.wp - k >= 0 ==> r == l.buf[l.wp - k])
      && (l.wp - k < 0 ==> r == l.buf[l.wp - k + |l.buf|])
  {
    assert Trunc(k as real) == k;
  }

  /** Every write delays the buffer by one sample: after it, `k` whole
      samples back reads what `k - 1` samples back read before, for every
      delay short of the whole ring. */
  lemma WriteShiftsDelay(l: Line, x: real, k: int)
    requires LineOk(l) && 1 <= k < |l.buf|
    ensures Read(Write(l, x), WholeDelay(k, |l.buf|)) == Read(l, WholeDelay(k - 1, |l.buf|))
  {
    var len := |l.buf|;
    var w := Write(l, x);
    ReadWholeSamples(w, k);
    ReadWholeSamples(l, k - 1);
    var i := if w.wp - k >= 0 then w.wp - k else w.wp - k + len;
    var j := if l.wp - (k - 1) >= 0 then l.wp - (k - 1) else l.wp - (k - 1) + len;
    assert w.wp == if l.wp + 1 > len - 1 then l.wp + 1 - len else l.wp + 1;
    assert i == j && i != w.wp;
    assert w.buf[i] == l.buf[j];
  }

  /** Between two values, the weighted mean lies between them. */
  lemma LerpOrdered(w: real, a: real, b: real)
    requires 0.0 <= w <= 1.0 && a <= b
    ensures a <= Lerp(w, a, b) <= b
  {
    assert Lerp(w, a, b) == a + w * (b - a);
    FractionAtMost(w, b - a);
  }

  /** Weighting `a` by `1 - w` is weighting `b` by `w`. */
  lemma LerpSymmetric(w: real, a: real, b: real)
    ensures Lerp(w, a, b) == Lerp(1.0 - w, b, a)
  {
  }

  /** A weighted mean of two values within [-m, m] is within [-m, m]. */
  lemma ConvexBound(w: real, a: real, b: real, m: real)
    requires 0.0 <= w <= 1.0 && -m <= a <= m && -m <= b <= m
    ensures -m <= Lerp(w, a, b) <= m
  {
    if a <= b {
      LerpOrdered(w, a, b);
    } else {
      LerpSymmetric(w, a, b);
      LerpOrdered(1.0 - w, b, a);
    }
  }

  /** Every cell of the buffer lies within [-m, m]. */
  predicate Bounded(l: Line, m: real)
  {
    forall i :: 0 <= i < |l.buf| ==> -m <= l.buf[i] <= m
  }

  /** Interpolation never leaves the range of the buffer's contents. */
  lemma ReadBounded(l: Line, time: real, m: real)
    requires LineOk(l) && 0.0 <= time <= 1.0 && Bounded(l, m)
    ensures -m <= Read(l, time) <= m
  {
    var pos := Position(time, |l.buf|);
    var r := ReadPointer(l, pos);
    ConvexBound(pos - Trunc(pos) as real, l.buf[r], l.buf[Wrap(r - 1, |l.buf|)], m);
  }

  // ---------------------------------------------------------------------
  // The crossfade.

  /** `time2`, `fade_state`, `fade_value`, `fade0_time`, `fade1_time`. */
  datatype Fader = Fader(time2: real, fadeState: int, fadeValue: real, fade0Time: real, fade1Time: real)

  /** The state is 0 or 1, the mix weight lies in [0, 1], and both read
      times are within the buffer. */
  predicate FaderOk(f: Fader)
  {
    && (f.fadeState == 0 || f.fadeState == 1)
    && 0.0 <= f.fadeValue <= 1.0
    && 0.0 <= f.fade0Time <= 1.0 && 0.0 <= f.fade1Time <= 1.0
  }

  /** `t*t*t*t`, the taper of the time control. */
  function Pow4(t: real): (r: real)
    ensures 0.0 <= t <= 1.0 ==> 0.0 <= r <= 1.0
  {
    var t2 := t * t;
    if 0.0 <= t <= 1.0 then
      FractionAtMost(t, t);
      FractionAtMost(t2, t2);
      t2 * t2
    else t2 * t2
  }

  /** The mix weight the fade heads for: 1 in state 1, 0 otherwise. */
  function Target(f: Fader): real
  {
    if f.fadeState != 0 then 1.0 else 0.0
  }

  /** The hysteresis on the time control, with `readTime` the read time a
      taken move gives the side faded to. Only a move of more than the
      threshold away from `time2` is taken: `time2` follows the control,
      the fade turns to the other side, and that side's read time becomes
      `readTime`; the side faded away from keeps its time. After it
      `time2` is within the threshold of the control. */
  function HysteresisTo(f: Fader, time: real, readTime: real): (r: Fader)
    ensures Abs(time - r.time2) <= TimeThreshold
    ensures r.fadeValue == f.fadeValue
    ensures Abs(time - f.time2) <= TimeThreshold ==> r == f
    ensures Abs(time - f.time2) > TimeThreshold ==>
      && r.time2 == time && r.fadeState != f.fadeState
      && (r.fadeState == 1 ==> r.fade1Time == readTime && r.fade0Time == f.fade0Time)
      && (r.fadeState == 0 ==> r.fade0Time == readTime && r.fade1Time == f.fade1Time)
    ensures FaderOk(f) && 0.0 <= readTime <= 1.0 ==> FaderOk(r)
  {
    if Abs(time - f.time2) > TimeThreshold then
      if f.fadeState != 0 then f.(time2 := time, fadeState := 0, fade0Time := readTime)
      else f.(time2 := time, fadeState := 1, fade1Time := readTime)
    else f
  }

  /** The hysteresis of the unclocked patch: a taken move gives the side
      faded to the tapered time `time^4`. */
  function Hysteresis(f: Fader, time: real): (r: Fader)
    ensures Abs(time - r.time2) <= TimeThreshold
    ensures Abs(time - f.time2) <= TimeThreshold ==> r == f
    ensures Abs(time - f.time2) > TimeThreshold ==>
      && r.time2 == time && r.fadeState != f.fadeState
      && (r.fadeState == 1 ==> r.fade1Time == Pow4(time) && r.fade0Time == f.fade0Time)
      && (r.fadeState == 0 ==> r.fade0Time == Pow4(time) && r.fade1Time == f.fade1Time)
    ensures FaderOk(f) && 0.0 <= time <= 1.0 ==> FaderOk(r)
  {
    HysteresisTo(f, time, Pow4(time))
  }

  /** The read time of the side the fade heads for. */
  function ActiveTime(f: Fader): real
  {
    if f.fadeState == 1 then f.fade1Time else f.fade0Time
  }

  /** One sample of crossfade: the weight moves `FADE_RATE` toward the
      target of the current state and stops there; nothing else changes. */
  function FadeStep(f: Fader): (r: Fader)
    ensures r == f.(fadeValue := r.fadeValue)
    ensures FaderOk(f) ==> FaderOk(r)
    ensures 0.0 <= f.fadeValue <= 1.0 ==>
      var d := Abs(Target(f) - f.fadeValue);
      Abs(Target(r) - r.fadeValue) == if d > FadeRate then d - FadeRate else 0.0
  {
    if f.fadeState != 0 then
      var v := f.fadeValue + FadeRate;
      f.(fadeValue := if v > 1.0 then 1.0 else v)
    else
      var v := f.fadeValue - FadeRate;
      f.(fadeValue := if v < 0.0 then 0.0 else v)
  }

  /** `n` samples of crossfade. */
  function FadeRun(f: Fader, n: nat): Fader
    decreases n
  {
    if n == 0 then f else FadeStep(FadeRun(f, n - 1))
  }

  /** After `n` samples the weight is `n*FADE_RATE` closer to its target,
      or at it. */
  lemma {:induction false} FadeRunDistance(f: Fader, n: nat)
    requires 0.0 <= f.fadeValue <= 1.0
    ensures FadeRun(f, n) == f.(fadeValue := FadeRun(f, n).fadeValue)
    ensures 0.0 <= FadeRun(f, n).fadeValue <= 1.0
    ensures var d := Abs(Target(f) - f.fadeValue) - n as real * FadeRate;
      Abs(Target(f) - FadeRun(f, n).fadeValue) == if d > 0.0 then d else 0.0
    decreases n
  {
    if n > 0 {
      FadeRunDistance(f, n - 1);
    }
  }

  /** Hence a crossfade from anywhere in [0, 1] completes within 25
      samples. */
  lemma FadeCompletes(f: Fader, n: nat)
    requires 0.0 <= f.fadeValue <= 1.0 && n >= 25
    ensures FadeRun(f, n).fadeValue == Target(f)
  {
    FadeRunDistance(f, n);
    assert n as real * FadeRate >= 1.0;
  }

  // ---------------------------------------------------------------------
  // The per-sample loop of `processAudio`.

  /** The feedback, gain and dry/wet controls of one block. */
  datatype Controls = Controls(feedback: real, gain: real, drywet: real)

  /** The delayed signal: the crossfade of the two interpolated reads. */
  function Mix(l: Line, f: Fader): (v: real)
    requires LineOk(l) && FaderOk(f)
    ensures f.fadeValue == 0.0 ==> v == Read(l, f.fade0Time)
    ensures f.fadeValue == 1.0 ==> v == Read(l, f.fade1Time)
  {
    Lerp(f.fadeValue, Read(l, f.fade0Time), Read(l, f.fade1Time))
  }

  /** The delayed signal never leaves the range of the buffer's contents. */
  lemma MixBounded(l: Line, f: Fader, m: real)
    requires LineOk(l) && FaderOk(f) && Bounded(l, m)
    ensures -m <= Mix(l, f) <= m
  {
    ReadBounded(l, f.fade0Time, m);
    ReadBounded(l, f.fade1Time, m);
    ConvexBound(f.fadeValue, Read(l, f.fade0Time), Read(l, f.fade1Time), m);
  }

  /** The dry path, the input scaled by the gain. */
  function DrySignal(c: Controls, x: real): real
  {
    c.gain * x
  }

  /** What is written back: the input through the gain plus the delayed
      signal through the feedback. */
  function WriteInput(c: Controls, x: real, delay: real): (v: real)
    ensures c.feedback == 0.0 ==> v == DrySignal(c, x)
  {
    c.gain * x + c.feedback * delay
  }

  /** The output: the dry/wet crossfade of the input through the gain and
      the delayed signal. */
  function Output(c: Controls, x: real, delay: real): (y: real)
    ensures c.drywet == 0.0 ==> y == DrySignal(c, x)
    ensures c.drywet == 1.0 ==> y == delay
  {
    (1.0 - c.drywet) * c.gain * x + c.drywet * delay
  }

  /** The state after one sample and the sample's output. */
  datatype Sample = Sample(line: Line, fader: Fader, y: real)

  /** One sample: step the crossfade, read the delayed signal, write
      `gain*x + feedback*delay`, and output the dry/wet mix
      `(1 - drywet)*gain*x + drywet*delay`. */
  function PerSample(l: Line, f: Fader, c: Controls, x: real): (s: Sample)
    requires LineOk(l) && FaderOk(f)
    ensures LineOk(s.line) && |s.line.buf| == |l.buf| && s.fader == FadeStep(f)
    ensures c.drywet == 0.0 ==> s.y == DrySignal(c, x)
  {
    var g := FadeStep(f);
    var delay := Mix(l, g);
    Sample(Write(l, WriteInput(c, x, delay)), g, Output(c, x, delay))
  }

  /** The state after a block and its outputs. */
  datatype Tape = Tape(line: Line, fader: Fader, out: seq<real>)

  /** One more sample `x` on the end of a tape. */
  function Extend(t: Tape, c: Controls, x: real): (r: Tape)
    requires LineOk(t.line) && FaderOk(t.fader)
    ensures LineOk(r.line) && |r.line.buf| == |t.line.buf| && r.fader == FadeStep(t.fader)
    ensures |r.out| == |t.out| + 1
  {
    var s := PerSample(t.line, t.fader, c, x);
    Tape(s.line, s.fader, t.out + [s.y])
  }

  /** The first `n` samples of a block `xs`, in order. Only the crossfade
      weight of the fader moves. */
  function Loop(l: Line, f: Fader, c: Controls, xs: seq<real>, n: nat): (t: Tape)
    requires LineOk(l) && FaderOk(f) && n <= |xs|
    ensures LineOk(t.line) && |t.line.buf| == |l.buf| && FaderOk(t.fader) && |t.out| == n
    ensures t.fader == FadeRun(f, n)
    decreases n
  {
    if n == 0 then Tape(l, f, []) else Extend(Loop(l, f, c, xs, n - 1), c, xs[n - 1])
  }

  /** With the dry/wet control at 0 one more sample appends the input
      scaled by the gain. Used by `DryOutput`. */
  lemma DryExtend(t: Tape, c: Controls, x: real)
    requires LineOk(t.line) && FaderOk(t.fader) && c.drywet == 0.0
    ensures Extend(t, c, x).out == t.out + [DrySignal(c, x)]
  {
    assert PerSample(t.line, t.fader, c, x).y == DrySignal(c, x);
  }

  /** With the dry/wet control at 0 the output is the input scaled by the
      gain, whatever the buffer holds. */
  lemma {:induction false} DryOutput(l: Line, f: Fader, c: Controls, xs: seq<real>, n: nat)
    requires LineOk(l) && FaderOk(f) && n <= |xs| && c.drywet == 0.0
    ensures forall i :: 0 <= i < n ==> Loop(l, f, c, xs, n).out[i] == DrySignal(c, xs[i])
    decreases n
  {
    if n > 0 {
      DryOutput(l, f, c, xs, n - 1);
      var t := Loop(l, f, c, xs, n - 1);
      DryExtend(t, c, xs[n - 1]);
      var out := Loop(l, f, c, xs, n).out;
      assert out == t.out + [DrySignal(c, xs[n - 1])];
      forall i | 0 <= i < n - 1
        ensures out[i] == DrySignal(c, xs[i])
      {
        assert out[i] == t.out[i];
      }
    }
  }

  // ---------------------------------------------------------------------
  // The constructor as written.

  /** The cells the constructor's zeroing loop writes as written: every
      index below `2*bufferLength`. */
  function ZeroedCellsAsWritten(bufferLength: nat): (r: seq<int>)
    ensures |r| == 2 * bufferLength
    ensures forall i :: 0 <= i < |r| ==> r[i] == i
  {
    seq(2 * bufferLength, i => i)
  }

  /** That loop writes every cell from `bufferLength` to
      `2*bufferLength - 1`, past the end of the `bufferLength` cells
      allocated. */
  lemma ZeroingOverrunsBuffer(bufferLength: nat)
    requires bufferLength > 0
    ensures forall i :: bufferLength <= i < 2 * bufferLength ==> ZeroedCellsAsWritten(bufferLength)[i] >= bufferLength
    ensures ZeroedCellsAsWritten(bufferLength)[bufferLength] == bufferLength
  {
  }

  /** The crossfade as the constructor leaves it: every field set except
      `fade_value`, which holds whatever the memory held. */
  function FaderAsWritten(time2: real, garbage: real): Fader
  {
    Fader(time2, 0, garbage, 0.0, 0.0)
  }

  /** With the leftover value 2.0, the first sample leaves the weight at
      1.96: outside [0, 1], so the two reads are mixed with weights -0.96
      and 1.96 rather than crossfaded. */
  lemma UninitialisedFadeEscapes()
    ensures var f := FadeStep(FaderAsWritten(0.5, 2.0));
      f.fadeValue == 1.96 && 1.0 - f.fadeValue < 0.0 && !FaderOk(f)
  {
  }

  // ---------------------------------------------------------------------
  // The objects.

  /** The ring buffer and its write head. */
  class DelayLine {
    const bufferLength: int
    const ringBuffer: array<real>
    var writePointer: int
    var hp: real

    ghost predicate Valid()
      reads this
    {
      ringBuffer.Length == bufferLength && bufferLength > 0 && 0 <= writePointer < bufferLength
    }

    ghost function Contents(): Line
      reads this, ringBuffer
    {
      Line(ringBuffer[..], writePointer, hp)
    }

    /** Two seconds of buffer at `sampleRate`, every cell zeroed, the write
        pointer at 0 and the DC blocker at rest. Unlike the source, only the
        `bufferLength` allocated cells are zeroed. */
    constructor (sampleRate: int)
      requires sampleRate > 0
      ensures Valid() && fresh(ringBuffer)
      ensures bufferLength == 2 * sampleRate && writePointer == 0 && hp == 0.0
      ensures forall i :: 0 <= i < ringBuffer.Length ==> ringBuffer[i] == 0.0
    {
      writePointer := 0;
      bufferLength := 2 * sampleRate;
      ringBuffer := new real[2 * sampleRate];
      hp := 0.0;
      new;
      var i := 0;
      while i < bufferLength
        modifies ringBuffer
        invariant 0 <= i <= bufferLength
        invariant forall j :: 0 <= j < i ==> ringBuffer[j] == 0.0
      {
        ringBuffer[i] := 0.0;
        i := i + 1;
      }
    }

    /** `readDelay`. */
    method ReadDelay(time: real) returns (y: real)
      requires Valid() && 0.0 <= time <= 1.0
      ensures y == Read(Contents(), time)
    {
      ghost var l := Contents();
      var pos := Position(time, bufferLength);
      var readPointer := writePointer - Trunc(pos);
      if readPointer < 0 {
        readPointer := readPointer + bufferLength;
      }
      assert readPointer == ReadPointer(l, pos);
      var readPointer2 := readPointer - 1;
      if readPointer2 < 0 {
        readPointer2 := readPointer2 + bufferLength;
      }
      assert readPointer2 == Wrap(readPointer - 1, bufferLength);
      var frac := pos - Trunc(pos) as real;
      y := Lerp(frac, ringBuffer[readPointer], ringBuffer[readPointer2]);
    }

    /** `writeDelay`. */
    method WriteDelay(input: real)
      requires Valid()
      modifies `writePointer, `hp, ringBuffer
      ensures Valid() && Contents() == Write(old(Contents()), input)
    {
      writePointer := writePointer + 1;
      if writePointer > bufferLength - 1 {
        writePointer := writePointer - bufferLength;
      }
      var hpInput := input;
      hp := hp + DcBlockRate * (hpInput - hp);
      var x := hp - hpInput;
      ringBuffer[writePointer] := x;
    }
  }

  /** The crossfade between the two read times. */
  class Crossfade {
    var time2: real
    var fadeState: int
    var fadeValue: real
    var fade0Time: real
    var fade1Time: real

    ghost function State(): Fader
      reads this
    {
      Fader(time2, fadeState, fadeValue, fade0Time, fade1Time)
    }

    /** `time2` at the time control, state 0 and both read times 0. Unlike
        the source, which leaves `fade_value` unset, the weight starts at 0,
        the target of state 0. */
    constructor (time: real)
      ensures State() == Fader(time, 0, 0.0, 0.0, 0.0) && FaderOk(State())
    {
      time2 := time;
      fadeState := 0;
      fade0Time, fade1Time := 0.0, 0.0;
      fadeValue := 0.0;
    }

    /** The hysteresis block at the start of `processAudio`, giving a taken
        move the read time `readTime`. */
    method ApplyHysteresis(time: real, readTime: real)
      modifies this
      ensures State() == HysteresisTo(old(State()), time, readTime)
    {
      if Abs(time - time2) > TimeThreshold {
        time2 := time;
        if fadeState != 0 {
          fadeState := 0;
          fade0Time := readTime;
        } else {
          fadeState := 1;
          fade1Time := readTime;
        }
      }
    }

    /** The crossfade update at the start of each sample. */
    method StepFade()
      modifies `fadeValue
      ensures State() == FadeStep(old(State()))
    {
      if fadeState != 0 {
        fadeValue := fadeValue + FadeRate;
        if fadeValue > 1.0 {
          fadeValue := 1.0;
        }
      } else {
        fadeValue := fadeValue - FadeRate;
        if fadeValue < 0.0 {
          fadeValue := 0.0;
        }
      }
    }
  }

  /** The body of the per-sample loop of both patches. */
  method ProcessSample(line: DelayLine, fade: Crossfade, c: Controls, x: real) returns (y: real)
    requires line.Valid() && FaderOk(fade.State())
    modifies line`writePointer, line`hp, line.ringBuffer, fade`fadeValue
    ensures line.Valid() && FaderOk(fade.State())
    ensures Sample(line.Contents(), fade.State(), y) == PerSample(old(line.Contents()), old(fade.State()), c, x)
  {
    ghost var l0 := line.Contents();
    fade.StepFade();
    ghost var g := fade.State();
    var d0 := line.ReadDelay(fade.fade0Time);
    var d1 := line.ReadDelay(fade.fade1Time);
    var delay := Lerp(fade.fadeValue, d0, d1);
    assert delay == Mix(l0, g);
    line.WriteDelay(WriteInput(c, x, delay));
    y := Output(c, x, delay);
    assert Sample(line.Contents(), g, y) == PerSample(l0, old(fade.State()), c, x);
  }

  /** The loop invariant of `processAudio`: the first `i` samples of the
      block `xs` are processed, from the state `l0`, `f0` the loop started
      in, and the rest of the block is untouched. */
  ghost predicate Processed(line: DelayLine, fade: Crossfade, io: array<real>, xs: seq<real>, i: int, t: Tape)
    reads line, line.ringBuffer, fade, io
  {
    && |xs| == io.Length && 0 <= i <= io.Length
    && line.Valid() && FaderOk(fade.State())
    && io[i..] == xs[i..]
    && line.Contents() == t.line && fade.State() == t.fader && io[..i] == t.out
  }

  /** Sample `i` of the block, in place. */
  method ProcessAt(line: DelayLine, fade: Crossfade, c: Controls, io: array<real>, i: int,
                   ghost xs: seq<real>, ghost t: Tape)
    requires io != line.ringBuffer
    requires Processed(line, fade, io, xs, i, t) && i < io.Length
    modifies line`writePointer, line`hp, line.ringBuffer, fade`fadeValue, io
    ensures Processed(line, fade, io, xs, i + 1, Extend(t, c, xs[i]))
  {
    assert io[i] == xs[i];
    var y := ProcessSample(line, fade, c, io[i]);
    io[i] := y;
    assert io[..i + 1] == t.out + [y];
    assert io[i + 1..] == xs[i + 1..];
  }

  /** The patch. `sampleRate` and the first value of the time control are
      what the host reports at construction. */
  class DigiDelayPatch {
    const sampleRate: int
    const line: DelayLine
    const fade: Crossfade

    ghost predicate Valid()
      reads this, line, fade
    {
      line.Valid() && FaderOk(fade.State()) && line.bufferLength == 2 * sampleRate
    }

    constructor (sampleRate: int, time: real)
      requires sampleRate > 0
      ensures Valid() && fresh(line) && fresh(line.ringBuffer) && fresh(fade)
      ensures line.writePointer == 0 && line.hp == 0.0
      ensures forall i :: 0 <= i < line.ringBuffer.Length ==> line.ringBuffer[i] == 0.0
      ensures fade.State() == Fader(time, 0, 0.0, 0.0, 0.0)
    {
      this.sampleRate := sampleRate;
      line := new DelayLine(sampleRate);
      fade := new Crossfade(time);
    }

    /** One block. `time`, `feedback`, `gain` and `drywet` are the four
        controls, the time control in [0, 1]; `io` is the block, replaced
        in place by the output. The hysteresis runs once, then every sample
        in order. */
    method ProcessAudio(time: real, feedback: real, gain: real, drywet: real, io: array<real>)
      requires Valid() && 0.0 <= time <= 1.0 && io != line.ringBuffer
      modifies line`writePointer, line`hp, line.ringBuffer, fade, io
      ensures Valid()
      ensures var t := Loop(old(line.Contents()), Hysteresis(old(fade.State()), time),
                            Controls(feedback, gain, drywet), old(io[..]), io.Length);
        line.Contents() == t.line && fade.State() == t.fader && io[..] == t.out
    {
      fade.ApplyHysteresis(time, Pow4(time));
      var c := Controls(feedback, gain, drywet);
      ghost var l0, f0, xs := line.Contents(), fade.State(), io[..];
      var i := 0;
      ghost var t := Loop(l0, f0, c, xs, 0);
      while i < io.Length
        invariant Processed(line, fade, io, xs, i, t)
        invariant LineOk(l0) && FaderOk(f0) && t == Loop(l0, f0, c, xs, i)
      {
        ProcessAt(line, fade, c, io, i, xs, t);
        t := Extend(t, c, xs[i]);
        i := i + 1;
      }
      assert io[..] == io[..io.Length];
    }
  }
}
