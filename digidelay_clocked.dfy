/** The clocked variant of the DigiDelay patch, DigiDelayClockedPatch.hpp:
    the same delay line and crossfade, with the delay time set by the
    period of a clock on button A, measured in samples, times a ratio from
    a division table chosen by the time control. */
module DigiDelayClocked {
  import opened Numerics
  import opened DigiDelay

  /** The 16-bit unsigned values the host passes to `buttonChanged`. */
  newtype uint16 = x: int | 0 <= x < 0x1_0000

  /** The buttons; only button A is handled. */
  datatype PatchButtonId = ButtonA | OtherButton

  /** `last_clk`, `clk_event_offset`, `clk_event`, `clk_counter`,
      `clk_period`. `clk_event` is 1 for a pending rising edge, 2 for a
      pending falling edge and 0 for none. */
  datatype Clock = Clock(lastClk: int, clkEventOffset: int, clkEvent: int, clkCounter: int, clkPeriod: int)

  /** The level is 0 or 1, and the counter and the period are counts. */
  predicate ClockOk(k: Clock)
  {
    (k.lastClk == 0 || k.lastClk == 1) && k.clkCounter >= 0 && k.clkPeriod >= 0
  }

  /** `buttonChanged`: for button A, `last_clk` follows the button's level;
      an event is posted exactly when the level changes, 1 for a rise and 2
      for a fall, at the offset `samples` into the next block; a call that
      changes nothing clears a pending event. Other buttons change nothing,
      and the counter and the period are never touched. */
  function ButtonChange(k: Clock, bid: PatchButtonId, value: uint16, samples: uint16): (r: Clock)
    ensures bid != ButtonA ==> r == k
    ensures r.clkCounter == k.clkCounter && r.clkPeriod == k.clkPeriod
    ensures bid == ButtonA ==>
      && (r.clkEvent != 0 <==> r.lastClk != k.lastClk)
      && (r.clkEvent == 1 ==> r.lastClk == 1 && value != 0)
      && (r.clkEvent == 2 ==> r.lastClk == 0 && value == 0)
      && (r.clkEvent != 0 ==> r.clkEventOffset == samples as int)
      && (r.clkEvent == 0 ==> r.clkEventOffset == k.clkEventOffset)
    ensures bid == ButtonA && ClockOk(k) ==> ClockOk(r) && r.lastClk == (if value != 0 then 1 else 0)
  {
    var pressed := value != 0;
    match bid
    case ButtonA =>
      if pressed && k.lastClk == 0 then k.(lastClk := 1, clkEventOffset := samples as int, clkEvent := 1)
      else if !pressed && k.lastClk != 0 then k.(lastClk := 0, clkEventOffset := samples as int, clkEvent := 2)
      else k.(clkEvent := 0)
    case OtherButton => k
  }

  /** After a rising edge the same level again cannot post a second rise:
      rises and falls alternate. */
  lemma NoRepeatedRise(k: Clock, v1: uint16, s1: uint16, v2: uint16, s2: uint16)
    requires ButtonChange(k, ButtonA, v1, s1).clkEvent == 1
    ensures ButtonChange(ButtonChange(k, ButtonA, v1, s1), ButtonA, v2, s2).clkEvent != 1
  {
  }

  /** The clock at sample `i` of a block: count the sample; a pending
      rising edge at this sample takes the count as the period and restarts
      it; a pending falling edge at this sample is dropped. */
  function ClockTick(k: Clock, i: int): (r: Clock)
    ensures r.lastClk == k.lastClk && r.clkEventOffset == k.clkEventOffset
    ensures ClockOk(k) ==> ClockOk(r)
  {
    var counter := k.clkCounter + 1;
    if k.clkEvent == 1 && i == k.clkEventOffset then k.(clkPeriod := counter, clkCounter := 0, clkEvent := 0)
    else if k.clkEvent == 2 && i == k.clkEventOffset then k.(clkCounter := counter, clkEvent := 0)
    else k.(clkCounter := counter)
  }

  /** The clock after the first `n` samples of a block. */
  function ClockRun(k: Clock, n: nat): (r: Clock)
    ensures ClockOk(k) ==> ClockOk(r)
    decreases n
  {
    if n == 0 then k else ClockTick(ClockRun(k, n - 1), n - 1)
  }

  /** A pending event falls within the first `n` samples. */
  predicate Fires(k: Clock, n: nat)
  {
    (k.clkEvent == 1 || k.clkEvent == 2) && 0 <= k.clkEventOffset < n
  }

  /** Without an event to handle, the clock only counts samples. */
  lemma {:induction false} ClockCounts(k: Clock, n: nat)
    requires !Fires(k, n)
    ensures ClockRun(k, n) == k.(clkCounter := k.clkCounter + n)
    decreases n
  {
    if n > 0 {
      ClockCounts(k, n - 1);
    }
  }

  /** A rising edge at offset `o` within the block sets the period to the
      samples counted since the previous rising edge, up to and including
      sample `o`, and the count restarts after it. */
  lemma {:induction false} RisingEdgeSetsPeriod(k: Clock, n: nat)
    requires k.clkEvent == 1 && 0 <= k.clkEventOffset < n
    ensures var r := ClockRun(k, n);
      && r.clkPeriod == k.clkCounter + k.clkEventOffset + 1
      && r.clkCounter == n - 1 - k.clkEventOffset
      && r.clkEvent == 0
    decreases n
  {
    if n - 1 == k.clkEventOffset {
      ClockCounts(k, n - 1);
    } else {
      RisingEdgeSetsPeriod(k, n - 1);
    }
  }

  /** A falling edge within the block is consumed and nothing else
      happens. */
  lemma {:induction false} FallingEdgeIsDropped(k: Clock, n: nat)
    requires k.clkEvent == 2 && 0 <= k.clkEventOffset < n
    ensures ClockRun(k, n) == k.(clkCounter := k.clkCounter + n, clkEvent := 0)
    decreases n
  {
    if n - 1 == k.clkEventOffset {
      ClockCounts(k, n - 1);
    } else {
      FallingEdgeIsDropped(k, n - 1);
    }
  }

  /** `div_table`: the sixteen eighths from 1/8 to 2. */
  const DivTable: seq<real> := [0.125, 0.25, 0.375, 0.5, 0.625, 0.75, 0.875, 1.0,
                                1.125, 1.25, 1.375, 1.5, 1.625, 1.75, 1.875, 2.0]

  /** `4*div_table[(int)(15*time)]`: the time control in [0, 1] picks one
      of the sixteen multiples of 1/2 from 1/2 to 8. */
  function Ratio(time: real): (r: real)
    requires 0.0 <= time <= 1.0
    ensures var k := Trunc(15.0 * time);
      0 <= k < 16 && r == (k + 1) as real / 2.0
    ensures 0.5 <= r <= 8.0
  {
    4.0 * DivTable[Trunc(15.0 * time)]
  }

  /** Turning the time control up never lowers the ratio. */
  lemma RatioMonotone(t1: real, t2: real)
    requires 0.0 <= t1 <= t2 <= 1.0
    ensures Ratio(t1) <= Ratio(t2)
  {
    assert Trunc(15.0 * t1) <= Trunc(15.0 * t2);
  }

  /** The delay time of a block, as a fraction of the two-second buffer:
      the ratio times the clock period in seconds, halved, and capped at
      0.995. */
  function ClockedTime(time: real, clkPeriod: int, sampleRate: int): (t: real)
    requires 0.0 <= time <= 1.0 && sampleRate > 0
    ensures t <= 0.995
    ensures clkPeriod >= 0 ==> 0.0 <= t
  {
    var clkTime := clkPeriod as real / sampleRate as real;
    var t := Ratio(time) * clkTime / 2.0;
    if t > 0.995 then 0.995 else t
  }

  /** Below the cap, the block's delay time is the ratio times the clock
      period: `ClockedTime` of a two-second buffer is `Ratio(time)` clock
      periods. */
  lemma ClockedPosition(time: real, clkPeriod: int, sampleRate: int)
    requires 0.0 <= time <= 1.0 && sampleRate > 0 && clkPeriod >= 0
    requires ClockedTime(time, clkPeriod, sampleRate) < 0.995
    ensures Position(ClockedTime(time, clkPeriod, sampleRate), 2 * sampleRate) == Ratio(time) * clkPeriod as real
  {
    var r, p, s := Ratio(time), clkPeriod as real, sampleRate as real;
    var clkTime := p / s;
    assert clkTime * s == p;
    var t := r * clkTime / 2.0;
    assert t * (2.0 * s) == r * (clkTime * s);
  }

  /** The read time the patch gives a new delay time: the time itself, so
      that the read head follows the clock. */
  function ClockedReadTime(time: real, clkPeriod: int, sampleRate: int): (t: real)
    requires 0.0 <= time <= 1.0 && sampleRate > 0 && clkPeriod >= 0
    ensures 0.0 <= t <= 1.0
    ensures t < 0.995 ==> Position(t, 2 * sampleRate) == Ratio(time) * clkPeriod as real
  {
    var t := ClockedTime(time, clkPeriod, sampleRate);
    if t < 0.995 then
      ClockedPosition(time, clkPeriod, sampleRate);
      t
    else t
  }

  /** When the hysteresis takes a new delay time below the cap, the read
      head the fade heads for sits exactly `Ratio(time)` clock periods
      behind the write head. */
  lemma DelayTracksClock(f: Fader, time: real, clkPeriod: int, sampleRate: int)
    requires 0.0 <= time <= 1.0 && sampleRate > 0 && clkPeriod >= 0
    requires var t := ClockedTime(time, clkPeriod, sampleRate);
      t < 0.995 && Abs(t - f.time2) > TimeThreshold
    ensures var t := ClockedTime(time, clkPeriod, sampleRate);
      Position(ActiveTime(HysteresisTo(f, t, ClockedReadTime(time, clkPeriod, sampleRate))), 2 * sampleRate)
        == Ratio(time) * clkPeriod as real
  {
  }

  /** The source gives the new side the tapered time `t^4`, as the
      unclocked patch does with its time control. */
  function TaperedClockedHysteresis(f: Fader, time: real, clkPeriod: int, sampleRate: int): (r: Fader)
    requires 0.0 <= time <= 1.0 && sampleRate > 0 && clkPeriod >= 0
    ensures var t := ClockedTime(time, clkPeriod, sampleRate);
      Abs(t - f.time2) > TimeThreshold ==> r.time2 == t && ActiveTime(r) == Pow4(t)
    ensures FaderOk(f) ==> FaderOk(r)
  {
    Hysteresis(f, ClockedTime(time, clkPeriod, sampleRate))
  }

  /** `t^4 < t` strictly inside (0, 1), so the tapered read head is
      closer to the write head. */
  lemma TaperShortens(t: real, len: int)
    requires 0.0 < t < 1.0 && len > 0
    ensures Pow4(t) < t
    ensures Position(Pow4(t), len) < Position(t, len)
  {
    var t2 := t * t;
    assert t - t2 == t * (1.0 - t) > 0.0;
    FractionAtMost(t2, t2);
    PositionMonotone(Pow4(t), t, len);
  }

  /** With the taper, a new delay time strictly between 0 and the cap puts
      the read head fewer than `Ratio(time)` clock periods behind: the
      delay no longer follows the clock. With the control at 0.1 (ratio 1)
      and a period of 48000 samples at 48 kHz, the delay is 6000 samples
      rather than 48000. */
  lemma TaperedDelayFallsShort(f: Fader, time: real, clkPeriod: int, sampleRate: int)
    requires 0.0 <= time <= 1.0 && sampleRate > 0 && clkPeriod >= 0
    requires var t := ClockedTime(time, clkPeriod, sampleRate);
      0.0 < t < 0.995 && Abs(t - f.time2) > TimeThreshold
    ensures Position(ActiveTime(TaperedClockedHysteresis(f, time, clkPeriod, sampleRate)), 2 * sampleRate)
      < Ratio(time) * clkPeriod as real
  {
    var t := ClockedTime(time, clkPeriod, sampleRate);
    ClockedPosition(time, clkPeriod, sampleRate);
    TaperShortens(t, 2 * sampleRate);
  }

  /** The patch. */
  class DigiDelayClockedPatch {
    const sampleRate: int
    const line: DelayLine
    const fade: Crossfade
    var lastClk: int
    var clkEventOffset: int
    var clkEvent: int
    var clkCounter: int
    var clkPeriod: int

    ghost function ClockState(): Clock
      reads this
    {
      Clock(lastClk, clkEventOffset, clkEvent, clkCounter, clkPeriod)
    }

    ghost predicate Valid()
      reads this, line, fade
    {
      && sampleRate > 0 && line.Valid() && FaderOk(fade.State())
      && line.bufferLength == 2 * sampleRate && ClockOk(ClockState())
    }

    /** As in the unclocked patch, with the clock at rest: no level, no
        event, and a count and a period of 0. */
    constructor (sampleRate: int, time: real)
      requires sampleRate > 0
      ensures Valid() && fresh(line) && fresh(line.ringBuffer) && fresh(fade)
      ensures line.writePointer == 0 && line.hp == 0.0
      ensures forall i :: 0 <= i < line.ringBuffer.Length ==> line.ringBuffer[i] == 0.0
      ensures fade.State() == Fader(time, 0, 0.0, 0.0, 0.0)
      ensures ClockState() == Clock(0, 0, 0, 0, 0)
    {
      this.sampleRate := sampleRate;
      line := new DelayLine(sampleRate);
      fade := new Crossfade(time);
      lastClk := 0;
      clkEventOffset := 0;
      clkEvent := 0;
      clkCounter := 0;
      clkPeriod := 0;
    }

    /** `buttonChanged`. */
    method ButtonChanged(bid: PatchButtonId, value: uint16, samples: uint16)
      requires Valid()
      modifies `lastClk, `clkEventOffset, `clkEvent
      ensures Valid()
      ensures ClockState() == ButtonChange(old(ClockState()), bid, value, samples)
    {
      var pressed := value != 0;
      match bid
      case ButtonA =>
        if pressed && lastClk == 0 {
          lastClk := 1;
          clkEventOffset := samples as int;
          clkEvent := 1;
        } else if !pressed && lastClk != 0 {
          lastClk := 0;
          clkEventOffset := samples as int;
          clkEvent := 2;
        } else {
          clkEvent := 0;
        }
      case OtherButton =>
    }

    /** The clock update at the start of sample `i`. */
    method CountSample(i: int)
      modifies `clkCounter, `clkPeriod, `clkEvent
      ensures ClockState() == ClockTick(old(ClockState()), i)
    {
      clkCounter := clkCounter + 1;
      if clkEvent == 1 && i == clkEventOffset {
        clkPeriod := clkCounter;
        clkCounter := 0;
        clkEvent := 0;
      } else if clkEvent == 2 && i == clkEventOffset {
        clkEvent := 0;
      }
    }

    /** The delay time of a block, from the time control and the period
        measured so far. */
    method DelayTime(time: real) returns (t: real)
      requires Valid() && 0.0 <= time <= 1.0
      ensures t == ClockedTime(time, clkPeriod, sampleRate)
    {
      var ratio := 4.0 * DivTable[Trunc(15.0 * time)];
      var clkTime := clkPeriod as real / sampleRate as real;
      t := ratio * clkTime / 2.0;
      if t > 0.995 {
        t := 0.995;
      }
    }

    /** One block. The delay time comes from the time control and the
        period measured before the block; the hysteresis runs once on it,
        giving the faded-to side that time itself rather than its fourth
        power (see `TaperedDelayFallsShort`); then every sample in order
        counts the clock and runs the delay. */
    method ProcessAudio(time: real, feedback: real, gain: real, drywet: real, io: array<real>)
      requires Valid() && 0.0 <= time <= 1.0 && io != line.ringBuffer
      modifies `clkCounter, `clkPeriod, `clkEvent, line`writePointer, line`hp, line.ringBuffer, fade, io
      ensures Valid()
      ensures ClockState() == ClockRun(old(ClockState()), io.Length)
      ensures var t := Loop(old(line.Contents()),
                            HysteresisTo(old(fade.State()), ClockedTime(time, old(clkPeriod), sampleRate),
                                         ClockedReadTime(time, old(clkPeriod), sampleRate)),
                            Controls(feedback, gain, drywet), old(io[..]), io.Length);
        line.Contents() == t.line && fade.State() == t.fader && io[..] == t.out
    {
      var delayTime := DelayTime(time);
      fade.ApplyHysteresis(delayTime, delayTime);
      RunBlock(Controls(feedback, gain, drywet), io);
    }

    /** Sample `i` of the block: the clock, then the delay. */
    method ClockedSample(c: Controls, io: array<real>, i: int, ghost xs: seq<real>, ghost t: Tape)
      requires io != line.ringBuffer && ClockOk(ClockState())
      requires Processed(line, fade, io, xs, i, t) && i < io.Length
      modifies `clkCounter, `clkPeriod, `clkEvent, line`writePointer, line`hp, line.ringBuffer, fade`fadeValue, io
      ensures ClockState() == ClockTick(old(ClockState()), i) && ClockOk(ClockState())
      ensures Processed(line, fade, io, xs, i + 1, Extend(t, c, xs[i]))
    {
      CountSample(i);
      ProcessAt(line, fade, c, io, i, xs, t);
    }

    /** The per-sample loop of `processAudio`. */
    method RunBlock(c: Controls, io: array<real>)
      requires Valid() && io != line.ringBuffer
      modifies `clkCounter, `clkPeriod, `clkEvent, line`writePointer, line`hp, line.ringBuffer, fade`fadeValue, io
      ensures Valid()
      ensures ClockState() == ClockRun(old(ClockState()), io.Length)
      ensures var t := Loop(old(line.Contents()), old(fade.State()), c, old(io[..]), io.Length);
        line.Contents() == t.line && fade.State() == t.fader && io[..] == t.out
    {
      ghost var k0, l0, f0, xs := ClockState(), line.Contents(), fade.State(), io[..];
      var i := 0;
      ghost var t := Loop(l0, f0, c, xs, 0);
      while i < io.Length
        invariant Processed(line, fade, io, xs, i, t)
        invariant LineOk(l0) && FaderOk(f0) && t == Loop(l0, f0, c, xs, i)
        invariant ClockState() == ClockRun(k0, i) && ClockOk(ClockState())
      {
        ClockedSample(c, io, i, xs, t);
        t := Extend(t, c, xs[i]);
        i := i + 1;
      }
      assert io[..] == io[..io.Length];
    }
  }
}
