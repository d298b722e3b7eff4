/** The Butterworth low-pass anti-alias filter of iir.cpp: a design step that
    places Butterworth poles, pre-warps them, maps them through the bilinear
    transform and derives one biquad section per pole pair, and a cascade of
    those sections run sample by sample over a delay line of two cells per
    section. */
module Iir {
  import opened Numerics
  import opened FastMath

  datatype Complex = Complex(re: real, im: real)

  function Mul(p: Complex, q: Complex): Complex
  {
    Complex(p.re * q.re - p.im * q.im, p.re * q.im + p.im * q.re)
  }

  /** Complex division `n / d` done as in the source: multiply by the
      conjugate of `d` and scale by `c = 1/(x*x + y*y)`. */
  function Divide(n: Complex, d: Complex): Complex
  {
    var c := Quot(1.0, d.re * d.re + d.im * d.im);
    Complex(c * (n.re * d.re + n.im * d.im), c * (n.im * d.re - n.re * d.im))
  }

  /** Complex division really inverts multiplication whenever the divisor
      has a non-zero squared magnitude. */
  lemma DivideInvertsMul(n: Complex, d: Complex)
    requires d.re * d.re + d.im * d.im != 0.0
    ensures Mul(Divide(n, d), d) == n
  {
    var m := d.re * d.re + d.im * d.im;
    var c := Quot(1.0, m);
    assert c * m == 1.0;
    var u, v, x, y := n.re, n.im, d.re, d.im;
    calc {
      (c * (u * x + v * y)) * x - (c * (v * x - u * y)) * y;
      c * (u * (x * x + y * y));
      u * (c * m);
    }
    calc {
      (c * (u * x + v * y)) * y + (c * (v * x - u * y)) * x;
      c * (v * (x * x + y * y));
      v * (c * m);
    }
  }

  // ---------------------------------------------------------------------
  // Design (ComputeCoefficients)

  /** The index of the analog pole that array slot `ii` receives. */
  function PoleIndex(order: int, ii: int): int
  {
    order / 2 - ii
  }

  /** The Butterworth pole angle of pole `k` for a filter of this order. */
  function PoleAngle(order: int, k: int): real
    requires order > 0
  {
    (2.0 * k as real - 1.0) * Pi / (2.0 * order as real)
  }

  /** The slot map visits every pole index 1..order/2 exactly once. */
  lemma PoleIndexIsBijection(order: int)
    requires order >= 0
    ensures var visited := set ii | 0 <= ii < order / 2 :: PoleIndex(order, ii);
      forall k :: k in visited <==> 1 <= k <= order / 2
    ensures forall i, j :: 0 <= i < order / 2 && 0 <= j < order / 2 && PoleIndex(order, i) == PoleIndex(order, j) ==> i == j
  {
    var lhs := set ii | 0 <= ii < order / 2 :: PoleIndex(order, ii);
    forall k | 1 <= k <= order / 2
      ensures k in lhs
    {
      assert PoleIndex(order, order / 2 - k) == k;
    }
  }

  /** Every pole angle lies strictly between 0 and pi/2, so the analog poles
      `-sin(theta) + i cos(theta)` cover one half of the left-hand unit
      semicircle, one per conjugate pair. */
  lemma PoleAngleInOpenQuadrant(order: int, ii: int)
    requires order > 0 && 0 <= ii < order / 2
    ensures 0.0 < PoleAngle(order, PoleIndex(order, ii)) < Pi / 2.0
  {
    var k := PoleIndex(order, ii);
    var n := order as real;
    var num := 2.0 * k as real - 1.0;
    assert 1.0 <= num < n;
    var r := num / (2.0 * n);
    assert r * (2.0 * n) == num;
    assert 0.0 < r by {
      PositiveFactor(r, 2.0 * n);
    }
    assert r < 1.0 / 2.0 by {
      assert (1.0 / 2.0 - r) * (2.0 * n) == n - num;
      PositiveFactor(1.0 / 2.0 - r, 2.0 * n);
    }
    ScaledQuotient(num, Pi, 2.0 * n);
  }

  /** Scaling a quotient: `a*c/d == (a/d)*c` for a non-zero `d`. Used by
      `PoleAngleInOpenQuadrant` and `WarpUndone`. */
  lemma ScaledQuotient(a: real, c: real, d: real)
    requires d != 0.0
    ensures a * c / d == (a / d) * c
  {
    var x := a / d;
    assert x * d == a;
    assert (x * c) * d == a * c;
  }

  /** The pre-warped analog cutoff `Fc = fs/pi * tan(pi*fc/fs)`. The
      pre-warping undoes only the tangent: where `tan` is the identity at
      `pi*fc/fs` the analog cutoff is `fc` itself. */
  function PrewarpedCutoff(libm: Libm, samplerate: real, cutoff: real): (fc: real)
    requires samplerate != 0.0
    ensures libm.tan.At(Pi * cutoff / samplerate) == Pi * cutoff / samplerate ==> fc == cutoff
  {
    WarpUndone(samplerate, cutoff);
    samplerate / Pi * libm.tan.At(Pi * cutoff / samplerate)
  }

  /** Scaling the digital angle `pi*fc/fs` back by `fs/pi` gives `fc`. Used
      by `PrewarpedCutoff`. */
  lemma WarpUndone(samplerate: real, cutoff: real)
    requires samplerate != 0.0
    ensures samplerate / Pi * (Pi * cutoff / samplerate) == cutoff
  {
    ScaledQuotient(Pi, cutoff, samplerate);
  }

  /** Analog pole of slot `ii`, before scaling (first loop of the design). */
  function UnitPole(libm: Libm, order: int, ii: int): Complex
    requires order > 0
  {
    var theta := PoleAngle(order, PoleIndex(order, ii));
    Complex(-1.0 * libm.sin.At(theta), libm.cos.At(theta))
  }

  /** Analog pole of slot `ii`, scaled by `2*pi*Fc` (second loop). */
  function AnalogPole(libm: Libm, order: int, samplerate: real, cutoff: real, ii: int): (s: Complex)
    requires order > 0 && samplerate != 0.0
    ensures var p := UnitPole(libm, order, ii); s.re * p.im == s.im * p.re
  {
    var w := 2.0 * Pi * PrewarpedCutoff(libm, samplerate, cutoff);
    var p := UnitPole(libm, order, ii);
    Complex(p.re * w, p.im * w)
  }

  /** Numerator `1 + s/(2 fs)` and denominator `1 - s/(2 fs)` of the bilinear
      transform of analog pole `s`. */
  function BilinearNumerator(s: Complex, fs: real): Complex
    requires fs != 0.0
  {
    Complex((2.0 * fs + s.re) / (2.0 * fs), s.im / (2.0 * fs))
  }

  function BilinearDenominator(s: Complex, fs: real): Complex
    requires fs != 0.0
  {
    Complex((2.0 * fs - s.re) / (2.0 * fs), -1.0 * s.im / (2.0 * fs))
  }

  /** The digital pole of analog pole `s` (third loop). */
  function Bilinear(s: Complex, fs: real): Complex
    requires fs != 0.0
  {
    Divide(BilinearNumerator(s, fs), BilinearDenominator(s, fs))
  }

  /** The bilinear step really computes `p = (u+iv)/(x+iy)`:
      `p*(x+iy) = u+iv` whenever `x*x + y*y` is not zero. */
  lemma BilinearSolvesTransform(s: Complex, fs: real)
    requires fs != 0.0
    requires var d := BilinearDenominator(s, fs); d.re * d.re + d.im * d.im != 0.0
    ensures Mul(Bilinear(s, fs), BilinearDenominator(s, fs)) == BilinearNumerator(s, fs)
  {
    DivideInvertsMul(BilinearNumerator(s, fs), BilinearDenominator(s, fs));
  }

  /** Feedback coefficients and forward gain of one biquad section. */
  datatype Biquad = Biquad(a1: real, a2: real, k: real)

  /** Section derived from digital pole `p` (fourth loop). */
  function SectionFromPole(p: Complex): (b: Biquad)
    ensures b.a2 >= 0.0
    ensures b.a2 == Mul(p, Complex(p.re, -p.im)).re
    ensures 4.0 * b.k == 1.0 + b.a1 + b.a2
  {
    var a1 := -2.0 * p.re;
    var a2 := p.re * p.re + p.im * p.im;
    Biquad(a1, a2, (1.0 + a1 + a2) / 4.0)
  }

  // ---------------------------------------------------------------------
  // Execution (IIRfilter)

  /** The coefficient arrays of a cascade. */
  datatype Cascade = Cascade(a1: seq<real>, a2: seq<real>, k: seq<real>)

  predicate Fits(c: Cascade, z: seq<real>, n: nat)
  {
    n <= |c.a1| && n <= |c.a2| && n <= |c.k| && 2 * n <= |z|
  }

  /** Section `i` applied to the running output `r.0` with delay line
      `r.1`: new section input `v = K*y - a1*z0 - a2*z1`, output
      `v + 2*z0 + z1`, then `z1 := z0` and `z0 := v`. */
  function Section(c: Cascade, i: nat, r: (real, seq<real>)): (s: (real, seq<real>))
    requires i < |c.a1| && i < |c.a2| && i < |c.k| && 2 * i + 1 < |r.1|
    ensures |s.1| == |r.1|
    ensures s.1[2 * i + 1] == r.1[2 * i]
    ensures s.0 == s.1[2 * i] + 2.0 * r.1[2 * i] + r.1[2 * i + 1]
    ensures forall j :: 0 <= j < |r.1| && j != 2 * i && j != 2 * i + 1 ==> s.1[j] == r.1[j]
  {
    var y, w := r.0, r.1;
    var v := c.k[i] * y - c.a1[i] * w[2 * i] - c.a2[i] * w[2 * i + 1];
    (v + 2.0 * w[2 * i] + w[2 * i + 1], w[2 * i + 1 := w[2 * i]][2 * i := v])
  }

  /** One input sample `x` through sections `0..n-1` in order, each
      section's output feeding the next. Returns the last output and the
      delay line after the shifts. */
  function Tick(c: Cascade, z: seq<real>, x: real, n: nat): (r: (real, seq<real>))
    requires Fits(c, z, n)
    ensures |r.1| == |z|
    ensures forall j :: 2 * n <= j < |z| ==> r.1[j] == z[j]
    decreases n
  {
    if n == 0 then (x, z) else Section(c, n - 1, Tick(c, z, x, n - 1))
  }

  /** The section with `4K = 1 + a1 + a2`, delays `x/4` and input `x` outputs
      `x` and keeps its delays at `x/4`: the section has unity gain at DC. */
  lemma SectionDcFixedPoint(b: Biquad, x: real)
    requires 4.0 * b.k == 1.0 + b.a1 + b.a2
    ensures b.k * x - b.a1 * (x / 4.0) - b.a2 * (x / 4.0) == x / 4.0
    ensures x / 4.0 + 2.0 * (x / 4.0) + x / 4.0 == x
  {
    calc {
      b.k * x - b.a1 * (x / 4.0) - b.a2 * (x / 4.0);
      (4.0 * b.k) * (x / 4.0) - b.a1 * (x / 4.0) - b.a2 * (x / 4.0);
      (1.0 + b.a1 + b.a2) * (x / 4.0) - b.a1 * (x / 4.0) - b.a2 * (x / 4.0);
      x / 4.0;
    }
  }

  /** Every section has unity DC gain. */
  predicate UnityDc(c: Cascade, n: nat)
    requires n <= |c.a1| && n <= |c.a2| && n <= |c.k|
  {
    forall i :: 0 <= i < n ==> 4.0 * c.k[i] == 1.0 + c.a1[i] + c.a2[i]
  }

  /** The DC steady state of the whole cascade: with every delay at `x/4`,
      a constant input `x` passes through unchanged and leaves the delay
      line as it was. */
  lemma {:induction false} CascadeDcFixedPoint(c: Cascade, z: seq<real>, x: real, n: nat)
    requires Fits(c, z, n) && UnityDc(c, n)
    requires forall j :: 0 <= j < 2 * n ==> z[j] == x / 4.0
    ensures Tick(c, z, x, n) == (x, z)
    decreases n
  {
    if n > 0 {
      CascadeDcFixedPoint(c, z, x, n - 1);
      var i := n - 1;
      var b := Biquad(c.a1[i], c.a2[i], c.k[i]);
      SectionDcFixedPoint(b, x);
      assert z[2 * i] == x / 4.0 && z[2 * i + 1] == x / 4.0;
      assert 4.0 * b.k == 1.0 + b.a1 + b.a2;
      assert z[2 * i + 1 := z[2 * i]][2 * i := x / 4.0] == z;
      var r := Section(c, i, (x, z));
      assert r.0 == x;
      assert r.1 == z;
    }
  }

  /** The anti-alias filter object: design parameters, coefficient and
      scratch arrays of length order/2 and the delay line of length order. */
  /** Eight fresh, pairwise different arrays: seven of `sections` cells
      for the coefficients and poles, one of `cells` cells for the delay line. */
  method NewArrays(sections: nat, cells: nat)
    returns (b1: array<real>, b2: array<real>, bk: array<real>, qr: array<real>,
             qi: array<real>, rr: array<real>, ri: array<real>, w: array<real>)
    ensures fresh(b1) && fresh(b2) && fresh(bk) && fresh(qr) && fresh(qi) && fresh(rr) && fresh(ri) && fresh(w)
    ensures b1.Length == sections && b2.Length == sections && bk.Length == sections
    ensures qr.Length == sections && qi.Length == sections && rr.Length == sections && ri.Length == sections
    ensures w.Length == cells
    ensures && b1 != b2 && b1 != bk && b1 != qr && b1 != qi && b1 != rr && b1 != ri && b1 != w
            && b2 != bk && b2 != qr && b2 != qi && b2 != rr && b2 != ri && b2 != w
            && bk != qr && bk != qi && bk != rr && bk != ri && bk != w
            && qr != qi && qr != rr && qr != ri && qr != w
            && qi != rr && qi != ri && qi != w
            && rr != ri && rr != w
            && ri != w
  {
    b1 := new real[sections];
    b2 := new real[sections];
    bk := new real[sections];
    qr := new real[sections];
    qi := new real[sections];
    rr := new real[sections];
    ri := new real[sections];
    w := new real[cells];
  }

  class IIRLowpass {
    const libm: Libm

    var samplerate: real
    var cutoff: real
    var order: int

    var a1: array<real>
    var a2: array<real>
    var K: array<real>
    var paReal: array<real>
    var paImag: array<real>
    var pReal: array<real>
    var pImag: array<real>
    var z: array<real>

    ghost var Repr: set<object>

    ghost predicate Valid()
      reads this
    {
      && Repr == {this, a1, a2, K, paReal, paImag, pReal, pImag, z}
      && samplerate > 0.0
      && order >= 0
      && a1.Length == order / 2 && a2.Length == order / 2 && K.Length == order / 2
      && paReal.Length == order / 2 && paImag.Length == order / 2
      && pReal.Length == order / 2 && pImag.Length == order / 2
      && z.Length == order
      && Distinct()
    }

    /** The eight arrays are eight different objects. */
    predicate Distinct()
      reads this
    {
      && a1 != a2 && a1 != K && a1 != paReal && a1 != paImag && a1 != pReal && a1 != pImag && a1 != z
      && a2 != K && a2 != paReal && a2 != paImag && a2 != pReal && a2 != pImag && a2 != z
      && K != paReal && K != paImag && K != pReal && K != pImag && K != z
      && paReal != paImag && paReal != pReal && paReal != pImag && paReal != z
      && paImag != pReal && paImag != pImag && paImag != z
      && pReal != pImag && pReal != z
      && pImag != z
    }

    /** What running a sample needs: coefficient arrays of one entry per
        section, a delay line of two cells per section, and a delay line
        that is none of the coefficient arrays. Every valid filter is ready. */
    ghost predicate Ready()
      reads this
    {
      && a1.Length == order / 2 && a2.Length == order / 2 && K.Length == order / 2
      && z.Length == order
      && a1 != z && a2 != z && K != z
    }

    /** The arrays hold the design for the current order, sample rate and
        cutoff. */
    ghost predicate Designed()
      requires Valid()
      reads this, a1, a2, K, paReal, paImag, pReal, pImag
    {
      forall ii :: 0 <= ii < order / 2 ==>
        && Complex(paReal[ii], paImag[ii]) == AnalogPole(libm, order, samplerate, cutoff, ii)
        && Complex(pReal[ii], pImag[ii]) == Bilinear(Complex(paReal[ii], paImag[ii]), samplerate)
        && Biquad(a1[ii], a2[ii], K[ii]) == SectionFromPole(Complex(pReal[ii], pImag[ii]))
    }

    /** Every delay cell of every section is zero. */
    ghost predicate Zeroed()
      requires Valid()
      reads this, z
    {
      forall j :: 0 <= j < 2 * (order / 2) ==> z[j] == 0.0
    }

    ghost function Coeffs(): Cascade
      reads this, a1, a2, K
    {
      Cascade(a1[..], a2[..], K[..])
    }

    constructor (libm: Libm, newSamplerate: real, newCutoff: real, newOrder: int)
      requires newSamplerate > 0.0 && newOrder >= 0
      ensures Valid() && fresh(Repr)
      ensures samplerate == newSamplerate && cutoff == newCutoff && order == newOrder
      ensures this.libm == libm
      ensures Zeroed() && Designed()
    {
      this.libm := libm;
      samplerate := newSamplerate;
      cutoff := newCutoff;
      order := newOrder;
      var b1, b2, bk, qr, qi, rr, ri, w := NewArrays(newOrder / 2, newOrder);
      a1, a2, K, paReal, paImag, pReal, pImag, z := b1, b2, bk, qr, qi, rr, ri, w;
      new;
      Repr := {this, a1, a2, K, paReal, paImag, pReal, pImag, z};
      InitializeBiquadCascade();
      ComputeCoefficients();
    }

    /** The default design: 44100 Hz, 440 Hz cutoff, order 32. */
    constructor Default(libm: Libm)
      ensures Valid() && fresh(Repr)
      ensures samplerate == 44100.0 && cutoff == 440.0 && order == 32
      ensures this.libm == libm
      ensures Zeroed() && Designed()
    {
      this.libm := libm;
      samplerate := 44100.0;
      cutoff := 440.0;
      order := 32;
      var b1, b2, bk, qr, qi, rr, ri, w := NewArrays(16, 32);
      a1, a2, K, paReal, paImag, pReal, pImag, z := b1, b2, bk, qr, qi, rr, ri, w;
      new;
      Repr := {this, a1, a2, K, paReal, paImag, pReal, pImag, z};
      InitializeBiquadCascade();
      ComputeCoefficients();
    }

    /** Reallocates every array for the new order, zeroes the delay line and
        recomputes the design. */
    method SetFilterOrder(newOrder: int)
      requires Valid() && newOrder >= 0
      modifies this
      ensures Valid() && fresh(Repr - {this})
      ensures order == newOrder
      ensures samplerate == old(samplerate) && cutoff == old(cutoff)
      ensures Zeroed() && Designed()
    {
      Reallocate(newOrder);
      InitializeBiquadCascade();
      ComputeCoefficients();
    }

    /** The allocation half of SetFilterOrder: fresh arrays sized for the new order. */
    method Reallocate(newOrder: int)
      requires samplerate > 0.0 && newOrder >= 0
      modifies this
      ensures Valid() && fresh(Repr - {this})
      ensures order == newOrder
      ensures samplerate == old(samplerate) && cutoff == old(cutoff)
    {
      var b1, b2, bk, qr, qi, rr, ri, w := NewArrays(newOrder / 2, newOrder);
      Install(newOrder, b1, b2, bk, qr, qi, rr, ri, w);
      Repr := {this, a1, a2, K, paReal, paImag, pReal, pImag, z};
    }

    /** Points the fields at the given arrays. */
    method Install(newOrder: int, b1: array<real>, b2: array<real>, bk: array<real>, qr: array<real>,
                   qi: array<real>, rr: array<real>, ri: array<real>, w: array<real>)
      modifies this
      ensures a1 == b1 && a2 == b2 && K == bk && paReal == qr && paImag == qi
      ensures pReal == rr && pImag == ri && z == w
      ensures order == newOrder
      ensures samplerate == old(samplerate) && cutoff == old(cutoff)
    {
      a1 := b1;
      a2 := b2;
      K := bk;
      paReal := qr;
      paImag := qi;
      pReal := rr;
      pImag := ri;
      z := w;
      order := newOrder;
    }

    /** Zeroes the delay line, then recomputes the design for the new rate. */
    method SetFilterSamplerate(newSamplerate: real)
      requires Valid() && newSamplerate > 0.0
      modifies Repr
      ensures Valid() && Repr == old(Repr)
      ensures samplerate == newSamplerate && cutoff == old(cutoff) && order == old(order)
      ensures Zeroed() && Designed()
    {
      samplerate := newSamplerate;
      InitializeBiquadCascade();
      ComputeCoefficients();
    }

    /** Zeroes the delay line, then recomputes the design for the new cutoff. */
    method SetFilterCutoff(newCutoff: real)
      requires Valid()
      modifies Repr
      ensures Valid() && Repr == old(Repr)
      ensures cutoff == newCutoff && samplerate == old(samplerate) && order == old(order)
      ensures Zeroed() && Designed()
    {
      cutoff := newCutoff;
      InitializeBiquadCascade();
      ComputeCoefficients();
    }

    /** Zeroes both delay cells of every section; with an odd order the
        last cell is not touched. */
    method InitializeBiquadCascade()
      requires Valid()
      modifies z
      ensures Zeroed()
      ensures forall j :: 2 * (order / 2) <= j < z.Length ==> z[j] == old(z[j])
      ensures order % 2 == 0 ==> forall j :: 0 <= j < z.Length ==> z[j] == 0.0
    {
      var ii := 0;
      while ii < order / 2
        invariant 0 <= ii <= order / 2
        invariant forall j :: 0 <= j < 2 * ii ==> z[j] == 0.0
        invariant forall j :: 2 * ii <= j < z.Length ==> z[j] == old(z[j])
      {
        z[ii * 2 + 1] := 0.0;
        z[ii * 2] := 0.0;
        ii := ii + 1;
      }
    }

    /** Runs one sample through the cascade. Only the delay line changes. */
    method IIRfilter(input: real) returns (out: real)
      requires Ready()
      modifies z
      ensures (out, z[..]) == Tick(Coeffs(), old(z[..]), input, order / 2)
    {
      ghost var c := Coeffs();
      ghost var z0 := z[..];
      out := input;
      var ii := 0;
      while ii < order / 2
        invariant 0 <= ii <= order / 2
        invariant c == Coeffs()
        invariant (out, z[..]) == Tick(c, z0, input, ii)
      {
        ghost var w := z[..];
        ghost var y := out;
        assert c.k[ii] == K[ii] && c.a1[ii] == a1[ii] && c.a2[ii] == a2[ii];
        assert w[2 * ii] == z[ii * 2] && w[2 * ii + 1] == z[ii * 2 + 1];
        var v := K[ii] * out - a1[ii] * z[ii * 2] - a2[ii] * z[ii * 2 + 1];
        assert v == c.k[ii] * y - c.a1[ii] * w[2 * ii] - c.a2[ii] * w[2 * ii + 1];
        out := v + 2.0 * z[ii * 2] + z[ii * 2 + 1];
        assert out == Section(c, ii, (y, w)).0;
        z[ii * 2 + 1] := z[ii * 2];
        assert z[..] == w[2 * ii + 1 := w[2 * ii]];
        z[ii * 2] := v;
        assert z[..] == w[2 * ii + 1 := w[2 * ii]][2 * ii := v];
        assert (out, z[..]) == Section(c, ii, (y, w));
        ii := ii + 1;
      }
    }

    function GetFilterCoeffA1(): seq<real>
      reads this, a1
    {
      a1[..]
    }

    function GetFilterCoeffA2(): seq<real>
      reads this, a2
    {
      a2[..]
    }

    function GetFilterCoeffK(): seq<real>
      reads this, K
    {
      K[..]
    }

    /** Places the poles, pre-warps and scales them, maps them to the
        z-plane and derives the section coefficients: four loops over the
        order/2 slots, as in the source. */
    method ComputeCoefficients()
      requires Valid()
      modifies a1, a2, K, paReal, paImag, pReal, pImag
      ensures Valid() && Designed()
    {
      PlacePoles();
      PrewarpPoles();
      BilinearTransform();
      CascadeCoefficients();
    }

    /** First loop: unit-circle Butterworth poles. */
    method PlacePoles()
      requires Valid()
      modifies paReal, paImag
      ensures forall j :: 0 <= j < order / 2 ==> Complex(paReal[j], paImag[j]) == UnitPole(libm, order, j)
    {
      var ii := 0;
      while ii < order / 2
        invariant 0 <= ii <= order / 2
        invariant forall j :: 0 <= j < ii ==> Complex(paReal[j], paImag[j]) == UnitPole(libm, order, j)
      {
        var k := order / 2 - ii;
        var theta := (2.0 * k as real - 1.0) * Pi / (2.0 * order as real);
        paReal[ii] := -1.0 * libm.sin.At(theta);
        paImag[ii] := libm.cos.At(theta);
        ii := ii + 1;
      }
    }

    /** Second loop: scale by `2*pi*Fc`. */
    method PrewarpPoles()
      requires Valid()
      requires forall j :: 0 <= j < order / 2 ==> Complex(paReal[j], paImag[j]) == UnitPole(libm, order, j)
      modifies paReal, paImag
      ensures forall j :: 0 <= j < order / 2 ==> Complex(paReal[j], paImag[j]) == AnalogPole(libm, order, samplerate, cutoff, j)
    {
      var fc := samplerate / Pi * libm.tan.At(Pi * cutoff / samplerate);
      var ii := 0;
      while ii < order / 2
        invariant 0 <= ii <= order / 2
        invariant forall j :: 0 <= j < ii ==> Complex(paReal[j], paImag[j]) == AnalogPole(libm, order, samplerate, cutoff, j)
        invariant forall j :: ii <= j < order / 2 ==> Complex(paReal[j], paImag[j]) == UnitPole(libm, order, j)
      {
        ghost var p := Complex(paReal[ii], paImag[ii]);
        assert p == UnitPole(libm, order, ii);
        paReal[ii] := paReal[ii] * (2.0 * Pi * fc);
        paImag[ii] := paImag[ii] * (2.0 * Pi * fc);
        assert Complex(paReal[ii], paImag[ii]) == AnalogPole(libm, order, samplerate, cutoff, ii);
        ii := ii + 1;
      }
    }

    /** Third loop: the bilinear transform as an explicit complex division. */
    method BilinearTransform()
      requires Valid()
      modifies pReal, pImag
      ensures forall j :: 0 <= j < order / 2 ==> Complex(pReal[j], pImag[j]) == Bilinear(Complex(paReal[j], paImag[j]), samplerate)
    {
      var ii := 0;
      while ii < order / 2
        invariant 0 <= ii <= order / 2
        invariant forall j :: 0 <= j < ii ==> Complex(pReal[j], pImag[j]) == Bilinear(Complex(paReal[j], paImag[j]), samplerate)
      {
        var u := (2.0 * samplerate + paReal[ii]) / (2.0 * samplerate);
        var v := paImag[ii] / (2.0 * samplerate);
        var x := (2.0 * samplerate - paReal[ii]) / (2.0 * samplerate);
        var y := -1.0 * paImag[ii] / (2.0 * samplerate);
        var c := Quot(1.0, x * x + y * y);
        assert Complex(u, v) == BilinearNumerator(Complex(paReal[ii], paImag[ii]), samplerate);
        assert Complex(x, y) == BilinearDenominator(Complex(paReal[ii], paImag[ii]), samplerate);
        pReal[ii] := c * (u * x + v * y);
        pImag[ii] := c * (v * x - u * y);
        assert Complex(pReal[ii], pImag[ii]) == Divide(Complex(u, v), Complex(x, y));
        ii := ii + 1;
      }
    }

    /** Fourth loop: section coefficients from the digital poles. */
    method CascadeCoefficients()
      requires Valid()
      modifies a1, a2, K
      ensures forall j :: 0 <= j < order / 2 ==> Biquad(a1[j], a2[j], K[j]) == SectionFromPole(Complex(pReal[j], pImag[j]))
    {
      var ii := 0;
      while ii < order / 2
        invariant 0 <= ii <= order / 2
        invariant forall j :: 0 <= j < ii ==> Biquad(a1[j], a2[j], K[j]) == SectionFromPole(Complex(pReal[j], pImag[j]))
      {
        a1[ii] := -2.0 * pReal[ii];
        a2[ii] := pReal[ii] * pReal[ii] + pImag[ii] * pImag[ii];
        K[ii] := (1.0 + a1[ii] + a2[ii]) / 4.0;
        ii := ii + 1;
      }
    }

    /** A designed cascade has unity gain at DC: with every delay at `x/4`
        the constant input `x` comes out unchanged and the delays stay. */
    lemma DesignedHasUnityDcGain(x: real)
      requires Valid() && Designed()
      requires forall j :: 0 <= j < 2 * (order / 2) ==> z[j] == x / 4.0
      ensures Tick(Coeffs(), z[..], x, order / 2) == (x, z[..])
    {
      var c := Coeffs();
      forall i | 0 <= i < order / 2
        ensures 4.0 * c.k[i] == 1.0 + c.a1[i] + c.a2[i]
      {
        assert Biquad(a1[i], a2[i], K[i]) == SectionFromPole(Complex(pReal[i], pImag[i]));
      }
      CascadeDcFixedPoint(c, z[..], x, order / 2);
    }
  }
}
