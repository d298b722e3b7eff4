/** The bounded Newton-Raphson loop shared by the implicit schemes of the
    three engines (ladder.cpp:259-275, sallenkey.cpp:265-276,
    svfilter.cpp:233-244 and 266-277): at most eight iterations, leaving
    early once two successive iterates differ by less than 1e-9, and
    returning the last iterate whether or not it converged. */
module NewtonRaphson {
  import opened Numerics

  const MaxIterations: nat := 8
  const Tolerance: real := 1.0e-9

  /** `step` applied `k` times to `x`. */
  function Iterate(step: real -> real, x: real, k: nat): real
    decreases k
  {
    if k == 0 then x else Iterate(step, step(x), k - 1)
  }

  /** The value the loop leaves in its iterate when it has `fuel`
      iterations left and currently holds `x`. */
  function Converge(step: real -> real, x: real, fuel: nat): real
    decreases fuel
  {
    if fuel == 0 then x
    else
      var x2 := step(x);
      if Abs(x2 - x) < Tolerance then x2 else Converge(step, x2, fuel - 1)
  }

  /** How many iterations the loop performs from `x` with `fuel` left. */
  function StopCount(step: real -> real, x: real, fuel: nat): (k: nat)
    ensures k <= fuel
    ensures fuel > 0 ==> 1 <= k
    decreases fuel
  {
    if fuel == 0 then 0
    else if Abs(step(x) - x) < Tolerance then 1
    else 1 + StopCount(step, step(x), fuel - 1)
  }

  /** Iterates `j - 1` and `j` differ by less than the tolerance. */
  predicate SettledAt(step: real -> real, x: real, j: nat)
    requires 1 <= j
  {
    Abs(Iterate(step, x, j) - Iterate(step, x, j - 1)) < Tolerance
  }

  /** The loop's result is the iterate after `StopCount` steps; it stops
      before exhausting its fuel only at the first iterate that has
      settled, and no earlier iterate had settled. */
  lemma {:induction false} ConvergeIsFirstSettledIterate(step: real -> real, x: real, fuel: nat)
    ensures Converge(step, x, fuel) == Iterate(step, x, StopCount(step, x, fuel))
    ensures StopCount(step, x, fuel) < fuel ==> SettledAt(step, x, StopCount(step, x, fuel))
    ensures forall j :: 1 <= j < StopCount(step, x, fuel) ==> !SettledAt(step, x, j)
    decreases fuel
  {
    if fuel > 0 && Abs(step(x) - x) >= Tolerance {
      var x2 := step(x);
      ConvergeIsFirstSettledIterate(step, x2, fuel - 1);
      var k := StopCount(step, x2, fuel - 1);
      assert Iterate(step, x, k + 1) == Iterate(step, x2, k);
      forall j | 1 <= j < k + 1
        ensures !SettledAt(step, x, j)
      {
        if j == 1 {
          assert Iterate(step, x, 1) == x2;
          assert Iterate(step, x, 0) == x;
        } else {
          assert Iterate(step, x, j) == Iterate(step, x2, j - 1);
          assert Iterate(step, x, j - 1) == Iterate(step, x2, j - 2);
          assert !SettledAt(step, x2, j - 1);
        }
      }
      if k + 1 < fuel {
        assert Iterate(step, x, k) == Iterate(step, x2, k - 1);
        assert SettledAt(step, x2, k);
      }
    } else if fuel > 0 {
      assert Iterate(step, x, 1) == step(x);
    }
  }

  /** A loop started on a fixed point of its step stops there at once. */
  lemma ConvergeFromFixedPoint(step: real -> real, x: real, fuel: nat)
    requires step(x) == x
    ensures Converge(step, x, fuel) == x
  {
    if fuel > 0 {
      assert Abs(step(x) - x) < Tolerance;
    }
  }

  /** A point that the Newton step `x - f(x)/df(x)` maps to itself is a
      root of `f`, provided the derivative there is not zero. */
  lemma FixedPointIsRoot(f: real -> real, df: real -> real, x: real)
    requires df(x) != 0.0
    requires x - Quot(f(x), df(x)) == x
    ensures f(x) == 0.0
  {
    assert Quot(f(x), df(x)) * df(x) == f(x);
  }

  /** The loop as written: starts at `x0` and runs the bounded iteration. */
  method Solve(step: real -> real, x0: real) returns (x: real)
    ensures x == Converge(step, x0, MaxIterations)
    ensures x == Iterate(step, x0, StopCount(step, x0, MaxIterations))
  {
    x := x0;
    var ii := 0;
    while ii < MaxIterations
      invariant 0 <= ii <= MaxIterations
      invariant Converge(step, x, MaxIterations - ii) == Converge(step, x0, MaxIterations)
    {
      var x2 := step(x);
      if Abs(x2 - x) < Tolerance {
        x := x2;
        break;
      }
      x := x2;
      ii := ii + 1;
    }
    ConvergeIsFirstSettledIterate(step, x0, MaxIterations);
  }
}
