/** The fixed-point refinement loop shared by `Transit`, `Sunrise` and `Sunset`:

      str := render(x)
      for { x = step(x); if str == render(x) { break }; str = render(x) }

    The loop stops at the first step after which the six-decimal rendering of the value
    is unchanged. The source has no iteration cap; here the number of steps is bounded by
    `fuel`, and running out is reported as `None`. */
module Refinement {
  import opened GoNumeric

  /** The value after `k` steps. */
  function Iterate(step: real -> real, x: real, k: nat): real
    decreases k
  {
    if k == 0 then x else Iterate(step, step(x), k - 1)
  }

  /** The `k`-th step (k >= 1) leaves the rendering unchanged. */
  predicate StopsAt(step: real -> real, render: real -> string, x: real, k: nat)
  {
    k >= 1 && render(Iterate(step, x, k)) == render(Iterate(step, x, k - 1))
  }

  /** The loop as a recursive function: `Some` of the first value whose rendering equals
      its predecessor's, if one is reached within `fuel` steps. A result is always one
      step past a value it renders the same as. */
  function Refine(step: real -> real, render: real -> string, x: real, fuel: nat): (r: Option<real>)
    ensures r.Some? ==> exists prev :: r.value == step(prev) && render(step(prev)) == render(prev)
    decreases fuel
  {
    if fuel == 0 then None
    else
      var next := step(x);
      if render(next) == render(x) then Some(next)
      else Refine(step, render, next, fuel - 1)
  }

  /** The source's loop, statement for statement, with the string it compares against
      kept in a variable; it computes `Refine`. */
  method RefineLoop(step: real -> real, render: real -> string, start: real, fuel: nat)
    returns (r: Option<real>)
    ensures r == Refine(step, render, start, fuel)
  {
    var x := start;
    var str := render(x);
    var left := fuel;
    while true
      invariant str == render(x)
      invariant Refine(step, render, start, fuel) == Refine(step, render, x, left)
      decreases left
    {
      if left == 0 {
        return None;
      }
      x := step(x);
      left := left - 1;
      if str == render(x) {
        return Some(x);
      }
      str := render(x);
    }
  }

  lemma {:induction false} IterateShift(step: real -> real, x: real, k: nat)
    ensures Iterate(step, x, k + 1) == Iterate(step, step(x), k)
  {
  }

  lemma {:induction false} StopsAtShift(step: real -> real, render: real -> string, x: real, k: nat)
    requires k >= 1
    ensures StopsAt(step, render, x, k + 1) <==> StopsAt(step, render, step(x), k)
  {
    IterateShift(step, x, k);
    IterateShift(step, x, k - 1);
  }

  /** The loop returns the value after the FIRST step that leaves the rendering
      unchanged, whenever that step is within the fuel. */
  lemma {:induction false} RefineFindsFirstStop(step: real -> real, render: real -> string, x: real, fuel: nat, k: nat)
    requires 1 <= k <= fuel
    requires StopsAt(step, render, x, k)
    requires forall j :: 1 <= j < k ==> !StopsAt(step, render, x, j)
    ensures Refine(step, render, x, fuel) == Some(Iterate(step, x, k))
    decreases k
  {
    if k == 1 {
    } else {
      assert !StopsAt(step, render, x, 1);
      StopsAtShift(step, render, x, k - 1);
      forall j | 1 <= j < k - 1
        ensures !StopsAt(step, render, step(x), j)
      {
        StopsAtShift(step, render, x, j);
      }
      RefineFindsFirstStop(step, render, step(x), fuel - 1, k - 1);
      IterateShift(step, x, k - 1);
    }
  }

  /** Conversely, a result is the value after some step that left the rendering
      unchanged, and no earlier step did. */
  lemma {:induction false} RefineResultIsFirstStop(step: real -> real, render: real -> string, x: real, fuel: nat)
    requires Refine(step, render, x, fuel).Some?
    ensures exists k: nat :: 1 <= k <= fuel
              && Refine(step, render, x, fuel).value == Iterate(step, x, k)
              && StopsAt(step, render, x, k)
              && (forall j :: 1 <= j < k ==> !StopsAt(step, render, x, j))
    decreases fuel
  {
    var next := step(x);
    if render(next) == render(x) {
      assert StopsAt(step, render, x, 1);
    } else {
      RefineResultIsFirstStop(step, render, next, fuel - 1);
      var k: nat :| 1 <= k <= fuel - 1
              && Refine(step, render, next, fuel - 1).value == Iterate(step, next, k)
              && StopsAt(step, render, next, k)
              && (forall j :: 1 <= j < k ==> !StopsAt(step, render, next, j));
      IterateShift(step, x, k);
      StopsAtShift(step, render, x, k);
      forall j | 1 <= j < k + 1
        ensures !StopsAt(step, render, x, j)
      {
        if j > 1 {
          StopsAtShift(step, render, x, j - 1);
        }
      }
      assert StopsAt(step, render, x, k + 1);
    }
  }

  /** The loop runs out of fuel exactly when none of the first `fuel` steps leaves the
      rendering unchanged. */
  lemma {:induction false} RefineNoneIffNoStop(step: real -> real, render: real -> string, x: real, fuel: nat)
    ensures Refine(step, render, x, fuel).None? <==> forall k :: 1 <= k <= fuel ==> !StopsAt(step, render, x, k)
    decreases fuel
  {
    if fuel > 0 {
      var next := step(x);
      RefineNoneIffNoStop(step, render, next, fuel - 1);
      forall k | 1 <= k < fuel
        ensures StopsAt(step, render, x, k + 1) <==> StopsAt(step, render, next, k)
      {
        StopsAtShift(step, render, x, k);
      }
      if render(next) != render(x) {
        assert !StopsAt(step, render, x, 1);
        assert (forall k :: 1 <= k <= fuel ==> !StopsAt(step, render, x, k))
               <==> (forall k :: 1 <= k <= fuel - 1 ==> !StopsAt(step, render, next, k)) by {
          if forall k :: 1 <= k <= fuel - 1 ==> !StopsAt(step, render, next, k) {
            forall k | 1 <= k <= fuel ensures !StopsAt(step, render, x, k) {
              if k > 1 { assert StopsAt(step, render, x, k) <==> StopsAt(step, render, next, k - 1); }
            }
          }
        }
      } else {
        assert StopsAt(step, render, x, 1);
      }
    }
  }

  /** More fuel never changes a found result: the bound only decides whether the loop
      gets far enough, not what it returns. */
  lemma {:induction false} RefineFuelMonotone(step: real -> real, render: real -> string, x: real, fuel: nat, more: nat)
    requires fuel <= more
    requires Refine(step, render, x, fuel).Some?
    ensures Refine(step, render, x, more) == Refine(step, render, x, fuel)
    decreases fuel
  {
    var next := step(x);
    if render(next) != render(x) {
      RefineFuelMonotone(step, render, next, fuel - 1, more - 1);
    }
  }

  /** With a rendering that only merges values less than `tol` apart (six decimals:
      tol = 1e-6), the final step moved the value by less than `tol`. */
  lemma {:induction false} RefineLastStepSmall(step: real -> real, render: real -> string, x: real, fuel: nat, tol: real)
    requires forall a, b :: render(a) == render(b) ==> -tol <= a - b <= tol
    requires Refine(step, render, x, fuel).Some?
    ensures exists prev :: Refine(step, render, x, fuel).value == step(prev)
                           && -tol <= step(prev) - prev <= tol
    decreases fuel
  {
    var next := step(x);
    if render(next) != render(x) {
      RefineLastStepSmall(step, render, next, fuel - 1, tol);
    }
  }
}
