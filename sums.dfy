/** Sums over sequences in which a missing (null) value counts as 0, as the report code's stream sums do. */
module Sums {
  import opened Wrappers

  /** A nullable number read with null as 0. */
  function Val(x: Option<real>): real
  {
    if x.Some? then x.value else 0.0
  }

  /** Sum of a sequence of nullable numbers, null counted as 0. */
  function SumOpt(xs: seq<Option<real>>): real
    decreases |xs|
  {
    if |xs| == 0 then 0.0 else SumOpt(xs[..|xs| - 1]) + Val(xs[|xs| - 1])
  }

  /** Sum of a projection over a sequence. */
  function SumBy<T>(xs: seq<T>, f: T -> real): real
    decreases |xs|
  {
    if |xs| == 0 then 0.0 else SumBy(xs[..|xs| - 1], f) + f(xs[|xs| - 1])
  }

  /** Sum of a nullable projection over a sequence, null counted as 0. */
  function SumOptBy<T>(xs: seq<T>, f: T -> Option<real>): real
    decreases |xs|
  {
    if |xs| == 0 then 0.0 else SumOptBy(xs[..|xs| - 1], f) + Val(f(xs[|xs| - 1]))
  }

  lemma {:induction false} SumByAppend<T>(xs: seq<T>, ys: seq<T>, f: T -> real)
    ensures SumBy(xs + ys, f) == SumBy(xs, f) + SumBy(ys, f)
    decreases |ys|
  {
    if |ys| == 0 {
      assert xs + ys == xs;
    } else {
      assert (xs + ys)[..|xs + ys| - 1] == xs + ys[..|ys| - 1];
      SumByAppend(xs, ys[..|ys| - 1], f);
    }
  }

  lemma {:induction false} SumOptByAppend<T>(xs: seq<T>, ys: seq<T>, f: T -> Option<real>)
    ensures SumOptBy(xs + ys, f) == SumOptBy(xs, f) + SumOptBy(ys, f)
    decreases |ys|
  {
    if |ys| == 0 {
      assert xs + ys == xs;
    } else {
      assert (xs + ys)[..|xs + ys| - 1] == xs + ys[..|ys| - 1];
      SumOptByAppend(xs, ys[..|ys| - 1], f);
    }
  }

  /** Summing two projections at once is summing each (linearity of the column sums). */
  lemma {:induction false} SumByAdd<T>(xs: seq<T>, f: T -> real, g: T -> real, h: T -> real)
    requires forall x :: h(x) == f(x) + g(x)
    ensures SumBy(xs, h) == SumBy(xs, f) + SumBy(xs, g)
    decreases |xs|
  {
    if |xs| > 0 {
      SumByAdd(xs[..|xs| - 1], f, g, h);
    }
  }

  /** Scaling every term scales the sum. */
  lemma {:induction false} SumByScale<T>(xs: seq<T>, f: T -> real, c: real, h: T -> real)
    requires forall x :: h(x) == c * f(x)
    ensures SumBy(xs, h) == c * SumBy(xs, f)
    decreases |xs|
  {
    if |xs| > 0 {
      SumByScale(xs[..|xs| - 1], f, c, h);
    }
  }

  /** A sum of terms that are all 0 is 0. */
  lemma {:induction false} SumOptByNone<T>(xs: seq<T>, f: T -> Option<real>)
    requires forall i :: 0 <= i < |xs| ==> f(xs[i]).None?
    ensures SumOptBy(xs, f) == 0.0
    decreases |xs|
  {
    if |xs| > 0 {
      SumOptByNone(xs[..|xs| - 1], f);
    }
  }
}
