/** The arithmetic-mean accumulator `mean()` of src/maneuvers.js and the function that specifies it. */
module Averaging {
  import opened Wrappers

  function Sum(xs: seq<real>): real
  {
    if |xs| == 0 then 0.0 else Sum(xs[..|xs| - 1]) + xs[|xs| - 1]
  }

  lemma SumAppend(xs: seq<real>, x: real)
    ensures Sum(xs + [x]) == Sum(xs) + x
  {
    assert (xs + [x])[..|xs|] == xs;
  }

  /** The mean of `xs`, or `None` (JavaScript's `undefined`) when there is nothing to average. */
  function Average(xs: seq<real>): (r: Option<real>)
    ensures r.None? <==> |xs| == 0
    ensures r.Some? ==> r.value * (|xs| as real) == Sum(xs)
  {
    if |xs| == 0 then None else Some(Sum(xs) / (|xs| as real))
  }

  lemma {:induction false} SumBounds(xs: seq<real>, lo: real, hi: real)
    requires forall i :: 0 <= i < |xs| ==> lo <= xs[i] <= hi
    ensures (|xs| as real) * lo <= Sum(xs) <= (|xs| as real) * hi
  {
    if |xs| > 0 {
      var p := xs[..|xs| - 1];
      assert forall i :: 0 <= i < |p| ==> p[i] == xs[i];
      SumBounds(p, lo, hi);
      assert (|xs| as real) * lo == (|p| as real) * lo + lo;
      assert (|xs| as real) * hi == (|p| as real) * hi + hi;
    }
  }

  /** A mean lies between the least and the greatest value averaged. */
  lemma AverageWithinBounds(xs: seq<real>, lo: real, hi: real)
    requires |xs| > 0
    requires forall i :: 0 <= i < |xs| ==> lo <= xs[i] <= hi
    ensures lo <= Average(xs).value <= hi
  {
    SumBounds(xs, lo, hi);
    var n := |xs| as real;
    var a := Average(xs).value;
    assert a * n == Sum(xs);
  }

  /** Averaging copies of one value gives that value. */
  lemma AverageOfConstant(xs: seq<real>, c: real)
    requires |xs| > 0
    requires forall i :: 0 <= i < |xs| ==> xs[i] == c
    ensures Average(xs) == Some(c)
  {
    AverageWithinBounds(xs, c, c);
  }

  lemma AverageExample()
    ensures Average([]) == None
    ensures Average([2.0, 4.0, 6.0]) == Some(4.0)
  {
    assert [2.0, 4.0, 6.0][..2] == [2.0, 4.0];
    assert [2.0, 4.0][..1] == [2.0];
    assert [2.0][..0] == [];
  }

  /** `mean()`: running `sum` and `count`; `values` is the ghost record of what was fed to it. */
  class Mean {
    var sum: real
    var count: nat
    ghost var values: seq<real>

    ghost predicate Valid()
      reads this
    {
      sum == Sum(values) && count == |values|
    }

    constructor ()
      ensures Valid() && values == []
    {
      sum, count := 0.0, 0;
      values := [];
    }

    method Update(p: real)
      requires Valid()
      modifies this
      ensures Valid() && values == old(values) + [p]
    {
      count := count + 1;
      sum := sum + p;
      values := values + [p];
      assert values[..|values| - 1] == old(values);
    }

    /** `result()`: `undefined` until the first update, then the mean of everything fed in. */
    function Result(): (r: Option<real>)
      reads this
      requires Valid()
      ensures r == Average(values)
    {
      if count != 0 then Some(sum / (count as real)) else None
    }
  }
}
