/** Weighted sums over sequences: the bookkeeping behind every conservation argument. */
module Counting {

  function Bit(b: bool): nat {
    if b then 1 else 0
  }

  /** The total weight of the elements of `xs`. */
  ghost function Sum<T>(xs: seq<T>, weight: T -> nat): nat {
    if |xs| == 0 then 0 else Sum(xs[..|xs| - 1], weight) + weight(xs[|xs| - 1])
  }

  lemma SumAppend<T>(xs: seq<T>, x: T, weight: T -> nat)
    ensures Sum(xs + [x], weight) == Sum(xs, weight) + weight(x)
  {
    assert (xs + [x])[..|xs|] == xs;
  }

  lemma {:induction false} SumConcat<T>(xs: seq<T>, ys: seq<T>, weight: T -> nat)
    ensures Sum(xs + ys, weight) == Sum(xs, weight) + Sum(ys, weight)
  {
    if |ys| == 0 {
      assert xs + ys == xs;
    } else {
      var init := ys[..|ys| - 1];
      assert (xs + ys)[..|xs + ys| - 1] == xs + init;
      SumConcat(xs, init, weight);
    }
  }

  lemma SumTail<T>(xs: seq<T>, weight: T -> nat)
    requires xs != []
    ensures Sum(xs, weight) == weight(xs[0]) + Sum(xs[1..], weight)
  {
    assert xs == [xs[0]] + xs[1..];
    assert Sum([xs[0]], weight) == weight(xs[0]);
    SumConcat([xs[0]], xs[1..], weight);
  }

  lemma {:induction false} SumUpdate<T>(xs: seq<T>, i: nat, x: T, weight: T -> nat)
    requires i < |xs|
    ensures Sum(xs[i := x], weight) + weight(xs[i]) == Sum(xs, weight) + weight(x)
  {
    var last := |xs| - 1;
    if i == last {
      assert xs[i := x][..last] == xs[..last];
    } else {
      assert xs[i := x][..last] == xs[..last][i := x];
      SumUpdate(xs[..last], i, x, weight);
    }
  }

  /** An element contributes its weight to the total. */
  lemma SumAtLeast<T>(xs: seq<T>, i: nat, weight: T -> nat)
    requires i < |xs|
    ensures weight(xs[i]) <= Sum(xs, weight)
  {
    if i < |xs| - 1 {
      SumAtLeast(xs[..|xs| - 1], i, weight);
    }
  }

  /** Two elements at different places both contribute. */
  lemma SumAtLeastTwo<T>(xs: seq<T>, i: nat, j: nat, weight: T -> nat)
    requires i < j < |xs|
    ensures weight(xs[i]) + weight(xs[j]) <= Sum(xs, weight)
  {
    if j < |xs| - 1 {
      SumAtLeastTwo(xs[..|xs| - 1], i, j, weight);
    } else {
      SumAtLeast(xs[..|xs| - 1], i, weight);
    }
  }

  /** A positive total has a positive contributor. */
  lemma SumWitness<T>(xs: seq<T>, weight: T -> nat) returns (i: nat)
    requires Sum(xs, weight) > 0
    ensures i < |xs| && weight(xs[i]) > 0
  {
    var last := |xs| - 1;
    if weight(xs[last]) > 0 {
      i := last;
    } else {
      i := SumWitness(xs[..last], weight);
    }
  }

  lemma SumZero<T>(xs: seq<T>, weight: T -> nat)
    requires forall i :: 0 <= i < |xs| ==> weight(xs[i]) == 0
    ensures Sum(xs, weight) == 0
  {}

  lemma {:induction false} SumSame<T>(xs: seq<T>, ys: seq<T>, weight: T -> nat)
    requires |xs| == |ys| && forall i :: 0 <= i < |xs| ==> weight(xs[i]) == weight(ys[i])
    ensures Sum(xs, weight) == Sum(ys, weight)
  {
    if |xs| > 0 {
      SumSame(xs[..|xs| - 1], ys[..|ys| - 1], weight);
    }
  }

  /** Pointwise dominance carries over to the totals. */
  lemma SumMonotone<T>(xs: seq<T>, small: T -> nat, large: T -> nat)
    requires forall i :: 0 <= i < |xs| ==> small(xs[i]) <= large(xs[i])
    ensures Sum(xs, small) <= Sum(xs, large)
  {}

  /** If one weight is dominated by another and the totals agree, the weights agree everywhere. */
  lemma SumTight<T>(xs: seq<T>, small: T -> nat, large: T -> nat)
    requires forall i :: 0 <= i < |xs| ==> small(xs[i]) <= large(xs[i])
    requires Sum(xs, small) == Sum(xs, large)
    ensures forall i :: 0 <= i < |xs| ==> small(xs[i]) == large(xs[i])
  {
    if |xs| > 0 {
      var init := xs[..|xs| - 1];
      SumMonotone(init, small, large);
      SumTight(init, small, large);
      forall i | 0 <= i < |xs| ensures small(xs[i]) == large(xs[i]) {
        if i < |xs| - 1 {
          assert init[i] == xs[i];
        }
      }
    }
  }
}
