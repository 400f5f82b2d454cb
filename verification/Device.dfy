/** Alignment arithmetic shared by the planner, the readers and the writers. */
module Device {

  function Min(a: nat, b: nat): nat {
    if a <= b then a else b
  }

  function DivCeil(v: nat, to: nat): nat
    requires to > 0
  {
    if v % to == 0 then v / to else v / to + 1
  }

  /** `v` rounded up to a multiple of `to`; zero leaves `v` alone. */
  function RoundUp(v: nat, to: nat): nat {
    if to == 0 then v else DivCeil(v, to) * to
  }

  lemma MulMonotone(a: int, b: int, c: nat)
    requires a <= b
    ensures a * c <= b * c
  {}

  /** A multiple of `to` strictly between `-to` and `to` is zero. */
  lemma SmallMultiple(a: int, to: nat)
    requires 0 < a * to + to && a * to < to
    ensures a == 0
  {
    if a >= 1 {
      MulMonotone(1, a, to);
    } else if a <= -1 {
      MulMonotone(a, -1, to);
    }
  }

  lemma Distribute(a: int, b: int, c: int)
    ensures (a + b) * c == a * c + b * c
    ensures (a - b) * c == a * c - b * c
  {}

  /** Multiples of `to` less than `to` apart are equal. */
  lemma SameMultiple(a: int, b: int, to: nat)
    requires a * to < b * to + to && b * to < a * to + to
    ensures a == b
  {
    Distribute(a, b, to);
    SmallMultiple(a - b, to);
  }

  lemma ModOfMultiple(k: nat, to: nat)
    requires to > 0
    ensures (k * to) % to == 0 && (k * to) / to == k
  {
    var q, r := (k * to) / to, (k * to) % to;
    assert (k - q) * to == r;
    SmallMultiple(k - q, to);
  }

  /** `RoundUp` is the least multiple of `to` that is not below `v`. */
  lemma RoundUpIsLeastMultiple(v: nat, to: nat)
    requires to > 0
    ensures v <= RoundUp(v, to) < v + to
    ensures RoundUp(v, to) % to == 0
    ensures forall k: nat :: v <= k * to ==> RoundUp(v, to) <= k * to
  {
    var q := DivCeil(v, to);
    assert v == to * (v / to) + v % to;
    assert (v / to + 1) * to == to * (v / to) + to;
    ModOfMultiple(q, to);
    forall k: nat | v <= k * to ensures q * to <= k * to {
      assert (k - q + 1) * to == k * to - q * to + to > 0;
      if k - q + 1 <= 0 {
        MulMonotone(k - q + 1, 0, to);
      } else {
        MulMonotone(q, k, to);
      }
    }
  }

  /** Whole multiples pass through the rounding. */
  lemma RoundUpShift(k: nat, v: nat, to: nat)
    requires to > 0
    ensures RoundUp(k * to + v, to) == k * to + RoundUp(v, to)
  {
    RoundUpIsLeastMultiple(v, to);
    RoundUpIsLeastMultiple(k * to + v, to);
    Distribute(DivCeil(v, to), k, to);
    SameMultiple(DivCeil(k * to + v, to), DivCeil(v, to) + k, to);
  }

  lemma RoundUpMonotone(v: nat, w: nat, to: nat)
    requires to > 0 && v <= w
    ensures RoundUp(v, to) <= RoundUp(w, to)
  {
    RoundUpIsLeastMultiple(v, to);
    RoundUpIsLeastMultiple(w, to);
    assert v <= DivCeil(w, to) * to;
  }
}
