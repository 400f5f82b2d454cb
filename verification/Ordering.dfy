/** The orders the plan is sorted by, and what a sort and a removal of adjacent repeats give. */
module Ordering {
  import opened Pipeline

  ghost predicate WeakOrder<T(!new)>(less: (T, T) -> bool) {
    && (forall x :: !less(x, x))
    && (forall x, y, z :: less(x, y) && less(y, z) ==> less(x, z))
    && (forall x, y, z :: less(x, z) ==> less(x, y) || less(y, z))
  }

  ghost predicate TotalOrder<T(!new)>(less: (T, T) -> bool) {
    WeakOrder(less) && forall x, y :: x == y || less(x, y) || less(y, x)
  }

  // ---- paths ---------------------------------------------------------------

  predicate Lex<T(==)>(less: (T, T) -> bool, a: seq<T>, b: seq<T>) {
    b != [] && (a == [] || less(a[0], b[0]) || (a[0] == b[0] && Lex(less, a[1..], b[1..])))
  }

  predicate CharBelow(a: char, b: char) {
    a < b
  }

  predicate NameBelow(a: string, b: string) {
    Lex(CharBelow, a, b)
  }

  /** Paths are compared component by component. */
  predicate PathBelow(a: Path, b: Path) {
    Lex(NameBelow, a, b)
  }

  /** `a` and `b` agree before position `k`, and differ there as `less` says. */
  predicate SplitAt<T(==)>(less: (T, T) -> bool, a: seq<T>, b: seq<T>, k: nat) {
    k < |a| && k < |b| && a[..k] == b[..k] && less(a[k], b[k])
  }

  /** Lexicographic order: a proper prefix, or the lesser element at the first difference. */
  lemma {:induction false} LexMeans<T>(less: (T, T) -> bool, a: seq<T>, b: seq<T>)
    ensures Lex(less, a, b) <==> Before(a, b) || exists k: nat :: SplitAt(less, a, b, k)
  {
    if a != [] && b != [] {
      LexMeans(less, a[1..], b[1..]);
      PrefixTail(a, b);
      if a[0] == b[0] && Lex(less, a[1..], b[1..]) && !Before(a, b) {
        var k: nat :| SplitAt(less, a[1..], b[1..], k);
        assert a[..k + 1] == [a[0]] + a[1..][..k] && b[..k + 1] == [b[0]] + b[1..][..k];
        assert SplitAt(less, a, b, k + 1);
      }
      if k: nat :| SplitAt(less, a, b, k) {
        SplitTail(less, a, b, k);
      }
      if less(a[0], b[0]) {
        assert SplitAt(less, a, b, 0);
      }
    }
  }

  predicate Before<T(==)>(a: seq<T>, b: seq<T>) {
    |a| < |b| && a == b[..|a|]
  }

  lemma PrefixTail<T>(a: seq<T>, b: seq<T>)
    requires a != [] && b != []
    ensures Before(a, b) <==> a[0] == b[0] && Before(a[1..], b[1..])
  {
    if |a| < |b| {
      assert b[..|a|] == [b[0]] + b[1..][..|a| - 1] && a == [a[0]] + a[1..];
      assert b[..|a|][1..] == b[1..][..|a| - 1];
    }
  }

  lemma SplitTail<T>(less: (T, T) -> bool, a: seq<T>, b: seq<T>, k: nat)
    requires SplitAt(less, a, b, k)
    ensures k > 0 ==> a[0] == b[0] && SplitAt(less, a[1..], b[1..], k - 1)
  {
    if k > 0 {
      assert a[0] == a[..k][0] && b[0] == b[..k][0];
      assert a[1..][..k - 1] == a[..k][1..] && b[1..][..k - 1] == b[..k][1..];
    }
  }

  /** Siblings are ordered by the first character in which their names differ, by code point. */
  lemma SiblingsByCode(dir: Path, a: string, b: string, k: nat)
    requires k < |a| && k < |b| && a[..k] == b[..k] && a[k] as int < b[k] as int
    ensures PathBelow(dir + [a], dir + [b]) && !PathBelow(dir + [b], dir + [a])
  {
    LexMeans(CharBelow, a, b);
    assert SplitAt(CharBelow, a, b, k);
    var x, y := dir + [a], dir + [b];
    LexMeans(NameBelow, x, y);
    assert x[..|dir|] == dir == y[..|dir|];
    assert SplitAt(NameBelow, x, y, |dir|);
    NamesAreOrdered();
    if PathBelow(y, x) {
      LexChains(NameBelow, x, y, x);
      LexCompares(NameBelow, x, x);
    }
  }

  lemma {:induction false} LexCompares<T(!new)>(less: (T, T) -> bool, a: seq<T>, b: seq<T>)
    requires TotalOrder(less)
    ensures !Lex(less, a, a)
    ensures a == b || Lex(less, a, b) || Lex(less, b, a)
  {
    if a != [] {
      LexCompares(less, a[1..], if b == [] then [] else b[1..]);
      if b != [] && a[0] == b[0] && a[1..] == b[1..] {
        assert a == [a[0]] + a[1..] && b == [b[0]] + b[1..];
      }
    }
  }

  lemma {:induction false} LexChains<T(!new)>(less: (T, T) -> bool, a: seq<T>, b: seq<T>, c: seq<T>)
    requires TotalOrder(less) && Lex(less, a, b) && Lex(less, b, c)
    ensures Lex(less, a, c)
  {
    if a != [] && a[0] == b[0] == c[0] {
      if Lex(less, a[1..], b[1..]) && Lex(less, b[1..], c[1..]) {
        LexChains(less, a[1..], b[1..], c[1..]);
      }
    }
  }

  lemma LexSplits<T(!new)>(less: (T, T) -> bool, a: seq<T>, b: seq<T>, c: seq<T>)
    requires TotalOrder(less) && Lex(less, a, c)
    ensures Lex(less, a, b) || Lex(less, b, c)
  {
    LexCompares(less, a, b);
    if Lex(less, b, a) {
      LexChains(less, b, a, c);
    }
  }

  lemma NamesAreOrdered()
    ensures TotalOrder(NameBelow)
  {
    assert TotalOrder(CharBelow);
    forall a, b ensures !NameBelow(a, a) && (a == b || NameBelow(a, b) || NameBelow(b, a)) {
      LexCompares(CharBelow, a, b);
    }
    forall a, b, c | NameBelow(a, b) && NameBelow(b, c) ensures NameBelow(a, c) {
      LexChains(CharBelow, a, b, c);
    }
    forall a, b, c | NameBelow(a, c) ensures NameBelow(a, b) || NameBelow(b, c) {
      LexSplits(CharBelow, a, b, c);
    }
  }

  lemma PathsAreOrdered()
    ensures TotalOrder(PathBelow)
  {
    NamesAreOrdered();
    forall a, b ensures !PathBelow(a, a) && (a == b || PathBelow(a, b) || PathBelow(b, a)) {
      LexCompares(NameBelow, a, b);
    }
    forall a, b, c | PathBelow(a, b) && PathBelow(b, c) ensures PathBelow(a, c) {
      LexChains(NameBelow, a, b, c);
    }
    forall a, b, c | PathBelow(a, c) ensures PathBelow(a, b) || PathBelow(b, c) {
      LexSplits(NameBelow, a, b, c);
    }
  }

  /** A directory is ordered before everything below it. */
  lemma {:induction false} ParentFirst(a: Path, b: Path)
    requires |a| < |b| && a == b[..|a|]
    ensures PathBelow(a, b)
  {
    if a != [] {
      assert a[1..] == b[1..][..|a| - 1];
      ParentFirst(a[1..], b[1..]);
    }
  }

  // ---- sorting -------------------------------------------------------------

  ghost predicate Ascending<T(!new)>(less: (T, T) -> bool, s: seq<T>) {
    forall i, j :: 0 <= i < j < |s| ==> !less(s[j], s[i])
  }

  function Insert<T(!new)>(less: (T, T) -> bool, x: T, s: seq<T>): (r: seq<T>)
    requires WeakOrder(less) && Ascending(less, s)
    ensures Ascending(less, r)
    ensures multiset(r) == multiset{x} + multiset(s)
  {
    if s == [] || !less(s[0], x) then
      InsertedFirst(less, x, s);
      [x] + s
    else
      var rest := Insert(less, x, s[1..]);
      InsertedBehind(less, x, s, rest);
      [s[0]] + rest
  }

  lemma InsertedBehind<T(!new)>(less: (T, T) -> bool, x: T, s: seq<T>, rest: seq<T>)
    requires WeakOrder(less) && Ascending(less, s) && s != [] && less(s[0], x)
    requires Ascending(less, rest) && multiset(rest) == multiset{x} + multiset(s[1..])
    ensures Ascending(less, [s[0]] + rest)
    ensures multiset([s[0]] + rest) == multiset{x} + multiset(s)
  {
    assert s == [s[0]] + s[1..];
    forall i | 0 <= i < |rest| ensures !less(rest[i], s[0]) {
      assert rest[i] in multiset(rest);
      assert rest[i] == x || rest[i] in s[1..];
    }
  }

  lemma InsertedFirst<T(!new)>(less: (T, T) -> bool, x: T, s: seq<T>)
    requires WeakOrder(less) && Ascending(less, s) && (s == [] || !less(s[0], x))
    ensures Ascending(less, [x] + s)
  {
    forall i | 0 <= i < |s| ensures !less(s[i], x) {
      assert i > 0 ==> !less(s[i], s[0]);
    }
  }

  function Sort<T(!new)>(less: (T, T) -> bool, s: seq<T>): (r: seq<T>)
    requires WeakOrder(less)
    ensures Ascending(less, r)
    ensures multiset(r) == multiset(s)
  {
    if s == [] then []
    else
      assert s == [s[0]] + s[1..];
      Insert(less, s[0], Sort(less, s[1..]))
  }

  // ---- removing adjacent repeats -------------------------------------------

  function Dedup<T(==,!new)>(s: seq<T>): (r: seq<T>)
    ensures forall x :: x in r <==> x in s
    ensures |r| <= |s|
  {
    if |s| < 2 then s
    else if s[0] == s[1] then
      assert s == [s[0]] + s[1..];
      Dedup(s[1..])
    else
      assert s == [s[0]] + s[1..];
      [s[0]] + Dedup(s[1..])
  }

  /** On a sorted list the removal of adjacent repeats removes all of them. */
  lemma {:induction false} DedupSorts<T(!new)>(less: (T, T) -> bool, s: seq<T>)
    requires TotalOrder(less) && Ascending(less, s)
    ensures forall i, j :: 0 <= i < j < |Dedup(s)| ==> less(Dedup(s)[i], Dedup(s)[j])
  {
    if |s| >= 2 {
      DedupSorts(less, s[1..]);
      if s[0] != s[1] {
        var r := Dedup(s[1..]);
        forall j | 0 <= j < |r| ensures less(s[0], r[j]) {
          assert r[j] in s[1..];
          var k :| 0 <= k < |s[1..]| && s[1..][k] == r[j];
          assert s[k + 1] == r[j];
          assert less(s[0], s[1]);
          if k > 0 {
            assert !less(s[k + 1], s[1]);
          }
        }
      }
    }
  }
}
