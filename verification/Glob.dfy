/** The exclusion matcher: a greedy loop with one backtrack point against the meaning of a glob. */
module Glob {

  type Text = seq<char>

  // ---- meanings ------------------------------------------------------------

  /** A pattern character stands for a text character. */
  predicate Fits(p: char, t: char) {
    p == '?' || p == t
  }

  /** What a glob means: `?` is any one character, `*` is any run of characters. */
  predicate Means(p: Text, t: Text)
    decreases |p| + |t|
  {
    if p == [] then t == []
    else if p[0] == '*' then Means(p[1..], t) || (t != [] && Means(p, t[1..]))
    else t != [] && Fits(p[0], t[0]) && Means(p[1..], t[1..])
  }

  /** The meaning of a pattern is that of its parts: some cut of the text gives each part what it means. */
  lemma {:induction false} MeansOfParts(p: Text, q: Text, t: Text)
    ensures Means(p + q, t) <==> exists k :: 0 <= k <= |t| && Means(p, t[..k]) && Means(q, t[k..])
    decreases |p| + |t|
  {
    if p == [] {
      assert p + q == q && t[..0] == [] && t[0..] == t;
      assert forall k :: 0 <= k <= |t| && Means(p, t[..k]) ==> k == 0;
    } else {
      assert (p + q)[1..] == p[1..] + q;
      var here, there := CutAt(p, q, t), t != [] && CutAt(p, q, t[1..]);
      if p[0] == '*' {
        MeansOfParts(p[1..], q, t);
        if t != [] {
          MeansOfParts(p, q, t[1..]);
        }
        CutAtStar(p, q, t);
      } else {
        if t != [] {
          MeansOfParts(p[1..], q, t[1..]);
        }
        CutAtCharacter(p, q, t);
      }
    }
  }

  ghost predicate CutAt(p: Text, q: Text, t: Text) {
    exists k :: 0 <= k <= |t| && Means(p, t[..k]) && Means(q, t[k..])
  }

  lemma CutAtStar(p: Text, q: Text, t: Text)
    requires p != [] && p[0] == '*'
    ensures CutAt(p, q, t) <==> CutAt(p[1..], q, t) || (t != [] && CutAt(p, q, t[1..]))
  {
    if t != [] {
      forall k | 1 <= k <= |t| ensures t[..k][1..] == t[1..][..k - 1] && t[k..] == t[1..][k - 1..] {
      }
    }
    if CutAt(p, q, t) {
      var k :| 0 <= k <= |t| && Means(p, t[..k]) && Means(q, t[k..]);
      if !Means(p[1..], t[..k]) {
        assert Means(p, t[1..][..k - 1]) && Means(q, t[1..][k - 1..]);
      }
    }
    if t != [] && CutAt(p, q, t[1..]) {
      var k :| 0 <= k <= |t[1..]| && Means(p, t[1..][..k]) && Means(q, t[1..][k..]);
      assert t[..k + 1][1..] == t[1..][..k];
      assert Means(p, t[..k + 1]) && Means(q, t[k + 1..]);
    }
  }

  lemma CutAtCharacter(p: Text, q: Text, t: Text)
    requires p != [] && p[0] != '*'
    ensures CutAt(p, q, t) <==> t != [] && Fits(p[0], t[0]) && CutAt(p[1..], q, t[1..])
  {
    if CutAt(p, q, t) {
      var k :| 0 <= k <= |t| && Means(p, t[..k]) && Means(q, t[k..]);
      assert t[..k][1..] == t[1..][..k - 1] && t[k..] == t[1..][k - 1..];
    }
    if t != [] && Fits(p[0], t[0]) && CutAt(p[1..], q, t[1..]) {
      var k :| 0 <= k <= |t[1..]| && Means(p[1..], t[1..][..k]) && Means(q, t[1..][k..]);
      assert t[..k + 1][1..] == t[1..][..k] && t[k + 1..] == t[1..][k..];
      assert Means(p, t[..k + 1]);
    }
  }

  /** The meaning of a single character: any text for `*`, any one character for `?`, itself otherwise. */
  lemma MeansOfOne(c: char, t: Text)
    ensures Means([c], t) <==> c == '*' || (|t| == 1 && (c == '?' || t[0] == c))
    ensures Means([], t) <==> t == []
  {
    assert [c][1..] == [];
    if c == '*' {
      StarMatchesAll(t);
    }
  }

  /** What the loop decides: as above, but a `*` facing a `*` in the text is taken literally. */
  predicate Decides(p: Text, t: Text)
    decreases |p| + |t|, 0
  {
    if p == [] then t == []
    else if t != [] && Fits(p[0], t[0]) then Decides(p[1..], t[1..])
    else p[0] == '*' && Somewhere(p[1..], t)
  }

  /** The rest of the pattern fits some suffix of the text. */
  predicate Somewhere(p: Text, t: Text)
    decreases |p| + |t|, 1
  {
    Decides(p, t) || (t != [] && Somewhere(p, t[1..]))
  }

  lemma {:induction false} SomewhereAt(p: Text, t: Text, m: nat)
    requires m <= |t| && Decides(p, t[m..])
    ensures Somewhere(p, t)
  {
    if m > 0 {
      assert t[1..][m - 1..] == t[m..];
      SomewhereAt(p, t[1..], m - 1);
    } else {
      assert t[0..] == t;
    }
  }

  lemma {:induction false} SomewhereIsAt(p: Text, t: Text) returns (m: nat)
    requires Somewhere(p, t)
    ensures m <= |t| && Decides(p, t[m..])
  {
    if Decides(p, t) {
      assert t[0..] == t;
      m := 0;
    } else {
      m := SomewhereIsAt(p, t[1..]);
      assert t[1..][m..] == t[m + 1..];
      m := m + 1;
    }
  }

  // ---- why the latest star suffices ----------------------------------------

  /** `p[a..a + n]` was matched character by character against `t[b..b + n]`. */
  predicate Walked(p: Text, a: nat, t: Text, b: nat, n: nat) {
    a + n <= |p| && b + n <= |t| && forall i :: a <= i < a + n ==> Fits(p[i], t[i - a + b])
  }

  /** A match of the pattern from `a` on goes on from `a + 1` on: at the next character, or past a star somewhere. */
  lemma StepPast(p: Text, a: nat, t: Text, m: nat) returns (y: nat)
    requires a < |p| && m <= |t| && Decides(p[a..], t[m..])
    ensures y <= |t| && Decides(p[a + 1..], t[y..])
    ensures if m < |t| && Fits(p[a], t[m]) then y == m + 1 else y >= m
  {
    assert p[a..][1..] == p[a + 1..];
    if m < |t| && Fits(p[a], t[m]) {
      assert t[m..][1..] == t[m + 1..];
      y := m + 1;
    } else {
      var d := SomewhereIsAt(p[a + 1..], t[m..]);
      assert t[m..][d..] == t[m + d..];
      y := m + d;
    }
  }

  /**
   If the stretch of pattern since a star was walked at position `b`, then any match that places
   it at `b` or later leaves the stretch at `b + n` or later.
   */
  lemma {:induction false} NoEarlierExit(p: Text, a: nat, t: Text, b: nat, n: nat, m: nat) returns (x: nat)
    requires Walked(p, a, t, b, n) && b <= m <= |t| && Decides(p[a..], t[m..])
    ensures b + n <= x <= |t| && Decides(p[a + n..], t[x..])
    decreases n
  {
    hide Decides;
    if n == 0 {
      x := m;
    } else {
      assert Fits(p[a], t[b]);
      var y := StepPast(p, a, t, m);
      x := NoEarlierExit(p, a + 1, t, b + 1, n - 1, y);
    }
  }

  /** A retry of the older star that would succeed also succeeds from the newer star on. */
  lemma OlderStarAddsNothing(p: Text, star: nat, mark: nat, t: Text, pi: nat, ti: nat)
    requires star < pi < |p| && mark <= ti < |t| && pi - (star + 1) == ti - mark
    requires Walked(p, star + 1, t, mark, ti - mark) && p[pi] == '*' && Somewhere(p[star + 1..], t[mark + 1..])
    ensures Somewhere(p[pi + 1..], t[ti..])
  {
    hide Decides; hide Somewhere; hide Walked;
    var d := SomewhereIsAt(p[star + 1..], t[mark + 1..]);
    assert t[mark + 1..][d..] == t[mark + 1 + d..];
    var x := NoEarlierExit(p, star + 1, t, mark, ti - mark, mark + 1 + d);
    assert star + 1 + (ti - mark) == pi;
    var y := StepPast(p, pi, t, x);
    assert t[ti..][y - ti..] == t[y..];
    SomewhereAt(p[pi + 1..], t[ti..], y - ti);
  }

  /** At the end of the text a retry cannot succeed where the walk so far does not. */
  lemma OlderStarAtEnd(p: Text, star: nat, mark: nat, t: Text, pi: nat)
    requires star < pi <= |p| && mark < |t| && pi - (star + 1) == |t| - mark
    requires Walked(p, star + 1, t, mark, |t| - mark) && Somewhere(p[star + 1..], t[mark + 1..])
    ensures Decides(p[pi..], [])
  {
    var d := SomewhereIsAt(p[star + 1..], t[mark + 1..]);
    assert t[mark + 1..][d..] == t[mark + 1 + d..];
    var x := NoEarlierExit(p, star + 1, t, mark, |t| - mark, mark + 1 + d);
    assert t[x..] == [];
  }

  /** The end of the pattern matches the empty text when it is stars only. */
  lemma {:induction false} StarsMatchEmpty(p: Text, pi: nat)
    requires pi <= |p|
    ensures pi < |p| && p[pi] == '*' ==> Decides(p[pi..], []) == Decides(p[pi + 1..], [])
    ensures pi < |p| && p[pi] != '*' ==> !Decides(p[pi..], [])
    ensures pi == |p| ==> Decides(p[pi..], [])
  {
    if pi < |p| {
      assert p[pi..][1..] == p[pi + 1..];
    }
  }

  datatype Backtrack = NoStar | Star(star: nat)

  /** What the loop would still answer from its current variables. */
  predicate Pending(p: Text, t: Text, pi: nat, ti: nat, back: Backtrack, mark: nat)
    requires pi <= |p| && ti <= |t| && mark <= |t| && (back.Star? ==> back.star < |p|)
  {
    || Decides(p[pi..], t[ti..])
    || (back.Star? && mark < |t| && Somewhere(p[back.star + 1..], t[mark + 1..]))
  }

  lemma TakeCharacter(p: Text, t: Text, pi: nat, ti: nat, back: Backtrack, mark: nat)
    requires pi < |p| && ti < |t| && mark <= |t| && (back.Star? ==> back.star < |p|) && Fits(p[pi], t[ti])
    ensures Pending(p, t, pi, ti, back, mark) == Pending(p, t, pi + 1, ti + 1, back, mark)
  {
    assert p[pi..][1..] == p[pi + 1..] && t[ti..][1..] == t[ti + 1..];
  }

  lemma TakeStar(p: Text, t: Text, pi: nat, ti: nat, back: Backtrack, mark: nat)
    requires pi < |p| && ti < |t| && mark <= ti && p[pi] == '*' && !Fits(p[pi], t[ti])
    requires back.Star? ==>
               back.star < pi && pi - (back.star + 1) == ti - mark && Walked(p, back.star + 1, t, mark, ti - mark)
    ensures Pending(p, t, pi, ti, back, mark) == Pending(p, t, pi + 1, ti, Star(pi), ti)
  {
    assert p[pi..][1..] == p[pi + 1..] && t[ti..][1..] == t[ti + 1..] && t[ti..] != [];
    assert Decides(p[pi..], t[ti..]) == Somewhere(p[pi + 1..], t[ti..]);
    assert Somewhere(p[pi + 1..], t[ti..]) == (Decides(p[pi + 1..], t[ti..]) || Somewhere(p[pi + 1..], t[ti + 1..]));
    if back.Star? && mark < |t| && Somewhere(p[back.star + 1..], t[mark + 1..]) {
      OlderStarAddsNothing(p, back.star, mark, t, pi, ti);
    }
  }

  lemma Retry(p: Text, t: Text, pi: nat, ti: nat, star: nat, mark: nat)
    requires pi <= |p| && ti < |t| && mark <= ti && star < |p|
    requires pi < |p| ==> !Fits(p[pi], t[ti]) && p[pi] != '*'
    ensures Pending(p, t, pi, ti, Star(star), mark) == Pending(p, t, star + 1, mark + 1, Star(star), mark + 1)
  {
    if mark + 1 < |t| {
      assert t[mark + 1..][1..] == t[mark + 2..];
    } else {
      assert t[mark + 1..] == [];
    }
  }

  lemma Stuck(p: Text, t: Text, pi: nat, ti: nat, mark: nat)
    requires pi <= |p| && ti < |t| && mark <= |t|
    requires pi < |p| ==> !Fits(p[pi], t[ti]) && p[pi] != '*'
    ensures !Pending(p, t, pi, ti, NoStar, mark)
  {}

  /**
   The matching loop.  It answers `Decides` for every pattern and text: keeping only the latest
   star to come back to loses nothing.
   */
  method GlobMatch(p: Text, t: Text) returns (matched: bool)
    ensures matched == Decides(p, t)
  {
    hide Decides; hide Somewhere;
    var pi, ti := 0, 0;
    var back, mark := NoStar, 0;
    assert p[0..] == p && t[0..] == t;
    while ti < |t|
      invariant 0 <= pi <= |p| && 0 <= mark <= ti <= |t|
      invariant back.Star? ==>
                  back.star < pi && pi - (back.star + 1) == ti - mark && Walked(p, back.star + 1, t, mark, ti - mark)
      invariant Decides(p, t) == Pending(p, t, pi, ti, back, mark)
      decreases |t| - mark, |t| - ti, |p| - pi
    {
      if pi < |p| && (p[pi] == '?' || p[pi] == t[ti]) {
        TakeCharacter(p, t, pi, ti, back, mark);
        pi, ti := pi + 1, ti + 1;
      } else if pi < |p| && p[pi] == '*' {
        TakeStar(p, t, pi, ti, back, mark);
        back, mark := Star(pi), ti;
        pi := pi + 1;
      } else if back.Star? {
        Retry(p, t, pi, ti, back.star, mark);
        pi := back.star + 1;
        mark := mark + 1;
        ti := mark;
      } else {
        Stuck(p, t, pi, ti, mark);
        return false;
      }
    }
    assert t[ti..] == [];
    if back.Star? && mark < |t| && Somewhere(p[back.star + 1..], t[mark + 1..]) {
      OlderStarAtEnd(p, back.star, mark, t, pi);
    }
    ghost var decided := Decides(p[pi..], []);
    while pi < |p| && p[pi] == '*'
      invariant 0 <= pi <= |p|
      invariant decided == Decides(p[pi..], [])
    {
      StarsMatchEmpty(p, pi);
      pi := pi + 1;
    }
    StarsMatchEmpty(p, pi);
    matched := pi == |p|;
  }

  // ---- the loop and the meaning --------------------------------------------

  lemma {:induction false} DecidesIsMeaning(p: Text, t: Text)
    requires '*' !in t
    ensures Decides(p, t) == Means(p, t)
    decreases |p| + |t|, 1
  {
    if p != [] {
      if p[0] == '*' {
        SomewhereIsMeaning(p, t);
        assert t != [] ==> t[0] in t;
      } else if t != [] {
        DecidesIsMeaning(p[1..], t[1..]);
      }
    }
  }

  lemma {:induction false} SomewhereIsMeaning(p: Text, t: Text)
    requires '*' !in t && p != [] && p[0] == '*'
    ensures Somewhere(p[1..], t) == Means(p, t)
    decreases |p| + |t|, 0
  {
    DecidesIsMeaning(p[1..], t);
    if t != [] {
      SomewhereIsMeaning(p, t[1..]);
    }
  }

  /** The loop never matches what the meaning does not: on any text it errs on one side only. */
  lemma {:induction false} NeverTooMuch(p: Text, t: Text)
    requires Decides(p, t)
    ensures Means(p, t)
    decreases |p| + |t|, 1
  {
    if p != [] {
      if t != [] && Fits(p[0], t[0]) {
        NeverTooMuch(p[1..], t[1..]);
      } else {
        SomewhereNeverTooMuch(p, t);
      }
    }
  }

  lemma {:induction false} SomewhereNeverTooMuch(p: Text, t: Text)
    requires p != [] && p[0] == '*' && Somewhere(p[1..], t)
    ensures Means(p, t)
    decreases |p| + |t|, 0
  {
    if Decides(p[1..], t) {
      NeverTooMuch(p[1..], t);
    } else {
      SomewhereNeverTooMuch(p, t[1..]);
    }
  }

  lemma {:induction false} StarMatchesAll(t: Text)
    ensures Means("*", t)
  {
    if t == [] {
      assert "*"[1..] == [];
    } else {
      StarMatchesAll(t[1..]);
    }
  }

  /** A prefix without stars in it matches itself and leaves the rest to the rest. */
  lemma {:induction false} PrefixPeels(q: Text, p: Text, t: Text)
    requires '*' !in q
    ensures Means(q + p, q + t) <== Means(p, t)
    ensures Decides(q + p, q + t) == Decides(p, t)
  {
    if q == [] {
      assert q + p == p && q + t == t;
    } else {
      assert q[0] in q;
      assert (q + p)[1..] == q[1..] + p && (q + t)[1..] == q[1..] + t;
      PrefixPeels(q[1..], p, t);
    }
  }

  /** A pattern on which the loop and the meaning differ, for any text with a star in it. */
  lemma StarInTextMisleads(t: Text) returns (p: Text)
    requires '*' in t
    ensures Means(p, t) && !Decides(p, t)
  {
    var k := FirstStar(t);
    var q, rest := t[..k], t[k..];
    assert t == q + rest;
    var tail: Text := if |rest| == 1 then "*?" else "*";
    assert Means(tail, rest) && !Decides(tail, rest) by {
      if |rest| == 1 {
        assert rest == "*";
        assert "*?"[1..] == "?" && "*"[1..] == "" && "?"[1..] == "";
        assert Means("?", "*");
        assert !Decides("?", "");
      } else {
        StarMatchesAll(rest);
        assert "*"[1..] == [];
      }
    }
    p := q + tail;
    PrefixPeels(q, tail, rest);
  }

  lemma {:induction false} FirstStar(t: Text) returns (k: nat)
    requires '*' in t
    ensures k < |t| && t[k] == '*' && '*' !in t[..k]
  {
    if t[0] == '*' {
      k := 0;
    } else {
      k := FirstStar(t[1..]);
      assert t[..k + 1] == [t[0]] + t[1..][..k];
      k := k + 1;
    }
  }

  /** The loop implements the meaning of every pattern on exactly the texts without a star. */
  lemma FaithfulTexts(t: Text)
    ensures (forall p: Text :: Decides(p, t) == Means(p, t)) <==> '*' !in t
  {
    if '*' in t {
      var p := StarInTextMisleads(t);
      assert Decides(p, t) != Means(p, t);
    } else {
      forall p: Text ensures Decides(p, t) == Means(p, t) {
        DecidesIsMeaning(p, t);
      }
    }
  }

  // ---- exclusion -----------------------------------------------------------

  /** A name is excluded when one of the patterns decides for it, both folded to lower case. */
  predicate ExcludedBy(name: string, patterns: seq<string>, fold: string -> Text) {
    exists i :: 0 <= i < |patterns| && Decides(fold(patterns[i]), fold(name))
  }

  method Excluded(name: string, patterns: seq<string>, fold: string -> Text) returns (hit: bool)
    ensures hit == ExcludedBy(name, patterns, fold)
  {
    hit := false;
    for i := 0 to |patterns|
      invariant hit == exists j :: 0 <= j < i && Decides(fold(patterns[j]), fold(name))
    {
      var matched := GlobMatch(fold(patterns[i]), fold(name));
      if matched {
        return true;
      }
    }
  }

  /** Exclusion can miss a name that a pattern means, but never takes one that no pattern means. */
  lemma NeverOverExcludes(name: string, patterns: seq<string>, fold: string -> Text)
    requires ExcludedBy(name, patterns, fold)
    ensures exists i :: 0 <= i < |patterns| && Means(fold(patterns[i]), fold(name))
  {
    var i :| 0 <= i < |patterns| && Decides(fold(patterns[i]), fold(name));
    NeverTooMuch(fold(patterns[i]), fold(name));
  }
}
