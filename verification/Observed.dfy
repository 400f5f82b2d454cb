/** What the controller sees of a running pipeline: its samples are those the cliff theorems speak of. */
module Observation {
  import opened Counting
  import opened Pipeline
  import opened Ownership
  import opened Scheduling
  import opened Cliffs
  import opened Modes
  import Copy

  // ---- the rings hold no buffer twice --------------------------------------

  predicate AllDifferent(xs: seq<nat>) {
    forall i, j :: 0 <= i < j < |xs| ==> xs[i] != xs[j]
  }

  lemma {:induction false} Pigeonhole(xs: seq<nat>, n: nat)
    requires AllDifferent(xs) && forall i :: 0 <= i < |xs| ==> xs[i] < n
    ensures |xs| <= n
  {
    if i: nat :| i < |xs| && xs[i] == n - 1 {
      Pigeonhole(xs[..i] + xs[i + 1..], n - 1);
    } else if xs != [] {
      assert xs[0] < n;
      Pigeonhole(xs, n - 1);
    }
  }

  /** The buffers that lie in the two rings. */
  function Ringed(s: State): seq<nat> {
    s.free + seq(|s.filled|, i requires 0 <= i < |s.filled| => s.filled[i].buf)
  }

  lemma FreeTwice(xs: seq<nat>, i: nat, j: nat, b: nat)
    requires i < j < |xs| && xs[i] == xs[j] == b
    ensures Sum<nat>(xs, IsBuf(b)) >= 2
  {
    SumAtLeastTwo<nat>(xs, i, j, IsBuf(b));
    assert IsBuf(b)(xs[i]) == Bit(xs[i] == b) && IsBuf(b)(xs[j]) == Bit(xs[j] == b);
  }

  lemma FreeOnce(xs: seq<nat>, i: nat, b: nat)
    requires i < |xs| && xs[i] == b
    ensures Sum<nat>(xs, IsBuf(b)) >= 1
  {
    SumAtLeast<nat>(xs, i, IsBuf(b));
    assert IsBuf(b)(xs[i]) == Bit(xs[i] == b);
  }

  lemma RingedOnce(c: Config, s: State, i: nat, j: nat)
    requires BufInv(c, s) && Shape(c, s) && i < j < |Ringed(s)|
    ensures Ringed(s)[i] != Ringed(s)[j]
  {
    hide Sum;
    var b, n := Ringed(s)[i], |s.free|;
    assert b < c.capacity && BufPlaces(s, b) == 1;
    if Ringed(s)[j] == b {
      if j < n {
        FreeTwice(s.free, i, j, b);
      } else if i < n {
        FreeOnce(s.free, i, b);
        SumAtLeast(s.filled, j - n, InChunk(b));
      } else {
        SumAtLeastTwo(s.filled, i - n, j - n, InChunk(b));
      }
    }
  }

  /** Free and filled buffers together are at most the buffers of the arena. */
  lemma RingsFit(c: Config, s: State)
    requires BufInv(c, s) && Shape(c, s)
    ensures |s.free| + |s.filled| <= c.capacity
  {
    forall i: nat, j: nat | i < j < |Ringed(s)| ensures Ringed(s)[i] != Ringed(s)[j] {
      RingedOnce(c, s, i, j);
    }
    Pigeonhole(Ringed(s), c.capacity);
  }

  // ---- the byte counters only grow -----------------------------------------

  predicate Grown(s: State, t: State) {
    s.bytesRead <= t.bytesRead && s.bytesWritten <= t.bytesWritten
  }

  lemma IdleGrows(c: Config, s: State, w: nat, i: IdlePC, e: Event)
    requires CanIdle(s, w, i, e)
    ensures Grown(s, IdleStep(c, s, w, i, e))
  {}

  lemma BusyGrows(c: Config, s: State, w: nat, e: Event)
    ensures forall b, j, r :: CanRead(c, s, w, b, j, r, e) ==> Grown(s, ReadStep(c, s, w, b, j, r, e))
    ensures forall b, j, d :: CanDrop(c, s, w, b, j, d) ==> Grown(s, DropStep(c, s, w, b, j, d))
    ensures forall f, p :: CanFin(c, s, w, f, p, e) ==> Grown(s, FinStep(c, s, w, f, p, e))
  {}

  lemma WriterGrows(c: Config, s: State, w: nat, k: Chunk, p: WritePC, e: Event)
    ensures CanPrepare(c, s, w, k, p, e) ==> Grown(s, PrepareStep(c, s, w, k, p, e))
    ensures CanWrite(c, s, w, k, p, e) ==> Grown(s, WriteStep(c, s, w, k, p, e))
  {}

  lemma CountersGrow(c: Config, s: State, w: nat, e: Event, t: State)
    requires Next(c, s, w, e, t)
    ensures Grown(s, t)
  {
    hide WellPlanned; hide Grown; hide CanRead; hide CanDrop; hide CanPrepare; hide CanWrite; hide CanFin;
    hide IdleStep; hide ReadStep; hide DropStep; hide PrepareStep; hide WriteStep; hide FinStep;
    match s.pcs[w]
    case Idle(i) => IdleGrows(c, s, w, i, e);
    case Writing(k, p) => WriterGrows(c, s, w, k, p, e);
    case _ => BusyGrows(c, s, w, e);
  }

  lemma {:induction false} CountersGrown(c: Config, r: Copy.Run, m: nat, n: nat)
    requires Copy.IsRun(c, r) && m <= n < |r.states|
    ensures Grown(r.states[m], r.states[n])
    decreases n
  {
    hide Next; hide Init; hide WellPlanned;
    if m < n {
      CountersGrown(c, r, m, n - 1);
      CountersGrow(c, r.states[n - 1], r.workers[n - 1], r.events[n - 1], r.states[n]);
    }
  }

  // ---- samples of a run ----------------------------------------------------

  /** What a tick finds in state `s`, `elapsed` seconds after the tick before it. */
  function Seen(c: Config, s: State, elapsed: real): Sample {
    Sample(s.bytesRead, s.bytesWritten, elapsed, c.capacity, |s.free|, |s.filled|)
  }

  /** The samples of a run, taken at later and later moments, a tick or more apart. */
  ghost predicate SampledFrom(c: Config, r: Copy.Run, moments: seq<nat>, samples: seq<Sample>) {
    && Copy.IsRun(c, r) && |samples| == |moments|
    && (forall i :: 0 <= i < |moments| ==> moments[i] < |r.states|)
    && (forall i, j :: 0 <= i < j < |moments| ==> moments[i] <= moments[j])
    && (forall i :: 0 <= i < |samples| ==>
          samples[i].elapsed >= TICK && samples[i] == Seen(c, r.states[moments[i]], samples[i].elapsed))
  }

  lemma SeenIsPlausible(c: Config, r: Copy.Run, n: nat, elapsed: real)
    requires Copy.IsRun(c, r) && n < |r.states| && c.capacity >= 4 && elapsed >= TICK
    ensures Plausible(Seen(c, r.states[n], elapsed), c.capacity)
  {
    Copy.AlwaysInv(c, r, n);
    hide Sum;
    Copy.BytesInOrder(c, r.states[n]);
    RingsFit(c, r.states[n]);
  }

  /**
   Whatever the schedule and the outcomes of the operations, samples of a pipeline with at least four
   buffers are observable: written never exceeds read, the rings never exceed the arena, and the
   counters never fall.
   */
  lemma SamplesAreObservable(c: Config, r: Copy.Run, moments: seq<nat>, samples: seq<Sample>)
    requires SampledFrom(c, r, moments, samples) && c.capacity >= 4
    ensures Observable(samples, c.capacity)
  {
    hide Copy.IsRun; hide Plausible;
    forall i | 0 <= i < |samples| ensures Plausible(samples[i], c.capacity) {
      SeenIsPlausible(c, r, moments[i], samples[i].elapsed);
    }
    forall i, j | 0 <= i < j < |samples|
      ensures samples[i].bytesRead <= samples[j].bytesRead && samples[i].bytesWritten <= samples[j].bytesWritten
    {
      CountersGrown(c, r, moments[i], moments[j]);
    }
  }

  // ---- from the rings to the split -----------------------------------------

  /**
   The loop closes: if at two consecutive ticks of a run the pipeline has fewer free buffers than
   readers and the rate has not collapsed, the controller drains and takes a reader away; if it has buffers
   but fewer chunks than writers, it fills and adds one.
   */
  lemma RingsMoveTheSplit(l: Limits, c: Config, r: Copy.Run, moments: seq<nat>, samples: seq<Sample>, n: nat,
                          exp: real -> real)
    requires SampledFrom(c, r, moments, samples) && l.workers > 0 && !l.sameSpindle && 2 <= n <= |samples|
    requires forall i :: n - 2 <= i < n ==> !Collapsed(l, samples, i, exp)
    ensures var before, now := ReadersAt(l, samples, n - 1, exp), ReadersAt(l, samples, n, exp);
            && ((forall i :: n - 2 <= i < n ==> FewBuffers(r.states[moments[i]], ReadersAt(l, samples, i, exp))) ==>
                  && StateAt(l, samples, n, exp) == Drain
                  && now == if before > Least(l) then before - 1 else Least(l))
            && ((forall i :: n - 2 <= i < n ==>
                   && !FewBuffers(r.states[moments[i]], ReadersAt(l, samples, i, exp))
                   && FewChunks(r.states[moments[i]], l.workers - ReadersAt(l, samples, i, exp))) ==>
                  && StateAt(l, samples, n, exp) == Fill
                  && now == if before < Greatest(l) then before + 1 else Greatest(l))
  {
    hide Copy.IsRun; hide Collapsed; hide ReadersAt; hide StateAt;
    assert samples[n - 2].free == |r.states[moments[n - 2]].free|;
    assert samples[n - 1].free == |r.states[moments[n - 1]].free|;
    var few := forall i :: n - 2 <= i < n ==> FewBuffers(r.states[moments[i]], ReadersAt(l, samples, i, exp));
    if few {
      ShownTwiceTakesEffect(l, samples, n, exp, Drain);
      StarvedSideIsServed(l, samples, n, exp, Drain);
    } else if forall i :: n - 2 <= i < n ==>
        && !FewBuffers(r.states[moments[i]], ReadersAt(l, samples, i, exp))
        && FewChunks(r.states[moments[i]], l.workers - ReadersAt(l, samples, i, exp)) {
      ShownTwiceTakesEffect(l, samples, n, exp, Fill);
      StarvedSideIsServed(l, samples, n, exp, Fill);
    }
  }

  predicate FewBuffers(s: State, readers: int) { s.free == [] || |s.free| < readers }

  predicate FewChunks(s: State, writers: int) { s.filled == [] || |s.filled| < writers }
}
