/** Every worker that keeps going round its loop makes the copy end, under every interleaving. */
module Fairness {
  import opened Counting
  import opened Pipeline
  import opened Ownership
  import opened History
  import opened Progress
  import opened Copy
  import opened Outcome
  import opened Liveness

  // ---- rounds --------------------------------------------------------------

  predicate AtHead(s: State, w: nat) {
    w < |s.pcs| && s.pcs[w] == Idle(Head)
  }

  /** Between states `m` and `n` worker `w` gets from the loop head to the loop head by steps of its own. */
  ghost predicate Round(r: Run, w: nat, m: nat, n: nat)
    requires m <= n < |r.states| && n <= |r.workers|
  {
    exists a: nat, i: nat, b: nat ::
      m <= a <= i < b <= n && AtHead(r.states[a], w) && r.workers[i] == w && AtHead(r.states[b], w)
  }

  /** Every worker completes a round between states `m` and `n`. */
  ghost predicate FullRound(c: Config, r: Run, m: nat, n: nat) {
    m <= n < |r.states| && n <= |r.workers| && forall w: nat :: w < c.workers ==> Round(r, w, m, n)
  }

  /** No step from state `m` up to state `n` moves a job or a file on. */
  ghost predicate Quietly(c: Config, r: Run, m: nat, n: nat)
    requires m <= n < |r.states| && n <= |r.workers|
  {
    forall i: nat :: m <= i < n ==> !WasProductive(c, r.states[i], r.workers[i])
  }

  // ---- a fruitless step ----------------------------------------------------

  /** What a step that finds nothing leaves alone. */
  ghost predicate Searched(c: Config, s: State, w: nat, t: State) {
    && w < |s.pcs| == |t.pcs| && s.pcs[w].Idle?
    && (forall v :: 0 <= v < |s.pcs| && v != w ==> t.pcs[v] == s.pcs[v])
    && t.filled == s.filled && t.remaining == s.remaining && t.entries == s.entries && s.cursor <= t.cursor
    && (s.cursor < |c.jobs| ==> t.cursor == s.cursor)
    && (if s.remaining == 0 && s.pcs[w] == Idle(Head) then t.pcs[w].Exited? else t.pcs[w].Idle?)
  }

  lemma SearchStep(c: Config, s: State, w: nat, e: Event, t: State)
    requires Next(c, s, w, e, t) && !WasProductive(c, s, w)
    ensures Searched(c, s, w, t)
    ensures exists i: IdlePC :: CanIdle(s, w, i, e) && t == IdleStep(c, s, w, i, e)
  {
    hide WellPlanned;
    var i := s.pcs[w].idle;
    assert CanIdle(s, w, i, e) && t == IdleStep(c, s, w, i, e);
  }

  /** There is something for every worker that looks: a chunk, or a buffer and a job. */
  predicate Supplied(c: Config, s: State) {
    s.filled != [] || (s.free != [] && s.cursor < |c.jobs|)
  }

  /** Where a worker can be that has left the loop head while there was something to find. */
  predicate Onward(s: State, w: nat) {
    && w < |s.pcs|
    && match s.pcs[w]
       case Idle(TryFree(first)) => first || s.filled == []
       case Idle(WaitFree(first)) => first && s.filled != []
       case Idle(HaveBuf(first, _)) => first || s.filled == []
       case Idle(ReturnBuf(first, _)) => first && s.filled != []
       case Idle(TryFilled(first)) => first || s.filled != []
       case Idle(WaitFilled(first)) => first && s.filled == []
       case _ => false
  }

  lemma OwnOnward(c: Config, s: State, w: nat, i: IdlePC, e: Event)
    requires CanIdle(s, w, i, e) && !Productive(c, s, w) && Supplied(c, s) && s.remaining > 0
    requires Onward(s, w) || AtHead(s, w)
    ensures Onward(IdleStep(c, s, w, i, e), w)
  {}

  lemma OthersOnward(s: State, v: nat, w: nat, t: State)
    requires |s.pcs| == |t.pcs| && t.filled == s.filled && v != w && (w < |s.pcs| ==> t.pcs[w] == s.pcs[w])
    ensures Onward(s, w) ==> Onward(t, w)
    ensures AtHead(s, w) ==> AtHead(t, w)
  {}

  /** While there is something to find, a worker that has left the loop head is on its way. */
  lemma {:induction false} LeavesHead(c: Config, r: Run, w: nat, a: nat, n: nat)
    requires IsRun(c, r) && a <= n < |r.states| && Quietly(c, r, a, n) && AtHead(r.states[a], w)
    requires r.states[a].remaining > 0 && forall i :: a <= i < n ==> Supplied(c, r.states[i])
    ensures r.states[n].remaining > 0
    ensures Onward(r.states[n], w) || (AtHead(r.states[n], w) && forall i :: a <= i < n ==> r.workers[i] != w)
  {
    if a < n {
      LeavesHead(c, r, w, a, n - 1);
      hide Next; hide WasProductive; hide Supplied; hide Onward; hide AtHead; hide Init; hide WellPlanned;
      OnwardStep(c, r.states[n - 1], r.workers[n - 1], r.events[n - 1], r.states[n], w);
    }
  }

  lemma OnwardStep(c: Config, s: State, v: nat, e: Event, t: State, w: nat)
    requires Next(c, s, v, e, t) && !WasProductive(c, s, v) && s.remaining > 0 && Supplied(c, s)
    requires Onward(s, w) || AtHead(s, w)
    ensures t.remaining > 0 && (Onward(t, w) || (AtHead(s, w) && AtHead(t, w) && v != w))
  {
    SearchStep(c, s, v, e, t);
    hide Next; hide IdleStep; hide CanIdle; hide Supplied; hide Onward;
    if v == w {
      var i: IdlePC :| CanIdle(s, w, i, e) && t == IdleStep(c, s, w, i, e);
      assert w < |s.pcs|;
      OwnOnward(c, s, w, i, e);
    } else {
      OthersOnward(s, v, w, t);
    }
  }

  /** So nobody completes a round as long as there is something to find. */
  lemma NoRoundYet(c: Config, r: Run, w: nat, m: nat, n: nat)
    requires IsRun(c, r) && m <= n < |r.states| && Quietly(c, r, m, n) && r.states[m].remaining > 0
    requires forall i :: m <= i < n ==> Supplied(c, r.states[i])
    ensures !Round(r, w, m, n)
  {
    if Round(r, w, m, n) {
      var a: nat, i: nat, b: nat :|
        m <= a <= i < b <= n && AtHead(r.states[a], w) && r.workers[i] == w && AtHead(r.states[b], w);
      RemainingStays(c, r, m, a);
      LeavesHead(c, r, w, a, b);
    }
  }

  lemma {:induction false} RemainingStays(c: Config, r: Run, m: nat, n: nat)
    requires IsRun(c, r) && m <= n < |r.states| && Quietly(c, r, m, n)
    ensures r.states[n].remaining == r.states[m].remaining && r.states[n].filled == r.states[m].filled
    ensures r.states[n].entries == r.states[m].entries
    ensures r.states[m].cursor <= r.states[n].cursor
    ensures r.states[m].cursor < |c.jobs| ==> r.states[n].cursor == r.states[m].cursor
  {
    if m < n {
      RemainingStays(c, r, m, n - 1);
      hide Next; hide WasProductive; hide Init; hide WellPlanned;
      SearchStep(c, r.states[n - 1], r.workers[n - 1], r.events[n - 1], r.states[n]);
    }
  }

  // ---- who is where in a fruitless stretch ---------------------------------

  /** A worker that is not looking for work stays where it is; one that is keeps looking. */
  lemma {:induction false} IdleStays(c: Config, r: Run, w: nat, m: nat, n: nat)
    requires IsRun(c, r) && m <= n < |r.states| && Quietly(c, r, m, n) && w < |r.states[m].pcs|
    ensures w < |r.states[n].pcs|
    ensures !r.states[m].pcs[w].Idle? ==> r.states[n].pcs[w] == r.states[m].pcs[w]
    ensures r.states[m].pcs[w].Idle? && r.states[m].remaining > 0 ==> r.states[n].pcs[w].Idle?
    ensures r.states[m].pcs[w].Idle? ==> r.states[n].pcs[w].Idle? || r.states[n].pcs[w].Exited?
  {
    if m < n {
      IdleStays(c, r, w, m, n - 1);
      RemainingStays(c, r, m, n - 1);
      hide Next; hide WasProductive; hide Init; hide WellPlanned;
      SearchStep(c, r.states[n - 1], r.workers[n - 1], r.events[n - 1], r.states[n]);
    }
  }

  lemma {:induction false} HolderStays(c: Config, r: Run, w: nat, m: nat, n: nat)
    requires IsRun(c, r) && m <= n < |r.states| && Quietly(c, r, m, n) && w < |r.states[m].pcs|
    requires r.states[m].cursor < |c.jobs| && r.states[m].pcs[w].Idle? && r.states[m].pcs[w].idle.HaveBuf?
    ensures w < |r.states[n].pcs| && r.states[n].pcs[w] == r.states[m].pcs[w]
  {
    if m < n {
      HolderStays(c, r, w, m, n - 1);
      RemainingStays(c, r, m, n - 1);
      var s, v := r.states[n - 1], r.workers[n - 1];
      assert !WasProductive(c, s, v);
      assert v != w;
      hide Next; hide WasProductive; hide Init; hide WellPlanned;
      SearchStep(c, s, v, r.events[n - 1], r.states[n]);
    }
  }

  /** The first state from `m` on, up to `n`, that has nothing to find, if there is one. */
  lemma {:induction false} FirstUnsupplied(c: Config, r: Run, m: nat, n: nat) returns (k: nat)
    requires m <= n < |r.states|
    ensures m <= k <= n && (forall i :: m <= i < k ==> Supplied(c, r.states[i]))
    ensures k == n || !Supplied(c, r.states[k])
    decreases n - m
  {
    k := m;
    if m < n && Supplied(c, r.states[m]) {
      k := FirstUnsupplied(c, r, m + 1, n);
    }
  }

  lemma AllSearching(c: Config, r: Run, m: nat, n: nat, k: nat)
    requires IsRun(c, r) && m <= k <= n && FullRound(c, r, m, n) && Quietly(c, r, m, n)
    requires r.states[m].remaining > 0
    ensures AllIdle(r.states[k]) && |r.states[k].pcs| == c.workers
  {
    AlwaysInv(c, r, k);
    var s := r.states[k];
    assert |s.pcs| == c.workers;
    hide Inv; hide IsRun; hide Round; hide Quietly;
    forall w: nat | w < |s.pcs| ensures s.pcs[w].Idle? {
      Searches(c, r, w, m, n, k);
    }
  }

  lemma Searches(c: Config, r: Run, w: nat, m: nat, n: nat, k: nat)
    requires IsRun(c, r) && m <= k <= n < |r.states| && Quietly(c, r, m, n) && Round(r, w, m, n)
    requires r.states[m].remaining > 0 && w < |r.states[k].pcs|
    ensures r.states[k].pcs[w].Idle?
  {
    var a: nat, i: nat, b: nat :|
      m <= a <= i < b <= n && AtHead(r.states[a], w) && r.workers[i] == w && AtHead(r.states[b], w);
    if k <= a {
      IdleStays(c, r, w, k, a);
    } else {
      RemainingStays(c, r, m, a);
      IdleStays(c, r, w, a, k);
    }
  }

  /**
   Between states `m` and `n` of any run, under any interleaving, any role answers and any wait
   outcomes: if work remains at `m` and every worker completes a round of its loop, some step moved a
   job or a file on.
   */
  lemma RoundsAreProductive(c: Config, r: Run, m: nat, n: nat)
    requires IsRun(c, r) && FullRound(c, r, m, n) && r.states[m].remaining > 0
    ensures !Quietly(c, r, m, n)
  {
    if Quietly(c, r, m, n) {
      NobodyLeftBehind(c, r, m, n);
    }
  }

  lemma NobodyLeftBehind(c: Config, r: Run, m: nat, n: nat)
    requires IsRun(c, r) && m <= n < |r.states| && r.states[m].remaining > 0 && Quietly(c, r, m, n)
    ensures !FullRound(c, r, m, n)
  {
    if FullRound(c, r, m, n) {
      var k := FirstUnsupplied(c, r, m, n);
      AllSearching(c, r, m, n, k);
      AlwaysInv(c, r, k);
      assert c.workers > 0 && |r.states[k].pcs| == c.workers;
      hide IsRun; hide Round;
      NoRoundYet(c, r, 0, m, k);
      RemainingStays(c, r, m, k);
      if !Supplied(c, r.states[k]) {
        WorkToFind(c, r.states[k]);
        hide Inv;
        var v: nat :| v < |r.states[k].pcs| && r.states[k].pcs[v].idle.HaveBuf?;
        NoRoundYet(c, r, v, m, k);
        RoundEndsEarly(c, r, v, m, k, n);
      }
    }
  }

  /** A worker stuck with a buffer from state `k` on has completed its round before. */
  lemma RoundEndsEarly(c: Config, r: Run, v: nat, m: nat, k: nat, n: nat)
    requires IsRun(c, r) && m <= k <= n < |r.states| && Quietly(c, r, m, n) && Round(r, v, m, n)
    requires v < |r.states[k].pcs| && r.states[k].cursor < |c.jobs|
    requires r.states[k].pcs[v].Idle? && r.states[k].pcs[v].idle.HaveBuf?
    ensures Round(r, v, m, k)
  {
    var a: nat, i: nat, b: nat :|
      m <= a <= i < b <= n && AtHead(r.states[a], v) && r.workers[i] == v && AtHead(r.states[b], v);
    if k <= b {
      HolderStays(c, r, v, k, b);
    }
  }

  // ---- only so many rounds -------------------------------------------------

  /** Once no job remains a worker leaves its loop at the loop head, and never comes back. */
  lemma {:induction false} LeavesLoop(c: Config, r: Run, w: nat, m: nat, n: nat)
    requires IsRun(c, r) && m <= n < |r.states| && w < |r.states[m].pcs|
    requires r.states[m].remaining == 0 && (AtHead(r.states[m], w) || r.states[m].pcs[w].Exited?)
    ensures r.states[n].remaining == 0 && w < |r.states[n].pcs|
    ensures r.states[m].pcs[w].Exited? ==> r.states[n].pcs[w].Exited?
    ensures r.states[n].pcs[w].Exited? || (AtHead(r.states[n], w) && forall i :: m <= i < n ==> r.workers[i] != w)
  {
    hide IsRun;
    if m < n {
      LeavesLoop(c, r, w, m, n - 1);
      LoopNext(c, r, w, n - 1);
    }
  }

  lemma LoopNext(c: Config, r: Run, w: nat, n: nat)
    requires IsRun(c, r) && n + 1 < |r.states| && r.states[n].remaining == 0 && w < |r.states[n].pcs|
    ensures n < |r.workers| && r.states[n + 1].remaining == 0 && |r.states[n].pcs| == |r.states[n + 1].pcs|
    ensures r.workers[n] != w ==> r.states[n + 1].pcs[w] == r.states[n].pcs[w]
    ensures AtHead(r.states[n], w) && r.workers[n] != w ==> AtHead(r.states[n + 1], w)
    ensures AtHead(r.states[n], w) && r.workers[n] == w ==> r.states[n + 1].pcs[w].Exited?
    ensures r.states[n].pcs[w].Exited? ==> r.workers[n] != w && r.states[n + 1].pcs[w].Exited?
  {
    hide Init; hide WellPlanned; hide Next;
    assert Next(c, r.states[n], r.workers[n], r.events[n], r.states[n + 1]);
    LoopStep(c, r.states[n], r.workers[n], r.events[n], r.states[n + 1], w);
  }

  lemma LoopStep(c: Config, s: State, v: nat, e: Event, t: State, w: nat)
    requires Next(c, s, v, e, t) && s.remaining == 0 && w < |s.pcs|
    ensures t.remaining == 0 && v < |s.pcs| == |t.pcs| && (v != w ==> t.pcs[w] == s.pcs[w])
    ensures v == w && AtHead(s, w) ==> t.pcs[w].Exited?
    ensures v == w ==> !s.pcs[w].Exited?
  {
    LocalStep(c, s, v, e, t);
    NothingToRetire(c, s, v, e, t);
    hide Shape; hide WellPlanned; hide ReadStep; hide DropStep; hide PrepareStep; hide WriteStep; hide FinStep;
  }

  lemma NothingToRetire(c: Config, s: State, v: nat, e: Event, t: State)
    requires Next(c, s, v, e, t) && s.remaining == 0
    ensures t.remaining == 0
  {
    hide Shape; hide WellPlanned; hide PrepareStep; hide WriteStep; hide FinStep;
    match s.pcs[v]
    case Idle(_) =>
    case Reading(_, _, _) =>
    case Dropping(_, _, _) =>
    case Writing(k, p) =>
      if PreparePC(p) { PrepareRetires(c, s, v, k, p, e); } else { WriteRetires(c, s, v, k, p, e); }
    case Finishing(f, p) => FinRetires(c, s, v, f, p, e);
  }

  lemma PrepareRetires(c: Config, s: State, v: nat, k: Chunk, p: WritePC, e: Event)
    requires CanPrepare(c, s, v, k, p, e)
    ensures PrepareStep(c, s, v, k, p, e).remaining == s.remaining
  {}

  lemma WriteRetires(c: Config, s: State, v: nat, k: Chunk, p: WritePC, e: Event)
    requires CanWrite(c, s, v, k, p, e)
    ensures WriteStep(c, s, v, k, p, e).remaining <= s.remaining
  {
    hide WriteAt;
  }

  lemma FinRetires(c: Config, s: State, v: nat, f: nat, p: FinPC, e: Event)
    requires CanFin(c, s, v, f, p, e)
    ensures FinStep(c, s, v, f, p, e).remaining == s.remaining
  {
    hide SetLen;
  }

  lemma NoRoundWhenDone(c: Config, r: Run, w: nat, m: nat, n: nat)
    requires IsRun(c, r) && m <= n < |r.states| && w < c.workers && r.states[m].remaining == 0
    ensures !Round(r, w, m, n)
  {
    if Round(r, w, m, n) {
      var a: nat, i: nat, b: nat :|
        m <= a <= i < b <= n && AtHead(r.states[a], w) && r.workers[i] == w && AtHead(r.states[b], w);
      StaysDone(c, r, m, a);
      LeavesLoop(c, r, w, a, b);
    }
  }

  lemma {:induction false} StaysDone(c: Config, r: Run, m: nat, n: nat)
    requires IsRun(c, r) && m <= n < |r.states| && r.states[m].remaining == 0
    ensures r.states[n].remaining == 0
  {
    if m < n {
      StaysDone(c, r, m, n - 1);
      hide Init; hide WellPlanned; hide Next;
      NothingToRetire(c, r.states[n - 1], r.workers[n - 1], r.events[n - 1], r.states[n]);
    }
  }

  /** The run is cut so that every worker completes a round of its loop between any two cuts. */
  ghost predicate RoundCuts(c: Config, r: Run, cuts: seq<nat>)
    requires |r.states| == |r.workers| + 1
  {
    && (forall i :: 0 <= i < |cuts| ==> cuts[i] <= |r.workers|)
    && (forall i :: 0 < i < |cuts| ==> FullRound(c, r, cuts[i - 1], cuts[i]))
  }

  lemma {:induction false} ProductiveGrows(c: Config, r: Run, m: nat, n: nat)
    requires |r.states| == |r.workers| + 1 && m <= n <= |r.workers|
    ensures ProductiveSteps(c, r.states, r.workers, m) <= ProductiveSteps(c, r.states, r.workers, n)
    ensures !Quietly(c, r, m, n) ==>
              ProductiveSteps(c, r.states, r.workers, m) < ProductiveSteps(c, r.states, r.workers, n)
  {
    if m < n {
      ProductiveGrows(c, r, m, n - 1);
    }
  }

  lemma {:induction false} EachCutCounts(c: Config, r: Run, cuts: seq<nat>, k: nat)
    requires IsRun(c, r) && RoundCuts(c, r, cuts) && k < |cuts|
    ensures k <= ProductiveSteps(c, r.states, r.workers, cuts[k])
  {
    if k > 0 {
      EachCutCounts(c, r, cuts, k - 1);
      CutCounts(c, r, cuts[k - 1], cuts[k]);
    }
  }

  lemma CutCounts(c: Config, r: Run, m: nat, n: nat)
    requires IsRun(c, r) && FullRound(c, r, m, n)
    ensures ProductiveSteps(c, r.states, r.workers, m) < ProductiveSteps(c, r.states, r.workers, n)
  {
    SomeWorker(c, r);
    hide IsRun; hide Round; hide ProductiveSteps; hide Quietly;
    if r.states[m].remaining == 0 {
      NoRoundWhenDone(c, r, 0, m, n);
    }
    RoundsAreProductive(c, r, m, n);
    ProductiveGrows(c, r, m, n);
  }

  lemma SomeWorker(c: Config, r: Run)
    requires IsRun(c, r)
    ensures c.workers > 0 && |r.states| == |r.workers| + 1 == |r.events| + 1
  {
    hide Next;
  }

  /** No run has more than 27 full rounds of all its workers per planned chunk. */
  lemma RoundsAreBounded(c: Config, r: Run, cuts: seq<nat>)
    requires IsRun(c, r) && RoundCuts(c, r, cuts) && cuts != []
    ensures |cuts| - 1 <= CLAIM * |c.jobs|
  {
    hide IsRun; hide RoundCuts; hide ProductiveSteps; hide Measure;
    var last: nat := |cuts| - 1;
    CutInRange(c, r, cuts);
    EachCutCounts(c, r, cuts, last);
    BoundedWork(c, r, cuts[last]);
  }

  lemma CutInRange(c: Config, r: Run, cuts: seq<nat>)
    requires IsRun(c, r) && RoundCuts(c, r, cuts) && cuts != []
    ensures |r.states| == |r.workers| + 1 && cuts[|cuts| - 1] <= |r.workers|
  {
    hide Next;
  }

  // ---- a run that can no longer move is over -------------------------------

  ghost predicate CanMove(c: Config, s: State, w: nat) {
    exists e: Event, t: State :: Next(c, s, w, e, t)
  }

  lemma IdleCanMove(c: Config, s: State, w: nat)
    requires Inv(c, s) && w < c.workers && s.pcs[w].Idle?
    ensures CanMove(c, s, w)
  {
    hide Next;
    var e, t := SearchMoves(c, s, w);
  }

  lemma SomebodyCanMove(c: Config, s: State, w: nat) returns (v: nat)
    requires Inv(c, s) && w < c.workers && !s.pcs[w].Idle? && !s.pcs[w].Exited?
    ensures v < c.workers && CanMove(c, s, v)
  {
    v := Mover(c, s, w);
    MovableWorker(c, s, v);
  }

  /** In a reachable state in which no worker can move, all have left their loops. */
  lemma StuckMeansExited(c: Config, s: State)
    requires Inv(c, s) && forall w: nat :: w < c.workers ==> !CanMove(c, s, w)
    ensures AllExited(s)
  {
    assert |s.pcs| == c.workers;
    hide Next; hide Inv;
    forall w: nat | w < |s.pcs| ensures s.pcs[w].Exited? {
      if s.pcs[w].Idle? {
        IdleCanMove(c, s, w);
      } else if !s.pcs[w].Exited? {
        var v := SomebodyCanMove(c, s, w);
      }
    }
  }

  // ---- endless runs --------------------------------------------------------

  datatype Endless = Endless(states: nat -> State, workers: nat -> nat, events: nat -> Event)

  ghost predicate IsEndless(c: Config, x: Endless) {
    && WellPlanned(c) && Init(c, x.states(0))
    && forall i: nat :: Next(c, x.states(i), x.workers(i), x.events(i), x.states(i + 1))
  }

  ghost function Prefix(x: Endless, n: nat): (r: Run)
    ensures |r.states| == n + 1 && |r.workers| == |r.events| == n
    ensures forall i: nat :: i <= n ==> r.states[i] == x.states(i)
    ensures forall i: nat :: i < n ==> r.workers[i] == x.workers(i) && r.events[i] == x.events(i)
  {
    if n == 0 then Run([x.states(0)], [], [])
    else
      var p := Prefix(x, n - 1);
      Run(p.states + [x.states(n)], p.workers + [x.workers(n - 1)], p.events + [x.events(n - 1)])
  }

  lemma PrefixIsRun(c: Config, x: Endless, n: nat)
    requires IsEndless(c, x)
    ensures IsRun(c, Prefix(x, n))
  {
    hide Next; hide Init; hide WellPlanned; hide Prefix;
    var r := Prefix(x, n);
    forall i: nat | i < n ensures Next(c, r.states[i], r.workers[i], r.events[i], r.states[i + 1]) {
      assert Next(c, x.states(i), x.workers(i), x.events(i), x.states(i + 1));
    }
  }

  /** The scheduler of the operating system gives the worker a step, or it cannot take one. */
  ghost predicate TurnComes(c: Config, x: Endless, w: nat, m: nat) {
    x.workers(m) == w || !CanMove(c, x.states(m), w)
  }

  ghost predicate TurnComesAfter(c: Config, x: Endless, w: nat, n: nat) {
    exists m: nat :: n <= m && TurnComes(c, x, w, m)
  }

  /** The worker is inside a call that waits for a free buffer, or for a filled chunk. */
  predicate Waits(s: State, w: nat, forFree: bool) {
    && w < |s.pcs|
    && match s.pcs[w]
       case Idle(TryFree(_)) => forFree
       case Idle(WaitFree(_)) => forFree
       case Idle(TryFilled(_)) => !forFree
       case Idle(WaitFilled(_)) => !forFree
       case _ => false
  }

  ghost predicate WaitEndsAfter(x: Endless, w: nat, forFree: bool, n: nat) {
    exists m: nat :: n <= m && !Waits(x.states(m), w, forFree)
  }

  /**
   Fairness: no worker that can move is passed over for ever, and every call that waits returns.
   Nothing is asked of role answers, of wait outcomes or of the order of steps.
   */
  ghost predicate Fair(c: Config, x: Endless) {
    && (forall w: nat, n: nat :: w < c.workers ==> TurnComesAfter(c, x, w, n))
    && (forall w: nat, n: nat, forFree: bool :: w < c.workers ==> WaitEndsAfter(x, w, forFree, n))
  }

  ghost predicate QuietFrom(c: Config, x: Endless, n: nat) {
    forall i: nat :: n <= i ==> !WasProductive(c, x.states(i), x.workers(i))
  }

  // ---- productive steps run out --------------------------------------------

  lemma CountGrows(c: Config, x: Endless, m: nat, n: nat)
    requires IsEndless(c, x) && m <= n && WasProductive(c, x.states(n), x.workers(n))
    ensures ProductiveSteps(c, Prefix(x, m).states, Prefix(x, m).workers, m)
          < ProductiveSteps(c, Prefix(x, n + 1).states, Prefix(x, n + 1).workers, n + 1) <= CLAIM * |c.jobs|
  {
    hide IsEndless; hide IsRun; hide Measure; hide Prefix; hide WasProductive;
    var r := Prefix(x, n + 1);
    SameCount(c, x, m, n + 1, m);
    SameCount(c, x, n, n + 1, n);
    PrefixIsRun(c, x, n + 1);
    assert r.states[n] == x.states(n) && r.workers[n] == x.workers(n);
    ProductiveGrows(c, r, m, n);
    BoundedWork(c, r, n + 1);
  }

  lemma {:induction false} SameCount(c: Config, x: Endless, m: nat, n: nat, k: nat)
    requires k <= m <= n
    ensures ProductiveSteps(c, Prefix(x, m).states, Prefix(x, m).workers, k)
         == ProductiveSteps(c, Prefix(x, n).states, Prefix(x, n).workers, k)
  {
    hide Prefix; hide WasProductive;
    if k > 0 {
      SameCount(c, x, m, n, k - 1);
    }
  }

  lemma NextProductive(c: Config, x: Endless, n: nat) returns (i: nat)
    requires !QuietFrom(c, x, n)
    ensures n <= i && WasProductive(c, x.states(i), x.workers(i))
  {
    hide WasProductive;
    i :| n <= i && WasProductive(c, x.states(i), x.workers(i));
  }

  /** From some point on an endless run only searches. */
  lemma {:induction false} QuietPoint(c: Config, x: Endless, n: nat) returns (q: nat)
    requires IsEndless(c, x)
    ensures n <= q && QuietFrom(c, x, q)
    decreases CLAIM * |c.jobs| - ProductiveSteps(c, Prefix(x, n).states, Prefix(x, n).workers, n)
  {
    hide IsEndless; hide QuietFrom; hide ProductiveSteps; hide WasProductive; hide Prefix;
    if QuietFrom(c, x, n) {
      q := n;
    } else {
      var i := NextProductive(c, x, n);
      CountGrows(c, x, n, i);
      q := QuietPoint(c, x, i + 1);
    }
  }

  lemma QuietPrefix(c: Config, x: Endless, q: nat, n: nat)
    requires IsEndless(c, x) && QuietFrom(c, x, q) && q <= n
    ensures IsRun(c, Prefix(x, n)) && Quietly(c, Prefix(x, n), q, n)
  {
    hide IsEndless; hide WasProductive; hide Prefix; hide IsRun;
    PrefixIsRun(c, x, n);
  }

  lemma QuietAt(c: Config, x: Endless, q: nat, m: nat)
    requires QuietFrom(c, x, q) && q <= m
    ensures !WasProductive(c, x.states(m), x.workers(m))
  {}

  lemma SearchAt(c: Config, x: Endless, q: nat, i: nat)
    requires IsEndless(c, x) && QuietFrom(c, x, q) && q <= i
    ensures Next(c, x.states(i), x.workers(i), x.events(i), x.states(i + 1))
    ensures !WasProductive(c, x.states(i), x.workers(i)) && Searched(c, x.states(i), x.workers(i), x.states(i + 1))
  {
    hide Next; hide Init; hide WellPlanned; hide WasProductive; hide Searched;
    SearchStep(c, x.states(i), x.workers(i), x.events(i), x.states(i + 1));
  }

  lemma EndlessInv(c: Config, x: Endless, n: nat)
    requires IsEndless(c, x)
    ensures Inv(c, x.states(n)) && |x.states(n).pcs| == c.workers > 0
  {
    hide IsEndless; hide IsRun; hide Prefix;
    PrefixIsRun(c, x, n);
    AlwaysInv(c, Prefix(x, n), n);
  }

  /** Then no worker is busy: it, or the holder of the mutex it waits for, would be given a step. */
  lemma NobodyBusy(c: Config, x: Endless, q: nat, w: nat)
    requires IsEndless(c, x) && Fair(c, x) && QuietFrom(c, x, q) && w < c.workers
    ensures w < |x.states(q).pcs| && (x.states(q).pcs[w].Idle? || x.states(q).pcs[w].Exited?)
  {
    hide IsEndless; hide Inv; hide CanMove; hide IsRun; hide Prefix; hide Quietly;
    EndlessInv(c, x, q);
    var s := x.states(q);
    if !s.pcs[w].Idle? && !s.pcs[w].Exited? {
      var v := Mover(c, s, w);
      assert TurnComesAfter(c, x, v, q);
      var m: nat :| q <= m && TurnComes(c, x, v, m);
      QuietPrefix(c, x, q, m);
      IdleStays(c, Prefix(x, m), v, q, m);
      RemainingStays(c, Prefix(x, m), q, m);
      EndlessInv(c, x, m);
      QuietAt(c, x, q, m);
      StillMovable(c, s, x.states(m), v);
    }
  }

  lemma StillMovable(c: Config, s: State, t: State, v: nat)
    requires Inv(c, t) && v < c.workers && v < |s.pcs| && v < |t.pcs| && t.pcs[v] == s.pcs[v] && t.entries == s.entries
    requires !s.pcs[v].Idle? && !s.pcs[v].Exited? && |s.entries| == |c.files|
    requires forall f: nat :: f < |c.files| && WaitsFor(s.pcs[v], f) ==> s.entries[f].lock.Unlocked?
    ensures CanMove(c, t, v) && WasProductive(c, t, v)
  {
    hide Next;
    MovableWorker(c, t, v);
  }

  // ---- every searcher gets back to the loop head ---------------------------

  /** How far round its loop a searching worker is; the waits in one place count alike. */
  function Stage(i: IdlePC): nat {
    match i
    case TryFree(first) => if first then 9 else 5
    case WaitFree(first) => if first then 9 else 5
    case HaveBuf(first, _) => if first then 8 else 4
    case ReturnBuf(first, _) => if first then 7 else 3
    case TryFilled(first) => if first then 6 else 2
    case WaitFilled(first) => if first then 6 else 2
    case Head => 0
  }

  predicate SearchesAt(s: State, w: nat) {
    w < |s.pcs| && s.pcs[w].Idle?
  }

  lemma StageStep(c: Config, s: State, w: nat, e: Event, t: State)
    requires Next(c, s, w, e, t) && !WasProductive(c, s, w) && !AtHead(s, w)
    ensures SearchesAt(s, w) && SearchesAt(t, w) && Stage(t.pcs[w].idle) <= Stage(s.pcs[w].idle)
    ensures Waits(s, w, true) || Waits(s, w, false) || Stage(t.pcs[w].idle) < Stage(s.pcs[w].idle)
  {
    hide WellPlanned; hide Shape;
  }

  /** A searcher has passed the loop head, or is no farther from it than before. */
  lemma {:induction false} StageFalls(c: Config, x: Endless, q: nat, w: nat, m: nat, n: nat)
    requires IsEndless(c, x) && QuietFrom(c, x, q) && q <= m <= n && SearchesAt(x.states(m), w)
    ensures (exists h: nat :: m <= h <= n && AtHead(x.states(h), w))
         || (SearchesAt(x.states(n), w) && Stage(x.states(n).pcs[w].idle) <= Stage(x.states(m).pcs[w].idle))
  {
    hide IsEndless; hide QuietFrom; hide Next; hide WasProductive; hide Stage;
    if m < n {
      StageFalls(c, x, q, w, m, n - 1);
      SearchAt(c, x, q, n - 1);
      if !AtHead(x.states(n - 1), w) && x.workers(n - 1) == w {
        StageStep(c, x.states(n - 1), w, x.events(n - 1), x.states(n));
      }
    }
  }

  /** A searcher that waits at `n` has passed the loop head or come closer to it once the wait is over. */
  lemma WaitEnds(c: Config, x: Endless, q: nat, w: nat, n: nat) returns (m: nat)
    requires IsEndless(c, x) && Fair(c, x) && QuietFrom(c, x, q) && q <= n && w < c.workers
    requires SearchesAt(x.states(n), w) && (Waits(x.states(n), w, true) || Waits(x.states(n), w, false))
    ensures n <= m
    ensures (exists h: nat :: n <= h <= m && AtHead(x.states(h), w))
         || (SearchesAt(x.states(m), w) && Stage(x.states(m).pcs[w].idle) < Stage(x.states(n).pcs[w].idle))
  {
    hide IsEndless; hide QuietFrom;
    var forFree := Waits(x.states(n), w, true);
    assert WaitEndsAfter(x, w, forFree, n);
    m :| n <= m && !Waits(x.states(m), w, forFree);
    StageFalls(c, x, q, w, n, m);
  }

  lemma TurnEnds(c: Config, x: Endless, q: nat, w: nat, n: nat) returns (m: nat)
    requires IsEndless(c, x) && Fair(c, x) && QuietFrom(c, x, q) && q <= n && w < c.workers
    requires SearchesAt(x.states(n), w) && !Waits(x.states(n), w, true) && !Waits(x.states(n), w, false)
    requires !AtHead(x.states(n), w)
    ensures n <= m
    ensures (exists h: nat :: n <= h <= m && AtHead(x.states(h), w))
         || (SearchesAt(x.states(m), w) && Stage(x.states(m).pcs[w].idle) < Stage(x.states(n).pcs[w].idle))
  {
    hide QuietFrom; hide Next; hide Init; hide WellPlanned; hide CanMove; hide Inv;
    assert TurnComesAfter(c, x, w, n);
    var k: nat :| n <= k && TurnComes(c, x, w, k);
    StageFalls(c, x, q, w, n, k);
    if exists h: nat :: n <= h <= k && AtHead(x.states(h), w) {
      m := k;
    } else {
      EndlessInv(c, x, k);
      IdleCanMove(c, x.states(k), w);
      QuietAt(c, x, q, k);
      assert Next(c, x.states(k), w, x.events(k), x.states(k + 1));
      assert !AtHead(x.states(k), w);
      m := k + 1;
      StageStep(c, x.states(k), w, x.events(k), x.states(m));
      if Stage(x.states(n).pcs[w].idle) == Stage(x.states(k).pcs[w].idle) {
        SameStageSamePlace(x.states(n), x.states(k), w);
      }
    }
  }

  lemma SameStageSamePlace(s: State, t: State, w: nat)
    requires SearchesAt(s, w) && SearchesAt(t, w) && Stage(s.pcs[w].idle) == Stage(t.pcs[w].idle)
    ensures Waits(s, w, true) == Waits(t, w, true) && Waits(s, w, false) == Waits(t, w, false)
  {}

  /** In a fair run that only searches, every searcher reaches the loop head. */
  lemma {:induction false} ReachesHead(c: Config, x: Endless, q: nat, w: nat, n: nat) returns (h: nat)
    requires IsEndless(c, x) && Fair(c, x) && QuietFrom(c, x, q) && q <= n && w < c.workers
    requires SearchesAt(x.states(n), w)
    ensures n <= h && AtHead(x.states(h), w)
    decreases Stage(x.states(n).pcs[w].idle)
  {
    hide IsEndless; hide Fair; hide QuietFrom; hide Stage;
    if AtHead(x.states(n), w) {
      h := n;
    } else {
      var m: nat;
      if Waits(x.states(n), w, true) || Waits(x.states(n), w, false) {
        m := WaitEnds(c, x, q, w, n);
      } else {
        m := TurnEnds(c, x, q, w, n);
      }
      if exists g: nat :: n <= g <= m && AtHead(x.states(g), w) {
        h :| n <= h <= m && AtHead(x.states(h), w);
      } else {
        h := ReachesHead(c, x, q, w, m);
      }
    }
  }

  /** ... and steps on from it. */
  lemma LeavesHeadAgain(c: Config, x: Endless, q: nat, w: nat, h: nat) returns (i: nat)
    requires IsEndless(c, x) && Fair(c, x) && QuietFrom(c, x, q) && q <= h && w < c.workers
    requires AtHead(x.states(h), w)
    ensures h <= i && x.workers(i) == w
  {
    hide IsEndless; hide QuietFrom; hide CanMove; hide Inv;
    assert TurnComesAfter(c, x, w, h);
    i :| h <= i && TurnComes(c, x, w, i);
    if x.workers(i) != w {
      EndlessInv(c, x, i);
      i := OwnStep(c, x, q, w, h, i);
    }
  }

  /** A worker that no longer is where it was has taken a step. */
  lemma {:induction false} OwnStep(c: Config, x: Endless, q: nat, w: nat, h: nat, n: nat) returns (i: nat)
    requires IsEndless(c, x) && QuietFrom(c, x, q) && q <= h <= n && AtHead(x.states(h), w)
    requires w < c.workers && !CanMove(c, x.states(n), w)
    ensures h <= i && x.workers(i) == w
  {
    if i0 :| h <= i0 < n && x.workers(i0) == w {
      i := i0;
    } else {
      StandsStill(c, x, q, w, h, n);
      EndlessInv(c, x, n);
      IdleCanMove(c, x.states(n), w);
      i := n;
    }
  }

  lemma {:induction false} StandsStill(c: Config, x: Endless, q: nat, w: nat, m: nat, n: nat)
    requires IsEndless(c, x) && QuietFrom(c, x, q) && q <= m <= n && w < |x.states(m).pcs|
    requires forall i: nat :: m <= i < n ==> x.workers(i) != w
    ensures w < |x.states(n).pcs| && x.states(n).pcs[w] == x.states(m).pcs[w]
  {
    hide IsEndless; hide QuietFrom; hide Next; hide WasProductive;
    if m < n {
      StandsStill(c, x, q, w, m, n - 1);
      SearchAt(c, x, q, n - 1);
    }
  }

  // ---- no fair run goes on for ever ----------------------------------------

  lemma StillSearches(c: Config, x: Endless, q: nat, w: nat, m: nat, n: nat)
    requires IsEndless(c, x) && QuietFrom(c, x, q) && q <= m <= n && SearchesAt(x.states(m), w)
    requires x.states(q).remaining > 0
    ensures SearchesAt(x.states(n), w)
  {
    hide IsEndless; hide QuietFrom; hide IsRun; hide Quietly; hide Prefix;
    QuietPrefix(c, x, q, m);
    QuietPrefix(c, x, m, n) by { assert QuietFrom(c, x, m) by { LaterQuiet(c, x, q, m); } }
    RemainingStays(c, Prefix(x, m), q, m);
    IdleStays(c, Prefix(x, n), w, m, n);
  }

  lemma LaterQuiet(c: Config, x: Endless, q: nat, m: nat)
    requires QuietFrom(c, x, q) && q <= m
    ensures QuietFrom(c, x, m)
  {}

  lemma RoundOf(c: Config, x: Endless, q: nat, w: nat) returns (n: nat)
    requires IsEndless(c, x) && Fair(c, x) && QuietFrom(c, x, q) && w < c.workers
    requires SearchesAt(x.states(q), w) && x.states(q).remaining > 0
    ensures q <= n && Round(Prefix(x, n), w, q, n)
  {
    hide IsEndless; hide Fair; hide QuietFrom; hide Prefix;
    var a := ReachesHead(c, x, q, w, q);
    var i := LeavesHeadAgain(c, x, q, w, a);
    StillSearches(c, x, q, w, a, i + 1);
    n := ReachesHead(c, x, q, w, i + 1);
    var r := Prefix(x, n);
    assert AtHead(r.states[a], w) && r.workers[i] == w && AtHead(r.states[n], w);
  }

  lemma RoundCounts(x: Endless, w: nat, q: nat, m: nat, n: nat)
    requires q <= m <= n && Round(Prefix(x, m), w, q, m)
    ensures Round(Prefix(x, n), w, q, n)
  {
    hide Prefix;
    var r, u := Prefix(x, m), Prefix(x, n);
    var a: nat, i: nat, b: nat :|
      q <= a <= i < b <= m && AtHead(r.states[a], w) && r.workers[i] == w && AtHead(r.states[b], w);
    assert AtHead(u.states[a], w) && u.workers[i] == w && AtHead(u.states[b], w);
  }

  lemma {:induction false} RoundsOf(c: Config, x: Endless, q: nat, k: nat) returns (n: nat)
    requires IsEndless(c, x) && Fair(c, x) && QuietFrom(c, x, q) && k <= c.workers
    requires x.states(q).remaining > 0 && forall w: nat :: w < k ==> SearchesAt(x.states(q), w)
    ensures q <= n && forall w: nat :: w < k ==> Round(Prefix(x, n), w, q, n)
  {
    hide IsEndless; hide Fair; hide QuietFrom; hide Prefix; hide Round;
    if k == 0 {
      n := q;
    } else {
      var m := RoundsOf(c, x, q, k - 1);
      var l := RoundOf(c, x, q, k - 1);
      n := if m <= l then l else m;
      forall w: nat | w < k ensures Round(Prefix(x, n), w, q, n) {
        RoundCounts(x, w, q, if w == k - 1 then l else m, n);
      }
    }
  }

  lemma WorkRunsOut(c: Config, x: Endless, q: nat)
    requires IsEndless(c, x) && Fair(c, x) && QuietFrom(c, x, q)
    ensures x.states(q).remaining == 0
  {
    if x.states(q).remaining > 0 {
      EndlessInv(c, x, q);
      hide IsEndless; hide Fair; hide QuietFrom; hide Prefix; hide Round; hide Quietly;
      forall w: nat | w < c.workers ensures SearchesAt(x.states(q), w) {
        NobodyBusy(c, x, q, w);
        NobodyGone(c, x.states(q), w);
      }
      var n := RoundsOf(c, x, q, c.workers);
      QuietPrefix(c, x, q, n);
      RoundsAreProductive(c, Prefix(x, n), q, n);
    }
  }

  lemma NobodyGone(c: Config, s: State, w: nat)
    requires Inv(c, s) && w < |s.pcs| && s.remaining > 0
    ensures !s.pcs[w].Exited?
  {
    assert IdleFacts(c, s, s.pcs[w]);
  }

  predicate Gone(s: State, w: nat) {
    w < |s.pcs| && s.pcs[w].Exited?
  }

  lemma ExitOf(c: Config, x: Endless, q: nat, w: nat) returns (n: nat)
    requires IsEndless(c, x) && Fair(c, x) && QuietFrom(c, x, q) && w < c.workers && x.states(q).remaining == 0
    ensures q <= n && Gone(x.states(n), w)
  {
    hide IsEndless; hide Fair; hide QuietFrom; hide Prefix; hide IsRun; hide Quietly;
    NobodyBusy(c, x, q, w);
    if x.states(q).pcs[w].Exited? {
      n := q;
    } else {
      var h := ReachesHead(c, x, q, w, q);
      var i := LeavesHeadAgain(c, x, q, w, h);
      n := i + 1;
      var r := Prefix(x, n);
      PrefixIsRun(c, x, n);
      StaysDone(c, r, q, h);
      assert r.states[h] == x.states(h) && r.states[n] == x.states(n) && r.workers[i] == w;
      LeavesLoop(c, r, w, h, n);
    }
  }

  lemma {:induction false} ExitsOf(c: Config, x: Endless, q: nat, k: nat) returns (n: nat)
    requires IsEndless(c, x) && Fair(c, x) && QuietFrom(c, x, q) && k <= c.workers && x.states(q).remaining == 0
    ensures q <= n && forall w: nat :: w < k ==> Gone(x.states(n), w)
  {
    hide IsEndless; hide Fair; hide QuietFrom; hide Prefix; hide IsRun;
    if k == 0 {
      n := q;
    } else {
      var m := ExitsOf(c, x, q, k - 1);
      var l := ExitOf(c, x, q, k - 1);
      n := if m <= l then l else m;
      PrefixIsRun(c, x, n);
      var r := Prefix(x, n);
      StaysDone(c, r, q, m);
      StaysDone(c, r, q, l);
      assert r.states[m] == x.states(m) && r.states[l] == x.states(l) && r.states[n] == x.states(n);
      forall w: nat | w < k ensures Gone(x.states(n), w) {
        if w == k - 1 {
          LeavesLoop(c, r, w, l, n);
        } else {
          assert Gone(x.states(m), w);
          LeavesLoop(c, r, w, m, n);
        }
      }
    }
  }

  /**
   Every fair run ends.  With `StuckMeansExited` it ends only when all workers have left their loops:
   whatever the schedule, the roles, the waits and the outcomes of the operations.
   */
  lemma FairRunsEnd(c: Config, x: Endless)
    requires IsEndless(c, x)
    ensures !Fair(c, x)
  {
    if Fair(c, x) {
      var q := QuietPoint(c, x, 0);
      WorkRunsOut(c, x, q);
      var n := ExitsOf(c, x, q, c.workers);
      PrefixIsRun(c, x, n);
      StaysDone(c, Prefix(x, n), q, n);
      hide Fair; hide QuietFrom; hide Prefix; hide IsRun; hide Init; hide WellPlanned;
      EndlessInv(c, x, n);
      NobodySteps(c, x.states(n), x.workers(n), x.events(n), x.states(n + 1));
    }
  }

  lemma NobodySteps(c: Config, s: State, w: nat, e: Event, t: State)
    requires |s.pcs| == c.workers && forall v: nat :: v < c.workers ==> Gone(s, v)
    ensures !Next(c, s, w, e, t)
  {
    assert w < c.workers ==> Gone(s, w);
  }
}
