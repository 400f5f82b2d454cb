/** No deadlock, and a bound on the work of every run. */
module Liveness {
  import opened Counting
  import opened Pipeline
  import opened Ownership
  import opened History
  import opened Progress
  import opened Copy

  // ---- every run does a bounded amount of work -----------------------------

  predicate WasProductive(c: Config, s: State, w: nat) {
    w < |s.pcs| && Productive(c, s, w)
  }

  /** How many of the first `n` steps moved a job or a file on. */
  function ProductiveSteps(c: Config, states: seq<State>, workers: seq<nat>, n: nat): nat
    requires n <= |workers| < |states|
  {
    if n == 0 then 0
    else ProductiveSteps(c, states, workers, n - 1) + Bit(WasProductive(c, states[n - 1], workers[n - 1]))
  }

  lemma InitMeasure(c: Config, s: State)
    requires Init(c, s)
    ensures Measure(c, s) == CLAIM * |c.jobs|
  {
    SumZero(s.pcs, Ranks());
  }

  /** However workers are scheduled, a run takes at most 27 productive steps per planned chunk. */
  lemma {:induction false} BoundedWork(c: Config, r: Run, n: nat)
    requires IsRun(c, r) && n <= |r.workers|
    ensures ProductiveSteps(c, r.states, r.workers, n) + Measure(c, r.states[n]) <= CLAIM * |c.jobs|
  {
    if n == 0 {
      InitMeasure(c, r.states[0]);
    } else {
      BoundedWork(c, r, n - 1);
      MeasureDrops(c, r.states[n - 1], r.workers[n - 1], r.events[n - 1], r.states[n]);
    }
  }

  lemma MeasureDrops(c: Config, s: State, w: nat, e: Event, t: State)
    requires Next(c, s, w, e, t)
    ensures Bit(WasProductive(c, s, w)) + Measure(c, t) <= Measure(c, s)
  {
    MeasureStep(c, s, w, e, t);
    hide Measure; hide Next;
  }

  // ---- a busy worker can move, or the lock holder can ----------------------

  predicate WaitsFor(pc: PC, f: nat) {
    match pc
    case Writing(k, p) => k.file == f && p.LockMaster?
    case Finishing(g, p) => g == f && p.LockFinal?
    case _ => false
  }

  /** The file whose mutex a worker may be waiting for. */
  function FileOf(pc: PC): nat {
    match pc
    case Writing(k, _) => k.file
    case Finishing(f, _) => f
    case _ => 0
  }

  lemma ReaderCanMove(c: Config, s: State, w: nat)
    requires WellPlanned(c) && Shape(c, s) && w < c.workers && s.pcs[w].Reading?
    ensures exists e: Event, t: State :: Next(c, s, w, e, t)
  {
    var b, j, r := s.pcs[w].buf, s.pcs[w].job, s.pcs[w].read;
    var job := c.jobs[j];
    assert PcOk(c, s.pcs[w]) && JobFits(c, job);
    var e := if r.OpenSrc? && job.file !in s.srcOpen[w] then IoErr([])
             else if r.ReadSrc? then IoErr(Zeros(JobPadded(c, job))) else Go;
    assert CanRead(c, s, w, b, j, r, e);
    assert Next(c, s, w, e, ReadStep(c, s, w, b, j, r, e));
  }

  lemma DropperCanMove(c: Config, s: State, w: nat)
    requires WellPlanned(c) && Shape(c, s) && w < c.workers && s.pcs[w].Dropping?
    ensures exists e: Event, t: State :: Next(c, s, w, e, t)
  {
    assert PcOk(c, s.pcs[w]) && JobFits(c, c.jobs[s.pcs[w].job]);
    assert Next(c, s, w, Go, DropStep(c, s, w, s.pcs[w].buf, s.pcs[w].job, s.pcs[w].drop));
  }

  lemma WriterCanMove(c: Config, s: State, w: nat)
    requires WellPlanned(c) && Shape(c, s) && w < c.workers && s.pcs[w].Writing?
    requires forall f: nat :: f < |c.files| && WaitsFor(s.pcs[w], f) ==> s.entries[f].lock.Unlocked?
    ensures exists e: Event, t: State :: Next(c, s, w, e, t)
  {
    var k, p := s.pcs[w].chunk, s.pcs[w].write;
    assert PcOk(c, s.pcs[w]) && JobFits(c, c.jobs[k.job]);
    var e := if p.CreateDst? || p.SizeDst? then IoErr([])
             else if p.OpenDst? && k.file !in s.dstOpen[w] then IoErr([])
             else if p.WriteDst? then IoErr(Zeros(k.padded)) else Go;
    assert p.LockMaster? ==> WaitsFor(s.pcs[w], k.file);
    if PreparePC(p) {
      assert Next(c, s, w, e, PrepareStep(c, s, w, k, p, e));
    } else {
      assert Next(c, s, w, e, WriteStep(c, s, w, k, p, e));
    }
  }

  lemma FinisherCanMove(c: Config, s: State, w: nat)
    requires WellPlanned(c) && Shape(c, s) && w < c.workers && s.pcs[w].Finishing?
    requires forall f: nat :: f < |c.files| && WaitsFor(s.pcs[w], f) ==> s.entries[f].lock.Unlocked?
    ensures exists e: Event, t: State :: Next(c, s, w, e, t)
  {
    var f, p := s.pcs[w].file, s.pcs[w].fin;
    assert PcOk(c, s.pcs[w]);
    var e := if p.Trim? && s.entries[f].master then IoErr([]) else Go;
    assert p.LockFinal? ==> WaitsFor(s.pcs[w], f);
    assert Next(c, s, w, e, FinStep(c, s, w, f, p, e));
  }

  /** The worker that a busy one waits for: the holder of the mutex it wants, or itself. */
  lemma Mover(c: Config, s: State, w: nat) returns (v: nat)
    requires Inv(c, s) && w < c.workers && !s.pcs[w].Idle? && !s.pcs[w].Exited?
    ensures v < c.workers == |s.pcs| && !s.pcs[v].Idle? && !s.pcs[v].Exited? && |s.entries| == |c.files|
    ensures forall f: nat :: f < |c.files| && WaitsFor(s.pcs[v], f) ==> s.entries[f].lock.Unlocked?
    ensures v == w || exists f: nat :: f < |c.files| && WaitsFor(s.pcs[w], f) && Inside(s.pcs[v], f)
  {
    v := w;
    assert PcOk(c, s.pcs[w]);
    var f := FileOf(s.pcs[w]);
    if f < |c.files| && WaitsFor(s.pcs[w], f) && s.entries[f].lock.LockedBy? {
      v := s.entries[f].lock.worker;
      assert Inside(s.pcs[v], f);
      assert WaitsFor(s.pcs[w], f);
    }
    assert forall g: nat :: !WaitsFor(s.pcs[v], g) || (v == w && g == f);
  }

  /** In every reachable state a worker that is past looking for work can move, or waits for one that can. */
  lemma BusyMeansMovable(c: Config, s: State, w: nat) returns (v: nat)
    requires Inv(c, s) && w < c.workers && !s.pcs[w].Idle? && !s.pcs[w].Exited?
    ensures v < |s.pcs| && Productive(c, s, v) && exists e: Event, t: State :: Next(c, s, v, e, t)
    ensures v == w || exists f: nat :: f < |c.files| && WaitsFor(s.pcs[w], f) && Inside(s.pcs[v], f)
  {
    v := Mover(c, s, w);
    MovableWorker(c, s, v);
  }

  lemma MovableWorker(c: Config, s: State, v: nat)
    requires WellPlanned(c) && Shape(c, s) && v < c.workers && !s.pcs[v].Idle? && !s.pcs[v].Exited?
    requires forall f: nat :: f < |c.files| && WaitsFor(s.pcs[v], f) ==> s.entries[f].lock.Unlocked?
    ensures Productive(c, s, v) && exists e: Event, t: State :: Next(c, s, v, e, t)
  {
    assert v < |s.pcs|;
    hide WellPlanned; hide Shape; hide Next;
    match s.pcs[v]
    case Reading(_, _, _) => ReaderCanMove(c, s, v);
    case Dropping(_, _, _) => DropperCanMove(c, s, v);
    case Writing(_, _) => WriterCanMove(c, s, v);
    case Finishing(_, _) => FinisherCanMove(c, s, v);
  }

  // ---- all workers idle: there is work to find ------------------------------

  ghost predicate AllIdle(s: State) {
    forall v :: 0 <= v < |s.pcs| ==> s.pcs[v].Idle?
  }

  /** With everybody looking for work, there is a filled chunk, or an unclaimed job and a buffer for it. */
  lemma WorkToFind(c: Config, s: State)
    requires Inv(c, s) && AllIdle(s) && s.remaining > 0
    ensures s.filled != [] || s.cursor < |c.jobs|
    ensures s.filled == [] ==>
              s.free != [] || exists v :: 0 <= v < |s.pcs| && s.pcs[v].idle.HaveBuf?
    ensures s.cursor < |c.jobs| ==> forall v :: 0 <= v < |s.pcs| ==> !s.pcs[v].idle.ReturnBuf?
  {
    SumZero(s.pcs, Owing());
    forall v | 0 <= v < |s.pcs| ensures s.cursor < |c.jobs| ==> !s.pcs[v].idle.ReturnBuf? {
      assert IdleFacts(c, s, s.pcs[v]);
    }
    if s.filled == [] && s.free == [] {
      assert BufPlaces(s, 0) == 1;
      hide Sum;
      assert Sum(s.filled, InChunk(0)) == 0 && Sum<nat>(s.free, IsBuf(0)) == 0 by {
        SumZero(s.filled, InChunk(0));
        SumZero<nat>(s.free, IsBuf(0));
      }
      var v := SumWitness(s.pcs, InHand(0));
      assert Holds(s.pcs[v], 0);
    }
  }

  // ---- one loop iteration of any worker finds it ----------------------------

  ghost predicate AllAtHead(s: State) {
    forall v :: 0 <= v < |s.pcs| ==> s.pcs[v] == Idle(Head)
  }

  predicate HasWork(c: Config, s: State) {
    (s.filled != [] || s.cursor < |c.jobs|) && (s.filled == [] ==> s.free != [])
  }

  /** Where a worker can be that has looked since `s0` and found nothing yet. */
  predicate Searching(c: Config, s0: State, s: State, w: nat) {
    && w < |s.pcs| && s.filled == s0.filled && s.remaining == s0.remaining
    && match s.pcs[w]
       case Idle(TryFree(first)) => s.free == s0.free && s.cursor == s0.cursor && (first || s.filled == [])
       case Idle(WaitFree(first)) => first && s.free == s0.free == [] && s.cursor == s0.cursor
       case Idle(HaveBuf(first, _)) => s.cursor == s0.cursor && (first || s.filled == [])
       case Idle(ReturnBuf(first, _)) => first && |c.jobs| <= s0.cursor
       case Idle(TryFilled(first)) => if first then s.free == s0.free && s.cursor == s0.cursor else s.filled != []
       case Idle(WaitFilled(first)) => first && s.filled == [] && s.free == s0.free && s.cursor == s0.cursor
       case _ => false
  }

  lemma SearchGoesOn(c: Config, s0: State, s: State, w: nat, e: Event, t: State)
    requires HasWork(c, s0) && s0.remaining > 0 && Next(c, s, w, e, t) && !Productive(c, s, w)
    requires Searching(c, s0, s, w) || (s == s0 && s.pcs[w] == Idle(Head))
    ensures Searching(c, s0, t, w)
  {
    hide WellPlanned; hide Shape;
  }

  /**
   While all other workers stay at the loop head and work remains, a worker does not get back to
   the loop head without having moved a job on, whichever side it is told to try first and
   however its timed waits end.
   */
  lemma {:induction false} OneIterationAdvances(c: Config, states: seq<State>, events: seq<Event>, w: nat, n: nat)
    requires 0 < n <= |events| < |states| && w < c.workers
    requires Inv(c, states[0]) && AllAtHead(states[0]) && states[0].remaining > 0
    requires forall i :: 0 <= i < n ==> Next(c, states[i], w, events[i], states[i + 1])
    requires forall i :: 0 <= i < n ==> !WasProductive(c, states[i], w)
    ensures w < |states[n].pcs| && states[n].pcs[w].Idle? && states[n].pcs[w] != Idle(Head)
  {
    WorkToFind(c, states[0]);
    IterationSearches(c, states, events, w, n);
  }

  lemma {:induction false} IterationSearches(c: Config, states: seq<State>, events: seq<Event>, w: nat, n: nat)
    requires 0 < n <= |events| < |states| && HasWork(c, states[0]) && states[0].remaining > 0
    requires w < |states[0].pcs| && states[0].pcs[w] == Idle(Head)
    requires forall i :: 0 <= i < n ==> Next(c, states[i], w, events[i], states[i + 1])
    requires forall i :: 0 <= i < n ==> !WasProductive(c, states[i], w)
    ensures Searching(c, states[0], states[n], w)
  {
    if n > 1 {
      IterationSearches(c, states, events, w, n - 1);
    }
    assert Next(c, states[n - 1], w, events[n - 1], states[n]) && !WasProductive(c, states[n - 1], w);
    hide Next;
    SearchGoesOn(c, states[0], states[n - 1], w, events[n - 1], states[n]);
  }

  // ---- no reachable state is stuck -------------------------------------------

  /** How many steps of `w` lead to a productive one when nobody is busy, taking the short way. */
  function Distance(s: State, w: nat): nat
    requires w < |s.pcs| && s.pcs[w].Idle?
  {
    if s.filled != [] then
      (match s.pcs[w].idle
       case TryFilled(_) => 0 case Head => 1 case WaitFilled(_) => 1
       case ReturnBuf(_, _) => 2 case WaitFree(_) => 2 case HaveBuf(_, _) => 3 case TryFree(_) => 4)
    else
      (match s.pcs[w].idle
       case HaveBuf(_, _) => 0 case TryFree(_) => 1 case Head => 2 case WaitFree(_) => 2
       case WaitFilled(_) => 3 case TryFilled(_) => 4 case ReturnBuf(_, _) => 5)
  }

  /** The scheduler answer or wait outcome that leads to the work there is. */
  function ShortWay(s: State, i: IdlePC): Event {
    match i
    case Head => if s.remaining == 0 then Go else if s.filled != [] then AskWrite else AskRead
    case WaitFree(_) => if s.filled != [] then Timeout else Wake
    case WaitFilled(_) => if s.filled != [] then Wake else Timeout
    case _ => Go
  }

  lemma CloserToWork(c: Config, s: State, w: nat, t: State)
    requires w < |s.pcs| && s.pcs[w].Idle? && CanIdle(s, w, s.pcs[w].idle, ShortWay(s, s.pcs[w].idle))
              && s.remaining > 0
    requires t == IdleStep(c, s, w, s.pcs[w].idle, ShortWay(s, s.pcs[w].idle))
    requires s.filled != [] || (s.cursor < |c.jobs| && !s.pcs[w].idle.ReturnBuf?)
    requires s.filled == [] ==> s.free != [] || s.pcs[w].idle.HaveBuf?
    ensures Productive(c, s, w) ||
              (t.pcs == s.pcs[w := t.pcs[w]] && t.pcs[w].Idle? && t.remaining == s.remaining
                  && Distance(t, w) < Distance(s, w))
  {}

  /** Some schedule of at most `n` steps ends in a productive one. */
  ghost predicate WorkWithin(c: Config, s: State, n: nat)
    decreases n
  {
    n > 0 && exists w: nat, e: Event, t: State ::
      Next(c, s, w, e, t) && (WasProductive(c, s, w) || WorkWithin(c, t, n - 1))
  }

  lemma WorkWithinMore(c: Config, s: State, m: nat, n: nat)
    requires WorkWithin(c, s, m) && m <= n
    ensures WorkWithin(c, s, n)
    decreases m
  {
    hide Next; hide WasProductive;
    var w: nat, e: Event, t: State :| Next(c, s, w, e, t) && (WasProductive(c, s, w) || WorkWithin(c, t, m - 1));
    if !WasProductive(c, s, w) {
      WorkWithinMore(c, t, m - 1, n - 1);
    }
  }

  lemma SearchMoves(c: Config, s: State, w: nat) returns (e: Event, t: State)
    requires WellPlanned(c) && Shape(c, s) && w < c.workers && s.pcs[w].Idle?
    ensures e == ShortWay(s, s.pcs[w].idle) && CanIdle(s, w, s.pcs[w].idle, e)
              && t == IdleStep(c, s, w, s.pcs[w].idle, e)
    ensures Next(c, s, w, e, t)
  {
    e := ShortWay(s, s.pcs[w].idle);
    t := IdleStep(c, s, w, s.pcs[w].idle, e);
  }

  lemma {:induction false} SearchSucceeds(c: Config, s: State, w: nat)
    requires Inv(c, s) && AllIdle(s) && s.remaining > 0 && w < c.workers
    requires s.filled == [] ==> s.free != [] || s.pcs[w].idle.HaveBuf?
    ensures WorkWithin(c, s, Distance(s, w) + 1)
    decreases Distance(s, w)
  {
    WorkToFind(c, s);
    var e, t := SearchMoves(c, s, w);
    InvStep(c, s, w, e, t);
    hide Inv; hide Next; hide WellPlanned; hide Shape;
    CloserToWork(c, s, w, t);
    if !Productive(c, s, w) {
      StillSomethingFree(c, s, w, e, t);
      hide IdleStep; hide Distance; hide ShortWay; hide IdleEnabled;
      SearchSucceeds(c, t, w);
      WorkWithinMore(c, t, Distance(t, w) + 1, Distance(s, w));
    }
  }

  lemma StillSomethingFree(c: Config, s: State, w: nat, e: Event, t: State)
    requires w < |s.pcs| && s.pcs[w].Idle? && CanIdle(s, w, s.pcs[w].idle, e) && !Productive(c, s, w)
    requires t == IdleStep(c, s, w, s.pcs[w].idle, e) && t.pcs[w].Idle?
    requires s.filled == [] ==> s.free != [] || s.pcs[w].idle.HaveBuf?
    requires s.filled == [] ==> s.cursor < |c.jobs|
    ensures t.filled == [] ==> t.free != [] || t.pcs[w].idle.HaveBuf?
  {}

  /**
   No deadlock: from every reachable state with work remaining, some schedule of at most five steps
   leads to a productive one.
   */
  lemma NoDeadlock(c: Config, s: State)
    requires Inv(c, s) && s.remaining > 0
    ensures WorkWithin(c, s, 5)
  {
    forall v | 0 <= v < |s.pcs| ensures !s.pcs[v].Exited? {
      assert IdleFacts(c, s, s.pcs[v]);
    }
    assert |s.pcs| == c.workers > 0;
    if AllIdle(s) {
      WorkToFind(c, s);
      hide Inv;
      var w: nat := 0;
      if s.filled == [] && s.free == [] {
        w :| w < |s.pcs| && s.pcs[w].idle.HaveBuf?;
      }
      SearchSucceeds(c, s, w);
      WorkWithinMore(c, s, Distance(s, w) + 1, 5);
    } else {
      hide Inv;
      var w: nat :| w < |s.pcs| && !s.pcs[w].Idle?;
      var v := BusyMeansMovable(c, s, w);
      hide Next; hide Productive;
      assert WasProductive(c, s, v);
    }
  }
}
