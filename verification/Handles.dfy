/** The handles a worker uses: each comes from an open that succeeded. */
module Handles {
  import opened Counting
  import opened Pipeline
  import opened Ownership
  import opened History
  import opened Finalisation
  import opened Destinations
  import opened Copy
  import opened Outcome

  // ---- where a handle comes from -------------------------------------------

  /** The worker's next step opens the source of `f`, unless it has it open. */
  predicate OpensSource(c: Config, pc: PC, f: nat) {
    match pc
    case Reading(_, j, r) => r.OpenSrc? && j < |c.jobs| && c.jobs[j].file == f
    case _ => false
  }

  predicate OpensDestination(pc: PC, f: nat) {
    match pc
    case Writing(k, p) => p.OpenDst? && k.file == f
    case _ => false
  }

  /** A step adds a handle exactly by an open that succeeds, to the worker that opens. */
  ghost predicate OpenEffect(c: Config, s: State, w: nat, e: Event, t: State, v: nat, f: nat) {
    && |t.srcOpen| == |s.srcOpen| && |t.dstOpen| == |s.dstOpen| && w < |s.pcs|
    && (v < |s.srcOpen| ==>
          (f in t.srcOpen[v] <==> f in s.srcOpen[v] || (v == w && e.IoOk? && OpensSource(c, s.pcs[w], f))))
    && (v < |s.dstOpen| ==>
          (f in t.dstOpen[v] <==> f in s.dstOpen[v] || (v == w && e.IoOk? && OpensDestination(s.pcs[w], f))))
  }

  lemma IdleOpens(c: Config, s: State, w: nat, i: IdlePC, e: Event, v: nat, f: nat)
    requires CanIdle(s, w, i, e)
    ensures OpenEffect(c, s, w, e, IdleStep(c, s, w, i, e), v, f)
  {}

  lemma ReadOpens(c: Config, s: State, w: nat, b: nat, j: nat, r: ReadPC, e: Event, v: nat, f: nat)
    requires CanRead(c, s, w, b, j, r, e)
    ensures OpenEffect(c, s, w, e, ReadStep(c, s, w, b, j, r, e), v, f)
  {}

  lemma DropOpens(c: Config, s: State, w: nat, b: nat, j: nat, d: DropPC, e: Event, v: nat, f: nat)
    requires CanDrop(c, s, w, b, j, d)
    ensures OpenEffect(c, s, w, e, DropStep(c, s, w, b, j, d), v, f)
  {}

  lemma PrepareOpens(c: Config, s: State, w: nat, k: Chunk, p: WritePC, e: Event, v: nat, f: nat)
    requires CanPrepare(c, s, w, k, p, e)
    ensures OpenEffect(c, s, w, e, PrepareStep(c, s, w, k, p, e), v, f)
  {}

  lemma WriteOpens(c: Config, s: State, w: nat, k: Chunk, p: WritePC, e: Event, v: nat, f: nat)
    requires CanWrite(c, s, w, k, p, e)
    ensures OpenEffect(c, s, w, e, WriteStep(c, s, w, k, p, e), v, f)
  {
    hide WriteAt;
  }

  lemma FinOpens(c: Config, s: State, w: nat, g: nat, p: FinPC, e: Event, v: nat, f: nat)
    requires CanFin(c, s, w, g, p, e)
    ensures OpenEffect(c, s, w, e, FinStep(c, s, w, g, p, e), v, f)
  {
    hide SetLen;
  }

  lemma StepOpens(c: Config, s: State, w: nat, e: Event, t: State, v: nat, f: nat)
    requires Next(c, s, w, e, t)
    ensures OpenEffect(c, s, w, e, t, v, f)
  {
    hide OpenEffect; hide WellPlanned;
    hide IdleStep; hide ReadStep; hide DropStep; hide PrepareStep; hide WriteStep; hide FinStep;
    match s.pcs[w]
    case Idle(i) => IdleOpens(c, s, w, i, e, v, f);
    case Reading(b, j, r) => ReadOpens(c, s, w, b, j, r, e, v, f);
    case Dropping(b, j, d) => DropOpens(c, s, w, b, j, d, e, v, f);
    case Writing(k, p) =>
      if PreparePC(p) { PrepareOpens(c, s, w, k, p, e, v, f); } else { WriteOpens(c, s, w, k, p, e, v, f); }
    case Finishing(g, p) => FinOpens(c, s, w, g, p, e, v, f);
  }

  /** Step `i` of the run is a successful open of the source of `f` by worker `w`. */
  ghost predicate SourceOpened(c: Config, r: Run, i: nat, w: nat, f: nat) {
    && i < |r.events| && i < |r.workers| && i < |r.states| && r.workers[i] == w < |r.states[i].pcs|
    && r.events[i].IoOk? && OpensSource(c, r.states[i].pcs[w], f)
  }

  ghost predicate DestinationOpened(r: Run, i: nat, w: nat, f: nat) {
    && i < |r.events| && i < |r.workers| && i < |r.states| && r.workers[i] == w < |r.states[i].pcs|
    && r.events[i].IoOk? && OpensDestination(r.states[i].pcs[w], f)
  }

  /** A worker has a file open exactly when an earlier step of its own opened it with success. */
  lemma {:induction false} HandlesWereOpened(c: Config, r: Run, n: nat, w: nat, f: nat)
    requires IsRun(c, r) && n < |r.states| && w < c.workers
    ensures |r.states[n].srcOpen| == |r.states[n].dstOpen| == c.workers
    ensures f in r.states[n].srcOpen[w] <==> exists i :: 0 <= i < n && SourceOpened(c, r, i, w, f)
    ensures f in r.states[n].dstOpen[w] <==> exists i :: 0 <= i < n && DestinationOpened(r, i, w, f)
  {
    hide Next; hide WellPlanned; hide SourceOpened; hide DestinationOpened;
    if n > 0 {
      HandlesWereOpened(c, r, n - 1, w, f);
      hide Init;
      OpenNext(c, r, n - 1, w, f);
    }
  }

  lemma OpenNext(c: Config, r: Run, n: nat, w: nat, f: nat)
    requires IsRun(c, r) && n < |r.workers| && w < c.workers
    requires |r.states[n].srcOpen| == |r.states[n].dstOpen| == c.workers
    ensures |r.states[n + 1].srcOpen| == |r.states[n + 1].dstOpen| == c.workers
    ensures f in r.states[n + 1].srcOpen[w] <==> f in r.states[n].srcOpen[w] || SourceOpened(c, r, n, w, f)
    ensures f in r.states[n + 1].dstOpen[w] <==> f in r.states[n].dstOpen[w] || DestinationOpened(r, n, w, f)
  {
    hide Next; hide WellPlanned; hide Init; hide OpensSource; hide OpensDestination;
    assert Next(c, r.states[n], r.workers[n], r.events[n], r.states[n + 1]);
    StepOpens(c, r.states[n], r.workers[n], r.events[n], r.states[n + 1], w, f);
  }

  lemma OpensWhatIsShut(c: Config, s: State, w: nat, e: Event, t: State, f: nat)
    requires Next(c, s, w, e, t) && e.IoOk?
    ensures w < |s.pcs| && w < |s.srcOpen| && w < |s.dstOpen|
    ensures OpensSource(c, s.pcs[w], f) ==> f !in s.srcOpen[w]
    ensures OpensDestination(s.pcs[w], f) ==> f !in s.dstOpen[w]
  {
    hide ReadStep; hide WriteStep; hide WellPlanned;
  }

  /** A worker opens a file with success at most once, for all its chunks. */
  lemma OpenedOnce(c: Config, r: Run, i: nat, k: nat, w: nat, f: nat)
    requires IsRun(c, r) && i < k < |r.states| && w < c.workers
    ensures !(SourceOpened(c, r, i, w, f) && SourceOpened(c, r, k, w, f))
    ensures !(DestinationOpened(r, i, w, f) && DestinationOpened(r, k, w, f))
  {
    hide Next; hide WellPlanned; hide Init; hide OpensSource; hide OpensDestination;
    HandlesWereOpened(c, r, k, w, f);
    if SourceOpened(c, r, k, w, f) || DestinationOpened(r, k, w, f) {
      OpensWhatIsShut(c, r.states[k], w, r.events[k], r.states[k + 1], f);
    }
  }

  // ---- what a handle is needed for -----------------------------------------

  ghost predicate SomeSource(s: State, f: nat) {
    exists w :: 0 <= w < |s.srcOpen| && f in s.srcOpen[w]
  }

  ghost predicate SomeDestination(s: State, f: nat) {
    exists w :: 0 <= w < |s.dstOpen| && f in s.dstOpen[w]
  }

  /** A worker reads through a handle of its own, and writes through one. */
  ghost predicate HandleFor(c: Config, s: State, w: nat) {
    && w < |s.pcs| && w < |s.srcOpen| && w < |s.dstOpen|
    && match s.pcs[w]
       case Reading(_, j, r) => !r.OpenSrc? ==> j < |c.jobs| && c.jobs[j].file in s.srcOpen[w]
       case Writing(k, p) => p.WriteDst? ==> k.file in s.dstOpen[w]
       case _ => true
  }

  /** What was read or written of a job came through some worker's handle. */
  ghost predicate Handled(c: Config, s: State, j: nat) {
    && j < |s.log| && j < |c.jobs|
    && (s.log[j].got > 0 || s.log[j].readCounted ==> SomeSource(s, c.jobs[j].file))
    && (!s.log[j].result.Untried? ==> SomeDestination(s, c.jobs[j].file))
  }

  ghost predicate HandleInv(c: Config, s: State) {
    && (forall v: nat :: v < |s.pcs| ==> HandleFor(c, s, v))
    && (forall j: nat :: j < |c.jobs| ==> Handled(c, s, j))
  }

  /** The moving worker's handle, and the job it works on. */
  ghost predicate OwnHandle(c: Config, s: State, w: nat, t: State) {
    && HandleFor(c, t, w) && w < |s.pcs|
    && forall j: nat :: j < |c.jobs| && WorksOn(s.pcs[w], j) ==> Handled(c, t, j)
  }

  lemma IdleHandle(c: Config, s: State, w: nat, i: IdlePC, e: Event)
    requires CanIdle(s, w, i, e) && HandleFor(c, s, w)
    ensures OwnHandle(c, s, w, IdleStep(c, s, w, i, e))
  {}

  lemma ReadHandle(c: Config, s: State, w: nat, b: nat, j: nat, r: ReadPC, e: Event)
    requires CanRead(c, s, w, b, j, r, e) && HandleFor(c, s, w) && Handled(c, s, j)
    ensures OwnHandle(c, s, w, ReadStep(c, s, w, b, j, r, e))
  {
    var t := ReadStep(c, s, w, b, j, r, e);
    assert c.jobs[j].file in t.srcOpen[w] || t.pcs[w].Dropping?;
    if SomeDestination(s, c.jobs[j].file) {
      var v :| 0 <= v < |s.dstOpen| && c.jobs[j].file in s.dstOpen[v];
      assert c.jobs[j].file in t.dstOpen[v];
    }
    if SomeSource(s, c.jobs[j].file) {
      var v :| 0 <= v < |s.srcOpen| && c.jobs[j].file in s.srcOpen[v];
      assert c.jobs[j].file in t.srcOpen[v];
    }
  }

  lemma DropHandle(c: Config, s: State, w: nat, b: nat, j: nat, d: DropPC)
    requires CanDrop(c, s, w, b, j, d) && HandleFor(c, s, w) && Handled(c, s, j)
    ensures OwnHandle(c, s, w, DropStep(c, s, w, b, j, d))
  {}

  lemma PrepareHandle(c: Config, s: State, w: nat, k: Chunk, p: WritePC, e: Event)
    requires CanPrepare(c, s, w, k, p, e) && HandleFor(c, s, w) && Handled(c, s, k.job)
    ensures OwnHandle(c, s, w, PrepareStep(c, s, w, k, p, e))
  {}

  lemma WriteHandle(c: Config, s: State, w: nat, k: Chunk, p: WritePC, e: Event)
    requires CanWrite(c, s, w, k, p, e) && HandleFor(c, s, w) && Handled(c, s, k.job)
    ensures OwnHandle(c, s, w, WriteStep(c, s, w, k, p, e))
  {
    hide WriteAt;
    var t := WriteStep(c, s, w, k, p, e);
    if SomeDestination(s, k.file) {
      var v :| 0 <= v < |s.dstOpen| && k.file in s.dstOpen[v];
      assert k.file in t.dstOpen[v];
    }
    assert p.WriteDst? ==> k.file in t.dstOpen[w];
  }

  lemma FinHandle(c: Config, s: State, w: nat, f: nat, p: FinPC, e: Event)
    requires CanFin(c, s, w, f, p, e) && HandleFor(c, s, w)
    ensures OwnHandle(c, s, w, FinStep(c, s, w, f, p, e))
  {}

  lemma OwnHandleStep(c: Config, s: State, w: nat, e: Event, t: State)
    requires Next(c, s, w, e, t) && HandleInv(c, s)
    ensures OwnHandle(c, s, w, t)
  {
    assert w < |s.pcs|;
    assert PcOk(c, s.pcs[w]);
    hide OwnHandle; hide HandleFor; hide Handled; hide WellPlanned; hide Shape;
    hide IdleStep; hide ReadStep; hide DropStep; hide PrepareStep; hide WriteStep; hide FinStep;
    match s.pcs[w]
    case Idle(i) => IdleHandle(c, s, w, i, e);
    case Reading(b, j, r) => ReadHandle(c, s, w, b, j, r, e);
    case Dropping(b, j, d) => DropHandle(c, s, w, b, j, d);
    case Writing(k, p) => if PreparePC(p) { PrepareHandle(c, s, w, k, p, e); } else { WriteHandle(c, s, w, k, p, e); }
    case Finishing(f, p) => FinHandle(c, s, w, f, p, e);
  }

  lemma HandlesStay(c: Config, s: State, w: nat, e: Event, t: State, f: nat)
    requires Next(c, s, w, e, t)
    ensures |t.srcOpen| == |s.srcOpen| && |t.dstOpen| == |s.dstOpen|
    ensures forall v: nat :: v < |s.srcOpen| ==> v < |t.srcOpen| && (f in s.srcOpen[v] ==> f in t.srcOpen[v])
    ensures forall v: nat :: v < |s.dstOpen| ==> v < |t.dstOpen| && (f in s.dstOpen[v] ==> f in t.dstOpen[v])
    ensures SomeSource(s, f) ==> SomeSource(t, f)
    ensures SomeDestination(s, f) ==> SomeDestination(t, f)
  {
    hide Next; hide OpensSource; hide OpensDestination;
    StepOpens(c, s, w, e, t, 0, f);
    forall v: nat
      ensures v < |s.srcOpen| ==> v < |t.srcOpen| && (f in s.srcOpen[v] ==> f in t.srcOpen[v])
      ensures v < |s.dstOpen| ==> v < |t.dstOpen| && (f in s.dstOpen[v] ==> f in t.dstOpen[v])
    {
      StepOpens(c, s, w, e, t, v, f);
    }
  }

  lemma OthersHandle(c: Config, s: State, w: nat, e: Event, t: State, v: nat)
    requires Next(c, s, w, e, t) && HandleFor(c, s, v) && v < |t.pcs| && t.pcs[v] == s.pcs[v]
    ensures HandleFor(c, t, v)
  {
    hide Next; hide SomeSource; hide SomeDestination;
    HandlesStay(c, s, w, e, t, FileOf(c, s.pcs[v]));
  }

  lemma OthersHandled(c: Config, s: State, w: nat, e: Event, t: State, j: nat)
    requires Next(c, s, w, e, t) && Handled(c, s, j) && j < |t.log| && t.log[j] == s.log[j]
    ensures Handled(c, t, j)
  {
    hide Next; hide SomeSource; hide SomeDestination;
    HandlesStay(c, s, w, e, t, c.jobs[j].file);
  }

  lemma HandleInvStep(c: Config, s: State, w: nat, e: Event, t: State)
    requires Next(c, s, w, e, t) && HandleInv(c, s)
    ensures HandleInv(c, t)
  {
    hide Next; hide HandleFor; hide Handled;
    LocalStep(c, s, w, e, t);
    OwnHandleStep(c, s, w, e, t);
    forall v: nat | v < |t.pcs| ensures HandleFor(c, t, v) {
      if v != w {
        OthersHandle(c, s, w, e, t, v);
      }
    }
    forall j: nat | j < |c.jobs| ensures Handled(c, t, j) {
      if !WorksOn(s.pcs[w], j) {
        assert Handled(c, s, j);
        HandledIsLogged(c, s, j);
        OthersHandled(c, s, w, e, t, j);
      }
    }
  }

  lemma HandledIsLogged(c: Config, s: State, j: nat)
    requires Handled(c, s, j)
    ensures j < |s.log|
  {}

  /** The file a worker is busy with. */
  function FileOf(c: Config, pc: PC): nat {
    match pc
    case Reading(_, j, _) => if j < |c.jobs| then c.jobs[j].file else 0
    case Writing(k, _) => k.file
    case _ => 0
  }

  lemma {:induction false} HandlesAlways(c: Config, r: Run, n: nat)
    requires IsRun(c, r) && n < |r.states|
    ensures HandleInv(c, r.states[n])
  {
    hide Next; hide WellPlanned;
    if n > 0 {
      hide Init; hide HandleInv;
      HandlesAlways(c, r, n - 1);
      HandleInvStep(c, r.states[n - 1], r.workers[n - 1], r.events[n - 1], r.states[n]);
    }
  }

  // ---- a file that is never opened -----------------------------------------

  ghost predicate NeverOpened(c: Config, r: Run, n: nat, f: nat) {
    forall i: nat, w: nat :: i < n ==> !SourceOpened(c, r, i, w, f)
  }

  lemma NoHandle(c: Config, r: Run, n: nat, f: nat)
    requires IsRun(c, r) && n < |r.states| && NeverOpened(c, r, n, f)
    ensures !SomeSource(r.states[n], f)
  {
    hide Next; hide WellPlanned; hide Init; hide SourceOpened; hide DestinationOpened; hide IsRun;
    forall w: nat | w < |r.states[n].srcOpen| ensures f !in r.states[n].srcOpen[w] {
      WorkersFit(c, r, n);
      HandlesWereOpened(c, r, n, w, f);
    }
  }

  lemma WorkersFit(c: Config, r: Run, n: nat)
    requires IsRun(c, r) && n < |r.states|
    ensures |r.states[n].srcOpen| == c.workers
  {
    AlwaysInv(c, r, n);
  }

  /** Only a file that was read is written, prepared or trimmed. */
  lemma TouchedWasRead(c: Config, s: State, w: nat, f: nat)
    requires Inv(c, s) && HandleInv(c, s) && w < |s.pcs| && f < |c.files| && Touches(s.pcs[w], f)
    ensures SomeSource(s, f)
  {
    assert PcHistory(c, s, s.pcs[w]) && PcOk(c, s.pcs[w]);
    if s.pcs[w].Writing? {
      assert Handled(c, s, s.pcs[w].chunk.job);
    } else {
      TrimIsLast(c, s, w, f);
      var j := SumWitness(c.jobs, OfFile(f));
      assert JobHistory(c, s, j) && Handled(c, s, j);
    }
  }

  lemma CountedWasRead(c: Config, s: State, f: nat)
    requires Inv(c, s) && HandleInv(c, s) && f < |c.files| && s.flog[f].counted
    ensures SomeSource(s, f)
  {
    CountedIsDelivered(c, s, f);
    assert FileFinal(c, s, f);
    DoneAtMostChunks(c, s, f);
    var j := SumWitness(c.jobs, OfFile(f));
    assert JobHistory(c, s, j) && Handled(c, s, j);
  }

  lemma DiskNext(c: Config, s: State, w: nat, e: Event, t: State, f: nat)
    requires Next(c, s, w, e, t) && f < |c.files| && PcHistory(c, s, s.pcs[w]) && !Touches(s.pcs[w], f)
    ensures SameFile(s, t, c.files[f].dst)
  {
    UntouchedStep(c, s, w, e, t, f);
  }

  /**
   A source none of whose opens has succeeded has had no byte read, its destination is as it was before
   the run, and it is not counted.
   */
  lemma {:induction false} UnopenedLeavesNoTrace(c: Config, r: Run, n: nat, f: nat)
    requires IsRun(c, r) && n < |r.states| && f < |c.files| && NeverOpened(c, r, n, f)
    ensures var s := r.states[n];
            && SameFile(r.states[0], s, c.files[f].dst)
            && |s.log| == |c.jobs| && f < |s.flog| && !s.flog[f].counted
            && forall j :: 0 <= j < |c.jobs| && c.jobs[j].file == f ==> s.log[j].got == 0 && !s.log[j].readCounted
  {
    hide Next; hide WellPlanned; hide Init; hide SomeSource; hide SameFile; hide IsRun; hide HandleInv; hide Inv;
    RunLengths(c, r);
    NoHandle(c, r, n, f);
    AlwaysInv(c, r, n);
    HandlesAlways(c, r, n);
    NoTraceNow(c, r.states[n], f);
    if n > 0 {
      UnopenedLeavesNoTrace(c, r, n - 1, f);
      NoTraceNext(c, r, n - 1, f);
    } else {
      SameAsItself(r.states[0], c.files[f].dst);
    }
  }

  lemma RunLengths(c: Config, r: Run)
    requires IsRun(c, r)
    ensures |r.states| == |r.workers| + 1
  {}

  lemma SameAsItself(s: State, p: Path)
    ensures SameFile(s, s, p)
  {}

  lemma NoTraceNow(c: Config, s: State, f: nat)
    requires Inv(c, s) && HandleInv(c, s) && f < |c.files| && !SomeSource(s, f)
    ensures |s.log| == |c.jobs| && f < |s.flog| && !s.flog[f].counted
    ensures forall j :: 0 <= j < |c.jobs| && c.jobs[j].file == f ==> s.log[j].got == 0 && !s.log[j].readCounted
  {
    LogsFit(c, s);
    hide Inv; hide SomeSource; hide Handled; hide HandleFor;
    if s.flog[f].counted {
      CountedWasRead(c, s, f);
    }
    forall j | 0 <= j < |c.jobs| && c.jobs[j].file == f ensures s.log[j].got == 0 && !s.log[j].readCounted {
      assert Handled(c, s, j);
      NotHandled(c, s, j);
    }
  }

  lemma LogsFit(c: Config, s: State)
    requires Inv(c, s)
    ensures |s.log| == |c.jobs| && |s.flog| == |c.files|
  {}

  lemma NotHandled(c: Config, s: State, j: nat)
    requires Handled(c, s, j)
    ensures !SomeSource(s, c.jobs[j].file) ==> s.log[j].got == 0 && !s.log[j].readCounted
    ensures !SomeDestination(s, c.jobs[j].file) ==> s.log[j].result.Untried?
  {}

  lemma NoTraceNext(c: Config, r: Run, n: nat, f: nat)
    requires IsRun(c, r) && n < |r.workers| && f < |c.files| && NeverOpened(c, r, n, f)
    requires SameFile(r.states[0], r.states[n], c.files[f].dst)
    ensures SameFile(r.states[0], r.states[n + 1], c.files[f].dst)
  {
    hide Next; hide WellPlanned; hide Init; hide SomeSource; hide HandleInv; hide Touches; hide SourceOpened;
    hide DestinationOpened;
    var s, w, e, t := r.states[n], r.workers[n], r.events[n], r.states[n + 1];
    assert Next(c, s, w, e, t);
    AlwaysInv(c, r, n);
    NoHandle(c, r, n, f);
    HandlesAlways(c, r, n);
    MovesAsKnown(c, s, w, e, t);
    hide Inv; hide IsRun;
    if Touches(s.pcs[w], f) {
      TouchedWasRead(c, s, w, f);
    }
    DiskNext(c, s, w, e, t, f);
  }

  lemma MovesAsKnown(c: Config, s: State, w: nat, e: Event, t: State)
    requires Inv(c, s) && Next(c, s, w, e, t)
    ensures w < |s.pcs| && PcHistory(c, s, s.pcs[w])
  {
    StepFacts(c, s, w, e, t);
  }

  /** A destination none of whose opens has succeeded holds no chunk of its source, and is not counted. */
  lemma UnopenedIsNotWritten(c: Config, r: Run, n: nat, f: nat)
    requires IsRun(c, r) && n < |r.states| && f < |c.files|
    requires forall i: nat, w: nat :: i < n ==> !DestinationOpened(r, i, w, f)
    ensures var s := r.states[n];
            && |s.log| == |c.jobs| && f < |s.flog| && !s.flog[f].counted
            && forall j :: 0 <= j < |c.jobs| && c.jobs[j].file == f ==> s.log[j].result.Untried?
  {
    hide Next; hide WellPlanned; hide Init; hide SourceOpened; hide DestinationOpened; hide Inv;
    var s := r.states[n];
    forall w: nat | w < |s.dstOpen| ensures f !in s.dstOpen[w] {
      DestinationsFit(c, r, n);
      HandlesWereOpened(c, r, n, w, f);
    }
    AlwaysInv(c, r, n);
    HandlesAlways(c, r, n);
    hide IsRun;
    NotWrittenNow(c, s, f);
  }

  lemma DestinationsFit(c: Config, r: Run, n: nat)
    requires IsRun(c, r) && n < |r.states|
    ensures |r.states[n].dstOpen| == c.workers
  {
    AlwaysInv(c, r, n);
  }

  lemma NotWrittenNow(c: Config, s: State, f: nat)
    requires Inv(c, s) && HandleInv(c, s) && f < |c.files| && !SomeDestination(s, f)
    ensures |s.log| == |c.jobs| && f < |s.flog| && !s.flog[f].counted
    ensures forall j :: 0 <= j < |c.jobs| && c.jobs[j].file == f ==> s.log[j].result.Untried?
  {
    LogsFit(c, s);
    if s.flog[f].counted {
      CountedWasWritten(c, s, f);
    }
    hide Inv; hide SomeDestination; hide Handled; hide HandleFor;
    forall j | 0 <= j < |c.jobs| && c.jobs[j].file == f ensures s.log[j].result.Untried? {
      assert Handled(c, s, j);
      NotHandled(c, s, j);
    }
  }

  lemma CountedWasWritten(c: Config, s: State, f: nat)
    requires Inv(c, s) && HandleInv(c, s) && f < |c.files| && s.flog[f].counted
    ensures SomeDestination(s, f)
  {
    CountedIsDelivered(c, s, f);
    var j := SumWitness(c.jobs, OfFile(f));
    assert Handled(c, s, j);
  }
}
