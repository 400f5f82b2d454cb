/** Every failing operation tells: on the message list, on the mark of its file, and on the count. */
module Failures {
  import opened Counting
  import opened Pipeline
  import opened Ownership
  import opened History
  import opened Copy
  import opened Outcome

  // ---- what one step does --------------------------------------------------

  /** The worker is on its way to mark file `f` as failed. */
  predicate Condemns(c: Config, pc: PC, f: nat) {
    match pc
    case Dropping(_, j, d) => (d.DropReport? || d.DropMark?) && j < |c.jobs| && c.jobs[j].file == f
    case Writing(k, p) => k.file == f && (p == UnlockMaster(false) || p.WriteReport? || p.WriteMark?)
    case _ => false
  }

  /** The worker is busy with a chunk of file `f`. */
  predicate OnFile(c: Config, pc: PC, f: nat) {
    match pc
    case Reading(_, j, _) => j < |c.jobs| && c.jobs[j].file == f
    case Writing(k, _) => k.file == f
    case _ => false
  }

  /** The worker still owes the message about a failure. */
  predicate OwesMessage(pc: PC) {
    match pc
    case Dropping(_, _, d) => d.DropReport?
    case Writing(_, p) => p == UnlockMaster(false) || p.WriteReport?
    case Finishing(_, p) => p.TrimReport?
    case _ => false
  }

  /** The worker's next step is the message. */
  predicate AtMessage(pc: PC) {
    OwesMessage(pc) && !(pc.Writing? && pc.write.UnlockMaster?)
  }

  predicate Condemned(c: Config, s: State, w: nat, f: nat) {
    f < |s.entries| && w < |s.pcs| && (s.entries[f].failed || Condemns(c, s.pcs[w], f))
  }

  /** The mark of `f` spreads from this step's failure, or was on its way already. */
  ghost predicate MarkEffect(c: Config, s: State, w: nat, e: Event, t: State, f: nat) {
    f < |s.entries| ==>
      && w < |s.pcs| && w < |t.pcs| && f < |t.entries|
      && (Condemned(c, t, w, f) <==> Condemned(c, s, w, f) || (e.IoErr? && OnFile(c, s.pcs[w], f)))
      && (s.entries[f].failed ==> t.entries[f].failed)
      && (t.entries[f].failed ==> Condemned(c, s, w, f))
  }

  /** A failure owes one message, and a message is kept while there are fewer than 64. */
  ghost predicate MessageEffect(s: State, w: nat, e: Event, t: State) {
    && w < |s.pcs| && t.pcs == s.pcs[w := if w < |t.pcs| then t.pcs[w] else Exited] && |t.pcs| == |s.pcs|
    && Bit(OwesMessage(t.pcs[w])) + Bit(AtMessage(s.pcs[w])) == Bit(OwesMessage(s.pcs[w])) + Bit(e.IoErr?)
    && |t.errors| == (if AtMessage(s.pcs[w]) && |s.errors| < 64 then |s.errors| + 1 else |s.errors|)
  }

  /** A trim is noted as failed when it fails. */
  ghost predicate TrimEffect(s: State, w: nat, e: Event, t: State, f: nat) {
    f < |s.flog| ==>
      && w < |s.pcs| && f < |t.flog|
      && (s.pcs[w] != Finishing(f, Trim) ==> t.flog[f].trim == s.flog[f].trim)
      && (s.pcs[w] == Finishing(f, Trim) && e.IoErr? ==> t.flog[f].trim.TrimFailed?)
      && (t.flog[f].trim.TrimFailed? ==>
            s.flog[f].trim.TrimFailed? || (e.IoErr? && s.pcs[w] == Finishing(f, Trim)))
  }

  ghost predicate Effect(c: Config, s: State, w: nat, e: Event, t: State, f: nat) {
    MarkEffect(c, s, w, e, t, f) && MessageEffect(s, w, e, t) && TrimEffect(s, w, e, t, f)
  }

  lemma IdleEffect(c: Config, s: State, w: nat, i: IdlePC, e: Event, f: nat)
    requires CanIdle(s, w, i, e)
    ensures Effect(c, s, w, e, IdleStep(c, s, w, i, e), f)
  {}

  lemma ReadEffect(c: Config, s: State, w: nat, b: nat, j: nat, r: ReadPC, e: Event, f: nat)
    requires CanRead(c, s, w, b, j, r, e)
    ensures Effect(c, s, w, e, ReadStep(c, s, w, b, j, r, e), f)
  {}

  lemma DropEffect(c: Config, s: State, w: nat, b: nat, j: nat, d: DropPC, e: Event, f: nat)
    requires CanDrop(c, s, w, b, j, d) && e.Go?
    ensures Effect(c, s, w, e, DropStep(c, s, w, b, j, d), f)
  {}

  lemma PrepareEffect(c: Config, s: State, w: nat, k: Chunk, p: WritePC, e: Event, f: nat)
    requires CanPrepare(c, s, w, k, p, e)
    ensures Effect(c, s, w, e, PrepareStep(c, s, w, k, p, e), f)
  {}

  lemma WriteEffect(c: Config, s: State, w: nat, k: Chunk, p: WritePC, e: Event, f: nat)
    requires CanWrite(c, s, w, k, p, e)
    ensures Effect(c, s, w, e, WriteStep(c, s, w, k, p, e), f)
  {
    hide WriteAt;
  }

  lemma FinEffect(c: Config, s: State, w: nat, g: nat, p: FinPC, e: Event, f: nat)
    requires CanFin(c, s, w, g, p, e)
    ensures Effect(c, s, w, e, FinStep(c, s, w, g, p, e), f)
  {
    hide SetLen;
  }

  lemma StepEffect(c: Config, s: State, w: nat, e: Event, t: State, f: nat)
    requires Next(c, s, w, e, t)
    ensures Effect(c, s, w, e, t, f)
  {
    hide Effect; hide WellPlanned;
    hide IdleStep; hide ReadStep; hide DropStep; hide PrepareStep; hide WriteStep; hide FinStep;
    match s.pcs[w]
    case Idle(i) => IdleEffect(c, s, w, i, e, f);
    case Reading(b, j, r) => ReadEffect(c, s, w, b, j, r, e, f);
    case Dropping(b, j, d) => DropEffect(c, s, w, b, j, d, e, f);
    case Writing(k, p) =>
      if PreparePC(p) { PrepareEffect(c, s, w, k, p, e, f); } else { WriteEffect(c, s, w, k, p, e, f); }
    case Finishing(g, p) => FinEffect(c, s, w, g, p, e, f);
  }

  // ---- over a run ----------------------------------------------------------

  /** Step `i` is a failing open, read, create, sizing or write for a chunk of file `f`. */
  ghost predicate FailsOn(c: Config, r: Run, i: nat, f: nat) {
    && i < |r.events| && i < |r.workers| && i < |r.states| && r.workers[i] < |r.states[i].pcs|
    && r.events[i].IoErr? && OnFile(c, r.states[i].pcs[r.workers[i]], f)
  }

  ghost predicate FailedBefore(c: Config, r: Run, n: nat, f: nat) {
    exists i :: 0 <= i < n && FailsOn(c, r, i, f)
  }

  /** Step `i` of the run is a failing trim of file `f`. */
  ghost predicate TrimFails(r: Run, i: nat, f: nat) {
    && i < |r.events| && i < |r.workers| && i < |r.states| && r.workers[i] < |r.states[i].pcs|
    && r.events[i].IoErr? && r.states[i].pcs[r.workers[i]] == Finishing(f, Trim)
  }

  ghost predicate TrimFailedBefore(r: Run, n: nat, f: nat) {
    exists i :: 0 <= i < n && TrimFails(r, i, f)
  }

  /** The number of failing operations among the first `n` steps. */
  function FailureCount(events: seq<Event>, n: nat): nat
    requires n <= |events|
  {
    if n == 0 then 0 else FailureCount(events, n - 1) + if events[n - 1].IoErr? then 1 else 0
  }

  ghost predicate Doomed(c: Config, s: State, f: nat) {
    exists v :: 0 <= v < |s.pcs| && Condemned(c, s, v, f)
  }

  lemma DoomStep(c: Config, s: State, w: nat, e: Event, t: State, f: nat)
    requires MarkEffect(c, s, w, e, t, f) && MessageEffect(s, w, e, t) && f < |s.entries|
    ensures Doomed(c, t, f) <==> Doomed(c, s, f) || (e.IoErr? && OnFile(c, s.pcs[w], f))
  {
    hide Condemns; hide OnFile; hide OwesMessage; hide AtMessage;
    if Doomed(c, s, f) {
      var v :| 0 <= v < |s.pcs| && Condemned(c, s, v, f);
      assert Condemned(c, t, if s.entries[f].failed then w else v, f);
    }
    if Doomed(c, t, f) {
      var v :| 0 <= v < |t.pcs| && Condemned(c, t, v, f);
      assert Condemned(c, t, w, f) || Condemned(c, s, v, f);
    }
    assert e.IoErr? && OnFile(c, s.pcs[w], f) ==> Condemned(c, t, w, f);
  }

  ghost function Owed(): PC -> nat { (pc: PC) => Bit(OwesMessage(pc)) }

  /** All failures so far were told, but for the messages still owed. */
  ghost predicate Told(s: State, failures: nat) {
    && Sum(s.pcs, Owed()) <= failures
    && |s.errors| == if failures - Sum(s.pcs, Owed()) < 64 then failures - Sum(s.pcs, Owed()) else 64
  }

  lemma TellStep(s: State, w: nat, e: Event, t: State, failures: nat)
    requires MessageEffect(s, w, e, t) && Told(s, failures)
    ensures Told(t, failures + Bit(e.IoErr?))
  {
    hide Sum; hide OwesMessage; hide AtMessage;
    SumUpdate(s.pcs, w, t.pcs[w], Owed());
    SumAtLeast(s.pcs, w, Owed());
  }

  /** What the first `n` steps of a run have left of their failures. */
  ghost predicate Traced(c: Config, r: Run, n: nat, f: nat)
    requires n < |r.states| && n <= |r.events|
  {
    && f < |r.states[n].entries| && f < |r.states[n].flog|
    && (Doomed(c, r.states[n], f) <==> FailedBefore(c, r, n, f))
    && (r.states[n].flog[f].trim.TrimFailed? <==> TrimFailedBefore(r, n, f))
    && Told(r.states[n], FailureCount(r.events, n))
  }

  lemma TracedAtFirst(c: Config, r: Run, f: nat)
    requires IsRun(c, r) && f < |c.files|
    ensures Traced(c, r, 0, f)
  {
    hide Next; hide WellPlanned;
    SumZero(r.states[0].pcs, Owed());
    assert forall v :: 0 <= v < |r.states[0].pcs| ==> r.states[0].pcs[v] == Idle(Head);
  }

  lemma FailedNext(c: Config, r: Run, n: nat, f: nat)
    ensures FailedBefore(c, r, n + 1, f) <==> FailedBefore(c, r, n, f) || FailsOn(c, r, n, f)
    ensures TrimFailedBefore(r, n + 1, f) <==> TrimFailedBefore(r, n, f) || TrimFails(r, n, f)
  {
    hide FailsOn; hide TrimFails;
  }

  lemma TrimmedOnce(c: Config, s: State, w: nat, f: nat)
    requires Inv(c, s) && w < |s.pcs| && s.pcs[w] == Finishing(f, Trim) && f < |s.flog|
    ensures !s.flog[f].trim.TrimFailed?
  {
    TrimIsLast(c, s, w, f);
  }

  lemma TracedNext(c: Config, r: Run, n: nat, f: nat)
    requires IsRun(c, r) && n < |r.workers| && Traced(c, r, n, f)
    ensures Traced(c, r, n + 1, f)
  {
    var s, w, e, t := r.states[n], r.workers[n], r.events[n], r.states[n + 1];
    assert Next(c, s, w, e, t);
    hide Next; hide Inv; hide Init; hide WellPlanned; hide Doomed; hide Condemned; hide Told; hide OnFile;
    hide OwesMessage; hide AtMessage; hide FailedBefore; hide TrimFailedBefore; hide IsRun; hide Sum;
    AlwaysInv(c, r, n);
    StepEffect(c, s, w, e, t, f);
    FailedNext(c, r, n, f);
    DoomStep(c, s, w, e, t, f);
    TellStep(s, w, e, t, FailureCount(r.events, n));
    if s.pcs[w] == Finishing(f, Trim) {
      TrimmedOnce(c, s, w, f);
    }
  }

  lemma {:induction false} TracedAlways(c: Config, r: Run, n: nat, f: nat)
    requires IsRun(c, r) && n < |r.states| && f < |c.files|
    ensures Traced(c, r, n, f)
  {
    hide Traced; hide Next; hide WellPlanned; hide Init;
    if n == 0 {
      TracedAtFirst(c, r, f);
    } else {
      TracedAlways(c, r, n - 1, f);
      TracedNext(c, r, n - 1, f);
    }
  }

  // ---- at the end ----------------------------------------------------------

  /**
   After the join a file is missing from the count exactly when some operation on one of its chunks
   failed, its trim is noted as failed exactly when it failed, and there is one message for each
   failing operation, up to the 64 that are kept.
   */
  lemma FailuresDecide(c: Config, r: Run, s: State, f: nat)
    requires IsRun(c, r) && s == Last(r) && AllExited(s) && f < |c.files|
    ensures f < |s.flog| && (s.flog[f].counted <==> !FailedBefore(c, r, |r.events|, f))
    ensures s.flog[f].trim.TrimFailed? <==> TrimFailedBefore(r, |r.events|, f)
    ensures var failures := FailureCount(r.events, |r.events|);
            |s.errors| == if failures < 64 then failures else 64
  {
    hide FailedBefore; hide TrimFailedBefore; hide Next; hide Init; hide WellPlanned; hide Inv;
    TracedAlways(c, r, |r.events|, f);
    AlwaysInv(c, r, |r.states| - 1);
    ExitSettlesFiles(c, s, f);
    SumZero(s.pcs, Owed());
    CondemnedAtExit(c, s, f);
  }

  lemma CondemnedAtExit(c: Config, s: State, f: nat)
    requires AllExited(s) && Inv(c, s) && f < |s.entries|
    ensures Doomed(c, s, f) <==> s.entries[f].failed
  {
    assert |s.pcs| > 0;
    hide Inv;
    assert s.entries[f].failed ==> Condemned(c, s, 0, f);
  }

  lemma {:induction false} CountsFailures(events: seq<Event>, n: nat)
    requires n <= |events|
    ensures FailureCount(events, n) == 0 <==> forall i :: 0 <= i < n ==> !events[i].IoErr?
  {
    if n > 0 {
      CountsFailures(events, n - 1);
    }
  }

  /** No message means that no operation failed, and the other way round. */
  lemma SilentMeansQuiet(c: Config, r: Run, s: State)
    requires IsRun(c, r) && s == Last(r) && AllExited(s)
    ensures s.errors == [] <==> Quiet(r)
  {
    hide Next; hide Init; hide AllExited;
    FailuresDecide(c, r, s, 0);
    CountsFailures(r.events, |r.events|);
  }
}
