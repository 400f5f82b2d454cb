/** What a finished run has done: every file copied or reported, nothing lost, nothing else touched. */
module Outcome {
  import opened Counting
  import opened Device
  import opened Pipeline
  import opened Ownership
  import opened History
  import opened Finalisation
  import opened Content
  import opened Destinations
  import opened Progress
  import opened Copy

  ghost predicate AllExited(s: State) {
    forall v :: 0 <= v < |s.pcs| ==> s.pcs[v].Exited?
  }

  // ---- everything is settled -----------------------------------------------

  lemma NobodyInside(pc: PC, f: nat)
    requires pc.Exited?
    ensures !Inside(pc, f)
  {}

  lemma ExitSettlesJobs(c: Config, s: State)
    requires Inv(c, s) && AllExited(s)
    ensures s.remaining == 0 && s.filled == [] && |c.jobs| <= s.cursor
    ensures forall j :: 0 <= j < |c.jobs| ==> !s.log[j].fate.Live?
    ensures forall b: nat :: b < c.capacity ==> b in s.free
    ensures forall f :: 0 <= f < |s.entries| ==> s.entries[f].lock.Unlocked?
  {
    assert IdleFacts(c, s, s.pcs[0]);
    forall j: nat | j < |c.jobs| ensures !s.log[j].fate.Live? {
      assert JobPlaces(s, j) == 1;
      SumZero(s.pcs, AtWork(j));
    }
    forall b: nat | b < c.capacity ensures b in s.free {
      assert BufPlaces(s, b) == 1;
      SumZero(s.pcs, InHand(b));
      hide Sum;
      var i := SumWitness<nat>(s.free, IsBuf(b));
    }
    forall f: nat | f < |s.entries| ensures s.entries[f].lock.Unlocked? {
      if s.entries[f].lock.LockedBy? {
        NobodyInside(s.pcs[s.entries[f].lock.worker], f);
      }
    }
  }

  /**
   After the join a file is counted exactly when each of its chunks was read and written without
   an error; every other file is marked failed, and the error list names it unless it was full.
   */
  lemma ExitSettlesFiles(c: Config, s: State, f: nat)
    requires Inv(c, s) && AllExited(s) && f < |c.files|
    ensures s.flog[f].counted <==>
              forall j :: 0 <= j < |c.jobs| && c.jobs[j].file == f ==> s.log[j].fate.Credited? && s.log[j].result.Wrote?
    ensures s.flog[f].counted <==> !s.entries[f].failed
    ensures s.flog[f].counted ==> !s.flog[f].trim.Untrimmed? && (s.flog[f].trim.TrimFailed? ==> Reported(s.errors, f))
    ensures !s.flog[f].counted ==> Reported(s.errors, f)
  {
    ExitSettlesJobs(c, s);
    UnmarkedFileIsCounted(c, s, f);
    assert FileFinal(c, s, f) && (FailedFile(s, f) ==> Reported(s.errors, f));
    DoneAtMostChunks(c, s, f);
    if s.flog[f].counted {
      forall j | 0 <= j < |c.jobs| && c.jobs[j].file == f ensures s.log[j].fate.Credited? && s.log[j].result.Wrote? {
        assert JobHistory(c, s, j);
      }
    } else {
      var j :| 0 <= j < |s.log| && Spoils(s.log[j], f);
      assert JobHistory(c, s, j);
    }
  }

  lemma UnmarkedFileIsCounted(c: Config, s: State, f: nat)
    requires Inv(c, s) && AllExited(s) && f < |c.files|
    requires forall j :: 0 <= j < |c.jobs| ==> !s.log[j].fate.Live?
    ensures s.flog[f].counted <==> !s.entries[f].failed
    ensures s.flog[f].counted ==> s.entries[f].done == c.chunks[f] && !s.flog[f].trim.Untrimmed?
  {
    assert FileFinal(c, s, f);
    SumZero(s.pcs, Trimming(f));
    SumZero(s.pcs, Settling(f));
    if !s.entries[f].failed {
      forall j | 0 <= j < |s.log| ensures CreditsOf(f)(s.log[j]) == LogOf(f)(s.log[j]) {
        assert JobHistory(c, s, j);
      }
      hide Sum;
      SumMonotone(s.log, LogOf(f), CreditsOf(f));
      SumMonotone(s.log, CreditsOf(f), LogOf(f));
      SumOverLog(c.jobs, s.log, f);
    }
  }

  // ---- no shortfall goes unreported ----------------------------------------

  lemma CountedAtMostFiles(flog: seq<FileLog>)
    ensures Sum(flog, CountedFile()) <= |flog|
    ensures Sum(flog, CountedFile()) == |flog| <==> forall f :: 0 <= f < |flog| ==> flog[f].counted
  {
    if flog != [] {
      CountedAtMostFiles(flog[..|flog| - 1]);
    }
  }

  /**
   After the join `files_done` is the number of planned files exactly when every file is counted;
   any shortfall leaves a message, and at most 64 of them.
   */
  lemma NoSilentShortfall(c: Config, s: State)
    requires Inv(c, s) && AllExited(s)
    ensures s.filesDone <= |c.files| && |s.errors| <= ERROR_CAP
    ensures s.filesDone < |c.files| ==> s.errors != []
    ensures s.filesDone == |c.files| <==> forall f :: 0 <= f < |c.files| ==> s.flog[f].counted
    ensures s.errors == [] ==> forall f :: 0 <= f < |c.files| ==> s.flog[f].counted && s.flog[f].trim.Trimmed?
  {
    CountedAtMostFiles(s.flog);
    forall f: nat | f < |c.files|
      ensures !s.flog[f].counted ==> Reported(s.errors, f)
      ensures s.flog[f].counted ==> !s.flog[f].trim.Untrimmed? && (s.flog[f].trim.TrimFailed? ==> Reported(s.errors, f))
    {
      ExitSettlesFiles(c, s, f);
    }
  }

  // ---- a run without I/O failures ------------------------------------------

  predicate CleanPc(pc: PC) {
    match pc
    case Dropping(_, _, _) => false
    case Writing(_, p) => p != UnlockMaster(false) && !p.WriteReport? && !p.WriteMark?
    case Finishing(_, p) => !p.TrimReport?
    case _ => true
  }

  ghost predicate Clean(s: State) {
    s.errors == [] && forall v :: 0 <= v < |s.pcs| ==> CleanPc(s.pcs[v])
  }

  lemma CleanPrepare(c: Config, s: State, w: nat, k: Chunk, p: WritePC, e: Event)
    requires CanPrepare(c, s, w, k, p, e) && CleanPc(s.pcs[w]) && !e.IoErr?
    ensures PrepareStep(c, s, w, k, p, e).errors == s.errors && CleanPc(PrepareStep(c, s, w, k, p, e).pcs[w])
  {}

  lemma CleanWrite(c: Config, s: State, w: nat, k: Chunk, p: WritePC, e: Event)
    requires CanWrite(c, s, w, k, p, e) && CleanPc(s.pcs[w]) && !e.IoErr?
    ensures WriteStep(c, s, w, k, p, e).errors == s.errors && CleanPc(WriteStep(c, s, w, k, p, e).pcs[w])
  {}

  lemma CleanRead(c: Config, s: State, w: nat, b: nat, j: nat, r: ReadPC, e: Event)
    requires CanRead(c, s, w, b, j, r, e) && !e.IoErr?
    ensures ReadStep(c, s, w, b, j, r, e).errors == s.errors && CleanPc(ReadStep(c, s, w, b, j, r, e).pcs[w])
  {}

  lemma CleanIdle(c: Config, s: State, w: nat, i: IdlePC, e: Event)
    requires CanIdle(s, w, i, e)
    ensures IdleStep(c, s, w, i, e).errors == s.errors && CleanPc(IdleStep(c, s, w, i, e).pcs[w])
  {}

  lemma CleanFin(c: Config, s: State, w: nat, f: nat, p: FinPC, e: Event)
    requires CanFin(c, s, w, f, p, e) && CleanPc(s.pcs[w]) && !e.IoErr?
    ensures FinStep(c, s, w, f, p, e).errors == s.errors && CleanPc(FinStep(c, s, w, f, p, e).pcs[w])
  {}

  lemma CleanStep(c: Config, s: State, w: nat, e: Event, t: State)
    requires Next(c, s, w, e, t) && Clean(s) && !e.IoErr?
    ensures Clean(t)
  {
    LocalStep(c, s, w, e, t);
    hide WellPlanned; hide Shape; hide CleanPc;
    hide IdleStep; hide ReadStep; hide DropStep; hide PrepareStep; hide WriteStep; hide FinStep;
    assert CleanPc(s.pcs[w]);
    NeverDropping(s.pcs[w]);
    match s.pcs[w]
    case Idle(i) => CleanIdle(c, s, w, i, e);
    case Reading(b, j, r) => CleanRead(c, s, w, b, j, r, e);
    case Writing(k, p) => if PreparePC(p) { CleanPrepare(c, s, w, k, p, e); } else { CleanWrite(c, s, w, k, p, e); }
    case Finishing(f, p) => CleanFin(c, s, w, f, p, e);
  }

  lemma NeverDropping(pc: PC)
    requires CleanPc(pc)
    ensures !pc.Dropping?
  {}

  lemma {:induction false} CleanRun(c: Config, r: Run, n: nat)
    requires IsRun(c, r) && n < |r.states| && forall i :: 0 <= i < |r.events| ==> !r.events[i].IoErr?
    ensures Clean(r.states[n])
  {
    if n > 0 {
      CleanRun(c, r, n - 1);
      CleanStep(c, r.states[n - 1], r.workers[n - 1], r.events[n - 1], r.states[n]);
    }
  }

  // ---- full-length transfers -----------------------------------------------

  /** What is asked of the numbers of bytes that successful reads and writes report, job by job. */
  datatype Quota = Quota(read: (nat, nat) -> bool, write: (nat, nat) -> bool)

  /** The step is no transfer, or one that reports a number the quota allows. */
  predicate Meets(q: Quota, s: State, w: nat, e: Event)
    requires w < |s.pcs|
  {
    match s.pcs[w]
    case Reading(_, j, r) => r.ReadSrc? && e.IoOk? ==> q.read(j, e.n)
    case Writing(k, p) => p.WriteDst? && e.IoOk? ==> q.write(k.job, e.n)
    case _ => true
  }

  predicate MetEntry(q: Quota, j: nat, l: JobLog) {
    && (l.readCounted ==> q.read(j, l.got))
    && (l.result.Wrote? ==> q.write(j, l.result.put))
  }

  predicate MetPc(q: Quota, s: State, pc: PC) {
    match pc
    case Reading(_, j, r) => (r.ZeroSlack? || r.CountRead?) && j < |s.log| ==> q.read(j, s.log[j].got)
    case _ => true
  }

  predicate MetLog(q: Quota, s: State) {
    && (forall j :: 0 <= j < |s.log| ==> MetEntry(q, j, s.log[j]))
    && (forall v :: 0 <= v < |s.pcs| ==> MetPc(q, s, s.pcs[v]))
  }

  ghost predicate OwnMet(q: Quota, s: State, w: nat, t: State) {
    && w < |s.pcs| == |t.pcs| && |s.log| == |t.log| && MetPc(q, t, t.pcs[w])
    && forall j :: 0 <= j < |s.log| && WorksOn(s.pcs[w], j) ==> MetEntry(q, j, t.log[j])
  }

  lemma IdleMeets(q: Quota, c: Config, s: State, w: nat, i: IdlePC, e: Event)
    requires CanIdle(s, w, i, e)
    ensures OwnMet(q, s, w, IdleStep(c, s, w, i, e))
  {}

  lemma ReadMeets(q: Quota, c: Config, s: State, w: nat, b: nat, j: nat, r: ReadPC, e: Event)
    requires CanRead(c, s, w, b, j, r, e) && MetLog(q, s) && Meets(q, s, w, e)
    requires PcHistory(c, s, s.pcs[w])
    ensures OwnMet(q, s, w, ReadStep(c, s, w, b, j, r, e))
  {
    assert MetPc(q, s, s.pcs[w]) && MetEntry(q, j, s.log[j]);
  }

  lemma DropMeets(q: Quota, c: Config, s: State, w: nat, b: nat, j: nat, d: DropPC)
    requires CanDrop(c, s, w, b, j, d) && MetLog(q, s)
    ensures OwnMet(q, s, w, DropStep(c, s, w, b, j, d))
  {}

  lemma PrepareMeets(q: Quota, c: Config, s: State, w: nat, k: Chunk, p: WritePC, e: Event)
    requires CanPrepare(c, s, w, k, p, e) && MetLog(q, s)
    ensures OwnMet(q, s, w, PrepareStep(c, s, w, k, p, e))
  {}

  lemma WriteMeets(q: Quota, c: Config, s: State, w: nat, k: Chunk, p: WritePC, e: Event)
    requires CanWrite(c, s, w, k, p, e) && MetLog(q, s) && Meets(q, s, w, e)
    ensures OwnMet(q, s, w, WriteStep(c, s, w, k, p, e))
  {
    hide WriteAt;
    assert MetEntry(q, k.job, s.log[k.job]);
  }

  lemma FinMeets(q: Quota, c: Config, s: State, w: nat, f: nat, p: FinPC, e: Event)
    requires CanFin(c, s, w, f, p, e)
    ensures OwnMet(q, s, w, FinStep(c, s, w, f, p, e))
  {}

  lemma MetStep(q: Quota, c: Config, s: State, w: nat, e: Event, t: State)
    requires Next(c, s, w, e, t) && MetLog(q, s) && Meets(q, s, w, e) && HistoryInv(c, s) && JobInv(c, s)
    ensures MetLog(q, t)
  {
    LocalStep(c, s, w, e, t);
    NobodyElse(c, s, w);
    assert PcHistory(c, s, s.pcs[w]) && PcOk(c, s.pcs[w]);
    assert OwnMet(q, s, w, t) by {
      hide OwnMet; hide WellPlanned; hide MetLog; hide Meets; hide PcHistory; hide Local;
      hide IdleStep; hide ReadStep; hide DropStep; hide PrepareStep; hide WriteStep; hide FinStep;
      match s.pcs[w]
      case Idle(i) => IdleMeets(q, c, s, w, i, e);
      case Reading(b, j, r) => ReadMeets(q, c, s, w, b, j, r, e);
      case Dropping(b, j, d) => DropMeets(q, c, s, w, b, j, d);
      case Writing(k, p) =>
        if PreparePC(p) { PrepareMeets(q, c, s, w, k, p, e); } else { WriteMeets(q, c, s, w, k, p, e); }
      case Finishing(f, p) => FinMeets(q, c, s, w, f, p, e);
    }
    hide Next; hide HistoryInv; hide JobInv; hide Shape; hide WellPlanned; hide Meets; hide PcHistory;
    forall v: nat | v < |t.pcs| && v != w ensures MetPc(q, t, t.pcs[v]) {
      assert MetPc(q, s, s.pcs[v]);
      if s.pcs[v].Reading? && s.pcs[v].job < |s.log| {
        assert WorksOn(s.pcs[v], s.pcs[v].job);
      }
    }
  }

  ghost predicate AllMeet(q: Quota, r: Run)
    requires |r.states| == |r.workers| + 1 == |r.events| + 1
  {
    forall i: nat :: i < |r.workers| && r.workers[i] < |r.states[i].pcs| ==>
      Meets(q, r.states[i], r.workers[i], r.events[i])
  }

  lemma {:induction false} MetRun(q: Quota, c: Config, r: Run, n: nat)
    requires IsRun(c, r) && n < |r.states| && AllMeet(q, r)
    ensures MetLog(q, r.states[n])
  {
    if n > 0 {
      MetRun(q, c, r, n - 1);
      MetNext(q, c, r, n - 1);
    } else {
      MetAtFirst(q, c, r);
    }
  }

  lemma MetAtFirst(q: Quota, c: Config, r: Run)
    requires IsRun(c, r)
    ensures MetLog(q, r.states[0])
  {
    hide Next;
  }

  lemma MetNext(q: Quota, c: Config, r: Run, n: nat)
    requires IsRun(c, r) && n < |r.workers| && AllMeet(q, r) && MetLog(q, r.states[n])
    ensures MetLog(q, r.states[n + 1])
  {
    hide Meets; hide MetLog; hide Next; hide Init;
    AlwaysInv(c, r, n);
    assert Next(c, r.states[n], r.workers[n], r.events[n], r.states[n + 1]);
    InRangeStep(c, r.states[n], r.workers[n], r.events[n], r.states[n + 1]);
    hide Inv;
    MetStep(q, c, r.states[n], r.workers[n], r.events[n], r.states[n + 1]);
  }

  lemma InRangeStep(c: Config, s: State, w: nat, e: Event, t: State)
    requires Inv(c, s) && Next(c, s, w, e, t)
    ensures w < |s.pcs| && HistoryInv(c, s) && JobInv(c, s)
  {}

  ghost predicate Quiet(r: Run) {
    forall i :: 0 <= i < |r.events| ==> !r.events[i].IoErr?
  }

  /** Without a failing operation all files are counted and trimmed, and nothing is reported. */
  lemma QuietCopy(c: Config, r: Run, s: State)
    requires IsRun(c, r) && s == Last(r) && AllExited(s) && Quiet(r)
    ensures Inv(c, s) && s.filesDone == |c.files| && s.errors == []
    ensures forall f :: 0 <= f < |c.files| ==> s.flog[f].counted && s.flog[f].trim.Trimmed?
  {
    AlwaysInv(c, r, |r.states| - 1);
    CleanRun(c, r, |r.states| - 1);
    NoSilentShortfall(c, s);
  }

  ghost function WroteLen(): JobLog -> nat { (l: JobLog) => if l.result.Wrote? then l.job.len else 0 }

  /** After the join the bytes reported as written are those of the chunks whose write succeeded. */
  lemma ExitCountsBytes(c: Config, s: State)
    requires Inv(c, s) && AllExited(s)
    ensures s.bytesWritten == Sum(s.log, WroteLen())
  {
    ExitSettlesJobs(c, s);
    forall j | 0 <= j < |s.log| ensures WroteLen()(s.log[j]) == WrittenLen()(s.log[j]) {
      assert JobHistory(c, s, j);
    }
    hide Sum;
    SumMonotone(s.log, WroteLen(), WrittenLen());
    SumMonotone(s.log, WrittenLen(), WroteLen());
  }

  /** Without a failing operation the counters end at the length of the whole plan. */
  lemma QuietTotals(c: Config, r: Run, s: State)
    requires IsRun(c, r) && s == Last(r) && AllExited(s) && Quiet(r)
    ensures s.bytesRead == s.bytesWritten == Sum(c.jobs, JobLen())
  {
    QuietCopy(c, r, s);
    forall j | 0 <= j < |s.log| ensures WroteLen()(s.log[j]) == LogLen()(s.log[j]) {
      assert JobFits(c, c.jobs[j]);
      ExitSettlesFiles(c, s, c.jobs[j].file);
    }
    hide AllExited;
    ExitCountsBytes(c, s);
    hide Sum;
    SumMonotone(s.log, WroteLen(), LogLen());
    SumMonotone(s.log, LogLen(), WroteLen());
    LogLenIsJobLen(c.jobs, s.log);
    BytesInOrder(c, s);
  }

  /** Every transfer moved at least the job's bytes. */
  function WholeJobs(c: Config): Quota {
    var full := (j: nat, n: nat) => j < |c.jobs| && c.jobs[j].len <= n;
    Quota(full, full)
  }

  /**
   The promise of the copier: if no file operation fails and none falls short, then whatever the
   schedule and the roles, all files are counted, nothing is reported, and every destination
   equals its source.
   */
  lemma CleanCopy(c: Config, r: Run, s: State)
    requires IsRun(c, r) && s == Last(r) && AllExited(s) && Quiet(r) && AllMeet(WholeJobs(c), r)
    requires forall f :: 0 <= f < |c.files| ==> |c.files[f].source| == c.files[f].size
    ensures s.filesDone == |c.files| && s.errors == []
    ensures forall f :: 0 <= f < |c.files| ==>
              c.files[f].dst in s.disk && s.disk[c.files[f].dst] == c.files[f].source
  {
    QuietCopy(c, r, s);
    MetRun(WholeJobs(c), c, r, |r.states| - 1);
    forall f: nat | f < |c.files| ensures c.files[f].dst in s.disk && s.disk[c.files[f].dst] == c.files[f].source {
      WholeFile(c, s, f);
    }
  }

  lemma WholeFile(c: Config, s: State, f: nat)
    requires Inv(c, s) && f < |c.files| && s.flog[f].counted && s.flog[f].trim.Trimmed? && MetLog(WholeJobs(c), s)
    requires |c.files[f].source| == c.files[f].size
    ensures c.files[f].dst in s.disk && s.disk[c.files[f].dst] == c.files[f].source
  {
    CountedIsDelivered(c, s, f);
    assert FileFinal(c, s, f);
    DoneAtMostChunks(c, s, f);
    forall j | 0 <= j < |c.jobs| && c.jobs[j].file == f ensures Whole(s.log[j]) {
      assert JobHistory(c, s, j) && MetEntry(WholeJobs(c), j, s.log[j]);
    }
    ByteExact(c, s, f);
  }

  /** Byte `i` of job `j` is the byte that was read, or zero past what was read, if the write took it. */
  ghost predicate ByteAt(c: Config, s: State, j: nat, i: nat)
    requires j < |c.jobs| && j < |s.log| && c.jobs[j].file < |c.files| && s.log[j].result.Wrote?
  {
    var spec, at, l := c.files[c.jobs[j].file], c.jobs[j].offset + i, s.log[j];
    && spec.dst in s.disk && |s.disk[spec.dst]| == spec.size && at < spec.size
    && (i < l.got ==> at < |spec.source|)
    && (i < l.result.put ==> s.disk[spec.dst][at] == if i < l.got then spec.source[at] else 0)
  }

  lemma CountedByte(c: Config, s: State, j: nat, i: nat)
    requires Inv(c, s) && j < |c.jobs| && i < c.jobs[j].len
    requires s.flog[c.jobs[j].file].counted && s.flog[c.jobs[j].file].trim.Trimmed?
    ensures s.log[j].readCounted && s.log[j].result.Wrote? && ByteAt(c, s, j, i)
  {
    assert JobFits(c, c.jobs[j]);
    var f := c.jobs[j].file;
    assert FileFinal(c, s, f) && JobHistory(c, s, j);
    DoneAtMostChunks(c, s, f);
    CountedIsDelivered(c, s, f);
    PaddingIsPast(c, j, i);
    hide Inv;
    assert s.disk[c.files[f].dst][c.jobs[j].offset + i] == Arrived(c, s.log[j], s.flog[f].prep, i);
  }

  /** In a quiet run every byte is the byte read, and the numbers read and written are those the quota tells. */
  lemma QuietBytes(q: Quota, c: Config, r: Run, s: State, j: nat, i: nat)
    requires IsRun(c, r) && s == Last(r) && AllExited(s) && Quiet(r) && AllMeet(q, r)
    requires j < |c.jobs| && i < c.jobs[j].len
    ensures j < |s.log| && c.jobs[j].file < |c.files| && s.log[j].result.Wrote? && ByteAt(c, s, j, i)
    ensures q.read(j, s.log[j].got) && q.write(j, s.log[j].result.put)
  {
    QuietCopy(c, r, s);
    MetRun(q, c, r, |r.states| - 1);
    assert JobFits(c, c.jobs[j]);
    CountedByte(c, s, j, i);
    assert MetEntry(q, j, s.log[j]);
  }

  /** The source bytes of a job past the first `n` are zero. */
  ghost predicate RestIsZero(c: Config, job: Job, n: nat) {
    && job.file < |c.files|
    && forall k: nat :: job.offset + n <= k < job.offset + job.len && k < |c.files[job.file].source| ==>
         c.files[job.file].source[k] == 0
  }

  /** Reads that report `got(j)` bytes for job `j`, and writes that take the whole job. */
  function Reporting(c: Config, got: nat -> nat): Quota {
    Quota((j: nat, n: nat) => n == got(j), (j: nat, n: nat) => j < |c.jobs| && c.jobs[j].len <= n)
  }

  /**
   In a run without a failing operation and with full writes, a copy equals a source of the scanned
   size if and only if each read stopped, if it did, before nothing but zeros.
   */
  lemma ExactlyWhenRestIsZero(c: Config, r: Run, s: State, got: nat -> nat, f: nat)
    requires IsRun(c, r) && s == Last(r) && AllExited(s) && Quiet(r) && AllMeet(Reporting(c, got), r)
    requires f < |c.files| && |c.files[f].source| == c.files[f].size
    ensures c.files[f].dst in s.disk
    ensures s.disk[c.files[f].dst] == c.files[f].source <==>
              forall j: nat :: j < |c.jobs| && c.jobs[j].file == f ==> RestIsZero(c, c.jobs[j], got(j))
  {
    QuietCopy(c, r, s);
    MetRun(Reporting(c, got), c, r, |r.states| - 1);
    ExactlyWhenIntact(c, s, f);
    forall j: nat | j < |c.jobs| && c.jobs[j].file == f
      ensures RestIsZero(c, c.jobs[j], got(j)) <==> JobKept(c, s, f, j)
    {
      KeptMeansRestIsZero(c, s, got, f, j);
    }
    hide Inv; hide Kept; hide RestIsZero;
    assert AllKept(c, s, f) <==> forall j: nat :: j < |c.jobs| && c.jobs[j].file == f ==> JobKept(c, s, f, j);
  }

  ghost predicate JobKept(c: Config, s: State, f: nat, j: nat)
    requires Inv(c, s) && f < |c.files| && Delivered(c, s, f) && |c.files[f].source| == |s.disk[c.files[f].dst]|
    requires j < |c.jobs| && c.jobs[j].file == f
  {
    forall i: nat :: Within(c, c.jobs[j], |c.files[f].source|, i) ==> Kept(c, s.log[j], s.flog[f].prep, i)
  }

  lemma KeptMeansRestIsZero(c: Config, s: State, got: nat -> nat, f: nat, j: nat)
    requires Inv(c, s) && f < |c.files| && Delivered(c, s, f)
    requires |c.files[f].source| == c.files[f].size == |s.disk[c.files[f].dst]|
    requires s.flog[f].counted && MetLog(Reporting(c, got), s) && j < |c.jobs| && c.jobs[j].file == f
    ensures RestIsZero(c, c.jobs[j], got(j)) <==> JobKept(c, s, f, j)
  {
    hide Kept;
    assert JobFits(c, c.jobs[j]) && JobHistory(c, s, j) && FileFinal(c, s, f);
    DoneAtMostChunks(c, s, f);
    assert MetEntry(Reporting(c, got), j, s.log[j]) && s.log[j].job == c.jobs[j];
    var l, prep := s.log[j], s.flog[f].prep;
    assert l.got == got(j) && l.job.len <= l.result.put;
    forall i: nat ensures Within(c, l.job, |c.files[f].source|, i) <==> i < l.job.len {
      PaddingIsPast(c, j, i);
    }
    hide Inv; hide JobFits; hide JobHistory; hide FileFinal; hide MetLog; hide Delivered;
    RestIsKept(c, l, prep);
  }

  lemma RestIsKept(c: Config, l: JobLog, prep: seq<byte>)
    requires l.result.Wrote? && l.job.file < |c.files| && l.job.len <= l.result.put
    requires l.job.offset + l.job.len <= |prep| && l.job.offset + l.job.len <= |c.files[l.job.file].source|
    ensures RestIsZero(c, l.job, l.got) <==> forall i: nat :: i < l.job.len ==> Kept(c, l, prep, i)
  {
    var source := c.files[l.job.file].source;
    if forall i: nat :: i < l.job.len ==> Kept(c, l, prep, i) {
      forall k: nat | l.job.offset + l.got <= k < l.job.offset + l.job.len && k < |source| ensures source[k] == 0 {
        assert Kept(c, l, prep, k - l.job.offset);
      }
    }
  }

  /**
   A read that falls short of a byte that is not zero goes unnoticed: the file is counted, nothing is
   reported, and the copy differs from its source.
   */
  lemma ShortReadGoesUnnoticed(c: Config, r: Run, s: State, j: nat, i: nat)
    requires IsRun(c, r) && s == Last(r) && AllExited(s) && Quiet(r)
    requires j < |c.jobs| && j < |s.log| && s.log[j].result.Wrote? && s.log[j].got <= i < c.jobs[j].len
              && i < s.log[j].result.put
    requires c.jobs[j].file < |c.files| && c.jobs[j].offset + i < |c.files[c.jobs[j].file].source|
    requires c.files[c.jobs[j].file].source[c.jobs[j].offset + i] != 0
    ensures s.errors == [] && s.filesDone == |c.files|
    ensures c.files[c.jobs[j].file].dst in s.disk
              && s.disk[c.files[c.jobs[j].file].dst] != c.files[c.jobs[j].file].source
  {
    QuietCopy(c, r, s);
    var any := Quota((_, _) => true, (_, _) => true);
    QuietBytes(any, c, r, s, j, i);
  }

  // ---- files outside the plan ----------------------------------------------

  ghost predicate Planned(c: Config, p: Path) {
    exists f :: 0 <= f < |c.files| && c.files[f].dst == p
  }

  ghost predicate SameFile(s: State, t: State, p: Path) {
    (p in s.disk <==> p in t.disk) && (p in s.disk ==> s.disk[p] == t.disk[p])
  }

  lemma PrepareForeign(c: Config, s: State, w: nat, k: Chunk, q: WritePC, e: Event, p: Path)
    requires CanPrepare(c, s, w, k, q, e) && c.files[k.file].dst != p
    ensures SameFile(s, PrepareStep(c, s, w, k, q, e), p)
  {}

  lemma WriteForeign(c: Config, s: State, w: nat, k: Chunk, q: WritePC, e: Event, p: Path)
    requires CanWrite(c, s, w, k, q, e) && c.files[k.file].dst != p
    ensures SameFile(s, WriteStep(c, s, w, k, q, e), p)
  {
    hide WriteAt;
  }

  lemma FinForeign(c: Config, s: State, w: nat, f: nat, q: FinPC, e: Event, p: Path)
    requires CanFin(c, s, w, f, q, e) && c.files[f].dst != p
    ensures SameFile(s, FinStep(c, s, w, f, q, e), p)
  {
    hide SetLen;
  }

  lemma QuietForeign(c: Config, s: State, w: nat, e: Event, t: State)
    requires Next(c, s, w, e, t) && !s.pcs[w].Writing? && !s.pcs[w].Finishing?
    ensures t.disk == s.disk
  {
    hide Shape; hide WellPlanned; hide PrepareStep; hide WriteStep; hide FinStep;
    match s.pcs[w]
    case Idle(_) =>
    case Reading(_, _, _) =>
    case Dropping(_, _, _) =>
  }

  lemma ForeignStep(c: Config, s: State, w: nat, e: Event, t: State, p: Path)
    requires Next(c, s, w, e, t) && !Planned(c, p)
    ensures SameFile(s, t, p)
  {
    if s.pcs[w].Writing? || s.pcs[w].Finishing? {
      hide PrepareStep; hide WriteStep; hide FinStep; hide WellPlanned; hide Shape;
      match s.pcs[w]
      case Writing(k, q) =>
        if PreparePC(q) { PrepareForeign(c, s, w, k, q, e, p); } else { WriteForeign(c, s, w, k, q, e, p); }
      case Finishing(f, q) => FinForeign(c, s, w, f, q, e, p);
    } else {
      QuietForeign(c, s, w, e, t);
    }
  }

  /** A run never creates, changes or removes a file outside its plan. */
  lemma {:induction false} ForeignFilesStay(c: Config, r: Run, n: nat, p: Path)
    requires IsRun(c, r) && n < |r.states| && !Planned(c, p)
    ensures SameFile(r.states[0], r.states[n], p)
  {
    if n > 0 {
      ForeignFilesStay(c, r, n - 1, p);
      ForeignStep(c, r.states[n - 1], r.workers[n - 1], r.events[n - 1], r.states[n], p);
    }
  }
}
