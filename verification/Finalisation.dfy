/** Locks and finalisation: a file is trimmed once, by one worker, after its last chunk. */
module Finalisation {
  import opened Counting
  import opened Pipeline
  import opened Ownership
  import opened History

  // ---- the master lock -----------------------------------------------------

  ghost predicate OwnLock(c: Config, s: State, w: nat, t: State) {
    && w < |s.pcs| == |t.pcs| && |t.entries| == |s.entries| == |c.files|
    && (forall f: nat :: f < |c.files| ==> (Inside(t.pcs[w], f) <==> t.entries[f].lock == LockedBy(w)))
    && (forall f: nat, v: nat :: f < |c.files| && v != w ==>
          (t.entries[f].lock == LockedBy(v) <==> s.entries[f].lock == LockedBy(v)))
  }

  ghost predicate HoldsLocksOf(c: Config, s: State, w: nat) {
    && w < |s.pcs| && |s.entries| == |c.files|
    && forall f: nat :: f < |c.files| ==> (Inside(s.pcs[w], f) <==> s.entries[f].lock == LockedBy(w))
  }

  lemma IdleLock(c: Config, s: State, w: nat, i: IdlePC, e: Event)
    requires CanIdle(s, w, i, e) && HoldsLocksOf(c, s, w)
    ensures OwnLock(c, s, w, IdleStep(c, s, w, i, e))
  {}

  lemma ReadLock(c: Config, s: State, w: nat, b: nat, j: nat, r: ReadPC, e: Event)
    requires CanRead(c, s, w, b, j, r, e) && HoldsLocksOf(c, s, w)
    ensures OwnLock(c, s, w, ReadStep(c, s, w, b, j, r, e))
  {}

  lemma DropLock(c: Config, s: State, w: nat, b: nat, j: nat, d: DropPC)
    requires CanDrop(c, s, w, b, j, d) && HoldsLocksOf(c, s, w)
    ensures OwnLock(c, s, w, DropStep(c, s, w, b, j, d))
  {}

  lemma PrepareLock(c: Config, s: State, w: nat, k: Chunk, p: WritePC, e: Event)
    requires CanPrepare(c, s, w, k, p, e) && HoldsLocksOf(c, s, w)
    ensures OwnLock(c, s, w, PrepareStep(c, s, w, k, p, e))
  {}

  lemma WriteLock(c: Config, s: State, w: nat, k: Chunk, p: WritePC, e: Event)
    requires CanWrite(c, s, w, k, p, e) && HoldsLocksOf(c, s, w)
    ensures OwnLock(c, s, w, WriteStep(c, s, w, k, p, e))
  {}

  lemma FinLock(c: Config, s: State, w: nat, f: nat, p: FinPC, e: Event)
    requires CanFin(c, s, w, f, p, e) && HoldsLocksOf(c, s, w)
    ensures OwnLock(c, s, w, FinStep(c, s, w, f, p, e))
  {}

  lemma LockStep(c: Config, s: State, w: nat, e: Event, t: State)
    requires Next(c, s, w, e, t) && LockInv(c, s)
    ensures LockInv(c, t)
  {
    LocalStep(c, s, w, e, t);
    assert OwnLock(c, s, w, t) by {
      hide OwnLock; hide Local; hide IdleStep; hide ReadStep; hide DropStep; hide PrepareStep; hide WriteStep;
      hide FinStep;
      match s.pcs[w]
      case Idle(i) => IdleLock(c, s, w, i, e);
      case Reading(b, j, r) => ReadLock(c, s, w, b, j, r, e);
      case Dropping(b, j, d) => DropLock(c, s, w, b, j, d);
      case Writing(k, p) => if PreparePC(p) { PrepareLock(c, s, w, k, p, e); } else { WriteLock(c, s, w, k, p, e); }
      case Finishing(f, p) => FinLock(c, s, w, f, p, e);
    }
    hide Next;
  }

  // ---- counting credits and finalisers -------------------------------------

  ghost function LogOf(f: nat): JobLog -> nat { (l: JobLog) => Bit(l.job.file == f) }
  ghost function CreditsOf(f: nat): JobLog -> nat { (l: JobLog) => Bit(l.job.file == f && l.fate.Credited?) }

  predicate PreTrim(pc: PC, f: nat) {
    pc == Finishing(f, LockFinal) || pc == Finishing(f, Trim)
  }

  predicate PreCount(pc: PC, f: nat) {
    pc == Finishing(f, TrimReport) || pc == Finishing(f, CountFile)
  }

  ghost function Trimming(f: nat): PC -> nat { (pc: PC) => Bit(PreTrim(pc, f)) }
  ghost function Settling(f: nat): PC -> nat { (pc: PC) => Bit(PreCount(pc, f)) }
  ghost function CountedFile(): FileLog -> nat { (l: FileLog) => Bit(l.counted) }

  /**
   One finaliser per complete file: the file is complete exactly when somebody is about to
   trim it or it has been through its trim, and it has been through its trim exactly when
   somebody is about to count it or it is settled.
   */
  ghost predicate FileFinal(c: Config, s: State, f: nat) {
    && f < |s.entries| && f < |s.flog| && f < |c.chunks|
    && var en, l := s.entries[f], s.flog[f];
    && en.done == Sum(s.log, CreditsOf(f))
    && Sum(s.pcs, Trimming(f)) + Bit(!l.trim.Untrimmed?) == Bit(en.done == c.chunks[f])
    && Sum(s.pcs, Settling(f)) + Bit(l.settled) == Bit(!l.trim.Untrimmed?)
    && (l.counted <==> l.settled && !en.failed)
    && (l.settled && l.trim.TrimFailed? ==> Reported(s.errors, f))
  }

  /** A worker past the trim knows how it went. */
  ghost predicate PcFinal(s: State, pc: PC) {
    match pc
    case Finishing(f, p) => f < |s.flog| && p.CountFile? && s.flog[f].trim.TrimFailed? ==> Reported(s.errors, f)
    case _ => true
  }

  ghost predicate FinalInv(c: Config, s: State) {
    && (forall f: nat :: f < |c.files| ==> FileFinal(c, s, f))
    && (forall v :: 0 <= v < |s.pcs| ==> PcFinal(s, s.pcs[v]))
    && s.filesDone == Sum(s.flog, CountedFile())
  }

  /** A job that is not yet settled keeps its file incomplete. */
  ghost predicate Incomplete(c: Config, s: State, f: nat) {
    f < |s.entries| && f < |c.chunks| && s.entries[f].done < c.chunks[f]
  }

  lemma {:induction false} SumOverLog(jobs: seq<Job>, log: seq<JobLog>, f: nat)
    requires |jobs| == |log| && forall j :: 0 <= j < |log| ==> log[j].job == jobs[j]
    ensures Sum(log, LogOf(f)) == Sum(jobs, OfFile(f))
  {
    if |log| > 0 {
      SumOverLog(jobs[..|jobs| - 1], log[..|log| - 1], f);
    }
  }

  lemma DoneAtMostChunks(c: Config, s: State, f: nat)
    requires WellPlanned(c) && Shape(c, s) && f < |c.files| && s.entries[f].done == Sum(s.log, CreditsOf(f))
    ensures s.entries[f].done <= c.chunks[f]
    ensures s.entries[f].done == c.chunks[f] <==>
              forall j :: 0 <= j < |c.jobs| && c.jobs[j].file == f ==> s.log[j].fate.Credited?
  {
    hide Sum;
    SumOverLog(c.jobs, s.log, f);
    SumMonotone(s.log, CreditsOf(f), LogOf(f));
    if forall j :: 0 <= j < |c.jobs| && c.jobs[j].file == f ==> s.log[j].fate.Credited? {
      SumMonotone(s.log, LogOf(f), CreditsOf(f));
    }
    if s.entries[f].done == c.chunks[f] {
      SumTight(s.log, CreditsOf(f), LogOf(f));
      forall j | 0 <= j < |c.jobs| && c.jobs[j].file == f ensures s.log[j].fate.Credited? {
        assert CreditsOf(f)(s.log[j]) == LogOf(f)(s.log[j]);
      }
    }
  }

  lemma LiveMeansIncomplete(c: Config, s: State, j: nat)
    requires WellPlanned(c) && Shape(c, s) && j < |c.jobs| && s.log[j].fate.Live?
    requires s.entries[c.jobs[j].file].done == Sum(s.log, CreditsOf(c.jobs[j].file))
    ensures Incomplete(c, s, c.jobs[j].file)
  {
    assert JobFits(c, c.jobs[j]);
    DoneAtMostChunks(c, s, c.jobs[j].file);
  }

  // ---- every step keeps them -----------------------------------------------

  lemma IdleFinal(c: Config, s: State, w: nat, i: IdlePC, e: Event, f: nat)
    requires CanIdle(s, w, i, e) && FileFinal(c, s, f)
    ensures FileFinal(c, IdleStep(c, s, w, i, e), f)
  {
    hide Sum;
    var t := IdleStep(c, s, w, i, e);
    SumUpdate(s.pcs, w, t.pcs[w], Trimming(f));
    SumUpdate(s.pcs, w, t.pcs[w], Settling(f));
  }

  lemma ReadFinal(c: Config, s: State, w: nat, b: nat, j: nat, r: ReadPC, e: Event, f: nat)
    requires CanRead(c, s, w, b, j, r, e) && FileFinal(c, s, f)
    ensures FileFinal(c, ReadStep(c, s, w, b, j, r, e), f)
  {
    hide Sum;
    var t := ReadStep(c, s, w, b, j, r, e);
    SumUpdate(s.pcs, w, t.pcs[w], Trimming(f));
    SumUpdate(s.pcs, w, t.pcs[w], Settling(f));
    SumUpdate(s.log, j, t.log[j], CreditsOf(f));
  }

  lemma DropFinal(c: Config, s: State, w: nat, b: nat, j: nat, d: DropPC, f: nat)
    requires CanDrop(c, s, w, b, j, d) && FileFinal(c, s, f)
    requires s.log[j].fate.Live? && Incomplete(c, s, c.jobs[j].file)
    ensures FileFinal(c, DropStep(c, s, w, b, j, d), f)
  {
    FailReports(s.errors, c.jobs[j].file);
    hide Sum; hide Fail; hide Reported;
    var t := DropStep(c, s, w, b, j, d);
    SumUpdate(s.pcs, w, t.pcs[w], Trimming(f));
    SumUpdate(s.pcs, w, t.pcs[w], Settling(f));
    SumUpdate(s.log, j, t.log[j], CreditsOf(f));
  }

  lemma PrepareFinal(c: Config, s: State, w: nat, k: Chunk, p: WritePC, e: Event, f: nat)
    requires CanPrepare(c, s, w, k, p, e) && FileFinal(c, s, f)
    ensures FileFinal(c, PrepareStep(c, s, w, k, p, e), f)
  {
    hide Sum;
    var t := PrepareStep(c, s, w, k, p, e);
    SumUpdate(s.pcs, w, t.pcs[w], Trimming(f));
    SumUpdate(s.pcs, w, t.pcs[w], Settling(f));
  }

  lemma WriteFinal(c: Config, s: State, w: nat, k: Chunk, p: WritePC, e: Event, f: nat)
    requires CanWrite(c, s, w, k, p, e) && FileFinal(c, s, f)
    requires s.log[k.job].fate.Live? && Incomplete(c, s, k.file) && s.log[k.job].job.file == k.file
    ensures FileFinal(c, WriteStep(c, s, w, k, p, e), f)
  {
    FailReports(s.errors, k.file);
    hide Sum; hide Fail; hide Reported; hide WriteAt;
    var t := WriteStep(c, s, w, k, p, e);
    SumUpdate(s.pcs, w, t.pcs[w], Trimming(f));
    SumUpdate(s.pcs, w, t.pcs[w], Settling(f));
    SumUpdate(s.log, k.job, t.log[k.job], CreditsOf(f));
  }

  lemma FinFinal(c: Config, s: State, w: nat, g: nat, p: FinPC, e: Event, f: nat)
    requires CanFin(c, s, w, g, p, e) && FileFinal(c, s, f) && PcFinal(s, s.pcs[w])
    requires p.Trim? ==> s.entries[g].master
    ensures FileFinal(c, FinStep(c, s, w, g, p, e), f)
  {
    FailReports(s.errors, g);
    hide Sum; hide Fail; hide Reported; hide SetLen;
    var t := FinStep(c, s, w, g, p, e);
    SumUpdate(s.pcs, w, t.pcs[w], Trimming(f));
    SumUpdate(s.pcs, w, t.pcs[w], Settling(f));
    SumAtLeast(s.pcs, w, Trimming(f));
    SumAtLeast(s.pcs, w, Settling(f));
  }

  lemma FinPcFinal(c: Config, s: State, w: nat, f: nat, p: FinPC, e: Event, t: State)
    requires CanFin(c, s, w, f, p, e) && t == FinStep(c, s, w, f, p, e) && FileFinal(c, s, f)
    requires PcFinal(s, s.pcs[w])
    ensures w < |t.pcs| && PcFinal(t, t.pcs[w])
  {
    FailReports(s.errors, f);
    hide Sum; hide Fail; hide Reported; hide SetLen;
    SumAtLeast(s.pcs, w, Trimming(f));
  }

  ghost predicate OwnJobOpen(c: Config, s: State, w: nat) {
    && w < |s.pcs| && |s.log| == |c.jobs|
    && forall j: nat :: j < |c.jobs| && WorksOn(s.pcs[w], j) ==>
         s.log[j].fate.Live? && s.log[j].job == c.jobs[j] && Incomplete(c, s, c.jobs[j].file)
  }

  lemma OwnJobIsOpen(c: Config, s: State, w: nat)
    requires WellPlanned(c) && Shape(c, s) && FinalInv(c, s) && JobInv(c, s) && w < |s.pcs|
    ensures OwnJobOpen(c, s, w)
  {
    NobodyElse(c, s, w);
    forall j: nat | j < |c.jobs| && WorksOn(s.pcs[w], j)
      ensures s.log[j].fate.Live? && s.log[j].job == c.jobs[j] && Incomplete(c, s, c.jobs[j].file)
    {
      assert JobFits(c, c.jobs[j]) && FileFinal(c, s, c.jobs[j].file);
      LiveMeansIncomplete(c, s, j);
    }
  }

  lemma FileFinalStep(c: Config, s: State, w: nat, e: Event, t: State, f: nat)
    requires Next(c, s, w, e, t) && FileFinal(c, s, f) && OwnJobOpen(c, s, w) && PcFinal(s, s.pcs[w])
    requires s.pcs[w].Finishing? && s.pcs[w].fin.Trim? ==> s.entries[s.pcs[w].file].master
    ensures FileFinal(c, t, f)
  {
    hide FileFinal; hide WellPlanned; hide Incomplete;
    hide IdleStep; hide ReadStep; hide DropStep; hide PrepareStep; hide WriteStep; hide FinStep;
    match s.pcs[w]
    case Idle(i) => IdleFinal(c, s, w, i, e, f);
    case Reading(b, j, r) => ReadFinal(c, s, w, b, j, r, e, f);
    case Dropping(b, j, d) => DropFinal(c, s, w, b, j, d, f);
    case Writing(k, p) =>
      if PreparePC(p) {
        PrepareFinal(c, s, w, k, p, e, f);
      } else {
        assert WorksOn(s.pcs[w], k.job);
        WriteFinal(c, s, w, k, p, e, f);
      }
    case Finishing(g, p) => FinFinal(c, s, w, g, p, e, f);
  }

  lemma FilesDoneFin(c: Config, s: State, w: nat, f: nat, p: FinPC, e: Event)
    requires CanFin(c, s, w, f, p, e) && FileFinal(c, s, f) && s.filesDone == Sum(s.flog, CountedFile())
    ensures var t := FinStep(c, s, w, f, p, e); t.filesDone == Sum(t.flog, CountedFile())
  {
    hide Sum; hide SetLen;
    SumUpdate(s.flog, f, FinStep(c, s, w, f, p, e).flog[f], CountedFile());
    SumAtLeast(s.pcs, w, Settling(f));
  }

  lemma FilesDoneStep(c: Config, s: State, w: nat, e: Event, t: State)
    requires Next(c, s, w, e, t) && FinalInv(c, s)
    ensures t.filesDone == Sum(t.flog, CountedFile())
  {
    LocalStep(c, s, w, e, t);
    hide IdleStep; hide ReadStep; hide DropStep; hide PrepareStep; hide WriteStep; hide FinStep; hide FileFinal;
    hide WellPlanned;
    if s.pcs[w].Finishing? {
      assert FileFinal(c, s, s.pcs[w].file);
      FilesDoneFin(c, s, w, s.pcs[w].file, s.pcs[w].fin, e);
    } else {
      SumSame(s.flog, t.flog, CountedFile());
    }
  }

  lemma OwnPcFinal(c: Config, s: State, w: nat, e: Event, t: State)
    requires Next(c, s, w, e, t) && FinalInv(c, s) && w < |t.pcs|
    requires s.pcs[w].Finishing? && s.pcs[w].fin.Trim? ==> s.entries[s.pcs[w].file].master
    ensures PcFinal(t, t.pcs[w])
  {
    assert t.pcs[w].Finishing? && t.pcs[w].fin.CountFile? ==> s.pcs[w].Finishing? by {
      LocalStep(c, s, w, e, t);
    }
    hide IdleStep; hide ReadStep; hide DropStep; hide PrepareStep; hide WriteStep; hide FinStep; hide FileFinal;
    hide WellPlanned; hide Shape;
    if s.pcs[w].Finishing? {
      assert FileFinal(c, s, s.pcs[w].file);
      FinPcFinal(c, s, w, s.pcs[w].file, s.pcs[w].fin, e, t);
    }
  }

  /** Nobody trims a file that somebody else is about to count. */
  lemma OthersPcFinal(c: Config, s: State, w: nat, t: State, v: nat)
    requires Local(c, s, w, t) && v < |s.pcs| && v != w && PcFinal(s, s.pcs[v])
    requires forall f: nat :: s.pcs[w] == Finishing(f, Trim) ==> FileFinal(c, s, f)
    ensures PcFinal(t, t.pcs[v])
  {
    match s.pcs[v]
    case Finishing(f, p) =>
      if p.CountFile? && s.pcs[w] == Finishing(f, Trim) {
        assert FileFinal(c, s, f);
        hide Sum;
        SumAtLeast(s.pcs, w, Trimming(f));
        SumAtLeast(s.pcs, v, Settling(f));
        assert false;
      }
    case _ =>
  }

  lemma FinalStep(c: Config, s: State, w: nat, e: Event, t: State)
    requires Next(c, s, w, e, t) && FinalInv(c, s) && JobInv(c, s)
    requires s.pcs[w].Finishing? && s.pcs[w].fin.Trim? ==> s.entries[s.pcs[w].file].master
    ensures FinalInv(c, t)
  {
    LocalStep(c, s, w, e, t);
    FilesDoneStep(c, s, w, e, t);
    OwnPcFinal(c, s, w, e, t);
    OwnJobIsOpen(c, s, w);
    assert PcOk(c, s.pcs[w]);
    forall f: nat | f < |c.files| ensures FileFinal(c, t, f) {
      FileFinalStep(c, s, w, e, t, f);
    }
    hide FileFinal; hide Next; hide WellPlanned; hide OwnJobOpen;
    forall v: nat | v < |t.pcs| ensures PcFinal(t, t.pcs[v]) {
      if v != w {
        OthersPcFinal(c, s, w, t, v);
      }
    }
  }
}
