/** Byte accounting, and a measure of the work that is left. */
module Progress {
  import opened Counting
  import opened Pipeline
  import opened Ownership
  import opened History
  import opened Finalisation

  // ---- bytes read and written ----------------------------------------------

  ghost function JobLen(): Job -> nat { (job: Job) => job.len }
  ghost function LogLen(): JobLog -> nat { (l: JobLog) => l.job.len }
  ghost function ReadLen(): JobLog -> nat { (l: JobLog) => if l.readCounted then l.job.len else 0 }
  ghost function WrittenLen(): JobLog -> nat { (l: JobLog) => if l.writeCounted then l.job.len else 0 }

  ghost predicate TrafficInv(s: State) {
    && s.bytesRead == Sum(s.log, ReadLen())
    && s.bytesWritten == Sum(s.log, WrittenLen())
  }

  lemma ReadTraffic(c: Config, s: State, w: nat, b: nat, j: nat, r: ReadPC, e: Event)
    requires CanRead(c, s, w, b, j, r, e) && TrafficInv(s) && PcHistory(c, s, s.pcs[w]) && s.log[j].job == c.jobs[j]
    ensures TrafficInv(ReadStep(c, s, w, b, j, r, e))
  {
    hide Sum;
    var t := ReadStep(c, s, w, b, j, r, e);
    SumUpdate(s.log, j, t.log[j], ReadLen());
    SumUpdate(s.log, j, t.log[j], WrittenLen());
  }

  lemma DropTraffic(c: Config, s: State, w: nat, b: nat, j: nat, d: DropPC)
    requires CanDrop(c, s, w, b, j, d) && TrafficInv(s)
    ensures TrafficInv(DropStep(c, s, w, b, j, d))
  {
    hide Sum;
    var t := DropStep(c, s, w, b, j, d);
    SumUpdate(s.log, j, t.log[j], ReadLen());
    SumUpdate(s.log, j, t.log[j], WrittenLen());
  }

  lemma WriteTraffic(c: Config, s: State, w: nat, k: Chunk, p: WritePC, e: Event)
    requires CanWrite(c, s, w, k, p, e) && TrafficInv(s) && PcHistory(c, s, s.pcs[w])
              && s.log[k.job].job == c.jobs[k.job]
    ensures TrafficInv(WriteStep(c, s, w, k, p, e))
  {
    hide Sum; hide WriteAt;
    var t := WriteStep(c, s, w, k, p, e);
    SumUpdate(s.log, k.job, t.log[k.job], ReadLen());
    SumUpdate(s.log, k.job, t.log[k.job], WrittenLen());
  }

  lemma QuietTraffic(c: Config, s: State, w: nat, e: Event, t: State)
    requires Next(c, s, w, e, t) && TrafficInv(s)
    requires s.pcs[w].Idle? || s.pcs[w].Finishing? || (s.pcs[w].Writing? && PreparePC(s.pcs[w].write))
    ensures TrafficInv(t)
  {
    hide Sum; hide Shape; hide WellPlanned; hide WriteAt; hide SetLen;
    match s.pcs[w]
    case Idle(_) => assert t.log == s.log && t.bytesRead == s.bytesRead && t.bytesWritten == s.bytesWritten;
    case Finishing(_, _) => assert t.log == s.log && t.bytesRead == s.bytesRead && t.bytesWritten == s.bytesWritten;
    case Writing(_, _) => assert t.log == s.log && t.bytesRead == s.bytesRead && t.bytesWritten == s.bytesWritten;
  }

  lemma TrafficStep(c: Config, s: State, w: nat, e: Event, t: State)
    requires Next(c, s, w, e, t) && TrafficInv(s) && PcHistory(c, s, s.pcs[w])
    ensures TrafficInv(t)
  {
    if s.pcs[w].Idle? || s.pcs[w].Finishing? || (s.pcs[w].Writing? && PreparePC(s.pcs[w].write)) {
      QuietTraffic(c, s, w, e, t);
    } else {
      assert PcOk(c, s.pcs[w]);
      hide TrafficInv; hide ReadStep; hide DropStep; hide WriteStep; hide WellPlanned;
      match s.pcs[w]
      case Reading(b, j, r) => ReadTraffic(c, s, w, b, j, r, e);
      case Dropping(b, j, d) => DropTraffic(c, s, w, b, j, d);
      case Writing(k, p) => WriteTraffic(c, s, w, k, p, e);
    }
  }

  // ---- idle workers --------------------------------------------------------

  ghost predicate IdleFacts(c: Config, s: State, pc: PC) {
    && (pc.Exited? ==> s.remaining == 0)
    && (pc.Idle? && pc.idle.ReturnBuf? ==> |c.jobs| <= s.cursor)
  }

  ghost predicate IdleInv(c: Config, s: State) {
    forall v :: 0 <= v < |s.pcs| ==> IdleFacts(c, s, s.pcs[v])
  }

  lemma IdleOwnFacts(c: Config, s: State, w: nat, i: IdlePC, e: Event)
    requires CanIdle(s, w, i, e)
    ensures IdleFacts(c, IdleStep(c, s, w, i, e), IdleStep(c, s, w, i, e).pcs[w])
  {}

  // ---- a measure that every productive step decreases ----------------------

  const CLAIM := 27
  const QUEUED := 21

  function Rank(pc: PC): nat {
    match pc
    case Idle(_) => 0
    case Reading(_, _, r) =>
      (match r case OpenSrc => 26 case ReadSrc => 25 case ZeroSlack(_) => 24 case CountRead => 23 case PushFilled => 22)
    case Dropping(_, _, d) =>
      (match d case DropReport => 4 case DropMark => 3 case DropRelease => 2 case DropRetire => 1)
    case Writing(_, p) =>
      (match p
       case CheckPrepared => 20 case LockMaster => 19 case RecheckPrepared => 18 case CreateDst => 17
       case SizeDst => 16 case SetMaster => 15 case SetPrepared => 14 case UnlockMaster(_) => 13
       case OpenDst => 12 case WriteDst => 11 case WriteReport => 10 case WriteMark => 9 case CountWritten => 9
       case ReleaseBuf => 8 case Retire => 7 case Credit => 6)
    case Finishing(_, p) =>
      (match p case LockFinal => 5 case Trim => 4 case TrimReport => 3 case CountFile => 2 case UnlockFinal => 1)
    case Exited => 0
  }

  ghost function Ranks(): PC -> nat { (pc: PC) => Rank(pc) }

  ghost function Measure(c: Config, s: State): nat {
    CLAIM * Unclaimed(c, s) + QUEUED * |s.filled| + Sum(s.pcs, Ranks())
  }

  /** The next step of `w` moves a job or a file on, rather than look for work. */
  predicate Productive(c: Config, s: State, w: nat)
    requires w < |s.pcs|
  {
    match s.pcs[w]
    case Idle(HaveBuf(_, _)) => s.cursor < |c.jobs|
    case Idle(TryFilled(_)) => s.filled != []
    case Idle(_) => false
    case Exited => false
    case _ => true
  }

  ghost predicate Advances(c: Config, s: State, w: nat, t: State)
    requires w < |s.pcs|
  {
    if Productive(c, s, w) then Measure(c, t) < Measure(c, s) else Measure(c, t) == Measure(c, s)
  }

  lemma IdleMeasure(c: Config, s: State, w: nat, i: IdlePC, e: Event)
    requires CanIdle(s, w, i, e)
    ensures Advances(c, s, w, IdleStep(c, s, w, i, e))
  {
    hide Sum;
    SumUpdate(s.pcs, w, IdleStep(c, s, w, i, e).pcs[w], Ranks());
  }

  lemma ReadMeasure(c: Config, s: State, w: nat, b: nat, j: nat, r: ReadPC, e: Event)
    requires CanRead(c, s, w, b, j, r, e)
    ensures Advances(c, s, w, ReadStep(c, s, w, b, j, r, e))
  {
    hide Sum;
    SumUpdate(s.pcs, w, ReadStep(c, s, w, b, j, r, e).pcs[w], Ranks());
  }

  lemma DropMeasure(c: Config, s: State, w: nat, b: nat, j: nat, d: DropPC)
    requires CanDrop(c, s, w, b, j, d)
    ensures Advances(c, s, w, DropStep(c, s, w, b, j, d))
  {
    hide Sum;
    SumUpdate(s.pcs, w, DropStep(c, s, w, b, j, d).pcs[w], Ranks());
  }

  lemma PrepareMeasure(c: Config, s: State, w: nat, k: Chunk, p: WritePC, e: Event)
    requires CanPrepare(c, s, w, k, p, e)
    ensures Advances(c, s, w, PrepareStep(c, s, w, k, p, e))
  {
    hide Sum;
    SumUpdate(s.pcs, w, PrepareStep(c, s, w, k, p, e).pcs[w], Ranks());
  }

  lemma WriteMeasure(c: Config, s: State, w: nat, k: Chunk, p: WritePC, e: Event)
    requires CanWrite(c, s, w, k, p, e)
    ensures Advances(c, s, w, WriteStep(c, s, w, k, p, e))
  {
    hide Sum; hide WriteAt;
    SumUpdate(s.pcs, w, WriteStep(c, s, w, k, p, e).pcs[w], Ranks());
  }

  lemma FinMeasure(c: Config, s: State, w: nat, f: nat, p: FinPC, e: Event)
    requires CanFin(c, s, w, f, p, e)
    ensures Advances(c, s, w, FinStep(c, s, w, f, p, e))
  {
    hide Sum; hide SetLen;
    SumUpdate(s.pcs, w, FinStep(c, s, w, f, p, e).pcs[w], Ranks());
  }

  /** Whatever a worker does, looking for work costs nothing and everything else makes progress. */
  lemma MeasureStep(c: Config, s: State, w: nat, e: Event, t: State)
    requires Next(c, s, w, e, t)
    ensures Advances(c, s, w, t)
  {
    hide Advances; hide Shape; hide WellPlanned;
    hide IdleStep; hide ReadStep; hide DropStep; hide PrepareStep; hide WriteStep; hide FinStep;
    match s.pcs[w]
    case Idle(i) => IdleMeasure(c, s, w, i, e);
    case Reading(b, j, r) => ReadMeasure(c, s, w, b, j, r, e);
    case Dropping(b, j, d) => DropMeasure(c, s, w, b, j, d);
    case Writing(k, p) => if PreparePC(p) { PrepareMeasure(c, s, w, k, p, e); } else { WriteMeasure(c, s, w, k, p, e); }
    case Finishing(f, p) => FinMeasure(c, s, w, f, p, e);
  }

  lemma IdleInvStep(c: Config, s: State, w: nat, e: Event, t: State)
    requires Next(c, s, w, e, t) && IdleInv(c, s)
    ensures IdleInv(c, t)
  {
    LocalStep(c, s, w, e, t);
    hide Shape; hide WellPlanned; hide IdleStep; hide ReadStep; hide DropStep; hide PrepareStep; hide WriteStep;
    hide FinStep;
    if s.pcs[w].Idle? {
      IdleOwnFacts(c, s, w, s.pcs[w].idle, e);
    }
    hide Next;
    forall v | 0 <= v < |t.pcs| ensures IdleFacts(c, t, t.pcs[v]) {
      assert IdleFacts(c, s, s.pcs[v]);
    }
  }
}
