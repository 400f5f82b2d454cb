/** What the recorded history says about a job at every place it can be. */
module History {
  import opened Counting
  import opened Device
  import opened Pipeline
  import opened Ownership

  // ---- what one step of worker `w` can change ------------------------------

  ghost predicate EntriesGrow(s: State, t: State) {
    && |t.entries| == |s.entries|
    && (forall f :: 0 <= f < |s.entries| ==>
          && (s.entries[f].failed ==> t.entries[f].failed)
          && (s.entries[f].prepared ==> t.entries[f].prepared)
          && (s.entries[f].master ==> t.entries[f].master))
  }

  /** Only the worker's own counter, job and buffer change; marks and messages stay. */
  ghost predicate Local(c: Config, s: State, w: nat, t: State) {
    && w < |s.pcs| == |t.pcs|
    && (forall v :: 0 <= v < |s.pcs| && v != w ==> t.pcs[v] == s.pcs[v])
    && |t.log| == |s.log|
    && (forall j :: 0 <= j < |s.log| && !WorksOn(s.pcs[w], j) ==> t.log[j] == s.log[j])
    && |t.arena| == |s.arena|
    && (forall b :: 0 <= b < |s.arena| && !Holds(s.pcs[w], b) ==> t.arena[b] == s.arena[b])
    && EntriesGrow(s, t)
    && s.errors <= t.errors && (|s.errors| <= ERROR_CAP ==> |t.errors| <= ERROR_CAP)
    && |t.flog| == |s.flog|
    && (forall f :: 0 <= f < |s.flog| && s.pcs[w] != Finishing(f, Trim) ==> t.flog[f].trim == s.flog[f].trim)
    && (!s.pcs[w].Finishing? ==>
          t.filesDone == s.filesDone && forall f :: 0 <= f < |s.flog| ==> t.flog[f].counted == s.flog[f].counted)
    && (t.pcs[w].Finishing? && t.pcs[w].fin.CountFile? ==> s.pcs[w].Finishing?)
    && (t.pcs[w].Writing? ==> s.pcs[w].Idle? || s.pcs[w].Writing?)
    && (t.pcs[w].Exited? || (t.pcs[w].Idle? && !t.pcs[w].idle.Head?) ==> s.pcs[w].Idle?)
    && s.cursor <= t.cursor && t.remaining <= s.remaining
    && (forall i :: 0 <= i < |t.filled| ==>
          t.filled[i] in s.filled ||
          (s.pcs[w] == Reading(t.filled[i].buf, t.filled[i].job, PushFilled)
           && t.filled[i].job < |c.jobs| && t.filled[i] == MakeChunk(c, t.filled[i].buf, t.filled[i].job)))
  }

  lemma IdleLocal(c: Config, s: State, w: nat, i: IdlePC, e: Event)
    requires CanIdle(s, w, i, e)
    ensures Local(c, s, w, IdleStep(c, s, w, i, e))
  {}

  lemma ReadLocal(c: Config, s: State, w: nat, b: nat, j: nat, r: ReadPC, e: Event)
    requires CanRead(c, s, w, b, j, r, e)
    ensures Local(c, s, w, ReadStep(c, s, w, b, j, r, e))
  {}

  lemma DropLocal(c: Config, s: State, w: nat, b: nat, j: nat, d: DropPC)
    requires CanDrop(c, s, w, b, j, d)
    ensures Local(c, s, w, DropStep(c, s, w, b, j, d))
  {}

  lemma PrepareLocal(c: Config, s: State, w: nat, k: Chunk, p: WritePC, e: Event)
    requires CanPrepare(c, s, w, k, p, e)
    ensures Local(c, s, w, PrepareStep(c, s, w, k, p, e))
  {
    hide WriteAt; hide SetLen; hide RoundUp;
  }

  lemma WriteLocal(c: Config, s: State, w: nat, k: Chunk, p: WritePC, e: Event)
    requires CanWrite(c, s, w, k, p, e)
    ensures Local(c, s, w, WriteStep(c, s, w, k, p, e))
  {
    hide WriteAt; hide SetLen; hide RoundUp;
  }

  lemma FinLocal(c: Config, s: State, w: nat, f: nat, p: FinPC, e: Event)
    requires CanFin(c, s, w, f, p, e)
    ensures Local(c, s, w, FinStep(c, s, w, f, p, e))
  {
    hide WriteAt; hide SetLen; hide RoundUp;
  }

  lemma LocalStep(c: Config, s: State, w: nat, e: Event, t: State)
    requires Next(c, s, w, e, t)
    ensures Local(c, s, w, t)
  {
    hide Local; hide IdleStep; hide ReadStep; hide DropStep; hide PrepareStep; hide WriteStep; hide FinStep;
    match s.pcs[w]
    case Idle(i) => IdleLocal(c, s, w, i, e);
    case Reading(b, j, r) => ReadLocal(c, s, w, b, j, r, e);
    case Dropping(b, j, d) => DropLocal(c, s, w, b, j, d);
    case Writing(k, p) => if PreparePC(p) { PrepareLocal(c, s, w, k, p, e); } else { WriteLocal(c, s, w, k, p, e); }
    case Finishing(f, p) => FinLocal(c, s, w, f, p, e);
  }

  // ---- nobody else has the worker's job or buffer --------------------------

  lemma SoleWorker(s: State, w: nat, j: nat)
    requires w < |s.pcs| && j < |s.log| && WorksOn(s.pcs[w], j) && JobPlaces(s, j) == 1
    ensures forall v :: 0 <= v < |s.pcs| && v != w ==> !WorksOn(s.pcs[v], j)
    ensures forall i :: 0 <= i < |s.filled| ==> s.filled[i].job != j
    ensures j < s.cursor && s.log[j].fate.Live?
  {
    hide Sum;
    SumAtLeast(s.pcs, w, AtWork(j));
    forall v | 0 <= v < |s.pcs| && v != w ensures !WorksOn(s.pcs[v], j) {
      if v < w { SumAtLeastTwo(s.pcs, v, w, AtWork(j)); } else { SumAtLeastTwo(s.pcs, w, v, AtWork(j)); }
    }
    forall i | 0 <= i < |s.filled| ensures s.filled[i].job != j {
      SumAtLeast(s.filled, i, Queued(j));
    }
  }

  lemma SoleHolder(s: State, w: nat, b: nat)
    requires w < |s.pcs| && Holds(s.pcs[w], b) && BufPlaces(s, b) == 1
    ensures forall v :: 0 <= v < |s.pcs| && v != w ==> !Holds(s.pcs[v], b)
    ensures forall i :: 0 <= i < |s.filled| ==> s.filled[i].buf != b
    ensures b !in s.free
  {
    hide Sum;
    SumAtLeast(s.pcs, w, InHand(b));
    forall v | 0 <= v < |s.pcs| && v != w ensures !Holds(s.pcs[v], b) {
      if v < w { SumAtLeastTwo(s.pcs, v, w, InHand(b)); } else { SumAtLeastTwo(s.pcs, w, v, InHand(b)); }
    }
    forall i | 0 <= i < |s.filled| ensures s.filled[i].buf != b {
      SumAtLeast(s.filled, i, InChunk(b));
    }
    forall i | 0 <= i < |s.free| ensures s.free[i] != b {
      SumAtLeast(s.free, i, IsBuf(b));
    }
  }

  // ---- shape ---------------------------------------------------------------

  lemma IdleShape(c: Config, s: State, w: nat, i: IdlePC, e: Event)
    requires CanIdle(s, w, i, e) && Shape(c, s)
    ensures Shape(c, IdleStep(c, s, w, i, e))
  {
    assert PcOk(c, s.pcs[w]);
  }

  lemma ReadShape(c: Config, s: State, w: nat, b: nat, j: nat, r: ReadPC, e: Event)
    requires CanRead(c, s, w, b, j, r, e) && Shape(c, s)
    ensures Shape(c, ReadStep(c, s, w, b, j, r, e))
  {}

  lemma DropShape(c: Config, s: State, w: nat, b: nat, j: nat, d: DropPC)
    requires CanDrop(c, s, w, b, j, d) && Shape(c, s)
    ensures Shape(c, DropStep(c, s, w, b, j, d))
  {}

  lemma PrepareShape(c: Config, s: State, w: nat, k: Chunk, p: WritePC, e: Event)
    requires CanPrepare(c, s, w, k, p, e) && Shape(c, s)
    ensures Shape(c, PrepareStep(c, s, w, k, p, e))
  {}

  lemma WriteShape(c: Config, s: State, w: nat, k: Chunk, p: WritePC, e: Event)
    requires CanWrite(c, s, w, k, p, e) && Shape(c, s)
    ensures Shape(c, WriteStep(c, s, w, k, p, e))
  {}

  lemma FinShape(c: Config, s: State, w: nat, f: nat, p: FinPC, e: Event)
    requires CanFin(c, s, w, f, p, e) && Shape(c, s)
    ensures Shape(c, FinStep(c, s, w, f, p, e))
  {}

  lemma ShapeStep(c: Config, s: State, w: nat, e: Event, t: State)
    requires Next(c, s, w, e, t)
    ensures Shape(c, t)
  {
    assert Shape(c, s);
    hide Shape; hide IdleStep; hide ReadStep; hide DropStep; hide PrepareStep; hide WriteStep; hide FinStep;
    match s.pcs[w]
    case Idle(i) => IdleShape(c, s, w, i, e);
    case Reading(b, j, r) => ReadShape(c, s, w, b, j, r, e);
    case Dropping(b, j, d) => DropShape(c, s, w, b, j, d);
    case Writing(k, p) => if PreparePC(p) { PrepareShape(c, s, w, k, p, e); } else { WriteShape(c, s, w, k, p, e); }
    case Finishing(f, p) => FinShape(c, s, w, f, p, e);
  }

  // ---- the history of a job, place by place --------------------------------

  predicate Fresh(l: JobLog) {
    !l.readCounted && l.result.Untried? && !l.writeCounted && !l.spoiled
  }

  predicate Loaded(l: JobLog) {
    l.readCounted && l.result.Untried? && !l.writeCounted && !l.spoiled
  }

  predicate Tried(l: JobLog) {
    l.readCounted && ((l.result.Wrote? && l.writeCounted) || (l.result.Botched? && !l.writeCounted))
  }

  /** The error list names `f`, unless it was already full. */
  predicate Reported(errors: seq<nat>, f: nat) {
    f in errors || |errors| >= ERROR_CAP
  }

  lemma FailReports(errors: seq<nat>, f: nat)
    ensures Reported(Fail(errors, f), f)
    ensures forall g: nat :: Reported(errors, g) ==> Reported(Fail(errors, f), g)
  {}

  predicate FailedFile(s: State, f: nat) {
    f < |s.entries| && s.entries[f].failed
  }

  /** What the worker at `pc` can rely on: its job's history, and failures reported before marked. */
  ghost predicate PcHistory(c: Config, s: State, pc: PC) {
    match pc
    case Reading(_, j, r) => j < |s.log| &&
      var l := s.log[j];
      && l.result.Untried? && !l.writeCounted && !l.spoiled && (l.readCounted <==> r.PushFilled?)
      && (r.ZeroSlack? ==> r.got == l.got)
    case Dropping(_, j, d) => j < |s.log| && j < |c.jobs| &&
      var l, f := s.log[j], c.jobs[j].file;
      && l.result.Untried? && !l.writeCounted && (l.spoiled <==> d.DropRelease? || d.DropRetire?)
      && (d.DropMark? ==> Reported(s.errors, f)) && (d.DropRelease? || d.DropRetire? ==> FailedFile(s, f))
    case Writing(k, p) => k.job < |s.log| &&
      var l, f := s.log[k.job], k.file;
      if PreparePC(p) || p.OpenDst? || p.WriteDst? then Loaded(l)
      else if p.CountWritten? then l.readCounted && l.result.Wrote? && !l.writeCounted && !l.spoiled
      else if p.WriteReport? || p.WriteMark? then
        l.readCounted && l.result.Botched? && !l.writeCounted && !l.spoiled && (p.WriteMark? ==> Reported(s.errors, f))
      else Tried(l) && (l.spoiled <==> l.result.Botched?) && (l.result.Botched? ==> FailedFile(s, f))
    case _ => true
  }

  ghost predicate JobHistory(c: Config, s: State, j: nat)
    requires j < |s.log| && j < |c.jobs|
  {
    var l, f := s.log[j], c.jobs[j].file;
    && (s.cursor <= j ==> Fresh(l))
    && (l.fate.Credited? ==> Tried(l) && (l.spoiled <==> l.result.Botched?) && (l.result.Botched? ==> FailedFile(s, f)))
    && (l.fate.Dropped? ==> l.result.Untried? && !l.writeCounted && l.spoiled && FailedFile(s, f))
    && (l.writeCounted ==> l.readCounted)
  }

  ghost predicate HistoryInv(c: Config, s: State) {
    && |s.log| == |c.jobs| && |s.errors| <= ERROR_CAP
    && (forall v :: 0 <= v < |s.pcs| ==> PcHistory(c, s, s.pcs[v]))
    && (forall i :: 0 <= i < |s.filled| ==> s.filled[i].job < |s.log| && Loaded(s.log[s.filled[i].job]))
    && (forall j: nat :: j < |c.jobs| ==> JobHistory(c, s, j))
    && (forall f: nat :: FailedFile(s, f) ==> Reported(s.errors, f))
  }

  // The worker that moves: its new facts, its job and the file marks.
  ghost predicate OwnHistory(c: Config, s: State, w: nat, t: State) {
    && w < |s.pcs| == |t.pcs| && PcHistory(c, t, t.pcs[w])
    && |t.log| == |c.jobs|
    && (forall j: nat :: j < |c.jobs| && WorksOn(s.pcs[w], j) ==> JobHistory(c, t, j))
    && (forall f: nat :: FailedFile(t, f) ==> Reported(t.errors, f))
    && (forall j: nat :: j < |c.jobs| && WorksOn(s.pcs[w], j) && s.pcs[w].Reading? && s.pcs[w].read.PushFilled? ==>
          Loaded(t.log[j]))
  }

  lemma IdleHistory(c: Config, s: State, w: nat, i: IdlePC, e: Event)
    requires CanIdle(s, w, i, e) && HistoryInv(c, s)
    ensures OwnHistory(c, s, w, IdleStep(c, s, w, i, e))
  {
    if i.HaveBuf? && s.cursor < |c.jobs| {
      assert JobHistory(c, s, s.cursor);
    }
  }

  lemma ReadHistory(c: Config, s: State, w: nat, b: nat, j: nat, r: ReadPC, e: Event)
    requires CanRead(c, s, w, b, j, r, e) && HistoryInv(c, s) && JobPlaces(s, j) == 1
    ensures OwnHistory(c, s, w, ReadStep(c, s, w, b, j, r, e))
  {
    SoleWorker(s, w, j);
    assert PcHistory(c, s, s.pcs[w]) && JobHistory(c, s, j);
  }

  lemma DropHistory(c: Config, s: State, w: nat, b: nat, j: nat, d: DropPC)
    requires CanDrop(c, s, w, b, j, d) && HistoryInv(c, s) && JobPlaces(s, j) == 1
    ensures OwnHistory(c, s, w, DropStep(c, s, w, b, j, d))
  {
    SoleWorker(s, w, j);
    FailReports(s.errors, c.jobs[j].file);
    assert PcHistory(c, s, s.pcs[w]) && JobHistory(c, s, j);
  }

  lemma PrepareHistory(c: Config, s: State, w: nat, k: Chunk, p: WritePC, e: Event)
    requires CanPrepare(c, s, w, k, p, e) && HistoryInv(c, s) && JobPlaces(s, k.job) == 1
    ensures OwnHistory(c, s, w, PrepareStep(c, s, w, k, p, e))
  {
    SoleWorker(s, w, k.job);
    assert PcHistory(c, s, s.pcs[w]) && JobHistory(c, s, k.job);
  }

  /** The write itself and what it reports. */
  lemma AttemptHistory(c: Config, s: State, w: nat, k: Chunk, p: WritePC, e: Event)
    requires CanWrite(c, s, w, k, p, e) && HistoryInv(c, s) && JobPlaces(s, k.job) == 1
    requires p.OpenDst? || p.WriteDst? || p.CountWritten? || p.WriteReport? || p.WriteMark?
    ensures OwnHistory(c, s, w, WriteStep(c, s, w, k, p, e))
  {
    hide Fail; hide WriteAt; hide JobPlaces;
    SoleWorker(s, w, k.job);
    FailReports(s.errors, k.file);
    assert PcHistory(c, s, s.pcs[w]) && JobHistory(c, s, k.job);
  }

  /** Settling the job after the attempt. */
  lemma SettleHistory(c: Config, s: State, w: nat, k: Chunk, p: WritePC, e: Event)
    requires CanWrite(c, s, w, k, p, e) && HistoryInv(c, s) && JobPlaces(s, k.job) == 1
    requires p.ReleaseBuf? || p.Retire? || p.Credit?
    ensures OwnHistory(c, s, w, WriteStep(c, s, w, k, p, e))
  {
    hide Fail; hide WriteAt; hide JobPlaces;
    SoleWorker(s, w, k.job);
    assert PcHistory(c, s, s.pcs[w]) && JobHistory(c, s, k.job);
  }

  lemma WriteHistory(c: Config, s: State, w: nat, k: Chunk, p: WritePC, e: Event)
    requires CanWrite(c, s, w, k, p, e) && HistoryInv(c, s) && JobPlaces(s, k.job) == 1
    ensures OwnHistory(c, s, w, WriteStep(c, s, w, k, p, e))
  {
    hide WriteStep; hide OwnHistory; hide HistoryInv; hide JobPlaces;
    if p.ReleaseBuf? || p.Retire? || p.Credit? {
      SettleHistory(c, s, w, k, p, e);
    } else {
      AttemptHistory(c, s, w, k, p, e);
    }
  }

  lemma FinHistory(c: Config, s: State, w: nat, f: nat, p: FinPC, e: Event)
    requires CanFin(c, s, w, f, p, e) && HistoryInv(c, s)
    ensures OwnHistory(c, s, w, FinStep(c, s, w, f, p, e))
  {
    FailReports(s.errors, f);
    assert PcHistory(c, s, s.pcs[w]);
  }

  lemma HistoryOwn(c: Config, s: State, w: nat, e: Event, t: State)
    requires Next(c, s, w, e, t) && HistoryInv(c, s) && JobInv(c, s)
    ensures OwnHistory(c, s, w, t)
  {
    hide OwnHistory; hide HistoryInv; hide JobPlaces;
    hide IdleStep; hide ReadStep; hide DropStep; hide PrepareStep; hide WriteStep; hide FinStep;
    match s.pcs[w]
    case Idle(i) => IdleHistory(c, s, w, i, e);
    case Reading(b, j, r) => ReadHistory(c, s, w, b, j, r, e);
    case Dropping(b, j, d) => DropHistory(c, s, w, b, j, d);
    case Writing(k, p) => if PreparePC(p) { PrepareHistory(c, s, w, k, p, e); } else { WriteHistory(c, s, w, k, p, e); }
    case Finishing(f, p) => FinHistory(c, s, w, f, p, e);
  }

  lemma PcHistoryStable(c: Config, s: State, w: nat, t: State, pc: PC)
    requires Local(c, s, w, t) && PcHistory(c, s, pc)
    requires forall j: nat :: WorksOn(s.pcs[w], j) ==> !WorksOn(pc, j)
    ensures PcHistory(c, t, pc)
  {
    match pc
    case Reading(_, j, _) => assert WorksOn(pc, j);
    case Dropping(_, j, _) => assert WorksOn(pc, j);
    case Writing(k, _) => assert WorksOn(pc, k.job);
    case _ =>
  }

  lemma NobodyElse(c: Config, s: State, w: nat)
    requires w < |s.pcs| && Shape(c, s) && JobInv(c, s)
    ensures forall j: nat, v: nat :: v < |s.pcs| && v != w && WorksOn(s.pcs[w], j) ==> !WorksOn(s.pcs[v], j)
    ensures forall j: nat, i: nat :: i < |s.filled| && WorksOn(s.pcs[w], j) ==> s.filled[i].job != j
    ensures forall j: nat :: WorksOn(s.pcs[w], j) ==> j < |c.jobs| && j < s.cursor && s.log[j].fate.Live?
  {
    assert PcOk(c, s.pcs[w]);
    forall j: nat | WorksOn(s.pcs[w], j)
      ensures forall v :: 0 <= v < |s.pcs| && v != w ==> !WorksOn(s.pcs[v], j)
      ensures forall i :: 0 <= i < |s.filled| ==> s.filled[i].job != j
      ensures j < |c.jobs| && j < s.cursor && s.log[j].fate.Live?
    {
      SoleWorker(s, w, j);
    }
  }

  lemma HistoryStep(c: Config, s: State, w: nat, e: Event, t: State)
    requires Next(c, s, w, e, t) && HistoryInv(c, s) && JobInv(c, s)
    ensures HistoryInv(c, t)
  {
    LocalStep(c, s, w, e, t);
    HistoryOwn(c, s, w, e, t);
    NobodyElse(c, s, w);
    hide Next; hide Shape; hide WellPlanned; hide JobInv; hide JobPlaces; hide Fail;
    forall v: nat | v < |t.pcs| && v != w ensures PcHistory(c, t, t.pcs[v]) {
      PcHistoryStable(c, s, w, t, s.pcs[v]);
    }
    hide PcHistory;
    forall j: nat | j < |c.jobs| ensures JobHistory(c, t, j) {
      assert JobHistory(c, s, j);
    }
    forall i | 0 <= i < |t.filled| ensures t.filled[i].job < |t.log| && Loaded(t.log[t.filled[i].job]) {
      var k := t.filled[i];
      if k in s.filled {
        var n :| 0 <= n < |s.filled| && s.filled[n] == k;
        assert !WorksOn(s.pcs[w], k.job);
      } else {
        assert WorksOn(s.pcs[w], k.job);
      }
    }
  }

  // ---- a file is marked failed only for one of its own chunks ---------------

  predicate Spoils(l: JobLog, f: nat) {
    l.job.file == f && l.spoiled
  }

  ghost predicate SpoilInv(s: State) {
    forall f: nat :: FailedFile(s, f) ==> exists j :: 0 <= j < |s.log| && Spoils(s.log[j], f)
  }

  /** Marks and spoiled chunks stay, and new marks are only for the spoiled job `j`. */
  ghost predicate SpoilsOnly(s: State, t: State, j: nat) {
    && |t.log| == |s.log|
    && (forall i, f: nat :: 0 <= i < |s.log| && Spoils(s.log[i], f) ==> Spoils(t.log[i], f))
    && (forall f: nat :: FailedFile(t, f) ==> FailedFile(s, f) || (j < |t.log| && Spoils(t.log[j], f)))
  }

  lemma IdleSpoils(c: Config, s: State, w: nat, i: IdlePC, e: Event)
    requires CanIdle(s, w, i, e)
    ensures SpoilsOnly(s, IdleStep(c, s, w, i, e), 0)
  {}

  lemma ReadSpoils(c: Config, s: State, w: nat, b: nat, j: nat, r: ReadPC, e: Event)
    requires CanRead(c, s, w, b, j, r, e)
    ensures SpoilsOnly(s, ReadStep(c, s, w, b, j, r, e), j)
  {}

  lemma DropSpoils(c: Config, s: State, w: nat, b: nat, j: nat, d: DropPC)
    requires CanDrop(c, s, w, b, j, d) && s.log[j].job == c.jobs[j]
    ensures SpoilsOnly(s, DropStep(c, s, w, b, j, d), j)
  {}

  lemma PrepareSpoils(c: Config, s: State, w: nat, k: Chunk, p: WritePC, e: Event)
    requires CanPrepare(c, s, w, k, p, e)
    ensures SpoilsOnly(s, PrepareStep(c, s, w, k, p, e), k.job)
  {}

  lemma WriteSpoils(c: Config, s: State, w: nat, k: Chunk, p: WritePC, e: Event)
    requires CanWrite(c, s, w, k, p, e) && s.log[k.job].job == c.jobs[k.job]
    ensures SpoilsOnly(s, WriteStep(c, s, w, k, p, e), k.job)
  {
    hide WriteAt;
  }

  lemma FinSpoils(c: Config, s: State, w: nat, f: nat, p: FinPC, e: Event)
    requires CanFin(c, s, w, f, p, e)
    ensures SpoilsOnly(s, FinStep(c, s, w, f, p, e), 0)
  {}

  function JobAtHand(pc: PC): nat {
    match pc
    case Reading(_, j, _) => j
    case Dropping(_, j, _) => j
    case Writing(k, _) => k.job
    case _ => 0
  }

  lemma SpoilStep(c: Config, s: State, w: nat, e: Event, t: State)
    requires Next(c, s, w, e, t) && SpoilInv(s)
    ensures SpoilInv(t)
  {
    var j := JobAtHand(s.pcs[w]);
    var busy := !s.pcs[w].Idle? && !s.pcs[w].Finishing? && !s.pcs[w].Exited?;
    assert j < |s.log| && busy ==> s.log[j].job == c.jobs[j] by {
      assert PcOk(c, s.pcs[w]);
    }
    assert SpoilsOnly(s, t, j) by {
      hide SpoilsOnly; hide WellPlanned;
      hide IdleStep; hide ReadStep; hide DropStep; hide PrepareStep; hide WriteStep; hide FinStep;
      match s.pcs[w]
      case Idle(i) => IdleSpoils(c, s, w, i, e);
      case Reading(b, j, r) => ReadSpoils(c, s, w, b, j, r, e);
      case Dropping(b, j, d) => DropSpoils(c, s, w, b, j, d);
      case Writing(k, p) => if PreparePC(p) { PrepareSpoils(c, s, w, k, p, e); } else { WriteSpoils(c, s, w, k, p, e); }
      case Finishing(f, p) => FinSpoils(c, s, w, f, p, e);
    }
    hide Next;
    forall f: nat | FailedFile(t, f) ensures exists i :: 0 <= i < |t.log| && Spoils(t.log[i], f) {
      if FailedFile(s, f) {
        var i :| 0 <= i < |s.log| && Spoils(s.log[i], f);
        assert Spoils(t.log[i], f);
      } else {
        assert Spoils(t.log[j], f);
      }
    }
  }
}
