/** The destination files: prepared once, written chunk by chunk, trimmed last. */
module Destinations {
  import opened Counting
  import opened Device
  import opened Pipeline
  import opened Ownership
  import opened History
  import opened Finalisation
  import opened Content

  // ---- the promised content ------------------------------------------------

  /** The `n` bytes a job leaves from its offset on: `put` of its payload, then what preparation left. */
  ghost function Cell(c: Config, job: Job, got: nat, put: nat, prep: seq<byte>, n: nat): (d: seq<byte>)
    requires ReadableAt(c, job, got) && put <= JobPadded(c, job)
    requires n <= JobPadded(c, job) && job.offset + n <= |prep|
    ensures |d| == n
  {
    var p := Payload(c, job, got);
    if n <= put then p[..n] else p[..put] + prep[job.offset + put..job.offset + n]
  }

  /** How much of a job's padded range lies in a file of length `size`: the trim cuts the last one. */
  function Width(c: Config, job: Job, size: nat): nat
    requires job.offset <= size
  {
    Min(JobPadded(c, job), size - job.offset)
  }

  ghost predicate CellOk(c: Config, d: seq<byte>, prep: seq<byte>, l: JobLog) {
    JobFits(c, l.job) && l.job.offset + l.job.len <= |d| && l.job.offset + JobPadded(c, l.job) <= |prep| &&
    var end := l.job.offset + Width(c, l.job, |d|);
    match l.result
    case Untried => d[l.job.offset..end] == prep[l.job.offset..end]
    case Wrote(put) =>
      && ReadableAt(c, l.job, l.got) && put <= JobPadded(c, l.job)
      && d[l.job.offset..end] == Cell(c, l.job, l.got, put, prep, Width(c, l.job, |d|))
    case Botched => true
  }

  // ---- invariants ----------------------------------------------------------

  predicate OnDisk(s: State, p: Path, d: seq<byte>) {
    p in s.disk && s.disk[p] == d
  }

  ghost predicate FileContent(c: Config, s: State, f: nat) {
    f < |c.files| && f < |s.entries| && f < |s.flog| &&
    var en, l, dst := s.entries[f], s.flog[f], c.files[f].dst;
    if en.prepared then
      && en.master && dst in s.disk && |l.prep| == PaddedSize(c, f)
      && |s.disk[dst]| == (if l.trim.Trimmed? then c.files[f].size else PaddedSize(c, f))
      && forall j :: 0 <= j < |s.log| && s.log[j].job.file == f ==> CellOk(c, s.disk[dst], l.prep, s.log[j])
    else
      forall j :: 0 <= j < |s.log| && s.log[j].job.file == f ==> s.log[j].result.Untried?
  }

  predicate UnderPreparation(p: WritePC) {
    p.CreateDst? || p.SizeDst? || p.SetMaster? || p.SetPrepared?
  }

  /** A worker preparing a file knows it is not prepared yet; one writing knows it is. */
  ghost predicate PcDestination(c: Config, s: State, pc: PC) {
    match pc
    case Writing(k, p) => k.file < |s.entries| && k.file < |c.files| && k.file < |s.flog| &&
      var en, prep, dst := s.entries[k.file], s.flog[k.file].prep, c.files[k.file].dst;
      if UnderPreparation(p) then
        && !en.prepared
        && (p.SetMaster? || p.SetPrepared? ==> |prep| == PaddedSize(c, k.file) && OnDisk(s, dst, prep))
        && (p.SetPrepared? ==> en.master)
      else
        p == UnlockMaster(true) || !PreparePC(p) ==> en.prepared
    case _ => true
  }

  ghost predicate DestinationInv(c: Config, s: State) {
    && (forall f: nat :: f < |c.files| ==> FileContent(c, s, f))
    && (forall v :: 0 <= v < |s.pcs| ==> PcDestination(c, s, s.pcs[v]))
  }

  // ---- what a step can change on disk --------------------------------------

  /** The worker's next step may write the destination of `f` or its marks. */
  predicate Touches(pc: PC, f: nat) {
    match pc
    case Writing(k, p) => k.file == f && (p.CreateDst? || p.SizeDst? || p.SetPrepared? || p.WriteDst?)
    case Finishing(g, p) => g == f && p.Trim?
    case _ => false
  }

  ghost predicate Untouched(c: Config, s: State, t: State, f: nat) {
    && f < |c.files| && f < |s.entries| == |t.entries| && f < |s.flog| == |t.flog|
    && s.entries[f].prepared == t.entries[f].prepared && (s.entries[f].master ==> t.entries[f].master)
    && s.flog[f].prep == t.flog[f].prep && s.flog[f].trim == t.flog[f].trim
    && (c.files[f].dst in s.disk <==> c.files[f].dst in t.disk)
    && (c.files[f].dst in s.disk ==> s.disk[c.files[f].dst] == t.disk[c.files[f].dst])
    && |s.log| == |t.log|
    && (forall j :: 0 <= j < |s.log| && s.log[j].job.file == f ==>
          t.log[j].job == s.log[j].job && t.log[j].result == s.log[j].result
          && (s.log[j].result.Wrote? ==> t.log[j].got == s.log[j].got))
    && (forall j :: 0 <= j < |s.log| ==> t.log[j].job == s.log[j].job)
  }

  ghost predicate OwnDestinations(c: Config, f: nat) {
    f < |c.files| && forall g :: 0 <= g < |c.files| && g != f ==> c.files[g].dst != c.files[f].dst
  }

  lemma IdleUntouched(c: Config, s: State, w: nat, i: IdlePC, e: Event, f: nat)
    requires CanIdle(s, w, i, e) && f < |c.files| == |s.entries| == |s.flog|
    ensures Untouched(c, s, IdleStep(c, s, w, i, e), f)
  {}

  lemma ReadUntouched(c: Config, s: State, w: nat, b: nat, j: nat, r: ReadPC, e: Event, f: nat)
    requires CanRead(c, s, w, b, j, r, e) && f < |c.files| && s.log[j].result.Untried?
    ensures Untouched(c, s, ReadStep(c, s, w, b, j, r, e), f)
  {}

  lemma DropUntouched(c: Config, s: State, w: nat, b: nat, j: nat, d: DropPC, f: nat)
    requires CanDrop(c, s, w, b, j, d) && f < |c.files|
    ensures Untouched(c, s, DropStep(c, s, w, b, j, d), f)
  {}

  lemma PrepareUntouched(c: Config, s: State, w: nat, k: Chunk, p: WritePC, e: Event, f: nat)
    requires CanPrepare(c, s, w, k, p, e) && OwnDestinations(c, f) && !Touches(s.pcs[w], f)
    ensures Untouched(c, s, PrepareStep(c, s, w, k, p, e), f)
  {}

  lemma WriteUntouched(c: Config, s: State, w: nat, k: Chunk, p: WritePC, e: Event, f: nat)
    requires CanWrite(c, s, w, k, p, e) && OwnDestinations(c, f) && !Touches(s.pcs[w], f)
    requires s.log[k.job].job.file == k.file
    ensures Untouched(c, s, WriteStep(c, s, w, k, p, e), f)
  {}

  lemma FinUntouched(c: Config, s: State, w: nat, g: nat, p: FinPC, e: Event, f: nat)
    requires CanFin(c, s, w, g, p, e) && OwnDestinations(c, f) && !Touches(s.pcs[w], f)
    ensures Untouched(c, s, FinStep(c, s, w, g, p, e), f)
  {}

  lemma UntouchedStep(c: Config, s: State, w: nat, e: Event, t: State, f: nat)
    requires Next(c, s, w, e, t) && f < |c.files| && PcHistory(c, s, s.pcs[w]) && !Touches(s.pcs[w], f)
    ensures Untouched(c, s, t, f)
  {
    assert OwnDestinations(c, f);
    assert s.pcs[w].Writing? ==> s.log[s.pcs[w].chunk.job].job.file == s.pcs[w].chunk.file;
    hide IdleStep; hide ReadStep; hide DropStep; hide PrepareStep; hide WriteStep; hide FinStep;
    hide Untouched; hide WellPlanned; hide Shape; hide OwnDestinations; hide Touches;
    match s.pcs[w]
    case Idle(i) => IdleUntouched(c, s, w, i, e, f);
    case Reading(b, j, r) => ReadUntouched(c, s, w, b, j, r, e, f);
    case Dropping(b, j, d) => DropUntouched(c, s, w, b, j, d, f);
    case Writing(k, p) =>
      if PreparePC(p) { PrepareUntouched(c, s, w, k, p, e, f); } else { WriteUntouched(c, s, w, k, p, e, f); }
    case Finishing(g, p) => FinUntouched(c, s, w, g, p, e, f);
  }

  lemma ContentStable(c: Config, s: State, t: State, f: nat)
    requires Untouched(c, s, t, f) && FileContent(c, s, f)
    ensures FileContent(c, t, f)
  {
    hide JobFits; hide Cell; hide RoundUp;
  }

  // ---- the steps that do touch the file ------------------------------------

  lemma PrepareContent(c: Config, s: State, w: nat, k: Chunk, p: WritePC, e: Event)
    requires CanPrepare(c, s, w, k, p, e) && Touches(s.pcs[w], k.file) && FileContent(c, s, k.file)
    requires PcDestination(c, s, s.pcs[w])
    requires forall j :: 0 <= j < |s.log| ==> JobFits(c, s.log[j].job)
    requires s.flog[k.file].trim.Untrimmed? && c.align > 0
    ensures FileContent(c, PrepareStep(c, s, w, k, p, e), k.file)
  {
    RoundUpIsLeastMultiple(c.files[k.file].size, c.align);
  }

  lemma CellAfterWrite(c: Config, d: seq<byte>, prep: seq<byte>, l: JobLog, data: seq<byte>, result: WriteResult)
    requires CellOk(c, d, prep, l) && l.result.Untried? && ReadableAt(c, l.job, l.got)
    requires l.job.offset + JobPadded(c, l.job) <= |d| && |data| <= JobPadded(c, l.job)
    requires result == Botched || (result == Wrote(|data|) && data == Payload(c, l.job, l.got)[..|data|])
    ensures CellOk(c, WriteAt(d, l.job.offset, data), prep, l.(result := result))
  {
    var offset, end := l.job.offset, l.job.offset + JobPadded(c, l.job);
    var t := WriteAt(d, offset, data);
    WriteAtInside(d, offset, data);
    if result.Wrote? {
      assert t[offset..end] == data + t[offset + |data|..end];
      assert t[offset + |data|..end] == d[offset + |data|..end];
      assert d[offset + |data|..end] == d[offset..end][|data|..];
      assert prep[offset + |data|..end] == prep[offset..end][|data|..];
    }
  }

  lemma CellElsewhere(c: Config, d: seq<byte>, prep: seq<byte>, job: Job, data: seq<byte>, l: JobLog)
    requires CellOk(c, d, prep, l) && Apart(c, job, l.job) && job.file == l.job.file
    requires JobFits(c, job) && job.offset + JobPadded(c, job) <= |d| && |data| <= JobPadded(c, job)
    ensures CellOk(c, WriteAt(d, job.offset, data), prep, l)
  {
    WriteAtInside(d, job.offset, data);
    var end := l.job.offset + Width(c, l.job, |d|);
    assert WriteAt(d, job.offset, data)[l.job.offset..end] == d[l.job.offset..end];
    hide WriteAt; hide Cell; hide RoundUp;
  }

  lemma WriteContent(c: Config, s: State, w: nat, k: Chunk, e: Event)
    requires CanWrite(c, s, w, k, WriteDst, e) && FileContent(c, s, k.file) && PcDestination(c, s, s.pcs[w])
    requires BufferHolds(c, s, k.buf, k.job) && s.log[k.job].result.Untried? && s.log[k.job].job == c.jobs[k.job]
    requires s.flog[k.file].trim.Untrimmed?
    requires forall i :: 0 <= i < |s.log| && i != k.job ==> Apart(c, c.jobs[k.job], s.log[i].job)
    ensures FileContent(c, WriteStep(c, s, w, k, WriteDst, e), k.file)
  {
    var t := WriteStep(c, s, w, k, WriteDst, e);
    var f, dst := k.file, c.files[k.file].dst;
    var d, prep := s.disk[dst], s.flog[f].prep;
    var data := if e.IoOk? then s.arena[k.buf][..e.n] else e.data;
    if e.IoOk? {
      assert data == s.arena[k.buf][..k.padded][..e.n];
    }
    WriteAtInside(d, k.offset, data);
    assert t.disk[dst] == WriteAt(d, k.offset, data);
    var result := if e.IoOk? then Wrote(e.n) else Botched;
    assert t.log == s.log[k.job := s.log[k.job].(result := result)];
    assert t.entries == s.entries && t.flog == s.flog;
    assert |t.disk[dst]| == |d|;
    CellAfterWrite(c, d, prep, s.log[k.job], data, result);
    hide WriteStep; hide WriteAt; hide CellOk; hide Payload;
    forall i | 0 <= i < |t.log| && t.log[i].job.file == f ensures CellOk(c, t.disk[dst], prep, t.log[i]) {
      if i != k.job {
        CellElsewhere(c, d, prep, c.jobs[k.job], data, s.log[i]);
      }
    }
  }

  lemma SliceOfPrefix(d: seq<byte>, n: nat, from: nat, to: nat)
    requires from <= to <= n <= |d|
    ensures d[..n][from..to] == d[from..to]
  {}

  lemma ShorterSlice(d: seq<byte>, from: nat, to: nat, end: nat)
    requires from <= to <= end <= |d|
    ensures d[from..to] == d[from..end][..to - from]
  {}

  /** A file cut past a job's bytes keeps its cell, as far as the cut reaches into it. */
  lemma CellAfterCut(c: Config, d: seq<byte>, prep: seq<byte>, l: JobLog, n: nat)
    requires CellOk(c, d, prep, l) && l.job.offset + l.job.len <= n <= |d|
    ensures CellOk(c, d[..n], prep, l)
  {
    hide RoundUp; hide Cell;
    var offset := l.job.offset;
    var wide, narrow := offset + Width(c, l.job, |d|), offset + Width(c, l.job, n);
    SliceOfPrefix(d, n, offset, narrow);
    ShorterSlice(d, offset, narrow, wide);
    ShorterSlice(prep, offset, narrow, wide);
    if l.result.Wrote? {
      CellPrefix(c, l.job, l.got, l.result.put, prep, wide - offset, narrow - offset);
    }
  }

  lemma CellPrefix(c: Config, job: Job, got: nat, put: nat, prep: seq<byte>, n: nat, m: nat)
    requires ReadableAt(c, job, got) && put <= JobPadded(c, job)
    requires m <= n <= JobPadded(c, job) && job.offset + n <= |prep|
    ensures Cell(c, job, got, put, prep, n)[..m] == Cell(c, job, got, put, prep, m)
  {}

  lemma TrimEffect(c: Config, s: State, w: nat, f: nat, e: Event)
    requires CanFin(c, s, w, f, Trim, e) && c.files[f].dst in s.disk && c.files[f].size <= |s.disk[c.files[f].dst]|
    ensures var t := FinStep(c, s, w, f, Trim, e);
            && t.log == s.log && t.entries == s.entries && |t.flog| == |s.flog| && t.flog[f].prep == s.flog[f].prep
            && (if !s.entries[f].master then t.disk == s.disk && t.flog == s.flog
                else if e.IoErr? then t.disk == s.disk && t.flog[f].trim == TrimFailed
                else t.flog[f].trim == Trimmed
                     && t.disk == s.disk[c.files[f].dst := s.disk[c.files[f].dst][..c.files[f].size]])
  {}

  lemma TrimContent(c: Config, s: State, w: nat, f: nat, e: Event)
    requires CanFin(c, s, w, f, Trim, e) && FileContent(c, s, f) && s.flog[f].trim.Untrimmed? && s.entries[f].prepared
    requires c.align > 0
    ensures FileContent(c, FinStep(c, s, w, f, Trim, e), f)
  {
    hide FinStep; hide RoundUp; hide CanFin;
    RoundUpIsLeastMultiple(c.files[f].size, c.align);
    var t := FinStep(c, s, w, f, Trim, e);
    var dst, size := c.files[f].dst, c.files[f].size;
    var d := s.disk[dst];
    TrimEffect(c, s, w, f, e);
    forall j | 0 <= j < |t.log| && t.log[j].job.file == f ensures CellOk(c, t.disk[dst], t.flog[f].prep, t.log[j]) {
      assert CellOk(c, d, s.flog[f].prep, s.log[j]);
      CellAfterCut(c, d, s.flog[f].prep, s.log[j], size);
    }
  }

  lemma ContentStep(c: Config, s: State, w: nat, e: Event, t: State, f: nat)
    requires Next(c, s, w, e, t) && DestinationInv(c, s) && FinalInv(c, s) && f < |c.files|
    requires BufferInv(c, s) && HistoryInv(c, s) && OwnJobOpen(c, s, w)
    requires s.pcs[w].Finishing? && s.pcs[w].fin.Trim? ==> s.entries[s.pcs[w].file].prepared
    ensures FileContent(c, t, f)
  {
    assert FileContent(c, s, f) && FileFinal(c, s, f) && PcHistory(c, s, s.pcs[w]) && PcBuffer(c, s, s.pcs[w]);
    if !Touches(s.pcs[w], f) {
      UntouchedStep(c, s, w, e, t, f);
      ContentStable(c, s, t, f);
    } else {
      TouchingStep(c, s, w, e, t, f);
    }
  }

  lemma TouchingStep(c: Config, s: State, w: nat, e: Event, t: State, f: nat)
    requires Next(c, s, w, e, t) && FileContent(c, s, f) && FileFinal(c, s, f) && PcDestination(c, s, s.pcs[w])
    requires PcHistory(c, s, s.pcs[w]) && PcBuffer(c, s, s.pcs[w]) && OwnJobOpen(c, s, w) && Touches(s.pcs[w], f)
    requires s.pcs[w].Finishing? && s.pcs[w].fin.Trim? ==> s.entries[s.pcs[w].file].prepared
    ensures FileContent(c, t, f)
  {
    match s.pcs[w]
    case Writing(k, p) =>
      assert WorksOn(s.pcs[w], k.job);
      assert Incomplete(c, s, f) && s.flog[f].trim.Untrimmed?;
      assert forall i :: 0 <= i < |s.log| && i != k.job ==> Apart(c, c.jobs[k.job], s.log[i].job);
      hide FileContent; hide FileFinal; hide WellPlanned; hide Shape; hide OwnJobOpen; hide PcDestination; hide Apart;
      hide PrepareStep; hide WriteStep;
      if PreparePC(p) {
        assert forall j :: 0 <= j < |s.log| ==> JobFits(c, s.log[j].job);
        PrepareContent(c, s, w, k, p, e);
      } else {
        WriteContent(c, s, w, k, e);
      }
    case Finishing(g, p) =>
      assert s.flog[f].trim.Untrimmed? by {
        hide Sum;
        SumAtLeast(s.pcs, w, Trimming(f));
      }
      hide FileContent; hide FileFinal; hide FinStep;
      TrimContent(c, s, w, f, e);
  }

  // ---- what the workers know about their destination -----------------------

  lemma IdleDestination(c: Config, s: State, w: nat, i: IdlePC, e: Event)
    requires CanIdle(s, w, i, e) && Shape(c, s)
    requires forall j :: 0 <= j < |c.jobs| ==> c.jobs[j].file < |c.files|
    ensures PcDestination(c, IdleStep(c, s, w, i, e), IdleStep(c, s, w, i, e).pcs[w])
  {}

  lemma PrepareDestination(c: Config, s: State, w: nat, k: Chunk, p: WritePC, e: Event)
    requires CanPrepare(c, s, w, k, p, e) && PcDestination(c, s, s.pcs[w])
    ensures PcDestination(c, PrepareStep(c, s, w, k, p, e), PrepareStep(c, s, w, k, p, e).pcs[w])
  {}

  lemma WriteDestination(c: Config, s: State, w: nat, k: Chunk, p: WritePC, e: Event)
    requires CanWrite(c, s, w, k, p, e) && PcDestination(c, s, s.pcs[w])
    ensures PcDestination(c, WriteStep(c, s, w, k, p, e), WriteStep(c, s, w, k, p, e).pcs[w])
  {}

  lemma OwnDestination(c: Config, s: State, w: nat, e: Event, t: State)
    requires Next(c, s, w, e, t) && PcDestination(c, s, s.pcs[w]) && w < |t.pcs|
    ensures PcDestination(c, t, t.pcs[w])
  {
    assert forall j :: 0 <= j < |c.jobs| ==> JobFits(c, c.jobs[j]);
    assert t.pcs[w].Writing? ==> s.pcs[w].Idle? || s.pcs[w].Writing? by {
      LocalStep(c, s, w, e, t);
    }
    hide IdleStep; hide ReadStep; hide DropStep; hide PrepareStep; hide WriteStep; hide FinStep;
    hide Shape; hide WellPlanned;
    match s.pcs[w]
    case Idle(i) => IdleDestination(c, s, w, i, e);
    case Writing(k, p) =>
      if PreparePC(p) { PrepareDestination(c, s, w, k, p, e); } else { WriteDestination(c, s, w, k, p, e); }
    case _ =>
  }

  /** The lock keeps everybody else out of a preparation in progress. */
  lemma OthersDestination(c: Config, s: State, w: nat, t: State, v: nat)
    requires Local(c, s, w, t) && LockInv(c, s) && v < |s.pcs| && v != w && PcDestination(c, s, s.pcs[v])
    requires PcDestination(c, s, s.pcs[w])
    requires forall f: nat :: f < |c.files| && !Touches(s.pcs[w], f) ==> Untouched(c, s, t, f)
    ensures PcDestination(c, t, t.pcs[v])
  {
    match s.pcs[v]
    case Writing(k, p) =>
      var f := k.file;
      if UnderPreparation(p) {
        assert Inside(s.pcs[v], f);
        assert !Inside(s.pcs[w], f);
        assert !Touches(s.pcs[w], f);
        assert Untouched(c, s, t, f);
      }
    case _ =>
  }

  lemma DestinationStep(c: Config, s: State, w: nat, e: Event, t: State)
    requires Next(c, s, w, e, t) && DestinationInv(c, s) && FinalInv(c, s) && LockInv(c, s)
    requires BufferInv(c, s) && HistoryInv(c, s) && JobInv(c, s)
    requires s.pcs[w].Finishing? && s.pcs[w].fin.Trim? ==> s.entries[s.pcs[w].file].prepared
    ensures DestinationInv(c, t)
  {
    LocalStep(c, s, w, e, t);
    OwnJobIsOpen(c, s, w);
    OwnDestination(c, s, w, e, t);
    assert PcHistory(c, s, s.pcs[w]);
    hide FileContent; hide OwnJobOpen; hide Untouched; hide PcDestination; hide PcHistory; hide Touches;
    forall f: nat | f < |c.files| ensures FileContent(c, t, f) {
      ContentStep(c, s, w, e, t, f);
    }
    forall f: nat | f < |c.files| && !Touches(s.pcs[w], f) ensures Untouched(c, s, t, f) {
      UntouchedStep(c, s, w, e, t, f);
    }
    hide Next; hide FinalInv; hide BufferInv; hide HistoryInv; hide JobInv; hide WellPlanned; hide Shape;
    forall v: nat | v < |t.pcs| ensures PcDestination(c, t, t.pcs[v]) {
      if v != w {
        OthersDestination(c, s, w, t, v);
      }
    }
  }

  /** A file whose chunks have all been tried was prepared: the trim always finds its handle. */
  lemma CompleteMeansPrepared(c: Config, s: State, w: nat)
    requires WellPlanned(c) && Shape(c, s) && w < |s.pcs| && s.pcs[w].Finishing? && s.pcs[w].fin.Trim?
    requires FinalInv(c, s) && DestinationInv(c, s) && HistoryInv(c, s)
    ensures s.entries[s.pcs[w].file].prepared && s.entries[s.pcs[w].file].master
  {
    var f := s.pcs[w].file;
    assert FileFinal(c, s, f) && FileContent(c, s, f);
    assert s.entries[f].done == c.chunks[f] by {
      hide Sum;
      SumAtLeast(s.pcs, w, Trimming(f));
    }
    DoneAtMostChunks(c, s, f);
    var j := SumWitness(c.jobs, OfFile(f));
    assert JobHistory(c, s, j);
  }
}
