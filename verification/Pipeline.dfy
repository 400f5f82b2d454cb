/**
 The bulk copy pipeline as a labelled transition system.

 Every worker carries a program counter; a step is one atomic operation, one locked
 section boundary or one file operation of that worker.  An `Event` resolves what the
 program does not decide itself: the scheduler's answer, whether a timed wait expires
 and how a file operation ends.
 */
module Pipeline {
  import opened Counting
  import opened Device

  newtype byte = b: int | 0 <= b < 256

  type Path = seq<string>

  /** A planned file: `size` was measured by the scan, `source` is what reads return. */
  datatype FileSpec = FileSpec(dst: Path, size: nat, source: seq<byte>)

  datatype Job = Job(file: nat, offset: nat, len: nat)

  datatype Config = Config(
    files: seq<FileSpec>,
    jobs: seq<Job>,
    chunks: seq<nat>,
    block: nat,
    align: nat,
    capacity: nat,
    workers: nat)

  // `job` is auxiliary: it names the job the chunk was read for.
  datatype Chunk = Chunk(buf: nat, file: nat, offset: nat, len: nat, padded: nat, job: nat)

  datatype Entry = Entry(done: nat, prepared: bool, master: bool, failed: bool, lock: Lock)

  datatype Lock = Unlocked | LockedBy(worker: nat)

  // ---- program counters ------------------------------------------------

  // The flag `again` says whether the other side is still to be tried in this iteration.
  datatype IdlePC =
    | Head
    | TryFree(again: bool)
    | WaitFree(again: bool)
    | HaveBuf(again: bool, buf: nat)
    | ReturnBuf(again: bool, buf: nat)
    | TryFilled(again: bool)
    | WaitFilled(again: bool)

  datatype ReadPC = OpenSrc | ReadSrc | ZeroSlack(got: nat) | CountRead | PushFilled

  datatype DropPC = DropReport | DropMark | DropRelease | DropRetire

  datatype WritePC =
    | CheckPrepared
    | LockMaster
    | RecheckPrepared
    | CreateDst
    | SizeDst
    | SetMaster
    | SetPrepared
    | UnlockMaster(ok: bool)
    | OpenDst
    | WriteDst
    | CountWritten
    | WriteReport
    | WriteMark
    | ReleaseBuf
    | Retire
    | Credit

  datatype FinPC = LockFinal | Trim | TrimReport | CountFile | UnlockFinal

  datatype PC =
    | Idle(idle: IdlePC)
    | Reading(buf: nat, job: nat, read: ReadPC)
    | Dropping(buf: nat, job: nat, drop: DropPC)
    | Writing(chunk: Chunk, write: WritePC)
    | Finishing(file: nat, fin: FinPC)
    | Exited

  datatype Event =
    | Go
    | AskRead
    | AskWrite
    | Wake
    | Timeout
    | IoOk(n: nat, data: seq<byte>)
    | IoErr(data: seq<byte>)

  // ---- auxiliary history: recorded by the steps, never consulted by them ----

  datatype WriteResult = Untried | Wrote(put: nat) | Botched

  datatype Fate = Live | Dropped | Credited

  datatype JobLog = JobLog(
    job: Job, got: nat, readCounted: bool, result: WriteResult, writeCounted: bool, spoiled: bool, fate: Fate)

  datatype TrimResult = Untrimmed | Trimmed | TrimFailed

  datatype FileLog = FileLog(prep: seq<byte>, trim: TrimResult, settled: bool, counted: bool)

  datatype State = State(
    cursor: nat,
    remaining: nat,
    free: seq<nat>,
    filled: seq<Chunk>,
    arena: seq<seq<byte>>,
    entries: seq<Entry>,
    disk: map<Path, seq<byte>>,
    errors: seq<nat>,
    bytesRead: nat,
    bytesWritten: nat,
    filesDone: nat,
    pcs: seq<PC>,
    srcOpen: seq<set<nat>>,
    dstOpen: seq<set<nat>>,
    log: seq<JobLog>,
    flog: seq<FileLog>)

  const ERROR_CAP := 64

  // ---- what a plan has to satisfy --------------------------------------

  function JobPadded(c: Config, job: Job): nat {
    RoundUp(job.len, c.align)
  }

  function PaddedSize(c: Config, f: nat): nat
    requires f < |c.files|
  {
    RoundUp(c.files[f].size, c.align)
  }

  ghost function OfFile(f: nat): Job -> nat {
    (job: Job) => Bit(job.file == f)
  }

  ghost predicate JobFits(c: Config, job: Job) {
    && job.file < |c.files|
    && job.offset + job.len <= c.files[job.file].size
    && job.len <= JobPadded(c, job) <= c.block
    && job.offset + JobPadded(c, job) <= PaddedSize(c, job.file)
  }

  ghost predicate Apart(c: Config, a: Job, b: Job) {
    a.file == b.file ==>
      a.offset + JobPadded(c, a) <= b.offset || b.offset + JobPadded(c, b) <= a.offset
  }

  predicate Covers(job: Job, f: nat, k: nat) {
    job.file == f && job.offset <= k < job.offset + job.len
  }

  ghost predicate Covered(c: Config, f: nat, k: nat) {
    exists j :: 0 <= j < |c.jobs| && Covers(c.jobs[j], f, k)
  }

  predicate CoversPadded(job: Job, align: nat, k: nat) {
    job.offset <= k < job.offset + RoundUp(job.len, align)
  }

  ghost predicate CoveredPadded(c: Config, f: nat, k: nat) {
    exists j :: 0 <= j < |c.jobs| && c.jobs[j].file == f && CoversPadded(c.jobs[j], c.align, k)
  }

  ghost predicate WellPlanned(c: Config) {
    && c.workers > 0 && c.capacity > 0 && c.align > 0
    && c.files != [] && |c.chunks| == |c.files|
    && (forall j :: 0 <= j < |c.jobs| ==> JobFits(c, c.jobs[j]))
    && (forall i, j :: 0 <= i < j < |c.jobs| ==> Apart(c, c.jobs[i], c.jobs[j]))
    && (forall f: nat :: f < |c.files| ==> c.chunks[f] == Sum(c.jobs, OfFile(f)) && c.chunks[f] > 0)
    && (forall f: nat, k: nat :: f < |c.files| && k < c.files[f].size ==> Covered(c, f, k))
    && (forall f: nat, k: nat :: f < |c.files| && k < PaddedSize(c, f) ==> CoveredPadded(c, f, k))
    && (forall f, g :: 0 <= f < g < |c.files| ==> c.files[f].dst != c.files[g].dst)
  }

  function MakeChunk(c: Config, buf: nat, j: nat): Chunk
    requires j < |c.jobs|
  {
    var job := c.jobs[j];
    Chunk(buf, job.file, job.offset, job.len, JobPadded(c, job), j)
  }

  // ---- shape -----------------------------------------------------------

  ghost predicate ChunkOk(c: Config, k: Chunk) {
    k.job < |c.jobs| && k.buf < c.capacity && k == MakeChunk(c, k.buf, k.job)
  }

  ghost predicate ReadableAt(c: Config, job: Job, got: nat) {
    && job.file < |c.files|
    && got <= JobPadded(c, job)
    && (got == 0 || job.offset + got <= |c.files[job.file].source|)
  }

  ghost predicate PcOk(c: Config, pc: PC) {
    match pc
    case Idle(HaveBuf(_, b)) => b < c.capacity
    case Idle(ReturnBuf(_, b)) => b < c.capacity
    case Idle(_) => true
    case Reading(b, j, r) => b < c.capacity && j < |c.jobs|
      && (r.ZeroSlack? ==> ReadableAt(c, c.jobs[j], r.got))
    case Dropping(b, j, _) => b < c.capacity && j < |c.jobs|
    case Writing(k, _) => ChunkOk(c, k)
    case Finishing(f, _) => f < |c.files|
    case Exited => true
  }

  ghost predicate Shape(c: Config, s: State) {
    && |s.pcs| == |s.srcOpen| == |s.dstOpen| == c.workers
    && |s.arena| == c.capacity
    && (forall b :: 0 <= b < |s.arena| ==> |s.arena[b]| == c.block)
    && |s.entries| == |s.flog| == |c.files|
    && |s.log| == |c.jobs|
    && (forall j :: 0 <= j < |s.log| ==> s.log[j].job == c.jobs[j] && ReadableAt(c, c.jobs[j], s.log[j].got))
    && (forall i :: 0 <= i < |s.free| ==> s.free[i] < c.capacity)
    && (forall i :: 0 <= i < |s.filled| ==> ChunkOk(c, s.filled[i]))
    && (forall w :: 0 <= w < |s.pcs| ==> PcOk(c, s.pcs[w]))
  }

  // ---- file operations -------------------------------------------------

  function Zeros(n: nat): (z: seq<byte>)
    ensures |z| == n && forall i :: 0 <= i < n ==> z[i] == 0
  {
    seq(n, _ => 0)
  }

  /** A positioned write: the file grows, zero filled, when the range starts or ends past its end. */
  function WriteAt(d: seq<byte>, offset: nat, data: seq<byte>): seq<byte> {
    var base := if |d| < offset then d + Zeros(offset - |d|) else d;
    base[..offset] + data + (if offset + |data| <= |base| then base[offset + |data|..] else [])
  }

  /** Set the end of file: cut, or extend with zeros. */
  function SetLen(d: seq<byte>, n: nat): seq<byte> {
    if n <= |d| then d[..n] else d + Zeros(n - |d|)
  }

  // ---- one step --------------------------------------------------------

  /** Record a failure message for file `f`; the list keeps only the first messages. */
  function Fail(errors: seq<nat>, f: nat): seq<nat> {
    if |errors| < ERROR_CAP then errors + [f] else errors
  }

  /** Where a worker goes when one side had nothing for it: the other side, or sleep and loop. */
  function Fallthrough(again: bool, fromRead: bool): PC {
    if !again then Idle(Head)
    else if fromRead then Idle(TryFilled(false))
    else Idle(TryFree(false))
  }

  predicate IdleEnabled(s: State, i: IdlePC, e: Event) {
    match i
    case Head => if s.remaining == 0 then e.Go? else e.AskRead? || e.AskWrite?
    case WaitFree(_) => e.Wake? || e.Timeout?
    case WaitFilled(_) => e.Wake? || e.Timeout?
    case _ => e.Go?
  }

  predicate CanIdle(s: State, w: nat, i: IdlePC, e: Event) {
    w < |s.pcs| && s.pcs[w] == Idle(i) && IdleEnabled(s, i, e)
  }

  function IdleStep(c: Config, s: State, w: nat, i: IdlePC, e: Event): State
    requires CanIdle(s, w, i, e)
  {
    match i
    case Head =>
      s.(pcs := s.pcs[w := if s.remaining == 0 then Exited
                           else if e.AskRead? then Idle(TryFree(true)) else Idle(TryFilled(true))])
    case TryFree(a) =>
      if |s.free| == 0 then s.(pcs := s.pcs[w := Idle(WaitFree(a))])
      else
        var last := |s.free| - 1;
        s.(free := s.free[..last], pcs := s.pcs[w := Idle(HaveBuf(a, s.free[last]))])
    case WaitFree(a) =>
      s.(pcs := s.pcs[w := if e.Wake? then Idle(TryFree(a)) else Fallthrough(a, true)])
    case HaveBuf(a, b) =>
      s.(cursor := s.cursor + 1,
         pcs := s.pcs[w := if s.cursor < |c.jobs| then Reading(b, s.cursor, OpenSrc) else Idle(ReturnBuf(a, b))])
    case ReturnBuf(a, b) =>
      s.(free := s.free + [b], pcs := s.pcs[w := Fallthrough(a, true)])
    case TryFilled(a) =>
      if |s.filled| == 0 then s.(pcs := s.pcs[w := Idle(WaitFilled(a))])
      else s.(filled := s.filled[1..], pcs := s.pcs[w := Writing(s.filled[0], CheckPrepared)])
    case WaitFilled(a) =>
      s.(pcs := s.pcs[w := if e.Wake? then Idle(TryFilled(a)) else Fallthrough(a, false)])
  }

  /** Everything a worker busy with buffer `b` and job `j` looks up is in range. */
  ghost predicate InRange(c: Config, s: State, w: nat, b: nat, j: nat) {
    && w < |s.pcs| == |s.srcOpen| == |s.dstOpen|
    && b < |s.arena| && |s.arena[b]| == c.block
    && j < |c.jobs| == |s.log| && JobFits(c, c.jobs[j])
    && |s.entries| == |s.flog| == |c.files|
  }

  ghost predicate ReadEnabled(c: Config, s: State, w: nat, j: nat, r: ReadPC, e: Event)
    requires w < |s.srcOpen| && j < |c.jobs|
  {
    var job := c.jobs[j];
    match r
    case OpenSrc => if job.file in s.srcOpen[w] then e.Go? else e.IoOk? || e.IoErr?
    case ReadSrc =>
      // The bytes past `n` are whatever the device left there.
      || (e.IoOk? && |e.data| == JobPadded(c, job) && ReadableAt(c, job, e.n)
          && e.data[..e.n] == SourceAt(c, job, e.n))
      || (e.IoErr? && |e.data| == JobPadded(c, job))
    case _ => e.Go?
  }

  /** The first `n` bytes of the source from the job's offset on. */
  ghost function SourceAt(c: Config, job: Job, n: nat): seq<byte>
    requires ReadableAt(c, job, n)
  {
    if n == 0 then [] else c.files[job.file].source[job.offset..job.offset + n]
  }

  ghost predicate CanRead(c: Config, s: State, w: nat, b: nat, j: nat, r: ReadPC, e: Event) {
    && InRange(c, s, w, b, j) && s.pcs[w] == Reading(b, j, r) && ReadEnabled(c, s, w, j, r, e)
    && (r.ZeroSlack? ==> ReadableAt(c, c.jobs[j], r.got))
  }

  ghost function ReadStep(c: Config, s: State, w: nat, b: nat, j: nat, r: ReadPC, e: Event): State
    requires CanRead(c, s, w, b, j, r, e)
  {
    var job := c.jobs[j];
    match r
    case OpenSrc =>
      if e.IoErr? then s.(pcs := s.pcs[w := Dropping(b, j, DropReport)])
      else s.(srcOpen := s.srcOpen[w := s.srcOpen[w] + {job.file}], pcs := s.pcs[w := Reading(b, j, ReadSrc)])
    case ReadSrc =>
      var buffer := e.data + s.arena[b][|e.data|..];
      if e.IoErr? then s.(arena := s.arena[b := buffer], pcs := s.pcs[w := Dropping(b, j, DropReport)])
      else s.(arena := s.arena[b := buffer],
              log := s.log[j := s.log[j].(got := e.n)],
              pcs := s.pcs[w := Reading(b, j, ZeroSlack(e.n))])
    case ZeroSlack(got) =>
      var padded, buffer := JobPadded(c, job), s.arena[b];
      s.(arena := s.arena[b := buffer[..got] + Zeros(padded - got) + buffer[padded..]],
         pcs := s.pcs[w := Reading(b, j, CountRead)])
    case CountRead =>
      s.(bytesRead := s.bytesRead + job.len,
         log := s.log[j := s.log[j].(readCounted := true)],
         pcs := s.pcs[w := Reading(b, j, PushFilled)])
    case PushFilled =>
      s.(filled := s.filled + [MakeChunk(c, b, j)], pcs := s.pcs[w := Idle(Head)])
  }

  ghost predicate CanDrop(c: Config, s: State, w: nat, b: nat, j: nat, d: DropPC) {
    InRange(c, s, w, b, j) && s.pcs[w] == Dropping(b, j, d)
  }

  ghost function DropStep(c: Config, s: State, w: nat, b: nat, j: nat, d: DropPC): State
    requires CanDrop(c, s, w, b, j, d)
  {
    var f := c.jobs[j].file;
    match d
    case DropReport =>
      s.(errors := Fail(s.errors, f), pcs := s.pcs[w := Dropping(b, j, DropMark)])
    case DropMark =>
      s.(entries := s.entries[f := s.entries[f].(failed := true)],
         log := s.log[j := s.log[j].(spoiled := true)],
         pcs := s.pcs[w := Dropping(b, j, DropRelease)])
    case DropRelease =>
      s.(free := s.free + [b], pcs := s.pcs[w := Dropping(b, j, DropRetire)])
    case DropRetire =>
      s.(remaining := Decrement(s.remaining),
         log := s.log[j := s.log[j].(fate := Dropped)],
         pcs := s.pcs[w := Idle(Head)])
  }

  // The counter is proved positive wherever a step decrements it.
  function Decrement(n: nat): nat {
    if n == 0 then 0 else n - 1
  }

  predicate PreparePC(p: WritePC) {
    || p.CheckPrepared? || p.LockMaster? || p.RecheckPrepared? || p.CreateDst? || p.SizeDst?
    || p.SetMaster? || p.SetPrepared? || p.UnlockMaster?
  }

  predicate WriteEnabled(c: Config, s: State, w: nat, k: Chunk, p: WritePC, e: Event)
    requires w < |s.dstOpen| && k.file < |s.entries| && k.file < |c.files|
  {
    match p
    case LockMaster => e.Go? && s.entries[k.file].lock.Unlocked?
    case CreateDst => e.IoOk? || e.IoErr?
    case SizeDst => (e.IoOk? && |e.data| == PaddedSize(c, k.file)) || e.IoErr?
    case OpenDst => if k.file in s.dstOpen[w] then e.Go? else e.IoOk? || e.IoErr?
    case WriteDst => (e.IoOk? && e.n <= k.padded) || (e.IoErr? && |e.data| == k.padded)
    case _ => e.Go?
  }

  ghost predicate CanPrepare(c: Config, s: State, w: nat, k: Chunk, p: WritePC, e: Event) {
    && ChunkOk(c, k) && InRange(c, s, w, k.buf, k.job) && s.pcs[w] == Writing(k, p)
    && PreparePC(p) && WriteEnabled(c, s, w, k, p, e)
  }

  /** Creating, sizing and publishing the destination, under the double-checked lock. */
  ghost function PrepareStep(c: Config, s: State, w: nat, k: Chunk, p: WritePC, e: Event): State
    requires CanPrepare(c, s, w, k, p, e)
  {
    var f := k.file;
    var dst := c.files[f].dst;
    match p
    case CheckPrepared =>
      s.(pcs := s.pcs[w := Writing(k, if s.entries[f].prepared then OpenDst else LockMaster)])
    case LockMaster =>
      s.(entries := s.entries[f := s.entries[f].(lock := LockedBy(w))], pcs := s.pcs[w := Writing(k, RecheckPrepared)])
    case RecheckPrepared =>
      s.(pcs := s.pcs[w := Writing(k, if s.entries[f].prepared then UnlockMaster(true) else CreateDst)])
    case CreateDst =>
      if e.IoErr? then s.(pcs := s.pcs[w := Writing(k, UnlockMaster(false))])
      else s.(disk := s.disk[dst := []], pcs := s.pcs[w := Writing(k, SizeDst)])
    case SizeDst =>
      // Preallocation and valid-data tricks are best effort: the content is arbitrary.
      if e.IoErr? then s.(disk := s.disk[dst := e.data], pcs := s.pcs[w := Writing(k, UnlockMaster(false))])
      else s.(disk := s.disk[dst := e.data],
              flog := s.flog[f := s.flog[f].(prep := e.data)],
              pcs := s.pcs[w := Writing(k, SetMaster)])
    case SetMaster =>
      s.(entries := s.entries[f := s.entries[f].(master := true)], pcs := s.pcs[w := Writing(k, SetPrepared)])
    case SetPrepared =>
      s.(entries := s.entries[f := s.entries[f].(prepared := true)], pcs := s.pcs[w := Writing(k, UnlockMaster(true))])
    case UnlockMaster(ok) =>
      s.(entries := s.entries[f := s.entries[f].(lock := Unlocked)],
         pcs := s.pcs[w := if ok then Writing(k, OpenDst) else Dropping(k.buf, k.job, DropReport)])
  }

  function FileAt(s: State, dst: Path): seq<byte> {
    if dst in s.disk then s.disk[dst] else []
  }

  ghost predicate CanWrite(c: Config, s: State, w: nat, k: Chunk, p: WritePC, e: Event) {
    && ChunkOk(c, k) && InRange(c, s, w, k.buf, k.job) && s.pcs[w] == Writing(k, p)
    && !PreparePC(p) && WriteEnabled(c, s, w, k, p, e) && |c.chunks| == |c.files|
  }

  /** Writing the chunk, giving the buffer back and settling the job. */
  ghost function WriteStep(c: Config, s: State, w: nat, k: Chunk, p: WritePC, e: Event): State
    requires CanWrite(c, s, w, k, p, e)
  {
    var f, j := k.file, k.job;
    var dst := c.files[f].dst;
    match p
    case OpenDst =>
      if e.IoErr? then s.(pcs := s.pcs[w := Dropping(k.buf, j, DropReport)])
      else s.(dstOpen := s.dstOpen[w := s.dstOpen[w] + {f}], pcs := s.pcs[w := Writing(k, WriteDst)])
    case WriteDst =>
      if e.IoOk? then
        s.(disk := s.disk[dst := WriteAt(FileAt(s, dst), k.offset, s.arena[k.buf][..e.n])],
           log := s.log[j := s.log[j].(result := Wrote(e.n))],
           pcs := s.pcs[w := Writing(k, CountWritten)])
      else
        // A failed write may have damaged its own range.
        s.(disk := s.disk[dst := WriteAt(FileAt(s, dst), k.offset, e.data)],
           log := s.log[j := s.log[j].(result := Botched)],
           pcs := s.pcs[w := Writing(k, WriteReport)])
    case CountWritten =>
      s.(bytesWritten := s.bytesWritten + k.len,
         log := s.log[j := s.log[j].(writeCounted := true)],
         pcs := s.pcs[w := Writing(k, ReleaseBuf)])
    case WriteReport =>
      s.(errors := Fail(s.errors, f), pcs := s.pcs[w := Writing(k, WriteMark)])
    case WriteMark =>
      s.(entries := s.entries[f := s.entries[f].(failed := true)],
         log := s.log[j := s.log[j].(spoiled := true)],
         pcs := s.pcs[w := Writing(k, ReleaseBuf)])
    case ReleaseBuf =>
      s.(free := s.free + [k.buf], pcs := s.pcs[w := Writing(k, Retire)])
    case Retire =>
      s.(remaining := Decrement(s.remaining), pcs := s.pcs[w := Writing(k, Credit)])
    case Credit =>
      s.(entries := s.entries[f := s.entries[f].(done := s.entries[f].done + 1)],
         log := s.log[j := s.log[j].(fate := Credited)],
         pcs := s.pcs[w := if s.entries[f].done + 1 == c.chunks[f] then Finishing(f, LockFinal) else Idle(Head)])
  }

  predicate FinEnabled(s: State, f: nat, p: FinPC, e: Event)
    requires f < |s.entries|
  {
    match p
    case LockFinal => e.Go? && s.entries[f].lock.Unlocked?
    case Trim => if s.entries[f].master then e.IoOk? || e.IoErr? else e.Go?
    case _ => e.Go?
  }

  predicate CanFin(c: Config, s: State, w: nat, f: nat, p: FinPC, e: Event) {
    && w < |s.pcs| && s.pcs[w] == Finishing(f, p)
    && f < |s.entries| == |s.flog| == |c.files| && FinEnabled(s, f, p, e)
  }

  function FinStep(c: Config, s: State, w: nat, f: nat, p: FinPC, e: Event): State
    requires CanFin(c, s, w, f, p, e)
  {
    var dst := c.files[f].dst;
    match p
    case LockFinal =>
      s.(entries := s.entries[f := s.entries[f].(lock := LockedBy(w))], pcs := s.pcs[w := Finishing(f, Trim)])
    case Trim =>
      if !s.entries[f].master then s.(pcs := s.pcs[w := Finishing(f, UnlockFinal)])
      else if e.IoErr? then
        s.(flog := s.flog[f := s.flog[f].(trim := TrimFailed)], pcs := s.pcs[w := Finishing(f, TrimReport)])
      else
        s.(disk := s.disk[dst := SetLen(FileAt(s, dst), c.files[f].size)],
           flog := s.flog[f := s.flog[f].(trim := Trimmed)],
           pcs := s.pcs[w := Finishing(f, CountFile)])
    case TrimReport =>
      s.(errors := Fail(s.errors, f), pcs := s.pcs[w := Finishing(f, CountFile)])
    case CountFile =>
      var failed := s.entries[f].failed;
      s.(filesDone := if failed then s.filesDone else s.filesDone + 1,
         flog := s.flog[f := s.flog[f].(settled := true, counted := !failed)],
         pcs := s.pcs[w := Finishing(f, UnlockFinal)])
    case UnlockFinal =>
      s.(entries := s.entries[f := s.entries[f].(lock := Unlocked)], pcs := s.pcs[w := Idle(Head)])
  }

  /** Worker `w` takes `s` to `t` by one step that event `e` resolves. */
  ghost predicate Next(c: Config, s: State, w: nat, e: Event, t: State) {
    && WellPlanned(c) && Shape(c, s) && w < c.workers
    && match s.pcs[w]
       case Idle(i) => CanIdle(s, w, i, e) && t == IdleStep(c, s, w, i, e)
       case Reading(b, j, r) => CanRead(c, s, w, b, j, r, e) && t == ReadStep(c, s, w, b, j, r, e)
       case Dropping(b, j, d) => e.Go? && CanDrop(c, s, w, b, j, d) && t == DropStep(c, s, w, b, j, d)
       case Writing(k, p) =>
         if PreparePC(p) then CanPrepare(c, s, w, k, p, e) && t == PrepareStep(c, s, w, k, p, e)
         else CanWrite(c, s, w, k, p, e) && t == WriteStep(c, s, w, k, p, e)
       case Finishing(f, p) => CanFin(c, s, w, f, p, e) && t == FinStep(c, s, w, f, p, e)
       case Exited => false
  }

  // ---- initial states --------------------------------------------------

  /** The numbers below `n`, as the free stack is filled at the start. */
  function Indices(n: nat): (xs: seq<nat>)
    ensures |xs| == n && forall i :: 0 <= i < n ==> xs[i] == i
  {
    if n == 0 then [] else Indices(n - 1) + [n - 1]
  }

  ghost predicate Init(c: Config, s: State) {
    && s.cursor == 0 && s.remaining == |c.jobs|
    && s.free == Indices(c.capacity)
    && s.filled == []
    && |s.arena| == c.capacity && (forall b :: 0 <= b < |s.arena| ==> |s.arena[b]| == c.block)
    && s.entries == seq(|c.files|, _ => Entry(0, false, false, false, Unlocked))
    && s.errors == []
    && s.bytesRead == s.bytesWritten == s.filesDone == 0
    && s.pcs == seq(c.workers, _ => Idle(Head))
    && s.srcOpen == seq(c.workers, _ => {}) && s.dstOpen == seq(c.workers, _ => {})
    && |s.log| == |c.jobs|
    && (forall j :: 0 <= j < |c.jobs| ==> s.log[j] == JobLog(c.jobs[j], 0, false, Untried, false, false, Live))
    && s.flog == seq(|c.files|, _ => FileLog([], Untrimmed, false, false))
  }
}
