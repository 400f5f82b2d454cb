/**
 The worker as the sequential program it is.  Every statement is shown to be a step of the
 transition system, so a call is a stretch of a run and all that holds of runs holds of it.
 */
module Engine {
  import opened BufferArena
  import opened BufferRings
  import opened Copy
  import opened Counting
  import opened Device
  import opened Options
  import opened Outcome
  import opened Pipeline
  import opened Progress
  import opened Ownership
  import Liveness
  import Planning
  import Scheduling

  /** How every file operation ends, told by its job, or by its file for the trim. */
  datatype Io = Io(
    openSrc: nat -> bool,
    read: nat -> Event,
    create: nat -> bool,
    size: nat -> Event,
    openDst: nat -> bool,
    write: nat -> Event,
    trim: nat -> bool)

  ghost predicate HonestJob(c: Config, io: Io, j: nat)
    requires j < |c.jobs| && JobFits(c, c.jobs[j])
  {
    var job, read, size, write := c.jobs[j], io.read(j), io.size(j), io.write(j);
    && (|| (read.IoOk? && ReadableAt(c, job, read.n) && |read.data| == JobPadded(c, job)
            && read.data[..read.n] == SourceAt(c, job, read.n))
        || (read.IoErr? && |read.data| == JobPadded(c, job)))
    && ((size.IoOk? && |size.data| == PaddedSize(c, job.file)) || size.IoErr?)
    && ((write.IoOk? && write.n <= JobPadded(c, job)) || (write.IoErr? && |write.data| == JobPadded(c, job)))
  }

  /** Answers that the operations' contracts allow. */
  ghost predicate Honest(c: Config, io: Io) {
    forall j: nat :: j < |c.jobs| && JobFits(c, c.jobs[j]) ==> HonestJob(c, io, j)
  }

  predicate SoundJob(io: Io, j: nat) {
    io.openSrc(j) && io.create(j) && io.openDst(j) && io.read(j).IoOk? && io.size(j).IoOk? && io.write(j).IoOk?
  }

  /** No operation fails. */
  ghost predicate NoFailure(c: Config, io: Io) {
    && (forall j: nat :: j < |c.jobs| ==> SoundJob(io, j))
    && (forall f: nat :: f < |c.files| ==> io.trim(f))
  }

  function Count(e: Event): nat {
    if e.IoOk? then e.n else 0
  }

  /** The transfers report what `io` says. */
  function Promised(io: Io): Quota {
    Quota((j: nat, n: nat) => n == Count(io.read(j)), (j: nat, n: nat) => n == Count(io.write(j)))
  }

  ghost predicate Fine(c: Config, io: Io, s: State, w: nat, e: Event) {
    (NoFailure(c, io) ==> !e.IoErr?) && (w < |s.pcs| ==> Meets(Promised(io), s, w, e))
  }

  /** A run whose operations ended as `io` says. */
  ghost predicate FineRun(c: Config, io: Io, r: Run) {
    |r.states| == |r.workers| + 1 == |r.events| + 1
    && forall i: nat :: i < |r.workers| ==> Fine(c, io, r.states[i], r.workers[i], r.events[i])
  }

  function Extended(r: Run, w: nat, e: Event, t: State): Run {
    Run(r.states + [t], r.workers + [w], r.events + [e])
  }

  lemma Extend(c: Config, io: Io, r: Run, w: nat, e: Event, t: State)
    requires IsRun(c, r) && FineRun(c, io, r) && Next(c, Last(r), w, e, t) && Fine(c, io, Last(r), w, e)
    ensures IsRun(c, Extended(r, w, e, t)) && FineRun(c, io, Extended(r, w, e, t)) && Last(Extended(r, w, e, t)) == t
  {
    hide Next; hide Fine; hide WellPlanned; hide Init;
    var x := Extended(r, w, e, t);
    forall i: nat | i < |x.workers|
      ensures Next(c, x.states[i], x.workers[i], x.events[i], x.states[i + 1])
      ensures Fine(c, io, x.states[i], x.workers[i], x.events[i])
    {
      if i == |r.workers| {
        assert x.states[i] == Last(r);
      }
    }
  }

  /** `b` continues `a` by steps of worker `w`. */
  ghost predicate Continues(a: Run, b: Run, w: nat) {
    && |a.states| == |a.workers| + 1 == |a.events| + 1 && |b.states| == |b.workers| + 1 == |b.events| + 1
    && |a.workers| <= |b.workers|
    && b.states[..|a.states|] == a.states && b.workers[..|a.workers|] == a.workers
    && forall i :: |a.workers| <= i < |b.workers| ==> b.workers[i] == w
  }

  /** None of the steps that `b` adds to `a` moved a job or a file on. */
  ghost predicate Fruitless(c: Config, a: Run, b: Run, w: nat)
    requires Continues(a, b, w)
  {
    forall i :: |a.workers| <= i < |b.workers| ==> !Liveness.WasProductive(c, b.states[i], w)
  }

  /**
   What a turn from `s` to `t` did: one that reads first moved the next of `jobs` jobs into a buffer if there
   were both, and took no chunk and wrote nothing; otherwise it took the oldest chunk and read nothing.
   One that writes first took the oldest chunk if there was one, and otherwise moved the next job.
   */
  ghost predicate SideTaken(jobs: nat, s: State, t: State, readFirst: bool) {
    if if readFirst then s.free != [] && s.cursor < jobs else s.filled == [] then
      && s.free != [] && s.cursor < jobs && t.cursor == s.cursor + 1
      && s.filled <= t.filled && t.bytesWritten == s.bytesWritten && t.disk == s.disk
    else
      && s.filled != [] && t.filled == s.filled[1..] && t.bytesRead == s.bytesRead
      && t.cursor == s.cursor + if readFirst && s.free != [] then 1 else 0
  }

  /** Turn `i` takes the run from position `from` to position `to`: by the worker and with the role it is given. */
  ghost predicate IsTurn(c: Config, r: Run, from: nat, to: nat, w: nat, readers: nat) {
    && from < to <= |r.workers| < |r.states|
    && (forall k :: from <= k < to ==> r.workers[k] == w)
    && SideTaken(|c.jobs|, r.states[from], r.states[to], w < readers)
  }

  /** From `start` on the workers that `order` names took turns under `targets`; turn `i` ended at `ends[i + 1]`. */
  ghost predicate TookTurns(c: Config, start: nat, r: Run, ends: seq<nat>, order: nat -> nat, targets: nat -> nat)
    requires c.workers > 0
  {
    && ends != [] && ends[0] == start && ends[|ends| - 1] == |r.workers|
    && forall i :: 0 <= i < |ends| - 1 ==> IsTurn(c, r, ends[i], ends[i + 1], order(i) % c.workers, targets(i))
  }

  lemma NextTurn(c: Config, start: nat, a: Run, b: Run, ends: seq<nat>, order: nat -> nat, targets: nat -> nat)
    requires c.workers > 0 && TookTurns(c, start, a, ends, order, targets) && |a.workers| < |b.workers|
    requires var i := |ends| - 1; var w := order(i) % c.workers;
             Continues(a, b, w) && SideTaken(|c.jobs|, Last(a), Last(b), w < targets(i))
    ensures TookTurns(c, start, b, ends + [|b.workers|], order, targets)
  {
    var w := order(|ends| - 1) % c.workers;
    hide SideTaken;
    forall i | 0 <= i < |ends| - 1
      ensures IsTurn(c, b, ends[i], ends[i + 1], order(i) % c.workers, targets(i))
    {
      TurnStays(c, a, b, w, ends[i], ends[i + 1], order(i) % c.workers, targets(i));
    }
    assert b.states[..|a.states|][|a.workers|] == Last(a);
    assert IsTurn(c, b, |a.workers|, |b.workers|, w, targets(|ends| - 1));
  }

  lemma TurnStays(c: Config, a: Run, b: Run, v: nat, from: nat, to: nat, w: nat, readers: nat)
    requires Continues(a, b, v) && IsTurn(c, a, from, to, w, readers)
    ensures IsTurn(c, b, from, to, w, readers)
  {
    hide SideTaken;
    assert b.states[..|a.states|][from] == a.states[from] && b.states[..|a.states|][to] == a.states[to];
    forall k | from <= k < to ensures b.workers[k] == w {
      assert b.workers[..|a.workers|][k] == a.workers[k];
    }
  }

  lemma NotLonger(a: Run, b: Run, w: nat)
    requires Continues(a, b, w)
    ensures |a.workers| == |b.workers| ==> a.states == b.states
  {}

  lemma SameStart(a: Run, b: Run, w: nat)
    requires Continues(a, b, w)
    ensures a.states != [] && b.states != [] && a.states[0] == b.states[0]
  {}

  predicate SameButLock(a: Entry, b: Entry) {
    a.done == b.done && a.prepared == b.prepared && a.master == b.master && a.failed == b.failed
  }

  class Shared {
    const c: Config
    const io: Io
    const rings: Rings
    const arena: Arena
    var cursor: nat
    var remaining: nat
    var entries: seq<Entry>
    var disk: map<Path, seq<byte>>
    var errors: seq<nat>
    var failures: nat
    var bytesRead: nat
    var bytesWritten: nat
    var filesDone: nat
    var srcOpen: seq<set<nat>>
    var dstOpen: seq<set<nat>>
    ghost var pcs: seq<PC>
    ghost var log: seq<JobLog>
    ghost var flog: seq<FileLog>
    ghost var run: Run

    /** Everything the workers share, before the first of them starts. */
    constructor (c: Config, io: Io, disk: map<Path, seq<byte>>)
      requires WellPlanned(c) && Honest(c, io)
      ensures this.c == c && this.io == io && fresh(rings) && fresh(arena) && fresh(arena.memory)
      ensures Valid() && View().disk == disk && run.states == [View()] && run.workers == [] && Init(c, View())
      ensures Locks(0, None) && |pcs| == c.workers && forall v :: 0 <= v < |pcs| ==> pcs[v] == Idle(Head)
    {
      this.c, this.io := c, io;
      var newRings := new Rings(c.capacity);
      var newArena := new Arena(c.block, c.capacity);
      rings, arena := newRings, newArena;
      cursor, remaining := 0, |c.jobs|;
      entries := seq(|c.files|, _ => Entry(0, false, false, false, Unlocked));
      this.disk, errors, failures := disk, [], 0;
      bytesRead, bytesWritten, filesDone := 0, 0, 0;
      srcOpen, dstOpen := seq(c.workers, _ => {}), seq(c.workers, _ => {});
      pcs := seq(c.workers, _ => Idle(Head));
      log := seq(|c.jobs|, j requires 0 <= j < |c.jobs| => JobLog(c.jobs[j], 0, false, Untried, false, false, Live));
      flog := seq(|c.files|, _ => FileLog([], Untrimmed, false, false));
      new;
      run := Run([View()], [], []);
    }

    ghost function View(): State
      requires arena.Valid()
      reads this, rings, arena.memory
    {
      State(cursor, remaining, rings.free, rings.filled, arena.Buffers(), entries, disk, errors,
            bytesRead, bytesWritten, filesDone, pcs, srcOpen, dstOpen, log, flog)
    }

    /** The run recorded so far is one, and its operations ended as `io` says. */
    ghost predicate Tracked()
      reads `run
    {
      Honest(c, io) && IsRun(c, run) && FineRun(c, io, run)
    }

    /** Every failure is counted, and the first messages are kept. */
    ghost predicate Counted()
      reads `errors, `failures
    {
      |errors| == if failures < ERROR_CAP then failures else ERROR_CAP
    }

    ghost predicate Base()
      reads this, rings, arena.memory
    {
      && arena.Valid() && arena.block == c.block && arena.count == c.capacity
      && !rings.shutdown && Counted() && Tracked()
    }

    /** The run so far ends in the present state. */
    ghost predicate Valid()
      reads this, rings, arena.memory
    {
      Base() && Last(run) == View()
    }

    /** The step just taken has been added to the run, which `before` was and `start` began. */
    ghost predicate Recorded(start: Run, before: Run, w: nat, e: Event)
      requires before.states != []
      reads this, rings, arena.memory
    {
      && Valid() && run == Extended(before, w, e, View()) && Continues(start, run, w) && Continues(start, before, w)
      && |start.workers| < |run.workers|
      && Measure(c, View()) <= Measure(c, Last(before))
      && (if Liveness.WasProductive(c, Last(before), w) then Measure(c, View()) < Measure(c, Last(before))
          else Fruitless(c, start, before, w) ==> Fruitless(c, start, run, w))
    }

    ghost method Record(start: Run, w: nat, e: Event)
      requires Base() && Next(c, Last(run), w, e, View()) && Fine(c, io, Last(run), w, e) && Continues(start, run, w)
      modifies `run
      ensures run.states != [] && Recorded(start, old(run), w, e)
    {
      hide IsRun; hide FineRun; hide Honest; hide Next; hide Measure; hide Fine; hide Liveness.WasProductive;
      Extend(c, io, run, w, e, View());
      Liveness.MeasureDrops(c, Last(run), w, e, View());
      run := Extended(run, w, e, View());
    }

    lemma Sound()
      requires Base()
      ensures Inv(c, Last(run)) && |run.states| == |run.workers| + 1 == |run.events| + 1
    {
      AlwaysInv(c, run, |run.states| - 1);
    }

    /** What a worker busy with buffer `b` and job `j` may rely on. */
    lemma BusyRange(w: nat, b: nat, j: nat)
      requires Valid() && w < |pcs|
      requires match pcs[w]
               case Reading(b', j', _) => b == b' && j == j'
               case Dropping(b', j', _) => b == b' && j == j'
               case Writing(k, _) => b == k.buf && j == k.job
               case _ => false
      ensures InRange(c, View(), w, b, j) && HonestJob(c, io, j) && w < c.workers && |c.chunks| == |c.files|
      ensures c.jobs[j].file < |c.files| == |entries| && b < arena.count && JobPadded(c, c.jobs[j]) <= arena.block
      ensures pcs[w].Writing? ==> ChunkOk(c, pcs[w].chunk) && pcs[w].chunk == MakeChunk(c, b, j)
    {
      Sound();
      assert PcOk(c, View().pcs[w]);
    }

    // ---- one statement, one step -------------------------------------------

    ghost method DidIdle(start: Run, w: nat, i: IdlePC, e: Event)
      requires Base() && Continues(start, run, w)
      requires CanIdle(Last(run), w, i, e) && View() == IdleStep(c, Last(run), w, i, e) && !e.IoErr?
      modifies `run
      ensures run.states != [] && Recorded(start, old(run), w, e)
    {
      hide IsRun; hide FineRun; hide Honest; hide IdleStep; hide NoFailure; hide Recorded;
      Sound();
      Record(start, w, e);
    }

    ghost method DidRead(start: Run, w: nat, b: nat, j: nat, r: ReadPC, e: Event)
      requires Base() && Continues(start, run, w) && Fine(c, io, Last(run), w, e)
      requires w < |Last(run).pcs| && Last(run).pcs[w] == Reading(b, j, r)
      requires CanRead(c, Last(run), w, b, j, r, e) && View() == ReadStep(c, Last(run), w, b, j, r, e)
      modifies `run
      ensures Valid() && Continues(start, run, w) && Measure(c, View()) < Measure(c, old(Last(run)))
    {
      hide IsRun; hide FineRun; hide Honest; hide ReadStep; hide Fine; hide CanRead;
      Sound();
      Record(start, w, e);
    }

    ghost method DidDrop(start: Run, w: nat, b: nat, j: nat, d: DropPC, e: Event)
      requires Base() && Continues(start, run, w) && Fine(c, io, Last(run), w, e)
      requires w < |Last(run).pcs| && Last(run).pcs[w] == Dropping(b, j, d) && e.Go?
      requires CanDrop(c, Last(run), w, b, j, d) && View() == DropStep(c, Last(run), w, b, j, d)
      modifies `run
      ensures Valid() && Continues(start, run, w) && Measure(c, View()) < Measure(c, old(Last(run)))
    {
      hide IsRun; hide FineRun; hide Honest; hide DropStep; hide Fine; hide CanDrop;
      Sound();
      Record(start, w, e);
    }

    ghost method DidPrepare(start: Run, w: nat, k: Chunk, p: WritePC, e: Event)
      requires Base() && Continues(start, run, w) && Fine(c, io, Last(run), w, e)
      requires w < |Last(run).pcs| && Last(run).pcs[w] == Writing(k, p) && PreparePC(p)
      requires CanPrepare(c, Last(run), w, k, p, e) && View() == PrepareStep(c, Last(run), w, k, p, e)
      modifies `run
      ensures Valid() && Continues(start, run, w) && Measure(c, View()) < Measure(c, old(Last(run)))
    {
      hide IsRun; hide FineRun; hide Honest; hide PrepareStep; hide Fine; hide CanPrepare;
      Sound();
      Record(start, w, e);
    }

    ghost method DidWrite(start: Run, w: nat, k: Chunk, p: WritePC, e: Event)
      requires Base() && Continues(start, run, w) && Fine(c, io, Last(run), w, e)
      requires w < |Last(run).pcs| && Last(run).pcs[w] == Writing(k, p) && !PreparePC(p)
      requires CanWrite(c, Last(run), w, k, p, e) && View() == WriteStep(c, Last(run), w, k, p, e)
      modifies `run
      ensures Valid() && Continues(start, run, w) && Measure(c, View()) < Measure(c, old(Last(run)))
    {
      hide IsRun; hide FineRun; hide Honest; hide WriteStep; hide Fine; hide CanWrite;
      Sound();
      Record(start, w, e);
    }

    ghost method DidFin(start: Run, w: nat, f: nat, p: FinPC, e: Event)
      requires Base() && Continues(start, run, w) && Fine(c, io, Last(run), w, e)
      requires w < |Last(run).pcs| && Last(run).pcs[w] == Finishing(f, p)
      requires CanFin(c, Last(run), w, f, p, e) && View() == FinStep(c, Last(run), w, f, p, e)
      modifies `run
      ensures Valid() && Continues(start, run, w) && Measure(c, View()) < Measure(c, old(Last(run)))
    {
      hide IsRun; hide FineRun; hide Honest; hide FinStep; hide Fine; hide CanFin;
      Sound();
      Record(start, w, e);
    }

    // ---- where a worker is -------------------------------------------------

    /** The only file mutex taken is the one `held` by worker `w`, if any. */
    ghost predicate Locks(w: nat, held: Option<nat>)
      reads this
    {
      forall f: nat :: f < |entries| ==> entries[f].lock == if held == Some(f) then LockedBy(w) else Unlocked
    }

    ghost predicate At(start: Run, w: nat, pc: PC, held: Option<nat>)
      reads this, rings, arena.memory
    {
      Valid() && Continues(start, run, w) && w < |pcs| && pcs[w] == pc && Locks(w, held)
    }

    /** The work left, as the runs count it. */
    ghost function Cost(): nat
      requires arena.Valid()
      reads this, rings, arena.memory
    {
      Measure(c, View())
    }

    /** Worker `w` has come to `pc` since the counters were `before` and the cost `cost`; nobody else has moved. */
    ghost predicate Came(start: Run, before: seq<PC>, cost: nat, w: nat, pc: PC, held: Option<nat>)
      reads this, rings, arena.memory
    {
      && At(start, w, pc, held)
      && |pcs| == |before| && (forall v :: 0 <= v < |pcs| && v != w ==> pcs[v] == before[v])
      && Cost() <= cost
    }

    /** As `Came`, by at least one productive step. */
    ghost predicate Advanced(start: Run, before: seq<PC>, cost: nat, w: nat, pc: PC, held: Option<nat>)
      reads this, rings, arena.memory
    {
      Came(start, before, cost, w, pc, held) && Cost() < cost
    }

    lemma Begin(w: nat)
      requires Base()
      ensures run.states != [] && Continues(run, run, w) && Fruitless(c, run, run, w)
    {
      hide Next;
    }

    lemma SoundAt(j: nat)
      requires j < |c.jobs|
      ensures NoFailure(c, io) ==> SoundJob(io, j)
    {}

    lemma Answers(j: nat)
      requires Base() && j < |c.jobs| && JobFits(c, c.jobs[j])
      ensures HonestJob(c, io, j)
    {
      hide IsRun;
    }

    lemma SlackRange(w: nat, b: nat, j: nat, got: nat)
      requires Valid() && w < |pcs| && pcs[w] == Reading(b, j, ZeroSlack(got))
      ensures j < |c.jobs| && ReadableAt(c, c.jobs[j], got) && got <= JobPadded(c, c.jobs[j]) <= arena.block
    {
      Sound();
      assert PcOk(c, View().pcs[w]);
    }

    /** The counter is positive wherever it is about to be decremented. */
    lemma OwesOne(w: nat)
      requires Valid() && w < |pcs| && Owes(pcs[w])
      ensures remaining > 0
    {
      Sound();
      CounterIsPositive(c, View(), w);
    }

    /** Only the mark of the job's file differs from `before`. */
    ghost predicate Marked(before: seq<Entry>, j: nat)
      reads this
    {
      && j < |c.jobs| && c.jobs[j].file < |before|
      && entries == before[c.jobs[j].file := before[c.jobs[j].file].(failed := true)]
    }

    // ---- giving up a job ---------------------------------------------------

    /** Count a failure, and keep its message unless the list is full. */
    method Message(file: nat)
      modifies `errors, `failures
      ensures failures == old(failures) + 1 && errors == Fail(old(errors), file)
      ensures errors == if |old(errors)| < 64 then old(errors) + [file] else old(errors)
    {
      failures := failures + 1;
      if |errors| < ERROR_CAP {
        errors := errors + [file];
      }
    }

    method Report(ghost start: Run, w: nat, buf: nat, j: nat)
      requires At(start, w, Dropping(buf, j, DropReport), None)
      modifies `errors, `failures, `pcs, `run
      ensures Advanced(start, old(pcs), old(Cost()), w, Dropping(buf, j, DropMark), None)
      ensures j < |c.jobs| && errors == Fail(old(errors), c.jobs[j].file)
    {
      hide Tracked; hide HonestJob; hide Measure; hide Next; hide Continues; hide NoFailure; hide JobFits;
      BusyRange(w, buf, j);
      Message(c.jobs[j].file);
      pcs := pcs[w := Dropping(buf, j, DropMark)];
      DidDrop(start, w, buf, j, DropReport, Go);
    }

    method MarkFailed(ghost start: Run, w: nat, buf: nat, j: nat)
      requires At(start, w, Dropping(buf, j, DropMark), None)
      modifies `entries, `log, `pcs, `run
      ensures Advanced(start, old(pcs), old(Cost()), w, Dropping(buf, j, DropRelease), None)
      ensures Marked(old(entries), j)
    {
      hide Counted; hide Tracked; hide HonestJob; hide Measure; hide Next; hide Continues; hide NoFailure; hide JobFits;
      BusyRange(w, buf, j);
      var f := c.jobs[j].file;
      entries := entries[f := entries[f].(failed := true)];
      log := log[j := log[j].(spoiled := true)];
      pcs := pcs[w := Dropping(buf, j, DropRelease)];
      DidDrop(start, w, buf, j, DropMark, Go);
    }

    method GiveBack(ghost start: Run, w: nat, buf: nat, j: nat)
      requires At(start, w, Dropping(buf, j, DropRelease), None)
      modifies rings`free, `pcs, `run
      ensures Advanced(start, old(pcs), old(Cost()), w, Dropping(buf, j, DropRetire), None)
      ensures rings.free == old(rings.free) + [buf]
    {
      hide Counted; hide Tracked; hide HonestJob; hide Measure; hide Next; hide Continues; hide NoFailure; hide JobFits;
      BusyRange(w, buf, j);
      rings.ReleaseFree(buf);
      pcs := pcs[w := Dropping(buf, j, DropRetire)];
      DidDrop(start, w, buf, j, DropRelease, Go);
    }

    method RetireDropped(ghost start: Run, w: nat, buf: nat, j: nat)
      requires At(start, w, Dropping(buf, j, DropRetire), None)
      modifies `remaining, `log, `pcs, `run
      ensures Advanced(start, old(pcs), old(Cost()), w, Idle(Head), None)
      ensures old(remaining) == remaining + 1
    {
      hide Counted; hide Tracked; hide HonestJob; hide Measure; hide Next; hide Continues; hide NoFailure; hide JobFits;
      BusyRange(w, buf, j);
      OwesOne(w);
      remaining := Decrement(remaining);
      log := log[j := log[j].(fate := Dropped)];
      pcs := pcs[w := Idle(Head)];
      DidDrop(start, w, buf, j, DropRetire, Go);
    }

    /** The error exits: report, mark the file, give back the buffer, retire the job. */
    method Abandon(ghost start: Run, w: nat, buf: nat, j: nat)
      requires At(start, w, Dropping(buf, j, DropReport), None)
      modifies `errors, `failures, `entries, `remaining, `log, rings`free, `pcs, `run
      ensures Advanced(start, old(pcs), old(Cost()), w, Idle(Head), None)
      ensures j < |c.jobs| && errors == Fail(old(errors), c.jobs[j].file) && Marked(old(entries), j)
      ensures rings.free == old(rings.free) + [buf] && old(remaining) == remaining + 1
    {
      hide Valid; hide Base; hide Locks; hide Cost; hide Continues;
      Report(start, w, buf, j);
      MarkFailed(start, w, buf, j);
      GiveBack(start, w, buf, j);
      RetireDropped(start, w, buf, j);
    }

    // ---- reading -----------------------------------------------------------

    /** The handle of the source file, opened by this worker when it has none yet. */
    method OpenSource(ghost start: Run, w: nat, buf: nat, j: nat) returns (ok: bool)
      requires At(start, w, Reading(buf, j, OpenSrc), None)
      modifies `srcOpen, `pcs, `run
      ensures Advanced(start, old(pcs), old(Cost()), w,
                       if ok then Reading(buf, j, ReadSrc) else Dropping(buf, j, DropReport), None)
      ensures j < |c.jobs| && w < |old(srcOpen)|
      ensures ok <==> c.jobs[j].file in old(srcOpen)[w] || io.openSrc(j)
      ensures srcOpen == if ok then old(srcOpen)[w := old(srcOpen)[w] + {c.jobs[j].file}] else old(srcOpen)
    {
      hide Counted; hide Tracked; hide HonestJob; hide Measure; hide Next; hide Continues; hide NoFailure; hide JobFits;
      BusyRange(w, buf, j);
      SoundAt(j);
      var f := c.jobs[j].file;
      ghost var e := Go;
      ok := true;
      if f !in srcOpen[w] {
        ok := io.openSrc(j);
        e := if ok then IoOk(0, []) else IoErr([]);
      }
      if ok {
        srcOpen := srcOpen[w := srcOpen[w] + {f}];
      }
      pcs := pcs[w := if ok then Reading(buf, j, ReadSrc) else Dropping(buf, j, DropReport)];
      DidRead(start, w, buf, j, OpenSrc, e);
    }

    /** The read itself, rounded up to whole sectors. */
    method ReadSource(ghost start: Run, w: nat, buf: nat, j: nat) returns (ok: bool, got: nat)
      requires At(start, w, Reading(buf, j, ReadSrc), None)
      modifies arena.memory, `log, `pcs, `run
      ensures Advanced(start, old(pcs), old(Cost()), w,
                       if ok then Reading(buf, j, ZeroSlack(got)) else Dropping(buf, j, DropReport), None)
      ensures j < |c.jobs| && (ok ==> got <= JobPadded(c, c.jobs[j]) <= c.block)
      ensures if ok then io.read(j).IoOk? && got == io.read(j).n else io.read(j).IoErr?
    {
      hide Counted; hide Tracked; hide HonestJob; hide Measure; hide Next; hide Continues; hide NoFailure; hide JobFits;
      BusyRange(w, buf, j);
      SoundAt(j);
      Answers(j);
      var answer := io.read(j);
      arena.Load(buf, answer.data);
      ok, got := answer.IoOk?, 0;
      if ok {
        got := answer.n;
        log := log[j := log[j].(got := got)];
      }
      pcs := pcs[w := if ok then Reading(buf, j, ZeroSlack(got)) else Dropping(buf, j, DropReport)];
      DidRead(start, w, buf, j, ReadSrc, answer);
    }

    /** Zero what the read left of the padded length. */
    method ClearSlack(ghost start: Run, w: nat, buf: nat, j: nat, got: nat)
      requires At(start, w, Reading(buf, j, ZeroSlack(got)), None)
      modifies arena.memory, `pcs, `run
      ensures Advanced(start, old(pcs), old(Cost()), w, Reading(buf, j, CountRead), None)
    {
      hide Counted; hide Tracked; hide HonestJob; hide Measure; hide Next; hide Continues; hide NoFailure; hide JobFits;
      BusyRange(w, buf, j);
      SlackRange(w, buf, j, got);
      var padded := RoundUp(c.jobs[j].len, c.align);
      arena.Clear(buf, got, padded);
      pcs := pcs[w := Reading(buf, j, CountRead)];
      DidRead(start, w, buf, j, ZeroSlack(got), Go);
    }

    method CountBytesRead(ghost start: Run, w: nat, buf: nat, j: nat)
      requires At(start, w, Reading(buf, j, CountRead), None)
      modifies `bytesRead, `log, `pcs, `run
      ensures Advanced(start, old(pcs), old(Cost()), w, Reading(buf, j, PushFilled), None)
      ensures j < |c.jobs| && bytesRead == old(bytesRead) + c.jobs[j].len
    {
      hide Counted; hide Tracked; hide HonestJob; hide Measure; hide Next; hide Continues; hide NoFailure; hide JobFits;
      BusyRange(w, buf, j);
      bytesRead := bytesRead + c.jobs[j].len;
      log := log[j := log[j].(readCounted := true)];
      pcs := pcs[w := Reading(buf, j, PushFilled)];
      DidRead(start, w, buf, j, CountRead, Go);
    }

    method Publish(ghost start: Run, w: nat, buf: nat, j: nat)
      requires At(start, w, Reading(buf, j, PushFilled), None)
      modifies rings`filled, `pcs, `run
      ensures Advanced(start, old(pcs), old(Cost()), w, Idle(Head), None)
      ensures j < |c.jobs| && rings.filled == old(rings.filled) + [MakeChunk(c, buf, j)]
    {
      hide Counted; hide Tracked; hide HonestJob; hide Measure; hide Next; hide Continues; hide NoFailure; hide JobFits;
      BusyRange(w, buf, j);
      var job := c.jobs[j];
      rings.PushFilled(Chunk(buf, job.file, job.offset, job.len, RoundUp(job.len, c.align), j));
      pcs := pcs[w := Idle(Head)];
      DidRead(start, w, buf, j, PushFilled, Go);
    }

    /** Fill the buffer from the open source and publish it as a chunk. */
    method Fetch(ghost start: Run, w: nat, buf: nat, j: nat) returns (ok: bool)
      requires At(start, w, Reading(buf, j, ReadSrc), None)
      modifies `bytesRead, `log, rings`filled, arena.memory, `pcs, `run
      ensures Advanced(start, old(pcs), old(Cost()), w, if ok then Idle(Head) else Dropping(buf, j, DropReport), None)
      ensures j < |c.jobs| && ok == io.read(j).IoOk?
      ensures bytesRead == old(bytesRead) + if ok then c.jobs[j].len else 0
      ensures rings.filled == old(rings.filled) + if ok then [MakeChunk(c, buf, j)] else []
    {
      hide Valid; hide Base; hide Locks; hide Cost; hide Continues; hide JobPadded; hide MakeChunk;
      var got: nat;
      ok, got := ReadSource(start, w, buf, j);
      if ok {
        ClearSlack(start, w, buf, j, got);
        CountBytesRead(start, w, buf, j);
        Publish(start, w, buf, j);
      }
    }

    /** Read the claimed job into the claimed buffer. */
    method ReadJob(ghost start: Run, w: nat, buf: nat, j: nat) returns (published: bool)
      requires At(start, w, Reading(buf, j, OpenSrc), None)
      modifies `srcOpen, `bytesRead, `errors, `failures, `entries, `remaining, `log, rings, arena.memory, `pcs, `run
      ensures Advanced(start, old(pcs), old(Cost()), w, Idle(Head), None)
      ensures j < |c.jobs| && w < |old(srcOpen)|
      ensures published <==> (c.jobs[j].file in old(srcOpen)[w] || io.openSrc(j)) && io.read(j).IoOk?
      ensures if c.jobs[j].file in old(srcOpen)[w] || io.openSrc(j) then
                srcOpen == old(srcOpen)[w := old(srcOpen)[w] + {c.jobs[j].file}]
              else srcOpen == old(srcOpen)
      ensures bytesRead == old(bytesRead) + if published then c.jobs[j].len else 0
      ensures if published then
                rings.filled == old(rings.filled) + [MakeChunk(c, buf, j)] && rings.free == old(rings.free)
                && remaining == old(remaining) && errors == old(errors) && entries == old(entries)
              else
                rings.filled == old(rings.filled) && rings.free == old(rings.free) + [buf]
                && old(remaining) == remaining + 1 && errors == Fail(old(errors), c.jobs[j].file)
                   && Marked(old(entries), j)
    {
      hide Valid; hide Base; hide Locks; hide Cost; hide Continues; hide MakeChunk; hide Fail; hide Marked;
      published := OpenSource(start, w, buf, j);
      if published {
        published := Fetch(start, w, buf, j);
      }
      if !published {
        Abandon(start, w, buf, j);
      }
    }

    /** A call has ended: it worked and the worker is at the loop head, or it found nothing and falls through. */
    ghost predicate Ended(start: Run, before: seq<PC>, cost: nat, w: nat, worked: bool, fallback: PC)
      reads this, rings, arena.memory
    {
      if worked then Advanced(start, before, cost, w, Idle(Head), None)
      else
        && Came(start, before, cost, w, fallback, None) && Fruitless(c, start, run, w)
        && |start.workers| < |run.workers|
    }

    /** The wait for a buffer ran out. */
    ghost method NothingFree(start: Run, w: nat, again: bool)
      requires At(start, w, Idle(TryFree(again)), None) && Fruitless(c, start, run, w) && rings.free == []
      modifies `pcs, `run
      ensures Ended(start, old(pcs), old(Cost()), w, false, Fallthrough(again, true))
    {
      hide Tracked; hide Measure; hide Continues; hide Fruitless; hide Next; hide NoFailure;
      pcs := pcs[w := Idle(WaitFree(again))];
      DidIdle(start, w, TryFree(again), Go);
      pcs := pcs[w := Fallthrough(again, true)];
      DidIdle(start, w, WaitFree(again), Timeout);
    }

    /** The reading side: claim a buffer first, then a job for it. */
    method TryRead(ghost start: Run, w: nat, ghost again: bool) returns (worked: bool)
      requires At(start, w, Idle(TryFree(again)), None) && Fruitless(c, start, run, w)
      modifies this, rings, arena.memory
      ensures Ended(start, old(pcs), old(Cost()), w, worked, Fallthrough(again, true))
      ensures worked <==> old(rings.free) != [] && old(cursor) < |c.jobs|
      ensures cursor == old(cursor) + if old(rings.free) != [] then 1 else 0
      ensures old(rings.filled) <= rings.filled && bytesWritten == old(bytesWritten) && disk == old(disk)
      ensures !worked ==>
                rings.free == old(rings.free) && rings.filled == old(rings.filled) && remaining == old(remaining)
                && bytesRead == old(bytesRead)
    {
      hide Tracked; hide Measure; hide Continues; hide Fruitless; hide Next; hide NoFailure;
      var claimed := rings.AcquireFree([]);
      if claimed == None {
        NothingFree(start, w, again);
        return false;
      }
      var buf := claimed.value;
      pcs := pcs[w := Idle(HaveBuf(again, buf))];
      DidIdle(start, w, TryFree(again), Go);
      worked := ClaimJob(start, w, again, buf);
    }

    /** No job is left for the buffer at hand. */
    method ReturnBuffer(ghost start: Run, w: nat, ghost again: bool, buf: nat)
      requires At(start, w, Idle(ReturnBuf(again, buf)), None) && Fruitless(c, start, run, w)
      modifies rings`free, `pcs, `run
      ensures Ended(start, old(pcs), old(Cost()), w, false, Fallthrough(again, true))
      ensures rings.free == old(rings.free) + [buf]
    {
      hide Tracked; hide Measure; hide Continues; hide Fruitless; hide Next; hide NoFailure;
      rings.ReleaseFree(buf);
      pcs := pcs[w := Fallthrough(again, true)];
      DidIdle(start, w, ReturnBuf(again, buf), Go);
    }

    /** Take the next position of the job cursor. */
    method MoveCursor(ghost start: Run, w: nat, ghost again: bool, buf: nat) returns (i: nat)
      requires At(start, w, Idle(HaveBuf(again, buf)), None) && Fruitless(c, start, run, w)
      modifies `cursor, `pcs, `run
      ensures i == old(cursor) && cursor == i + 1
      ensures i < |c.jobs| ==> Advanced(start, old(pcs), old(Cost()), w, Reading(buf, i, OpenSrc), None)
      ensures i >= |c.jobs| ==>
                Came(start, old(pcs), old(Cost()), w, Idle(ReturnBuf(again, buf)), None) && Fruitless(c, start, run, w)
    {
      hide Counted; hide Tracked; hide Measure; hide Continues; hide Fruitless; hide Next; hide NoFailure;
      i := cursor;
      cursor := cursor + 1;
      pcs := pcs[w := if i < |c.jobs| then Reading(buf, i, OpenSrc) else Idle(ReturnBuf(again, buf))];
      DidIdle(start, w, HaveBuf(again, buf), Go);
    }

    method ClaimJob(ghost start: Run, w: nat, ghost again: bool, buf: nat) returns (worked: bool)
      requires At(start, w, Idle(HaveBuf(again, buf)), None) && Fruitless(c, start, run, w)
      modifies this, rings, arena.memory
      ensures Ended(start, old(pcs), old(Cost()), w, worked, Fallthrough(again, true))
      ensures cursor == old(cursor) + 1 && (worked <==> old(cursor) < |c.jobs|)
      ensures old(rings.filled) <= rings.filled && bytesWritten == old(bytesWritten) && disk == old(disk)
      ensures !worked ==>
                rings.free == old(rings.free) + [buf] && rings.filled == old(rings.filled)
                    && remaining == old(remaining) && bytesRead == old(bytesRead)
    {
      hide Valid; hide Base; hide Locks; hide Cost; hide Continues; hide Fruitless;
      var i := MoveCursor(start, w, again, buf);
      if i < |c.jobs| {
        var published := ReadJob(start, w, buf, i);
        worked := true;
      } else {
        ReturnBuffer(start, w, again, buf);
        worked := false;
      }
    }

    // ---- preparing the destination -----------------------------------------

    method LooksPrepared(ghost start: Run, w: nat, k: Chunk) returns (prepared: bool)
      requires At(start, w, Writing(k, CheckPrepared), None)
      modifies `pcs, `run
      ensures Advanced(start, old(pcs), old(Cost()), w, Writing(k, if prepared then OpenDst else LockMaster), None)
      ensures k.file < |entries| && prepared == entries[k.file].prepared
    {
      hide Counted; hide Tracked; hide HonestJob; hide Measure; hide Next; hide Continues; hide NoFailure; hide JobFits;
      BusyRange(w, k.buf, k.job);
      prepared := entries[k.file].prepared;
      pcs := pcs[w := Writing(k, if prepared then OpenDst else LockMaster)];
      DidPrepare(start, w, k, CheckPrepared, Go);
    }

    method TakeMaster(ghost start: Run, w: nat, k: Chunk)
      requires At(start, w, Writing(k, LockMaster), None)
      modifies `entries, `pcs, `run
      ensures Advanced(start, old(pcs), old(Cost()), w, Writing(k, RecheckPrepared), Some(k.file))
      ensures |entries| == |old(entries)| && forall g :: 0 <= g < |entries| ==> SameButLock(old(entries)[g], entries[g])
    {
      hide Counted; hide Tracked; hide HonestJob; hide Measure; hide Next; hide Continues; hide NoFailure; hide JobFits;
      BusyRange(w, k.buf, k.job);
      entries := entries[k.file := entries[k.file].(lock := LockedBy(w))];
      pcs := pcs[w := Writing(k, RecheckPrepared)];
      DidPrepare(start, w, k, LockMaster, Go);
    }

    method LooksPreparedInside(ghost start: Run, w: nat, k: Chunk) returns (prepared: bool)
      requires At(start, w, Writing(k, RecheckPrepared), Some(k.file))
      modifies `pcs, `run
      ensures Advanced(start, old(pcs), old(Cost()), w,
                       Writing(k, if prepared then UnlockMaster(true) else CreateDst), Some(k.file))
      ensures k.file < |entries| && prepared == entries[k.file].prepared
    {
      hide Counted; hide Tracked; hide HonestJob; hide Measure; hide Next; hide Continues; hide NoFailure; hide JobFits;
      BusyRange(w, k.buf, k.job);
      prepared := entries[k.file].prepared;
      pcs := pcs[w := Writing(k, if prepared then UnlockMaster(true) else CreateDst)];
      DidPrepare(start, w, k, RecheckPrepared, Go);
    }

    /** Create the destination, cutting whatever was there. */
    method CreateDestination(ghost start: Run, w: nat, k: Chunk) returns (ok: bool)
      requires At(start, w, Writing(k, CreateDst), Some(k.file))
      modifies `disk, `pcs, `run
      ensures Advanced(start, old(pcs), old(Cost()), w,
                       Writing(k, if ok then SizeDst else UnlockMaster(false)), Some(k.file))
      ensures k.file < |c.files| && ok == io.create(k.job)
      ensures disk == if ok then old(disk)[c.files[k.file].dst := []] else old(disk)
    {
      hide Counted; hide Tracked; hide HonestJob; hide Measure; hide Next; hide Continues; hide NoFailure; hide JobFits;
      BusyRange(w, k.buf, k.job);
      SoundAt(k.job);
      ok := io.create(k.job);
      if ok {
        disk := disk[c.files[k.file].dst := []];
      }
      pcs := pcs[w := Writing(k, if ok then SizeDst else UnlockMaster(false))];
      DidPrepare(start, w, k, CreateDst, if ok then IoOk(0, []) else IoErr([]));
    }

    /** Set the padded length. */
    method SizeDestination(ghost start: Run, w: nat, k: Chunk) returns (ok: bool)
      requires At(start, w, Writing(k, SizeDst), Some(k.file))
      modifies `disk, `flog, `pcs, `run
      ensures Advanced(start, old(pcs), old(Cost()), w,
                       Writing(k, if ok then SetMaster else UnlockMaster(false)), Some(k.file))
      ensures k.file < |c.files| && ok == io.size(k.job).IoOk?
      ensures io.size(k.job).IoOk? || io.size(k.job).IoErr?
      ensures disk == old(disk)[c.files[k.file].dst := io.size(k.job).data]
    {
      hide Counted; hide Tracked; hide HonestJob; hide Measure; hide Next; hide Continues; hide NoFailure; hide JobFits;
      BusyRange(w, k.buf, k.job);
      SoundAt(k.job);
      Answers(k.job);
      var answer := io.size(k.job);
      ok := answer.IoOk?;
      disk := disk[c.files[k.file].dst := answer.data];
      if ok {
        flog := flog[k.file := flog[k.file].(prep := answer.data)];
      }
      pcs := pcs[w := Writing(k, if ok then SetMaster else UnlockMaster(false))];
      DidPrepare(start, w, k, SizeDst, answer);
    }

    method KeepMaster(ghost start: Run, w: nat, k: Chunk)
      requires At(start, w, Writing(k, SetMaster), Some(k.file))
      modifies `entries, `pcs, `run
      ensures Advanced(start, old(pcs), old(Cost()), w, Writing(k, SetPrepared), Some(k.file))
    {
      hide Counted; hide Tracked; hide HonestJob; hide Measure; hide Next; hide Continues; hide NoFailure; hide JobFits;
      BusyRange(w, k.buf, k.job);
      entries := entries[k.file := entries[k.file].(master := true)];
      pcs := pcs[w := Writing(k, SetPrepared)];
      DidPrepare(start, w, k, SetMaster, Go);
    }

    method MarkPrepared(ghost start: Run, w: nat, k: Chunk)
      requires At(start, w, Writing(k, SetPrepared), Some(k.file))
      modifies `entries, `pcs, `run
      ensures Advanced(start, old(pcs), old(Cost()), w, Writing(k, UnlockMaster(true)), Some(k.file))
      ensures k.file < |entries| && entries[k.file].prepared
    {
      hide Counted; hide Tracked; hide HonestJob; hide Measure; hide Next; hide Continues; hide NoFailure; hide JobFits;
      BusyRange(w, k.buf, k.job);
      entries := entries[k.file := entries[k.file].(prepared := true)];
      pcs := pcs[w := Writing(k, UnlockMaster(true))];
      DidPrepare(start, w, k, SetPrepared, Go);
    }

    method LeaveMaster(ghost start: Run, w: nat, k: Chunk, ok: bool)
      requires At(start, w, Writing(k, UnlockMaster(ok)), Some(k.file))
      modifies `entries, `pcs, `run
      ensures Advanced(start, old(pcs), old(Cost()), w,
                       if ok then Writing(k, OpenDst) else Dropping(k.buf, k.job, DropReport), None)
      ensures |entries| == old(|entries|)
                && forall f :: 0 <= f < |entries| ==> entries[f].prepared == old(entries)[f].prepared
    {
      hide Counted; hide Tracked; hide HonestJob; hide Measure; hide Next; hide Continues; hide NoFailure; hide JobFits;
      BusyRange(w, k.buf, k.job);
      entries := entries[k.file := entries[k.file].(lock := Unlocked)];
      pcs := pcs[w := if ok then Writing(k, OpenDst) else Dropping(k.buf, k.job, DropReport)];
      DidPrepare(start, w, k, UnlockMaster(ok), Go);
    }

    method MakeDestination(ghost start: Run, w: nat, k: Chunk) returns (ok: bool)
      requires At(start, w, Writing(k, CreateDst), Some(k.file))
      modifies `entries, `disk, `flog, `pcs, `run
      ensures Advanced(start, old(pcs), old(Cost()), w, Writing(k, UnlockMaster(ok)), Some(k.file))
      ensures ok <==> io.create(k.job) && io.size(k.job).IoOk?
      ensures ok ==> k.file < |entries| && entries[k.file].prepared
    {
      hide Valid; hide Base; hide Locks; hide Cost; hide Continues;
      ok := CreateDestination(start, w, k);
      if ok {
        ok := SizeDestination(start, w, k);
        if ok {
          KeepMaster(start, w, k);
          MarkPrepared(start, w, k);
        }
      }
    }

    /** Create, size and publish the destination, unless that has been done. */
    method PrepareDestination(ghost start: Run, w: nat, k: Chunk) returns (ok: bool)
      requires At(start, w, Writing(k, CheckPrepared), None)
      modifies `entries, `disk, `flog, `pcs, `run
      ensures Advanced(start, old(pcs), old(Cost()), w,
                       if ok then Writing(k, OpenDst) else Dropping(k.buf, k.job, DropReport), None)
      ensures ok ==> k.file < |entries| && entries[k.file].prepared
      ensures k.file < |old(entries)|
      ensures ok <==> old(entries)[k.file].prepared || (io.create(k.job) && io.size(k.job).IoOk?)
    {
      hide Valid; hide Base; hide Locks; hide Cost; hide Continues;
      ok := LooksPrepared(start, w, k);
      if ok {
        return;
      }
      TakeMaster(start, w, k);
      ok := LooksPreparedInside(start, w, k);
      if !ok {
        ok := MakeDestination(start, w, k);
      }
      LeaveMaster(start, w, k, ok);
    }

    // ---- writing -----------------------------------------------------------

    method OpenDestination(ghost start: Run, w: nat, k: Chunk) returns (ok: bool)
      requires At(start, w, Writing(k, OpenDst), None)
      modifies `dstOpen, `pcs, `run
      ensures Advanced(start, old(pcs), old(Cost()), w,
                       if ok then Writing(k, WriteDst) else Dropping(k.buf, k.job, DropReport), None)
      ensures w < |old(dstOpen)| && (ok <==> k.file in old(dstOpen)[w] || io.openDst(k.job))
      ensures dstOpen == if ok then old(dstOpen)[w := old(dstOpen)[w] + {k.file}] else old(dstOpen)
    {
      hide Counted; hide Tracked; hide HonestJob; hide Measure; hide Next; hide Continues; hide NoFailure; hide JobFits;
      BusyRange(w, k.buf, k.job);
      SoundAt(k.job);
      ghost var e := Go;
      ok := true;
      if k.file !in dstOpen[w] {
        ok := io.openDst(k.job);
        e := if ok then IoOk(0, []) else IoErr([]);
      }
      if ok {
        dstOpen := dstOpen[w := dstOpen[w] + {k.file}];
      }
      pcs := pcs[w := if ok then Writing(k, WriteDst) else Dropping(k.buf, k.job, DropReport)];
      DidWrite(start, w, k, OpenDst, e);
    }

    /** A positioned write by the device. */
    method WriteBytes(k: Chunk, answer: Event)
      requires arena.Valid() && k.buf < arena.count && k.file < |c.files|
      requires if answer.IoOk? then answer.n <= arena.block else answer.IoErr?
      modifies `disk
      ensures disk == old(disk)[c.files[k.file].dst :=
                WriteAt(FileAt(old(View()), c.files[k.file].dst), k.offset,
                        if answer.IoOk? then old(View()).arena[k.buf][..answer.n] else answer.data)]
    {
      var dst := c.files[k.file].dst;
      var data := if answer.IoOk? then arena.Buffer(k.buf)[..answer.n] else answer.data;
      disk := disk[dst := WriteAt(if dst in disk then disk[dst] else [], k.offset, data)];
    }

    lemma WriteIsFine(s: State, w: nat, k: Chunk)
      requires w < |s.pcs| && s.pcs[w] == Writing(k, WriteDst) && k.job < |c.jobs|
      ensures Fine(c, io, s, w, io.write(k.job))
    {
      SoundAt(k.job);
    }

    /** The positioned write of the padded chunk. */
    method WriteDestination(ghost start: Run, w: nat, k: Chunk) returns (ok: bool)
      requires At(start, w, Writing(k, WriteDst), None)
      modifies `disk, `log, `pcs, `run
      ensures Advanced(start, old(pcs), old(Cost()), w, Writing(k, if ok then CountWritten else WriteReport), None)
      ensures ok == io.write(k.job).IoOk?
    {
      hide Counted; hide Tracked; hide HonestJob; hide Measure; hide Next; hide Continues; hide NoFailure;
      hide JobFits; hide WriteAt; hide RoundUp; hide Honest; hide IsRun; hide FineRun; hide SourceAt; hide Fine;
      hide ReadableAt; hide SoundJob; hide Init; hide WellPlanned; hide Meets; hide Fallthrough;
      BusyRange(w, k.buf, k.job);
      SoundAt(k.job);
      Answers(k.job);
      var answer := io.write(k.job);
      ok := answer.IoOk?;
      WriteIsFine(View(), w, k);
      WriteBytes(k, answer);
      log := log[k.job := log[k.job].(result := if ok then Wrote(answer.n) else Botched)];
      pcs := pcs[w := Writing(k, if ok then CountWritten else WriteReport)];
      DidWrite(start, w, k, WriteDst, answer);
      assert Locks(w, None);
    }

    method CountBytesWritten(ghost start: Run, w: nat, k: Chunk)
      requires At(start, w, Writing(k, CountWritten), None)
      modifies `bytesWritten, `log, `pcs, `run
      ensures Advanced(start, old(pcs), old(Cost()), w, Writing(k, ReleaseBuf), None)
      ensures bytesWritten == old(bytesWritten) + k.len
    {
      hide Counted; hide Tracked; hide HonestJob; hide Measure; hide Next; hide Continues; hide NoFailure; hide JobFits;
      BusyRange(w, k.buf, k.job);
      bytesWritten := bytesWritten + k.len;
      log := log[k.job := log[k.job].(writeCounted := true)];
      pcs := pcs[w := Writing(k, ReleaseBuf)];
      DidWrite(start, w, k, CountWritten, Go);
    }

    method ReportWrite(ghost start: Run, w: nat, k: Chunk)
      requires At(start, w, Writing(k, WriteReport), None)
      modifies `errors, `failures, `pcs, `run
      ensures Advanced(start, old(pcs), old(Cost()), w, Writing(k, WriteMark), None)
      ensures errors == Fail(old(errors), k.file)
    {
      hide Tracked; hide HonestJob; hide Measure; hide Next; hide Continues; hide NoFailure; hide JobFits;
      BusyRange(w, k.buf, k.job);
      Message(k.file);
      pcs := pcs[w := Writing(k, WriteMark)];
      DidWrite(start, w, k, WriteReport, Go);
    }

    method MarkWriteFailed(ghost start: Run, w: nat, k: Chunk)
      requires At(start, w, Writing(k, WriteMark), None)
      modifies `entries, `log, `pcs, `run
      ensures Advanced(start, old(pcs), old(Cost()), w, Writing(k, ReleaseBuf), None)
      ensures Marked(old(entries), k.job)
    {
      hide Counted; hide Tracked; hide HonestJob; hide Measure; hide Next; hide Continues; hide NoFailure; hide JobFits;
      BusyRange(w, k.buf, k.job);
      entries := entries[k.file := entries[k.file].(failed := true)];
      log := log[k.job := log[k.job].(spoiled := true)];
      pcs := pcs[w := Writing(k, ReleaseBuf)];
      DidWrite(start, w, k, WriteMark, Go);
    }

    method ReleaseBuffer(ghost start: Run, w: nat, k: Chunk)
      requires At(start, w, Writing(k, ReleaseBuf), None)
      modifies rings`free, `pcs, `run
      ensures Advanced(start, old(pcs), old(Cost()), w, Writing(k, Retire), None)
      ensures rings.free == old(rings.free) + [k.buf]
    {
      hide Counted; hide Tracked; hide HonestJob; hide Measure; hide Next; hide Continues; hide NoFailure; hide JobFits;
      BusyRange(w, k.buf, k.job);
      rings.ReleaseFree(k.buf);
      pcs := pcs[w := Writing(k, Retire)];
      DidWrite(start, w, k, ReleaseBuf, Go);
    }

    method RetireWritten(ghost start: Run, w: nat, k: Chunk)
      requires At(start, w, Writing(k, Retire), None)
      modifies `remaining, `pcs, `run
      ensures Advanced(start, old(pcs), old(Cost()), w, Writing(k, Credit), None)
      ensures old(remaining) == remaining + 1
    {
      hide Counted; hide Tracked; hide HonestJob; hide Measure; hide Next; hide Continues; hide NoFailure; hide JobFits;
      BusyRange(w, k.buf, k.job);
      OwesOne(w);
      remaining := Decrement(remaining);
      pcs := pcs[w := Writing(k, Credit)];
      DidWrite(start, w, k, Retire, Go);
    }

    method CreditFile(ghost start: Run, w: nat, k: Chunk) returns (last: bool)
      requires At(start, w, Writing(k, Credit), None)
      modifies `entries, `log, `pcs, `run
      ensures Advanced(start, old(pcs), old(Cost()), w, if last then Finishing(k.file, LockFinal) else Idle(Head), None)
      ensures k.file < |entries| == |old(entries)| == |c.chunks| && (last <==> entries[k.file].done == c.chunks[k.file])
      ensures entries == old(entries)[k.file := old(entries)[k.file].(done := old(entries)[k.file].done + 1)]
    {
      hide Counted; hide Tracked; hide HonestJob; hide Measure; hide Next; hide Continues; hide NoFailure; hide JobFits;
      BusyRange(w, k.buf, k.job);
      var done := entries[k.file].done + 1;
      last := done == c.chunks[k.file];
      entries := entries[k.file := entries[k.file].(done := done)];
      log := log[k.job := log[k.job].(fate := Credited)];
      pcs := pcs[w := if last then Finishing(k.file, LockFinal) else Idle(Head)];
      DidWrite(start, w, k, Credit, Go);
    }

    // ---- finalising --------------------------------------------------------

    /** The file was trimmed, or its trim failed and was reported, and it was counted unless marked failed. */
    ghost predicate Closed(f: nat, filesDone0: nat)
      reads `flog, `entries, `filesDone
    {
      && f < |flog| && flog[f].settled && !flog[f].trim.Untrimmed?
      && f < |entries| && filesDone == filesDone0 + (if entries[f].failed then 0 else 1)
    }

    lemma FindsMaster(w: nat, f: nat)
      requires Valid() && w < |pcs| && pcs[w] == Finishing(f, Trim)
      ensures f < |entries| && entries[f].master
    {
      Sound();
      TrimIsLast(c, View(), w, f);
    }

    lemma FileRange(w: nat, f: nat)
      requires Valid() && w < |pcs| && pcs[w].Finishing? && pcs[w].file == f
      ensures f < |c.files| == |entries| == |flog| && w < c.workers
      ensures NoFailure(c, io) ==> io.trim(f)
    {
      Sound();
      assert PcOk(c, View().pcs[w]);
    }

    method TakeFinal(ghost start: Run, w: nat, f: nat)
      requires At(start, w, Finishing(f, LockFinal), None)
      modifies `entries, `pcs, `run
      ensures Advanced(start, old(pcs), old(Cost()), w, Finishing(f, Trim), Some(f))
      ensures |entries| == |old(entries)| && forall g :: 0 <= g < |entries| ==> SameButLock(old(entries)[g], entries[g])
    {
      hide Counted; hide Tracked; hide HonestJob; hide Measure; hide Next; hide Continues; hide NoFailure; hide JobFits;
      FileRange(w, f);
      entries := entries[f := entries[f].(lock := LockedBy(w))];
      pcs := pcs[w := Finishing(f, Trim)];
      DidFin(start, w, f, LockFinal, Go);
    }

    /** The device sets the length, or fails and leaves the file as it is. */
    method ApplyTrim(f: nat, ok: bool)
      requires f < |c.files| == |flog|
      modifies `disk, `flog
      ensures flog == old(flog)[f := old(flog)[f].(trim := if ok then Trimmed else TrimFailed)]
      ensures disk == if ok then old(disk)[c.files[f].dst := SetLen(Present(old(disk), f), c.files[f].size)]
                else old(disk)
    {
      if ok {
        disk := disk[c.files[f].dst := SetLen(Present(disk, f), c.files[f].size)];
      }
      flog := flog[f := flog[f].(trim := if ok then Trimmed else TrimFailed)];
    }

    function Present(disk: map<Path, seq<byte>>, f: nat): seq<byte>
      requires f < |c.files|
    {
      if c.files[f].dst in disk then disk[c.files[f].dst] else []
    }

    /** Cut the destination to its real length. */
    method TrimDestination(ghost start: Run, w: nat, f: nat) returns (found: bool, ok: bool)
      requires At(start, w, Finishing(f, Trim), Some(f))
      modifies `disk, `flog, `pcs, `run
      ensures Advanced(start, old(pcs), old(Cost()), w,
                       Finishing(f, if !found then UnlockFinal else if ok then CountFile else TrimReport), Some(f))
      ensures found && f < |flog| == |old(flog)|
      ensures flog == old(flog)[f := old(flog)[f].(trim := if ok then Trimmed else TrimFailed)]
      ensures ok == io.trim(f)
    {
      hide Counted; hide Tracked; hide HonestJob; hide Measure; hide Next; hide Continues; hide NoFailure;
      hide JobFits; hide SetLen;
      FindsMaster(w, f);
      FileRange(w, f);
      found := entries[f].master;
      ok := found && io.trim(f);
      if found {
        ApplyTrim(f, ok);
      }
      pcs := pcs[w := Finishing(f, if !found then UnlockFinal else if ok then CountFile else TrimReport)];
      DidFin(start, w, f, Trim, if !found then Go else if ok then IoOk(0, []) else IoErr([]));
    }

    method ReportTrim(ghost start: Run, w: nat, f: nat)
      requires At(start, w, Finishing(f, TrimReport), Some(f))
      modifies `errors, `failures, `pcs, `run
      ensures Advanced(start, old(pcs), old(Cost()), w, Finishing(f, CountFile), Some(f))
    {
      hide Tracked; hide HonestJob; hide Measure; hide Next; hide Continues; hide NoFailure; hide JobFits;
      FileRange(w, f);
      Message(f);
      pcs := pcs[w := Finishing(f, CountFile)];
      DidFin(start, w, f, TrimReport, Go);
    }

    method CountDone(ghost start: Run, w: nat, f: nat)
      requires At(start, w, Finishing(f, CountFile), Some(f))
      modifies `filesDone, `flog, `pcs, `run
      ensures Advanced(start, old(pcs), old(Cost()), w, Finishing(f, UnlockFinal), Some(f))
      ensures f < |flog| == |old(flog)| && flog[f].settled && flog[f].trim == old(flog)[f].trim
      ensures f < |entries| && filesDone == old(filesDone) + (if entries[f].failed then 0 else 1)
    {
      hide Counted; hide Tracked; hide HonestJob; hide Measure; hide Next; hide Continues; hide NoFailure; hide JobFits;
      FileRange(w, f);
      var failed := entries[f].failed;
      if !failed {
        filesDone := filesDone + 1;
      }
      flog := flog[f := flog[f].(settled := true, counted := !failed)];
      pcs := pcs[w := Finishing(f, UnlockFinal)];
      DidFin(start, w, f, CountFile, Go);
    }

    method LeaveFinal(ghost start: Run, w: nat, f: nat)
      requires At(start, w, Finishing(f, UnlockFinal), Some(f))
      modifies `entries, `pcs, `run
      ensures Advanced(start, old(pcs), old(Cost()), w, Idle(Head), None)
      ensures |entries| == |old(entries)| && forall g :: 0 <= g < |entries| ==> SameButLock(old(entries)[g], entries[g])
    {
      hide Counted; hide Tracked; hide HonestJob; hide Measure; hide Next; hide Continues; hide NoFailure; hide JobFits;
      FileRange(w, f);
      entries := entries[f := entries[f].(lock := Unlocked)];
      pcs := pcs[w := Idle(Head)];
      DidFin(start, w, f, UnlockFinal, Go);
    }

    /** Under the mutex: the trim, its message if it fails, and the count. */
    method TrimAndCount(ghost start: Run, w: nat, f: nat)
      requires At(start, w, Finishing(f, Trim), Some(f))
      modifies `disk, `errors, `failures, `filesDone, `flog, `pcs, `run
      ensures Advanced(start, old(pcs), old(Cost()), w, Finishing(f, UnlockFinal), Some(f))
      ensures Closed(f, old(filesDone))
    {
      hide Valid; hide Base; hide Locks; hide Cost; hide Continues;
      var found, ok := TrimDestination(start, w, f);
      if found {
        if !ok {
          ReportTrim(start, w, f);
        }
        CountDone(start, w, f);
      }
    }

    /** Trim the padding and count the file. */
    method Finalize(ghost start: Run, w: nat, f: nat)
      requires At(start, w, Finishing(f, LockFinal), None)
      modifies `entries, `disk, `errors, `failures, `filesDone, `flog, `pcs, `run
      ensures Advanced(start, old(pcs), old(Cost()), w, Idle(Head), None)
      ensures |entries| == |old(entries)| && forall g :: 0 <= g < |entries| ==> SameButLock(old(entries)[g], entries[g])
      ensures Closed(f, old(filesDone))
    {
      hide Valid; hide Base; hide Locks; hide Cost; hide Continues;
      TakeFinal(start, w, f);
      TrimAndCount(start, w, f);
      LeaveFinal(start, w, f);
    }

    /** Give back the buffer, retire and credit the job, and finalise after the last one. */
    method SettleChunk(ghost start: Run, w: nat, k: Chunk)
      requires At(start, w, Writing(k, ReleaseBuf), None)
      modifies `entries, `disk, `errors, `failures, `filesDone, `remaining, `log, `flog, rings`free, `pcs, `run
      ensures Advanced(start, old(pcs), old(Cost()), w, Idle(Head), None)
      ensures rings.free == old(rings.free) + [k.buf] && old(remaining) == remaining + 1
      ensures k.file < |entries| == |old(entries)| == |c.chunks|
              && entries[k.file].done == old(entries)[k.file].done + 1
      ensures if entries[k.file].done == c.chunks[k.file] then Closed(k.file, old(filesDone))
              else disk == old(disk) && flog == old(flog) && filesDone == old(filesDone)
    {
      hide Valid; hide Base; hide Locks; hide Cost; hide Continues;
      ReleaseBuffer(start, w, k);
      RetireWritten(start, w, k);
      var last := CreditFile(start, w, k);
      if last {
        Finalize(start, w, k.file);
      }
    }

    /** The write of a chunk to its open destination, and what is noted of it. */
    method AttemptWrite(ghost start: Run, w: nat, k: Chunk)
      requires At(start, w, Writing(k, WriteDst), None)
      modifies `entries, `disk, `errors, `failures, `bytesWritten, `log, `pcs, `run
      ensures Advanced(start, old(pcs), old(Cost()), w, Writing(k, ReleaseBuf), None)
      ensures if io.write(k.job).IoOk? then
                bytesWritten == old(bytesWritten) + k.len && entries == old(entries) && errors == old(errors)
              else
                bytesWritten == old(bytesWritten) && Marked(old(entries), k.job)
                && errors == Fail(old(errors), k.file)
    {
      hide Valid; hide Base; hide Locks; hide Cost; hide Continues;
      var ok := WriteDestination(start, w, k);
      if ok {
        CountBytesWritten(start, w, k);
      } else {
        ReportWrite(start, w, k);
        MarkWriteFailed(start, w, k);
      }
    }

    method WriteChunk(ghost start: Run, w: nat, k: Chunk)
      requires At(start, w, Writing(k, CheckPrepared), None)
      modifies `entries, `disk, `errors, `failures, `filesDone, `remaining, `bytesWritten, `dstOpen, `log, `flog
      modifies rings`free, `pcs, `run
      ensures Advanced(start, old(pcs), old(Cost()), w, Idle(Head), None)
    {
      hide Valid; hide Base; hide Locks; hide Cost; hide Continues;
      var ok := PrepareDestination(start, w, k);
      if ok {
        ok := OpenDestination(start, w, k);
      }
      if ok {
        AttemptWrite(start, w, k);
        SettleChunk(start, w, k);
      } else {
        Abandon(start, w, k.buf, k.job);
      }
    }

    /** The wait for a chunk ran out. */
    ghost method NothingFilled(start: Run, w: nat, again: bool)
      requires At(start, w, Idle(TryFilled(again)), None) && Fruitless(c, start, run, w) && rings.filled == []
      modifies `pcs, `run
      ensures Ended(start, old(pcs), old(Cost()), w, false, Fallthrough(again, false))
    {
      hide Tracked; hide Measure; hide Continues; hide Fruitless; hide Next; hide NoFailure;
      pcs := pcs[w := Idle(WaitFilled(again))];
      DidIdle(start, w, TryFilled(again), Go);
      pcs := pcs[w := Fallthrough(again, false)];
      DidIdle(start, w, WaitFilled(again), Timeout);
    }

    /** The writing side: take the oldest filled chunk and write it. */
    method TryWrite(ghost start: Run, w: nat, ghost again: bool) returns (worked: bool)
      requires At(start, w, Idle(TryFilled(again)), None) && Fruitless(c, start, run, w)
      modifies this, rings, arena.memory
      ensures Ended(start, old(pcs), old(Cost()), w, worked, Fallthrough(again, false))
      ensures worked <==> old(rings.filled) != []
      ensures rings.filled == if worked then old(rings.filled)[1..] else []
      ensures cursor == old(cursor) && bytesRead == old(bytesRead)
      ensures !worked ==>
                rings.free == old(rings.free) && bytesWritten == old(bytesWritten) && remaining == old(remaining)
                && disk == old(disk)
    {
      hide Tracked; hide Measure; hide Continues; hide Fruitless; hide Next; hide NoFailure;
      var popped := rings.PopFilled([]);
      if popped == None {
        NothingFilled(start, w, again);
        return false;
      }
      pcs := pcs[w := Writing(popped.value, CheckPrepared)];
      DidIdle(start, w, TryFilled(again), Go);
      WriteChunk(start, w, popped.value);
      worked := true;
    }

    // ---- the loop ----------------------------------------------------------

    /** All workers are at the loop head, in a run that began in state `first`. */
    ghost predicate Resting(first: State)
      reads this, rings, arena.memory
    {
      && Valid() && |pcs| == c.workers > 0 && (forall v :: 0 <= v < |pcs| ==> pcs[v] == Idle(Head)) && Locks(0, None)
      && run.states != [] && run.states[0] == first
    }

    /** One turn of a worker assigned to the reading side. */
    method ReadFirst(ghost start: Run, w: nat) returns (worked: bool)
      requires At(start, w, Idle(Head), None) && Fruitless(c, start, run, w) && remaining > 0
      modifies this, rings, arena.memory
      ensures Ended(start, old(pcs), old(Cost()), w, worked, Idle(Head))
      ensures worked ==> SideTaken(|c.jobs|, old(View()), View(), true)
    {
      hide Counted; hide Tracked; hide Measure; hide Continues; hide Fruitless; hide Next; hide NoFailure;
      pcs := pcs[w := Idle(TryFree(true))];
      DidIdle(start, w, Head, AskRead);
      worked := TryRead(start, w, true);
      if !worked {
        worked := TryWrite(start, w, false);
      }
    }

    /** One turn of a worker assigned to the writing side. */
    method WriteFirst(ghost start: Run, w: nat) returns (worked: bool)
      requires At(start, w, Idle(Head), None) && Fruitless(c, start, run, w) && remaining > 0
      modifies this, rings, arena.memory
      ensures Ended(start, old(pcs), old(Cost()), w, worked, Idle(Head))
      ensures worked ==> SideTaken(|c.jobs|, old(View()), View(), false)
    {
      hide Counted; hide Tracked; hide Measure; hide Continues; hide Fruitless; hide Next; hide NoFailure;
      pcs := pcs[w := Idle(TryFilled(true))];
      DidIdle(start, w, Head, AskWrite);
      worked := TryWrite(start, w, true);
      if !worked {
        worked := TryRead(start, w, false);
      }
    }

    /**
     One turn of worker `w`: the side the reader target assigns to it first, and the other only when
     that side has no work.
     */
    method Turn(w: nat, readers: nat, ghost first: State)
      requires Resting(first) && remaining > 0 && w < c.workers
      modifies this, rings, arena.memory
      ensures Resting(first) && Cost() < old(Cost())
      ensures Continues(old(run), run, w) && |old(run).workers| < |run.workers|
      ensures SideTaken(|c.jobs|, old(View()), View(), w < readers)
    {
      hide Counted; hide IsRun; hide FineRun; hide Honest; hide Measure; hide Continues; hide Fruitless; hide Next;
      hide NoFailure;
      ghost var start := run;
      assert IsRun(c, start) && Liveness.AllAtHead(Last(start)) && Last(start).remaining > 0;
      Begin(w);
      var worked: bool;
      if Scheduling.RoleOf(readers, w) == Scheduling.Read {
        worked := ReadFirst(start, w);
      } else {
        worked := WriteFirst(start, w);
      }
      SameStart(start, run, w);
      if !worked {
        WastedTurn(start, w);
        assert false;
      }
      Lengthened(start, w);
    }

    lemma Lengthened(start: Run, w: nat)
      requires Valid() && Continues(start, run, w) && start.states != []
      requires Measure(c, View()) < Measure(c, Last(start))
      ensures |start.workers| < |run.workers|
    {
      hide Measure; hide IsRun; hide FineRun; hide Honest;
      NotLonger(start, run, w);
    }

    /** A fruitless turn would leave the worker somewhere else than at the loop head. */
    lemma WastedTurn(start: Run, w: nat)
      requires Valid() && IsRun(c, start) && Continues(start, run, w) && Fruitless(c, start, run, w)
      requires |start.workers| < |run.workers| && Liveness.AllAtHead(Last(start)) && Last(start).remaining > 0
      requires w < c.workers && w < |pcs|
      ensures pcs[w] != Idle(Head)
    {
      hide IsRun; hide Continues; hide Fruitless; hide Measure;
      NoWastedTurn(c, start, run, w);
    }

    /**
     The workers' loops, taking turns: `order` says whose turn it is and `targets` what the reader
     target is.  They end when no job remains, and then every worker leaves its loop.
     */
    method Work(order: nat -> nat, targets: nat -> nat, ghost first: State)
      returns (ghost worked: Run, ghost ends: seq<nat>)
      requires Resting(first)
      modifies this, rings, arena.memory
      ensures Valid() && AllExited(View()) && run.states != [] && run.states[0] == first
      ensures c.workers > 0 && TookTurns(c, |old(run).workers|, worked, ends, order, targets)
      ensures worked.states != [] && Last(worked).remaining == 0 && worked.workers <= run.workers
    {
      hide Counted; hide Tracked; hide Measure; hide Continues; hide Fruitless; hide Next; hide NoFailure;
      var turns := 0;
      ends := [|run.workers|];
      while remaining > 0
        invariant Resting(first) && |ends| == turns + 1 && TookTurns(c, |old(run).workers|, run, ends, order, targets)
        decreases Cost()
      {
        ghost var before := run;
        Turn(order(turns) % c.workers, targets(turns), first);
        NextTurn(c, |old(run).workers|, before, run, ends, order, targets);
        ends := ends + [|run.workers|];
        turns := turns + 1;
      }
      worked := run;
      for w := 0 to c.workers
        invariant Valid() && |pcs| == c.workers && remaining == 0 && run.states != [] && run.states[0] == first
        invariant forall v :: 0 <= v < |pcs| ==> pcs[v] == if v < w then Exited else Idle(Head)
        invariant worked.workers <= run.workers
      {
        Leave(w, first);
      }
    }

    /** No job remains: the worker leaves its loop. */
    method Leave(w: nat, ghost first: State)
      requires Valid() && w < |pcs| && pcs[w] == Idle(Head) && remaining == 0
      requires run.states != [] && run.states[0] == first
      modifies `pcs, `run
      ensures Valid() && pcs == old(pcs)[w := Exited] && run.states != [] && run.states[0] == first
      ensures old(run).workers <= run.workers
    {
      hide Counted; hide Tracked; hide Measure; hide Continues; hide Fruitless; hide Next; hide NoFailure;
      ghost var start := run;
      Begin(w);
      pcs := pcs[w := Exited];
      DidIdle(start, w, Head, Go);
      SameStart(start, run, w);
    }
  }

  /** With all workers at the loop head and work remaining, none comes back to it empty-handed. */
  lemma NoWastedTurn(c: Config, start: Run, run: Run, w: nat)
    requires IsRun(c, start) && IsRun(c, run) && Continues(start, run, w) && Fruitless(c, start, run, w)
    requires |start.workers| < |run.workers| && w < c.workers
    requires Liveness.AllAtHead(Last(start)) && Last(start).remaining > 0
    ensures w < |Last(run).pcs| && Last(run).pcs[w] != Idle(Head)
  {
    var k, n := |start.workers|, |run.workers| - |start.workers|;
    var states, events := run.states[k..], run.events[k..];
    hide Inv; hide Next; hide Liveness.WasProductive; hide Init; hide WellPlanned; hide Measure;
    AlwaysInv(c, start, k);
    assert run.states[..k + 1][k] == start.states[k];
    hide IsRun; hide Continues; hide Fruitless;
    assert states[0] == Last(start) && states[n] == Last(run);
    forall i | 0 <= i < n
      ensures Next(c, states[i], w, events[i], states[i + 1]) && !Liveness.WasProductive(c, states[i], w)
    {
      AddedStep(c, start, run, w, k + i);
    }
    Liveness.OneIterationAdvances(c, states, events, w, n);
  }

  lemma AddedStep(c: Config, start: Run, run: Run, w: nat, i: nat)
    requires IsRun(c, run) && Continues(start, run, w) && Fruitless(c, start, run, w)
    requires |start.workers| <= i < |run.workers|
    ensures Next(c, run.states[i], w, run.events[i], run.states[i + 1])
    ensures !Liveness.WasProductive(c, run.states[i], w)
  {
    hide Next; hide Liveness.WasProductive; hide Init; hide WellPlanned;
    assert run.workers[i] == w;
  }

  function Setup(files: seq<FileSpec>, block: nat, align: nat, capacity: nat, workers: nat): Config
    requires block > 0
  {
    Config(files, Planning.AllJobs(files, block, |files|), Planning.AllChunks(files, block, |files|),
           block, align, capacity, workers)
  }

  lemma SetupIsPlanned(files: seq<FileSpec>, block: nat, align: nat, capacity: nat, workers: nat)
    requires Planning.Plannable(files, block, align) && capacity > 0 && workers > 0
    ensures block > 0 && WellPlanned(Setup(files, block, align, capacity, workers))
  {
    Planning.PlanIsWellFormed(Setup(files, block, align, capacity, workers));
  }

  /** If the write took byte `i` of job `j`, it is the source's byte, or zero past what the read returned. */
  ghost predicate ByteCopied(c: Config, io: Io, disk: map<Path, seq<byte>>, j: nat, i: nat)
    requires j < |c.jobs| && c.jobs[j].file < |c.files|
  {
    var spec, at := c.files[c.jobs[j].file], c.jobs[j].offset + i;
    && spec.dst in disk && at < |disk[spec.dst]|
    && (i < Count(io.read(j)) ==> at < |spec.source|)
    && (i < Count(io.write(j)) ==> disk[spec.dst][at] == if i < Count(io.read(j)) then spec.source[at] else 0)
  }

  /** What a file without a failing operation looks like: its size, and where each of its bytes comes from. */
  ghost predicate Copied(c: Config, io: Io, disk: map<Path, seq<byte>>, f: nat)
    requires f < |c.files|
  {
    && c.files[f].dst in disk && |disk[c.files[f].dst]| == c.files[f].size
    && forall j: nat, i: nat :: j < |c.jobs| && c.jobs[j].file == f && i < c.jobs[j].len ==>
         ByteCopied(c, io, disk, j, i)
  }

  lemma QuietFile(c: Config, io: Io, r: Run, s: State, f: nat)
    requires IsRun(c, r) && FineRun(c, io, r) && NoFailure(c, io) && s == Last(r) && AllExited(s) && f < |c.files|
    ensures Copied(c, io, s.disk, f)
  {
    QuietCopy(c, r, s);
    CountedIsDelivered(c, s, f);
    hide Inv;
    forall j: nat, i: nat | j < |c.jobs| && c.jobs[j].file == f && i < c.jobs[j].len
      ensures ByteCopied(c, io, s.disk, j, i)
    {
      QuietBytes(Promised(io), c, r, s, j, i);
    }
  }

  /** What a finished run leaves behind. */
  lemma BulkOutcome(c: Config, io: Io, r: Run, s: State)
    requires IsRun(c, r) && FineRun(c, io, r) && s == Last(r) && AllExited(s)
    ensures s.filled == [] && s.remaining == 0
    ensures s.filesDone <= |c.files| && |s.errors| <= ERROR_CAP && (s.filesDone < |c.files| ==> s.errors != [])
    ensures NoFailure(c, io) ==>
              s.filesDone == |c.files| && s.errors == [] && forall f: nat :: f < |c.files| ==> Copied(c, io, s.disk, f)
  {
    AlwaysInv(c, r, |r.states| - 1);
    hide Inv;
    ExitSettlesJobs(c, s);
    NoSilentShortfall(c, s);
    if NoFailure(c, io) {
      QuietCopy(c, r, s);
      forall f: nat | f < |c.files| ensures Copied(c, io, s.disk, f) {
        QuietFile(c, io, r, s, f);
      }
    }
  }

  lemma BulkForeign(c: Config, r: Run, s: State, p: Path)
    requires IsRun(c, r) && s == Last(r) && forall f :: 0 <= f < |c.files| ==> c.files[f].dst != p
    ensures SameFile(r.states[0], s, p)
  {
    ForeignFilesStay(c, r, |r.states| - 1, p);
  }

  /** The writes take all they are given. */
  ghost predicate FullWrites(c: Config, io: Io) {
    forall j: nat :: j < |c.jobs| ==> c.jobs[j].len <= Count(io.write(j))
  }

  /** Each read of the file's jobs stops, if it does, before nothing but zeros. */
  ghost predicate ReadsReach(c: Config, io: Io, f: nat) {
    forall j: nat :: j < |c.jobs| && c.jobs[j].file == f ==> RestIsZero(c, c.jobs[j], Count(io.read(j)))
  }

  lemma BulkExact(c: Config, io: Io, r: Run, s: State, f: nat)
    requires IsRun(c, r) && FineRun(c, io, r) && s == Last(r) && AllExited(s) && f < |c.files|
    requires NoFailure(c, io) && FullWrites(c, io) && |c.files[f].source| == c.files[f].size
    ensures c.files[f].dst in s.disk && (s.disk[c.files[f].dst] == c.files[f].source <==> ReadsReach(c, io, f))
  {
    hide Next; hide Init; hide WellPlanned;
    var got := (j: nat) => Count(io.read(j));
    forall i: nat | i < |r.workers| && r.workers[i] < |r.states[i].pcs|
      ensures Meets(Reporting(c, got), r.states[i], r.workers[i], r.events[i])
    {
      assert Fine(c, io, r.states[i], r.workers[i], r.events[i]);
      StateShape(c, r, i);
    }
    ExactlyWhenRestIsZero(c, r, s, got, f);
  }

  lemma StateShape(c: Config, r: Run, i: nat)
    requires IsRun(c, r) && i < |r.states|
    ensures Shape(c, r.states[i])
  {
    AlwaysInv(c, r, i);
  }

  /**
   The bulk phase: plan, work, join, shut down, for any number of workers taking turns.  It ends,
   whatever the scheduler answers and however the operations end.
   */
  method RunBulk(files: seq<FileSpec>, block: nat, align: nat, capacity: nat, workers: nat, disk: map<Path, seq<byte>>,
                 io: Io, order: nat -> nat, targets: nat -> nat)
      returns (sh: Shared, ghost worked: Run, ghost ends: seq<nat>)
    requires Planning.Plannable(files, block, align) && capacity > 0 && workers > 0
    requires Honest(Setup(files, block, align, capacity, workers), io)
    ensures sh.c == Setup(files, block, align, capacity, workers)
    ensures TookTurns(sh.c, 0, worked, ends, order, targets) && worked.workers <= sh.run.workers
    ensures sh.rings.filled == [] && sh.remaining == 0 && sh.rings.shutdown
    ensures sh.filesDone <= |files| && |sh.errors| <= ERROR_CAP && (sh.errors == [] <==> sh.failures == 0)
    ensures sh.filesDone < |files| ==> sh.errors != []
    ensures NoFailure(sh.c, io) ==>
              sh.filesDone == |files| && sh.errors == []
                  && forall f: nat :: f < |files| ==> Copied(sh.c, io, sh.disk, f)
    ensures NoFailure(sh.c, io) && FullWrites(sh.c, io) ==>
              forall f: nat :: f < |files| && |files[f].source| == files[f].size ==>
                files[f].dst in sh.disk && (sh.disk[files[f].dst] == files[f].source <==> ReadsReach(sh.c, io, f))
    ensures forall p :: (forall f :: 0 <= f < |files| ==> files[f].dst != p) ==>
              (p in disk <==> p in sh.disk) && (p in disk ==> disk[p] == sh.disk[p])
  {
    assert block > 0;
    hide Planning.Plannable; hide Planning.AllJobs; hide Planning.AllChunks; hide WellPlanned; hide Honest;
    hide NoFailure;
    hide IsRun; hide FineRun; hide Copied; hide AllExited; hide Next; hide Init; hide FullWrites; hide ReadsReach;
    hide TookTurns;
    SetupIsPlanned(files, block, align, capacity, workers);
    var jobs, chunks := Planning.PlanJobs(files, block);
    var c := Config(files, jobs, chunks, block, align, capacity, workers);
    sh := new Shared(c, io, disk);
    ghost var first := sh.View();
    worked, ends := sh.Work(order, targets, first);
    ghost var r, s := sh.run, sh.View();
    BulkOutcome(c, io, r, s);
    if NoFailure(c, io) && FullWrites(c, io) {
      forall f: nat | f < |files| && |files[f].source| == files[f].size
        ensures files[f].dst in s.disk && (s.disk[files[f].dst] == files[f].source <==> ReadsReach(c, io, f))
      {
        BulkExact(c, io, r, s, f);
      }
    }
    forall p | forall f :: 0 <= f < |files| ==> files[f].dst != p
      ensures (p in disk <==> p in s.disk) && (p in disk ==> disk[p] == s.disk[p])
    {
      BulkForeign(c, r, s, p);
    }
    sh.rings.Shutdown();
  }

  /**
   A short read is zero filled and counted as a success: a file of one byte, a device whose read
   returns nothing, no failure, no message, and a copy that differs from its source.
   */
  method ZeroFilledCopy() returns (sh: Shared)
    ensures sh.c.files == [FileSpec(["f"], 1, [7])]
    ensures sh.filesDone == 1 && sh.errors == []
    ensures ["f"] in sh.disk && sh.disk[["f"]] == [0]
  {
    var files := [FileSpec(["f"], 1, [7])];
    var ok := (_: nat) => true;
    var io := Io(ok, (_: nat) => IoOk(0, [9]), ok, (_: nat) => IoOk(0, [9]), ok, (_: nat) => IoOk(1, []), ok);
    var c := Setup(files, 1, 1, 4, 2);
    ghost var worked, ends;
    sh, worked, ends := RunBulk(files, 1, 1, 4, 2, map[], io, n => n, _ => 1);
    assert NoFailure(c, io) && Copied(c, io, sh.disk, 0);
    ghost var j := Planning.ChunksAreJobs(files, 1, 1, 0, 0);
    assert c.jobs[j] == Job(0, 0, 1);
    assert ByteCopied(c, io, sh.disk, j, 0);
  }
}
