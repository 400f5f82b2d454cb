/** Who owns what: every buffer, every job and every lock has exactly one place at any time. */
module Ownership {
  import opened Counting
  import opened Pipeline

  // ---- what a worker holds ---------------------------------------------

  predicate Holds(pc: PC, b: nat) {
    match pc
    case Idle(HaveBuf(_, x)) => x == b
    case Idle(ReturnBuf(_, x)) => x == b
    case Idle(_) => false
    case Reading(x, _, _) => x == b
    case Dropping(x, _, d) => x == b && !d.DropRetire?
    case Writing(k, p) => k.buf == b && !p.Retire? && !p.Credit?
    case Finishing(_, _) => false
    case Exited => false
  }

  predicate WorksOn(pc: PC, j: nat) {
    match pc
    case Reading(_, x, _) => x == j
    case Dropping(_, x, _) => x == j
    case Writing(k, _) => k.job == j
    case _ => false
  }

  /** The worker's job is still counted in `remaining`. */
  predicate Owes(pc: PC) {
    pc.Reading? || pc.Dropping? || (pc.Writing? && !pc.write.Credit?)
  }

  /** The worker is inside the section that the master lock of `f` protects. */
  predicate Inside(pc: PC, f: nat) {
    match pc
    case Writing(k, p) => k.file == f &&
      (p.RecheckPrepared? || p.CreateDst? || p.SizeDst? || p.SetMaster? || p.SetPrepared? || p.UnlockMaster?)
    case Finishing(g, p) => g == f && !p.LockFinal?
    case _ => false
  }

  // ---- the counts ------------------------------------------------------

  ghost function InHand(b: nat): PC -> nat { (pc: PC) => Bit(Holds(pc, b)) }
  ghost function IsBuf(b: nat): nat -> nat { (x: nat) => Bit(x == b) }
  ghost function InChunk(b: nat): Chunk -> nat { (k: Chunk) => Bit(k.buf == b) }
  ghost function AtWork(j: nat): PC -> nat { (pc: PC) => Bit(WorksOn(pc, j)) }
  ghost function Queued(j: nat): Chunk -> nat { (k: Chunk) => Bit(k.job == j) }
  ghost function Owing(): PC -> nat { (pc: PC) => Bit(Owes(pc)) }

  ghost function BufPlaces(s: State, b: nat): nat {
    Sum<nat>(s.free, IsBuf(b)) + Sum(s.filled, InChunk(b)) + Sum(s.pcs, InHand(b))
  }

  ghost function JobPlaces(s: State, j: nat): nat
    requires j < |s.log|
  {
    Bit(s.cursor <= j) + Sum(s.filled, Queued(j)) + Sum(s.pcs, AtWork(j)) + Bit(!s.log[j].fate.Live?)
  }

  function Unclaimed(c: Config, s: State): nat {
    if s.cursor < |c.jobs| then |c.jobs| - s.cursor else 0
  }

  ghost predicate BufInv(c: Config, s: State) {
    forall b: nat :: b < c.capacity ==> BufPlaces(s, b) == 1
  }

  ghost predicate JobInv(c: Config, s: State) {
    && |s.log| == |c.jobs|
    && forall j: nat :: j < |c.jobs| ==> JobPlaces(s, j) == 1
  }

  ghost predicate RemainingInv(c: Config, s: State) {
    s.remaining == Unclaimed(c, s) + |s.filled| + Sum(s.pcs, Owing())
  }

  ghost predicate LockInv(c: Config, s: State) {
    && |s.entries| == |c.files|
    && (forall w: nat, f: nat :: w < |s.pcs| && f < |c.files| ==>
          (Inside(s.pcs[w], f) <==> s.entries[f].lock == LockedBy(w)))
    && forall f :: 0 <= f < |s.entries| && s.entries[f].lock.LockedBy? ==> s.entries[f].lock.worker < |s.pcs|
  }

  // ---- buffers: every step keeps each buffer in its one place ---------------

  lemma IdleBuffers(c: Config, s: State, w: nat, i: IdlePC, e: Event, b: nat)
    requires CanIdle(s, w, i, e)
    ensures BufPlaces(IdleStep(c, s, w, i, e), b) == BufPlaces(s, b)
  {
    hide Sum;
    var t := IdleStep(c, s, w, i, e);
    SumUpdate(s.pcs, w, t.pcs[w], InHand(b));
    match i
    case TryFree(_) =>
      if |s.free| > 0 {
        var last := |s.free| - 1;
        assert s.free == s.free[..last] + [s.free[last]];
        SumAppend(s.free[..last], s.free[last], IsBuf(b));
      }
    case ReturnBuf(_, x) => SumAppend(s.free, x, IsBuf(b));
    case TryFilled(_) => if |s.filled| > 0 { SumTail(s.filled, InChunk(b)); }
    case _ =>
  }

  lemma ReadBuffers(c: Config, s: State, w: nat, x: nat, j: nat, r: ReadPC, e: Event, b: nat)
    requires CanRead(c, s, w, x, j, r, e)
    ensures BufPlaces(ReadStep(c, s, w, x, j, r, e), b) == BufPlaces(s, b)
  {
    hide Sum;
    SumUpdate(s.pcs, w, ReadStep(c, s, w, x, j, r, e).pcs[w], InHand(b));
    if r.PushFilled? {
      SumAppend(s.filled, MakeChunk(c, x, j), InChunk(b));
    }
  }

  lemma DropBuffers(c: Config, s: State, w: nat, x: nat, j: nat, d: DropPC, b: nat)
    requires CanDrop(c, s, w, x, j, d)
    ensures BufPlaces(DropStep(c, s, w, x, j, d), b) == BufPlaces(s, b)
  {
    hide Sum;
    SumUpdate(s.pcs, w, DropStep(c, s, w, x, j, d).pcs[w], InHand(b));
    if d.DropRelease? {
      SumAppend(s.free, x, IsBuf(b));
    }
  }

  lemma PrepareBuffers(c: Config, s: State, w: nat, k: Chunk, p: WritePC, e: Event, b: nat)
    requires CanPrepare(c, s, w, k, p, e)
    ensures BufPlaces(PrepareStep(c, s, w, k, p, e), b) == BufPlaces(s, b)
  {
    hide Sum;
    SumUpdate(s.pcs, w, PrepareStep(c, s, w, k, p, e).pcs[w], InHand(b));
  }

  lemma WriteBuffers(c: Config, s: State, w: nat, k: Chunk, p: WritePC, e: Event, b: nat)
    requires CanWrite(c, s, w, k, p, e)
    ensures BufPlaces(WriteStep(c, s, w, k, p, e), b) == BufPlaces(s, b)
  {
    hide Sum;
    SumUpdate(s.pcs, w, WriteStep(c, s, w, k, p, e).pcs[w], InHand(b));
    if p.ReleaseBuf? {
      SumAppend(s.free, k.buf, IsBuf(b));
    }
  }

  lemma FinBuffers(c: Config, s: State, w: nat, f: nat, p: FinPC, e: Event, b: nat)
    requires CanFin(c, s, w, f, p, e)
    ensures BufPlaces(FinStep(c, s, w, f, p, e), b) == BufPlaces(s, b)
  {
    hide Sum;
    SumUpdate(s.pcs, w, FinStep(c, s, w, f, p, e).pcs[w], InHand(b));
  }

  lemma BufferStep(c: Config, s: State, w: nat, e: Event, t: State, b: nat)
    requires Next(c, s, w, e, t)
    ensures BufPlaces(t, b) == BufPlaces(s, b)
  {
    hide BufPlaces; hide IdleStep; hide ReadStep; hide DropStep; hide PrepareStep; hide WriteStep; hide FinStep;
    match s.pcs[w]
    case Idle(i) => IdleBuffers(c, s, w, i, e, b);
    case Reading(x, j, r) => ReadBuffers(c, s, w, x, j, r, e, b);
    case Dropping(x, j, d) => DropBuffers(c, s, w, x, j, d, b);
    case Writing(k, p) =>
      if PreparePC(p) { PrepareBuffers(c, s, w, k, p, e, b); } else { WriteBuffers(c, s, w, k, p, e, b); }
    case Finishing(f, p) => FinBuffers(c, s, w, f, p, e, b);
  }

  // ---- jobs: one place each, and `remaining` counts the unsettled ones --------

  ghost predicate JobsOk(c: Config, s: State, j: nat) {
    && j < |s.log| && JobPlaces(s, j) == 1 && RemainingInv(c, s)
  }

  lemma IdleJobs(c: Config, s: State, w: nat, i: IdlePC, e: Event, j: nat)
    requires CanIdle(s, w, i, e) && JobsOk(c, s, j) && |s.log| == |c.jobs|
    ensures JobsOk(c, IdleStep(c, s, w, i, e), j)
  {
    hide Sum;
    var t := IdleStep(c, s, w, i, e);
    SumUpdate(s.pcs, w, t.pcs[w], AtWork(j));
    SumUpdate(s.pcs, w, t.pcs[w], Owing());
    if i.TryFilled? && |s.filled| > 0 {
      SumTail(s.filled, Queued(j));
    }
  }

  lemma ReadJobs(c: Config, s: State, w: nat, x: nat, i: nat, r: ReadPC, e: Event, j: nat)
    requires CanRead(c, s, w, x, i, r, e) && JobsOk(c, s, j)
    ensures JobsOk(c, ReadStep(c, s, w, x, i, r, e), j)
  {
    hide Sum;
    var t := ReadStep(c, s, w, x, i, r, e);
    SumUpdate(s.pcs, w, t.pcs[w], AtWork(j));
    SumUpdate(s.pcs, w, t.pcs[w], Owing());
    if r.PushFilled? {
      SumAppend(s.filled, MakeChunk(c, x, i), Queued(j));
    }
  }

  lemma DropJobs(c: Config, s: State, w: nat, x: nat, i: nat, d: DropPC, j: nat)
    requires CanDrop(c, s, w, x, i, d) && JobsOk(c, s, j)
    ensures JobsOk(c, DropStep(c, s, w, x, i, d), j)
  {
    hide Sum;
    var t := DropStep(c, s, w, x, i, d);
    SumUpdate(s.pcs, w, t.pcs[w], AtWork(j));
    SumUpdate(s.pcs, w, t.pcs[w], Owing());
    SumAtLeast(s.pcs, w, AtWork(j));
    SumAtLeast(s.pcs, w, Owing());
  }

  lemma PrepareJobs(c: Config, s: State, w: nat, k: Chunk, p: WritePC, e: Event, j: nat)
    requires CanPrepare(c, s, w, k, p, e) && JobsOk(c, s, j)
    ensures JobsOk(c, PrepareStep(c, s, w, k, p, e), j)
  {
    hide Sum;
    var t := PrepareStep(c, s, w, k, p, e);
    SumUpdate(s.pcs, w, t.pcs[w], AtWork(j));
    SumUpdate(s.pcs, w, t.pcs[w], Owing());
  }

  lemma WriteJobs(c: Config, s: State, w: nat, k: Chunk, p: WritePC, e: Event, j: nat)
    requires CanWrite(c, s, w, k, p, e) && JobsOk(c, s, j)
    ensures JobsOk(c, WriteStep(c, s, w, k, p, e), j)
  {
    hide Sum;
    var t := WriteStep(c, s, w, k, p, e);
    SumUpdate(s.pcs, w, t.pcs[w], AtWork(j));
    SumUpdate(s.pcs, w, t.pcs[w], Owing());
    SumAtLeast(s.pcs, w, AtWork(j));
    SumAtLeast(s.pcs, w, Owing());
  }

  lemma FinJobs(c: Config, s: State, w: nat, f: nat, p: FinPC, e: Event, j: nat)
    requires CanFin(c, s, w, f, p, e) && JobsOk(c, s, j)
    ensures JobsOk(c, FinStep(c, s, w, f, p, e), j)
  {
    hide Sum;
    var t := FinStep(c, s, w, f, p, e);
    SumUpdate(s.pcs, w, t.pcs[w], AtWork(j));
    SumUpdate(s.pcs, w, t.pcs[w], Owing());
  }

  lemma JobStep(c: Config, s: State, w: nat, e: Event, t: State, j: nat)
    requires Next(c, s, w, e, t) && JobsOk(c, s, j)
    ensures JobsOk(c, t, j)
  {
    hide JobsOk; hide IdleStep; hide ReadStep; hide DropStep; hide PrepareStep; hide WriteStep; hide FinStep;
    match s.pcs[w]
    case Idle(i) => IdleJobs(c, s, w, i, e, j);
    case Reading(x, i, r) => ReadJobs(c, s, w, x, i, r, e, j);
    case Dropping(x, i, d) => DropJobs(c, s, w, x, i, d, j);
    case Writing(k, p) => if PreparePC(p) { PrepareJobs(c, s, w, k, p, e, j); } else { WriteJobs(c, s, w, k, p, e, j); }
    case Finishing(f, p) => FinJobs(c, s, w, f, p, e, j);
  }
}
