/** The side a worker tries first is the one its role names. */
module Sides {
  import opened Pipeline
  import opened Ownership
  import opened History
  import opened Copy

  /** Worker `w` is at the position `pc` before step `i`, which is its own. */
  ghost predicate Steps(r: Run, i: nat, w: nat, pc: PC) {
    i < |r.workers| && i < |r.states| && r.workers[i] == w < |r.states[i].pcs| && r.states[i].pcs[w] == pc
  }

  /** Between the steps `i` and `k` the worker does not begin another round of its loop. */
  ghost predicate SameRound(r: Run, i: nat, k: nat, w: nat) {
    forall m :: i < m < k ==> !Steps(r, m, w, Idle(Head))
  }

  /** At step `m` the worker gives up the wait for a buffer, or has one and finds that no job is left for it. */
  ghost predicate NothingToRead(c: Config, r: Run, m: nat, w: nat) {
    && m < |r.events|
    && (|| (Steps(r, m, w, Idle(WaitFree(true))) && r.events[m].Timeout?)
        || (exists b :: Steps(r, m, w, Idle(HaveBuf(true, b))) && |c.jobs| <= r.states[m].cursor))
  }

  /** At step `m` the worker gives up the wait for a chunk. */
  ghost predicate NothingToWrite(r: Run, m: nat, w: nat) {
    m < |r.events| && Steps(r, m, w, Idle(WaitFilled(true))) && r.events[m].Timeout?
  }

  /** The worker looks for a buffer, or found a job or a chunk, or is back at the loop head. */
  predicate ReadSide(pc: PC) {
    !pc.Idle? || pc.idle.Head? || pc.idle == TryFree(true) || pc.idle == WaitFree(true)
    || (pc.idle.HaveBuf? && pc.idle.again)
  }

  predicate WriteSide(pc: PC) {
    !pc.Idle? || pc.idle.Head? || pc.idle == TryFilled(true) || pc.idle == WaitFilled(true)
  }

  /** A step leaves the side a worker tries first only for want of work there. */
  lemma StaysOnSide(c: Config, s: State, w: nat, e: Event, t: State)
    requires Next(c, s, w, e, t)
    ensures w < |s.pcs| && w < |t.pcs|
    ensures ReadSide(s.pcs[w]) && s.pcs[w] != Idle(Head) ==>
              || ReadSide(t.pcs[w])
              || (s.pcs[w] == Idle(WaitFree(true)) && e.Timeout?)
              || (s.pcs[w].Idle? && s.pcs[w].idle.HaveBuf? && s.pcs[w].idle.again && |c.jobs| <= s.cursor)
    ensures WriteSide(s.pcs[w]) && s.pcs[w] != Idle(Head) ==>
              WriteSide(t.pcs[w]) || (s.pcs[w] == Idle(WaitFilled(true)) && e.Timeout?)
    ensures s.pcs[w] == Idle(Head) && e.AskRead? ==> t.pcs[w] == Idle(TryFree(true))
    ensures s.pcs[w] == Idle(Head) && e.AskWrite? ==> t.pcs[w] == Idle(TryFilled(true))
  {
    LocalStep(c, s, w, e, t);
    if s.pcs[w].Idle? {
      hide ReadStep; hide DropStep; hide PrepareStep; hide WriteStep; hide FinStep; hide Local;
      hide WellPlanned;
    } else {
      hide Next; hide WellPlanned; hide Shape;
    }
  }

  lemma Moved(c: Config, r: Run, n: nat, w: nat)
    requires IsRun(c, r) && n < |r.workers| && w < c.workers
    ensures |r.states| == |r.workers| + 1 == |r.events| + 1
    ensures w < |r.states[n].pcs| && w < |r.states[n + 1].pcs|
    ensures r.workers[n] != w ==> r.states[n + 1].pcs[w] == r.states[n].pcs[w]
    ensures Next(c, r.states[n], r.workers[n], r.events[n], r.states[n + 1])
  {
    AlwaysInv(c, r, n);
    hide Inv; hide Init;
    assert Next(c, r.states[n], r.workers[n], r.events[n], r.states[n + 1]);
    LocalStep(c, r.states[n], r.workers[n], r.events[n], r.states[n + 1]);
    hide Next;
  }

  lemma {:induction false} StaysForReading(c: Config, r: Run, i: nat, k: nat, w: nat)
    requires IsRun(c, r) && i < k < |r.states| && w < c.workers
    requires Steps(r, i, w, Idle(Head)) && i < |r.events| && r.events[i].AskRead? && SameRound(r, i, k, w)
    ensures w < |r.states[k].pcs|
    ensures ReadSide(r.states[k].pcs[w]) || exists m :: i < m < k && NothingToRead(c, r, m, w)
    decreases k
  {
    hide IsRun; hide Next; hide ReadSide; hide NothingToRead;
    var n: nat := k - 1;
    RunShape(c, r);
    Moved(c, r, n, w);
    if i < n {
      assert SameRound(r, i, n, w);
      StaysForReading(c, r, i, n, w);
    }
    if r.workers[n] == w {
      StaysOnSide(c, r.states[n], w, r.events[n], r.states[k]);
      assert i < n ==> !Steps(r, n, w, Idle(Head));
      NothingAt(c, r, n, w);
    }
    assert i == n ==> ReadSide(Idle(TryFree(true))) by { TryFreeIsReading(); }
  }

  lemma TryFreeIsReading()
    ensures ReadSide(Idle(TryFree(true))) && WriteSide(Idle(TryFilled(true)))
  {}

  lemma RunShape(c: Config, r: Run)
    requires IsRun(c, r)
    ensures |r.states| == |r.workers| + 1 == |r.events| + 1
  {}

  lemma NothingAt(c: Config, r: Run, n: nat, w: nat)
    requires n < |r.workers| && n < |r.states| && n < |r.events| && r.workers[n] == w < |r.states[n].pcs|
    ensures r.states[n].pcs[w] == Idle(WaitFree(true)) && r.events[n].Timeout? ==> NothingToRead(c, r, n, w)
    ensures var pc := r.states[n].pcs[w];
            pc.Idle? && pc.idle.HaveBuf? && pc.idle.again && |c.jobs| <= r.states[n].cursor ==>
              NothingToRead(c, r, n, w)
    ensures r.states[n].pcs[w] == Idle(WaitFilled(true)) && r.events[n].Timeout? ==> NothingToWrite(r, n, w)
  {
    var pc := r.states[n].pcs[w];
    if pc.Idle? && pc.idle.HaveBuf? && pc.idle.again && |c.jobs| <= r.states[n].cursor {
      assert pc == Idle(HaveBuf(true, pc.idle.buf));
      assert Steps(r, n, w, Idle(HaveBuf(true, pc.idle.buf)));
    }
  }

  lemma {:induction false} StaysForWriting(c: Config, r: Run, i: nat, k: nat, w: nat)
    requires IsRun(c, r) && i < k < |r.states| && w < c.workers
    requires Steps(r, i, w, Idle(Head)) && i < |r.events| && r.events[i].AskWrite? && SameRound(r, i, k, w)
    ensures w < |r.states[k].pcs|
    ensures WriteSide(r.states[k].pcs[w]) || exists m :: i < m < k && NothingToWrite(r, m, w)
    decreases k
  {
    hide IsRun; hide Next; hide WriteSide; hide NothingToWrite;
    var n: nat := k - 1;
    RunShape(c, r);
    Moved(c, r, n, w);
    if i < n {
      assert SameRound(r, i, n, w);
      StaysForWriting(c, r, i, n, w);
    }
    if r.workers[n] == w {
      StaysOnSide(c, r.states[n], w, r.events[n], r.states[k]);
      assert i < n ==> !Steps(r, n, w, Idle(Head));
      NothingAt(c, r, n, w);
    }
    assert i == n ==> WriteSide(Idle(TryFilled(true))) by { TryFreeIsReading(); }
  }

  /**
   A worker told to read turns to the queue of filled chunks in the same round only after it has found
   nothing to read, for want of a buffer or of a job; one told to write turns to the free buffers only
   after it has waited for a chunk in vain.
   */
  lemma OwnSideFirst(c: Config, r: Run, i: nat, k: nat, w: nat, again: bool)
    requires IsRun(c, r) && i < k && Steps(r, i, w, Idle(Head)) && SameRound(r, i, k, w)
    ensures i < |r.events|
    ensures r.events[i].AskRead? && Steps(r, k, w, Idle(TryFilled(again))) ==>
              exists m :: i < m < k && NothingToRead(c, r, m, w)
    ensures r.events[i].AskWrite? && Steps(r, k, w, Idle(TryFree(again))) ==>
              exists m :: i < m < k && NothingToWrite(r, m, w)
  {
    RunShape(c, r);
    WorkerExists(c, r, i);
    hide IsRun; hide NothingToRead; hide NothingToWrite;
    if r.events[i].AskRead? && Steps(r, k, w, Idle(TryFilled(again))) {
      StaysForReading(c, r, i, k, w);
    }
    if r.events[i].AskWrite? && Steps(r, k, w, Idle(TryFree(again))) {
      StaysForWriting(c, r, i, k, w);
    }
  }

  lemma WorkerExists(c: Config, r: Run, i: nat)
    requires IsRun(c, r) && i < |r.workers|
    ensures r.workers[i] < c.workers
  {
    hide Init; hide WellPlanned;
    assert Next(c, r.states[i], r.workers[i], r.events[i], r.states[i + 1]);
  }
}
