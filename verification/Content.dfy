/** What the bytes are: in the buffers, in the queue and in the destination files. */
module Content {
  import opened Counting
  import opened Device
  import opened Pipeline
  import opened Ownership
  import opened History
  import opened Finalisation

  // ---- positioned writes and trims on byte sequences -----------------------

  lemma WriteAtInside(d: seq<byte>, offset: nat, data: seq<byte>)
    requires offset + |data| <= |d|
    ensures |WriteAt(d, offset, data)| == |d|
    ensures WriteAt(d, offset, data)[offset..offset + |data|] == data
    ensures forall a: nat, b: nat :: a <= b <= |d| && (b <= offset || offset + |data| <= a) ==>
              WriteAt(d, offset, data)[a..b] == d[a..b]
  {}

  // ---- buffers -------------------------------------------------------------

  /** What a reader leaves in the buffer: the bytes it got, then zeros up to the padded length. */
  ghost function Payload(c: Config, job: Job, got: nat): (p: seq<byte>)
    requires ReadableAt(c, job, got)
    ensures |p| == JobPadded(c, job)
  {
    SourceAt(c, job, got) + Zeros(JobPadded(c, job) - got)
  }

  ghost predicate BufferHolds(c: Config, s: State, b: nat, j: nat) {
    && b < |s.arena| && j < |s.log| && j < |c.jobs| && ReadableAt(c, c.jobs[j], s.log[j].got)
    && JobPadded(c, c.jobs[j]) <= |s.arena[b]|
    && s.arena[b][..JobPadded(c, c.jobs[j])] == Payload(c, c.jobs[j], s.log[j].got)
  }

  predicate StillNeedsBuffer(p: WritePC) {
    PreparePC(p) || p.OpenDst? || p.WriteDst?
  }

  ghost predicate PcBuffer(c: Config, s: State, pc: PC) {
    match pc
    case Reading(b, j, ZeroSlack(got)) =>
      && j < |c.jobs| && ReadableAt(c, c.jobs[j], got)
      && b < |s.arena| && got <= |s.arena[b]| && s.arena[b][..got] == SourceAt(c, c.jobs[j], got)
    case Reading(b, j, r) => r.CountRead? || r.PushFilled? ==> BufferHolds(c, s, b, j)
    case Writing(k, p) => StillNeedsBuffer(p) && p != UnlockMaster(false) ==> BufferHolds(c, s, k.buf, k.job)
    case _ => true
  }

  ghost predicate BufferInv(c: Config, s: State) {
    && (forall v :: 0 <= v < |s.pcs| ==> PcBuffer(c, s, s.pcs[v]))
    && (forall i :: 0 <= i < |s.filled| ==> BufferHolds(c, s, s.filled[i].buf, s.filled[i].job))
  }

  lemma IdleBuffer(c: Config, s: State, w: nat, i: IdlePC, e: Event)
    requires CanIdle(s, w, i, e) && BufferInv(c, s)
    ensures PcBuffer(c, IdleStep(c, s, w, i, e), IdleStep(c, s, w, i, e).pcs[w])
  {}

  lemma ReadBuffer(c: Config, s: State, w: nat, b: nat, j: nat, r: ReadPC, e: Event)
    requires CanRead(c, s, w, b, j, r, e) && PcBuffer(c, s, s.pcs[w]) && PcHistory(c, s, s.pcs[w])
    ensures PcBuffer(c, ReadStep(c, s, w, b, j, r, e), ReadStep(c, s, w, b, j, r, e).pcs[w])
    ensures r.PushFilled? ==> BufferHolds(c, ReadStep(c, s, w, b, j, r, e), b, j)
  {
    var t := ReadStep(c, s, w, b, j, r, e);
    var padded := JobPadded(c, c.jobs[j]);
    match r
    case ReadSrc =>
      if e.IoOk? {
        assert t.arena[b][..e.n] == e.data[..e.n];
      }
    case ZeroSlack(got) =>
      assert t.arena[b][..padded] == s.arena[b][..got] + Zeros(padded - got);
    case _ =>
  }

  lemma PrepareBuffer(c: Config, s: State, w: nat, k: Chunk, p: WritePC, e: Event)
    requires CanPrepare(c, s, w, k, p, e) && PcBuffer(c, s, s.pcs[w])
    ensures PcBuffer(c, PrepareStep(c, s, w, k, p, e), PrepareStep(c, s, w, k, p, e).pcs[w])
  {}

  lemma WriteBuffer(c: Config, s: State, w: nat, k: Chunk, p: WritePC, e: Event)
    requires CanWrite(c, s, w, k, p, e) && PcBuffer(c, s, s.pcs[w])
    ensures PcBuffer(c, WriteStep(c, s, w, k, p, e), WriteStep(c, s, w, k, p, e).pcs[w])
  {}

  lemma OwnBuffer(c: Config, s: State, w: nat, e: Event, t: State)
    requires Next(c, s, w, e, t) && BufferInv(c, s) && PcHistory(c, s, s.pcs[w]) && w < |t.pcs|
    ensures PcBuffer(c, t, t.pcs[w])
    ensures forall b: nat, j: nat :: s.pcs[w] == Reading(b, j, PushFilled) ==> BufferHolds(c, t, b, j)
  {
    hide IdleStep; hide ReadStep; hide PrepareStep; hide WriteStep; hide BufferHolds; hide Shape; hide WellPlanned;
    match s.pcs[w]
    case Idle(i) => IdleBuffer(c, s, w, i, e);
    case Reading(b, j, r) => ReadBuffer(c, s, w, b, j, r, e);
    case Writing(k, p) => if PreparePC(p) { PrepareBuffer(c, s, w, k, p, e); } else { WriteBuffer(c, s, w, k, p, e); }
    case _ =>
  }

  lemma BufferHoldsStable(c: Config, s: State, w: nat, t: State, b: nat, j: nat)
    requires Local(c, s, w, t) && BufferHolds(c, s, b, j) && !Holds(s.pcs[w], b) && !WorksOn(s.pcs[w], j)
    ensures BufferHolds(c, t, b, j)
  {}

  lemma OthersBuffer(c: Config, s: State, w: nat, t: State, v: nat)
    requires Local(c, s, w, t) && v < |s.pcs| && v != w && PcBuffer(c, s, s.pcs[v])
    requires forall b: nat :: Holds(s.pcs[w], b) ==> !Holds(s.pcs[v], b)
    requires forall j: nat :: WorksOn(s.pcs[w], j) ==> !WorksOn(s.pcs[v], j)
    ensures PcBuffer(c, t, t.pcs[v])
  {
    match s.pcs[v]
    case Reading(b, j, r) =>
      assert Holds(s.pcs[v], b) && WorksOn(s.pcs[v], j);
      if r.CountRead? || r.PushFilled? {
        BufferHoldsStable(c, s, w, t, b, j);
      }
    case Writing(k, p) =>
      if StillNeedsBuffer(p) && p != UnlockMaster(false) {
        assert Holds(s.pcs[v], k.buf) && WorksOn(s.pcs[v], k.job);
        BufferHoldsStable(c, s, w, t, k.buf, k.job);
      }
    case _ =>
  }

  lemma NobodyElsesBuffer(c: Config, s: State, w: nat)
    requires w < |s.pcs| && Shape(c, s) && BufInv(c, s)
    ensures forall b: nat, v: nat :: v < |s.pcs| && v != w && Holds(s.pcs[w], b) ==> !Holds(s.pcs[v], b)
    ensures forall b: nat, i: nat :: i < |s.filled| && Holds(s.pcs[w], b) ==> s.filled[i].buf != b
  {
    assert PcOk(c, s.pcs[w]);
    forall b: nat | Holds(s.pcs[w], b)
      ensures forall v :: 0 <= v < |s.pcs| && v != w ==> !Holds(s.pcs[v], b)
      ensures forall i :: 0 <= i < |s.filled| ==> s.filled[i].buf != b
    {
      SoleHolder(s, w, b);
    }
  }

  lemma BufferInvStep(c: Config, s: State, w: nat, e: Event, t: State)
    requires Next(c, s, w, e, t) && BufferInv(c, s) && HistoryInv(c, s) && JobInv(c, s) && BufInv(c, s)
    ensures BufferInv(c, t)
  {
    LocalStep(c, s, w, e, t);
    OwnBuffer(c, s, w, e, t);
    NobodyElse(c, s, w);
    NobodyElsesBuffer(c, s, w);
    hide Next; hide Shape; hide WellPlanned; hide JobInv; hide BufInv; hide HistoryInv; hide BufferHolds;
    forall v: nat | v < |t.pcs| ensures PcBuffer(c, t, t.pcs[v]) {
      if v != w {
        OthersBuffer(c, s, w, t, v);
      }
    }
    forall i | 0 <= i < |t.filled| ensures BufferHolds(c, t, t.filled[i].buf, t.filled[i].job) {
      var k := t.filled[i];
      if k in s.filled {
        var n: nat :| n < |s.filled| && s.filled[n] == k;
        assert !WorksOn(s.pcs[w], k.job) && !Holds(s.pcs[w], k.buf);
        BufferHoldsStable(c, s, w, t, k.buf, k.job);
      }
    }
  }
}
