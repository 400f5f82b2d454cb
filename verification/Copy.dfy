/** Whole runs of the pipeline: what holds throughout, and what holds when the workers have exited. */
module Copy {
  import opened Counting
  import opened Device
  import opened Pipeline
  import opened Ownership
  import opened History
  import opened Finalisation
  import opened Content
  import opened Destinations
  import opened Progress

  ghost predicate Inv(c: Config, s: State) {
    && WellPlanned(c) && Shape(c, s)
    && BufInv(c, s) && JobInv(c, s) && RemainingInv(c, s) && LockInv(c, s)
    && HistoryInv(c, s) && FinalInv(c, s) && BufferInv(c, s) && DestinationInv(c, s)
    && TrafficInv(s) && IdleInv(c, s) && SpoilInv(s)
  }

  // ---- initially -----------------------------------------------------------

  lemma {:induction false} SumOfIndices(n: nat, b: nat)
    ensures Sum<nat>(Indices(n), IsBuf(b)) == Bit(b < n)
  {
    if n > 0 {
      SumOfIndices(n - 1, b);
      var last: nat := n - 1;
      assert Indices(n) == Indices(last) + [last];
      SumAppend<nat>(Indices(last), last, IsBuf(b));
      assert IsBuf(b)(last) == Bit(last == b);
    }
  }

  lemma InitCounts(c: Config, s: State)
    requires WellPlanned(c) && Init(c, s)
    ensures BufInv(c, s) && JobInv(c, s) && RemainingInv(c, s) && LockInv(c, s) && TrafficInv(s)
  {
    forall b: nat | b < c.capacity ensures BufPlaces(s, b) == 1 {
      SumOfIndices(c.capacity, b);
      SumZero(s.pcs, InHand(b));
    }
    forall j: nat | j < |c.jobs| ensures JobPlaces(s, j) == 1 {
      SumZero(s.pcs, AtWork(j));
    }
    SumZero(s.pcs, Owing());
    SumZero(s.log, ReadLen());
    SumZero(s.log, WrittenLen());
  }

  lemma InitFinal(c: Config, s: State)
    requires WellPlanned(c) && Init(c, s)
    ensures FinalInv(c, s)
  {
    forall f: nat | f < |c.files| ensures FileFinal(c, s, f) {
      SumZero(s.log, CreditsOf(f));
      SumZero(s.pcs, Trimming(f));
      SumZero(s.pcs, Settling(f));
    }
    SumZero(s.flog, CountedFile());
  }

  lemma InitInv(c: Config, s: State)
    requires WellPlanned(c) && Init(c, s)
    ensures Inv(c, s)
  {
    InitCounts(c, s);
    InitFinal(c, s);
    assert Shape(c, s);
    hide BufInv; hide JobInv; hide RemainingInv; hide LockInv; hide FinalInv; hide TrafficInv; hide Shape;
    hide WellPlanned;
  }

  // ---- always --------------------------------------------------------------

  /** What the single steps need to know about the moving worker. */
  lemma StepFacts(c: Config, s: State, w: nat, e: Event, t: State)
    requires Inv(c, s) && Next(c, s, w, e, t)
    ensures w < |s.pcs| && PcHistory(c, s, s.pcs[w]) && c.jobs != []
    ensures s.pcs[w].Finishing? && s.pcs[w].fin.Trim? ==>
              s.pcs[w].file < |s.entries| && s.entries[s.pcs[w].file].master && s.entries[s.pcs[w].file].prepared
  {
    if s.pcs[w].Finishing? && s.pcs[w].fin.Trim? {
      CompleteMeansPrepared(c, s, w);
    }
    var j := SumWitness(c.jobs, OfFile(0));
  }

  lemma CountsStep(c: Config, s: State, w: nat, e: Event, t: State)
    requires BufInv(c, s) && JobInv(c, s) && RemainingInv(c, s)
    requires Next(c, s, w, e, t) && c.jobs != [] && Shape(c, t)
    ensures BufInv(c, t) && JobInv(c, t) && RemainingInv(c, t)
  {
    hide Next; hide RemainingInv; hide Shape; hide WellPlanned; hide BufPlaces; hide JobPlaces;
    forall b: nat | b < c.capacity ensures BufPlaces(t, b) == 1 {
      BufferStep(c, s, w, e, t, b);
    }
    forall j: nat | j < |c.jobs| ensures j < |t.log| && JobPlaces(t, j) == 1 {
      JobStep(c, s, w, e, t, j);
    }
    LogLength(c, t);
    JobStep(c, s, w, e, t, 0);
  }

  lemma InvStep(c: Config, s: State, w: nat, e: Event, t: State)
    requires Inv(c, s) && Next(c, s, w, e, t)
    ensures Inv(c, t)
  {
    hide WellPlanned; hide Shape; hide BufInv; hide JobInv; hide LockInv; hide HistoryInv; hide FinalInv;
    hide BufferInv;
    hide DestinationInv; hide TrafficInv; hide IdleInv; hide SpoilInv; hide Next; hide PcHistory; hide RemainingInv;
    StepFacts(c, s, w, e, t);
    ShapeStep(c, s, w, e, t);
    CountsStep(c, s, w, e, t);
    LockStep(c, s, w, e, t);
    HistoryStep(c, s, w, e, t);
    FinalStep(c, s, w, e, t);
    BufferInvStep(c, s, w, e, t);
    DestinationStep(c, s, w, e, t);
    TrafficStep(c, s, w, e, t);
    IdleInvStep(c, s, w, e, t);
    SpoilStep(c, s, w, e, t);
    KeepsPlan(c, s, w, e, t);
  }

  lemma LogLength(c: Config, t: State)
    requires Shape(c, t)
    ensures |t.log| == |c.jobs|
  {}

  lemma KeepsPlan(c: Config, s: State, w: nat, e: Event, t: State)
    requires Next(c, s, w, e, t)
    ensures WellPlanned(c)
  {}

  // ---- runs ----------------------------------------------------------------

  datatype Run = Run(states: seq<State>, workers: seq<nat>, events: seq<Event>)

  ghost predicate IsRun(c: Config, r: Run) {
    && |r.states| == |r.workers| + 1 == |r.events| + 1
    && WellPlanned(c) && Init(c, r.states[0])
    && forall i: nat :: i < |r.workers| ==> Next(c, r.states[i], r.workers[i], r.events[i], r.states[i + 1])
  }

  ghost function Last(r: Run): State
    requires r.states != []
  {
    r.states[|r.states| - 1]
  }

  /** Every state of every run satisfies the invariant, whatever the schedule and the I/O outcomes. */
  lemma {:induction false} AlwaysInv(c: Config, r: Run, n: nat)
    requires IsRun(c, r) && n < |r.states|
    ensures Inv(c, r.states[n])
  {
    hide Inv; hide Init; hide Next; hide WellPlanned;
    if n == 0 {
      InitInv(c, r.states[0]);
    } else {
      AlwaysInv(c, r, n - 1);
      InvStep(c, r.states[n - 1], r.workers[n - 1], r.events[n - 1], r.states[n]);
    }
  }

  // ---- conservation --------------------------------------------------------

  lemma BytesInOrder(c: Config, s: State)
    requires Inv(c, s)
    ensures s.bytesWritten <= s.bytesRead <= Sum(c.jobs, JobLen())
  {
    forall j | 0 <= j < |s.log| ensures WrittenLen()(s.log[j]) <= ReadLen()(s.log[j]) {
      assert JobHistory(c, s, j);
    }
    hide Sum;
    SumMonotone(s.log, WrittenLen(), ReadLen());
    SumMonotone(s.log, ReadLen(), LogLen());
    LogLenIsJobLen(c.jobs, s.log);
  }

  lemma {:induction false} LogLenIsJobLen(jobs: seq<Job>, log: seq<JobLog>)
    requires |jobs| == |log| && forall j :: 0 <= j < |log| ==> log[j].job == jobs[j]
    ensures Sum(log, LogLen()) == Sum(jobs, JobLen())
  {
    if |log| > 0 {
      LogLenIsJobLen(jobs[..|jobs| - 1], log[..|log| - 1]);
    }
  }

  /** `remaining` never underflows: it is positive whenever a worker still owes a decrement. */
  lemma CounterIsPositive(c: Config, s: State, w: nat)
    requires Inv(c, s) && w < |s.pcs| && Owes(s.pcs[w])
    ensures s.remaining > 0
  {
    SumAtLeast(s.pcs, w, Owing());
  }

  /** No two workers hold one buffer, work on one job or are inside one file's lock. */
  lemma Exclusive(c: Config, s: State, v: nat, w: nat, b: nat, j: nat, f: nat)
    requires Inv(c, s) && v < |s.pcs| && w < |s.pcs| && v != w && f < |c.files|
    ensures !(Holds(s.pcs[v], b) && Holds(s.pcs[w], b))
    ensures !(WorksOn(s.pcs[v], j) && WorksOn(s.pcs[w], j))
    ensures !(Inside(s.pcs[v], f) && Inside(s.pcs[w], f))
  {
    assert PcOk(c, s.pcs[v]);
    assert Inside(s.pcs[v], f) <==> s.entries[f].lock == LockedBy(v);
    assert Inside(s.pcs[w], f) <==> s.entries[f].lock == LockedBy(w);
    if Holds(s.pcs[v], b) {
      SoleHolder(s, v, b);
    }
    if WorksOn(s.pcs[v], j) {
      SoleWorker(s, v, j);
    }
  }

  // ---- preparation and finalisation, step by step --------------------------

  /** The truncating create and the sizing only ever hit a file without a single write attempt. */
  lemma PreparationDestroysNothing(c: Config, s: State, w: nat, k: Chunk, p: WritePC)
    requires Inv(c, s) && w < |s.pcs| && s.pcs[w] == Writing(k, p)
    ensures p.CreateDst? || p.SizeDst? ==>
              !s.entries[k.file].prepared
              && forall j :: 0 <= j < |c.jobs| && c.jobs[j].file == k.file ==> s.log[j].result.Untried?
    ensures p.WriteDst? ==>
              s.entries[k.file].prepared && s.entries[k.file].master
              && s.flog[k.file].trim.Untrimmed? && s.log[k.job].result.Untried?
  {
    assert PcDestination(c, s, s.pcs[w]) && FileContent(c, s, k.file) && PcHistory(c, s, s.pcs[w]);
    OwnJobIsOpen(c, s, w);
    assert WorksOn(s.pcs[w], k.job) && FileFinal(c, s, k.file);
  }

  /** The trim finds its handle, comes after every chunk's write attempt, and comes once. */
  lemma TrimIsLast(c: Config, s: State, w: nat, f: nat)
    requires Inv(c, s) && w < |s.pcs| && s.pcs[w] == Finishing(f, Trim)
    ensures s.entries[f].master && s.flog[f].trim.Untrimmed? && !s.flog[f].settled
    ensures forall j :: 0 <= j < |c.jobs| && c.jobs[j].file == f ==>
              s.log[j].fate.Credited? && !s.log[j].result.Untried?
    ensures forall v :: 0 <= v < |s.pcs| && v != w ==> !PreTrim(s.pcs[v], f) && !PreCount(s.pcs[v], f)
  {
    CompleteMeansPrepared(c, s, w);
    assert FileFinal(c, s, f);
    hide Sum;
    SumAtLeast(s.pcs, w, Trimming(f));
    DoneAtMostChunks(c, s, f);
    forall j | 0 <= j < |c.jobs| && c.jobs[j].file == f ensures !s.log[j].result.Untried? {
      assert JobHistory(c, s, j);
    }
    forall v | 0 <= v < |s.pcs| && v != w ensures !PreTrim(s.pcs[v], f) && !PreCount(s.pcs[v], f) {
      if v < w { SumAtLeastTwo(s.pcs, v, w, Trimming(f)); } else { SumAtLeastTwo(s.pcs, w, v, Trimming(f)); }
      SumAtLeast(s.pcs, v, Settling(f));
    }
  }

  /** A file with a dropped chunk never reaches finalisation. */
  lemma DroppedFileIsNeverFinalised(c: Config, s: State, j: nat)
    requires Inv(c, s) && j < |c.jobs| && s.log[j].fate.Dropped?
    ensures s.flog[c.jobs[j].file].trim.Untrimmed? && !s.flog[c.jobs[j].file].counted
    ensures s.entries[c.jobs[j].file].done < c.chunks[c.jobs[j].file]
  {
    assert JobFits(c, c.jobs[j]) && FileFinal(c, s, c.jobs[j].file);
    DoneAtMostChunks(c, s, c.jobs[j].file);
  }

  // ---- byte exactness ------------------------------------------------------

  /** The byte that arrives at position `i` of a job: read, zero filled, or left by the preparation. */
  ghost function Arrived(c: Config, l: JobLog, prep: seq<byte>, i: nat): byte
    requires l.result.Wrote? && ReadableAt(c, l.job, l.got) && l.job.offset + i < |prep|
  {
    if l.result.put <= i then prep[l.job.offset + i]
    else if i < l.got then c.files[l.job.file].source[l.job.offset + i]
    else 0
  }

  lemma CellBytes(c: Config, l: JobLog, prep: seq<byte>, n: nat, i: nat)
    requires l.result.Wrote? && ReadableAt(c, l.job, l.got) && l.result.put <= JobPadded(c, l.job)
    requires i < n <= JobPadded(c, l.job) && l.job.offset + n <= |prep|
    ensures Cell(c, l.job, l.got, l.result.put, prep, n)[i] == Arrived(c, l, prep, i)
  {}

  /** Byte `i` of the padded range of a job is there in a file of length `size`. */
  predicate Within(c: Config, job: Job, size: nat, i: nat) {
    i < JobPadded(c, job) && job.offset + i < size
  }

  /** What is known of a counted file: every chunk was written, and where each byte comes from, padding included. */
  ghost predicate Delivered(c: Config, s: State, f: nat)
    requires Inv(c, s) && f < |c.files|
  {
    var dst := c.files[f].dst;
    && dst in s.disk
    && |s.disk[dst]| == (if s.flog[f].trim.Trimmed? then c.files[f].size else PaddedSize(c, f))
    && |s.flog[f].prep| == PaddedSize(c, f) >= c.files[f].size
    && forall j :: 0 <= j < |c.jobs| && c.jobs[j].file == f ==>
         && s.log[j].result.Wrote? && ReadableAt(c, c.jobs[j], s.log[j].got)
         && (forall i: nat :: Within(c, c.jobs[j], |s.disk[dst]|, i) ==>
               s.disk[dst][c.jobs[j].offset + i] == Arrived(c, s.log[j], s.flog[f].prep, i))
  }

  lemma CountedIsDelivered(c: Config, s: State, f: nat)
    requires Inv(c, s) && f < |c.files| && s.flog[f].counted
    ensures Delivered(c, s, f)
  {
    assert FileFinal(c, s, f) && FileContent(c, s, f);
    DoneAtMostChunks(c, s, f);
    var dst := c.files[f].dst;
    RoundUpIsLeastMultiple(c.files[f].size, c.align);
    var j0 := SumWitness(c.jobs, OfFile(f));
    assert JobHistory(c, s, j0);
    forall j | 0 <= j < |c.jobs| && c.jobs[j].file == f
      ensures s.log[j].result.Wrote? && ReadableAt(c, c.jobs[j], s.log[j].got)
      ensures forall i: nat :: Within(c, c.jobs[j], |s.disk[dst]|, i) ==>
                s.disk[dst][c.jobs[j].offset + i] == Arrived(c, s.log[j], s.flog[f].prep, i)
    {
      CountedChunk(c, s, f, j);
    }
  }

  lemma CountedChunk(c: Config, s: State, f: nat, j: nat)
    requires WellPlanned(c) && Shape(c, s) && f < |c.files| && j < |c.jobs| && c.jobs[j].file == f
    requires FileContent(c, s, f) && JobHistory(c, s, j) && s.log[j].fate.Credited?
    requires s.entries[f].prepared && !s.entries[f].failed
    ensures s.log[j].result.Wrote? && ReadableAt(c, c.jobs[j], s.log[j].got)
    ensures forall i: nat :: Within(c, c.jobs[j], |s.disk[c.files[f].dst]|, i) ==>
              s.disk[c.files[f].dst][c.jobs[j].offset + i] == Arrived(c, s.log[j], s.flog[f].prep, i)
  {
    var l, d, prep := s.log[j], s.disk[c.files[f].dst], s.flog[f].prep;
    assert CellOk(c, d, prep, l);
    var n := Width(c, l.job, |d|);
    forall i: nat | Within(c, l.job, |d|, i) ensures d[l.job.offset + i] == Arrived(c, l, prep, i) {
      CellBytes(c, l, prep, n, i);
      assert d[l.job.offset..l.job.offset + n][i] == d[l.job.offset + i];
    }
  }

  /**
   What the operations' counts have to say for byte `i` of a job to be kept: the write took it, and
   the read returned it or it is zero anyway; or the write left it and preparation happened to have it.
   */
  ghost predicate Kept(c: Config, l: JobLog, prep: seq<byte>, i: nat)
    requires l.result.Wrote? && l.job.file < |c.files| && l.job.offset + i < |prep|
    requires l.job.offset + i < |c.files[l.job.file].source|
  {
    var at := l.job.offset + i;
    if i < l.result.put then i < l.got || c.files[l.job.file].source[at] == 0
    else prep[at] == c.files[l.job.file].source[at]
  }

  ghost predicate AllKept(c: Config, s: State, f: nat)
    requires Inv(c, s) && f < |c.files| && Delivered(c, s, f) && |c.files[f].source| == |s.disk[c.files[f].dst]|
  {
    forall j, i: nat :: 0 <= j < |c.jobs| && c.jobs[j].file == f && Within(c, c.jobs[j], |c.files[f].source|, i) ==>
      Kept(c, s.log[j], s.flog[f].prep, i)
  }

  lemma KeptMeansArrived(c: Config, l: JobLog, prep: seq<byte>, i: nat)
    requires l.result.Wrote? && ReadableAt(c, l.job, l.got) && l.job.offset + i < |prep|
    requires l.job.offset + i < |c.files[l.job.file].source|
    ensures Kept(c, l, prep, i) <==> Arrived(c, l, prep, i) == c.files[l.job.file].source[l.job.offset + i]
  {}

  /**
   A counted file equals its source exactly when the source is as long as the file was left (the
   scanned size if the trim succeeded, that size rounded up otherwise) and the counts that reads and
   writes reported keep every byte, those of the padding included.
   */
  lemma ExactlyWhenIntact(c: Config, s: State, f: nat)
    requires Inv(c, s) && f < |c.files| && s.flog[f].counted
    ensures Delivered(c, s, f)
    ensures s.disk[c.files[f].dst] == c.files[f].source <==>
              |c.files[f].source| == (if s.flog[f].trim.Trimmed? then c.files[f].size else PaddedSize(c, f))
              && AllKept(c, s, f)
  {
    CountedIsDelivered(c, s, f);
    if |c.files[f].source| == |s.disk[c.files[f].dst]| {
      if AllKept(c, s, f) {
        AllBytesArrived(c, s, f);
      }
      if s.disk[c.files[f].dst] == c.files[f].source {
        SameBytesAreKept(c, s, f);
      }
    }
  }

  lemma SameBytesAreKept(c: Config, s: State, f: nat)
    requires Inv(c, s) && f < |c.files| && Delivered(c, s, f)
    requires s.disk[c.files[f].dst] == c.files[f].source
    ensures AllKept(c, s, f)
  {
    forall j, i: nat | 0 <= j < |c.jobs| && c.jobs[j].file == f && Within(c, c.jobs[j], |c.files[f].source|, i)
      ensures Kept(c, s.log[j], s.flog[f].prep, i)
    {
      assert s.log[j].job == c.jobs[j] && JobFits(c, c.jobs[j]);
      hide Inv; hide Arrived; hide Kept;
      assert s.disk[c.files[f].dst][c.jobs[j].offset + i] == Arrived(c, s.log[j], s.flog[f].prep, i);
      KeptMeansArrived(c, s.log[j], s.flog[f].prep, i);
    }
  }

  lemma AllBytesArrived(c: Config, s: State, f: nat)
    requires Inv(c, s) && f < |c.files| && Delivered(c, s, f) && |c.files[f].source| == |s.disk[c.files[f].dst]|
    requires AllKept(c, s, f)
    ensures s.disk[c.files[f].dst] == c.files[f].source
  {
    var source, d := c.files[f].source, s.disk[c.files[f].dst];
    forall k: nat | k < |d| ensures d[k] == source[k] {
      assert CoveredPadded(c, f, k);
      var j :| 0 <= j < |c.jobs| && c.jobs[j].file == f && CoversPadded(c.jobs[j], c.align, k);
      var i: nat := k - c.jobs[j].offset;
      assert s.log[j].job == c.jobs[j] && JobFits(c, c.jobs[j]);
      hide Inv; hide Arrived; hide CoveredPadded; hide Kept;
      assert Within(c, c.jobs[j], |d|, i);
      assert Kept(c, s.log[j], s.flog[f].prep, i);
      KeptMeansArrived(c, s.log[j], s.flog[f].prep, i);
      assert d[c.jobs[j].offset + i] == Arrived(c, s.log[j], s.flog[f].prep, i);
    }
  }

  lemma NoSharedByte(c: Config, i: nat, j: nat, k: nat)
    requires WellPlanned(c) && i < j < |c.jobs| && c.jobs[i].file == c.jobs[j].file
    ensures !(CoversPadded(c.jobs[i], c.align, k) && CoversPadded(c.jobs[j], c.align, k))
  {
    assert Apart(c, c.jobs[i], c.jobs[j]);
  }

  /** Only the padding of the last job lies past its own bytes, and past the scanned size. */
  lemma PaddingIsPast(c: Config, j: nat, i: nat)
    requires WellPlanned(c) && j < |c.jobs|
    ensures Within(c, c.jobs[j], c.files[c.jobs[j].file].size, i) <==> i < c.jobs[j].len
  {
    var job := c.jobs[j];
    assert JobFits(c, job);
    var k := job.offset + i;
    if k < c.files[job.file].size {
      assert Covered(c, job.file, k);
      var l :| 0 <= l < |c.jobs| && Covers(c.jobs[l], job.file, k);
      assert JobFits(c, c.jobs[l]) && CoversPadded(c.jobs[l], c.align, k);
      if j < l {
        NoSharedByte(c, j, l, k);
      } else if l < j {
        NoSharedByte(c, l, j, k);
      }
    }
  }

  /** A trimmed copy has the scanned size, so it cannot equal a source that has another one. */
  lemma ResizedSourceDiffers(c: Config, s: State, f: nat)
    requires Inv(c, s) && f < |c.files| && s.flog[f].counted && s.flog[f].trim.Trimmed?
    requires |c.files[f].source| != c.files[f].size
    ensures c.files[f].dst in s.disk && s.disk[c.files[f].dst] != c.files[f].source
  {
    CountedIsDelivered(c, s, f);
  }

  /** Every operation on the job moved all the bytes it was asked for. */
  predicate Whole(l: JobLog) {
    l.job.len <= l.got && (l.result.Wrote? ==> l.job.len <= l.result.put)
  }

  /** The copy is byte exact: counted, trimmed, and no operation fell short. */
  lemma ByteExact(c: Config, s: State, f: nat)
    requires Inv(c, s) && f < |c.files| && s.flog[f].counted && s.flog[f].trim.Trimmed?
    requires |c.files[f].source| == c.files[f].size
    requires forall j :: 0 <= j < |c.jobs| && c.jobs[j].file == f ==> Whole(s.log[j])
    ensures c.files[f].dst in s.disk && s.disk[c.files[f].dst] == c.files[f].source
  {
    ExactlyWhenIntact(c, s, f);
    forall j, i: nat | 0 <= j < |c.jobs| && c.jobs[j].file == f && Within(c, c.jobs[j], c.files[f].size, i)
      ensures Kept(c, s.log[j], s.flog[f].prep, i)
    {
      PaddingIsPast(c, j, i);
      assert s.log[j].job == c.jobs[j] && Whole(s.log[j]);
    }
  }
}
