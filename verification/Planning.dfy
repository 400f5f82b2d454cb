/** Cutting the bulk files into jobs. */
module Planning {
  import opened Counting
  import opened Device
  import opened Pipeline
  import opened Progress

  const U32 := 0x1_0000_0000

  /** The cast `as u32`. */
  function AsU32(n: nat): nat {
    n % U32
  }

  function ChunkCount(size: nat, block: nat): (n: nat)
    requires block > 0
    ensures n >= 1
  {
    var n := DivCeil(size, block);
    if n < 1 then 1 else n
  }

  /** Every chunk starts inside the file, and only the last one may be short. */
  lemma ChunkStart(size: nat, block: nat, k: nat)
    requires block > 0 && k < ChunkCount(size, block)
    ensures k * block <= size
    ensures k + 1 < ChunkCount(size, block) ==> k * block + block <= size
    ensures k + 1 == ChunkCount(size, block) ==> size <= k * block + block
  {
    RoundUpIsLeastMultiple(size, block);
    assert size <= DivCeil(size, block) * block < size + block;
    Distribute(k, 1, block);
    if k + 1 < ChunkCount(size, block) {
      Distribute(k + 1, 1, block);
      MulMonotone(k + 2, DivCeil(size, block), block);
    } else if k > 0 {
      assert k + 1 == DivCeil(size, block);
    }
  }

  function ChunkJob(f: nat, size: nat, block: nat, k: nat): Job
    requires block > 0 && k < ChunkCount(size, block)
  {
    ChunkStart(size, block, k);
    Job(AsU32(f), k * block, AsU32(Min(size - k * block, block)))
  }

  /** The first `n` chunks of a file. */
  function FileJobs(f: nat, size: nat, block: nat, n: nat): (jobs: seq<Job>)
    requires block > 0 && n <= ChunkCount(size, block)
    ensures |jobs| == n && forall k :: 0 <= k < n ==> jobs[k] == ChunkJob(f, size, block, k)
  {
    if n == 0 then [] else FileJobs(f, size, block, n - 1) + [ChunkJob(f, size, block, n - 1)]
  }

  /** All jobs of the first `n` files, file by file. */
  function AllJobs(files: seq<FileSpec>, block: nat, n: nat): seq<Job>
    requires block > 0 && n <= |files|
  {
    if n == 0 then []
    else
      var size := files[n - 1].size;
      AllJobs(files, block, n - 1) + FileJobs(n - 1, size, block, ChunkCount(size, block))
  }

  function AllChunks(files: seq<FileSpec>, block: nat, n: nat): (chunks: seq<nat>)
    requires block > 0 && n <= |files|
    ensures |chunks| == n && forall f :: 0 <= f < n ==> chunks[f] == ChunkCount(files[f].size, block)
  {
    if n == 0 then [] else AllChunks(files, block, n - 1) + [ChunkCount(files[n - 1].size, block)]
  }

  /** The planning loops: one job per block of every file, at least one job per file. */
  method PlanJobs(files: seq<FileSpec>, block: nat) returns (jobs: seq<Job>, chunks: seq<nat>)
    requires block > 0
    ensures jobs == AllJobs(files, block, |files|)
    ensures chunks == AllChunks(files, block, |files|)
  {
    jobs, chunks := [], [];
    for i := 0 to |files|
      invariant jobs == AllJobs(files, block, i)
      invariant chunks == AllChunks(files, block, i)
    {
      var size := files[i].size;
      var n := if DivCeil(size, block) > 1 then DivCeil(size, block) else 1;
      ghost var before := jobs;
      for c := 0 to n
        invariant jobs == before + FileJobs(i, size, block, c)
      {
        var offset := c * block;
        ChunkStart(size, block, c);
        var rest := size - offset;
        var len := AsU32(if rest <= block then rest else block);
        jobs := jobs + [Job(AsU32(i), offset, len)];
        assert jobs == before + (FileJobs(i, size, block, c) + [ChunkJob(i, size, block, c)]);
      }
      chunks := chunks + [n];
    }
  }

  // ---- one file ------------------------------------------------------------

  ghost predicate GoodBlock(block: nat, align: nat) {
    0 < block < U32 && align > 0 && block % align == 0
  }

  /** The block size the copier settles on serves exactly when it is positive and fits 32 bits. */
  lemma ChosenBlock(chosen: nat, align: nat)
    requires align > 0
    ensures GoodBlock(RoundUp(chosen, align), align) <==> chosen > 0 && RoundUp(chosen, align) < 0x1_0000_0000
    ensures GoodBlock(RoundUp(chosen, align), align) ==> GoodBlock(RoundUp(chosen, align), 1)
  {
    RoundUpIsLeastMultiple(chosen, align);
    if chosen == 0 {
      assert 0 <= 0 * align;
    }
  }

  lemma FullBlock(block: nat, align: nat, len: nat)
    requires GoodBlock(block, align) && len <= block
    ensures len <= RoundUp(len, align) <= block
  {
    RoundUpIsLeastMultiple(len, align);
    assert block == (block / align) * align;
  }

  lemma ChunkOffsetShifts(block: nat, align: nat, k: nat, len: nat)
    requires GoodBlock(block, align)
    ensures RoundUp(k * block + len, align) == k * block + RoundUp(len, align)
    ensures (k * block) % align == 0
  {
    var q := block / align;
    calc {
      k * block;
      k * (q * align);
      (k * q) * align;
    }
    RoundUpShift(k * q, len, align);
    ModOfMultiple(k * q, align);
  }

  /** Chunk `k` of a file: its exact length, and where its padded range ends. */
  lemma ChunkRange(f: nat, size: nat, block: nat, align: nat, k: nat)
    requires GoodBlock(block, align) && k < ChunkCount(size, block) && f < U32
    ensures var job := ChunkJob(f, size, block, k);
      && job.file == f && job.offset == k * block <= size
      && job.len == Min(size - k * block, block)
      && job.len <= RoundUp(job.len, align) <= block
      && job.offset + RoundUp(job.len, align) <= RoundUp(size, align)
      && (k + 1 < ChunkCount(size, block) ==> job.len == block == RoundUp(job.len, align))
      && (k + 1 == ChunkCount(size, block) ==>
            job.offset + job.len == size && job.offset + RoundUp(job.len, align) == RoundUp(size, align))
  {
    ChunkStart(size, block, k);
    var len := Min(size - k * block, block);
    FullBlock(block, align, len);
    ChunkOffsetShifts(block, align, k, len);
    RoundUpMonotone(k * block + len, size, align);
  }

  // ---- the whole plan ------------------------------------------------------

  ghost predicate Plannable(files: seq<FileSpec>, block: nat, align: nat) {
    && GoodBlock(block, align) && files != [] && |files| <= U32
    && forall f, g :: 0 <= f < g < |files| ==> files[f].dst != files[g].dst
  }

  /** The chunk that job `j` of the plan stands for. */
  ghost predicate IsChunk(files: seq<FileSpec>, block: nat, job: Job, f: nat, k: nat)
    requires block > 0
  {
    f < |files| && k < ChunkCount(files[f].size, block) && job == ChunkJob(f, files[f].size, block, k)
  }

  lemma {:induction false} JobsAreChunks(files: seq<FileSpec>, block: nat, n: nat, j: nat) returns (f: nat, k: nat)
    requires block > 0 && n <= |files| && j < |AllJobs(files, block, n)|
    ensures f < n && IsChunk(files, block, AllJobs(files, block, n)[j], f, k)
  {
    var before := AllJobs(files, block, n - 1);
    if j < |before| {
      f, k := JobsAreChunks(files, block, n - 1, j);
    } else {
      f, k := n - 1, j - |before|;
    }
  }

  lemma {:induction false} ChunksAreJobs(files: seq<FileSpec>, block: nat, n: nat, f: nat, k: nat) returns (j: nat)
    requires block > 0 && f < n <= |files| && k < ChunkCount(files[f].size, block)
    ensures j < |AllJobs(files, block, n)| && AllJobs(files, block, n)[j] == ChunkJob(f, files[f].size, block, k)
  {
    var before := AllJobs(files, block, n - 1);
    if f < n - 1 {
      j := ChunksAreJobs(files, block, n - 1, f, k);
    } else {
      j := |before| + k;
    }
  }

  lemma ChunksApart(c: Config, f: nat, size: nat, k: nat, l: nat)
    requires GoodBlock(c.block, c.align) && f < U32 && k < l < ChunkCount(size, c.block)
    ensures Apart(c, ChunkJob(f, size, c.block, k), ChunkJob(f, size, c.block, l))
  {
    ChunkRange(f, size, c.block, c.align, k);
    ChunkRange(f, size, c.block, c.align, l);
    MulMonotone(k + 1, l, c.block);
    Distribute(k, 1, c.block);
  }

  ghost predicate AllApart(c: Config, jobs: seq<Job>) {
    forall i, j :: 0 <= i < j < |jobs| ==> Apart(c, jobs[i], jobs[j])
  }

  lemma AppendApart(c: Config, before: seq<Job>, mine: seq<Job>)
    requires AllApart(c, before) && AllApart(c, mine)
    requires forall i, j :: 0 <= i < |before| && 0 <= j < |mine| ==> before[i].file != mine[j].file
    ensures AllApart(c, before + mine)
  {
    var all := before + mine;
    forall i, j | 0 <= i < j < |all| ensures Apart(c, all[i], all[j]) {
      if i < |before| <= j {
        assert before[i].file != mine[j - |before|].file;
      } else if |before| <= i {
        assert Apart(c, mine[i - |before|], mine[j - |before|]);
      }
    }
  }

  lemma FileApart(c: Config, f: nat, size: nat, n: nat)
    requires GoodBlock(c.block, c.align) && f < U32 && n <= ChunkCount(size, c.block)
    ensures AllApart(c, FileJobs(f, size, c.block, n))
  {
    var jobs := FileJobs(f, size, c.block, n);
    forall k: nat, l: nat | k < l < |jobs| ensures Apart(c, jobs[k], jobs[l]) {
      ChunksApart(c, f, size, k, l);
    }
  }

  lemma FilesBelow(files: seq<FileSpec>, block: nat, n: nat)
    requires block > 0 && n <= |files| <= U32
    ensures forall i :: 0 <= i < |AllJobs(files, block, n)| ==> AllJobs(files, block, n)[i].file < n
  {
    forall i | 0 <= i < |AllJobs(files, block, n)| ensures AllJobs(files, block, n)[i].file < n {
      var f, k := JobsAreChunks(files, block, n, i);
    }
  }

  lemma {:induction false} JobsApart(c: Config, n: nat)
    requires Plannable(c.files, c.block, c.align) && n <= |c.files|
    ensures AllApart(c, AllJobs(c.files, c.block, n))
  {
    if n > 0 {
      JobsApart(c, n - 1);
      LastFileApart(c, n);
    }
  }

  lemma LastFileApart(c: Config, n: nat)
    requires Plannable(c.files, c.block, c.align) && 0 < n <= |c.files|
    requires AllApart(c, AllJobs(c.files, c.block, n - 1))
    ensures AllApart(c, AllJobs(c.files, c.block, n))
  {
    var size := c.files[n - 1].size;
    var before, mine := AllJobs(c.files, c.block, n - 1), FileJobs(n - 1, size, c.block, ChunkCount(size, c.block));
    assert AllJobs(c.files, c.block, n) == before + mine;
    FilesBelow(c.files, c.block, n - 1);
    FileApart(c, n - 1, size, ChunkCount(size, c.block));
    assert forall j :: 0 <= j < |mine| ==> mine[j].file == n - 1;
    hide AllApart; hide AllJobs; hide FileJobs; hide ChunkCount; hide Plannable;
    AppendApart(c, before, mine);
  }

  lemma JobOfFile(g: nat, size: nat, block: nat, k: nat)
    requires block > 0 && k < ChunkCount(size, block) && g < U32
    ensures ChunkJob(g, size, block, k).file == g
  {}

  lemma {:induction false} CountInFile(g: nat, size: nat, block: nat, n: nat, f: nat)
    requires block > 0 && n <= ChunkCount(size, block) && g < U32
    ensures Sum(FileJobs(g, size, block, n), OfFile(f)) == (if f == g then n else 0)
  {
    hide Sum; hide ChunkCount; hide ChunkJob;
    if n > 0 {
      CountInFile(g, size, block, n - 1, f);
      SumAppend(FileJobs(g, size, block, n - 1), ChunkJob(g, size, block, n - 1), OfFile(f));
      JobOfFile(g, size, block, n - 1);
    } else {
      SumZero(FileJobs(g, size, block, 0), OfFile(f));
    }
  }

  lemma LastCount(before: seq<Job>, mine: seq<Job>, g: nat, size: nat, block: nat, f: nat)
    requires block > 0 && g < U32 && mine == FileJobs(g, size, block, ChunkCount(size, block))
    ensures Sum(before + mine, OfFile(f)) == Sum(before, OfFile(f)) + (if f == g then ChunkCount(size, block) else 0)
  {
    hide FileJobs; hide Sum;
    CountInFile(g, size, block, ChunkCount(size, block), f);
    SumConcat(before, mine, OfFile(f));
  }

  lemma {:induction false} CountInPlan(files: seq<FileSpec>, block: nat, n: nat, f: nat)
    requires block > 0 && n <= |files| <= U32
    ensures Sum(AllJobs(files, block, n), OfFile(f)) == (if f < n then ChunkCount(files[f].size, block) else 0)
  {
    if n > 0 {
      var size := files[n - 1].size;
      var before, mine := AllJobs(files, block, n - 1), FileJobs(n - 1, size, block, ChunkCount(size, block));
      assert AllJobs(files, block, n) == before + mine;
      hide FileJobs; hide Sum; hide ChunkCount;
      CountInPlan(files, block, n - 1, f);
      LastCount(before, mine, n - 1, size, block, f);
    }
  }

  /** Position `k` of a file lies in exactly the chunk `k / block`. */
  lemma ChunkOf(f: nat, size: nat, block: nat, align: nat, k: nat) returns (q: nat)
    requires GoodBlock(block, align) && f < U32 && k < size
    ensures q < ChunkCount(size, block) && Covers(ChunkJob(f, size, block, q), f, k)
  {
    q := k / block;
    assert k == block * q + k % block;
    RoundUpIsLeastMultiple(size, block);
    if q >= DivCeil(size, block) {
      MulMonotone(DivCeil(size, block), q, block);
      assert false;
    }
    ChunkRange(f, size, block, align, q);
  }

  ghost predicate Plans(c: Config) {
    && Plannable(c.files, c.block, c.align) && c.workers > 0 && c.capacity > 0
    && c.jobs == AllJobs(c.files, c.block, |c.files|)
    && c.chunks == AllChunks(c.files, c.block, |c.files|)
  }

  lemma PlanCovers(c: Config, f: nat, k: nat)
    requires Plans(c) && f < |c.files| && k < c.files[f].size
    ensures Covered(c, f, k)
  {
    var q := ChunkOf(f, c.files[f].size, c.block, c.align, k);
    var j := ChunksAreJobs(c.files, c.block, |c.files|, f, q);
    assert Covers(c.jobs[j], f, k);
  }

  lemma PlanCoversPadded(c: Config, f: nat, k: nat)
    requires Plans(c) && f < |c.files| && k < PaddedSize(c, f)
    ensures CoveredPadded(c, f, k)
  {
    var q := PaddedRangesTile(f, c.files[f].size, c.block, c.align, k);
    var j := ChunksAreJobs(c.files, c.block, |c.files|, f, q);
    assert c.jobs[j].file == f && CoversPadded(c.jobs[j], c.align, k);
  }

  lemma PlanFits(c: Config, j: nat)
    requires Plans(c) && j < |c.jobs|
    ensures JobFits(c, c.jobs[j])
  {
    var f, k := JobsAreChunks(c.files, c.block, |c.files|, j);
    ChunkRange(f, c.files[f].size, c.block, c.align, k);
  }

  /** The planned jobs meet everything the pipeline asks of its plan. */
  lemma PlanIsWellFormed(c: Config)
    requires Plans(c)
    ensures WellPlanned(c)
  {
    forall j: nat | j < |c.jobs| ensures JobFits(c, c.jobs[j]) {
      PlanFits(c, j);
    }
    JobsApart(c, |c.files|);
    forall f: nat | f < |c.files| ensures c.chunks[f] == Sum(c.jobs, OfFile(f)) && c.chunks[f] > 0 {
      CountInPlan(c.files, c.block, |c.files|, f);
    }
    forall f: nat, k: nat | f < |c.files| && k < c.files[f].size ensures Covered(c, f, k) {
      PlanCovers(c, f, k);
    }
    forall f: nat, k: nat | f < |c.files| && k < PaddedSize(c, f) ensures CoveredPadded(c, f, k) {
      PlanCoversPadded(c, f, k);
    }
  }

  // ---- the order of the jobs -----------------------------------------------

  /** Chunk by chunk within a file, file by file. */
  predicate Precedes(a: Job, b: Job) {
    a.file < b.file || (a.file == b.file && a.offset < b.offset)
  }

  ghost predicate InOrder(jobs: seq<Job>) {
    forall i, j :: 0 <= i < j < |jobs| ==> Precedes(jobs[i], jobs[j])
  }

  lemma FileInOrder(f: nat, size: nat, block: nat, n: nat)
    requires block > 0 && n <= ChunkCount(size, block) && f < U32
    ensures InOrder(FileJobs(f, size, block, n))
    ensures forall k :: 0 <= k < n ==> FileJobs(f, size, block, n)[k].file == f
  {
    forall i: nat, j: nat | i < j < n
      ensures Precedes(FileJobs(f, size, block, n)[i], FileJobs(f, size, block, n)[j])
    {
      MulMonotone(i + 1, j, block);
      Distribute(i, 1, block);
    }
  }

  /** The jobs come in the order of the list, and within a file from front to back. */
  lemma {:induction false} JobsInOrder(files: seq<FileSpec>, block: nat, n: nat)
    requires block > 0 && n <= |files| <= U32
    ensures InOrder(AllJobs(files, block, n))
  {
    if n > 0 {
      JobsInOrder(files, block, n - 1);
      FilesBelow(files, block, n - 1);
      var size := files[n - 1].size;
      FileInOrder(n - 1, size, block, ChunkCount(size, block));
      var before, mine := AllJobs(files, block, n - 1), FileJobs(n - 1, size, block, ChunkCount(size, block));
      assert AllJobs(files, block, n) == before + mine;
      hide AllJobs; hide FileJobs; hide ChunkCount;
      forall i, j | 0 <= i < j < |before + mine| ensures Precedes((before + mine)[i], (before + mine)[j]) {
        if i >= |before| {
          assert Precedes(mine[i - |before|], mine[j - |before|]);
        } else if j >= |before| {
          assert before[i].file < mine[j - |before|].file;
        }
      }
    }
  }

  // ---- exact tiling --------------------------------------------------------

  ghost function SpecSize(): FileSpec -> nat { (spec: FileSpec) => spec.size }

  lemma {:induction false} FileLength(f: nat, size: nat, block: nat, align: nat, n: nat)
    requires GoodBlock(block, align) && n <= ChunkCount(size, block) && f < U32
    ensures Sum(FileJobs(f, size, block, n), JobLen()) == (if n == ChunkCount(size, block) then size else n * block)
  {
    hide Sum; hide ChunkJob; hide ChunkCount; hide RoundUp;
    if n > 0 {
      FileLength(f, size, block, align, n - 1);
      ChunkLength(f, size, block, align, n - 1);
      SumAppend(FileJobs(f, size, block, n - 1), ChunkJob(f, size, block, n - 1), JobLen());
    } else {
      SumZero(FileJobs(f, size, block, 0), JobLen());
    }
  }

  lemma ChunkLength(f: nat, size: nat, block: nat, align: nat, k: nat)
    requires GoodBlock(block, align) && k < ChunkCount(size, block) && f < U32
    ensures k * block + ChunkJob(f, size, block, k).len
         == if k + 1 == ChunkCount(size, block) then size else (k + 1) * block
  {
    hide ChunkJob; hide ChunkCount; hide RoundUp;
    ChunkRange(f, size, block, align, k);
    Distribute(k, 1, block);
  }

  lemma SumOfLast<T>(xs: seq<T>, n: nat, weight: T -> nat)
    requires 0 < n <= |xs|
    ensures Sum(xs[..n], weight) == Sum(xs[..n - 1], weight) + weight(xs[n - 1])
  {
    assert xs[..n] == xs[..n - 1] + [xs[n - 1]];
    SumAppend(xs[..n - 1], xs[n - 1], weight);
  }

  lemma LastFileLength(files: seq<FileSpec>, block: nat, align: nat, n: nat)
    requires GoodBlock(block, align) && 0 < n <= |files| <= U32
    ensures Sum(AllJobs(files, block, n), JobLen()) == Sum(AllJobs(files, block, n - 1), JobLen()) + files[n - 1].size
  {
    var size := files[n - 1].size;
    var before, mine := AllJobs(files, block, n - 1), FileJobs(n - 1, size, block, ChunkCount(size, block));
    assert AllJobs(files, block, n) == before + mine;
    hide Sum; hide AllJobs; hide FileJobs; hide ChunkCount;
    FileLength(n - 1, size, block, align, ChunkCount(size, block));
    SumConcat(before, mine, JobLen());
  }

  /** The jobs' lengths add up to the files' sizes. */
  lemma {:induction false} PlanLength(files: seq<FileSpec>, block: nat, align: nat, n: nat)
    requires GoodBlock(block, align) && n <= |files| <= U32
    ensures Sum(AllJobs(files, block, n), JobLen()) == Sum(files[..n], SpecSize())
  {
    if n > 0 {
      PlanLength(files, block, align, n - 1);
      hide Sum; hide AllJobs; hide GoodBlock;
      LastFileLength(files, block, align, n);
      SumOfLast(files, n, SpecSize());
    }
  }

  /** Position `k` lies in the range of chunk `q`, and in no other. */
  lemma OneChunkPerByte(f: nat, size: nat, block: nat, align: nat, k: nat) returns (q: nat)
    requires GoodBlock(block, align) && f < U32 && k < size
    ensures q < ChunkCount(size, block) && Covers(ChunkJob(f, size, block, q), f, k)
    ensures forall p: nat :: p < ChunkCount(size, block) && Covers(ChunkJob(f, size, block, p), f, k) ==> p == q
  {
    q := ChunkOf(f, size, block, align, k);
    ChunkRange(f, size, block, align, q);
    forall p: nat | p < ChunkCount(size, block) && Covers(ChunkJob(f, size, block, p), f, k) ensures p == q {
      ChunkRange(f, size, block, align, p);
      Distribute(p, 1, block);
      Distribute(q, 1, block);
      if p < q {
        MulMonotone(p + 1, q, block);
      } else if q < p {
        MulMonotone(q + 1, p, block);
      }
    }
  }

  lemma PaddedRangesApart(f: nat, size: nat, block: nat, align: nat, p: nat, q: nat, k: nat)
    requires GoodBlock(block, align) && f < U32 && p < ChunkCount(size, block) && q < ChunkCount(size, block)
    requires CoversPadded(ChunkJob(f, size, block, p), align, k) && CoversPadded(ChunkJob(f, size, block, q), align, k)
    ensures p == q
  {
    ChunkRange(f, size, block, align, p);
    ChunkRange(f, size, block, align, q);
    Distribute(p, 1, block);
    Distribute(q, 1, block);
    if p < q {
      MulMonotone(p + 1, q, block);
    } else if q < p {
      MulMonotone(q + 1, p, block);
    }
  }

  /** The padded ranges tile exactly the length the destination is prepared with. */
  lemma PaddedRangesTile(f: nat, size: nat, block: nat, align: nat, k: nat) returns (q: nat)
    requires GoodBlock(block, align) && f < U32
    ensures k < RoundUp(size, align) ==>
              && q < ChunkCount(size, block) && CoversPadded(ChunkJob(f, size, block, q), align, k)
              && forall p: nat ::
                   p < ChunkCount(size, block) && CoversPadded(ChunkJob(f, size, block, p), align, k) ==> p == q
    ensures k >= RoundUp(size, align) ==>
              forall p: nat :: p < ChunkCount(size, block) ==> !CoversPadded(ChunkJob(f, size, block, p), align, k)
  {
    RoundUpIsLeastMultiple(size, align);
    var last := ChunkCount(size, block) - 1;
    ChunkRange(f, size, block, align, last);
    if k < size {
      q := ChunkOf(f, size, block, align, k);
      ChunkRange(f, size, block, align, q);
    } else {
      q := last;
    }
    forall p: nat | p < ChunkCount(size, block) && CoversPadded(ChunkJob(f, size, block, p), align, k)
      ensures k < RoundUp(size, align) && p == q
    {
      ChunkRange(f, size, block, align, p);
      PaddedRangesApart(f, size, block, align, p, q, k);
    }
  }

  // ---- alignment of both volumes -------------------------------------------

  function Pow2(n: nat): nat {
    if n == 0 then 1 else 2 * Pow2(n - 1)
  }

  lemma {:induction false} Pow2Divides(m: nat, n: nat)
    requires m <= n
    ensures Pow2(m) > 0 && Pow2(n) % Pow2(m) == 0
    decreases n - m
  {
    Pow2Positive(m);
    if m < n {
      Pow2Divides(m, n - 1);
      DoubleOfMultiple(Pow2(n - 1), Pow2(m));
    } else {
      ModOfMultiple(1, Pow2(m));
    }
  }

  lemma DoubleOfMultiple(x: nat, d: nat)
    requires d > 0 && x % d == 0
    ensures (2 * x) % d == 0
  {
    var q := x / d;
    assert x == q * d;
    assert 2 * x == (2 * q) * d;
    ModOfMultiple(2 * q, d);
  }

  lemma Pow2Positive(n: nat)
    ensures Pow2(n) > 0
  {}

  lemma {:induction false} Pow2Increases(m: nat, n: nat)
    requires m < n
    ensures 0 < Pow2(m) < Pow2(n)
    decreases n
  {
    Pow2Positive(m);
    if m < n - 1 {
      Pow2Increases(m, n - 1);
    }
  }

  lemma MultipleOfMultiple(x: nat, d: nat, a: nat)
    requires d > 0 && a > 0 && x % d == 0 && d % a == 0
    ensures x % a == 0
  {
    var q, r := x / d, d / a;
    calc {
      x;
      q * d;
      q * (r * a);
      (q * r) * a;
    }
    ModOfMultiple(q * r, a);
  }

  /** With power-of-two alignments, the larger one aligns every request for both volumes. */
  lemma RequestsAligned(f: nat, size: nat, block: nat, m: nat, n: nat, k: nat)
    requires f < U32 && block > 0 && k < ChunkCount(size, block)
    requires GoodBlock(block, if Pow2(m) >= Pow2(n) then Pow2(m) else Pow2(n))
    ensures var job := ChunkJob(f, size, block, k);
      var padded := RoundUp(job.len, if Pow2(m) >= Pow2(n) then Pow2(m) else Pow2(n));
      && Pow2(m) > 0 && Pow2(n) > 0
      && job.offset % Pow2(m) == 0 && padded % Pow2(m) == 0
      && job.offset % Pow2(n) == 0 && padded % Pow2(n) == 0
  {
    var align := if Pow2(m) >= Pow2(n) then Pow2(m) else Pow2(n);
    var job := ChunkJob(f, size, block, k);
    var padded := RoundUp(job.len, align);
    if m <= n {
      Pow2Divides(m, n);
      if m < n { Pow2Increases(m, n); }
    } else {
      Pow2Divides(n, m);
      Pow2Increases(n, m);
    }
    Pow2Positive(m);
    Pow2Positive(n);
    RoundUpIsLeastMultiple(job.len, align);
    ChunkOffsetShifts(block, align, k, 0);
    assert align % Pow2(m) == 0 && align % Pow2(n) == 0 by {
      Pow2Divides(m, m);
      Pow2Divides(n, n);
    }
    MultipleOfMultiple(job.offset, align, Pow2(m));
    MultipleOfMultiple(job.offset, align, Pow2(n));
    MultipleOfMultiple(padded, align, Pow2(m));
    MultipleOfMultiple(padded, align, Pow2(n));
  }

  // ---- the width of a length -----------------------------------------------

  /** Every file of every size is planned in full. */
  ghost predicate NothingLost(block: nat)
    requires block > 0
  {
    forall size: nat, k: nat :: k < ChunkCount(size, block) ==> KeepsLength(size, block, k)
  }

  ghost predicate KeepsLength(size: nat, block: nat, k: nat)
    requires block > 0 && k < ChunkCount(size, block)
  {
    ChunkStart(size, block, k);
    ChunkJob(0, size, block, k).len == Min(size - k * block, block)
  }

  /** The cast of the chunk length to 32 bits is harmless exactly for blocks below 4 GiB. */
  lemma BlockMustFitU32(block: nat)
    requires block > 0
    ensures NothingLost(block) <==> block < 0x1_0000_0000
  {
    if block < U32 {
      forall size: nat, k: nat | k < ChunkCount(size, block) ensures KeepsLength(size, block, k) {
        ChunkStart(size, block, k);
      }
    } else {
      assert ChunkCount(block, block) == 1;
      assert 0 < ChunkCount(block, block);
      ChunkStart(block, block, 0);
      assert !KeepsLength(block, block, 0);
    }
  }
}
