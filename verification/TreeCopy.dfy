/** What a scanned plan guarantees, and what a whole tree copy does. */
module TreeCopy {
  import opened Counting
  import opened Ordering
  import opened Pipeline
  import opened Scanner
  import opened Walk
  import Planning
  import Progress
  import Copy
  import Outcome

  // ---- the files of a plan -------------------------------------------------

  lemma {:induction false} OnceEach(tasks: seq<Task>, t: Task)
    requires Distinct(tasks)
    ensures multiset(tasks)[t] <= 1
  {
    if tasks != [] {
      var last := |tasks| - 1;
      assert tasks == tasks[..last] + [tasks[last]];
      OnceEach(tasks[..last], t);
      if t == tasks[last] {
        assert t !in tasks[..last];
        assert t !in multiset(tasks[..last]);
      }
    }
  }

  lemma TwiceIsTwo<T>(s: seq<T>, i: nat, j: nat)
    requires i < j < |s| && s[i] == s[j]
    ensures multiset(s)[s[i]] >= 2
  {
    var a, b := s[..j], s[j..];
    assert s == a + b;
    assert a[i] in a && b[0] in b;
    assert s[i] in multiset(a) && s[i] in multiset(b);
  }

  /** Distinct destinations do not depend on the order of the tasks. */
  lemma DistinctPermutes(a: seq<Task>, b: seq<Task>)
    requires Distinct(a) && multiset(a) == multiset(b)
    ensures Distinct(b)
  {
    forall i: nat, j: nat | i < j < |b| ensures b[i].dst != b[j].dst {
      if b[i] == b[j] {
        TwiceIsTwo(b, i, j);
        OnceEach(a, b[i]);
      } else {
        assert b[i] in multiset(a) && b[j] in multiset(a);
        var k :| 0 <= k < |a| && a[k] == b[i];
        var l :| 0 <= l < |a| && a[l] == b[j];
      }
    }
  }

  /**
   The plan of a tree holds exactly its files: one told by names and size is on the bulk list or on
   the small list, by its size, once, under the destination with the same names.
   */
  lemma PlanIsTree(r: Root, plan: Plan, threshold: nat)
    requires FilesOf(r, plan, threshold)
    ensures forall t :: t in plan.bulk + plan.small <==> IsTask(r.src, r.dst, r.items, t, r.rules)
    ensures forall t :: t in plan.bulk <==> IsTask(r.src, r.dst, r.items, t, r.rules) && t.size >= threshold
    ensures DistinctNames(r.items) ==> Distinct(plan.bulk + plan.small) && Distinct(plan.bulk)
  {
    var files := Files(r.src, r.dst, r.items, r.rules);
    var all := plan.bulk + plan.small;
    assert multiset(all) == multiset(files);
    forall t
      ensures t in all <==> IsTask(r.src, r.dst, r.items, t, r.rules)
      ensures t in plan.bulk <==> IsTask(r.src, r.dst, r.items, t, r.rules) && t.size >= threshold
    {
      hide Files; hide IsTask;
      assert t in all <==> t in multiset(all);
      assert t in files <==> t in multiset(files);
      FilesAreLeads(r.src, r.dst, r.items, r.rules, t);
      assert t in all <==> t in plan.bulk || t in plan.small;
    }
    if DistinctNames(r.items) {
      DistinctDestinations(r.src, r.dst, r.items, r.rules);
      DistinctPermutes(files, all);
      assert forall i :: 0 <= i < |plan.bulk| ==> all[i] == plan.bulk[i];
    }
  }

  // ---- the directories of a plan -------------------------------------------

  lemma BelowParent(base: Path, path: Path)
    requires Below(base, path)
    ensures |path| == |base| + 1 ==> Parent(path) == base
    ensures |path| > |base| + 1 ==> Below(base, Parent(path)) && Parent(path)[|base|..] == Parent(path[|base|..])
  {
    assert Parent(path)[..|base|] == path[..|base|] || |path| == |base|;
  }

  lemma ParentOfDir(r: Root, dirs: seq<Path>, d: Path)
    requires DirsOf(r, dirs) && d in dirs && d != r.dst
    ensures d != [] && Parent(d) in dirs && PathBelow(Parent(d), d)
  {
    DirsAreLeads(r.dst, r.items, r.rules, d);
    BelowParent(r.dst, d);
    if |d| > |r.dst| + 1 {
      DirsThroughDirs(r.items, d[|r.dst|..], r.rules);
      DirsAreLeads(r.dst, r.items, r.rules, Parent(d));
    }
    ParentFirst(Parent(d), d);
  }

  lemma ParentOfFile(r: Root, dirs: seq<Path>, t: Task)
    requires DirsOf(r, dirs) && IsTask(r.src, r.dst, r.items, t, r.rules)
    ensures t.dst != [] && Parent(t.dst) in dirs
  {
    BelowParent(r.dst, t.dst);
    if |t.dst| > |r.dst| + 1 {
      LeadsThroughDirs(r.items, t.dst[|r.dst|..], t.size, r.rules);
      DirsAreLeads(r.dst, r.items, r.rules, Parent(t.dst));
    }
  }

  /**
   Creating the directories in list order never meets a missing parent: no directory is listed
   twice, the destination root comes first, every other directory comes after its parent, and the
   parent of every planned file is listed.
   */
  lemma CreationSafe(r: Root, plan: Plan, threshold: nat)
    requires PlanOf(r, plan, threshold)
    ensures forall i, j :: 0 <= i < j < |plan.dirs| ==> plan.dirs[i] != plan.dirs[j]
    ensures plan.dirs != [] && plan.dirs[0] == r.dst
    ensures forall j :: 0 < j < |plan.dirs| ==> plan.dirs[j] != [] && Parent(plan.dirs[j]) in plan.dirs[..j]
    ensures forall t :: t in plan.bulk + plan.small ==> t.dst != [] && Parent(t.dst) in plan.dirs
  {
    var dirs := plan.dirs;
    PathsAreOrdered();
    assert r.dst in dirs;
    forall j: nat | j < |dirs| && dirs[j] != r.dst ensures dirs[j] != [] && Parent(dirs[j]) in dirs[..j] {
      EarlierParent(r, dirs, j);
    }
    assert dirs[..0] == [];
    forall t | t in plan.bulk + plan.small ensures t.dst != [] && Parent(t.dst) in dirs {
      PlanIsTree(r, plan, threshold);
      ParentOfFile(r, dirs, t);
    }
  }

  lemma EarlierParent(r: Root, dirs: seq<Path>, j: nat)
    requires DirsOf(r, dirs) && j < |dirs| && dirs[j] != r.dst && TotalOrder(PathBelow)
    ensures dirs[j] != [] && Parent(dirs[j]) in dirs[..j]
  {
    ParentOfDir(r, dirs, dirs[j]);
    hide PathBelow;
    var i: nat :| i < |dirs| && dirs[i] == Parent(dirs[j]);
    assert i < j;
    assert dirs[..j][i] == dirs[i];
  }

  // ---- a whole tree copy ---------------------------------------------------

  /** The files as the pipeline sees them; `contents` is what reading a source path gives. */
  function Specs(tasks: seq<Task>, contents: Path -> seq<byte>): seq<FileSpec> {
    seq(|tasks|, i requires 0 <= i < |tasks| => FileSpec(tasks[i].dst, tasks[i].size, contents(tasks[i].src)))
  }

  /** The pipeline is set up from the bulk list of a scanned tree. */
  ghost predicate CopiesTree(c: Config, r: Root, plan: Plan, threshold: nat, contents: Path -> seq<byte>) {
    && FilesOf(r, plan, threshold) && DistinctNames(r.items)
    && plan.bulk != [] && |plan.bulk| <= Planning.U32
    && c.files == Specs(plan.bulk, contents)
    && Planning.GoodBlock(c.block, c.align) && c.workers > 0 && c.capacity > 0
    && c.jobs == Planning.AllJobs(c.files, c.block, |c.files|)
    && c.chunks == Planning.AllChunks(c.files, c.block, |c.files|)
  }

  /** A scanned plan is all that the pipeline asks for. */
  lemma TreeIsPlanned(c: Config, r: Root, plan: Plan, threshold: nat, contents: Path -> seq<byte>)
    requires CopiesTree(c, r, plan, threshold, contents)
    ensures Planning.Plans(c) && WellPlanned(c)
  {
    PlanIsTree(r, plan, threshold);
    Planning.PlanIsWellFormed(c);
  }

  /** The bulk file that `names` lead to. */
  lemma BulkFile(c: Config, r: Root, plan: Plan, threshold: nat, contents: Path -> seq<byte>, names: Path, size: nat)
      returns (f: nat)
    requires CopiesTree(c, r, plan, threshold, contents) && Leads(r.items, names, size, r.rules) && size >= threshold
    ensures f < |c.files| && c.files[f] == FileSpec(r.dst + names, size, contents(r.src + names))
  {
    var t := Task(r.src + names, r.dst + names, size);
    assert t.dst[|r.dst|..] == names;
    hide Leads;
    assert IsTask(r.src, r.dst, r.items, t, r.rules);
    hide IsTask; hide FilesOf; hide Planning.AllJobs; hide Planning.AllChunks; hide DistinctNames;
    PlanIsTree(r, plan, threshold);
    f :| 0 <= f < |plan.bulk| && plan.bulk[f] == t;
  }

  /**
   From the tree on disk to the copied bytes: scan, plan, and run the pipeline with any number of
   workers under any schedule.  If no operation fails or falls short and the sources keep their
   scanned sizes, every bulk file of the tree is at its destination, byte for byte.
   */
  lemma TreeIsCopied(c: Config, r: Root, plan: Plan, threshold: nat, contents: Path -> seq<byte>,
                     run: Copy.Run, s: State, names: Path, size: nat)
    requires CopiesTree(c, r, plan, threshold, contents)
    requires Copy.IsRun(c, run) && s == Copy.Last(run) && Outcome.AllExited(s)
    requires Outcome.Quiet(run) && Outcome.AllMeet(Outcome.WholeJobs(c), run)
    requires forall t :: t in plan.bulk ==> |contents(t.src)| == t.size
    requires Leads(r.items, names, size, r.rules) && size >= threshold
    ensures s.errors == [] && s.filesDone == |plan.bulk|
    ensures r.dst + names in s.disk && s.disk[r.dst + names] == contents(r.src + names)
  {
    var f := BulkFile(c, r, plan, threshold, contents, names, size);
    forall g | 0 <= g < |c.files| ensures |c.files[g].source| == c.files[g].size {
      assert plan.bulk[g] in plan.bulk;
    }
    Outcome.CleanCopy(c, run, s);
  }

  /** The pipeline starts with the largest files, each from front to back. */
  lemma LargestFirst(c: Config, r: Root, plan: Plan, threshold: nat, contents: Path -> seq<byte>, i: nat, j: nat)
    requires CopiesTree(c, r, plan, threshold, contents) && i < j < |c.jobs|
    ensures c.jobs[i].file < |c.files| && c.jobs[j].file < |c.files|
    ensures c.jobs[i].file == c.jobs[j].file ==> c.jobs[i].offset < c.jobs[j].offset
    ensures c.files[c.jobs[i].file].size >= c.files[c.jobs[j].file].size
  {
    Planning.FilesBelow(c.files, c.block, |c.files|);
    Planning.JobsInOrder(c.files, c.block, |c.files|);
    var a, b := c.jobs[i], c.jobs[j];
    assert Planning.Precedes(a, b);
    assert a.file < b.file ==> !Larger(plan.bulk[b.file], plan.bulk[a.file]);
  }

  /** Where the bulk files of the tree go. */
  ghost predicate BulkPath(r: Root, threshold: nat, p: Path) {
    Below(r.dst, p) && exists size: nat :: size >= threshold && Leads(r.items, p[|r.dst|..], size, r.rules)
  }

  lemma OnlyBulkPaths(c: Config, r: Root, plan: Plan, threshold: nat, contents: Path -> seq<byte>, f: nat)
    requires CopiesTree(c, r, plan, threshold, contents) && f < |c.files|
    ensures BulkPath(r, threshold, c.files[f].dst)
  {
    var t := plan.bulk[f];
    assert t in plan.bulk;
    PlanIsTree(r, plan, threshold);
    hide Leads;
    assert Leads(r.items, t.dst[|r.dst|..], t.size, r.rules);
  }

  /** Nothing outside the tree's bulk destinations is touched, whatever fails. */
  lemma NothingElseTouched(c: Config, r: Root, plan: Plan, threshold: nat, contents: Path -> seq<byte>,
                           run: Copy.Run, n: nat, p: Path)
    requires CopiesTree(c, r, plan, threshold, contents) && Copy.IsRun(c, run) && n < |run.states|
    requires !BulkPath(r, threshold, p)
    ensures Outcome.SameFile(run.states[0], run.states[n], p)
  {
    hide CopiesTree; hide Copy.IsRun; hide BulkPath;
    forall f | 0 <= f < |c.files| ensures c.files[f].dst != p {
      OnlyBulkPaths(c, r, plan, threshold, contents, f);
    }
    Outcome.ForeignFilesStay(c, run, n, p);
  }

  lemma {:induction false} SpecSizes(tasks: seq<Task>, contents: Path -> seq<byte>, n: nat)
    requires n <= |tasks|
    ensures Sum(Specs(tasks, contents)[..n], Planning.SpecSize()) == TotalSize(tasks[..n])
  {
    if n > 0 {
      SpecSizes(tasks, contents, n - 1);
      Planning.SumOfLast(Specs(tasks, contents), n, Planning.SpecSize());
      assert tasks[..n][..n - 1] == tasks[..n - 1];
    }
  }

  /** Without a failing operation the counters end at the scanned length of the bulk files. */
  lemma TreeTotals(c: Config, r: Root, plan: Plan, threshold: nat, contents: Path -> seq<byte>, run: Copy.Run, s: State)
    requires CopiesTree(c, r, plan, threshold, contents) && Copy.IsRun(c, run)
    requires s == Copy.Last(run) && Outcome.AllExited(s) && Outcome.Quiet(run)
    ensures s.bytesRead == s.bytesWritten == TotalSize(plan.bulk)
  {
    hide Copy.IsRun; hide Sum; hide Files; hide Planning.AllJobs; hide TotalSize; hide DistinctNames;
    Outcome.QuietTotals(c, run, s);
    Planning.PlanLength(c.files, c.block, c.align, |c.files|);
    SpecSizes(plan.bulk, contents, |plan.bulk|);
    assert c.files[..|c.files|] == c.files && plan.bulk[..|plan.bulk|] == plan.bulk;
  }

  /** At every moment of every run the counters stay within the scanned total. */
  lemma BytesWithinTotal(c: Config, r: Root, plan: Plan, threshold: nat, contents: Path -> seq<byte>,
                         run: Copy.Run, n: nat)
    requires CopiesTree(c, r, plan, threshold, contents) && Copy.IsRun(c, run) && n < |run.states|
    ensures run.states[n].bytesWritten <= run.states[n].bytesRead <= TotalSize(plan.bulk) <= plan.totalBytes
  {
    hide Copy.Inv; hide Copy.IsRun; hide Sum; hide Files; hide Planning.AllJobs; hide TotalSize; hide DistinctNames;
    var all := plan.bulk + plan.small;
    Copy.AlwaysInv(c, run, n);
    Copy.BytesInOrder(c, run.states[n]);
    Planning.PlanLength(c.files, c.block, c.align, |c.files|);
    SpecSizes(plan.bulk, contents, |plan.bulk|);
    assert c.files[..|c.files|] == c.files && plan.bulk[..|plan.bulk|] == plan.bulk;
    TotalSizeConcat(plan.bulk, plan.small);
    TotalSizePermutes(all, Files(r.src, r.dst, r.items, r.rules));
  }
}
