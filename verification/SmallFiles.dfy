/** The small-file phase, and what a whole run reports. */
module SmallFiles {
  import opened Counting
  import opened Pipeline
  import opened History
  import opened Scanner
  import opened Walk
  import opened TreeCopy
  import Copy
  import Failures
  import Outcome

  // ---- the threads of the small-file phase ---------------------------------

  datatype SmallPC = Claiming | Copying(file: nat) | Finished

  // How a file ended; recorded, never consulted.
  datatype SmallFate = Pending | Copied | Failed

  datatype SmallState = SmallState(next: nat, filesDone: nat, errors: seq<nat>, pcs: seq<SmallPC>,
      fates: seq<SmallFate>)

  predicate SmallInit(files: nat, threads: nat, s: SmallState) {
    && s.next == s.filesDone == 0 && s.errors == []
    && s.pcs == seq(threads, _ => Claiming) && s.fates == seq(files, _ => Pending)
  }

  /** Thread `w` takes one step; `ok` says how the platform copy ends. */
  predicate SmallNext(files: nat, s: SmallState, w: nat, ok: bool, t: SmallState) {
    && w < |s.pcs| && |s.fates| == files
    && match s.pcs[w]
       case Claiming =>
         t == s.(next := s.next + 1, pcs := s.pcs[w := if s.next < files then Copying(s.next) else Finished])
       case Copying(i) =>
         && i < files
         && if ok then
              t == s.(filesDone := s.filesDone + 1, fates := s.fates[i := Copied], pcs := s.pcs[w := Claiming])
            else
              t == s.(errors := Fail(s.errors, i), fates := s.fates[i := Failed], pcs := s.pcs[w := Claiming])
       case Finished => false
  }

  ghost function IsCopied(): SmallFate -> nat { (f: SmallFate) => Bit(f.Copied?) }

  predicate InHand(s: SmallState, i: nat) {
    exists w :: 0 <= w < |s.pcs| && s.pcs[w] == Copying(i)
  }

  ghost predicate SmallInv(files: nat, s: SmallState) {
    && |s.fates| == files && s.filesDone == Sum(s.fates, IsCopied()) && |s.errors| <= ERROR_CAP
    && (forall w :: 0 <= w < |s.pcs| && s.pcs[w].Copying? ==> s.pcs[w].file < files && s.pcs[w].file < s.next)
    && (forall v, w :: 0 <= v < w < |s.pcs| && s.pcs[v].Copying? ==> s.pcs[w] != s.pcs[v])
    && (forall w :: 0 <= w < |s.pcs| && s.pcs[w].Finished? ==> files <= s.next)
    && (forall i: nat :: i < files ==> (s.fates[i].Pending? <==> s.next <= i || InHand(s, i)))
    && (forall i: nat :: i < files && s.fates[i].Failed? ==> Reported(s.errors, i))
  }

  lemma SmallStart(files: nat, threads: nat, s: SmallState)
    requires SmallInit(files, threads, s)
    ensures SmallInv(files, s)
  {
    SumZero(s.fates, IsCopied());
  }

  lemma SmallStep(files: nat, s: SmallState, w: nat, ok: bool, t: SmallState)
    requires SmallInv(files, s) && SmallNext(files, s, w, ok, t)
    ensures SmallInv(files, t)
  {
    hide Sum;
    match s.pcs[w]
    case Claiming =>
      forall i: nat | i < files ensures t.fates[i].Pending? <==> t.next <= i || InHand(t, i) {
        ClaimHands(s, w, t, i);
      }
    case Copying(j) =>
      SumUpdate(s.fates, j, t.fates[j], IsCopied());
      if !ok {
        FailReports(s.errors, j);
      }
      assert InHand(s, j);
      forall i: nat | i < files ensures t.fates[i].Pending? <==> t.next <= i || InHand(t, i) {
        CopyHands(s, w, t, i);
      }
  }

  /** A claim puts the next file, and no other, into a thread's hand. */
  lemma ClaimHands(s: SmallState, w: nat, t: SmallState, i: nat)
    requires w < |s.pcs| && s.pcs[w].Claiming?
              && (t.pcs == s.pcs[w := Copying(s.next)] || t.pcs == s.pcs[w := Finished])
    ensures InHand(t, i) <==> InHand(s, i) || (i == s.next && t.pcs[w].Copying?)
  {
    if InHand(s, i) {
      var v :| 0 <= v < |s.pcs| && s.pcs[v] == Copying(i);
      assert t.pcs[v] == Copying(i);
    }
    if i == s.next && t.pcs[w].Copying? {
      assert t.pcs[w] == Copying(i);
    }
  }

  /** A file that was copied leaves the only hand it was in. */
  lemma CopyHands(s: SmallState, w: nat, t: SmallState, i: nat)
    requires w < |s.pcs| && s.pcs[w].Copying? && t.pcs == s.pcs[w := Claiming]
    requires forall u, v :: 0 <= u < v < |s.pcs| && s.pcs[u].Copying? ==> s.pcs[v] != s.pcs[u]
    ensures InHand(t, i) <==> InHand(s, i) && i != s.pcs[w].file
  {
    if InHand(t, i) {
      var v :| 0 <= v < |t.pcs| && t.pcs[v] == Copying(i);
      assert s.pcs[v] == Copying(i);
    }
    if InHand(s, i) && i != s.pcs[w].file {
      var v :| 0 <= v < |s.pcs| && s.pcs[v] == Copying(i);
      assert t.pcs[v] == Copying(i);
    }
  }

  datatype SmallRun = SmallRun(states: seq<SmallState>, threads: seq<nat>, oks: seq<bool>)

  ghost predicate IsSmallRun(files: nat, threads: nat, r: SmallRun) {
    && |r.states| == |r.threads| + 1 == |r.oks| + 1 && threads > 0 && SmallInit(files, threads, r.states[0])
    && forall i: nat :: i < |r.threads| ==> SmallNext(files, r.states[i], r.threads[i], r.oks[i], r.states[i + 1])
  }

  lemma {:induction false} SmallAlways(files: nat, threads: nat, r: SmallRun, n: nat)
    requires IsSmallRun(files, threads, r) && n < |r.states|
    ensures SmallInv(files, r.states[n]) && |r.states[n].pcs| == threads
  {
    if n == 0 {
      SmallStart(files, threads, r.states[0]);
    } else {
      SmallAlways(files, threads, r, n - 1);
      hide SmallInv;
      SmallStep(files, r.states[n - 1], r.threads[n - 1], r.oks[n - 1], r.states[n]);
    }
  }

  ghost predicate SmallEnded(files: nat, threads: nat, r: SmallRun, s: SmallState) {
    && IsSmallRun(files, threads, r) && s == r.states[|r.states| - 1]
    && forall w :: 0 <= w < |s.pcs| ==> s.pcs[w].Finished?
  }

  lemma {:induction false} CopiedAtMostFiles(fates: seq<SmallFate>)
    ensures Sum(fates, IsCopied()) <= |fates|
    ensures Sum(fates, IsCopied()) == |fates| <==> forall i :: 0 <= i < |fates| ==> fates[i].Copied?
  {
    if fates != [] {
      CopiedAtMostFiles(fates[..|fates| - 1]);
    }
  }

  /** When the threads have finished every small file was copied and counted, or failed and was reported. */
  lemma SmallSettled(files: nat, threads: nat, r: SmallRun, s: SmallState)
    requires SmallEnded(files, threads, r, s)
    ensures |s.fates| == files && s.filesDone <= files && |s.errors| <= ERROR_CAP
    ensures forall i :: 0 <= i < files ==> s.fates[i].Copied? || (s.fates[i].Failed? && Reported(s.errors, i))
    ensures s.filesDone == files <==> forall i :: 0 <= i < files ==> s.fates[i].Copied?
    ensures s.filesDone < files ==> s.errors != []
  {
    SmallAlways(files, threads, r, |r.states| - 1);
    CopiedAtMostFiles(s.fates);
    assert s.pcs[0].Finished?;
    assert forall i: nat :: i < files ==> !InHand(s, i);
  }

  /** Step `i` is a copy of a small file, and it fails. */
  predicate CopyFails(r: SmallRun, i: nat) {
    && i < |r.threads| && i < |r.oks| && i < |r.states| && r.threads[i] < |r.states[i].pcs|
    && r.states[i].pcs[r.threads[i]].Copying? && !r.oks[i]
  }

  /** There is a message exactly when a copy has failed. */
  lemma {:induction false} FailedCopiesTell(files: nat, threads: nat, r: SmallRun, n: nat)
    requires IsSmallRun(files, threads, r) && n < |r.states|
    ensures r.states[n].errors == [] <==> forall i: nat :: i < n ==> !CopyFails(r, i)
  {
    if n > 0 {
      FailedCopiesTell(files, threads, r, n - 1);
      CopyTells(files, threads, r, n - 1);
      hide IsSmallRun; hide CopyFails;
    }
  }

  lemma CopyTells(files: nat, threads: nat, r: SmallRun, n: nat)
    requires IsSmallRun(files, threads, r) && n < |r.threads|
    ensures r.states[n + 1].errors == [] <==> r.states[n].errors == [] && !CopyFails(r, n)
  {
    assert SmallNext(files, r.states[n], r.threads[n], r.oks[n], r.states[n + 1]);
  }

  // ---- what the whole run reports ------------------------------------------

  /** One copy of a tree: its plan, the run of either phase and how it ended, and what verification found. */
  datatype TreeRun = TreeRun(root: Root, threshold: nat, plan: Plan, contents: Path -> seq<byte>,
      c: Config, bulk: Copy.Run, bulkEnd: State,
      threads: nat, small: SmallRun, smallEnd: SmallState,
      mismatches: seq<nat>)

  ghost predicate BulkEnded(x: TreeRun) {
    && CopiesTree(x.c, x.root, x.plan, x.threshold, x.contents)
    && Copy.IsRun(x.c, x.bulk) && x.bulkEnd == Copy.Last(x.bulk) && Outcome.AllExited(x.bulkEnd)
  }

  /** The tree was scanned; a phase ran to its end if the plan has files for it, and not at all otherwise. */
  ghost predicate Ended(x: TreeRun) {
    && FilesOf(x.root, x.plan, x.threshold) && DistinctNames(x.root.items)
    && (x.plan.bulk != [] ==> BulkEnded(x))
    && (x.plan.small != [] ==> SmallEnded(|x.plan.small|, x.threads, x.small, x.smallEnd))
  }

  datatype Report = Report(files: nat, expected: nat, errors: seq<nat>)

  /** The counters and the messages of the phases that ran, with the mismatches of the verification. */
  function Totals(x: TreeRun): Report {
    var (bulkDone, bulkErrors) := if x.plan.bulk == [] then (0, []) else (x.bulkEnd.filesDone, x.bulkEnd.errors);
    var (smallDone, smallErrors) := if x.plan.small == [] then (0, []) else (x.smallEnd.filesDone, x.smallEnd.errors);
    Report(bulkDone + smallDone, |x.plan.bulk| + |x.plan.small|, bulkErrors + smallErrors + x.mismatches)
  }

  function ExitCode(o: Report): nat {
    if o.errors == [] then 0 else 2
  }

  predicate BulkCounted(x: TreeRun, f: nat) {
    f < |x.c.files| && f < |x.bulkEnd.flog| && x.bulkEnd.flog[f].counted
  }

  predicate SmallCopied(x: TreeRun, i: nat) {
    i < |x.smallEnd.fates| && x.smallEnd.fates[i].Copied?
  }

  predicate AllCounted(x: TreeRun) {
    && (forall f :: 0 <= f < |x.plan.bulk| ==> BulkCounted(x, f))
    && (forall i :: 0 <= i < |x.plan.small| ==> SmallCopied(x, i))
  }

  ghost predicate AllTrimmed(x: TreeRun) {
    forall f: nat :: BulkCounted(x, f) ==> x.bulkEnd.flog[f].trim.Trimmed?
  }

  lemma BulkEnd(x: TreeRun)
    requires BulkEnded(x)
    ensures Copy.Inv(x.c, x.bulkEnd) && Outcome.AllExited(x.bulkEnd) && |x.c.files| == |x.plan.bulk|
  {
    hide Copy.Inv; hide Outcome.AllExited; hide FilesOf; hide DistinctNames;
    Copy.AlwaysInv(x.c, x.bulk, |x.bulk.states| - 1);
  }

  lemma BulkIsHonest(x: TreeRun)
    requires Copy.Inv(x.c, x.bulkEnd) && Outcome.AllExited(x.bulkEnd)
    ensures var s := x.bulkEnd;
            && s.filesDone <= |x.c.files| && (s.filesDone < |x.c.files| ==> s.errors != [])
            && (s.filesDone == |x.c.files| <==> forall f :: 0 <= f < |x.c.files| ==> BulkCounted(x, f))
            && (s.errors == [] ==> AllTrimmed(x))
  {
    hide Outcome.AllExited;
    Outcome.NoSilentShortfall(x.c, x.bulkEnd);
    assert |x.bulkEnd.flog| == |x.c.files|;
    hide Copy.Inv;
    assert forall f :: 0 <= f < |x.c.files| ==> (BulkCounted(x, f) <==> x.bulkEnd.flog[f].counted);
  }

  lemma SmallIsHonest(x: TreeRun)
    requires SmallEnded(|x.plan.small|, x.threads, x.small, x.smallEnd)
    ensures var s := x.smallEnd;
            && s.filesDone <= |x.plan.small| && (s.filesDone < |x.plan.small| ==> s.errors != [])
            && (s.filesDone == |x.plan.small| <==> forall i :: 0 <= i < |x.plan.small| ==> SmallCopied(x, i))
  {
    hide SmallEnded;
    SmallSettled(|x.plan.small|, x.threads, x.small, x.smallEnd);
    assert forall i :: 0 <= i < |x.plan.small| ==> (SmallCopied(x, i) <==> x.smallEnd.fates[i].Copied?);
  }

  /**
   A run that does not copy everything is never reported as success: fewer files counted than the plan
   holds make the exit code non-zero, and the count is full exactly when every planned file is counted.
   An exit code of zero also means that every trim succeeded.
   */
  lemma ShortfallIsNoSuccess(x: TreeRun)
    requires Ended(x)
    ensures var o := Totals(x);
            && o.files <= o.expected && (o.files < o.expected ==> ExitCode(o) != 0)
            && (o.files == o.expected <==> AllCounted(x))
    ensures ExitCode(Totals(x)) == 0 && x.plan.bulk != [] ==> AllTrimmed(x)
  {
    hide BulkEnded; hide SmallEnded; hide FilesOf; hide AllTrimmed; hide DistinctNames; hide Copy.Inv;
    hide Outcome.AllExited; hide BulkCounted; hide SmallCopied;
    if x.plan.bulk != [] {
      BulkEnd(x);
      BulkIsHonest(x);
    }
    if x.plan.small != [] {
      SmallIsHonest(x);
    }
  }

  /** The exit code is 0 if and only if no phase that ran and no verification left a message, and 2 otherwise. */
  lemma MessagesReachTheExit(x: TreeRun)
    ensures ExitCode(Totals(x)) == 0 <==>
              && (x.plan.bulk != [] ==> x.bulkEnd.errors == [])
              && (x.plan.small != [] ==> x.smallEnd.errors == [])
              && x.mismatches == []
    ensures ExitCode(Totals(x)) != 0 ==> ExitCode(Totals(x)) == 2
  {}

  /**
   Success means just that: the exit code of a run is 0 if and only if no operation of the pipeline failed,
   no copy of a small file failed, and the verification, if there was one, found nothing.
   */
  lemma SuccessMeansNoFailure(x: TreeRun)
    requires Ended(x)
    ensures ExitCode(Totals(x)) == 0 <==>
              && (x.plan.bulk != [] ==> Outcome.Quiet(x.bulk))
              && (x.plan.small != [] ==> forall i: nat :: !CopyFails(x.small, i))
              && x.mismatches == []
  {
    hide Totals; hide ExitCode; hide Copy.IsRun; hide Outcome.AllExited; hide Outcome.Quiet; hide CopyFails;
    hide FilesOf; hide CopiesTree; hide DistinctNames; hide IsSmallRun;
    MessagesReachTheExit(x);
    if x.plan.bulk != [] {
      Failures.SilentMeansQuiet(x.c, x.bulk, x.bulkEnd);
    }
    if x.plan.small != [] {
      SmallSilence(|x.plan.small|, x.threads, x.small, x.smallEnd);
    }
  }

  lemma SmallSilence(files: nat, threads: nat, r: SmallRun, s: SmallState)
    requires SmallEnded(files, threads, r, s)
    ensures s.errors == [] <==> forall i: nat :: !CopyFails(r, i)
  {
    FailedCopiesTell(files, threads, r, |r.states| - 1);
    assert forall i: nat :: CopyFails(r, i) ==> i < |r.threads|;
  }

  // ---- what an exit code says about the tree -------------------------------

  /** The file that `names` lead to is counted: by the pipeline, or below the threshold by the platform copy. */
  ghost predicate Arrived(x: TreeRun, names: Path, size: nat) {
    if size >= x.threshold then
      exists f: nat :: BulkCounted(x, f)
        && x.c.files[f] == FileSpec(x.root.dst + names, size, x.contents(x.root.src + names))
    else
      exists i: nat :: SmallCopied(x, i) && i < |x.plan.small|
        && x.plan.small[i] == Task(x.root.src + names, x.root.dst + names, size)
  }

  ghost predicate TreeArrived(x: TreeRun) {
    forall names, size: nat :: Leads(x.root.items, names, size, x.root.rules) ==> Arrived(x, names, size)
  }

  lemma LeadsByNames(items: seq<Item>, names: Path, size: nat, rules: Rules)
    requires Leads(items, names, size, rules)
    ensures names != []
  {
    var item :| item in items && LeadsFrom(item, names, size, rules);
  }

  /** Names lead to a file if and only if it is on the list its size belongs to. */
  lemma OnItsList(r: Root, plan: Plan, threshold: nat, names: Path, size: nat)
    requires FilesOf(r, plan, threshold)
    ensures Leads(r.items, names, size, r.rules) <==>
              Task(r.src + names, r.dst + names, size) in (if size >= threshold then plan.bulk else plan.small)
  {
    hide Leads; hide FilesOf; hide DistinctNames;
    var t := Task(r.src + names, r.dst + names, size);
    if Leads(r.items, names, size, r.rules) {
      LeadsByNames(r.items, names, size, r.rules);
    }
    PlanIsTree(r, plan, threshold);
    assert t.dst[|r.dst|..] == names;
    assert IsTask(r.src, r.dst, r.items, t, r.rules) <==> Leads(r.items, names, size, r.rules);
    OneList(r, plan, threshold, t);
  }

  lemma OneList(r: Root, plan: Plan, threshold: nat, t: Task)
    requires FilesOf(r, plan, threshold)
    ensures t in plan.small ==> t.size < threshold
    ensures t in plan.bulk + plan.small <==> t in (if t.size >= threshold then plan.bulk else plan.small)
  {}

  lemma CountedArrives(x: TreeRun, names: Path, size: nat)
    requires Ended(x) && AllCounted(x) && Leads(x.root.items, names, size, x.root.rules)
    ensures Arrived(x, names, size)
  {
    hide Leads; hide FilesOf; hide DistinctNames; hide SmallEnded; hide BulkEnded; hide CopiesTree;
    OnItsList(x.root, x.plan, x.threshold, names, size);
    var t := Task(x.root.src + names, x.root.dst + names, size);
    if size >= x.threshold {
      var f: nat :| f < |x.plan.bulk| && x.plan.bulk[f] == t;
      SpecOf(x, f);
      assert BulkCounted(x, f);
    } else {
      var i: nat :| i < |x.plan.small| && x.plan.small[i] == t;
      assert SmallCopied(x, i);
    }
  }

  lemma SpecOf(x: TreeRun, f: nat)
    requires BulkEnded(x) && f < |x.plan.bulk|
    ensures |x.c.files| == |x.plan.bulk|
    ensures x.c.files[f] == FileSpec(x.plan.bulk[f].dst, x.plan.bulk[f].size, x.contents(x.plan.bulk[f].src))
  {}

  lemma ListedArrives(x: TreeRun, t: Task) returns (names: Path)
    requires Ended(x) && TreeArrived(x) && t in x.plan.bulk + x.plan.small
    ensures t == Task(x.root.src + names, x.root.dst + names, t.size) && Arrived(x, names, t.size)
  {
    hide Leads; hide FilesOf; hide DistinctNames; hide SmallEnded; hide BulkEnded; hide CopiesTree; hide Arrived;
    PlanIsTree(x.root, x.plan, x.threshold);
    names := t.dst[|x.root.dst|..];
    assert t.dst == x.root.dst + names;
  }

  lemma ArrivedIsCounted(x: TreeRun)
    requires Ended(x) && TreeArrived(x)
    ensures AllCounted(x)
  {
    hide Leads; hide SmallEnded; hide BulkEnded; hide CopiesTree; hide DistinctNames; hide FilesOf; hide TreeArrived;
    PlanIsTree(x.root, x.plan, x.threshold);
    forall f | 0 <= f < |x.plan.bulk| ensures BulkCounted(x, f) {
      var names := ListedArrives(x, x.plan.bulk[f]);
      var g: nat :| BulkCounted(x, g)
        && x.c.files[g] == FileSpec(x.root.dst + names, x.plan.bulk[f].size, x.contents(x.root.src + names));
      SpecOf(x, f);
      SpecOf(x, g);
      assert g == f;
    }
    forall i | 0 <= i < |x.plan.small| ensures SmallCopied(x, i) {
      OneList(x.root, x.plan, x.threshold, x.plan.small[i]);
      var names := ListedArrives(x, x.plan.small[i]);
      var k: nat :| SmallCopied(x, k) && k < |x.plan.small| && x.plan.small[k] == x.plan.small[i];
      assert k == i by {
        assert (x.plan.bulk + x.plan.small)[|x.plan.bulk| + i] == x.plan.small[i];
        assert (x.plan.bulk + x.plan.small)[|x.plan.bulk| + k] == x.plan.small[k];
      }
    }
  }

  /**
   The count of a run is full exactly when every file of the scanned tree is counted under its rebased
   path, through the pipeline at or above the threshold and through the platform copy below it; so an
   exit code of zero settles the whole tree.
   */
  lemma CountMeansTree(x: TreeRun)
    requires Ended(x)
    ensures Totals(x).files == Totals(x).expected <==> TreeArrived(x)
    ensures ExitCode(Totals(x)) == 0 ==> TreeArrived(x)
  {
    hide Ended; hide Arrived; hide Leads; hide AllCounted; hide AllTrimmed; hide BulkEnded; hide FilesOf;
    ShortfallIsNoSuccess(x);
    if AllCounted(x) {
      forall names, size: nat | Leads(x.root.items, names, size, x.root.rules) ensures Arrived(x, names, size) {
        CountedArrives(x, names, size);
      }
    }
    if TreeArrived(x) {
      ArrivedIsCounted(x);
    }
  }
}
