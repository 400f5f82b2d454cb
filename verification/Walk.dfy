/** The walk with an explicit stack, against the recursion over the tree. */
module Walk {
  import opened Glob
  import opened Ordering
  import opened Pipeline
  import opened Scanner

  // ---- what is still on the stack ------------------------------------------

  ghost function StackFiles(stack: seq<Place>, rules: Rules): seq<Task> {
    if stack == [] then []
    else
      var top := stack[|stack| - 1];
      StackFiles(stack[..|stack| - 1], rules) + Files(top.src, top.dst, Entries(top.listing), rules)
  }

  ghost function StackDirs(stack: seq<Place>, rules: Rules): seq<Path> {
    if stack == [] then []
    else
      var top := stack[|stack| - 1];
      StackDirs(stack[..|stack| - 1], rules) + Dirs(top.dst, Entries(top.listing), rules)
  }

  ghost function StackLinks(stack: seq<Place>, rules: Rules): nat {
    if stack == [] then 0
    else StackLinks(stack[..|stack| - 1], rules) + Links(Entries(stack[|stack| - 1].listing), rules)
  }

  ghost function StackWeight(stack: seq<Place>): nat {
    if stack == [] then 0
    else StackWeight(stack[..|stack| - 1]) + 1 + Weight(Entries(stack[|stack| - 1].listing))
  }

  ghost function TotalSize(tasks: seq<Task>): nat {
    if tasks == [] then 0 else TotalSize(tasks[..|tasks| - 1]) + tasks[|tasks| - 1].size
  }

  lemma {:induction false} TotalSizeConcat(a: seq<Task>, b: seq<Task>)
    ensures TotalSize(a + b) == TotalSize(a) + TotalSize(b)
  {
    if b == [] {
      assert a + b == a;
    } else {
      assert (a + b)[..|a + b| - 1] == a + b[..|b| - 1];
      TotalSizeConcat(a, b[..|b| - 1]);
    }
  }

  /** Taking one task out of a list takes its size out of the total. */
  lemma TotalSizeWithout(b: seq<Task>, k: nat) returns (rest: seq<Task>)
    requires k < |b|
    ensures |rest| < |b| && TotalSize(b) == TotalSize(rest) + b[k].size
    ensures multiset(rest) == multiset(b) - multiset{b[k]}
  {
    var l, r := b[..k], b[k + 1..];
    rest := l + r;
    assert b == (l + [b[k]]) + r;
    TotalSizeConcat(l + [b[k]], r);
    TotalSizeConcat(l, r);
    LastSize(l, b[k]);
  }

  lemma LastSize(l: seq<Task>, t: Task)
    ensures TotalSize(l + [t]) == TotalSize(l) + t.size
  {
    assert (l + [t])[..|l|] == l;
  }

  /** The total depends on the tasks and not on their order. */
  lemma {:induction false} TotalSizePermutes(a: seq<Task>, b: seq<Task>)
    requires multiset(a) == multiset(b)
    ensures TotalSize(a) == TotalSize(b)
    decreases |a|
  {
    if a == [] {
      assert |b| == |multiset(b)| == 0;
    } else {
      hide TotalSize;
      assert a[0] in multiset(b);
      var k :| 0 <= k < |b| && b[k] == a[0];
      var restA := TotalSizeWithout(a, 0);
      var restB := TotalSizeWithout(b, k);
      TotalSizePermutes(restA, restB);
    }
  }

  /** The tree that is being planned. */
  datatype Root = Root(src: Path, dst: Path, items: seq<Item>, rules: Rules)

  /** What was planned, what the stack holds and the rest of the current listing make up the tree. */
  ghost predicate Balanced(r: Root, plan: Plan, stack: seq<Place>, p: Place, rest: seq<Item>) {
    && multiset(plan.bulk) + multiset(plan.small) + multiset(StackFiles(stack, r.rules))
       + multiset(Files(p.src, p.dst, rest, r.rules))
      == multiset(Files(r.src, r.dst, r.items, r.rules))
    && multiset(plan.dirs) + multiset(StackDirs(stack, r.rules)) + multiset(Dirs(p.dst, rest, r.rules))
      == multiset([r.dst] + Dirs(r.dst, r.items, r.rules))
    && plan.skippedLinks + StackLinks(stack, r.rules) + Links(rest, r.rules) == Links(r.items, r.rules)
    && plan.totalBytes == TotalSize(plan.bulk) + TotalSize(plan.small)
  }

  ghost predicate Parted(plan: Plan, threshold: nat) {
    && (forall t :: t in plan.bulk ==> t.size >= threshold)
    && (forall t :: t in plan.small ==> t.size < threshold)
  }

  /** Work left for the loops; every turn of either lowers it or shortens the listing. */
  ghost function Load(stack: seq<Place>, rest: seq<Item>): nat {
    StackWeight(stack) + Weight(rest)
  }

  // ---- one turn of a loop --------------------------------------------------

  lemma Pop(r: Root, plan: Plan, stack: seq<Place>, p: Place)
    requires Balanced(r, plan, stack, p, []) && stack != []
    ensures var top := stack[|stack| - 1];
            && Balanced(r, plan, stack[..|stack| - 1], top, Entries(top.listing))
            && Load(stack[..|stack| - 1], Entries(top.listing)) < Load(stack, [])
  {}

  lemma PassOver(r: Root, plan: Plan, stack: seq<Place>, p: Place, rest: seq<Item>)
    requires Balanced(r, plan, stack, p, rest) && rest != []
    requires Skipped(rest[0], r.rules) || rest[0].kind.NoType?
    ensures Balanced(r, plan, stack, p, rest[1..]) && Load(stack, rest[1..]) <= Load(stack, rest)
  {}

  lemma PassLink(r: Root, plan: Plan, stack: seq<Place>, p: Place, rest: seq<Item>)
    requires Balanced(r, plan, stack, p, rest) && rest != []
    requires !Skipped(rest[0], r.rules) && rest[0].kind.Link?
    ensures Balanced(r, plan.(skippedLinks := plan.skippedLinks + 1), stack, p, rest[1..])
    ensures Load(stack, rest[1..]) <= Load(stack, rest)
  {}

  lemma PushPlace(stack: seq<Place>, child: Place, rules: Rules)
    ensures StackFiles(stack + [child], rules)
         == StackFiles(stack, rules) + Files(child.src, child.dst, Entries(child.listing), rules)
    ensures StackDirs(stack + [child], rules)
         == StackDirs(stack, rules) + Dirs(child.dst, Entries(child.listing), rules)
    ensures StackLinks(stack + [child], rules) == StackLinks(stack, rules) + Links(Entries(child.listing), rules)
    ensures StackWeight(stack + [child]) == StackWeight(stack) + 1 + Weight(Entries(child.listing))
  {
    assert (stack + [child])[..|stack|] == stack;
  }

  function ChildOf(p: Place, item: Item): Place
    requires item.Named? && item.kind.Folder?
  {
    Place(item.kind.listing, p.src + [item.name], p.dst + [item.name])
  }

  lemma OpenFolder(p: Place, rest: seq<Item>, rules: Rules)
    requires rest != [] && !Skipped(rest[0], rules) && rest[0].kind.Folder?
    ensures var child := ChildOf(p, rest[0]);
            var inner := Entries(child.listing);
            && Files(p.src, p.dst, rest, rules)
               == Files(child.src, child.dst, inner, rules) + Files(p.src, p.dst, rest[1..], rules)
            && Dirs(p.dst, rest, rules) == [child.dst] + Dirs(child.dst, inner, rules) + Dirs(p.dst, rest[1..], rules)
  {
    hide ExcludedBy;
  }

  lemma WeighFolder(rest: seq<Item>, rules: Rules)
    requires rest != [] && !Skipped(rest[0], rules) && rest[0].kind.Folder?
    ensures Links(rest, rules) == Links(Entries(rest[0].kind.listing), rules) + Links(rest[1..], rules)
    ensures Weight(rest) == 1 + Weight(Entries(rest[0].kind.listing)) + Weight(rest[1..])
  {
    hide ExcludedBy;
  }

  lemma Descend(r: Root, plan: Plan, stack: seq<Place>, p: Place, rest: seq<Item>)
    requires Balanced(r, plan, stack, p, rest) && rest != []
    requires !Skipped(rest[0], r.rules) && rest[0].kind.Folder?
    ensures var child := ChildOf(p, rest[0]);
            && Balanced(r, plan.(dirs := plan.dirs + [child.dst]), stack + [child], p, rest[1..])
            && Load(stack + [child], rest[1..]) <= Load(stack, rest)
  {
    hide Files; hide Dirs; hide Links; hide Weight; hide StackFiles; hide StackDirs; hide StackLinks; hide StackWeight;
    hide ExcludedBy; hide Entries;
    PushPlace(stack, ChildOf(p, rest[0]), r.rules);
    OpenFolder(p, rest, r.rules);
    WeighFolder(rest, r.rules);
  }

  lemma OpenLeaf(p: Place, rest: seq<Item>, rules: Rules)
    requires rest != [] && !Skipped(rest[0], rules) && rest[0].kind.Leaf?
    ensures var task := Task(p.src + [rest[0].name], p.dst + [rest[0].name], SizeOf(rest[0].kind.len));
            && Files(p.src, p.dst, rest, rules) == [task] + Files(p.src, p.dst, rest[1..], rules)
    ensures Dirs(p.dst, rest, rules) == Dirs(p.dst, rest[1..], rules)
    ensures Links(rest, rules) == Links(rest[1..], rules)
    ensures Weight(rest) == Weight(rest[1..])
  {}

  lemma AddTask(plan: Plan, task: Task, plan': Plan)
    requires || (plan'.bulk == plan.bulk + [task] && plan'.small == plan.small)
             || (plan'.bulk == plan.bulk && plan'.small == plan.small + [task])
    ensures multiset(plan'.bulk) + multiset(plan'.small) == multiset(plan.bulk) + multiset(plan.small) + multiset{task}
    ensures TotalSize(plan'.bulk) + TotalSize(plan'.small) == TotalSize(plan.bulk) + TotalSize(plan.small) + task.size
  {
    assert (plan.bulk + [task])[..|plan.bulk|] == plan.bulk;
    assert (plan.small + [task])[..|plan.small|] == plan.small;
  }

  lemma Take(r: Root, plan: Plan, stack: seq<Place>, p: Place, rest: seq<Item>, plan': Plan)
    requires Balanced(r, plan, stack, p, rest) && rest != []
    requires !Skipped(rest[0], r.rules) && rest[0].kind.Leaf?
    requires var task := Task(p.src + [rest[0].name], p.dst + [rest[0].name], SizeOf(rest[0].kind.len));
             && plan'.dirs == plan.dirs && plan'.skippedLinks == plan.skippedLinks
             && plan'.totalBytes == plan.totalBytes + task.size
             && (  (plan'.bulk == plan.bulk + [task] && plan'.small == plan.small)
                || (plan'.bulk == plan.bulk && plan'.small == plan.small + [task]))
    ensures Balanced(r, plan', stack, p, rest[1..]) && Load(stack, rest[1..]) <= Load(stack, rest)
  {
    hide Files; hide Dirs; hide Links; hide Weight; hide StackFiles; hide StackDirs; hide StackLinks; hide StackWeight;
    hide ExcludedBy; hide TotalSize;
    var task := Task(p.src + [rest[0].name], p.dst + [rest[0].name], SizeOf(rest[0].kind.len));
    AddTask(plan, task, plan');
    OpenLeaf(p, rest, r.rules);
  }

  // ---- the walk itself -----------------------------------------------------

  /** Put a task on the list its size belongs to. */
  method Push(plan: Plan, task: Task, threshold: nat) returns (plan': Plan)
    ensures plan' == if task.size >= threshold then plan.(bulk := plan.bulk + [task])
              else plan.(small := plan.small + [task])
  {
    if task.size >= threshold {
      plan' := plan.(bulk := plan.bulk + [task]);
    } else {
      plan' := plan.(small := plan.small + [task]);
    }
  }

  predicate Larger(a: Task, b: Task) {
    a.size > b.size
  }

  /** The files of a plan: those of the tree, once each, on the list their size belongs to. */
  ghost predicate FilesOf(r: Root, plan: Plan, threshold: nat) {
    var files := Files(r.src, r.dst, r.items, r.rules);
    && multiset(plan.bulk) + multiset(plan.small) == multiset(files)
    && Parted(plan, threshold)
    && Ascending(Larger, plan.bulk)
    && plan.totalBytes == TotalSize(files)
    && plan.skippedLinks == Links(r.items, r.rules)
  }

  /** The directories of a plan: those of the tree, in strictly ascending order. */
  ghost predicate DirsOf(r: Root, dirs: seq<Path>) {
    && (forall i, j :: 0 <= i < j < |dirs| ==> PathBelow(dirs[i], dirs[j]))
    && (forall d :: d in dirs <==> d == r.dst || d in Dirs(r.dst, r.items, r.rules))
  }

  ghost predicate PlanOf(r: Root, plan: Plan, threshold: nat) {
    FilesOf(r, plan, threshold) && DirsOf(r, plan.dirs)
  }

  lemma Start(r: Root, listing: Listing)
    requires r.items == Entries(listing)
    ensures Balanced(r, Plan([r.dst], [], [], 0, 0), [Place(listing, r.src, r.dst)], Place(listing, r.src, r.dst), [])
  {
    PushPlace([], Place(listing, r.src, r.dst), r.rules);
    assert [] + [Place(listing, r.src, r.dst)] == [Place(listing, r.src, r.dst)];
  }

  lemma SortedFiles(r: Root, plan: Plan, p: Place, threshold: nat, plan': Plan)
    requires Balanced(r, plan, [], p, []) && Parted(plan, threshold) && WeakOrder(Larger)
    requires plan'.bulk == Sort(Larger, plan.bulk) && plan'.small == plan.small
    requires plan'.totalBytes == plan.totalBytes && plan'.skippedLinks == plan.skippedLinks
    ensures FilesOf(r, plan', threshold)
  {
    hide TotalSize; hide Sort; hide Ascending; hide WeakOrder;
    var files := Files(r.src, r.dst, r.items, r.rules);
    assert multiset(plan.bulk + plan.small) == multiset(files);
    TotalSizePermutes(plan.bulk + plan.small, files);
    TotalSizeConcat(plan.bulk, plan.small);
    assert forall t :: t in plan'.bulk ==> t in multiset(plan'.bulk);
    assert forall t :: t in multiset(plan.bulk) ==> t in plan.bulk;
  }

  lemma GatheredDirs(r: Root, plan: Plan, p: Place)
    requires Balanced(r, plan, [], p, [])
    ensures multiset(plan.dirs) == multiset([r.dst] + Dirs(r.dst, r.items, r.rules))
  {}

  lemma SortedDirs(r: Root, dirs: seq<Path>)
    requires multiset(dirs) == multiset([r.dst] + Dirs(r.dst, r.items, r.rules)) && WeakOrder(PathBelow)
    ensures DirsOf(r, Dedup(Sort(PathBelow, dirs)))
  {
    hide PathBelow; hide Dirs; hide TotalOrder; hide WeakOrder; hide Ascending; hide Sort; hide Dedup;
    var sorted := Sort(PathBelow, dirs);
    var expected := [r.dst] + Dirs(r.dst, r.items, r.rules);
    PathsAreOrdered();
    DedupSorts(PathBelow, sorted);
    forall d ensures d in sorted <==> d in expected {
      assert d in sorted <==> d in multiset(sorted);
      assert d in expected <==> d in multiset(expected);
    }
  }

  /** One entry of a listing: pass over it, count it as a link, push it or plan it. */
  method Visit(ghost r: Root, plan: Plan, stack: seq<Place>, place: Place, items: seq<Item>, i: nat,
               threshold: nat, rules: Rules) returns (plan': Plan, stack': seq<Place>)
    requires i < |items| && r.rules == rules
    requires Balanced(r, plan, stack, place, items[i..]) && Parted(plan, threshold)
    ensures Balanced(r, plan', stack', place, items[i + 1..]) && Parted(plan', threshold)
    ensures Load(stack', items[i + 1..]) <= Load(stack, items[i..])
  {
    hide Balanced; hide ExcludedBy; hide Load;
    plan', stack' := plan, stack;
    var item := items[i];
    assert items[i..][0] == item && items[i..][1..] == items[i + 1..];
    var skip := item.Broken?;
    if !skip {
      skip := Excluded(item.name, rules.patterns, rules.fold);
    }
    if skip || item.kind.NoType? {
      PassOver(r, plan, stack, place, items[i..]);
    } else if item.kind.Link? {
      PassLink(r, plan, stack, place, items[i..]);
      plan' := plan.(skippedLinks := plan.skippedLinks + 1);
    } else {
      var childSrc, childDst := place.src + [item.name], place.dst + [item.name];
      if item.kind.Folder? {
        Descend(r, plan, stack, place, items[i..]);
        plan' := plan.(dirs := plan.dirs + [childDst]);
        stack' := stack + [Place(item.kind.listing, childSrc, childDst)];
      } else {
        var size := SizeOf(item.kind.len);
        plan' := plan.(totalBytes := plan.totalBytes + size);
        plan' := Push(plan', Task(childSrc, childDst, size), threshold);
        Take(r, plan, stack, place, items[i..], plan');
      }
    }
  }

  /** A path ends in a file name unless it is empty or steps up. */
  predicate HasFileName(src: Path) {
    src != [] && src[|src| - 1] != ".."
  }

  /**
   The scan.  `dstIsDir` tells whether the destination is an existing directory, which matters to
   a source that is a single file.
   */
  method Scan(source: Source, src: Path, dst: Path, dstIsDir: bool, threshold: nat,
      rules: Rules) returns (result: Scanned)
    ensures source.Absent? ==> result == CannotRead
    ensures source.PlainFile? && dstIsDir && (src == [] || src[|src| - 1] == "..") ==> result == NoFileName
    ensures source.PlainFile? && !(dstIsDir && (src == [] || src[|src| - 1] == "..")) ==>
              var target := if dstIsDir then dst + [src[|src| - 1]] else dst;
              && result.Planned?
              && result.plan.bulk == (if source.len >= threshold then [Task(src, target, source.len)] else [])
              && result.plan.small == (if source.len >= threshold then [] else [Task(src, target, source.len)])
              && result.plan.dirs == (if target == [] then [] else [target[..|target| - 1]])
              && result.plan.totalBytes == 0 && result.plan.skippedLinks == 0
    ensures source.Directory? ==>
              result.Planned? && PlanOf(Root(src, dst, Entries(source.listing), rules), result.plan, threshold)
  {
    hide Load; hide Balanced; hide PathBelow; hide FilesOf; hide DirsOf; hide TotalSize; hide Sort; hide Dedup;
    if source.Absent? {
      return CannotRead;
    }
    var plan := Plan([], [], [], 0, 0);
    if source.PlainFile? {
      var target := dst;
      if dstIsDir {
        if !HasFileName(src) {
          return NoFileName;
        }
        target := dst + [src[|src| - 1]];
      }
      if target != [] {
        plan := plan.(dirs := plan.dirs + [Parent(target)]);
      }
      plan := Push(plan, Task(src, target, source.len), threshold);
      return Planned(plan);
    }

    ghost var r := Root(src, dst, Entries(source.listing), rules);
    plan := plan.(dirs := plan.dirs + [dst]);
    var place := Place(source.listing, src, dst);
    var stack := [place];
    assert plan.dirs == [dst];
    Start(r, source.listing);
    while stack != []
      invariant Balanced(r, plan, stack, place, []) && Parted(plan, threshold)
      decreases Load(stack, [])
    {
      Pop(r, plan, stack, place);
      place := stack[|stack| - 1];
      stack := stack[..|stack| - 1];
      if place.listing.Unreadable? {
        continue;
      }
      var items := place.listing.items;
      ghost var load := Load(stack, items);
      var i := 0;
      while i < |items|
        invariant 0 <= i <= |items|
        invariant Balanced(r, plan, stack, place, items[i..]) && Parted(plan, threshold)
        invariant Load(stack, items[i..]) <= load
      {
        plan, stack := Visit(r, plan, stack, place, items, i, threshold, rules);
        i := i + 1;
      }
      assert items[i..] == [];
    }
    PathsAreOrdered();
    ghost var gathered := plan;
    plan := plan.(dirs := Dedup(Sort(PathBelow, plan.dirs)));
    plan := plan.(bulk := Sort(Larger, plan.bulk));
    SortedFiles(r, gathered, place, threshold, plan);
    GatheredDirs(r, gathered, place);
    SortedDirs(r, gathered.dirs);
    result := Planned(plan);
  }
}
