/** Walking the source tree and planning the copy. */
module Scanner {
  import opened Glob
  import opened Options
  import opened Ordering
  import opened Pipeline

  // ---- what is on disk -----------------------------------------------------

  /** What listing a directory gives. */
  datatype Listing = Unreadable | Listing(items: seq<Item>)

  /** One entry of a listing; a broken one could not be read. */
  datatype Item = Broken | Named(name: string, kind: Kind)

  /** The size of a file is missing when its metadata cannot be read. */
  datatype Kind = NoType | Link | Folder(listing: Listing) | Leaf(len: Option<nat>)

  datatype Source = Absent | PlainFile(len: nat) | Directory(listing: Listing)

  datatype Task = Task(src: Path, dst: Path, size: nat)

  datatype Plan = Plan(dirs: seq<Path>, bulk: seq<Task>, small: seq<Task>, totalBytes: nat, skippedLinks: nat)

  datatype Scanned = Planned(plan: Plan) | CannotRead | NoFileName

  /** A directory still to be walked. */
  datatype Place = Place(listing: Listing, src: Path, dst: Path)

  /** The exclusion patterns and the folding to lower case. */
  datatype Rules = Rules(patterns: seq<string>, fold: string -> Text)

  function SizeOf(len: Option<nat>): nat {
    if len.Some? then len.value else 0
  }

  predicate Skipped(item: Item, rules: Rules) {
    item.Broken? || ExcludedBy(item.name, rules.patterns, rules.fold)
  }

  function Entries(listing: Listing): seq<Item> {
    if listing.Listing? then listing.items else []
  }

  // ---- the meaning of the walk ---------------------------------------------

  /** The files below a directory, rebased. */
  ghost function Files(src: Path, dst: Path, items: seq<Item>, rules: Rules): seq<Task>
    decreases items
  {
    if items == [] then []
    else
      var rest := Files(src, dst, items[1..], rules);
      if Skipped(items[0], rules) then rest
      else
        var name := items[0].name;
        match items[0].kind
        case Folder(Listing(inner)) => Files(src + [name], dst + [name], inner, rules) + rest
        case Leaf(len) => [Task(src + [name], dst + [name], SizeOf(len))] + rest
        case _ => rest
  }

  /** The directories below a directory. */
  ghost function Dirs(dst: Path, items: seq<Item>, rules: Rules): seq<Path>
    decreases items
  {
    if items == [] then []
    else
      var rest := Dirs(dst, items[1..], rules);
      if Skipped(items[0], rules) then rest
      else
        var name := items[0].name;
        match items[0].kind
        case Folder(Listing(inner)) => [dst + [name]] + Dirs(dst + [name], inner, rules) + rest
        case Folder(Unreadable) => [dst + [name]] + rest
        case _ => rest
  }

  /** The links passed over. */
  ghost function Links(items: seq<Item>, rules: Rules): nat {
    if items == [] then 0
    else
      var rest := Links(items[1..], rules);
      if Skipped(items[0], rules) then rest
      else
        match items[0].kind
        case Folder(Listing(inner)) => Links(inner, rules) + rest
        case Link => 1 + rest
        case _ => rest
  }

  ghost function Weight(items: seq<Item>): nat {
    if items == [] then 0
    else
      var rest := Weight(items[1..]);
      if items[0].Broken? then rest
      else
        match items[0].kind
        case Folder(Listing(inner)) => 1 + Weight(inner) + rest
        case Folder(Unreadable) => 1 + rest
        case _ => rest
  }

  /**
   A file of the tree, told by the names that lead to it: no step is broken or excluded, every
   step but the last is a readable directory, none is a link, and the last is a file.
   */
  ghost predicate Leads(items: seq<Item>, names: Path, size: nat, rules: Rules)
    decreases |names|, 1
  {
    exists item :: item in items && LeadsFrom(item, names, size, rules)
  }

  ghost predicate LeadsFrom(item: Item, names: Path, size: nat, rules: Rules)
    decreases |names|, 0
  {
    && names != [] && !Skipped(item, rules) && item.name == names[0]
    && if |names| == 1 then item.kind.Leaf? && size == SizeOf(item.kind.len)
       else item.kind.Folder? && Leads(Entries(item.kind.listing), names[1..], size, rules)
  }

  /** A directory of the tree, told by the names that lead to it. */
  ghost predicate LeadsToDir(items: seq<Item>, names: Path, rules: Rules)
    decreases |names|, 1
  {
    exists item :: item in items && LeadsToDirFrom(item, names, rules)
  }

  ghost predicate LeadsToDirFrom(item: Item, names: Path, rules: Rules)
    decreases |names|, 0
  {
    && names != [] && !Skipped(item, rules) && item.name == names[0] && item.kind.Folder?
    && (|names| == 1 || LeadsToDir(Entries(item.kind.listing), names[1..], rules))
  }

  predicate Below(base: Path, path: Path) {
    |base| < |path| && path[..|base|] == base
  }

  ghost predicate IsTask(src: Path, dst: Path, items: seq<Item>, task: Task, rules: Rules) {
    && Below(dst, task.dst) && task.src == src + task.dst[|dst|..]
    && Leads(items, task.dst[|dst|..], task.size, rules)
  }

  lemma BelowChild(base: Path, name: string, path: Path)
    ensures Below(base + [name], path) <==> Below(base, path) && |path| > |base| + 1 && path[|base|] == name
    ensures Below(base, path) ==> path[|base|..][1..] == path[|base| + 1..]
  {
    if Below(base, path) && |path| > |base| + 1 && path[|base|] == name {
      assert path[..|base| + 1] == path[..|base|] + [name];
    }
    if Below(base + [name], path) {
      assert path[..|base|] == path[..|base| + 1][..|base|];
      assert path[|base|] == path[..|base| + 1][|base|];
    }
  }

  /** What a file adds to the walk is the task that its own name leads to. */
  lemma LeafLeads(src: Path, dst: Path, item: Item, rules: Rules, task: Task)
    requires !Skipped(item, rules) && item.kind.Leaf?
    ensures task == Task(src + [item.name], dst + [item.name], SizeOf(item.kind.len)) <==>
              Below(dst, task.dst) && task.src == src + task.dst[|dst|..]
                  && LeadsFrom(item, task.dst[|dst|..], task.size, rules)
  {
    if Below(dst, task.dst) && |task.dst| == |dst| + 1 && task.dst[|dst|] == item.name {
      assert task.dst == dst + [item.name] && task.dst[|dst|..] == [item.name];
    }
    if task.dst == dst + [item.name] {
      assert task.dst[|dst|..] == [item.name];
    }
  }

  /** The recursion finds exactly the files of the tree, each with its path rebased. */
  lemma {:induction false} FilesAreLeads(src: Path, dst: Path, items: seq<Item>, rules: Rules, task: Task)
    ensures task in Files(src, dst, items, rules) <==> IsTask(src, dst, items, task, rules)
    decreases items
  {
    if items != [] {
      FilesAreLeads(src, dst, items[1..], rules, task);
      var names := if Below(dst, task.dst) then task.dst[|dst|..] else [];
      assert items == [items[0]] + items[1..];
      assert Leads(items, names, task.size, rules)
        == (LeadsFrom(items[0], names, task.size, rules) || Leads(items[1..], names, task.size, rules));
      if !Skipped(items[0], rules) {
        var name := items[0].name;
        BelowChild(dst, name, task.dst);
        match items[0].kind
        case Folder(Listing(inner)) =>
          FilesAreLeads(src + [name], dst + [name], inner, rules, task);
          if Below(dst + [name], task.dst) {
            assert src + [name] + task.dst[|dst| + 1..] == src + names;
          }
        case Leaf(len) =>
          LeafLeads(src, dst, items[0], rules, task);
        case Folder(Unreadable) =>
          assert !Leads([], if names == [] then [] else names[1..], task.size, rules);
        case _ =>
      }
    }
  }

  /** What a directory leads to is itself and what its listing leads to. */
  lemma FolderLeads(dst: Path, item: Item, rules: Rules, path: Path)
    requires !Skipped(item, rules) && item.kind.Folder?
    ensures var inside := dst + [item.name];
            Below(dst, path) && LeadsToDirFrom(item, path[|dst|..], rules) <==>
              path == inside
              || (Below(inside, path) && LeadsToDir(Entries(item.kind.listing), path[|inside|..], rules))
  {
    BelowChild(dst, item.name, path);
    if Below(dst, path) && |path| == |dst| + 1 && path[|dst|] == item.name {
      assert path == dst + [item.name];
    }
    if path == dst + [item.name] {
      assert path[|dst|..] == [item.name];
    }
  }

  /** The recursion finds exactly the directories of the tree. */
  lemma {:induction false} DirsAreLeads(dst: Path, items: seq<Item>, rules: Rules, path: Path)
    ensures path in Dirs(dst, items, rules) <==> Below(dst, path) && LeadsToDir(items, path[|dst|..], rules)
    decreases items
  {
    if items != [] {
      DirsAreLeads(dst, items[1..], rules, path);
      var names := if Below(dst, path) then path[|dst|..] else [];
      assert items == [items[0]] + items[1..];
      assert LeadsToDir(items, names, rules)
        == (LeadsToDirFrom(items[0], names, rules) || LeadsToDir(items[1..], names, rules));
      if !Skipped(items[0], rules) && items[0].kind.Folder? {
        FolderLeads(dst, items[0], rules, path);
        match items[0].kind.listing
        case Listing(inner) =>
          DirsAreLeads(dst + [items[0].name], inner, rules, path);
        case Unreadable =>
          assert forall rest :: !LeadsToDir([], rest, rules);
      }
    }
  }

  // ---- distinct names give distinct destinations ---------------------------

  /** No directory lists a name twice. */
  ghost predicate DistinctNames(items: seq<Item>) {
    items != [] ==>
      && DistinctNames(items[1..])
      && (items[0].Named? ==>
        && (forall k :: 1 <= k < |items| && items[k].Named? ==> items[k].name != items[0].name)
        && match items[0].kind
           case Folder(Listing(inner)) => DistinctNames(inner)
           case _ => true)
  }

  ghost predicate Distinct(tasks: seq<Task>) {
    forall i, j :: 0 <= i < j < |tasks| ==> tasks[i].dst != tasks[j].dst
  }

  /** The first step of a planned file is one of the listed names. */
  lemma FirstStep(src: Path, dst: Path, items: seq<Item>, rules: Rules, task: Task) returns (k: nat)
    requires task in Files(src, dst, items, rules)
    ensures Below(dst, task.dst) && k < |items| && items[k].Named? && task.dst[|dst|] == items[k].name
  {
    FilesAreLeads(src, dst, items, rules, task);
    var item :| item in items && LeadsFrom(item, task.dst[|dst|..], task.size, rules);
    k :| k < |items| && items[k] == item;
  }

  lemma {:induction false} DistinctDestinations(src: Path, dst: Path, items: seq<Item>, rules: Rules)
    requires DistinctNames(items)
    ensures Distinct(Files(src, dst, items, rules))
    decreases items
  {
    if items != [] {
      DistinctDestinations(src, dst, items[1..], rules);
      if !Skipped(items[0], rules) {
        var name := items[0].name;
        var rest := Files(src, dst, items[1..], rules);
        forall t | t in rest ensures Below(dst, t.dst) && t.dst[|dst|] != name {
          var k := FirstStep(src, dst, items[1..], rules, t);
          assert items[k + 1] == items[1..][k];
        }
        match items[0].kind
        case Folder(Listing(inner)) =>
          var here := Files(src + [name], dst + [name], inner, rules);
          DistinctDestinations(src + [name], dst + [name], inner, rules);
          forall t | t in here ensures Below(dst, t.dst) && t.dst[|dst|] == name {
            FilesAreLeads(src + [name], dst + [name], inner, rules, t);
            BelowChild(dst, name, t.dst);
          }
          forall i, j | 0 <= i < j < |here + rest| ensures (here + rest)[i].dst != (here + rest)[j].dst {
            assert i < |here| ==> here[i] in here;
            assert j >= |here| ==> rest[j - |here|] in rest;
          }
        case Leaf(len) =>
          forall i | 0 <= i < |rest| ensures rest[i].dst != dst + [name] {
            assert rest[i] in rest;
          }
        case _ =>
      }
    }
  }

  // ---- parents -------------------------------------------------------------

  function Parent(path: Path): Path
    requires path != []
  {
    path[..|path| - 1]
  }

  /** A prefix of a path through the tree is a directory of the tree. */
  lemma {:induction false} LeadsThroughDirs(items: seq<Item>, names: Path, size: nat, rules: Rules)
    requires Leads(items, names, size, rules) && |names| > 1
    ensures LeadsToDir(items, Parent(names), rules)
    decreases |names|
  {
    var item :| item in items && LeadsFrom(item, names, size, rules);
    if |names| > 2 {
      LeadsThroughDirs(Entries(item.kind.listing), names[1..], size, rules);
      assert Parent(names)[1..] == Parent(names[1..]);
    }
    assert LeadsToDirFrom(item, Parent(names), rules);
  }

  lemma {:induction false} DirsThroughDirs(items: seq<Item>, names: Path, rules: Rules)
    requires LeadsToDir(items, names, rules) && |names| > 1
    ensures LeadsToDir(items, Parent(names), rules)
    decreases |names|
  {
    var item :| item in items && LeadsToDirFrom(item, names, rules);
    if |names| > 2 {
      DirsThroughDirs(Entries(item.kind.listing), names[1..], rules);
      assert Parent(names)[1..] == Parent(names[1..]);
    }
    assert LeadsToDirFrom(item, Parent(names), rules);
  }
}
