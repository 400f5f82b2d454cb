/** What a plan takes from a tree and what it leaves: told by names, patterns and what is on disk. */
module Selection {
  import opened Glob
  import opened Options
  import opened Ordering
  import opened Pipeline
  import opened Scanner
  import opened TreeCopy
  import opened Walk

  // ---- the tree, before any exclusion --------------------------------------

  /** Through readable directories `names` lead to an entry of kind `kind`. */
  ghost predicate Reaches(items: seq<Item>, names: Path, kind: Kind)
    decreases |names|, 1
  {
    exists item :: item in items && ReachesFrom(item, names, kind)
  }

  ghost predicate ReachesFrom(item: Item, names: Path, kind: Kind)
    decreases |names|, 0
  {
    && names != [] && item.Named? && item.name == names[0]
    && if |names| == 1 then item.kind == kind
       else item.kind.Folder? && item.kind.listing.Listing? && Reaches(item.kind.listing.items, names[1..], kind)
  }

  /** No pattern decides for the name. */
  ghost predicate Allowed(name: string, rules: Rules) {
    forall p :: p in rules.patterns ==> !Decides(rules.fold(p), rules.fold(name))
  }

  ghost predicate AllAllowed(names: Path, rules: Rules) {
    forall k :: 0 <= k < |names| ==> Allowed(names[k], rules)
  }

  /** The length on disk if it is known, and zero otherwise. */
  predicate SizeFor(len: Option<nat>, size: nat) {
    match len
    case None => size == 0
    case Some(n) => size == n
  }

  ghost predicate OnDisk(items: seq<Item>, names: Path, size: nat) {
    exists len :: SizeFor(len, size) && Reaches(items, names, Leaf(len))
  }

  ghost predicate DirOnDisk(items: seq<Item>, names: Path) {
    exists listing :: Reaches(items, names, Folder(listing))
  }

  lemma SkippedMeans(item: Item, rules: Rules)
    ensures !Skipped(item, rules) <==> item.Named? && Allowed(item.name, rules)
  {
    if item.Named? && ExcludedBy(item.name, rules.patterns, rules.fold) {
      var i :| 0 <= i < |rules.patterns| && Decides(rules.fold(rules.patterns[i]), rules.fold(item.name));
      assert rules.patterns[i] in rules.patterns;
    }
  }

  lemma AllowedTail(names: Path, rules: Rules)
    requires names != []
    ensures AllAllowed(names, rules) <==> Allowed(names[0], rules) && AllAllowed(names[1..], rules)
  {
    assert names == [names[0]] + names[1..];
  }

  // ---- files ---------------------------------------------------------------

  lemma {:induction false} LeadsIsReached(items: seq<Item>, names: Path, size: nat, rules: Rules)
    requires Leads(items, names, size, rules)
    ensures names != [] && AllAllowed(names, rules) && OnDisk(items, names, size)
    decreases |names|
  {
    var item :| item in items && LeadsFrom(item, names, size, rules);
    SkippedMeans(item, rules);
    AllowedTail(names, rules);
    if |names| == 1 {
      assert ReachesFrom(item, names, Leaf(item.kind.len)) && SizeFor(item.kind.len, size);
    } else {
      LeadsIsReached(Entries(item.kind.listing), names[1..], size, rules);
      var len :| SizeFor(len, size) && Reaches(Entries(item.kind.listing), names[1..], Leaf(len));
      ReachedThrough(items, item, names, Leaf(len));
    }
  }

  lemma ReachedThrough(items: seq<Item>, item: Item, names: Path, kind: Kind)
    requires item in items && |names| > 1 && item.Named? && item.name == names[0] && item.kind.Folder?
    requires Reaches(Entries(item.kind.listing), names[1..], kind)
    ensures Reaches(items, names, kind)
  {
    assert item.kind.listing.Listing?;
    assert ReachesFrom(item, names, kind);
  }

  lemma {:induction false} ReachedLeads(items: seq<Item>, names: Path, len: Option<nat>, size: nat, rules: Rules)
    requires Reaches(items, names, Leaf(len)) && SizeFor(len, size) && AllAllowed(names, rules)
    ensures Leads(items, names, size, rules)
    decreases |names|
  {
    var item :| item in items && ReachesFrom(item, names, Leaf(len));
    SkippedMeans(item, rules);
    AllowedTail(names, rules);
    if |names| > 1 {
      ReachedLeads(item.kind.listing.items, names[1..], len, size, rules);
    }
    assert LeadsFrom(item, names, size, rules);
  }

  lemma FileSelected(items: seq<Item>, names: Path, size: nat, rules: Rules)
    ensures Leads(items, names, size, rules) <==> AllAllowed(names, rules) && OnDisk(items, names, size)
  {
    if Leads(items, names, size, rules) {
      LeadsIsReached(items, names, size, rules);
    }
    if AllAllowed(names, rules) && OnDisk(items, names, size) {
      var len :| SizeFor(len, size) && Reaches(items, names, Leaf(len));
      ReachedLeads(items, names, len, size, rules);
    }
  }

  // ---- directories ---------------------------------------------------------

  lemma {:induction false} LeadsToDirIsReached(items: seq<Item>, names: Path, rules: Rules)
    requires LeadsToDir(items, names, rules)
    ensures names != [] && AllAllowed(names, rules) && DirOnDisk(items, names)
    decreases |names|
  {
    var item :| item in items && LeadsToDirFrom(item, names, rules);
    SkippedMeans(item, rules);
    AllowedTail(names, rules);
    if |names| == 1 {
      assert ReachesFrom(item, names, Folder(item.kind.listing));
    } else {
      LeadsToDirIsReached(Entries(item.kind.listing), names[1..], rules);
      var listing :| Reaches(Entries(item.kind.listing), names[1..], Folder(listing));
      ReachedThrough(items, item, names, Folder(listing));
    }
  }

  lemma {:induction false} ReachedLeadsToDir(items: seq<Item>, names: Path, listing: Listing, rules: Rules)
    requires Reaches(items, names, Folder(listing)) && AllAllowed(names, rules)
    ensures LeadsToDir(items, names, rules)
    decreases |names|
  {
    var item :| item in items && ReachesFrom(item, names, Folder(listing));
    SkippedMeans(item, rules);
    AllowedTail(names, rules);
    if |names| > 1 {
      ReachedLeadsToDir(item.kind.listing.items, names[1..], listing, rules);
    }
    assert LeadsToDirFrom(item, names, rules);
  }

  lemma DirSelected(items: seq<Item>, names: Path, rules: Rules)
    ensures LeadsToDir(items, names, rules) <==> AllAllowed(names, rules) && DirOnDisk(items, names)
  {
    if LeadsToDir(items, names, rules) {
      LeadsToDirIsReached(items, names, rules);
    }
    if AllAllowed(names, rules) && DirOnDisk(items, names) {
      var listing :| Reaches(items, names, Folder(listing));
      ReachedLeadsToDir(items, names, listing, rules);
    }
  }

  // ---- links ---------------------------------------------------------------

  /** The links passed over, by the names that lead to them. */
  ghost function LinkNames(items: seq<Item>, rules: Rules): seq<Path>
    decreases items
  {
    if items == [] then []
    else
      var rest := LinkNames(items[1..], rules);
      if Skipped(items[0], rules) then rest
      else
        match items[0].kind
        case Folder(Listing(inner)) => Under(items[0].name, LinkNames(inner, rules)) + rest
        case Link => [[items[0].name]] + rest
        case _ => rest
  }

  function Under(name: string, paths: seq<Path>): (r: seq<Path>)
    ensures |r| == |paths| && forall k :: 0 <= k < |r| ==> r[k] == [name] + paths[k]
  {
    seq(|paths|, k requires 0 <= k < |paths| => [name] + paths[k])
  }

  lemma {:induction false} LinksCounted(items: seq<Item>, rules: Rules)
    ensures |LinkNames(items, rules)| == Links(items, rules)
    decreases items
  {
    if items != [] {
      LinksCounted(items[1..], rules);
      if items[0].Named? && items[0].kind.Folder? && items[0].kind.listing.Listing? {
        LinksCounted(items[0].kind.listing.items, rules);
      }
    }
  }

  ghost predicate LinkAt(items: seq<Item>, names: Path, rules: Rules) {
    AllAllowed(names, rules) && Reaches(items, names, Link)
  }

  lemma UnderIn(name: string, paths: seq<Path>, names: Path)
    ensures names in Under(name, paths) <==> names != [] && names[0] == name && names[1..] in paths
  {
    if names != [] && names[0] == name && names[1..] in paths {
      var k :| 0 <= k < |paths| && paths[k] == names[1..];
      assert Under(name, paths)[k] == names;
    }
    if names in Under(name, paths) {
      var k :| 0 <= k < |paths| && Under(name, paths)[k] == names;
      assert names[1..] == paths[k];
    }
  }

  lemma ReachesSplits(items: seq<Item>, names: Path, kind: Kind)
    requires items != []
    ensures Reaches(items, names, kind) <==> ReachesFrom(items[0], names, kind) || Reaches(items[1..], names, kind)
  {
    assert items == [items[0]] + items[1..];
  }

  lemma {:induction false} LinksFound(items: seq<Item>, rules: Rules, names: Path)
    ensures names in LinkNames(items, rules) <==> LinkAt(items, names, rules)
    decreases items
  {
    if items != [] {
      LinksFound(items[1..], rules, names);
      ReachesSplits(items, names, Link);
      LinkHere(items[0], rules, names);
      if names != [] && !Skipped(items[0], rules) && items[0].kind.Folder? && items[0].kind.listing.Listing? {
        LinksFound(items[0].kind.listing.items, rules, names[1..]);
      }
      if !Skipped(items[0], rules) && items[0].kind.Folder? && items[0].kind.listing.Listing? {
        UnderIn(items[0].name, LinkNames(items[0].kind.listing.items, rules), names);
      }
    }
  }

  /** Whether a link is reached through one entry of a listing. */
  lemma LinkHere(item: Item, rules: Rules, names: Path)
    ensures AllAllowed(names, rules) && ReachesFrom(item, names, Link) <==>
              && names != [] && !Skipped(item, rules) && item.name == names[0]
              && (|| (names == [item.name] && item.kind.Link?)
                  || (item.kind.Folder? && item.kind.listing.Listing?
                      && LinkAt(item.kind.listing.items, names[1..], rules)))
  {
    SkippedMeans(item, rules);
    if names != [] {
      AllowedTail(names, rules);
      assert names == [names[0]] + names[1..];
    }
    if |names| == 1 && item.Named? && item.kind.Folder? && item.kind.listing.Listing? {
      assert !Reaches(item.kind.listing.items, [], Link);
    }
  }

  ghost predicate NoRepeats(paths: seq<Path>) {
    forall i, j :: 0 <= i < j < |paths| ==> paths[i] != paths[j]
  }

  lemma UnderOnce(name: string, paths: seq<Path>)
    requires NoRepeats(paths)
    ensures NoRepeats(Under(name, paths))
  {
    forall i, j | 0 <= i < j < |paths| ensures Under(name, paths)[i] != Under(name, paths)[j] {
      assert Under(name, paths)[i][1..] == paths[i] && Under(name, paths)[j][1..] == paths[j];
    }
  }

  lemma {:induction false} LinksOnce(items: seq<Item>, rules: Rules)
    requires DistinctNames(items)
    ensures NoRepeats(LinkNames(items, rules))
    decreases items
  {
    if items != [] {
      LinksOnce(items[1..], rules);
      if !Skipped(items[0], rules) {
        var rest := LinkNames(items[1..], rules);
        var here := match items[0].kind
                    case Folder(Listing(inner)) => Under(items[0].name, LinkNames(inner, rules))
                    case Link => [[items[0].name]]
                    case _ => [];
        if items[0].kind.Folder? && items[0].kind.listing.Listing? {
          LinksOnce(items[0].kind.listing.items, rules);
          UnderOnce(items[0].name, LinkNames(items[0].kind.listing.items, rules));
        }
        forall i, j | 0 <= i < j < |here + rest| ensures (here + rest)[i] != (here + rest)[j] {
          if i < |here| <= j {
            FirstLinkStep(items, rules, rest[j - |here|]);
          }
        }
      }
    }
  }

  lemma FirstLinkStep(items: seq<Item>, rules: Rules, names: Path)
    requires items != [] && DistinctNames(items) && items[0].Named? && names in LinkNames(items[1..], rules)
    ensures names != [] && names[0] != items[0].name
  {
    LinksFound(items[1..], rules, names);
    var item :| item in items[1..] && ReachesFrom(item, names, Link);
    var k :| 0 <= k < |items[1..]| && items[1..][k] == item;
    assert items[k + 1] == item;
  }

  // ---- the plan ------------------------------------------------------------

  /** A file on disk none of whose names a pattern decides for, and its place below the destination. */
  ghost predicate Selected(r: Root, t: Task) {
    exists names :: AllAllowed(names, r.rules) && OnDisk(r.items, names, t.size)
      && t == Task(r.src + names, r.dst + names, t.size)
  }

  ghost predicate DirSelectedFor(r: Root, d: Path) {
    exists names :: AllAllowed(names, r.rules) && DirOnDisk(r.items, names) && d == r.dst + names
  }

  lemma TaskSelected(r: Root, t: Task)
    ensures IsTask(r.src, r.dst, r.items, t, r.rules) <==> Selected(r, t)
  {
    if IsTask(r.src, r.dst, r.items, t, r.rules) {
      var names := t.dst[|r.dst|..];
      FileSelected(r.items, names, t.size, r.rules);
      assert t.dst == r.dst + names;
    }
    if Selected(r, t) {
      var names :| AllAllowed(names, r.rules) && OnDisk(r.items, names, t.size)
        && t == Task(r.src + names, r.dst + names, t.size);
      FileSelected(r.items, names, t.size, r.rules);
      LeadsIsReached(r.items, names, t.size, r.rules);
      assert t.dst[|r.dst|..] == names;
    }
  }

  lemma DirIsSelected(r: Root, d: Path)
    ensures d in Dirs(r.dst, r.items, r.rules) <==> DirSelectedFor(r, d)
  {
    DirsAreLeads(r.dst, r.items, r.rules, d);
    if Below(r.dst, d) && LeadsToDir(r.items, d[|r.dst|..], r.rules) {
      var names := d[|r.dst|..];
      DirSelected(r.items, names, r.rules);
      assert d == r.dst + names;
    }
    if DirSelectedFor(r, d) {
      var names :| AllAllowed(names, r.rules) && DirOnDisk(r.items, names) && d == r.dst + names;
      DirSelected(r.items, names, r.rules);
      LeadsToDirIsReached(r.items, names, r.rules);
      assert d[|r.dst|..] == names;
    }
  }

  /**
   A plan holds exactly the files on disk that readable directories lead to and none of whose names a
   pattern decides for, with their lengths: the large ones by falling length, the others apart.
   */
  lemma PlanSelects(r: Root, plan: Plan, threshold: nat)
    requires FilesOf(r, plan, threshold)
    ensures forall t :: t in plan.bulk <==> Selected(r, t) && t.size >= threshold
    ensures forall t :: t in plan.small <==> Selected(r, t) && t.size < threshold
    ensures forall i, j :: 0 <= i < j < |plan.bulk| ==> plan.bulk[i].size >= plan.bulk[j].size
  {
    PlanIsTree(r, plan, threshold);
    hide Selected; hide IsTask; hide Files;
    forall t
      ensures t in plan.bulk <==> Selected(r, t) && t.size >= threshold
      ensures t in plan.small <==> Selected(r, t) && t.size < threshold
    {
      TaskSelected(r, t);
      assert t in plan.bulk + plan.small <==> t in plan.bulk || t in plan.small;
    }
  }

  /** The directories of a plan are the destination and those that readable, allowed directories lead to. */
  lemma PlanSelectsDirs(r: Root, dirs: seq<Path>)
    requires DirsOf(r, dirs)
    ensures forall d :: d in dirs <==> d == r.dst || DirSelectedFor(r, d)
  {
    hide DirSelectedFor; hide Dirs;
    forall d ensures d in dirs <==> d == r.dst || DirSelectedFor(r, d) {
      DirIsSelected(r, d);
    }
  }

  /** The links a scan passes over are counted: as many as allowed names lead to, each once. */
  lemma LinksPassedOver(r: Root, plan: Plan, threshold: nat) returns (links: seq<Path>)
    requires FilesOf(r, plan, threshold)
    ensures |links| == plan.skippedLinks
    ensures forall names :: names in links <==> AllAllowed(names, r.rules) && Reaches(r.items, names, Link)
    ensures DistinctNames(r.items) ==> NoRepeats(links)
  {
    links := LinkNames(r.items, r.rules);
    LinksCounted(r.items, r.rules);
    forall names ensures names in links <==> AllAllowed(names, r.rules) && Reaches(r.items, names, Link) {
      LinksFound(r.items, r.rules, names);
    }
    if DistinctNames(r.items) {
      LinksOnce(r.items, r.rules);
    }
  }

  /**
   No name of a planned file or directory below the root is one that a pattern decides for, nor one that a
   pattern means if it has no star of its own.
   */
  lemma ExcludedStaysOut(r: Root, plan: Plan, threshold: nat, path: Path, k: nat, p: string)
    requires PlanOf(r, plan, threshold) && |r.dst| <= k < |path| && p in r.rules.patterns
    requires path in plan.dirs || exists t :: t in plan.bulk + plan.small && t.dst == path
    ensures !Decides(r.rules.fold(p), r.rules.fold(path[k]))
    ensures '*' !in r.rules.fold(path[k]) ==> !Means(r.rules.fold(p), r.rules.fold(path[k]))
  {
    var names := NamesOf(r, plan, threshold, path);
    assert path[k] == names[k - |r.dst|];
    assert Allowed(names[k - |r.dst|], r.rules);
    if '*' !in r.rules.fold(path[k]) {
      DecidesIsMeaning(r.rules.fold(p), r.rules.fold(path[k]));
    }
  }

  lemma NamesOf(r: Root, plan: Plan, threshold: nat, path: Path) returns (names: Path)
    requires PlanOf(r, plan, threshold) && |path| > |r.dst|
    requires path in plan.dirs || exists t :: t in plan.bulk + plan.small && t.dst == path
    ensures path == r.dst + names && AllAllowed(names, r.rules)
  {
    hide FilesOf; hide DirsOf; hide AllAllowed; hide OnDisk; hide DirOnDisk;
    if path in plan.dirs {
      PlanSelectsDirs(r, plan.dirs);
      names :| AllAllowed(names, r.rules) && DirOnDisk(r.items, names) && path == r.dst + names;
    } else {
      var t :| t in plan.bulk + plan.small && t.dst == path;
      PlanSelects(r, plan, threshold);
      assert Selected(r, t);
      names :| AllAllowed(names, r.rules) && OnDisk(r.items, names, t.size)
        && t == Task(r.src + names, r.dst + names, t.size);
    }
  }
}
