/** The budgeted search for mounted models: a walk over a finite directory tree, as a scan returns it. */
module ModelMounts {
  import opened Messages
  import opened NameOrder

  // What a directory holds of `config.json` and the provenance manifest.
  datatype ModelConfig = NoConfig | ConfigUnreadable | GoodModel(identity: int) | BadModel(reason: int)

  // `entries` is what the scan returns, in its order; an unreadable directory fails after them.
  datatype Dir = Dir(config: ModelConfig, readable: bool, entries: seq<Entry>)

  datatype Entry = Entry(name: string, kind: EntryKind)

  datatype EntryKind = PlainFile | Folder(dir: Dir) | Uninspectable

  datatype Child = Child(name: string, dir: Dir)

  datatype Candidate = Candidate(path: string, identity: int)

  datatype Fault =
    | RootUninspectable
    | RootNotDirectory
    | OverBudget
    | ConfigFault(path: string)
    | ModelFault(path: string, reason: int)
    | EntryFault(path: string)
    | DirFault(path: string)

  // The lists and the counter that the visits share.
  datatype Found = Found(budget: nat, candidates: seq<Candidate>, errors: seq<Fault>)

  datatype Root = Absent | RootFault | NotADirectory | Directory(path: string, dir: Dir)

  datatype Discovered = Raised(fault: Fault) | Models(candidates: seq<Candidate>)

  function ChildName(c: Child): string { c.name }

  function CandidatePath(c: Candidate): string { c.path }

  function Below(at: string, name: string): string {
    at + "/" + name
  }

  // The sub-directories among the entries, in scan order.
  function Folders(entries: seq<Entry>): (r: seq<Child>)
    ensures forall c :: c in r ==> Entry(c.name, Folder(c.dir)) in entries
  {
    if entries == [] then []
    else
      var rest := Folders(entries[1..]);
      if entries[0].kind.Folder? then [Child(entries[0].name, entries[0].kind.dir)] + rest else rest
  }

  function Children(dir: Dir): seq<Child> {
    Sort(ChildName, Folders(dir.entries))
  }

  /* ---- The walk ---- */

  // One visit; a fault stops the walk.  `left` is how many levels below may still be scanned.
  function Visit(max: nat, s: Found, dir: Dir, at: string, left: nat): (Found, Option<Fault>)
    decreases left, 0, 0
  {
    var s1 := s.(budget := s.budget + 1);
    if s1.budget > max then (s1, Some(OverBudget))
    else if dir.config.ConfigUnreadable? then (s1, Some(ConfigFault(at)))
    else
      var s2 := Note(s1, dir.config, at);
      if left == 0 then (s2, None)
      else
        var (s3, stop) := Scan(max, s2, dir.entries, at);
        if stop.Some? then (s3, stop)
        else if !dir.readable then (s3, Some(DirFault(at)))
        else VisitAll(max, s3, Children(dir), at, left - 1)
  }

  function Note(s: Found, config: ModelConfig, at: string): Found {
    match config
    case GoodModel(identity) => s.(candidates := s.candidates + [Candidate(at, identity)])
    case BadModel(reason) => s.(errors := s.errors + [ModelFault(at, reason)])
    case _ => s
  }

  function Scan(max: nat, s: Found, entries: seq<Entry>, at: string): (Found, Option<Fault>)
    decreases |entries|
  {
    if entries == [] then (s, None)
    else
      var s1 := s.(budget := s.budget + 1);
      if s1.budget > max then (s1, Some(OverBudget))
      else if entries[0].kind.Uninspectable? then (s1, Some(EntryFault(Below(at, entries[0].name))))
      else Scan(max, s1, entries[1..], at)
  }

  function VisitAll(max: nat, s: Found, children: seq<Child>, at: string, left: nat): (Found, Option<Fault>)
    decreases left, 1, |children|
  {
    if children == [] then (s, None)
    else
      var (s1, stop) := Visit(max, s, children[0].dir, Below(at, children[0].name), left);
      if stop.Some? then (s1, stop) else VisitAll(max, s1, children[1..], at, left)
  }

  function Discover(root: Root, maxDepth: nat, maxEntries: nat): Discovered {
    match root
    case Absent => Models([])
    case RootFault => Raised(RootUninspectable)
    case NotADirectory => Raised(RootNotDirectory)
    case Directory(path, dir) =>
      var (s, stop) := Visit(maxEntries, Found(0, [], []), dir, path, maxDepth);
      if stop.Some? then Raised(stop.value)
      else if s.candidates == [] && s.errors != [] then Raised(s.errors[0])
      else Models(Sort(CandidatePath, s.candidates))
  }

  /** The object that walks, with its shared lists. */
  class Search {
    const maxEntries: nat
    var found: Found

    constructor (maxEntries: nat)
      ensures this.maxEntries == maxEntries && found == Found(0, [], [])
    {
      this.maxEntries := maxEntries;
      found := Found(0, [], []);
    }

    method Consume() returns (stop: Option<Fault>)
      modifies this
      ensures found == old(found).(budget := old(found).budget + 1)
      ensures stop == if found.budget > maxEntries then Some(OverBudget) else None
    {
      found := found.(budget := found.budget + 1);
      stop := if found.budget > maxEntries then Some(OverBudget) else None;
    }

    method VisitDirectory(dir: Dir, at: string, left: nat) returns (stop: Option<Fault>)
      modifies this
      ensures (found, stop) == Visit(maxEntries, old(found), dir, at, left)
      decreases left, 0
    {
      stop := Consume();
      if stop.Some? { return; }
      match dir.config {
        case ConfigUnreadable => return Some(ConfigFault(at));
        case GoodModel(identity) => found := found.(candidates := found.candidates + [Candidate(at, identity)]);
        case BadModel(reason) => found := found.(errors := found.errors + [ModelFault(at, reason)]);
        case NoConfig =>
      }
      if left == 0 { return; }
      var children: seq<Child>;
      stop, children := ScanDirectory(dir, at);
      if stop.Some? { return; }
      stop := VisitChildren(Sort(ChildName, children), at, left - 1);
    }

    method VisitChildren(children: seq<Child>, at: string, left: nat) returns (stop: Option<Fault>)
      modifies this
      ensures (found, stop) == VisitAll(maxEntries, old(found), children, at, left)
      decreases left, 1
    {
      assert children[0..] == children;
      for k := 0 to |children|
        invariant VisitAll(maxEntries, found, children[k..], at, left) == VisitAll(maxEntries, old(found), children, at, left)
      {
        assert children[k..][0] == children[k] && children[k..][1..] == children[k + 1..];
        stop := VisitDirectory(children[k].dir, Below(at, children[k].name), left);
        if stop.Some? { return; }
      }
      stop := None;
    }

    method ScanDirectory(dir: Dir, at: string) returns (stop: Option<Fault>, children: seq<Child>)
      modifies this
      ensures var (s, fault) := Scan(maxEntries, old(found), dir.entries, at);
        found == s && stop == if fault.None? && !dir.readable then Some(DirFault(at)) else fault
      ensures stop.None? ==> children == Folders(dir.entries)
    {
      children := [];
      var entries := dir.entries;
      assert entries[0..] == entries;
      for k := 0 to |entries|
        invariant Scan(maxEntries, found, entries[k..], at) == Scan(maxEntries, old(found), entries, at)
        invariant children + Folders(entries[k..]) == Folders(entries)
      {
        assert entries[k..][0] == entries[k] && entries[k..][1..] == entries[k + 1..];
        stop := Consume();
        if stop.Some? { return; }
        match entries[k].kind {
          case Uninspectable => return Some(EntryFault(Below(at, entries[k].name))), children;
          case Folder(sub) => children := children + [Child(entries[k].name, sub)];
          case PlainFile =>
        }
      }
      stop := if dir.readable then None else Some(DirFault(at));
    }
  }

  method DiscoverModels(root: Root, maxDepth: nat, maxEntries: nat) returns (r: Discovered)
    ensures r == Discover(root, maxDepth, maxEntries)
  {
    match root {
      case Absent => return Models([]);
      case RootFault => return Raised(RootUninspectable);
      case NotADirectory => return Raised(RootNotDirectory);
      case Directory(path, dir) =>
        var search := new Search(maxEntries);
        var stop := search.VisitDirectory(dir, path, maxDepth);
        if stop.Some? { return Raised(stop.value); }
        if search.found.candidates == [] && search.found.errors != [] { return Raised(search.found.errors[0]); }
        r := Models(Sort(CandidatePath, search.found.candidates));
    }
  }

  /* ---- What a clean tree costs and holds ---- */

  // Everything the walk looks at can be inspected and read.
  predicate Clean(dir: Dir, left: nat)
    decreases left
  {
    && !dir.config.ConfigUnreadable?
    && (left > 0 ==>
          && dir.readable
          && forall k :: 0 <= k < |dir.entries| ==>
               && !dir.entries[k].kind.Uninspectable?
               && (dir.entries[k].kind.Folder? ==> Clean(dir.entries[k].kind.dir, left - 1)))
  }

  // One for each visited directory and one for each scanned entry.
  function Cost(dir: Dir, left: nat): nat
    decreases left, 0, 0
  {
    1 + if left == 0 then 0 else |dir.entries| + CostAll(Children(dir), left - 1)
  }

  function CostAll(children: seq<Child>, left: nat): nat
    decreases left, 1, |children|
  {
    if children == [] then 0 else Cost(children[0].dir, left) + CostAll(children[1..], left)
  }

  function Own(dir: Dir, at: string): seq<Candidate> {
    if dir.config.GoodModel? then [Candidate(at, dir.config.identity)] else []
  }

  function OwnFaults(dir: Dir, at: string): seq<Fault> {
    if dir.config.BadModel? then [ModelFault(at, dir.config.reason)] else []
  }

  function Collected(dir: Dir, at: string, left: nat): seq<Candidate>
    decreases left, 0, 0
  {
    Own(dir, at) + if left == 0 then [] else CollectedAll(Children(dir), at, left - 1)
  }

  function CollectedAll(children: seq<Child>, at: string, left: nat): seq<Candidate>
    decreases left, 1, |children|
  {
    if children == [] then []
    else Collected(children[0].dir, Below(at, children[0].name), left) + CollectedAll(children[1..], at, left)
  }

  function Faults(dir: Dir, at: string, left: nat): seq<Fault>
    decreases left, 0, 0
  {
    OwnFaults(dir, at) + if left == 0 then [] else FaultsAll(Children(dir), at, left - 1)
  }

  function FaultsAll(children: seq<Child>, at: string, left: nat): seq<Fault>
    decreases left, 1, |children|
  {
    if children == [] then []
    else Faults(children[0].dir, Below(at, children[0].name), left) + FaultsAll(children[1..], at, left)
  }

  ghost predicate AllClean(children: seq<Child>, left: nat) {
    forall c :: c in children ==> Clean(c.dir, left)
  }

  lemma ChildrenClean(dir: Dir, left: nat)
    requires Clean(dir, left) && left > 0
    ensures AllClean(Children(dir), left - 1)
  {
    SortKeeps(ChildName, Folders(dir.entries));
    forall c | c in Children(dir) ensures Clean(c.dir, left - 1) {
      assert Entry(c.name, Folder(c.dir)) in dir.entries;
    }
  }

  // What a walk from `s` adds, unless it runs over the budget.
  ghost predicate Walks(max: nat, s: Found, r: (Found, Option<Fault>), cost: nat, more: seq<Candidate>, faults: seq<Fault>) {
    if s.budget + cost <= max then r == (Found(s.budget + cost, s.candidates + more, s.errors + faults), None)
    else r.1 == Some(OverBudget)
  }

  lemma StaysPut(max: nat, s: Found)
    requires s.budget <= max
    ensures Walks(max, s, (s, None), 0, [], [])
  {
    assert s.candidates + [] == s.candidates && s.errors + [] == s.errors;
  }

  lemma ThenWalks(max: nat, s: Found, t: Found, cost: nat, more: seq<Candidate>, faults: seq<Fault>,
                  r: (Found, Option<Fault>), cost': nat, more': seq<Candidate>, faults': seq<Fault>)
    requires s.budget + cost <= max && Walks(max, s, (t, None), cost, more, faults)
    requires Walks(max, t, r, cost', more', faults')
    ensures Walks(max, s, r, cost + cost', more + more', faults + faults')
  {
    assert (s.candidates + more) + more' == s.candidates + (more + more');
    assert (s.errors + faults) + faults' == s.errors + (faults + faults');
  }

  lemma {:induction false} ScanWalks(max: nat, s: Found, entries: seq<Entry>, at: string)
    requires s.budget <= max && forall k :: 0 <= k < |entries| ==> !entries[k].kind.Uninspectable?
    ensures Walks(max, s, Scan(max, s, entries, at), |entries|, [], [])
    decreases |entries|
  {
    if entries == [] {
      StaysPut(max, s);
    } else if s.budget < max {
      var s1 := s.(budget := s.budget + 1);
      ScanWalks(max, s1, entries[1..], at);
      assert Walks(max, s, (s1, None), 1, [], []) by { StaysPut(max, s); }
      ThenWalks(max, s, s1, 1, [], [], Scan(max, s1, entries[1..], at), |entries[1..]|, [], []);
    }
  }

  lemma NoteWalks(max: nat, s: Found, dir: Dir, at: string)
    requires s.budget < max
    ensures Walks(max, s, (Note(s.(budget := s.budget + 1), dir.config, at), None), 1, Own(dir, at), OwnFaults(dir, at))
  {
    StaysPut(max, s);
  }

  lemma {:induction false} VisitWalks(max: nat, s: Found, dir: Dir, at: string, left: nat)
    requires s.budget <= max && Clean(dir, left)
    ensures Walks(max, s, Visit(max, s, dir, at, left), Cost(dir, left), Collected(dir, at, left), Faults(dir, at, left))
    decreases left, 0, 0
  {
    if s.budget < max {
      var own, faults := Own(dir, at), OwnFaults(dir, at);
      var s2 := Note(s.(budget := s.budget + 1), dir.config, at);
      NoteWalks(max, s, dir, at);
      if left == 0 {
        StaysPut(max, s2);
        ThenWalks(max, s, s2, 1, own, faults, (s2, None), 0, [], []);
      } else {
        EntriesWalk(max, s2, dir, at, left);
        ThenWalks(max, s, s2, 1, own, faults, Visit(max, s, dir, at, left), |dir.entries| + CostAll(Children(dir), left - 1),
                  CollectedAll(Children(dir), at, left - 1), FaultsAll(Children(dir), at, left - 1));
      }
    }
  }

  // The part of a visit after the directory itself.
  lemma {:induction false} EntriesWalk(max: nat, s: Found, dir: Dir, at: string, left: nat)
    requires s.budget <= max && Clean(dir, left) && left > 0
    ensures var (s3, stop) := Scan(max, s, dir.entries, at);
      Walks(max, s, if stop.Some? then (s3, stop) else VisitAll(max, s3, Children(dir), at, left - 1),
            |dir.entries| + CostAll(Children(dir), left - 1),
            CollectedAll(Children(dir), at, left - 1), FaultsAll(Children(dir), at, left - 1))
    decreases left - 1, 2, 0
  {
    ScanWalks(max, s, dir.entries, at);
    ChildrenClean(dir, left);
    if s.budget + |dir.entries| <= max {
      var s3 := Scan(max, s, dir.entries, at).0;
      var children := Children(dir);
      VisitAllWalks(max, s3, children, at, left - 1);
      ThenWalks(max, s, s3, |dir.entries|, [], [], VisitAll(max, s3, children, at, left - 1),
                CostAll(children, left - 1), CollectedAll(children, at, left - 1), FaultsAll(children, at, left - 1));
      assert [] + CollectedAll(children, at, left - 1) == CollectedAll(children, at, left - 1);
      assert [] + FaultsAll(children, at, left - 1) == FaultsAll(children, at, left - 1);
    }
  }

  lemma {:induction false} VisitAllWalks(max: nat, s: Found, children: seq<Child>, at: string, left: nat)
    requires s.budget <= max && AllClean(children, left)
    ensures Walks(max, s, VisitAll(max, s, children, at, left), CostAll(children, left),
                  CollectedAll(children, at, left), FaultsAll(children, at, left))
    decreases left, 1, |children|
  {
    if children == [] {
      StaysPut(max, s);
    } else {
      var first, path := children[0].dir, Below(at, children[0].name);
      VisitWalks(max, s, first, path, left);
      if s.budget + Cost(first, left) <= max {
        var s1 := Visit(max, s, first, path, left).0;
        VisitAllWalks(max, s1, children[1..], at, left);
        ThenWalks(max, s, s1, Cost(first, left), Collected(first, path, left), Faults(first, path, left),
                  VisitAll(max, s1, children[1..], at, left), CostAll(children[1..], left),
                  CollectedAll(children[1..], at, left), FaultsAll(children[1..], at, left));
      }
    }
  }

  /** On a tree that can be read, the search exceeds its budget exactly when the tree costs more than that;
      otherwise it answers the models in the tree, sorted by path, or, if it has none, the first faulty one. */
  lemma BudgetIsExact(dir: Dir, path: string, maxDepth: nat, maxEntries: nat)
    requires Clean(dir, maxDepth)
    ensures var r := Discover(Directory(path, dir), maxDepth, maxEntries);
      && (r == Raised(OverBudget) <==> Cost(dir, maxDepth) > maxEntries)
      && (Cost(dir, maxDepth) <= maxEntries ==>
            var models, faults := Collected(dir, path, maxDepth), Faults(dir, path, maxDepth);
            r == if models == [] && faults != [] then Raised(faults[0]) else Models(Sort(CandidatePath, models)))
  {
    VisitWalks(maxEntries, Found(0, [], []), dir, path, maxDepth);
    FaultsAreModels(dir, path, maxDepth);
    assert forall k :: 0 <= k < |Faults(dir, path, maxDepth)| ==> Faults(dir, path, maxDepth)[k] in Faults(dir, path, maxDepth);
    assert [] + Collected(dir, path, maxDepth) == Collected(dir, path, maxDepth);
    assert [] + Faults(dir, path, maxDepth) == Faults(dir, path, maxDepth);
  }

  lemma {:induction false} FaultsAreModels(dir: Dir, at: string, left: nat)
    ensures forall f :: f in Faults(dir, at, left) ==> f.ModelFault?
    decreases left, 0, 0
  {
    if left > 0 { FaultsAllAreModels(Children(dir), at, left - 1); }
  }

  lemma {:induction false} FaultsAllAreModels(children: seq<Child>, at: string, left: nat)
    ensures forall f :: f in FaultsAll(children, at, left) ==> f.ModelFault?
    decreases left, 1, |children|
  {
    if children != [] {
      FaultsAreModels(children[0].dir, Below(at, children[0].name), left);
      FaultsAllAreModels(children[1..], at, left);
    }
  }
}
