/** What the model search finds: exactly the model directories within depth, each once, whatever order a scan returns. */
module ModelTrees {
  import opened NameOrder
  import opened ModelMounts

  /* ---- Exactly the model directories ---- */

  // A model directory in the tree, at most `left` levels down.
  ghost predicate Holds(dir: Dir, at: string, left: nat, c: Candidate)
    decreases left, 0
  {
    || (dir.config == GoodModel(c.identity) && c.path == at)
    || (left > 0 && exists k :: 0 <= k < |dir.entries| && HoldsEntry(dir.entries[k], at, left, c))
  }

  ghost predicate HoldsEntry(e: Entry, at: string, left: nat, c: Candidate)
    requires left > 0
    decreases left - 1, 1
  {
    e.kind.Folder? && Holds(e.kind.dir, Below(at, e.name), left - 1, c)
  }

  lemma {:induction false} FoldersIff(entries: seq<Entry>, c: Child)
    ensures c in Folders(entries) <==> Entry(c.name, Folder(c.dir)) in entries
  {
    if entries != [] {
      FoldersIff(entries[1..], c);
      assert entries == [entries[0]] + entries[1..];
    }
  }

  lemma ChildrenIff(dir: Dir, c: Child)
    ensures c in Children(dir) <==> Entry(c.name, Folder(c.dir)) in dir.entries
  {
    SortKeeps(ChildName, Folders(dir.entries));
    FoldersIff(dir.entries, c);
  }

  /** The search collects a directory exactly when it is a model directory within depth. */
  lemma {:induction false} CollectedIff(dir: Dir, at: string, left: nat, c: Candidate)
    ensures c in Collected(dir, at, left) <==> Holds(dir, at, left, c)
    decreases left, 0, 0
  {
    if left > 0 { CollectedBelowIff(dir, at, left, c); }
  }

  lemma {:induction false} CollectedBelowIff(dir: Dir, at: string, left: nat, c: Candidate)
    requires left > 0
    ensures c in CollectedAll(Children(dir), at, left - 1)
      <==> exists k :: 0 <= k < |dir.entries| && HoldsEntry(dir.entries[k], at, left, c)
    decreases left - 1, 2, 0
  {
    CollectedAllIff(Children(dir), at, left - 1, c);
    HoldsBelowIff(dir, at, left, c);
  }

  lemma HoldsBelowIff(dir: Dir, at: string, left: nat, c: Candidate)
    requires left > 0
    ensures (exists k :: 0 <= k < |dir.entries| && HoldsEntry(dir.entries[k], at, left, c))
      <==> exists child :: child in Children(dir) && Holds(child.dir, Below(at, child.name), left - 1, c)
  {
    if child :| child in Children(dir) && Holds(child.dir, Below(at, child.name), left - 1, c) {
      ChildrenIff(dir, child);
      var k :| 0 <= k < |dir.entries| && dir.entries[k] == Entry(child.name, Folder(child.dir));
      assert HoldsEntry(dir.entries[k], at, left, c);
    }
    if k :| 0 <= k < |dir.entries| && HoldsEntry(dir.entries[k], at, left, c) {
      ChildrenIff(dir, Child(dir.entries[k].name, dir.entries[k].kind.dir));
    }
  }

  lemma {:induction false} CollectedAllIff(children: seq<Child>, at: string, left: nat, c: Candidate)
    ensures c in CollectedAll(children, at, left)
      <==> exists child :: child in children && Holds(child.dir, Below(at, child.name), left, c)
    decreases left, 1, |children|
  {
    if children != [] {
      CollectedIff(children[0].dir, Below(at, children[0].name), left, c);
      CollectedAllIff(children[1..], at, left, c);
      FirstOrRestHolds(children, at, left, c);
    }
  }

  lemma FirstOrRestHolds(children: seq<Child>, at: string, left: nat, c: Candidate)
    requires children != []
    ensures (exists child :: child in children && Holds(child.dir, Below(at, child.name), left, c))
      <==> (Holds(children[0].dir, Below(at, children[0].name), left, c)
            || (exists child :: child in children[1..] && Holds(child.dir, Below(at, child.name), left, c)))
  {
    assert children == [children[0]] + children[1..];
  }

  /* ---- Each once ---- */

  predicate Plain(name: string) {
    name != [] && '/' !in name
  }

  predicate NamesApart(entries: seq<Entry>) {
    forall i, j :: 0 <= i < j < |entries| ==> entries[i].name != entries[j].name
  }

  // File names as file systems have them.
  predicate WellNamed(dir: Dir) {
    && NamesApart(dir.entries)
    && forall k :: 0 <= k < |dir.entries| ==>
         Plain(dir.entries[k].name) && (dir.entries[k].kind.Folder? ==> WellNamed(dir.entries[k].kind.dir))
  }

  predicate Under(path: string, at: string) {
    at <= path && (|path| > |at| ==> path[|at|] == '/')
  }

  // Paths under different children differ.
  lemma ChildrenApart(at: string, n: string, m: string, path: string)
    requires Plain(n) && Plain(m) && Under(path, Below(at, n)) && Under(path, Below(at, m))
    ensures n == m
  {
    var rest := path[|at| + 1..];
    assert Below(at, n)[|at| + 1..] == n <= rest && Below(at, m)[|at| + 1..] == m <= rest;
    FirstSlashAt(rest, n);
    FirstSlashAt(rest, m);
  }

  function FirstSlash(s: string): nat {
    if s == [] || s[0] == '/' then 0 else 1 + FirstSlash(s[1..])
  }

  lemma {:induction false} FirstSlashAt(s: string, name: string)
    requires '/' !in name && name <= s && (|s| > |name| ==> s[|name|] == '/')
    ensures FirstSlash(s) == |name|
  {
    if name != [] { FirstSlashAt(s[1..], name[1..]); }
  }

  predicate ChildrenNamed(children: seq<Child>) {
    forall k :: 0 <= k < |children| ==> Plain(children[k].name) && WellNamed(children[k].dir)
  }

  lemma {:induction false} FoldersApart(entries: seq<Entry>)
    requires NamesApart(entries)
    ensures DistinctKeys(ChildName, Folders(entries))
  {
    if entries != [] {
      FoldersApart(entries[1..]);
      forall c | c in Folders(entries[1..]) ensures c.name != entries[0].name {
        var k :| 0 <= k < |entries[1..]| && entries[1..][k] == Entry(c.name, Folder(c.dir));
        assert entries[k + 1] == entries[1..][k];
      }
    }
  }

  lemma ChildrenWellNamed(dir: Dir)
    requires WellNamed(dir)
    ensures DistinctKeys(ChildName, Children(dir)) && ChildrenNamed(Children(dir))
  {
    FoldersApart(dir.entries);
    SortAscending(ChildName, Folders(dir.entries));
    var children := Children(dir);
    forall i, j | 0 <= i < j < |children| ensures ChildName(children[i]) != ChildName(children[j]) {
      BeforeOrders(ChildName(children[i]), ChildName(children[j]));
    }
    forall k | 0 <= k < |children| ensures Plain(children[k].name) && WellNamed(children[k].dir) {
      ChildrenIff(dir, children[k]);
    }
  }

  lemma {:induction false} CollectedUnder(dir: Dir, at: string, left: nat)
    ensures forall c :: c in Collected(dir, at, left) ==> Under(c.path, at)
    decreases left, 0, 0
  {
    if left > 0 { CollectedAllUnder(Children(dir), at, left - 1); }
  }

  lemma {:induction false} CollectedAllUnder(children: seq<Child>, at: string, left: nat)
    ensures forall c :: c in CollectedAll(children, at, left) ==> Under(c.path, at) && |c.path| > |at|
    ensures forall c :: c in CollectedAll(children, at, left) ==>
      exists k :: 0 <= k < |children| && Under(c.path, Below(at, children[k].name))
    decreases left, 1, |children|
  {
    if children != [] {
      var first := Below(at, children[0].name);
      CollectedUnder(children[0].dir, first, left);
      CollectedAllUnder(children[1..], at, left);
      forall c | c in CollectedAll(children, at, left)
        ensures Under(c.path, at) && |c.path| > |at|
        ensures exists k :: 0 <= k < |children| && Under(c.path, Below(at, children[k].name))
      {
        if c in Collected(children[0].dir, first, left) {
          assert first[..|at|] == at && first[|at|] == '/';
          assert c.path[..|first|] == first;
        } else {
          var k :| 0 <= k < |children[1..]| && Under(c.path, Below(at, children[1..][k].name));
          assert children[k + 1] == children[1..][k];
        }
      }
    }
  }

  lemma JoinDistinct(a: seq<Candidate>, b: seq<Candidate>)
    requires DistinctKeys(CandidatePath, a) && DistinctKeys(CandidatePath, b)
    requires forall x, y :: x in a && y in b ==> x.path != y.path
    ensures DistinctKeys(CandidatePath, a + b)
  {
  }

  lemma {:induction false} CollectedOnce(dir: Dir, at: string, left: nat)
    requires WellNamed(dir)
    ensures DistinctKeys(CandidatePath, Collected(dir, at, left))
    decreases left, 0, 0
  {
    if left > 0 {
      ChildrenWellNamed(dir);
      CollectedAllOnce(Children(dir), at, left - 1);
      CollectedAllUnder(Children(dir), at, left - 1);
      JoinDistinct(Own(dir, at), CollectedAll(Children(dir), at, left - 1));
    }
  }

  lemma {:induction false} CollectedAllOnce(children: seq<Child>, at: string, left: nat)
    requires DistinctKeys(ChildName, children) && ChildrenNamed(children)
    ensures DistinctKeys(CandidatePath, CollectedAll(children, at, left))
    decreases left, 1, |children|
  {
    if children != [] {
      var first, rest := Collected(children[0].dir, Below(at, children[0].name), left), CollectedAll(children[1..], at, left);
      CollectedOnce(children[0].dir, Below(at, children[0].name), left);
      CollectedAllOnce(children[1..], at, left);
      CollectedUnder(children[0].dir, Below(at, children[0].name), left);
      CollectedAllUnder(children[1..], at, left);
      forall x, y | x in first && y in rest ensures x.path != y.path {
        var k :| 0 <= k < |children[1..]| && Under(y.path, Below(at, children[1..][k].name));
        assert children[k + 1] == children[1..][k];
        assert ChildName(children[0]) != ChildName(children[k + 1]);
        if x.path == y.path { ChildrenApart(at, children[0].name, children[k + 1].name, x.path); }
      }
      JoinDistinct(first, rest);
    }
  }

  /** Within its budget, on a tree that can be read, the search answers exactly the model directories within
      depth, each once and in path order. */
  lemma SearchIsExact(dir: Dir, path: string, maxDepth: nat, maxEntries: nat)
    requires Clean(dir, maxDepth) && WellNamed(dir) && Cost(dir, maxDepth) <= maxEntries
    ensures var r := Discover(Directory(path, dir), maxDepth, maxEntries);
      if r.Models? then
        && Ascending(CandidatePath, r.candidates)
        && forall c :: c in r.candidates <==> Holds(dir, path, maxDepth, c)
      else (forall c :: !Holds(dir, path, maxDepth, c)) && r.fault.ModelFault?
  {
    BudgetIsExact(dir, path, maxDepth, maxEntries);
    ModelsInOrder(dir, path, maxDepth);
    FirstIsModelFault(dir, path, maxDepth);
  }

  lemma ModelsInOrder(dir: Dir, at: string, left: nat)
    requires WellNamed(dir)
    ensures var models := Collected(dir, at, left);
      && Ascending(CandidatePath, Sort(CandidatePath, models))
      && (forall c :: c in models <==> Holds(dir, at, left, c))
      && (forall c :: c in Sort(CandidatePath, models) <==> Holds(dir, at, left, c))
  {
    var models := Collected(dir, at, left);
    CollectedOnce(dir, at, left);
    SortAscending(CandidatePath, models);
    SortKeeps(CandidatePath, models);
    forall c ensures c in models <==> Holds(dir, at, left, c) { CollectedIff(dir, at, left, c); }
  }

  lemma FirstIsModelFault(dir: Dir, at: string, left: nat)
    ensures Faults(dir, at, left) != [] ==> Faults(dir, at, left)[0].ModelFault?
  {
    FaultsAreModels(dir, at, left);
    var faults := Faults(dir, at, left);
    if faults != [] { assert faults[0] in faults; }
  }

  /* ---- Trees that cannot be read ---- */

  // Within depth there is something that cannot be inspected or read, and `fault` says what and where.
  ghost predicate Trouble(dir: Dir, at: string, left: nat, fault: Fault)
    decreases left
  {
    || (dir.config.ConfigUnreadable? && fault == ConfigFault(at))
    || (left > 0 && !dir.readable && fault == DirFault(at))
    || (left > 0 && exists k :: 0 <= k < |dir.entries| && TroubleAt(dir.entries[k], at, left, fault))
  }

  ghost predicate TroubleAt(e: Entry, at: string, left: nat, fault: Fault)
    requires left > 0
    decreases left, e
  {
    match e.kind
    case PlainFile => false
    case Uninspectable => fault == EntryFault(Below(at, e.name))
    case Folder(dir) => Trouble(dir, Below(at, e.name), left - 1, fault)
  }

  lemma {:induction false} ScanStops(max: nat, s: Found, entries: seq<Entry>, at: string)
    ensures var stop := Scan(max, s, entries, at).1;
      && (stop.None? ==> forall k :: 0 <= k < |entries| ==> !entries[k].kind.Uninspectable?)
      && (stop.Some? && !stop.value.OverBudget? ==>
            exists k :: 0 <= k < |entries| && entries[k].kind.Uninspectable? && stop.value == EntryFault(Below(at, entries[k].name)))
    decreases |entries|
  {
    if entries != [] && s.budget < max && !entries[0].kind.Uninspectable? {
      var s1 := s.(budget := s.budget + 1);
      ScanStops(max, s1, entries[1..], at);
      var stop := Scan(max, s1, entries[1..], at).1;
      if stop.Some? && !stop.value.OverBudget? {
        var k :| 0 <= k < |entries[1..]| && entries[1..][k].kind.Uninspectable? && stop.value == EntryFault(Below(at, entries[1..][k].name));
        assert entries[k + 1] == entries[1..][k];
      }
      if stop.None? { assert forall k :: 0 < k < |entries| ==> entries[k] == entries[1..][k - 1]; }
    }
  }

  // A stop of the visits to some children is one of their own.
  ghost predicate TroubleBelow(children: seq<Child>, at: string, left: nat, fault: Fault) {
    exists c :: c in children && Trouble(c.dir, Below(at, c.name), left, fault)
  }

  lemma {:induction false} VisitStops(max: nat, s: Found, dir: Dir, at: string, left: nat)
    ensures var stop := Visit(max, s, dir, at, left).1;
      (stop.None? ==> Clean(dir, left)) && (stop.Some? && !stop.value.OverBudget? ==> Trouble(dir, at, left, stop.value))
    decreases left, 0, 0
  {
    if s.budget < max && !dir.config.ConfigUnreadable? && left > 0 {
      var s2 := Note(s.(budget := s.budget + 1), dir.config, at);
      ScanStops(max, s2, dir.entries, at);
      var (s3, stop) := Scan(max, s2, dir.entries, at);
      if stop.None? && dir.readable { BelowStops(max, s3, dir, at, left); }
      if stop.Some? && !stop.value.OverBudget? {
        var k :| 0 <= k < |dir.entries| && dir.entries[k].kind.Uninspectable? && stop.value == EntryFault(Below(at, dir.entries[k].name));
        assert TroubleAt(dir.entries[k], at, left, stop.value);
      }
    }
  }

  lemma {:induction false} BelowStops(max: nat, s: Found, dir: Dir, at: string, left: nat)
    requires left > 0 && dir.readable && !dir.config.ConfigUnreadable?
    requires forall k :: 0 <= k < |dir.entries| ==> !dir.entries[k].kind.Uninspectable?
    ensures var stop := VisitAll(max, s, Children(dir), at, left - 1).1;
      (stop.None? ==> Clean(dir, left)) && (stop.Some? && !stop.value.OverBudget? ==> Trouble(dir, at, left, stop.value))
    decreases left - 1, 2, 0
  {
    VisitAllStops(max, s, Children(dir), at, left - 1);
    var stop := VisitAll(max, s, Children(dir), at, left - 1).1;
    if stop.Some? && !stop.value.OverBudget? {
      var c :| c in Children(dir) && Trouble(c.dir, Below(at, c.name), left - 1, stop.value);
      ChildrenIff(dir, c);
      var k :| 0 <= k < |dir.entries| && dir.entries[k] == Entry(c.name, Folder(c.dir));
      assert TroubleAt(dir.entries[k], at, left, stop.value);
    }
    if stop.None? {
      forall k | 0 <= k < |dir.entries| && dir.entries[k].kind.Folder? ensures Clean(dir.entries[k].kind.dir, left - 1) {
        ChildrenIff(dir, Child(dir.entries[k].name, dir.entries[k].kind.dir));
      }
    }
  }

  lemma {:induction false} VisitAllStops(max: nat, s: Found, children: seq<Child>, at: string, left: nat)
    ensures var stop := VisitAll(max, s, children, at, left).1;
      && (stop.None? ==> AllClean(children, left))
      && (stop.Some? && !stop.value.OverBudget? ==> TroubleBelow(children, at, left, stop.value))
    decreases left, 1, |children|
  {
    if children != [] {
      VisitStops(max, s, children[0].dir, Below(at, children[0].name), left);
      var (s1, stop) := Visit(max, s, children[0].dir, Below(at, children[0].name), left);
      if stop.None? {
        VisitAllStops(max, s1, children[1..], at, left);
        assert children == [children[0]] + children[1..];
      } else {
        assert children[0] in children;
      }
    }
  }

  /** An answer means that everything within depth was inspected and read, and that it fits the budget; and an error about
      a place that cannot be inspected or read names such a place within depth. */
  lemma AnswersAreComplete(dir: Dir, path: string, maxDepth: nat, maxEntries: nat)
    ensures var r := Discover(Directory(path, dir), maxDepth, maxEntries);
      && (r.Models? ==> Clean(dir, maxDepth) && Cost(dir, maxDepth) <= maxEntries)
      && (r.Raised? && (r.fault.ConfigFault? || r.fault.EntryFault? || r.fault.DirFault?) ==> Trouble(dir, path, maxDepth, r.fault))
      && (r.Raised? && r.fault.ModelFault? ==> Clean(dir, maxDepth))
  {
    VisitStops(maxEntries, Found(0, [], []), dir, path, maxDepth);
    var (s, stop) := Visit(maxEntries, Found(0, [], []), dir, path, maxDepth);
    if stop.None? {
      BudgetIsExact(dir, path, maxDepth, maxEntries);
      FirstIsModelFault(dir, path, maxDepth);
    } else if stop.value.ModelFault? {
      assert Trouble(dir, path, maxDepth, stop.value);
      TroubleKinds(dir, path, maxDepth, stop.value);
    }
  }

  lemma {:induction false} TroubleKinds(dir: Dir, at: string, left: nat, fault: Fault)
    requires Trouble(dir, at, left, fault)
    ensures fault.ConfigFault? || fault.EntryFault? || fault.DirFault?
    decreases left
  {
    if k :| left > 0 && 0 <= k < |dir.entries| && TroubleAt(dir.entries[k], at, left, fault) {
      if dir.entries[k].kind.Folder? { TroubleKinds(dir.entries[k].kind.dir, Below(at, dir.entries[k].name), left - 1, fault); }
    }
  }

  /* ---- Whatever order a scan returns ---- */

  ghost predicate Reordered(xs: seq<Entry>, ys: seq<Entry>) {
    multiset(xs) == multiset(ys)
  }

  // The same tree, with the entries of each directory in another order.
  ghost predicate Rescanned(a: Dir, b: Dir) {
    && a.config == b.config && a.readable == b.readable
    && exists es: seq<Entry> :: Reordered(es, b.entries) && Pairwise(a.entries, es)
  }

  ghost predicate Pairwise(xs: seq<Entry>, ys: seq<Entry>) {
    |xs| == |ys| && forall k :: 0 <= k < |xs| ==> SameEntry(xs[k], ys[k])
  }

  ghost predicate SameEntry(x: Entry, y: Entry) {
    && x.name == y.name
    && match x.kind
       case PlainFile => y.kind.PlainFile?
       case Uninspectable => y.kind.Uninspectable?
       case Folder(dir) => y.kind.Folder? && Rescanned(dir, y.kind.dir)
  }

  ghost predicate SameChildren(cs: seq<Child>, ds: seq<Child>) {
    |cs| == |ds| && forall k :: 0 <= k < |cs| ==> cs[k].name == ds[k].name && Rescanned(cs[k].dir, ds[k].dir)
  }

  lemma {:induction false} FoldersSame(xs: seq<Entry>, ys: seq<Entry>)
    requires Pairwise(xs, ys)
    ensures SameChildren(Folders(xs), Folders(ys))
  {
    if xs != [] {
      assert SameEntry(xs[0], ys[0]);
      forall k | 0 <= k < |xs[1..]| ensures SameEntry(xs[1..][k], ys[1..][k]) { assert SameEntry(xs[k + 1], ys[k + 1]); }
      FoldersSame(xs[1..], ys[1..]);
      if xs[0].kind.Folder? {
        PrependSame(Child(xs[0].name, xs[0].kind.dir), Child(ys[0].name, ys[0].kind.dir), Folders(xs[1..]), Folders(ys[1..]));
      }
    }
  }

  lemma PrependSame(c: Child, d: Child, cs: seq<Child>, ds: seq<Child>)
    requires c.name == d.name && Rescanned(c.dir, d.dir) && SameChildren(cs, ds)
    ensures SameChildren([c] + cs, [d] + ds)
  {
  }

  lemma {:induction false} InsertSame(c: Child, d: Child, cs: seq<Child>, ds: seq<Child>)
    requires c.name == d.name && Rescanned(c.dir, d.dir) && SameChildren(cs, ds)
    ensures SameChildren(Insert(ChildName, c, cs), Insert(ChildName, d, ds))
  {
    if cs != [] && Before(cs[0].name, c.name) { InsertSame(c, d, cs[1..], ds[1..]); }
  }

  lemma {:induction false} SortSame(cs: seq<Child>, ds: seq<Child>)
    requires SameChildren(cs, ds)
    ensures SameChildren(Sort(ChildName, cs), Sort(ChildName, ds))
  {
    if cs != [] {
      SortSame(cs[1..], ds[1..]);
      InsertSame(cs[0], ds[0], Sort(ChildName, cs[1..]), Sort(ChildName, ds[1..]));
    }
  }

  lemma ReorderedMember(xs: seq<Entry>, ys: seq<Entry>, e: Entry)
    requires Reordered(xs, ys)
    ensures e in xs <==> e in ys
  {
    assert e in xs <==> e in multiset(xs);
    assert e in ys <==> e in multiset(ys);
  }

  lemma ChildrenSame(a: Dir, b: Dir)
    requires Rescanned(a, b) && WellNamed(a) && WellNamed(b)
    ensures SameChildren(Children(a), Children(b)) && |a.entries| == |b.entries|
  {
    var es: seq<Entry> :| Reordered(es, b.entries) && Pairwise(a.entries, es);
    FoldersSame(a.entries, es);
    SortSame(Folders(a.entries), Folders(es));
    assert forall k :: 0 <= k < |es| ==> es[k].name == a.entries[k].name by {
      assert forall k :: 0 <= k < |es| ==> SameEntry(a.entries[k], es[k]);
    }
    FoldersApart(es);
    FoldersApart(b.entries);
    forall c ensures c in Folders(es) <==> c in Folders(b.entries) {
      FoldersIff(es, c);
      FoldersIff(b.entries, c);
      ReorderedMember(es, b.entries, Entry(c.name, Folder(c.dir)));
    }
    SortUnique(ChildName, Folders(es), Folders(b.entries));
    assert |multiset(es)| == |es| && |multiset(b.entries)| == |b.entries|;
  }

  lemma {:induction false} WalkSame(a: Dir, b: Dir, at: string, left: nat)
    requires Rescanned(a, b) && WellNamed(a) && WellNamed(b)
    ensures Cost(a, left) == Cost(b, left) && Collected(a, at, left) == Collected(b, at, left)
    ensures Faults(a, at, left) == Faults(b, at, left)
    decreases left, 1, 0
  {
    ChildrenSame(a, b);
    ChildrenWellNamed(a);
    ChildrenWellNamed(b);
    WalkOnTop(a, b, Children(a), Children(b), at, left);
  }

  lemma {:induction false} WalkOnTop(a: Dir, b: Dir, cs: seq<Child>, ds: seq<Child>, at: string, left: nat)
    requires a.config == b.config && |a.entries| == |b.entries| && cs == Children(a) && ds == Children(b)
    requires SameChildren(cs, ds) && ChildrenNamed(cs) && ChildrenNamed(ds)
    ensures Cost(a, left) == Cost(b, left) && Collected(a, at, left) == Collected(b, at, left)
    ensures Faults(a, at, left) == Faults(b, at, left)
    decreases left, 0, 0
  {
    if left == 0 {
      SameAtTheLimit(a, b, at);
    } else {
      WalkBelow(cs, ds, at, left);
      SameOnTop(a, b, cs, ds, at, left);
    }
  }

  lemma {:induction false} WalkBelow(cs: seq<Child>, ds: seq<Child>, at: string, left: nat)
    requires left > 0 && SameChildren(cs, ds) && ChildrenNamed(cs) && ChildrenNamed(ds)
    ensures CostAll(cs, left - 1) == CostAll(ds, left - 1)
    ensures CollectedAll(cs, at, left - 1) == CollectedAll(ds, at, left - 1)
    ensures FaultsAll(cs, at, left - 1) == FaultsAll(ds, at, left - 1)
    decreases left - 1, 3, 0
  {
    WalkAllSame(cs, ds, at, left - 1);
  }

  lemma SameAtTheLimit(a: Dir, b: Dir, at: string)
    requires a.config == b.config
    ensures Cost(a, 0) == Cost(b, 0) && Collected(a, at, 0) == Collected(b, at, 0) && Faults(a, at, 0) == Faults(b, at, 0)
  {
  }

  // A directory and its re-scan differ in nothing if their children do not.
  lemma SameOnTop(a: Dir, b: Dir, cs: seq<Child>, ds: seq<Child>, at: string, left: nat)
    requires a.config == b.config && |a.entries| == |b.entries| && left > 0 && cs == Children(a) && ds == Children(b)
    requires CostAll(cs, left - 1) == CostAll(ds, left - 1)
    requires CollectedAll(cs, at, left - 1) == CollectedAll(ds, at, left - 1)
    requires FaultsAll(cs, at, left - 1) == FaultsAll(ds, at, left - 1)
    ensures Cost(a, left) == Cost(b, left) && Collected(a, at, left) == Collected(b, at, left)
    ensures Faults(a, at, left) == Faults(b, at, left)
  {
  }

  lemma {:induction false} WalkAllSame(cs: seq<Child>, ds: seq<Child>, at: string, left: nat)
    requires SameChildren(cs, ds) && ChildrenNamed(cs) && ChildrenNamed(ds)
    ensures CostAll(cs, left) == CostAll(ds, left) && CollectedAll(cs, at, left) == CollectedAll(ds, at, left)
    ensures FaultsAll(cs, at, left) == FaultsAll(ds, at, left)
    decreases left, 2, |cs|
  {
    if cs != [] {
      WalkSame(cs[0].dir, ds[0].dir, Below(at, cs[0].name), left);
      WalkAllSame(cs[1..], ds[1..], at, left);
    }
  }

  lemma {:induction false} CleanSame(a: Dir, b: Dir, left: nat)
    requires Rescanned(a, b) && Clean(a, left)
    ensures Clean(b, left)
    decreases left
  {
    if left > 0 {
      var es: seq<Entry> :| Reordered(es, b.entries) && Pairwise(a.entries, es);
      forall j | 0 <= j < |b.entries|
        ensures !b.entries[j].kind.Uninspectable? && (b.entries[j].kind.Folder? ==> Clean(b.entries[j].kind.dir, left - 1))
      {
        ReorderedMember(es, b.entries, b.entries[j]);
        var k :| 0 <= k < |es| && es[k] == b.entries[j];
        assert SameEntry(a.entries[k], es[k]);
        if es[k].kind.Folder? { CleanSame(a.entries[k].kind.dir, es[k].kind.dir, left - 1); }
      }
    }
  }

  /** The answer, budget error included, does not depend on the order in which directories are scanned. */
  lemma ScanOrderIsIrrelevant(a: Dir, b: Dir, path: string, maxDepth: nat, maxEntries: nat)
    requires Rescanned(a, b) && WellNamed(a) && WellNamed(b) && Clean(a, maxDepth)
    ensures Discover(Directory(path, a), maxDepth, maxEntries) == Discover(Directory(path, b), maxDepth, maxEntries)
  {
    CleanSame(a, b, maxDepth);
    WalkSame(a, b, path, maxDepth);
    BudgetIsExact(a, path, maxDepth, maxEntries);
    BudgetIsExact(b, path, maxDepth, maxEntries);
  }
}
