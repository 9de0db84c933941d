/** The manifest as the program builds it: one object, filled document by document. */
module Manifest {
  import opened Common
  import opened Index
  import opened Documents
  import opened Loader
  import opened Forest

  const ROOTS := ["MEMORY.md", "PURSUITS.md"]

  function FamilyOf(p: Path): Family {
    if |p| > 0 && p[0] == 'P' then Pursuit else Memory
  }

  function Parsed(sources: map<Path, seq<string>>): Files {
    map p | p in sources :: DocOf(FamilyOf(p), sources[p])
  }

  /** A detail file belongs to the family of its heading and is never a root. */
  ghost predicate RefsStay(files: Files) {
    forall p, i :: p in files && 0 <= i < |files[p].refs| ==> files[p].refs[i].target !in ROOTS && FamilyOf(files[p].refs[i].target) == FamilyOf(p)
  }

  lemma DetailPathStays(family: Family, id: string)
    ensures DetailPath(family, id) !in ROOTS && FamilyOf(DetailPath(family, id)) == family
  {
    var p := DetailPath(family, id);
    match family {
      case Memory =>
        assert p[6] == '_' && ROOTS[0][6] == '.' && p[0] == 'M' && ROOTS[1][0] == 'P';
      case Pursuit =>
        assert p[7] == '_' && ROOTS[1][7] == 'S' && p[0] == 'P' && ROOTS[0][0] == 'M';
    }
  }

  predicate AreDetails(family: Family, refs: seq<Ref>) {
    forall i :: 0 <= i < |refs| ==> refs[i].target !in ROOTS && FamilyOf(refs[i].target) == family
  }

  lemma {:induction false} RefsAreDetails(family: Family, forms: seq<Form>, n: nat)
    requires n <= |forms|
    ensures AreDetails(family, RefsOf(family, forms, n))
  {
    if n > 0 {
      RefsAreDetails(family, forms, n - 1);
      if forms[n - 1].Head? && forms[n - 1].address.Some? {
        DetailPathStays(family, forms[n - 1].address.value);
      }
      assert AreDetails(family, RefAt(family, forms, n));
    }
  }

  lemma ParsedRefsStay(sources: map<Path, seq<string>>)
    ensures RefsStay(Parsed(sources))
  {
    forall p | p in sources ensures AreDetails(FamilyOf(p), Parsed(sources)[p].refs) {
      var forms := Forms(FamilyOf(p), sources[p]);
      RefsAreDetails(FamilyOf(p), forms, |forms|);
    }
  }

  // ---------- what a load leaves ----------

  /** Every loaded document is attached, being loaded, or a root. */
  ghost predicate Settled(s: State, stack: seq<Path>) {
    forall q :: q in s.order ==> q in s.owners || q in stack || q in ROOTS
  }

  /** Only documents loaded since are attached, and only to headings of such documents or of `host`. */
  ghost predicate Grew(before: State, now: State, host: set<Path>) {
    && before.order <= now.order
    && (forall q :: q in before.owners ==> q in now.owners && now.owners[q] == before.owners[q])
    && forall q :: q in now.owners && q !in before.owners ==> q !in before.order && (now.owners[q].path !in before.order || now.owners[q].path in host)
  }

  lemma GrewTwice(a: State, b: State, c: State, host: set<Path>)
    requires Grew(a, b, host) && Grew(b, c, host)
    ensures Grew(a, c, host)
  {
    forall q | q in c.owners && q !in a.owners ensures q !in a.order && (c.owners[q].path !in a.order || c.owners[q].path in host) {
      assert q in b.owners ==> c.owners[q] == b.owners[q];
    }
  }

  ghost predicate Stacked(s: State, stack: seq<Path>) {
    Settled(s, stack) && Elements(stack) <= Elements(s.order)
  }

  /** What a load may start from. */
  ghost predicate Ready(files: Files, s: State, stack: seq<Path>) {
    Ok(files, s) && Stacked(s, stack)
  }

  /** `t` is `s` with document `p` and everything below it loaded; `p` itself is not attached yet. */
  ghost predicate Loaded(files: Files, s: State, t: State, p: Path, stack: seq<Path>) {
    && Ok(files, t) && Settled(t, stack + [p]) && Grew(s, t, {})
    && p in files && t.order == Visit(files, p, s.order) && p in t.order
    && if p in s.order then t == s else p !in t.owners
  }

  ghost predicate OwnersUpTo(s: State, p: Path, line: nat) {
    forall q :: q in s.owners && s.owners[q].path == p ==> s.owners[q].line <= line
  }

  ghost predicate OwnersBelow(s: State, p: Path, line: nat) {
    forall q :: q in s.owners && s.owners[q].path == p ==> s.owners[q].line < line
  }

  /** A heading of `p`, whose earlier headings are done, may load its detail file. */
  ghost predicate MayRefer(files: Files, s: State, p: Path, ref: Ref, next: seq<Path>) {
    Ready(files, s, next) && p in next && p in files && ref in files[p].refs && p !in s.owners && OwnersBelow(s, p, ref.owner)
  }

  ghost predicate Referred(files: Files, s: State, t: State, p: Path, ref: Ref, next: seq<Path>) {
    && Ready(files, t, next) && Grew(s, t, {p}) && p !in t.owners && OwnersUpTo(t, p, ref.owner)
    && t.order == if ref.target in files then Visit(files, ref.target, s.order) else s.order
  }

  /** A missing file, or one that is being loaded, changes nothing. */
  lemma SkipRefers(files: Files, s: State, p: Path, ref: Ref, next: seq<Path>)
    requires MayRefer(files, s, p, ref, next) && (ref.target !in files || ref.target in next)
    ensures Referred(files, s, s, p, ref, next)
  {
    assert ref.target in next ==> ref.target in Elements(next);
  }

  /** After attaching, the detail document is settled too. */
  lemma AttachSettles(start: State, loaded: State, t: State, owner: Key, target: Path, next: seq<Path>)
    requires t.order == loaded.order && t.owners == if target in loaded.owners then loaded.owners else loaded.owners[target := owner]
    requires Settled(loaded, next + [target]) && Grew(start, loaded, {}) && owner.path in start.order && (target in loaded.owners || target !in start.order)
    requires OwnersBelow(start, owner.path, owner.line)
    ensures Settled(t, next) && Grew(start, t, {owner.path}) && OwnersUpTo(t, owner.path, owner.line)
  {
    forall q | q in t.owners && t.owners[q].path == owner.path ensures t.owners[q].line <= owner.line {
      assert q == target || q in start.owners;
    }
  }

  lemma OwnerIsThere(files: Files, s: State, p: Path, ref: Ref)
    requires Ok(files, s) && p in s.order && p in files && ref in files[p].refs
    ensures Key(p, ref.owner) in s.parts && ref.owner > 0 && Names(files, Key(p, ref.owner), ref.target)
  {
    var i :| 0 <= i < |files[p].refs| && files[p].refs[i] == ref;
    assert IsTree(files[p]);
    assert IsBlock(files, s.order, Key(p, ref.owner));
  }

  /** What is loaded later has a later position. */
  lemma PositionLater(before: seq<Path>, now: seq<Path>, p: Path, q: Path)
    requires before <= now && p in before && q in now && q !in before
    ensures PositionOf(now, p) < PositionOf(now, q)
  {
    PositionKept(before, now, p);
    assert forall i :: 0 <= i < |before| ==> before[i] == now[i] && before[i] != q;
  }

  /** A loaded detail document can be attached to the heading that named it. */
  lemma MayAttach(files: Files, s: State, loaded: State, p: Path, ref: Ref, next: seq<Path>)
    requires MayRefer(files, s, p, ref, next) && ref.target !in next && ref.target !in ROOTS && Loaded(files, s, loaded, ref.target, next)
    ensures var owner := Key(p, ref.owner);
            && owner in loaded.parts && Key(ref.target, 0) in loaded.parts && owner.line > 0 && p in s.order
            && Ok(files, Attach(loaded, owner, ref.target))
            && (ref.target in loaded.owners || ref.target !in s.order)
  {
    var owner := Key(p, ref.owner);
    assert p in Elements(next);
    OwnerIsThere(files, loaded, p, ref);
    if ref.target in s.order {
      assert s.owners[ref.target] != owner;
      AttachAgainKeeps(files, loaded, owner, ref.target);
    } else {
      PositionLater(s.order, loaded.order, p, ref.target);
      AttachKeeps(files, loaded, owner, ref.target);
    }
  }

  lemma AttachFields(s: State, owner: Key, p: Path)
    requires owner in s.parts && Key(p, 0) in s.parts
    ensures Attach(s, owner, p).order == s.order
    ensures Attach(s, owner, p).owners == if p in s.owners then s.owners else s.owners[p := owner]
  {}

  /** The detail document is attached; nothing is said of the tree yet. */
  ghost predicate Settles(s: State, t: State, p: Path, ref: Ref, next: seq<Path>) {
    Stacked(t, next) && Grew(s, t, {p}) && p !in t.owners && OwnersUpTo(t, p, ref.owner)
  }

  lemma AttachRefers(files: Files, s: State, loaded: State, p: Path, ref: Ref, next: seq<Path>)
    requires MayRefer(files, s, p, ref, next) && ref.target !in next && ref.target !in ROOTS && Loaded(files, s, loaded, ref.target, next)
    ensures Key(p, ref.owner) in loaded.parts && Key(ref.target, 0) in loaded.parts && ref.owner > 0
    ensures Referred(files, s, Attach(loaded, Key(p, ref.owner), ref.target), p, ref, next)
  {
    MayAttach(files, s, loaded, p, ref, next);
    var t := Attach(loaded, Key(p, ref.owner), ref.target);
    AttachFields(loaded, Key(p, ref.owner), ref.target);
    AttachedSettles(s, loaded, t, p, ref, next);
    assert Settles(s, t, p, ref, next) && Ok(files, t);
  }

  lemma AttachedSettles(s: State, loaded: State, t: State, p: Path, ref: Ref, next: seq<Path>)
    requires Stacked(s, next) && p in next && p !in s.owners && p in s.order && OwnersBelow(s, p, ref.owner)
    requires ref.target !in next && (ref.target in loaded.owners || ref.target !in s.order)
    requires Settled(loaded, next + [ref.target]) && Grew(s, loaded, {})
    requires t.order == loaded.order && t.owners == if ref.target in loaded.owners then loaded.owners else loaded.owners[ref.target := Key(p, ref.owner)]
    ensures Settles(s, t, p, ref, next)
  {
    AttachSettles(s, loaded, t, Key(p, ref.owner), ref.target, next);
    ElementsGrow(s.order, t.order);
  }

  lemma ElementsGrow(before: seq<Path>, now: seq<Path>)
    requires before <= now
    ensures Elements(before) <= Elements(now)
  {
    forall x | x in before ensures x in now {
      var i :| 0 <= i < |before| && before[i] == x;
      assert now[i] == x;
    }
  }

  /** Document `p` is entered, and its first `i` headings have loaded their detail files. */
  ghost predicate Progress(files: Files, s: State, t: State, p: Path, stack: seq<Path>, i: nat) {
    && Stacked(t, stack + [p]) && p in files && i <= |files[p].refs|
    && Visit(files, p, s.order) == VisitAll(files, files[p].refs[i..], t.order)
    && s.order + [p] <= t.order && p !in t.owners && p !in s.order && Grew(s, t, {p})
    && (forall k :: i <= k < |files[p].refs| ==> OwnersBelow(t, p, files[p].refs[k].owner))
  }

  ghost predicate Loading(files: Files, s: State, t: State, p: Path, stack: seq<Path>, i: nat) {
    Ok(files, t) && Progress(files, s, t, p, stack, i)
  }

  lemma EnterLoads(files: Files, s: State, p: Path, stack: seq<Path>)
    requires Ready(files, s, stack) && p in files && p !in s.order && IsTree(files[p])
    ensures Loading(files, s, Enter(s, p, files[p]), p, stack, 0)
  {
    EnterKeeps(files, s, p);
    NoOwnersYet(files, s, p);
    EnteredProgress(files, s, Enter(s, p, files[p]), p, stack);
  }

  lemma NoOwnersYet(files: Files, s: State, p: Path)
    requires OwnersOk(files, s) && p !in s.order
    ensures p !in s.owners && forall q :: q in s.owners ==> s.owners[q].path != p
  {
    forall q | q in s.owners ensures s.owners[q].path != p {
      assert IsBlock(files, s.order, s.owners[q]);
    }
  }

  lemma EnteredProgress(files: Files, s: State, t: State, p: Path, stack: seq<Path>)
    requires Stacked(s, stack) && p in files && p !in s.order && t.order == s.order + [p] && t.owners == s.owners
    requires p !in s.owners && forall q :: q in s.owners ==> s.owners[q].path != p
    ensures Progress(files, s, t, p, stack, 0)
  {
    assert files[p].refs[0..] == files[p].refs;
    assert t.order[|s.order|] == p;
    ElementsGrow(s.order, t.order);
    forall x | x in Elements(stack + [p]) ensures x in Elements(t.order) {
      assert x == p || x in Elements(stack);
    }
  }

  lemma LoadingRefers(files: Files, s: State, t: State, p: Path, stack: seq<Path>, i: nat)
    requires Loading(files, s, t, p, stack, i) && i < |files[p].refs|
    ensures MayRefer(files, t, p, files[p].refs[i], stack + [p])
  {}

  lemma StepLoads(files: Files, s: State, t: State, u: State, p: Path, stack: seq<Path>, i: nat)
    requires Loading(files, s, t, p, stack, i) && i < |files[p].refs| && Referred(files, t, u, p, files[p].refs[i], stack + [p])
    requires RefsAscend(files[p])
    ensures Loading(files, s, u, p, stack, i + 1)
  {
    assert files[p].refs[i..][1..] == files[p].refs[i + 1..];
    GrewTwice(s, t, u, {p});
    forall k | i + 1 <= k < |files[p].refs| ensures OwnersBelow(u, p, files[p].refs[k].owner) {
      assert files[p].refs[i].owner < files[p].refs[k].owner;
    }
  }

  lemma DoneLoads(files: Files, s: State, t: State, p: Path, stack: seq<Path>)
    requires p in files && Loading(files, s, t, p, stack, |files[p].refs|)
    ensures Loaded(files, s, t, p, stack)
  {
    assert files[p].refs[|files[p].refs|..] == [];
    assert t.order[|s.order|] == p;
  }

  class GraphManifest {
    const sources: map<Path, seq<string>>
    var order: seq<Path>
    var parent: map<Key, Key>
    var parts: map<Key, seq<LogicalPart>>
    var problems: seq<Problem>
    var roots: seq<Key>
    ghost var owners: map<Path, Key>

    constructor (sources: map<Path, seq<string>>)
      ensures this.sources == sources && View() == EMPTY && problems == [] && roots == []
    {
      this.sources := sources;
      roots := [];
      order, parent, parts, problems := [], map[], map[], [];
      owners := map[];
    }

    ghost function View(): State
      reads this
    {
      State(order, parent, parts, owners)
    }

    ghost function Docs(): Files {
      Parsed(sources)
    }

    /** One part of a detail document goes to the heading, unless it is a child that another heading has. */
    method TakePart(owner: Key, root: Key, part: LogicalPart)
      requires owner in parts
      modifies this`order, this`parent, this`parts, this`problems, this`owners
      ensures order == old(order) && owners == old(owners)
      ensures Takes(old(parent), owner, root)(part) ==> parts == old(parts)[owner := old(parts)[owner] + [part]]
      ensures !Takes(old(parent), owner, root)(part) ==> parts == old(parts)
      ensures part.Sub? && Takes(old(parent), owner, root)(part) ==> parent == old(parent)[part.key := owner]
      ensures part.Words? || !Takes(old(parent), owner, root)(part) ==> parent == old(parent)
    {
      if part.Sub? && (part.key !in parent || (parent[part.key] != root && parent[part.key] != owner)) {
        problems := problems + [AttachedTwice(owner, part.key)];
      } else {
        if part.Sub? {
          parent := parent[part.key := owner];
        }
        parts := parts[owner := parts[owner] + [part]];
      }
    }

    /** Splice a loaded document into the heading that names it. */
    method AttachDetail(owner: Key, p: Path)
      requires owner in parts && Key(p, 0) in parts && owner != Key(p, 0)
      modifies this`order, this`parent, this`parts, this`problems, this`owners
      ensures View() == Attach(old(View()), owner, p)
    {
      var root := Key(p, 0);
      var detail := parts[root];
      ghost var was := View();
      owners := if p in owners then owners else owners[p := owner];
      if detail == [] {
        return;
      }
      parts := parts[owner := parts[owner] + Separator(parts[owner])];
      ghost var base := parts[owner];
      var i := 0;
      NoneTakenYet(was.parent, owner, root, detail);
      while i < |detail|
        invariant 0 <= i <= |detail|
        invariant order == was.order && owners == if p in was.owners then was.owners else was.owners[p := owner]
        invariant owner in parts && parts == was.parts[owner := parts[owner]]
        invariant parts[owner] == base + Filter(Takes(was.parent, owner, root), detail[..i])
        invariant Moved(was.parent, parent, owner, root, detail[..i])
      {
        TakeStep(was.parent, parent, owner, root, detail, i, base);
        TakePart(owner, root, detail[i]);
        i := i + 1;
      }
      assert detail[..i] == detail;
      MovedAll(was, View(), owner, p);
    }

    method EnterDocument(p: Path, d: Doc)
      modifies this`order, this`parent, this`parts, this`problems, this`owners
      ensures View() == Enter(old(View()), p, d)
    {
      ghost var was := View();
      order := order + [p];
      var j := 0;
      while j <= d.size
        invariant 0 <= j <= d.size + 1
        invariant order == was.order + [p] && owners == was.owners
        invariant parts == AddParts(was.parts, p, d, j) && parent == AddParents(was.parent, p, d, j)
      {
        if j in d.blocks {
          parts := parts[Key(p, j) := Lift(p, d.blocks[j].parts)];
          if j > 0 {
            parent := parent[Key(p, j) := Key(p, d.blocks[j].parent)];
          }
        }
        j := j + 1;
      }
    }

    /** Read a document, then the documents its headings name, and attach each to its heading. */
    method LoadDocument(p: Path, family: Family, stack: seq<Path>)
      requires p in sources && family == FamilyOf(p) && p !in stack && (p in ROOTS ==> p !in order)
      requires Ready(Docs(), View(), stack)
      modifies this`order, this`parent, this`parts, this`problems, this`owners
      ensures Loaded(Docs(), old(View()), View(), p, stack)
      decreases Docs().Keys - Elements(order), 0
    {
      if p in order {
        return;
      }
      ghost var files := Docs();
      ghost var start := View();
      var d := ReadDocument(family, sources[p]);
      ParsedIsTree(family, sources[p]);
      EnterLoads(files, start, p, stack);
      EnterDocument(p, d);
      var i := 0;
      while i < |d.refs|
        invariant 0 <= i <= |d.refs|
        invariant Loading(files, start, View(), p, stack, i)
      {
        ghost var now := View();
        LoadingRefers(files, start, now, p, stack, i);
        FewerLeft(files, start.order, order, p);
        LoadReference(p, d.refs[i], stack + [p]);
        StepLoads(files, start, now, View(), p, stack, i);
        i := i + 1;
      }
      DoneLoads(files, start, View(), p, stack);
    }

    /** One heading's detail file: missing files and cycles are left alone. */
    method LoadReference(p: Path, ref: Ref, next: seq<Path>)
      requires MayRefer(Docs(), View(), p, ref, next)
      modifies this`order, this`parent, this`parts, this`problems, this`owners
      ensures Referred(Docs(), old(View()), View(), p, ref, next)
      decreases Docs().Keys - Elements(order), 1
    {
      ghost var files := Docs();
      ghost var start := View();
      ParsedRefsStay(sources);
      if ref.target !in sources {
        SkipRefers(files, start, p, ref, next);
        return;
      }
      var owner := Key(p, ref.owner);
      if ref.target in next {
        problems := problems + [CyclicBacking(owner)];
        SkipRefers(files, start, p, ref, next);
        return;
      }
      LoadDocument(ref.target, FamilyOf(p), next);
      AttachRefers(files, start, View(), p, ref, next);
      AttachDetail(owner, ref.target);
    }

    /** Load one root, if it exists. */
    method LoadRoot(name: Path, ghost i: nat)
      requires Ready(Docs(), View(), []) && i < |ROOTS| && ROOTS[i] == name && RootsLeft(order, i)
      modifies this
      ensures Ready(Docs(), View(), []) && RootsLeft(order, i + 1)
      ensures order == if name in sources then Visit(Docs(), name, old(order)) else old(order)
      ensures roots == old(roots) + if name in sources then [Key(name, 0)] else []
    {
      ParsedRefsStay(sources);
      if name in sources {
        ghost var was := View();
        LoadDocument(name, FamilyOf(name), []);
        RootIsSettled(Docs(), was, View(), i);
        roots := roots + [Key(name, 0)];
      }
    }

    /** Load both roots with everything they name. */
    method Build()
      requires View() == EMPTY && roots == []
      modifies this
      ensures Ok(Docs(), View()) && Settled(View(), [])
      ensures order == VisitRoots(Docs(), ROOTS, []) && roots == RootKeys(sources, ROOTS)
    {
      var i := 0;
      EmptyIsReady(Docs());
      assert ROOTS[0..] == ROOTS && ROOTS[..0] == [];
      while i < |ROOTS|
        invariant 0 <= i <= |ROOTS|
        invariant Ready(Docs(), View(), []) && RootsLeft(order, i)
        invariant VisitRoots(Docs(), ROOTS, []) == VisitRoots(Docs(), ROOTS[i..], order)
        invariant roots == RootKeys(sources, ROOTS[..i])
      {
        RootsStep(Docs(), sources, order, i);
        LoadRoot(ROOTS[i], i);
        i := i + 1;
      }
      assert ROOTS[i..] == [] && ROOTS[..i] == ROOTS;
    }
  }

  /** The roots from the `i`-th on are not loaded yet. */
  predicate RootsLeft(order: seq<Path>, i: nat) {
    forall j :: i <= j < |ROOTS| ==> ROOTS[j] !in order
  }

  lemma EmptyIsReady(files: Files)
    ensures Ready(files, EMPTY, [])
  {}

  lemma RootsStep(files: Files, sources: map<Path, seq<string>>, order: seq<Path>, i: nat)
    requires i < |ROOTS|
    ensures VisitRoots(files, ROOTS[i..], order) == VisitRoots(files, ROOTS[i + 1..], if ROOTS[i] in files then Visit(files, ROOTS[i], order) else order)
    ensures RootKeys(sources, ROOTS[..i + 1]) == RootKeys(sources, ROOTS[..i]) + if ROOTS[i] in sources then [Key(ROOTS[i], 0)] else []
  {
    assert ROOTS[i..][1..] == ROOTS[i + 1..];
    assert ROOTS[..i + 1][..i] == ROOTS[..i];
  }

  lemma RootIsSettled(files: Files, s: State, t: State, i: nat)
    requires i < |ROOTS| && RefsStay(files) && Loaded(files, s, t, ROOTS[i], []) && RootsLeft(s.order, i)
    ensures Ready(files, t, []) && RootsLeft(t.order, i + 1)
  {
    VisitOnlyTargets(files, ROOTS[i], s.order);
    forall j | i + 1 <= j < |ROOTS| ensures ROOTS[j] !in t.order {
      assert ROOTS[j] in ROOTS && ROOTS[j] != ROOTS[i];
    }
  }

  /** The roots that exist, as blocks. */
  function RootKeys(sources: map<Path, seq<string>>, names: seq<Path>): seq<Key> {
    if names == [] then []
    else RootKeys(sources, names[..|names| - 1]) + (if names[|names| - 1] in sources then [Key(names[|names| - 1], 0)] else [])
  }

  /** Only targets of references are loaded below a document. */
  lemma {:induction false} VisitOnlyTargets(files: Files, p: Path, seen: seq<Path>)
    requires RefsStay(files) && p in files
    ensures forall q :: q in Visit(files, p, seen) ==> q in seen || q == p || q !in ROOTS
    decreases files.Keys - Elements(seen), 1, 0
  {
    if p !in seen {
      assert p in files.Keys - Elements(seen) && p !in files.Keys - Elements(seen + [p]);
      VisitAllOnlyTargets(files, p, files[p].refs, seen + [p]);
    }
  }

  lemma {:induction false} VisitAllOnlyTargets(files: Files, p: Path, refs: seq<Ref>, seen: seq<Path>)
    requires RefsStay(files) && forall i :: 0 <= i < |refs| ==> refs[i].target !in ROOTS
    ensures forall q :: q in VisitAll(files, refs, seen) ==> q in seen || q !in ROOTS
    decreases files.Keys - Elements(seen), 2, |refs|
  {
    if refs != [] {
      var next := if refs[0].target in files then Visit(files, refs[0].target, seen) else seen;
      if refs[0].target in files {
        VisitOnlyTargets(files, refs[0].target, seen);
      }
      ElementsGrow(seen, next);
      VisitAllOnlyTargets(files, p, refs[1..], next);
    }
  }

  lemma FewerLeft(files: Files, before: seq<Path>, now: seq<Path>, p: Path)
    requires p in files && p !in before && before + [p] <= now
    ensures files.Keys - Elements(now) < files.Keys - Elements(before)
  {
    assert now[|before|] == p;
    assert p in files.Keys - Elements(before) && p !in files.Keys - Elements(now);
    ElementsGrow(before, now);
  }

  /** The children among `detail` that the heading may take have moved to it. */
  ghost predicate Moved(was: map<Key, Key>, now: map<Key, Key>, owner: Key, root: Key, detail: seq<LogicalPart>) {
    && (forall c :: c in now <==> c in was)
    && forall c :: c in was ==> now[c] == if Moves(was, owner, root, detail, c) then owner else was[c]
  }

  lemma MovedAll(s: State, t: State, owner: Key, p: Path)
    requires owner in s.parts && Key(p, 0) in s.parts && s.parts[Key(p, 0)] != [] && t.order == s.order
    requires t.owners == if p in s.owners then s.owners else s.owners[p := owner]
    requires Moved(s.parent, t.parent, owner, Key(p, 0), s.parts[Key(p, 0)])
    requires t.parts == s.parts[owner := s.parts[owner] + Separator(s.parts[owner]) + Filter(Takes(s.parent, owner, Key(p, 0)), s.parts[Key(p, 0)])]
    ensures t == Attach(s, owner, p)
  {
    assert t.parent == Attach(s, owner, p).parent;
  }

  lemma NoneTakenYet(was: map<Key, Key>, owner: Key, root: Key, detail: seq<LogicalPart>)
    ensures Moved(was, was, owner, root, detail[..0]) && Filter(Takes(was, owner, root), detail[..0]) == []
  {
    assert detail[..0] == [];
  }

  lemma TakeStep(was: map<Key, Key>, now: map<Key, Key>, owner: Key, root: Key, detail: seq<LogicalPart>, i: nat, base: seq<LogicalPart>)
    requires i < |detail| && Moved(was, now, owner, root, detail[..i])
    ensures Takes(now, owner, root)(detail[i]) <==> Takes(was, owner, root)(detail[i])
    ensures detail[i].Sub? && Takes(was, owner, root)(detail[i]) ==> Moved(was, now[detail[i].key := owner], owner, root, detail[..i + 1])
    ensures detail[i].Words? || !Takes(was, owner, root)(detail[i]) ==> Moved(was, now, owner, root, detail[..i + 1])
    ensures var f := Takes(was, owner, root);
            base + Filter(f, detail[..i + 1]) == base + Filter(f, detail[..i]) + (if f(detail[i]) then [detail[i]] else [])
  {
    FilterSnoc(Takes(was, owner, root), detail[..i], detail[i]);
    MoveOne(was, now, owner, root, detail[..i], detail[i]);
    assert detail[..i + 1] == detail[..i] + [detail[i]];
  }

  lemma MoveOne(was: map<Key, Key>, now: map<Key, Key>, owner: Key, root: Key, detail: seq<LogicalPart>, part: LogicalPart)
    requires Moved(was, now, owner, root, detail)
    ensures Takes(now, owner, root)(part) <==> Takes(was, owner, root)(part)
    ensures part.Sub? && Takes(was, owner, root)(part) ==> Moved(was, now[part.key := owner], owner, root, detail + [part])
    ensures part.Words? || !Takes(was, owner, root)(part) ==> Moved(was, now, owner, root, detail + [part])
  {
    assert forall c :: Sub(c) in detail + [part] <==> Sub(c) in detail || Sub(c) == part;
  }
}
