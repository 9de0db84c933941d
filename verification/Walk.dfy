/** Walking the logical tree, and numbering its blocks. */
module Walk {
  import opened Common
  import opened Documents
  import opened Loader
  import opened Forest
  import opened Manifest

  predicate Listable(files: Files, order: seq<Path>, k: Key) {
    k.path in order && k.path in files && k.line <= files[k.path].size
  }

  /** The blocks below `k`, each before its own: the walk of its parts. */
  function Walk(files: Files, s: State, k: Key): seq<Key>
    requires Listable(files, s.order, k)
    decreases |s.order| - PositionOf(s.order, k.path), files[k.path].size - k.line, 1, 0
  {
    if k in s.parts then WalkParts(files, s, k, s.parts[k]) else []
  }

  function WalkParts(files: Files, s: State, k: Key, parts: seq<LogicalPart>): seq<Key>
    requires Listable(files, s.order, k)
    decreases |s.order| - PositionOf(s.order, k.path), files[k.path].size - k.line, 0, |parts|
  {
    if parts == [] then []
    else if parts[0].Sub? && Listable(files, s.order, parts[0].key) && Before(s.order, k, parts[0].key) then
      [parts[0].key] + Walk(files, s, parts[0].key) + WalkParts(files, s, k, parts[1..])
    else WalkParts(files, s, k, parts[1..])
  }

  function WalkRoots(files: Files, s: State, roots: seq<Key>): seq<Key> {
    if roots == [] then []
    else (if Listable(files, s.order, roots[0]) then Walk(files, s, roots[0]) else []) + WalkRoots(files, s, roots[1..])
  }

  // ---------- parents come first ----------

  /** Load order and line strictly decrease along logical parents. */
  lemma ParentIsBefore(files: Files, s: State, c: Key)
    requires Ok(files, s) && c in s.parent
    ensures s.parent[c] in s.parts && Before(s.order, s.parent[c], c)
  {
    assert IsBlock(files, s.order, c);
    assert multiset(s.parts[s.parent[c]])[Sub(c)] == 1;
    assert IsTree(files[c.path]) && files[c.path].blocks[c.line].parent < c.line;
  }

  lemma BlockIsListable(files: Files, s: State, k: Key)
    requires Ok(files, s) && (k in s.parts || k in s.parent)
    ensures Listable(files, s.order, k) && k in s.parts
  {
    assert IsBlock(files, s.order, k) && IsTree(files[k.path]);
  }

  lemma BeforeTrans(order: seq<Path>, a: Key, b: Key, c: Key)
    requires Before(order, a, b) && Before(order, b, c)
    ensures Before(order, a, c) && a != c
  {}

  /** `k` is a logical ancestor of `c`. */
  ghost predicate Below(files: Files, s: State, k: Key, c: Key)
    requires Ok(files, s)
    decreases if c.path in s.order then PositionOf(s.order, c.path) else 0, c.line
  {
    c in s.parent && (s.parent[c] == k || (ParentIsBefore(files, s, c); Below(files, s, k, s.parent[c])))
  }

  /** The child of `k` that is `c` or above `c`. */
  ghost function Via(files: Files, s: State, k: Key, c: Key): Key
    requires Ok(files, s) && Below(files, s, k, c)
    decreases if c.path in s.order then PositionOf(s.order, c.path) else 0, c.line
  {
    ParentIsBefore(files, s, c);
    if s.parent[c] == k then c else Via(files, s, k, s.parent[c])
  }

  lemma {:induction false} BelowIsLater(files: Files, s: State, k: Key, c: Key)
    requires Ok(files, s) && Below(files, s, k, c)
    ensures Before(s.order, k, c) && k != c
    decreases if c.path in s.order then PositionOf(s.order, c.path) else 0, c.line
  {
    ParentIsBefore(files, s, c);
    if s.parent[c] != k {
      BelowIsLater(files, s, k, s.parent[c]);
      BeforeTrans(s.order, k, s.parent[c], c);
    }
  }

  /** A child of `k` is `c` or above `c` exactly if it is the one on the way from `k` to `c`. */
  lemma {:induction false} ViaIsUnique(files: Files, s: State, k: Key, b: Key, c: Key)
    requires Ok(files, s) && b in s.parent && s.parent[b] == k
    ensures (b == c || Below(files, s, b, c)) <==> (Below(files, s, k, c) && Via(files, s, k, c) == b)
    decreases if c.path in s.order then PositionOf(s.order, c.path) else 0, c.line
  {
    if c in s.parent {
      ParentIsBefore(files, s, c);
      if s.parent[c] == k {
        if Below(files, s, b, c) {
          // then b is k itself or above it, but it comes after k
          ParentIsBefore(files, s, b);
          if s.parent[c] != b {
            BelowIsLater(files, s, b, k);
            BeforeTrans(s.order, b, k, b);
          }
        }
      } else {
        ViaIsUnique(files, s, k, b, s.parent[c]);
      }
    }
  }

  // ---------- each block once ----------

  lemma {:induction false} ViaIsChild(files: Files, s: State, k: Key, c: Key)
    requires Ok(files, s) && Below(files, s, k, c)
    ensures Via(files, s, k, c) in s.parent && s.parent[Via(files, s, k, c)] == k
    decreases if c.path in s.order then PositionOf(s.order, c.path) else 0, c.line
  {
    ParentIsBefore(files, s, c);
    if s.parent[c] != k {
      ViaIsChild(files, s, k, s.parent[c]);
    }
  }

  /** Every block that `parts` lists is a child of `k`. */
  predicate ListsChildrenOf(s: State, k: Key, parts: seq<LogicalPart>) {
    forall part :: part in parts && part.Sub? ==> part.key in s.parent && s.parent[part.key] == k
  }

  ghost function CountBelow(files: Files, s: State, k: Key, parts: seq<LogicalPart>, c: Key): nat
    requires Ok(files, s)
  {
    if Below(files, s, k, c) then multiset(parts)[Sub(Via(files, s, k, c))] else 0
  }

  lemma CountStep(files: Files, s: State, k: Key, parts: seq<LogicalPart>, c: Key)
    requires Ok(files, s) && parts != [] && ListsChildrenOf(s, k, parts)
    ensures CountBelow(files, s, k, parts, c) == CountBelow(files, s, k, parts[1..], c) +
      (if parts[0].Sub? && (parts[0].key == c || Below(files, s, parts[0].key, c)) then 1 else 0)
  {
    if parts[0].Sub? {
      assert parts[0] in parts;
      ViaIsUnique(files, s, k, parts[0].key, c);
    }
    if Below(files, s, k, c) {
      FirstCounts(parts, Sub(Via(files, s, k, c)));
    }
  }

  lemma RestLists(s: State, k: Key, parts: seq<LogicalPart>)
    requires parts != [] && ListsChildrenOf(s, k, parts)
    ensures ListsChildrenOf(s, k, parts[1..])
    ensures parts[0].Sub? ==> parts[0].key in s.parent && s.parent[parts[0].key] == k
  {
    assert parts[0] in parts;
  }

  /** A child comes later in the order that the walk goes by. */
  lemma ChildIsLater(files: Files, s: State, k: Key, b: Key)
    requires Ok(files, s) && Listable(files, s.order, k) && b in s.parent && s.parent[b] == k
    ensures b in s.parts && !IsDetached(s, b) && Listable(files, s.order, b) && Before(s.order, k, b)
  {
    BlockIsListable(files, s, b);
    ParentIsBefore(files, s, b);
    ChildIsAttached(files, s, b);
  }

  lemma WalkPartsStep(files: Files, s: State, k: Key, parts: seq<LogicalPart>, c: Key)
    requires Listable(files, s.order, k) && parts != [] && parts[0].Sub?
    requires Listable(files, s.order, parts[0].key) && Before(s.order, k, parts[0].key)
    ensures multiset(WalkParts(files, s, k, parts))[c] ==
      (if parts[0].key == c then 1 else 0) + multiset(Walk(files, s, parts[0].key))[c] + multiset(WalkParts(files, s, k, parts[1..]))[c]
  {
    assert WalkParts(files, s, k, parts) == [parts[0].key] + Walk(files, s, parts[0].key) + WalkParts(files, s, k, parts[1..]);
  }

  lemma {:induction false} WalkPartsCount(files: Files, s: State, k: Key, parts: seq<LogicalPart>, c: Key)
    requires Ok(files, s) && Listable(files, s.order, k) && ListsChildrenOf(s, k, parts)
    ensures multiset(WalkParts(files, s, k, parts))[c] == CountBelow(files, s, k, parts, c)
    decreases |s.order| - PositionOf(s.order, k.path), files[k.path].size - k.line, 0, |parts|
  {
    if parts != [] {
      CountStep(files, s, k, parts, c);
      RestLists(s, k, parts);
      WalkPartsCount(files, s, k, parts[1..], c);
      if parts[0].Sub? {
        var b := parts[0].key;
        ChildIsLater(files, s, k, b);
        WalkCount(files, s, b, c);
        BelowItself(files, s, b);
        WalkPartsStep(files, s, k, parts, c);
      }
    } else {
      assert CountBelow(files, s, k, parts, c) == 0;
    }
  }

  lemma BelowItself(files: Files, s: State, b: Key)
    requires Ok(files, s)
    ensures !Below(files, s, b, b)
  {
    if Below(files, s, b, b) {
      BelowIsLater(files, s, b, b);
    }
  }

  lemma ChildIsAttached(files: Files, s: State, c: Key)
    requires Ok(files, s) && c in s.parent
    ensures !IsDetached(s, c)
  {}

  lemma {:induction false} WalkCount(files: Files, s: State, k: Key, c: Key)
    requires Ok(files, s) && k in s.parts && !IsDetached(s, k) && Listable(files, s.order, k)
    ensures multiset(Walk(files, s, k))[c] == if Below(files, s, k, c) then 1 else 0
    decreases |s.order| - PositionOf(s.order, k.path), files[k.path].size - k.line, 1, 0
  {
    ListsItsChildren(s, k);
    WalkPartsCount(files, s, k, s.parts[k], c);
    CountIsOne(files, s, k, c);
  }

  lemma ListsItsChildren(s: State, k: Key)
    requires ListsOk(s) && k in s.parts && !IsDetached(s, k)
    ensures ListsChildrenOf(s, k, s.parts[k])
  {
    forall part | part in s.parts[k] && part.Sub? ensures part.key in s.parent && s.parent[part.key] == k {
      assert Sub(part.key) in s.parts[k];
    }
  }

  lemma CountIsOne(files: Files, s: State, k: Key, c: Key)
    requires Ok(files, s) && k in s.parts
    ensures CountBelow(files, s, k, s.parts[k], c) == if Below(files, s, k, c) then 1 else 0
  {
    if Below(files, s, k, c) {
      ViaIsChild(files, s, k, c);
    }
  }

  lemma WalkIsBelow(files: Files, s: State, k: Key, c: Key)
    requires Ok(files, s) && k in s.parts && !IsDetached(s, k) && Listable(files, s.order, k) && c in Walk(files, s, k)
    ensures Below(files, s, k, c)
  {
    WalkCount(files, s, k, c);
    assert multiset(Walk(files, s, k))[c] > 0;
  }

  // ---------- from the roots ----------

  /** The root above a block. */
  ghost function RootOf(files: Files, s: State, c: Key): Key
    requires Ok(files, s) && c in s.parent
    decreases if c.path in s.order then PositionOf(s.order, c.path) else 0, c.line
  {
    ParentIsBefore(files, s, c);
    if s.parent[c] in s.parent then RootOf(files, s, s.parent[c]) else s.parent[c]
  }

  /** A root is above exactly the blocks whose root it is. */
  lemma {:induction false} BelowRoot(files: Files, s: State, r: Key, c: Key)
    requires Ok(files, s) && r !in s.parent && c in s.parent
    ensures Below(files, s, r, c) <==> RootOf(files, s, c) == r
    decreases if c.path in s.order then PositionOf(s.order, c.path) else 0, c.line
  {
    ParentIsBefore(files, s, c);
    if s.parent[c] in s.parent {
      BelowRoot(files, s, r, s.parent[c]);
    }
  }

  /** The root above a block is the root of a document that no heading has taken. */
  lemma {:induction false} RootIsFree(files: Files, s: State, c: Key)
    requires Ok(files, s) && c in s.parent
    ensures var r := RootOf(files, s, c); r in s.parts && r !in s.parent && r.line == 0 && r.path in s.order && r.path !in s.owners
    decreases if c.path in s.order then PositionOf(s.order, c.path) else 0, c.line
  {
    ParentIsBefore(files, s, c);
    var k := s.parent[c];
    if k in s.parent {
      RootIsFree(files, s, k);
    } else {
      FreeParent(files, s, c);
    }
  }

  lemma FreeParent(files: Files, s: State, c: Key)
    requires Ok(files, s) && c in s.parent && s.parent[c] !in s.parent
    ensures var r := s.parent[c]; r in s.parts && r.line == 0 && r.path in s.order && r.path !in s.owners
  {
    ParentIsBefore(files, s, c);
    assert IsBlock(files, s.order, s.parent[c]);
    assert s.parent[c] == ParentOf(files, s.owners, c);
    assert forall p :: p in s.owners ==> s.owners[p].line > 0;
  }

  ghost predicate FreeRoots(s: State, roots: seq<Key>) {
    forall r :: r in roots ==> r in s.parts && r !in s.parent && !IsDetached(s, r)
  }

  lemma WalkRootCount(files: Files, s: State, r: Key, c: Key)
    requires Ok(files, s) && c in s.parent && r in s.parts && r !in s.parent && !IsDetached(s, r)
    ensures Listable(files, s.order, r) && multiset(Walk(files, s, r))[c] == if RootOf(files, s, c) == r then 1 else 0
  {
    BlockIsListable(files, s, r);
    WalkCount(files, s, r, c);
    BelowRoot(files, s, r, c);
  }

  lemma WalkRootsStep(files: Files, s: State, roots: seq<Key>, c: Key)
    requires roots != [] && Listable(files, s.order, roots[0])
    ensures multiset(WalkRoots(files, s, roots))[c] == multiset(Walk(files, s, roots[0]))[c] + multiset(WalkRoots(files, s, roots[1..]))[c]
  {
    assert WalkRoots(files, s, roots) == Walk(files, s, roots[0]) + WalkRoots(files, s, roots[1..]);
  }

  lemma FirstIsFree(s: State, roots: seq<Key>)
    requires roots != [] && FreeRoots(s, roots)
    ensures var r := roots[0]; r in s.parts && r !in s.parent && !IsDetached(s, r)
  {
    assert roots[0] in roots;
  }

  lemma {:induction false} WalkRootsCount(files: Files, s: State, roots: seq<Key>, c: Key, r: Key)
    requires Ok(files, s) && c in s.parent && FreeRoots(s, roots) && r == RootOf(files, s, c)
    ensures multiset(WalkRoots(files, s, roots))[c] == multiset(roots)[r]
  {
    if roots != [] {
      FirstCounts(roots, r);
      FreeTail(s, roots);
      WalkRootsCount(files, s, roots[1..], c, r);
      FirstIsFree(s, roots);
      WalkRootCount(files, s, roots[0], c);
      WalkRootsStep(files, s, roots, c);
    }
  }

  lemma FreeTail(s: State, roots: seq<Key>)
    requires FreeRoots(s, roots) && roots != []
    ensures FreeRoots(s, roots[1..]) && roots[0] in s.parts && roots[0] !in s.parent && !IsDetached(s, roots[0])
  {
    assert roots[0] in roots;
  }

  lemma {:induction false} WalkRootsOnly(files: Files, s: State, roots: seq<Key>, c: Key)
    requires Ok(files, s) && c in WalkRoots(files, s, roots) && FreeRoots(s, roots)
    ensures c in s.parent
  {
    BlockIsListable(files, s, roots[0]);
    WalkCount(files, s, roots[0], c);
    if c in Walk(files, s, roots[0]) {
      assert multiset(Walk(files, s, roots[0]))[c] > 0;
    } else {
      WalkRootsOnly(files, s, roots[1..], c);
    }
  }

  // ---------- parents before children ----------

  /** Every block of a walk follows its parent, unless that is `k`. */
  ghost predicate ParentsFirst(s: State, k: Key, w: seq<Key>) {
    forall i :: 0 <= i < |w| ==> w[i] in s.parent && (s.parent[w[i]] == k || s.parent[w[i]] in w[..i])
  }

  lemma FirstThenBelow(s: State, k: Key, b: Key, w: seq<Key>, rest: seq<Key>)
    requires b in s.parent && s.parent[b] == k && ParentsFirst(s, b, w) && ParentsFirst(s, k, rest)
    ensures ParentsFirst(s, k, [b] + w + rest)
  {
    var all := [b] + w + rest;
    forall i | 0 <= i < |all| ensures all[i] in s.parent && (s.parent[all[i]] == k || s.parent[all[i]] in all[..i]) {
      if 0 < i <= |w| {
        assert all[i] == w[i - 1] && all[..i] == [b] + w[..i - 1];
      } else if i > |w| {
        var n := i - 1 - |w|;
        assert all[i] == rest[n] && all[..i] == [b] + w + rest[..n];
      }
    }
  }

  lemma {:induction false} WalkPartsFirst(files: Files, s: State, k: Key, parts: seq<LogicalPart>)
    requires Ok(files, s) && Listable(files, s.order, k) && ListsChildrenOf(s, k, parts)
    ensures ParentsFirst(s, k, WalkParts(files, s, k, parts))
    decreases |s.order| - PositionOf(s.order, k.path), files[k.path].size - k.line, 0, |parts|
  {
    if parts != [] {
      WalkPartsFirst(files, s, k, parts[1..]);
      if parts[0].Sub? {
        var b := parts[0].key;
        assert parts[0] in parts;
        BlockIsListable(files, s, b);
        ParentIsBefore(files, s, b);
        ChildIsAttached(files, s, b);
        WalkFirst(files, s, b);
        FirstThenBelow(s, k, b, Walk(files, s, b), WalkParts(files, s, k, parts[1..]));
      }
    }
  }

  lemma {:induction false} WalkFirst(files: Files, s: State, k: Key)
    requires Ok(files, s) && k in s.parts && !IsDetached(s, k) && Listable(files, s.order, k)
    ensures ParentsFirst(s, k, Walk(files, s, k))
    decreases |s.order| - PositionOf(s.order, k.path), files[k.path].size - k.line, 1, 0
  {
    ListsItsChildren(s, k);
    WalkPartsFirst(files, s, k, s.parts[k]);
  }

  // ---------- siblings in order ----------

  ghost predicate IsOrAbove(files: Files, s: State, a: Key, c: Key)
    requires Ok(files, s)
  {
    a == c || Below(files, s, a, c)
  }

  /** The parts of `k` list `a` before `b`. */
  ghost predicate ListsBefore(s: State, k: Key, a: Key, b: Key) {
    k in s.parts && exists m, n :: 0 <= m < n < |s.parts[k]| && s.parts[k][m] == Sub(a) && s.parts[k][n] == Sub(b)
  }

  /** A child of `k` that is listed after `a` is `d` or above `d`. */
  ghost predicate LaterSibling(files: Files, s: State, k: Key, a: Key, d: Key)
    requires Ok(files, s)
  {
    exists b :: ListsBefore(s, k, a, b) && IsOrAbove(files, s, b, d)
  }

  /** `d` is below `c`, or where the ways down to them part, the way to `c` is listed first. */
  ghost predicate TreeBefore(files: Files, s: State, c: Key, d: Key)
    requires Ok(files, s)
  {
    Below(files, s, c, d) || exists k, a :: IsOrAbove(files, s, a, c) && LaterSibling(files, s, k, a, d)
  }

  ghost predicate InTreeOrder(files: Files, s: State, w: seq<Key>)
    requires Ok(files, s)
  {
    forall i, j :: 0 <= i < j < |w| ==> TreeBefore(files, s, w[i], w[j])
  }

  lemma SiblingBefore(files: Files, s: State, k: Key, b: Key, c: Key, d: Key)
    requires Ok(files, s) && IsOrAbove(files, s, b, c) && LaterSibling(files, s, k, b, d)
    ensures TreeBefore(files, s, c, d)
  {}

  lemma ElementAt(b: Key, w: seq<Key>, rest: seq<Key>, i: nat)
    requires i < 1 + |w| + |rest|
    ensures var all := [b] + w + rest;
            && (i == 0 ==> all[i] == b) && (0 < i <= |w| ==> all[i] == w[i - 1] && all[i] in w)
            && (i > |w| ==> all[i] == rest[i - 1 - |w|] && all[i] in rest)
  {}

  lemma OrderAt(files: Files, s: State, w: seq<Key>, i: nat, j: nat)
    requires Ok(files, s) && InTreeOrder(files, s, w) && i < j < |w|
    ensures TreeBefore(files, s, w[i], w[j])
  {}

  lemma JoinInOrder(files: Files, s: State, k: Key, b: Key, w: seq<Key>, rest: seq<Key>)
    requires Ok(files, s) && InTreeOrder(files, s, w) && InTreeOrder(files, s, rest)
    requires forall c :: c in w ==> Below(files, s, b, c)
    requires forall d :: d in rest ==> LaterSibling(files, s, k, b, d)
    ensures InTreeOrder(files, s, [b] + w + rest)
  {
    var all := [b] + w + rest;
    forall i, j | 0 <= i < j < |all| ensures TreeBefore(files, s, all[i], all[j]) {
      ElementAt(b, w, rest, i);
      ElementAt(b, w, rest, j);
      if i > |w| {
        OrderAt(files, s, rest, i - 1 - |w|, j - 1 - |w|);
      } else if j > |w| {
        SiblingBefore(files, s, k, b, all[i], all[j]);
      } else if i > 0 {
        OrderAt(files, s, w, i - 1, j - 1);
      }
    }
  }

  /** What the walk of some parts visits is one of them or below one of them. */
  lemma InPartsIsBelow(files: Files, s: State, k: Key, parts: seq<LogicalPart>, c: Key) returns (b: Key)
    requires Ok(files, s) && Listable(files, s.order, k) && ListsChildrenOf(s, k, parts) && c in WalkParts(files, s, k, parts)
    ensures Sub(b) in parts && IsOrAbove(files, s, b, c)
  {
    WalkPartsCount(files, s, k, parts, c);
    assert multiset(WalkParts(files, s, k, parts))[c] > 0;
    assert CountBelow(files, s, k, parts, c) > 0;
    b := ViaIsOrAbove(files, s, k, parts, c);
  }

  lemma ViaIsOrAbove(files: Files, s: State, k: Key, parts: seq<LogicalPart>, c: Key) returns (b: Key)
    requires Ok(files, s) && CountBelow(files, s, k, parts, c) > 0
    ensures Sub(b) in parts && IsOrAbove(files, s, b, c)
  {
    b := Via(files, s, k, c);
    ViaIsChild(files, s, k, c);
    ViaIsUnique(files, s, k, b, c);
  }

  lemma LaterPart(s: State, k: Key, n: nat, b: Key)
    requires k in s.parts && n < |s.parts[k]| && s.parts[k][n].Sub? && Sub(b) in s.parts[k][n + 1..]
    ensures ListsBefore(s, k, s.parts[k][n].key, b)
  {
    var rest := s.parts[k][n + 1..];
    var m :| 0 <= m < |rest| && rest[m] == Sub(b);
    assert s.parts[k][n + 1 + m] == Sub(b) && s.parts[k][n] == Sub(s.parts[k][n].key);
  }

  lemma RestListsToo(s: State, k: Key, n: nat)
    requires k in s.parts && n <= |s.parts[k]| && ListsChildrenOf(s, k, s.parts[k])
    ensures ListsChildrenOf(s, k, s.parts[k][n..])
  {}

  lemma {:induction false} WalkPartsInOrder(files: Files, s: State, k: Key, n: nat)
    requires Ok(files, s) && k in s.parts && !IsDetached(s, k) && Listable(files, s.order, k) && n <= |s.parts[k]|
    ensures InTreeOrder(files, s, WalkParts(files, s, k, s.parts[k][n..]))
    decreases |s.order| - PositionOf(s.order, k.path), files[k.path].size - k.line, 0, |s.parts[k]| - n
  {
    var parts := s.parts[k][n..];
    if parts != [] {
      assert parts[0] == s.parts[k][n] && parts[1..] == s.parts[k][n + 1..];
      WalkPartsInOrder(files, s, k, n + 1);
      if parts[0].Sub? {
        var b := parts[0].key;
        ListsItsChildren(s, k);
        assert parts[0] in s.parts[k];
        RestListsToo(s, k, n + 1);
        ChildIsLater(files, s, k, b);
        WalkInOrder(files, s, b);
        forall c | c in Walk(files, s, b) ensures Below(files, s, b, c) {
          WalkIsBelow(files, s, b, c);
        }
        forall d | d in WalkParts(files, s, k, parts[1..]) ensures LaterSibling(files, s, k, b, d) {
          var a := InPartsIsBelow(files, s, k, parts[1..], d);
          LaterPart(s, k, n, a);
        }
        JoinInOrder(files, s, k, b, Walk(files, s, b), WalkParts(files, s, k, parts[1..]));
      }
    }
  }

  lemma {:induction false} WalkInOrder(files: Files, s: State, k: Key)
    requires Ok(files, s) && k in s.parts && !IsDetached(s, k) && Listable(files, s.order, k)
    ensures InTreeOrder(files, s, Walk(files, s, k))
    decreases |s.order| - PositionOf(s.order, k.path), files[k.path].size - k.line, 1, 0
  {
    assert s.parts[k][0..] == s.parts[k];
    WalkPartsInOrder(files, s, k, 0);
  }

  /** One tree after the other, each in the order of its parts. */
  ghost predicate InOrder(files: Files, s: State, roots: seq<Key>, w: seq<Key>)
    requires Ok(files, s)
  {
    forall i, j :: 0 <= i < j < |w| ==> TreeBefore(files, s, w[i], w[j]) || RootsBefore(files, s, roots, w[i], w[j])
  }

  ghost predicate RootsBefore(files: Files, s: State, roots: seq<Key>, c: Key, d: Key)
    requires Ok(files, s)
  {
    exists m, n :: 0 <= m < n < |roots| && Below(files, s, roots[m], c) && Below(files, s, roots[n], d)
  }

  lemma NthIsFree(files: Files, s: State, roots: seq<Key>, n: nat)
    requires Ok(files, s) && FreeRoots(s, roots) && n < |roots|
    ensures var r := roots[n]; r in s.parts && !IsDetached(s, r) && Listable(files, s.order, r)
  {
    assert roots[n] in roots;
    BlockIsListable(files, s, roots[n]);
  }

  lemma WalkRootsUnfold(files: Files, s: State, roots: seq<Key>, n: nat)
    requires n < |roots| && Listable(files, s.order, roots[n])
    ensures WalkRoots(files, s, roots[n..]) == Walk(files, s, roots[n]) + WalkRoots(files, s, roots[n + 1..])
  {
    assert roots[n..][0] == roots[n] && roots[n..][1..] == roots[n + 1..];
  }

  lemma {:induction false} WalkRootsBelow(files: Files, s: State, roots: seq<Key>, from: nat, c: Key) returns (n: nat)
    requires Ok(files, s) && FreeRoots(s, roots) && from <= |roots| && c in WalkRoots(files, s, roots[from..])
    ensures from <= n < |roots| && Below(files, s, roots[n], c)
    decreases |roots| - from
  {
    NthIsFree(files, s, roots, from);
    WalkRootsUnfold(files, s, roots, from);
    if c in Walk(files, s, roots[from]) {
      WalkIsBelow(files, s, roots[from], c);
      n := from;
    } else {
      n := WalkRootsBelow(files, s, roots, from + 1, c);
    }
  }

  lemma TreesInOrder(files: Files, s: State, roots: seq<Key>, n: nat, w: seq<Key>, rest: seq<Key>)
    requires Ok(files, s) && n < |roots| && InTreeOrder(files, s, w) && InOrder(files, s, roots, rest)
    requires forall c, d :: c in w && d in rest ==> RootsBefore(files, s, roots, c, d)
    ensures InOrder(files, s, roots, w + rest)
  {
    var all := w + rest;
    forall i, j | 0 <= i < j < |all| ensures TreeBefore(files, s, all[i], all[j]) || RootsBefore(files, s, roots, all[i], all[j]) {
      if j < |w| {
        assert all[i] == w[i] && all[j] == w[j];
      } else {
        assert all[j] == rest[j - |w|] && all[j] in rest;
        if i < |w| {
          assert all[i] == w[i] && all[i] in w;
        } else {
          assert all[i] == rest[i - |w|];
        }
      }
    }
  }

  lemma {:induction false} WalkRootsInOrder(files: Files, s: State, roots: seq<Key>, n: nat)
    requires Ok(files, s) && FreeRoots(s, roots) && n <= |roots|
    ensures InOrder(files, s, roots, WalkRoots(files, s, roots[n..]))
    decreases |roots| - n
  {
    if n < |roots| {
      NthIsFree(files, s, roots, n);
      WalkRootsUnfold(files, s, roots, n);
      WalkRootsInOrder(files, s, roots, n + 1);
      WalkInOrder(files, s, roots[n]);
      var w, rest := Walk(files, s, roots[n]), WalkRoots(files, s, roots[n + 1..]);
      forall c, d | c in w && d in rest ensures RootsBefore(files, s, roots, c, d) {
        WalkIsBelow(files, s, roots[n], c);
        var m := WalkRootsBelow(files, s, roots, n + 1, d);
      }
      TreesInOrder(files, s, roots, n, w, rest);
    }
  }

  // ---------- from the roots, in order ----------

  /** Every block of a walk follows its parent, unless that is a root. */
  ghost predicate Ordered(s: State, w: seq<Key>) {
    forall i :: 0 <= i < |w| ==> w[i] in s.parent && (s.parent[w[i]] !in s.parent || s.parent[w[i]] in w[..i])
  }

  lemma {:induction false} WalkRootsOrdered(files: Files, s: State, roots: seq<Key>)
    requires Ok(files, s) && FreeRoots(s, roots)
    ensures Ordered(s, WalkRoots(files, s, roots))
  {
    if roots != [] {
      WalkRootsOrdered(files, s, roots[1..]);
      BlockIsListable(files, s, roots[0]);
      WalkFirst(files, s, roots[0]);
      OrderedAppend(s, roots[0], Walk(files, s, roots[0]), WalkRoots(files, s, roots[1..]));
    }
  }

  lemma OrderedAppend(s: State, r: Key, w: seq<Key>, rest: seq<Key>)
    requires r !in s.parent && ParentsFirst(s, r, w) && Ordered(s, rest)
    ensures Ordered(s, w + rest)
  {
    var all := w + rest;
    forall i | 0 <= i < |all| ensures all[i] in s.parent && (s.parent[all[i]] !in s.parent || s.parent[all[i]] in all[..i]) {
      if i < |w| {
        assert all[..i] == w[..i];
      } else {
        assert all[i] == rest[i - |w|] && all[..i] == w + rest[..i - |w|];
      }
    }
  }

  // ---------- the whole manifest ----------

  /** What `Build` leaves. */
  ghost predicate Whole(sources: map<Path, seq<string>>, s: State, roots: seq<Key>) {
    var files := Parsed(sources);
    Ok(files, s) && Settled(s, []) && s.order == VisitRoots(files, ROOTS, []) && roots == RootKeys(sources, ROOTS)
  }

  lemma {:induction false} VisitRootsLoads(files: Files, roots: seq<Path>, seen: seq<Path>)
    requires NoDup(seen)
    ensures var r := VisitRoots(files, roots, seen);
            NoDup(r) && (forall i :: 0 <= i < |roots| && roots[i] in files ==> roots[i] in r) && ClosedBeyond(files, seen, r)
  {
    if roots != [] {
      var next := if roots[0] in files then Visit(files, roots[0], seen) else seen;
      if roots[0] in files {
        VisitLoads(files, roots[0], seen);
      }
      VisitRootsLoads(files, roots[1..], next);
      forall i | 0 <= i < |roots| && roots[i] in files ensures roots[i] in VisitRoots(files, roots, seen) {
        assert i > 0 ==> roots[i] == roots[1..][i - 1];
      }
    }
  }

  lemma RootKeysLook(sources: map<Path, seq<string>>)
    ensures forall r :: r in RootKeys(sources, ROOTS) ==> r.line == 0 && r.path in ROOTS && r.path in sources
    ensures forall p :: p in ROOTS && p in sources ==> multiset(RootKeys(sources, ROOTS))[Key(p, 0)] == 1
  {
    var one := [ROOTS[0]];
    assert ROOTS[..|ROOTS| - 1] == one && one[..|one| - 1] == [];
    var first := if ROOTS[0] in sources then [Key(ROOTS[0], 0)] else [];
    var second := if ROOTS[1] in sources then [Key(ROOTS[1], 0)] else [];
    assert RootKeys(sources, []) == [] && RootKeys(sources, one) == [] + first;
    assert RootKeys(sources, ROOTS) == first + second;
    assert ROOTS[0][0] == 'M' && ROOTS[1][0] == 'P';
  }

  lemma OwnedIsNoRoot(files: Files, s: State)
    requires OwnersOk(files, s) && RefsStay(files)
    ensures forall p :: p in s.owners ==> p !in ROOTS
  {
    forall p | p in s.owners ensures p !in ROOTS {
      assert Names(files, s.owners[p], p);
    }
  }

  /** No heading takes a root. */
  lemma RootsAreFree(sources: map<Path, seq<string>>, s: State, roots: seq<Key>)
    requires Whole(sources, s, roots)
    ensures FreeRoots(s, roots)
  {
    var files := Parsed(sources);
    ParsedRefsStay(sources);
    RootKeysLook(sources);
    VisitRootsLoads(files, ROOTS, []);
    forall r | r in roots ensures r in s.parts && r !in s.parent && !IsDetached(s, r) {
      var i :| 0 <= i < |ROOTS| && ROOTS[i] == r.path;
      assert IsTree(files[r.path]);
      assert IsBlock(files, s.order, r);
      assert r.path !in s.owners by { OwnedIsNoRoot(files, s); }
    }
  }

  /** Walking from the roots reaches every block below a root exactly once, parents first and siblings in the order of the parent's parts. */
  lemma WalkVisitsOnce(sources: map<Path, seq<string>>, s: State, roots: seq<Key>)
    requires Whole(sources, s, roots)
    ensures var w := WalkRoots(Parsed(sources), s, roots);
            && (forall c :: multiset(w)[c] == if c in s.parent then 1 else 0)
            && Ordered(s, w) && InOrder(Parsed(sources), s, roots, w)
  {
    var files := Parsed(sources);
    var w := WalkRoots(files, s, roots);
    RootsAreFree(sources, s, roots);
    WalkRootsOrdered(files, s, roots);
    assert roots[0..] == roots;
    WalkRootsInOrder(files, s, roots, 0);
    forall c ensures multiset(w)[c] == if c in s.parent then 1 else 0 {
      if c in s.parent {
        WalkRootsCount(files, s, roots, c, RootOf(files, s, c));
        RootIsFree(files, s, c);
        RootKeysLook(sources);
        var r := RootOf(files, s, c);
        assert r == Key(r.path, 0);
      } else if c in w {
        WalkRootsOnly(files, s, roots, c);
      }
    }
  }

  /** Loading reads every file that a loaded document names, each once, and nothing else but the roots. */
  lemma LoadingIsExact(sources: map<Path, seq<string>>, s: State, roots: seq<Key>)
    requires Whole(sources, s, roots)
    ensures var files := Parsed(sources);
            && NoDup(s.order) && ClosedBeyond(files, [], s.order)
            && (forall p :: p in ROOTS && p in sources ==> p in s.order)
            && forall p :: p in s.order && p !in ROOTS ==>
                 p in s.owners && Names(files, s.owners[p], p) && s.owners[p].path in s.order && PositionOf(s.order, s.owners[p].path) < PositionOf(s.order, p)
  {
    var files := Parsed(sources);
    VisitRootsLoads(files, ROOTS, []);
    forall p | p in ROOTS && p in sources ensures p in s.order {
      var i :| 0 <= i < |ROOTS| && ROOTS[i] == p;
      assert ROOTS[i] in files;
    }
    forall p | p in s.order && p !in ROOTS ensures p in s.owners && Names(files, s.owners[p], p) {
      assert p in s.owners;
    }
  }

  lemma {:induction false} OnceMeansDistinct(w: seq<Key>)
    requires forall c :: multiset(w)[c] <= 1
    ensures Distinct(w)
  {
    if w != [] {
      assert w == [w[0]] + w[1..];
      forall c ensures multiset(w[1..])[c] <= 1 {
        assert multiset(w)[c] <= 1;
      }
      OnceMeansDistinct(w[1..]);
      forall i, j | 0 <= i < j < |w| ensures w[i] != w[j] {
        if i == 0 {
          assert w[j] == w[1..][j - 1] && w[j] in multiset(w[1..]);
          assert multiset(w)[w[0]] <= 1;
        } else {
          assert w[i] == w[1..][i - 1] && w[j] == w[1..][j - 1];
        }
      }
    }
  }

  /** The blocks below the roots get distinct ranks, and every child ranks after its parent. */
  ghost predicate IsRanking(s: State, ranks: map<Key, nat>) {
    && ranks.Keys == s.parent.Keys
    && (forall a, b :: a in ranks && b in ranks && a != b ==> ranks[a] != ranks[b])
    && (forall c :: c in ranks && s.parent[c] in ranks ==> ranks[s.parent[c]] < ranks[c])
    && forall c :: c in ranks ==> ranks[c] < |ranks|
  }

  /** Number the blocks in walking order, skipping what has been seen. */
  method NumberBlocks(w: seq<Key>) returns (ranks: map<Key, nat>)
    requires Distinct(w)
    ensures ranks.Keys == Elements(w) && |ranks| == |w|
    ensures forall j :: 0 <= j < |w| ==> w[j] in ranks && ranks[w[j]] == j
  {
    ranks := map[];
    var rank := 0;
    var i := 0;
    while i < |w|
      invariant 0 <= i <= |w| && rank == i == |ranks|
      invariant ranks.Keys == Elements(w[..i])
      invariant forall j :: 0 <= j < i ==> w[j] in ranks && ranks[w[j]] == j
    {
      TakeOne(w, i);
      NotBefore(w, i);
      if w[i] !in ranks {
        ranks := ranks[w[i] := rank];
        rank := rank + 1;
      }
      i := i + 1;
    }
    assert w[..i] == w;
  }

  method AssignRanks(sources: map<Path, seq<string>>, s: State, roots: seq<Key>) returns (ranks: map<Key, nat>)
    requires Whole(sources, s, roots)
    ensures IsRanking(s, ranks) && RanksInOrder(Parsed(sources), s, roots, ranks)
  {
    var w := WalkRoots(Parsed(sources), s, roots);
    WalkVisitsOnce(sources, s, roots);
    OnceMeansDistinct(w);
    ranks := NumberBlocks(w);
    RanksAreRanking(s, w, ranks);
    RanksFollowWalk(Parsed(sources), s, roots, w, ranks);
  }

  /** A smaller rank comes first in the tree. */
  ghost predicate RanksInOrder(files: Files, s: State, roots: seq<Key>, ranks: map<Key, nat>)
    requires Ok(files, s)
  {
    forall a, b :: a in ranks && b in ranks && ranks[a] < ranks[b] ==> TreeBefore(files, s, a, b) || RootsBefore(files, s, roots, a, b)
  }

  lemma RanksFollowWalk(files: Files, s: State, roots: seq<Key>, w: seq<Key>, ranks: map<Key, nat>)
    requires Ok(files, s) && InOrder(files, s, roots, w) && ranks.Keys == Elements(w)
    requires forall j :: 0 <= j < |w| ==> w[j] in ranks && ranks[w[j]] == j
    ensures RanksInOrder(files, s, roots, ranks)
  {
    forall a, b | a in ranks && b in ranks && ranks[a] < ranks[b] ensures TreeBefore(files, s, a, b) || RootsBefore(files, s, roots, a, b) {
      assert a in w && b in w;
      assert w[ranks[a]] == a && w[ranks[b]] == b;
    }
  }

  lemma RanksAreRanking(s: State, w: seq<Key>, ranks: map<Key, nat>)
    requires forall c :: multiset(w)[c] == if c in s.parent then 1 else 0
    requires Ordered(s, w) && |ranks| == |w| && ranks.Keys == Elements(w)
    requires forall j :: 0 <= j < |w| ==> w[j] in ranks && ranks[w[j]] == j
    ensures IsRanking(s, ranks)
  {
    forall c ensures c in ranks <==> c in s.parent {
      assert c in w <==> multiset(w)[c] > 0;
    }
    forall c | c in ranks && s.parent[c] in ranks ensures ranks[s.parent[c]] < ranks[c] {
      var i :| 0 <= i < |w| && w[i] == c;
      assert s.parent[w[i]] in w[..i];
      var j :| 0 <= j < i && w[..i][j] == s.parent[c];
      assert w[j] == s.parent[c];
    }
    forall a, b | a in ranks && b in ranks && a != b ensures ranks[a] != ranks[b] {
      var i :| 0 <= i < |w| && w[i] == a;
      var j :| 0 <= j < |w| && w[j] == b;
    }
    forall c | c in ranks ensures ranks[c] < |ranks| {
      var i :| 0 <= i < |w| && w[i] == c;
    }
  }
}
