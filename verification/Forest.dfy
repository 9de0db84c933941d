/** The logical tree: documents entered one by one, and attached to the headings that name them. */
module Forest {
  import opened Common
  import opened Lines
  import opened Index
  import opened Documents
  import opened Loader

  /** What has been loaded. `owners` records which heading each detail document is attached to. */
  datatype State = State(order: seq<Path>, parent: map<Key, Key>, parts: map<Key, seq<LogicalPart>>, owners: map<Path, Key>)

  const EMPTY := State([], map[], map[], map[])

  predicate IsBlock(files: Files, order: seq<Path>, k: Key) {
    k.path in order && k.path in files && k.line in files[k.path].blocks
  }

  function PositionOf(order: seq<Path>, p: Path): (r: nat)
    requires p in order
    ensures r < |order| && order[r] == p
  {
    if order[0] == p then 0 else 1 + PositionOf(order[1..], p)
  }

  /** Earlier in load order, or earlier in the same document. */
  predicate Before(order: seq<Path>, a: Key, b: Key) {
    && a.path in order && b.path in order
    && (PositionOf(order, a.path) < PositionOf(order, b.path) || (a.path == b.path && a.line < b.line))
  }

  function LiftPart(p: Path, part: Part): LogicalPart {
    match part case Line(text) => Words(text) case Child(n) => Sub(Key(p, n))
  }

  function Lift(p: Path, parts: seq<Part>): seq<LogicalPart> {
    if parts == [] then [] else [LiftPart(p, parts[0])] + Lift(p, parts[1..])
  }

  /** A block's parent inside its document or, at the top of a detail document, the heading it is attached to. */
  function ParentOf(files: Files, owners: map<Path, Key>, c: Key): Key
    requires c.path in files && c.line in files[c.path].blocks
  {
    var n := files[c.path].blocks[c.line].parent;
    if n == 0 && c.path in owners then owners[c.path] else Key(c.path, n)
  }

  predicate Names(files: Files, owner: Key, p: Path) {
    owner.path in files && exists i :: 0 <= i < |files[owner.path].refs| && files[owner.path].refs[i] == Ref(owner.line, p)
  }

  // ---------- the invariant ----------

  ghost predicate Shape(files: Files, s: State) {
    && NoDup(s.order)
    && (forall p :: p in s.order ==> p in files && IsTree(files[p]))
    && (forall k :: k in s.parts <==> IsBlock(files, s.order, k))
    && (forall k :: k in s.parent <==> IsBlock(files, s.order, k) && k.line > 0)
  }

  ghost predicate ParentsOk(files: Files, s: State) {
    forall c :: c in s.parent ==> IsBlock(files, s.order, c) && s.parent[c] == ParentOf(files, s.owners, c)
  }

  ghost predicate OwnersOk(files: Files, s: State) {
    forall p :: p in s.owners ==>
      && p in s.order && IsBlock(files, s.order, s.owners[p]) && s.owners[p].line > 0
      && PositionOf(s.order, s.owners[p].path) < PositionOf(s.order, p) && Names(files, s.owners[p], p)
  }

  /** A root always lists what it holds physically. */
  ghost predicate RootsOk(files: Files, s: State) {
    forall p :: p in s.order && p in files && 0 in files[p].blocks ==> Key(p, 0) in s.parts && s.parts[Key(p, 0)] == Lift(p, files[p].blocks[0].parts)
  }

  /** Every block is listed once by its logical parent. */
  ghost predicate OnceOk(s: State) {
    forall c :: c in s.parent ==> s.parent[c] in s.parts && multiset(s.parts[s.parent[c]])[Sub(c)] == 1
  }

  predicate IsDetached(s: State, k: Key) {
    k.line == 0 && k.path in s.owners
  }

  /** And by no other block, except the root of a document that has been attached. */
  ghost predicate ListsOk(s: State) {
    forall k, c :: k in s.parts && !IsDetached(s, k) && Sub(c) in s.parts[k] ==> c in s.parent && s.parent[c] == k
  }

  ghost predicate Ok(files: Files, s: State) {
    Shape(files, s) && ParentsOk(files, s) && OwnersOk(files, s) && RootsOk(files, s) && OnceOk(s) && ListsOk(s)
  }

  // ---------- small facts ----------

  lemma {:induction false} PositionKept(order: seq<Path>, more: seq<Path>, p: Path)
    requires p in order && order <= more
    ensures PositionOf(more, p) == PositionOf(order, p)
  {
    if order[0] != p {
      PositionKept(order[1..], more[1..], p);
    }
  }

  lemma {:induction false} LiftCounts(p: Path, parts: seq<Part>, c: Key)
    ensures multiset(Lift(p, parts))[Sub(c)] == if c.path == p then multiset(parts)[Child(c.line)] else 0
  {
    if parts != [] {
      LiftCounts(p, parts[1..], c);
      FirstCounts(parts, Child(c.line));
      FirstCounts([LiftPart(p, parts[0])] + Lift(p, parts[1..]), Sub(c));
      assert ([LiftPart(p, parts[0])] + Lift(p, parts[1..]))[1..] == Lift(p, parts[1..]);
    }
  }

  lemma LiftMembers(p: Path, parts: seq<Part>, c: Key)
    ensures Sub(c) in Lift(p, parts) <==> c.path == p && Child(c.line) in parts
  {
    LiftCounts(p, parts, c);
    assert Sub(c) in Lift(p, parts) <==> multiset(Lift(p, parts))[Sub(c)] > 0;
    assert Child(c.line) in parts <==> multiset(parts)[Child(c.line)] > 0;
  }

  // ---------- entering a document ----------

  /** The blocks of `d` before line `n`, with their parts. */
  function AddParts(parts: map<Key, seq<LogicalPart>>, p: Path, d: Doc, n: nat): map<Key, seq<LogicalPart>> {
    if n == 0 then parts
    else
      var before := AddParts(parts, p, d, n - 1);
      if n - 1 in d.blocks then before[Key(p, n - 1) := Lift(p, d.blocks[n - 1].parts)] else before
  }

  /** And with their parents. */
  function AddParents(parent: map<Key, Key>, p: Path, d: Doc, n: nat): map<Key, Key> {
    if n == 0 then parent
    else
      var before := AddParents(parent, p, d, n - 1);
      if n - 1 in d.blocks && n > 1 then before[Key(p, n - 1) := Key(p, d.blocks[n - 1].parent)] else before
  }

  function Enter(s: State, p: Path, d: Doc): State {
    s.(order := s.order + [p], parts := AddParts(s.parts, p, d, d.size + 1), parent := AddParents(s.parent, p, d, d.size + 1))
  }

  lemma {:induction false} AddPartsLook(parts: map<Key, seq<LogicalPart>>, p: Path, d: Doc, n: nat, k: Key)
    ensures k in AddParts(parts, p, d, n) <==> k in parts || (k.path == p && k.line < n && k.line in d.blocks)
    ensures k.path == p && k.line < n && k.line in d.blocks ==> AddParts(parts, p, d, n)[k] == Lift(p, d.blocks[k.line].parts)
    ensures k.path != p && k in parts ==> AddParts(parts, p, d, n)[k] == parts[k]
  {
    if n > 0 {
      AddPartsLook(parts, p, d, n - 1, k);
    }
  }

  lemma {:induction false} AddParentsLook(parent: map<Key, Key>, p: Path, d: Doc, n: nat, k: Key)
    ensures k in AddParents(parent, p, d, n) <==> k in parent || (k.path == p && 0 < k.line < n && k.line in d.blocks)
    ensures k.path == p && 0 < k.line < n && k.line in d.blocks ==> AddParents(parent, p, d, n)[k] == Key(p, d.blocks[k.line].parent)
    ensures k.path != p && k in parent ==> AddParents(parent, p, d, n)[k] == parent[k]
  {
    if n > 0 {
      AddParentsLook(parent, p, d, n - 1, k);
    }
  }

  /** Old blocks are in other documents. */
  lemma OldElsewhere(files: Files, s: State, p: Path, k: Key)
    requires Shape(files, s) && OwnersOk(files, s) && p !in s.order
    ensures k in s.parts || k in s.parent ==> k.path != p
    ensures p !in s.owners
  {}

  /** `t` has the parts of `s` and those of document `p`. */
  ghost predicate AddsParts(files: Files, s: State, p: Path, t: State)
    requires p in files
  {
    && (forall k :: k in t.parts <==> k in s.parts || (k.path == p && k.line in files[p].blocks))
    && (forall k :: k in s.parts ==> k.path != p && t.parts[k] == s.parts[k])
    && (forall k :: k in t.parts && k.path == p ==> t.parts[k] == Lift(p, files[p].blocks[k.line].parts))
  }

  ghost predicate AddsParents(files: Files, s: State, p: Path, t: State)
    requires p in files
  {
    && (forall k :: k in t.parent <==> k in s.parent || (k.path == p && k.line in files[p].blocks && k.line > 0))
    && (forall k :: k in s.parent ==> k.path != p && t.parent[k] == s.parent[k])
    && (forall k :: k in t.parent && k.path == p ==> t.parent[k] == Key(p, files[p].blocks[k.line].parent))
  }

  ghost predicate Adds(files: Files, s: State, p: Path, t: State) {
    && p in files && p !in s.order && p !in s.owners && t.order == s.order + [p] && t.owners == s.owners
    && AddsParts(files, s, p, t) && AddsParents(files, s, p, t)
  }

  lemma EnterAddsParts(files: Files, s: State, p: Path)
    requires Shape(files, s) && OwnersOk(files, s) && p in files && p !in s.order && ParentsAreEarlier(files[p])
    ensures AddsParts(files, s, p, Enter(s, p, files[p]))
  {
    var t := Enter(s, p, files[p]);
    forall k ensures k in t.parts <==> k in s.parts || (k.path == p && k.line in files[p].blocks) {
      AddPartsLook(s.parts, p, files[p], files[p].size + 1, k);
    }
    forall k | k in s.parts ensures k.path != p && t.parts[k] == s.parts[k] {
      OldElsewhere(files, s, p, k);
      AddPartsLook(s.parts, p, files[p], files[p].size + 1, k);
    }
    forall k | k in t.parts && k.path == p ensures t.parts[k] == Lift(p, files[p].blocks[k.line].parts) {
      OldElsewhere(files, s, p, k);
      AddPartsLook(s.parts, p, files[p], files[p].size + 1, k);
    }
  }

  lemma EnteredParent(files: Files, s: State, p: Path, now: map<Key, Key>, k: Key)
    requires Shape(files, s) && OwnersOk(files, s) && p in files && p !in s.order && ParentsAreEarlier(files[p])
    requires now == AddParents(s.parent, p, files[p], files[p].size + 1)
    ensures k in now <==> k in s.parent || (k.path == p && k.line in files[p].blocks && k.line > 0)
    ensures k in s.parent ==> k.path != p && now[k] == s.parent[k]
    ensures k in now && k.path == p ==> now[k] == Key(p, files[p].blocks[k.line].parent)
  {
    OldElsewhere(files, s, p, k);
    AddParentsLook(s.parent, p, files[p], files[p].size + 1, k);
  }

  lemma EnterAddsParents(files: Files, s: State, p: Path)
    requires Shape(files, s) && OwnersOk(files, s) && p in files && p !in s.order && ParentsAreEarlier(files[p])
    ensures AddsParents(files, s, p, Enter(s, p, files[p]))
  {
    var now := AddParents(s.parent, p, files[p], files[p].size + 1);
    forall k ensures k in now <==> k in s.parent || (k.path == p && k.line in files[p].blocks && k.line > 0) {
      EnteredParent(files, s, p, now, k);
    }
    forall k | k in s.parent ensures k.path != p && now[k] == s.parent[k] {
      EnteredParent(files, s, p, now, k);
    }
    forall k | k in now && k.path == p ensures now[k] == Key(p, files[p].blocks[k.line].parent) {
      EnteredParent(files, s, p, now, k);
    }
  }

  lemma EnterShape(files: Files, s: State, p: Path, t: State)
    requires Shape(files, s) && Adds(files, s, p, t) && IsTree(files[p])
    ensures Shape(files, t)
  {
    forall k ensures k in t.parts <==> IsBlock(files, t.order, k) {
      assert k in s.parts <==> IsBlock(files, s.order, k);
    }
    forall k ensures k in t.parent <==> IsBlock(files, t.order, k) && k.line > 0 {
      assert k in s.parent <==> IsBlock(files, s.order, k) && k.line > 0;
    }
  }

  lemma EnterParents(files: Files, s: State, p: Path, t: State)
    requires ParentsOk(files, s) && Adds(files, s, p, t)
    ensures ParentsOk(files, t)
  {
    forall c | c in t.parent ensures IsBlock(files, t.order, c) && t.parent[c] == ParentOf(files, t.owners, c) {
      assert c in s.parent ==> IsBlock(files, s.order, c);
    }
  }

  lemma EnterOwners(files: Files, s: State, p: Path, t: State)
    requires OwnersOk(files, s) && Adds(files, s, p, t)
    ensures OwnersOk(files, t)
  {
    forall q | q in t.owners
      ensures q in t.order && IsBlock(files, t.order, t.owners[q]) && t.owners[q].line > 0
      ensures PositionOf(t.order, t.owners[q].path) < PositionOf(t.order, q) && Names(files, t.owners[q], q)
    {
      PositionKept(s.order, t.order, q);
      PositionKept(s.order, t.order, s.owners[q].path);
    }
  }

  lemma EnterRoots(files: Files, s: State, p: Path, t: State)
    requires RootsOk(files, s) && Adds(files, s, p, t)
    ensures RootsOk(files, t)
  {
    forall q | q in t.order && q in files && 0 in files[q].blocks
      ensures Key(q, 0) in t.parts && t.parts[Key(q, 0)] == Lift(q, files[q].blocks[0].parts)
    {
      assert q != p ==> q in s.order;
    }
  }

  lemma EnterOnce(files: Files, s: State, p: Path, t: State)
    requires OnceOk(s) && Adds(files, s, p, t) && IsTree(files[p])
    ensures OnceOk(t)
  {
    forall c | c in t.parent ensures t.parent[c] in t.parts && multiset(t.parts[t.parent[c]])[Sub(c)] == 1 {
      if c.path == p {
        assert c !in s.parent;
        LiftCounts(p, files[p].blocks[t.parent[c].line].parts, c);
      }
    }
  }

  lemma EnterListsAt(files: Files, s: State, p: Path, t: State, k: Key, c: Key)
    requires ListsOk(s) && Adds(files, s, p, t) && ListsChildren(files[p])
    requires k in t.parts && !IsDetached(t, k) && Sub(c) in t.parts[k]
    ensures c in t.parent && t.parent[c] == k
  {
    if k.path == p {
      EnteredLists(files, s, p, t, k, c);
    } else {
      assert k in s.parts && !IsDetached(s, k) && Sub(c) in s.parts[k];
    }
  }

  lemma EnteredLists(files: Files, s: State, p: Path, t: State, k: Key, c: Key)
    requires Adds(files, s, p, t) && ListsChildren(files[p])
    requires k.path == p && k in t.parts && Sub(c) in t.parts[k]
    ensures c in t.parent && t.parent[c] == k
  {
    LiftMembers(p, files[p].blocks[k.line].parts, c);
    assert c.line in files[p].blocks && c.line > 0;
  }

  ghost predicate ListsOkAt(s: State, k: Key) {
    forall c :: k in s.parts && !IsDetached(s, k) && Sub(c) in s.parts[k] ==> c in s.parent && s.parent[c] == k
  }

  lemma EnterListsOf(files: Files, s: State, p: Path, t: State, k: Key)
    requires ListsOk(s) && Adds(files, s, p, t) && ListsChildren(files[p])
    ensures ListsOkAt(t, k)
  {
    forall c | k in t.parts && !IsDetached(t, k) && Sub(c) in t.parts[k] ensures c in t.parent && t.parent[c] == k {
      EnterListsAt(files, s, p, t, k, c);
    }
  }

  lemma ListsEverywhere(s: State)
    requires forall k :: ListsOkAt(s, k)
    ensures ListsOk(s)
  {
    forall k, c | k in s.parts && !IsDetached(s, k) && Sub(c) in s.parts[k] ensures c in s.parent && s.parent[c] == k {
      assert ListsOkAt(s, k);
    }
  }

  lemma EnterLists(files: Files, s: State, p: Path, t: State)
    requires ListsOk(s) && Adds(files, s, p, t) && ListsChildren(files[p])
    ensures ListsOk(t)
  {
    forall k ensures ListsOkAt(t, k) {
      EnterListsOf(files, s, p, t, k);
    }
    ListsEverywhere(t);
  }

  /** Entering a new document keeps the invariant. */
  lemma EnterKeeps(files: Files, s: State, p: Path)
    requires Ok(files, s) && p in files && p !in s.order && IsTree(files[p])
    ensures Ok(files, Enter(s, p, files[p])) && Adds(files, s, p, Enter(s, p, files[p]))
  {
    var t := Enter(s, p, files[p]);
    EnterAddsParts(files, s, p);
    EnterAddsParents(files, s, p);
    AddsKeeps(files, s, p, t);
  }

  lemma AddsKeeps(files: Files, s: State, p: Path, t: State)
    requires Ok(files, s) && Adds(files, s, p, t) && IsTree(files[p])
    ensures Ok(files, t)
  {
    EnterShape(files, s, p, t);
    EnterParents(files, s, p, t);
    EnterOwners(files, s, p, t);
    EnterRoots(files, s, p, t);
    EnterOnce(files, s, p, t);
    EnterLists(files, s, p, t);
  }

  // ---------- attaching a document to a heading ----------

  /** An empty line, unless the heading already ends with one. */
  function Separator(parts: seq<LogicalPart>): (r: seq<LogicalPart>)
    ensures forall c :: Sub(c) !in r
  {
    if parts == [] || parts[|parts| - 1].Sub? || Strip(parts[|parts| - 1].text) != [] then [Words("")] else []
  }

  /** Texts are copied, and the children that nobody else has taken. */
  function Takes(parent: map<Key, Key>, owner: Key, root: Key): LogicalPart -> bool {
    (part: LogicalPart) => part.Words? || (part.key in parent && (parent[part.key] == root || parent[part.key] == owner))
  }

  predicate Moves(parent: map<Key, Key>, owner: Key, root: Key, detail: seq<LogicalPart>, c: Key) {
    Sub(c) in detail && Takes(parent, owner, root)(Sub(c))
  }

  function Attach(s: State, owner: Key, p: Path): State
    requires owner in s.parts && Key(p, 0) in s.parts
  {
    var root := Key(p, 0);
    var detail := s.parts[root];
    var owners := if p in s.owners then s.owners else s.owners[p := owner];
    if detail == [] then s.(owners := owners)
    else s.(
      parts := s.parts[owner := s.parts[owner] + Separator(s.parts[owner]) + Filter(Takes(s.parent, owner, root), detail)],
      parent := map c | c in s.parent :: if Moves(s.parent, owner, root, detail, c) then owner else s.parent[c],
      owners := owners)
  }

  ghost predicate MovesParents(s: State, owner: Key, root: Key, t: State) {
    && (forall c :: c in t.parent <==> c in s.parent)
    && forall c :: c in s.parent ==> t.parent[c] == if s.parent[c] == root then owner else s.parent[c]
  }

  ghost predicate AppendsParts(s: State, owner: Key, more: seq<LogicalPart>, t: State) {
    && owner in s.parts && t.parts.Keys == s.parts.Keys
    && (forall k :: k in s.parts && k != owner ==> t.parts[k] == s.parts[k])
    && multiset(t.parts[owner]) == multiset(s.parts[owner]) + multiset(more)
  }

  /** The whole document moves under the heading. */
  ghost predicate Attaches(s: State, owner: Key, p: Path, sep: seq<LogicalPart>, t: State) {
    var root := Key(p, 0);
    && p !in s.owners && root in s.parts && owner in s.parts && owner.line > 0
    && t.order == s.order && t.owners == s.owners[p := owner]
    && MovesParents(s, owner, root, t) && AppendsParts(s, owner, sep + s.parts[root], t)
    && forall c :: Sub(c) !in sep
  }

  lemma RootsChildren(files: Files, s: State, p: Path, c: Key)
    requires Ok(files, s) && p in s.order && p !in s.owners && c in s.parent
    ensures Key(p, 0) in s.parts
    ensures Sub(c) in s.parts[Key(p, 0)] <==> s.parent[c] == Key(p, 0)
  {
    assert IsBlock(files, s.order, Key(p, 0));
    assert multiset(s.parts[s.parent[c]])[Sub(c)] == 1;
    assert Sub(c) in s.parts[s.parent[c]];
    assert !IsDetached(s, Key(p, 0));
  }

  lemma AttachMoves(files: Files, s: State, owner: Key, p: Path)
    requires Ok(files, s) && p in s.order && p !in s.owners && owner in s.parts && owner.line > 0
    ensures Key(p, 0) in s.parts
    ensures MovesParents(s, owner, Key(p, 0), Attach(s, owner, p))
  {
    var root := Key(p, 0);
    assert IsBlock(files, s.order, root);
    var t := Attach(s, owner, p);
    forall c | c in s.parent ensures t.parent[c] == if s.parent[c] == root then owner else s.parent[c] {
      RootsChildren(files, s, p, c);
    }
  }

  /** Nobody else has taken a child of a document that is not attached. */
  lemma AllTaken(s: State, owner: Key, root: Key)
    requires ListsOk(s) && root in s.parts && !IsDetached(s, root)
    ensures Filter(Takes(s.parent, owner, root), s.parts[root]) == s.parts[root]
  {
    forall part | part in s.parts[root] ensures Takes(s.parent, owner, root)(part) {
      if part.Sub? {
        assert Sub(part.key) in s.parts[root];
      }
    }
    FilterAll(Takes(s.parent, owner, root), s.parts[root]);
  }

  lemma AttachAppends(s: State, owner: Key, p: Path, sep: seq<LogicalPart>)
    requires ListsOk(s) && owner in s.parts && Key(p, 0) in s.parts && p !in s.owners
    requires sep == if s.parts[Key(p, 0)] == [] then [] else Separator(s.parts[owner])
    ensures AppendsParts(s, owner, sep + s.parts[Key(p, 0)], Attach(s, owner, p))
  {
    var root := Key(p, 0);
    AllTaken(s, owner, root);
    var t := Attach(s, owner, p);
    assert t.parts[owner] == s.parts[owner] + (sep + s.parts[root]);
  }

  lemma AttachAttaches(files: Files, s: State, owner: Key, p: Path)
    requires Ok(files, s) && p in s.order && p !in s.owners && owner in s.parts && owner.line > 0
    ensures Key(p, 0) in s.parts
    ensures exists sep :: Attaches(s, owner, p, sep, Attach(s, owner, p))
  {
    AttachMoves(files, s, owner, p);
    var sep := if s.parts[Key(p, 0)] == [] then [] else Separator(s.parts[owner]);
    AttachAppends(s, owner, p, sep);
    assert Attaches(s, owner, p, sep, Attach(s, owner, p));
  }

  lemma MovedParent(files: Files, s: State, owner: Key, p: Path, c: Key)
    requires OwnersOk(files, s) && p !in s.owners && owner.line > 0 && IsBlock(files, s.order, c)
    ensures ParentOf(files, s.owners[p := owner], c) == if ParentOf(files, s.owners, c) == Key(p, 0) then owner else ParentOf(files, s.owners, c)
  {
    assert c.path in s.owners ==> s.owners[c.path].line > 0;
  }

  lemma AttachesParents(files: Files, s: State, owner: Key, p: Path, sep: seq<LogicalPart>, t: State)
    requires ParentsOk(files, s) && OwnersOk(files, s) && Attaches(s, owner, p, sep, t)
    ensures ParentsOk(files, t)
  {
    forall c | c in t.parent ensures IsBlock(files, t.order, c) && t.parent[c] == ParentOf(files, t.owners, c) {
      assert c in s.parent && IsBlock(files, s.order, c);
      MovedParent(files, s, owner, p, c);
    }
  }

  lemma AttachesOwners(files: Files, s: State, owner: Key, p: Path, sep: seq<LogicalPart>, t: State)
    requires OwnersOk(files, s) && Attaches(s, owner, p, sep, t)
    requires p in s.order && IsBlock(files, s.order, owner) && PositionOf(s.order, owner.path) < PositionOf(s.order, p) && Names(files, owner, p)
    ensures OwnersOk(files, t)
  {}

  lemma AttachesOnce(s: State, owner: Key, p: Path, sep: seq<LogicalPart>, t: State, c: Key)
    requires OnceOk(s) && ListsOk(s) && Attaches(s, owner, p, sep, t) && c in t.parent
    ensures t.parent[c] in t.parts && multiset(t.parts[t.parent[c]])[Sub(c)] == 1
  {
    var root := Key(p, 0);
    assert !IsDetached(s, root) && !IsDetached(s, owner);
    assert multiset(s.parts[s.parent[c]])[Sub(c)] == 1;
    assert multiset(sep)[Sub(c)] == 0;
    assert multiset(sep + s.parts[root]) == multiset(sep) + multiset(s.parts[root]);
    assert s.parent[c] != root ==> Sub(c) !in s.parts[root];
    assert s.parent[c] != owner ==> Sub(c) !in s.parts[owner];
  }

  lemma AttachesLists(s: State, owner: Key, p: Path, sep: seq<LogicalPart>, t: State, k: Key, c: Key)
    requires OnceOk(s) && ListsOk(s) && Attaches(s, owner, p, sep, t) && k in t.parts && !IsDetached(t, k) && Sub(c) in t.parts[k]
    ensures c in t.parent && t.parent[c] == k
  {
    var root := Key(p, 0);
    assert !IsDetached(s, root) && !IsDetached(s, k);
    if k == owner {
      assert multiset(t.parts[owner])[Sub(c)] > 0;
      assert multiset(sep + s.parts[root]) == multiset(sep) + multiset(s.parts[root]);
      assert Sub(c) in s.parts[owner] || Sub(c) in s.parts[root];
    } else {
      assert Sub(c) in s.parts[k];
    }
  }

  /** Attaching a document for the first time keeps the invariant. */
  lemma AttachKeeps(files: Files, s: State, owner: Key, p: Path)
    requires Ok(files, s) && p in s.order && p !in s.owners && owner in s.parts && owner.line > 0
    requires PositionOf(s.order, owner.path) < PositionOf(s.order, p) && Names(files, owner, p)
    ensures Key(p, 0) in s.parts && Ok(files, Attach(s, owner, p))
  {
    AttachAttaches(files, s, owner, p);
    var t := Attach(s, owner, p);
    var sep :| Attaches(s, owner, p, sep, t);
    AttachesKeep(files, s, owner, p, sep, t);
  }

  lemma AttachesShape(files: Files, s: State, owner: Key, p: Path, sep: seq<LogicalPart>, t: State)
    requires Shape(files, s) && Attaches(s, owner, p, sep, t)
    ensures Shape(files, t)
  {
    assert forall k :: k in t.parts <==> k in s.parts;
  }

  lemma AttachesRoots(files: Files, s: State, owner: Key, p: Path, sep: seq<LogicalPart>, t: State)
    requires RootsOk(files, s) && Attaches(s, owner, p, sep, t)
    ensures RootsOk(files, t)
  {
    forall q | q in t.order && q in files && 0 in files[q].blocks
      ensures Key(q, 0) in t.parts && t.parts[Key(q, 0)] == Lift(q, files[q].blocks[0].parts)
    {
      assert Key(q, 0) in s.parts;
    }
  }

  lemma AttachesKeep(files: Files, s: State, owner: Key, p: Path, sep: seq<LogicalPart>, t: State)
    requires Ok(files, s) && Attaches(s, owner, p, sep, t)
    requires p in s.order && owner.path in s.order && PositionOf(s.order, owner.path) < PositionOf(s.order, p) && Names(files, owner, p)
    ensures Ok(files, t)
  {
    assert IsBlock(files, s.order, owner);
    AttachesShape(files, s, owner, p, sep, t);
    AttachesParents(files, s, owner, p, sep, t);
    AttachesOwners(files, s, owner, p, sep, t);
    AttachesRoots(files, s, owner, p, sep, t);
    AttachesOnceAll(s, owner, p, sep, t);
    AttachesListsAll(s, owner, p, sep, t);
  }

  lemma AttachesOnceAll(s: State, owner: Key, p: Path, sep: seq<LogicalPart>, t: State)
    requires OnceOk(s) && ListsOk(s) && Attaches(s, owner, p, sep, t)
    ensures OnceOk(t)
  {
    forall c | c in t.parent ensures t.parent[c] in t.parts && multiset(t.parts[t.parent[c]])[Sub(c)] == 1 {
      AttachesOnce(s, owner, p, sep, t, c);
    }
  }

  lemma AttachesListsAll(s: State, owner: Key, p: Path, sep: seq<LogicalPart>, t: State)
    requires OnceOk(s) && ListsOk(s) && Attaches(s, owner, p, sep, t)
    ensures ListsOk(t)
  {
    forall k, c | k in t.parts && !IsDetached(t, k) && Sub(c) in t.parts[k] ensures c in t.parent && t.parent[c] == k {
      AttachesLists(s, owner, p, sep, t, k, c);
    }
  }

  // ---------- a document that another heading has attached before ----------

  lemma LoadedIsTree(files: Files, s: State, p: Path)
    requires Shape(files, s) && p in s.order
    ensures p in files && HasRootBlock(files[p]) && ListsChildren(files[p]) && Key(p, 0) in s.parts
  {
    assert IsTree(files[p]);
    assert IsBlock(files, s.order, Key(p, 0));
  }

  lemma RootChild(d: Doc, n: nat)
    requires ListsChildren(d) && HasRootBlock(d) && Child(n) in d.blocks[0].parts
    ensures n in d.blocks && n > 0 && d.blocks[n].parent == 0
  {}

  /** A child that a loaded root lists is a block at the top of its document. */
  lemma RootLists(files: Files, s: State, p: Path, c: Key)
    requires Shape(files, s) && RootsOk(files, s) && p in s.order
    ensures Key(p, 0) in s.parts && p in files
    ensures Sub(c) in s.parts[Key(p, 0)] ==> c.path == p && c.line in files[p].blocks && c.line > 0 && files[p].blocks[c.line].parent == 0
  {
    LoadedIsTree(files, s, p);
    RootListsIn(files[p], p, s.parts[Key(p, 0)], c);
  }

  lemma RootListsIn(d: Doc, p: Path, parts: seq<LogicalPart>, c: Key)
    requires ListsChildren(d) && HasRootBlock(d) && parts == Lift(p, d.blocks[0].parts)
    ensures Sub(c) in parts ==> c.path == p && c.line in d.blocks && c.line > 0 && d.blocks[c.line].parent == 0
  {
    LiftMembers(p, d.blocks[0].parts, c);
    if Sub(c) in parts {
      RootChild(d, c.line);
    }
  }

  /** Its children are taken: none moves again. */
  lemma NoneTaken(files: Files, s: State, owner: Key, p: Path, c: Key)
    requires Ok(files, s) && p in s.owners && s.owners[p] != owner
    ensures Key(p, 0) in s.parts
    ensures Sub(c) in s.parts[Key(p, 0)] ==> !Takes(s.parent, owner, Key(p, 0))(Sub(c))
  {
    RootLists(files, s, p, c);
    if Sub(c) in s.parts[Key(p, 0)] && c in s.parent {
      TopIsOwned(files, s, p, c);
    }
  }

  lemma TopIsOwned(files: Files, s: State, p: Path, c: Key)
    requires ParentsOk(files, s) && OwnersOk(files, s) && p in s.owners && c in s.parent
    requires c.path == p && p in files && c.line in files[p].blocks && files[p].blocks[c.line].parent == 0
    ensures s.parent[c] == s.owners[p] != Key(p, 0)
  {}

  /** Only texts are added to the heading. */
  ghost predicate AddsTexts(s: State, owner: Key, t: State) {
    && owner in s.parts && t.order == s.order && t.owners == s.owners && t.parent == s.parent
    && t.parts.Keys == s.parts.Keys && (forall k :: k in s.parts && k != owner ==> t.parts[k] == s.parts[k])
    && forall c :: multiset(t.parts[owner])[Sub(c)] == multiset(s.parts[owner])[Sub(c)]
  }

  predicate NothingToTake(s: State, owner: Key, root: Key, detail: seq<LogicalPart>) {
    forall part :: part in detail && part.Sub? ==> !Takes(s.parent, owner, root)(part)
  }

  lemma AttachAgainAddsTexts(s: State, owner: Key, p: Path)
    requires owner in s.parts && Key(p, 0) in s.parts && p in s.owners && NothingToTake(s, owner, Key(p, 0), s.parts[Key(p, 0)])
    ensures AddsTexts(s, owner, Attach(s, owner, p))
  {
    var root := Key(p, 0);
    var t := Attach(s, owner, p);
    assert t.parent == s.parent by {
      assert forall c :: c in s.parent ==> !Moves(s.parent, owner, root, s.parts[root], c);
    }
    if s.parts[root] != [] {
      OnlyTexts(s, owner, root, s.parts[root]);
    }
  }

  lemma OnlyTexts(s: State, owner: Key, root: Key, detail: seq<LogicalPart>)
    requires NothingToTake(s, owner, root, detail)
    ensures owner in s.parts ==> forall c ::
      multiset(s.parts[owner] + Separator(s.parts[owner]) + Filter(Takes(s.parent, owner, root), detail))[Sub(c)] == multiset(s.parts[owner])[Sub(c)]
  {
    FilterMembers(Takes(s.parent, owner, root), detail);
    if owner in s.parts {
      forall c ensures multiset(s.parts[owner] + Separator(s.parts[owner]) + Filter(Takes(s.parent, owner, root), detail))[Sub(c)] == multiset(s.parts[owner])[Sub(c)] {
        assert multiset(Separator(s.parts[owner]))[Sub(c)] == 0;
        assert Sub(c) !in Filter(Takes(s.parent, owner, root), detail);
        assert multiset(Filter(Takes(s.parent, owner, root), detail))[Sub(c)] == 0;
      }
    }
  }

  lemma TextsMember(s: State, owner: Key, t: State, k: Key, c: Key)
    requires AddsTexts(s, owner, t) && k in s.parts
    ensures Sub(c) in t.parts[k] <==> Sub(c) in s.parts[k]
  {
    if k == owner {
      assert Sub(c) in t.parts[k] <==> multiset(t.parts[k])[Sub(c)] > 0;
      assert Sub(c) in s.parts[k] <==> multiset(s.parts[k])[Sub(c)] > 0;
    }
  }

  lemma TextsKeepTree(s: State, owner: Key, t: State)
    requires OnceOk(s) && ListsOk(s) && AddsTexts(s, owner, t)
    ensures OnceOk(t) && ListsOk(t)
  {
    forall k, c | k in t.parts && !IsDetached(t, k) && Sub(c) in t.parts[k] ensures c in t.parent && t.parent[c] == k {
      TextsMember(s, owner, t, k, c);
      assert !IsDetached(s, k);
    }
  }

  lemma TextsKeepRest(files: Files, s: State, owner: Key, t: State)
    requires Shape(files, s) && ParentsOk(files, s) && OwnersOk(files, s) && RootsOk(files, s) && owner.line > 0 && AddsTexts(s, owner, t)
    ensures Shape(files, t) && ParentsOk(files, t) && OwnersOk(files, t) && RootsOk(files, t)
  {
    assert forall k :: k in t.parts <==> k in s.parts;
  }

  /** Attaching it once more keeps the invariant, and no block changes its parent. */
  lemma AttachAgainKeeps(files: Files, s: State, owner: Key, p: Path)
    requires Ok(files, s) && p in s.owners && s.owners[p] != owner && owner in s.parts && owner.line > 0
    ensures Key(p, 0) in s.parts && Ok(files, Attach(s, owner, p)) && Attach(s, owner, p).parent == s.parent
  {
    assert IsBlock(files, s.order, Key(p, 0));
    forall part | part in s.parts[Key(p, 0)] && part.Sub? ensures !Takes(s.parent, owner, Key(p, 0))(part) {
      NoneTaken(files, s, owner, p, part.key);
    }
    AttachAgainAddsTexts(s, owner, p);
    var t := Attach(s, owner, p);
    TextsKeepTree(s, owner, t);
    TextsKeepRest(files, s, owner, t);
  }

  // ---------- what a first attachment leaves ----------

  predicate EndsBlank(parts: seq<LogicalPart>) {
    parts != [] && parts[|parts| - 1].Words? && AllSpace(parts[|parts| - 1].text)
  }

  lemma SeparatorMeans(parts: seq<LogicalPart>)
    ensures Separator(parts) == if EndsBlank(parts) then [] else [Words("")]
  {
    if parts != [] && parts[|parts| - 1].Words? {
      BlankMeans(parts[|parts| - 1].text);
    }
  }

  lemma BlankMeans(text: string)
    ensures Strip(text) == [] <==> AllSpace(text)
  {
    var n := TrimEnd(text);
    if AllSpace(text) {
      assert n == 0;
    } else if n > 0 {
      var i := Skip(IsSpace, text[..n], 0);
      assert !IsSpace(text[..n][n - 1]);
    }
  }

  lemma TakesAll(s: State, owner: Key, p: Path, detail: seq<LogicalPart>)
    requires ListsOk(s) && Key(p, 0) in s.parts && p !in s.owners && detail == s.parts[Key(p, 0)]
    ensures Filter(Takes(s.parent, owner, Key(p, 0)), detail) == detail
    ensures forall c :: Sub(c) in detail ==> c in s.parent && s.parent[c] == Key(p, 0)
  {
    var root := Key(p, 0);
    forall part | part in detail ensures Takes(s.parent, owner, root)(part) {
      if part.Sub? {
        assert Sub(part.key) in s.parts[root];
      }
    }
    FilterAll(Takes(s.parent, owner, root), detail);
  }

  lemma AttachAll(s: State, owner: Key, p: Path, detail: seq<LogicalPart>, more: seq<LogicalPart>)
    requires owner in s.parts && Key(p, 0) in s.parts && p !in s.owners && detail == s.parts[Key(p, 0)] && detail != []
    requires more == Separator(s.parts[owner]) + detail && Filter(Takes(s.parent, owner, Key(p, 0)), detail) == detail
    ensures Attach(s, owner, p).parts == s.parts[owner := s.parts[owner] + more]
  {
    Assoc(s.parts[owner], Separator(s.parts[owner]), detail);
  }

  lemma AttachParents(s: State, owner: Key, p: Path, detail: seq<LogicalPart>)
    requires owner in s.parts && Key(p, 0) in s.parts && p !in s.owners && detail == s.parts[Key(p, 0)] && detail != []
    requires forall c :: Sub(c) in detail ==> c in s.parent && s.parent[c] == Key(p, 0)
    ensures var t := Attach(s, owner, p);
            && t.parent.Keys == s.parent.Keys
            && (forall c :: c in s.parent ==> t.parent[c] == if Sub(c) in detail then owner else s.parent[c])
            && t.order == s.order && t.owners == s.owners[p := owner]
  {}

  /** The heading's own parts, an empty line unless there is one, and the parts of the file, in order; nothing else changes. */
  lemma FirstAttachAppends(s: State, owner: Key, p: Path)
    requires ListsOk(s) && owner in s.parts && Key(p, 0) in s.parts && p !in s.owners && s.parts[Key(p, 0)] != []
    ensures var t, root := Attach(s, owner, p), Key(p, 0);
            && t.parts == s.parts[owner := s.parts[owner] + ((if EndsBlank(s.parts[owner]) then [] else [Words("")]) + s.parts[root])]
            && t.parent.Keys == s.parent.Keys
            && (forall c :: c in s.parent ==> t.parent[c] == if Sub(c) in s.parts[root] then owner else s.parent[c])
            && t.order == s.order && t.owners == s.owners[p := owner]
  {
    var detail := s.parts[Key(p, 0)];
    SeparatorMeans(s.parts[owner]);
    TakesAll(s, owner, p, detail);
    AttachAll(s, owner, p, detail, Separator(s.parts[owner]) + detail);
    AttachParents(s, owner, p, detail);
  }
}
