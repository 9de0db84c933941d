/**
 The fence around the pursuit-map role: it may change Memory only by removing
 references to Pursuit ids that it deletes.
 */
module PursuitFence {
  import opened Common
  import opened Lines
  import opened Edges
  import opened Index
  import opened Documents
  import opened Loader
  import opened Manifest
  import opened TextLines

  datatype Blob = Blob(text: string, executable: bool)

  /** The graph files of a commit. */
  type Snapshot = map<Path, Blob>

  function Raw(s: Snapshot, p: Path): seq<string> {
    if p in s then SplitLines(s[p].text) else []
  }

  function Sources(s: Snapshot): map<Path, seq<string>> {
    map p | p in s :: Contents(SplitLines(s[p].text))
  }

  // ---------- items ----------

  datatype Item = Item(id: string, path: Path, line: nat, family: Family, edges: seq<Edge>)

  function FormItem(p: Path, n: nat, f: Form): (r: seq<Item>)
    ensures |r| <= 1
  {
    match f
    case Head(_, _, Some(id), edges) => [Item(id, p, n, FamilyOf(p), edges)]
    case Node(id, edges) => [Item(id, p, n, FamilyOf(p), edges)]
    case _ => []
  }

  predicate Knows(items: seq<Item>, id: string) {
    exists i :: 0 <= i < |items| && items[i].id == id
  }

  /** The first item with an id keeps it. */
  function Record(items: seq<Item>, more: seq<Item>): seq<Item> {
    if more != [] && !Knows(items, more[0].id) then items + [more[0]] else items
  }

  /** The items of the first `n` lines of a document, after those already recorded. */
  function DocItems(items: seq<Item>, p: Path, forms: seq<Form>, n: nat): seq<Item>
    requires n <= |forms|
  {
    if n == 0 then items else Record(DocItems(items, p, forms, n - 1), FormItem(p, n, forms[n - 1]))
  }

  function FormsAt(sources: map<Path, seq<string>>, p: Path): seq<Form> {
    if p in sources then Forms(FamilyOf(p), sources[p]) else []
  }

  function AllItems(sources: map<Path, seq<string>>, order: seq<Path>, items: seq<Item>): seq<Item> {
    if order == [] then items
    else
      var forms := FormsAt(sources, order[0]);
      AllItems(sources, order[1..], DocItems(items, order[0], forms, |forms|))
  }

  function Items(s: Snapshot): seq<Item> {
    AllItems(Sources(s), VisitRoots(Parsed(Sources(s)), ROOTS, []), [])
  }

  predicate IsMemoryItem(item: Item) {
    item.family == Memory
  }

  function MemoryItems(s: Snapshot): seq<Item> {
    Filter(IsMemoryItem, Items(s))
  }

  // ---------- acceptance ----------

  /** The Pursuit ids that disappear. */
  function Deleted(before: Snapshot, after: Snapshot): set<string> {
    set item | item in Items(before) && item.family == Pursuit && !Knows(Items(after), item.id) :: item.id
  }

  /** A Memory item with an edge to a deleted id. */
  predicate IsTouched(item: Item, ids: set<string>) {
    item.family == Memory && exists i :: 0 <= i < |item.edges| && item.edges[i].target in ids
  }

  predicate IsEdited(items: seq<Item>, ids: set<string>, p: Path, n: nat) {
    exists i :: 0 <= i < |items| && IsTouched(items[i], ids) && items[i].path == p && items[i].line == n
  }

  /** The lines of the touched items edited, the others as they are. */
  function EditedWith(edit: string -> string, items: seq<Item>, ids: set<string>, p: Path, lines: seq<string>): (r: seq<string>)
    ensures |r| == |lines|
  {
    seq(|lines|, i requires 0 <= i < |lines| => if IsEdited(items, ids, p, i + 1) then edit(lines[i]) else lines[i])
  }

  function Remover(ids: set<string>): string -> string {
    line => RemoveEdgeTargets(line, ids)
  }

  /** The lines of a document with the deleted references removed. */
  function EditedLines(items: seq<Item>, ids: set<string>, p: Path, lines: seq<string>): (r: seq<string>)
    ensures |r| == |lines|
  {
    EditedWith(Remover(ids), items, ids, p, lines)
  }

  predicate IsEditedPath(items: seq<Item>, ids: set<string>, p: Path) {
    exists i :: 0 <= i < |items| && IsTouched(items[i], ids) && items[i].path == p
  }

  /** A document is there before and after, with the given lines and the same mode. */
  predicate BecomesLines(before: Snapshot, after: Snapshot, p: Path, lines: seq<string>) {
    p in before && p in after && before[p].executable == after[p].executable && after[p].text == Concat(lines)
  }

  /** Exactly the Memory files with such references changed, and only by removing them. */
  ghost predicate Accepts(before: Snapshot, after: Snapshot, changed: set<Path>) {
    var items, ids := Items(before), Deleted(before, after);
    && (forall p :: p in changed <==> IsEditedPath(items, ids, p))
    && forall p :: p in changed ==> BecomesLines(before, after, p, EditedLines(items, ids, p, Raw(before, p)))
  }

  lemma LineOfEdited(items: seq<Item>, ids: set<string>, p: Path, lines: seq<string>, i: nat)
    requires i < |lines|
    ensures EditedLines(items, ids, p, lines)[i] == if IsEdited(items, ids, p, i + 1) then RemoveEdgeTargets(lines[i], ids) else lines[i]
  {
    EditedAt(Remover(ids), items, ids, p, lines, i);
  }

  lemma {:induction false} EditedAt(edit: string -> string, items: seq<Item>, ids: set<string>, p: Path, lines: seq<string>, i: nat)
    requires i < |lines|
    ensures EditedWith(edit, items, ids, p, lines)[i] == if IsEdited(items, ids, p, i + 1) then edit(lines[i]) else lines[i]
  {}

  // ---------- where items come from ----------

  predicate IsPlaced(sources: map<Path, seq<string>>, item: Item) {
    && item.path in sources && 0 < item.line <= |sources[item.path]|
    && FormItem(item.path, item.line, FormsAt(sources, item.path)[item.line - 1]) == [item]
  }

  predicate ArePlaced(sources: map<Path, seq<string>>, items: seq<Item>) {
    forall i :: 0 <= i < |items| ==> IsPlaced(sources, items[i])
  }

  lemma FormItemIsPlaced(sources: map<Path, seq<string>>, p: Path, n: nat)
    requires p in sources && 0 < n <= |sources[p]|
    ensures var more := FormItem(p, n, FormsAt(sources, p)[n - 1]); more != [] ==> IsPlaced(sources, more[0])
  {}

  lemma {:induction false} DocItemsArePlaced(sources: map<Path, seq<string>>, items: seq<Item>, p: Path, n: nat)
    requires ArePlaced(sources, items) && p in sources && n <= |sources[p]|
    ensures ArePlaced(sources, DocItems(items, p, FormsAt(sources, p), n)) && items <= DocItems(items, p, FormsAt(sources, p), n)
  {
    if n > 0 {
      DocItemsArePlaced(sources, items, p, n - 1);
      FormItemIsPlaced(sources, p, n);
    }
  }

  lemma {:induction false} AllItemsArePlaced(sources: map<Path, seq<string>>, order: seq<Path>, items: seq<Item>)
    requires ArePlaced(sources, items)
    ensures ArePlaced(sources, AllItems(sources, order, items)) && items <= AllItems(sources, order, items)
  {
    if order != [] {
      var forms := FormsAt(sources, order[0]);
      if order[0] in sources {
        DocItemsArePlaced(sources, items, order[0], |forms|);
      }
      AllItemsArePlaced(sources, order[1..], DocItems(items, order[0], forms, |forms|));
    }
  }

  // ---------- the check as it runs ----------

  lemma RemoveTwice(line: string, ids: set<string>)
    ensures RemoveEdgeTargets(RemoveEdgeTargets(line, ids), ids) == RemoveEdgeTargets(line, ids)
  {
    RemovalKeepsEnding(line, ids);
    RemovalsCompose(line[..BodyEnd(line)], ids, ids);
    assert ids + ids == ids;
  }

  lemma EditedMore(items: seq<Item>, ids: set<string>, i: nat, p: Path, n: nat)
    requires i < |items|
    ensures IsEditedPath(items[..i + 1], ids, p) <==> IsEditedPath(items[..i], ids, p) || (IsTouched(items[i], ids) && items[i].path == p)
    ensures IsEdited(items[..i + 1], ids, p, n) <==> IsEdited(items[..i], ids, p, n) || (IsTouched(items[i], ids) && items[i].path == p && items[i].line == n)
    ensures IsEdited(items[..i], ids, p, n) ==> IsEditedPath(items[..i], ids, p)
  {
    assert forall k :: 0 <= k < i ==> items[..i + 1][k] == items[..i][k] == items[k];
    assert items[..i + 1][i] == items[i];
  }

  lemma NothingEdited(items: seq<Item>, ids: set<string>, p: Path, lines: seq<string>)
    requires !IsEditedPath(items, ids, p)
    ensures EditedLines(items, ids, p, lines) == lines
  {
    assert forall n: nat :: !IsEdited(items, ids, p, n);
  }

  lemma {:induction false} OtherLine(edit: string -> string, items: seq<Item>, ids: set<string>, i: nat, p: Path, lines: seq<string>, k: nat)
    requires i < |items| && k < |lines| && (items[i].path != p || items[i].line != k + 1)
    ensures EditedWith(edit, items[..i + 1], ids, p, lines)[k] == EditedWith(edit, items[..i], ids, p, lines)[k]
  {
    EditedMore(items, ids, i, p, k + 1);
  }

  lemma {:induction false} SameLine(edit: string -> string, items: seq<Item>, ids: set<string>, i: nat, p: Path, lines: seq<string>, k: nat)
    requires i < |items| && k < |lines| && IsTouched(items[i], ids) && items[i].path == p && items[i].line == k + 1
    requires edit(edit(lines[k])) == edit(lines[k])
    ensures EditedWith(edit, items[..i + 1], ids, p, lines)[k] == edit(EditedWith(edit, items[..i], ids, p, lines)[k])
  {
    EditedMore(items, ids, i, p, k + 1);
  }

  lemma {:induction false} EditOnce(edit: string -> string, items: seq<Item>, ids: set<string>, i: nat, p: Path, lines: seq<string>)
    requires i < |items| && 0 < items[i].line <= |lines| && IsTouched(items[i], ids) && items[i].path == p
    requires var line := lines[items[i].line - 1]; edit(edit(line)) == edit(line)
    ensures var was, n := EditedWith(edit, items[..i], ids, p, lines), items[i].line;
            EditedWith(edit, items[..i + 1], ids, p, lines) == was[n - 1 := edit(was[n - 1])]
  {
    var was, now, n := EditedWith(edit, items[..i], ids, p, lines), EditedWith(edit, items[..i + 1], ids, p, lines), items[i].line;
    SameLine(edit, items, ids, i, p, lines, n - 1);
    forall k | 0 <= k < |lines| && k != n - 1 ensures now[k] == was[k] {
      OtherLine(edit, items, ids, i, p, lines, k);
    }
  }

  /** One touched item more: its line is edited too. */
  lemma EditStep(items: seq<Item>, ids: set<string>, i: nat, p: Path, lines: seq<string>)
    requires i < |items| && 0 < items[i].line <= |lines| && IsTouched(items[i], ids) && items[i].path == p
    ensures var was, n := EditedLines(items[..i], ids, p, lines), items[i].line;
            EditedLines(items[..i + 1], ids, p, lines) == was[n - 1 := RemoveEdgeTargets(was[n - 1], ids)]
  {
    RemoveTwice(lines[items[i].line - 1], ids);
    EditOnce(Remover(ids), items, ids, i, p, lines);
  }

  lemma OtherDocument(items: seq<Item>, ids: set<string>, i: nat, p: Path, lines: seq<string>)
    requires i < |items| && !(IsTouched(items[i], ids) && items[i].path == p)
    ensures EditedLines(items[..i + 1], ids, p, lines) == EditedLines(items[..i], ids, p, lines)
  {
    forall n ensures IsEdited(items[..i + 1], ids, p, n) <==> IsEdited(items[..i], ids, p, n) {
      EditedMore(items, ids, i, p, n);
    }
  }

  /** `expected` holds the edited lines of the documents that the first `i` items touch. */
  ghost predicate Expects(expected: map<Path, seq<string>>, before: Snapshot, items: seq<Item>, ids: set<string>) {
    && (forall p :: p in expected <==> IsEditedPath(items, ids, p))
    && forall p :: p in expected ==> IsExpected(before, items, ids, p, expected[p])
  }

  predicate IsExpected(before: Snapshot, items: seq<Item>, ids: set<string>, p: Path, lines: seq<string>) {
    p in before && lines == EditedLines(items, ids, p, Raw(before, p))
  }

  lemma PathsMore(items: seq<Item>, ids: set<string>, i: nat)
    requires i < |items|
    ensures forall q :: IsEditedPath(items[..i + 1], ids, q) <==> IsEditedPath(items[..i], ids, q) || (IsTouched(items[i], ids) && items[i].path == q)
  {
    forall q ensures IsEditedPath(items[..i + 1], ids, q) <==> IsEditedPath(items[..i], ids, q) || (IsTouched(items[i], ids) && items[i].path == q) {
      EditedMore(items, ids, i, q, 0);
    }
  }

  lemma ExpectSame(expected: map<Path, seq<string>>, before: Snapshot, items: seq<Item>, ids: set<string>, i: nat)
    requires i < |items| && Expects(expected, before, items[..i], ids) && !IsTouched(items[i], ids)
    ensures Expects(expected, before, items[..i + 1], ids)
  {
    PathsMore(items, ids, i);
    forall q | q in expected ensures IsExpected(before, items[..i + 1], ids, q, expected[q]) {
      assert IsExpected(before, items[..i], ids, q, expected[q]);
      OtherDocument(items, ids, i, q, Raw(before, q));
    }
  }

  /** The lines found for a document that an item touches. */
  lemma ExpectFound(expected: map<Path, seq<string>>, before: Snapshot, items: seq<Item>, ids: set<string>, i: nat)
    requires i < |items| && Expects(expected, before, items[..i], ids) && IsPlaced(Sources(before), items[i]) && IsTouched(items[i], ids)
    ensures var p, n := items[i].path, items[i].line;
            var lines := if p in expected then expected[p] else Raw(before, p);
            && p in before && 0 < n <= |lines|
            && EditedLines(items[..i + 1], ids, p, Raw(before, p)) == lines[n - 1 := RemoveEdgeTargets(lines[n - 1], ids)]
  {
    var p := items[i].path;
    EditStep(items, ids, i, p, Raw(before, p));
    if p !in expected {
      NothingEdited(items[..i], ids, p, Raw(before, p));
    }
  }

  lemma ExpectTouched(expected: map<Path, seq<string>>, before: Snapshot, items: seq<Item>, ids: set<string>, i: nat, lines: seq<string>)
    requires i < |items| && Expects(expected, before, items[..i], ids) && items[i].path in before && IsTouched(items[i], ids)
    requires lines == EditedLines(items[..i + 1], ids, items[i].path, Raw(before, items[i].path))
    ensures Expects(expected[items[i].path := lines], before, items[..i + 1], ids)
  {
    PathsMore(items, ids, i);
    forall q | q in expected && q != items[i].path ensures IsExpected(before, items[..i + 1], ids, q, expected[q]) {
      assert IsExpected(before, items[..i], ids, q, expected[q]);
      OtherDocument(items, ids, i, q, Raw(before, q));
    }
  }

  predicate Matches(expected: map<Path, seq<string>>, before: Snapshot, after: Snapshot) {
    forall p :: p in expected ==> BecomesLines(before, after, p, expected[p])
  }

  lemma MatchesMeans(expected: map<Path, seq<string>>, before: Snapshot, after: Snapshot, changed: set<Path>)
    requires Expects(expected, before, Items(before), Deleted(before, after))
    ensures (expected.Keys == changed && Matches(expected, before, after)) <==> Accepts(before, after, changed)
  {
    var items, ids := Items(before), Deleted(before, after);
    if Accepts(before, after, changed) {
      assert forall p :: p in expected <==> p in changed;
    }
    forall p | p in expected ensures expected[p] == EditedLines(items, ids, p, Raw(before, p)) {
      assert IsExpected(before, items, ids, p, expected[p]);
    }
  }

  lemma ItemIsPlaced(sources: map<Path, seq<string>>, items: seq<Item>, i: nat)
    requires ArePlaced(sources, items) && i < |items|
    ensures IsPlaced(sources, items[i])
  {}

  lemma ExpectNothing(before: Snapshot, ids: set<string>)
    ensures Expects(map[], before, [], ids)
  {}

  /** One touched item: its line is edited in the lines expected of its document. */
  method EditItem(expected: map<Path, seq<string>>, before: Snapshot, items: seq<Item>, ids: set<string>, i: nat) returns (more: map<Path, seq<string>>)
    requires i < |items| && Expects(expected, before, items[..i], ids) && IsPlaced(Sources(before), items[i]) && IsTouched(items[i], ids)
    ensures Expects(more, before, items[..i + 1], ids)
  {
    ExpectFound(expected, before, items, ids, i);
    var p, n := items[i].path, items[i].line;
    var lines := if p in expected then expected[p] else Raw(before, p);
    lines := lines[n - 1 := RemoveEdgeTargets(lines[n - 1], ids)];
    ExpectTouched(expected, before, items, ids, i, lines);
    more := expected[p := lines];
  }

  method TakeItem(expected: map<Path, seq<string>>, before: Snapshot, items: seq<Item>, ids: set<string>, i: nat) returns (more: map<Path, seq<string>>)
    requires i < |items| && Expects(expected, before, items[..i], ids) && ArePlaced(Sources(before), items)
    ensures Expects(more, before, items[..i + 1], ids)
  {
    if IsTouched(items[i], ids) {
      ItemIsPlaced(Sources(before), items, i);
      more := EditItem(expected, before, items, ids, i);
    } else {
      ExpectSame(expected, before, items, ids, i);
      more := expected;
    }
  }

  /** Collect the edited documents. */
  method ExpectedDocuments(before: Snapshot, items: seq<Item>, ids: set<string>) returns (expected: map<Path, seq<string>>)
    requires ArePlaced(Sources(before), items)
    ensures Expects(expected, before, items, ids)
  {
    expected := map[];
    var i := 0;
    TakeAll(items);
    ExpectNothing(before, ids);
    while i < |items|
      invariant 0 <= i <= |items|
      invariant Expects(expected, before, items[..i], ids)
    {
      expected := TakeItem(expected, before, items, ids, i);
      i := i + 1;
    }
  }

  method IsPursuitEdgeRemoval(before: Snapshot, after: Snapshot, changed: set<Path>) returns (accepted: bool)
    ensures accepted <==> Accepts(before, after, changed)
  {
    AllItemsArePlaced(Sources(before), VisitRoots(Parsed(Sources(before)), ROOTS, []), []);
    var expected := ExpectedDocuments(before, Items(before), Deleted(before, after));
    MatchesMeans(expected, before, after, changed);
    accepted := expected.Keys == changed && Matches(expected, before, after);
  }
}
