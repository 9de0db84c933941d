/** What the pursuit fence accepts keeps every Memory item, and all its other edges. */
module PursuitFenceProofs {
  import opened Common
  import opened Lines
  import opened Edges
  import opened Index
  import opened Documents
  import opened Loader
  import opened Manifest
  import opened TextLines
  import opened PursuitFence

  // ---------- a line ----------

  function FilterForm(f: Form, ids: set<string>): Form {
    match f
    case Head(depth, kind, address, edges) => Head(depth, kind, address, Filter(Avoids(ids), edges))
    case Node(id, edges) => Node(id, Filter(Avoids(ids), edges))
    case _ => f
  }

  lemma AddressedHasList(line: string)
    ensures LineEdges(line) != [] ==> ListOf(line).Some?
    ensures HeadingOf(line).Some? && AnchorOf(line).None? ==> ListOf(line).None?
  {
    HeadingIsNoNode(line);
  }

  lemma HeadFormFiltered(line: string, ids: set<string>)
    requires HeadingOf(line).Some?
    ensures HeadingOf(WithoutTargets(line, ids)).Some? && HeadForm(WithoutTargets(line, ids)) == FilterForm(HeadForm(line), ids)
  {
    RemovesExactly(line, ids);
    AddressedHasList(line);
  }

  lemma NodeFormFiltered(line: string, ids: set<string>)
    requires IsNodeCandidate(line) && HeadingOf(line).None?
    ensures IsNodeCandidate(WithoutTargets(line, ids)) && NodeForm(WithoutTargets(line, ids)) == FilterForm(NodeForm(line), ids)
  {
    RemovesExactly(line, ids);
    NodeFormAlike(line, WithoutTargets(line, ids), ids);
  }

  lemma NodeFormAlike(line: string, t: string, ids: set<string>)
    requires IsNodeCandidate(line) && HeadingOf(line).None? && ReadsAlike(line, t) && LineEdges(t) == Filter(Avoids(ids), LineEdges(line))
    ensures IsNodeCandidate(t) && NodeForm(t) == FilterForm(NodeForm(line), ids)
  {
    var id, edges := NodeStartOf(line).value.id, LineEdges(line);
    NodeListIs(line);
    NodeListIs(t);
    NodeFormIs(line, id, NodeListOf(line).Some?, edges);
    NodeFormIs(t, id, NodeListOf(line).Some?, Filter(Avoids(ids), edges));
  }

  lemma NodeFormIs(line: string, id: string, listed: bool, edges: seq<Edge>)
    requires IsNodeCandidate(line) && NodeStartOf(line).value.id == id && NodeListOf(line).Some? == listed && LineEdges(line) == edges
    ensures NodeForm(line) == if IsId(id) && listed then Node(id, edges) else Text
  {}

  lemma NodeListIs(line: string)
    requires HeadingOf(line).None?
    ensures ListOf(line) == NodeListOf(line)
  {}

  /** What the parser does with a line depends on how it reads. */
  lemma FormAlike(s: Scan, line: string, t: string, ids: set<string>)
    requires ReadsAlike(line, t)
    requires HeadingOf(line).Some? ==> HeadForm(t) == FilterForm(HeadForm(line), ids)
    requires HeadingOf(line).None? && IsNodeCandidate(line) ==> NodeForm(t) == FilterForm(NodeForm(line), ids)
    ensures FormOf(Memory, s, t) == FilterForm(FormOf(Memory, s, line), ids)
  {}

  /** A Memory line without the deleted references is the same item without those edges. */
  lemma FormFiltered(s: Scan, line: string, ids: set<string>)
    ensures FormOf(Memory, s, WithoutTargets(line, ids)) == FilterForm(FormOf(Memory, s, line), ids)
    ensures ScanAfter(Memory, s, WithoutTargets(line, ids)) == ScanAfter(Memory, s, line)
  {
    var t := WithoutTargets(line, ids);
    RemovesExactly(line, ids);
    if HeadingOf(line).Some? {
      HeadFormFiltered(line, ids);
    } else if IsNodeCandidate(line) {
      NodeFormFiltered(line, ids);
    }
    FormAlike(s, line, t, ids);
  }

  // ---------- a document ----------

  /** Some lines with the deleted references removed, the others as they were. */
  predicate SomeRemoved(lines: seq<string>, other: seq<string>, ids: set<string>) {
    |lines| == |other| && forall i :: 0 <= i < |lines| ==> other[i] == lines[i] || other[i] == WithoutTargets(lines[i], ids)
  }

  lemma {:induction false} FormsFiltered(s: Scan, lines: seq<string>, other: seq<string>, ids: set<string>)
    requires SomeRemoved(lines, other, ids)
    ensures var f, g := FormsFrom(Memory, s, lines), FormsFrom(Memory, s, other);
            forall i :: 0 <= i < |f| ==> (other[i] == lines[i] ==> g[i] == f[i]) && (other[i] == WithoutTargets(lines[i], ids) ==> g[i] == FilterForm(f[i], ids))
    decreases |lines|
  {
    if lines != [] {
      FormFiltered(s, lines[0], ids);
      assert forall i :: 0 <= i < |lines| - 1 ==> lines[1..][i] == lines[i + 1] && other[1..][i] == other[i + 1];
      assert other[0] == lines[0] || other[0] == WithoutTargets(lines[0], ids);
      FormsFiltered(ScanAfter(Memory, s, lines[0]), lines[1..], other[1..], ids);
      var f, g := FormsFrom(Memory, s, lines), FormsFrom(Memory, s, other);
      forall i | 0 <= i < |f|
        ensures (other[i] == lines[i] ==> g[i] == f[i]) && (other[i] == WithoutTargets(lines[i], ids) ==> g[i] == FilterForm(f[i], ids))
      {
        if i > 0 {
          assert f[i] == f[1..][i - 1] && g[i] == g[1..][i - 1];
        }
      }
    }
  }

  /** The same headings and nodes, with the same ids. */
  predicate SameHeads(f: seq<Form>, g: seq<Form>) {
    |f| == |g| && forall i :: 0 <= i < |f| ==> SameHead(f[i], g[i])
  }

  predicate SameHead(f: Form, g: Form) {
    match f
    case Head(depth, kind, address, _) => g.Head? && g.depth == depth && g.kind == kind && g.address == address
    case Node(id, _) => g.Node? && g.id == id
    case _ => g == f
  }

  lemma {:induction false} SameRefs(family: Family, f: seq<Form>, g: seq<Form>, n: nat)
    requires SameHeads(f, g) && n <= |f|
    ensures RefsOf(family, f, n) == RefsOf(family, g, n)
  {
    if n > 0 {
      SameRefs(family, f, g, n - 1);
      assert SameHead(f[n - 1], g[n - 1]);
    }
  }

  // ---------- loading ----------

  /** The same Memory documents name the same files. */
  ghost predicate SameMemory(a: Files, b: Files) {
    forall p :: FamilyOf(p) == Memory ==> (p in a <==> p in b) && (p in a ==> a[p].refs == b[p].refs)
  }

  lemma {:induction false} VisitSame(a: Files, b: Files, p: Path, seen: seq<Path>)
    requires SameMemory(a, b) && RefsStay(a) && p in a && FamilyOf(p) == Memory
    ensures p in b && Visit(a, p, seen) == Visit(b, p, seen)
    decreases a.Keys - Elements(seen), 1, 0
  {
    if p !in seen {
      assert p in a.Keys - Elements(seen) && p !in a.Keys - Elements(seen + [p]);
      VisitAllSame(a, b, a[p].refs, seen + [p]);
    }
  }

  lemma {:induction false} VisitAllSame(a: Files, b: Files, refs: seq<Ref>, seen: seq<Path>)
    requires SameMemory(a, b) && RefsStay(a) && forall i :: 0 <= i < |refs| ==> FamilyOf(refs[i].target) == Memory
    ensures VisitAll(a, refs, seen) == VisitAll(b, refs, seen)
    decreases a.Keys - Elements(seen), 2, |refs|
  {
    if refs != [] {
      var next := if refs[0].target in a then Visit(a, refs[0].target, seen) else seen;
      if refs[0].target in a {
        VisitSame(a, b, refs[0].target, seen);
      }
      ElementsGrow(seen, next);
      VisitAllSame(a, b, refs[1..], next);
    }
  }

  predicate AllFamily(order: seq<Path>, family: Family) {
    forall i :: 0 <= i < |order| ==> FamilyOf(order[i]) == family
  }

  /** A document and everything it names are of one family. */
  lemma {:induction false} VisitFamily(files: Files, p: Path, seen: seq<Path>)
    requires RefsStay(files) && p in files
    ensures AllFamily(Visit(files, p, seen)[|seen|..], FamilyOf(p))
    decreases files.Keys - Elements(seen), 1, 0
  {
    if p !in seen {
      assert p in files.Keys - Elements(seen) && p !in files.Keys - Elements(seen + [p]);
      VisitAllFamily(files, files[p].refs, seen + [p], FamilyOf(p));
      var r := Visit(files, p, seen);
      assert r[|seen|..] == [p] + r[|seen| + 1..];
    }
  }

  lemma {:induction false} VisitAllFamily(files: Files, refs: seq<Ref>, seen: seq<Path>, family: Family)
    requires RefsStay(files) && forall i :: 0 <= i < |refs| ==> FamilyOf(refs[i].target) == family
    ensures AllFamily(VisitAll(files, refs, seen)[|seen|..], family)
    decreases files.Keys - Elements(seen), 2, |refs|
  {
    if refs != [] {
      var next := if refs[0].target in files then Visit(files, refs[0].target, seen) else seen;
      if refs[0].target in files {
        VisitFamily(files, refs[0].target, seen);
      }
      ElementsGrow(seen, next);
      VisitAllFamily(files, refs[1..], next, family);
      var r := VisitAll(files, refs, seen);
      assert r[|seen|..] == next[|seen|..] + r[|next|..];
    }
  }

  /** The Memory documents in load order. */
  function MemoryOrder(files: Files): seq<Path> {
    if ROOTS[0] in files then Visit(files, ROOTS[0], []) else []
  }

  /** Memory is loaded first, then only Pursuit documents follow. */
  lemma MemoryIsFirst(files: Files)
    requires RefsStay(files)
    ensures MemoryOrder(files) <= VisitRoots(files, ROOTS, []) && AllFamily(MemoryOrder(files), Memory)
    ensures AllFamily(VisitRoots(files, ROOTS, [])[|MemoryOrder(files)|..], Pursuit)
  {
    var first := MemoryOrder(files);
    if ROOTS[0] in files {
      VisitFamily(files, ROOTS[0], []);
      assert first[0..] == first;
    }
    assert ROOTS[1..] == [ROOTS[1]] && ROOTS[1..][1..] == [];
    assert VisitRoots(files, ROOTS, []) == VisitRoots(files, ROOTS[1..], first);
    var all := if ROOTS[1] in files then Visit(files, ROOTS[1], first) else first;
    assert VisitRoots(files, [], all) == all && VisitRoots(files, ROOTS[1..], first) == all;
    if ROOTS[1] in files {
      VisitFamily(files, ROOTS[1], first);
      assert FamilyOf(ROOTS[1]) == Pursuit;
    } else {
      assert all[|first|..] == [];
    }
  }

  // ---------- a line with its ending ----------

  predicate IsLine(raw: string) {
    raw != [] && forall k :: 0 <= k < |Ending(raw)| ==> IsBoundary(Ending(raw)[k])
  }

  lemma {:induction false} FirstIsLine(text: string)
    requires text != []
    ensures IsLine(text[..FirstEnd(text)])
    decreases |text|
  {
    var raw := text[..FirstEnd(text)];
    Halves(raw);
    if IsBoundary(text[0]) {
      assert ContentEnd(raw) == 0 by { assert raw[0] == text[0]; }
      assert Ending(raw) == raw;
    } else if |text| > 1 {
      FirstIsLine(text[1..]);
      var rest := text[1..][..FirstEnd(text[1..])];
      assert raw == [text[0]] + rest;
      Halves(rest);
      ContentEndStep(text[0], rest);
    }
  }

  lemma ContentEndStep(c: char, rest: string)
    requires !IsBoundary(c)
    ensures Ending([c] + rest) == Ending(rest) && Content([c] + rest) == [c] + Content(rest)
  {
    var s := [c] + rest;
    ContentEndIs(s, 1 + ContentEnd(rest));
    assert s[1 + ContentEnd(rest)..] == rest[ContentEnd(rest)..];
  }

  lemma {:induction false} SplitLinesAreLines(text: string)
    ensures forall i :: 0 <= i < |SplitLines(text)| ==> IsLine(SplitLines(text)[i])
    decreases |text|
  {
    if text != [] {
      FirstIsLine(text);
      SplitLinesAreLines(text[FirstEnd(text)..]);
    }
  }

  lemma {:induction false} SplitNoBoundary(s: string)
    requires NoBoundary(s)
    ensures forall i :: 0 <= i < |Split(s)| ==> NoBoundary(Split(s)[i])
  {
    if s != [] {
      SplitNoBoundary(s[1..]);
    }
  }

  lemma {:induction false} JoinNoBoundary(tokens: seq<string>)
    requires forall i :: 0 <= i < |tokens| ==> NoBoundary(tokens[i])
    ensures NoBoundary(Join(tokens))
  {
    if |tokens| > 1 {
      JoinNoBoundary(tokens[1..]);
    }
  }

  lemma KeptNoBoundary(tokens: seq<string>, ids: set<string>)
    requires forall i :: 0 <= i < |tokens| ==> NoBoundary(tokens[i])
    ensures NoBoundary(Join(Kept(tokens, ids)))
  {
    FilterMembers(Misses(ids), tokens);
    forall i | 0 <= i < |Kept(tokens, ids)| ensures NoBoundary(Kept(tokens, ids)[i]) {
      assert Kept(tokens, ids)[i] in tokens;
    }
    JoinNoBoundary(Kept(tokens, ids));
  }

  lemma WithListNoBoundary(line: string, list: Span, content: string)
    requires NoBoundary(line) && NoBoundary(content) && 0 < list.first <= list.last <= |line|
    ensures var t := WithList(line, list, content); NoBoundary(t) && t != [] && t[0] == line[0]
  {}

  lemma ListIsNotFirst(line: string)
    requires ListOf(line).Some?
    ensures EndsLine(line, ListOf(line).value) && 0 < ListOf(line).value.first
  {
    ListIsInside(line);
    if AnchorOf(line).Some? {
      var q := FoundWhere(line, HeadingOf(line).value.next);
    } else {
      var q := ListFoundWhere(line, NodeStartOf(line).value.next);
    }
  }

  lemma RemovalNoBoundary(line: string, ids: set<string>)
    requires NoBoundary(line) && ListOf(line).Some?
    ensures var t := WithoutTargets(line, ids); NoBoundary(t) && t != [] && line != [] && t[0] == line[0]
  {
    ListIsNotFirst(line);
    var list := ListOf(line).value;
    WithoutTargetsIsWithList(line, ids);
    SplitNoBoundary(line[list.first..list.last]);
    KeptNoBoundary(Tokens(line), ids);
    WithListNoBoundary(line, list, Join(Kept(Tokens(line), ids)));
  }

  lemma BodyOfLine(raw: string)
    ensures ContentEnd(raw) <= BodyEnd(raw)
  {
    assert forall k :: BodyEnd(raw) <= k < |raw| ==> IsBoundary(raw[k]);
  }

  lemma BodyParts(raw: string)
    ensures ContentEnd(raw) <= BodyEnd(raw)
    ensures raw[..BodyEnd(raw)] == Content(raw) + raw[ContentEnd(raw)..BodyEnd(raw)]
    ensures raw[ContentEnd(raw)..BodyEnd(raw)] + raw[BodyEnd(raw)..] == Ending(raw)
  {
    BodyOfLine(raw);
    Cuts(raw, ContentEnd(raw), BodyEnd(raw));
  }

  lemma BodySpace(raw: string)
    requires IsLine(raw) && ContentEnd(raw) <= BodyEnd(raw)
    ensures AllSpace(raw[ContentEnd(raw)..BodyEnd(raw)])
  {
    var n, m := ContentEnd(raw), BodyEnd(raw);
    forall k | 0 <= k < m - n ensures IsSpace(raw[n..m][k]) {
      assert raw[n..m][k] == Ending(raw)[k];
      assert IsBoundary(Ending(raw)[k]);
    }
  }

  lemma Cuts(s: string, n: nat, m: nat)
    requires n <= m <= |s|
    ensures s[..m] == s[..n] + s[n..m] && s[n..m] + s[m..] == s[n..]
  {}

  /** Removing from a line with its ending removes from its content. */
  lemma RemovalInContent(raw: string, ids: set<string>)
    requires IsLine(raw) && ListOf(Content(raw)).Some?
    ensures RemoveEdgeTargets(raw, ids) == WithoutTargets(Content(raw), ids) + Ending(raw)
  {
    BodyParts(raw);
    BodySpace(raw);
    var middle := raw[ContentEnd(raw)..BodyEnd(raw)];
    SpaceKeepsRemoval(Content(raw), middle, ids);
    ThreeParts(WithoutTargets(Content(raw), ids), middle, raw[BodyEnd(raw)..]);
  }

  lemma ThreeParts(a: string, b: string, c: string)
    ensures a + b + c == a + (b + c)
  {}

  /** The edited line ends and begins as before. */
  lemma RemovalEndsAlike(raw: string, ids: set<string>)
    requires IsLine(raw) && ListOf(Content(raw)).Some?
    ensures var t := RemoveEdgeTargets(raw, ids);
            Content(t) == WithoutTargets(Content(raw), ids) && SameEnd(raw, t) && SameBegin(raw, t)
  {
    Halves(raw);
    RemovalInContent(raw, ids);
    RemovalNoBoundary(Content(raw), ids);
    HalvesOf(WithoutTargets(Content(raw), ids), Ending(raw));
  }

  // ---------- the lines after the change ----------

  lemma {:induction false} FormHasState(family: Family, s: Scan, lines: seq<string>, i: nat)
    requires i < |lines|
    ensures exists t :: FormsFrom(family, s, lines)[i] == FormOf(family, t, lines[i])
    decreases |lines|
  {
    if i == 0 {
      assert FormsFrom(family, s, lines)[0] == FormOf(family, s, lines[0]);
    } else {
      var next := ScanAfter(family, s, lines[0]);
      FormHasState(family, next, lines[1..], i - 1);
      var t :| FormsFrom(family, next, lines[1..])[i - 1] == FormOf(family, t, lines[1..][i - 1]);
      assert FormsFrom(family, s, lines)[i] == FormOf(family, t, lines[i]);
    }
  }

  function EdgesIn(f: Form): seq<Edge> {
    match f case Head(_, _, _, edges) => edges case Node(_, edges) => edges case _ => []
  }

  lemma EdgesNeedList(family: Family, s: Scan, line: string)
    ensures EdgesIn(FormOf(family, s, line)) != [] ==> ListOf(line).Some?
  {
    AddressedHasList(line);
  }

  /** A touched item stands on a line with an edge list. */
  lemma TouchedHasList(sources: map<Path, seq<string>>, item: Item, ids: set<string>)
    requires IsPlaced(sources, item) && IsTouched(item, ids)
    ensures ListOf(sources[item.path][item.line - 1]).Some?
  {
    var lines := sources[item.path];
    FormHasState(FamilyOf(item.path), START, lines, item.line - 1);
    var t :| FormsAt(sources, item.path)[item.line - 1] == FormOf(FamilyOf(item.path), t, lines[item.line - 1]);
    EdgesNeedList(FamilyOf(item.path), t, lines[item.line - 1]);
  }

  /** What the role may see changed: nothing in Memory but the changed paths. */
  ghost predicate OnlyChanged(before: Snapshot, after: Snapshot, changed: set<Path>) {
    forall p :: FamilyOf(p) == Memory && p !in changed ==> (p in before <==> p in after) && (p in before ==> before[p] == after[p])
  }

  lemma EditedHasList(before: Snapshot, items: seq<Item>, ids: set<string>, p: Path, n: nat)
    requires ArePlaced(Sources(before), items) && IsEdited(items, ids, p, n)
    ensures p in before && 0 < n <= |Raw(before, p)| && ListOf(Content(Raw(before, p)[n - 1])).Some?
  {
    var i :| 0 <= i < |items| && IsTouched(items[i], ids) && items[i].path == p && items[i].line == n;
    assert IsPlaced(Sources(before), items[i]);
    TouchedHasList(Sources(before), items[i], ids);
  }

  lemma SameEndsAlike(raw: string)
    ensures SameEnd(raw, raw) && SameBegin(raw, raw)
  {}

  lemma EditedEndsAlike(before: Snapshot, items: seq<Item>, ids: set<string>, p: Path, i: nat)
    requires ArePlaced(Sources(before), items) && i < |Raw(before, p)|
    ensures var raw, now := Raw(before, p)[i], EditedLines(items, ids, p, Raw(before, p))[i];
            && SameEnd(raw, now) && SameBegin(raw, now)
            && Content(now) == if IsEdited(items, ids, p, i + 1) then WithoutTargets(Content(raw), ids) else Content(raw)
  {
    var raw := Raw(before, p)[i];
    LineOfEdited(items, ids, p, Raw(before, p), i);
    if IsEdited(items, ids, p, i + 1) {
      EditedHasList(before, items, ids, p, i + 1);
      RawIsLine(before, p, i);
      RemovalEndsAlike(raw, ids);
    } else {
      SameEndsAlike(raw);
    }
  }

  lemma RawIsLine(s: Snapshot, p: Path, i: nat)
    requires i < |Raw(s, p)|
    ensures IsLine(Raw(s, p)[i])
  {
    SplitLinesAreLines(s[p].text);
  }

  /** Splitting an edited document gives the edited lines. */
  lemma EditedResplits(before: Snapshot, items: seq<Item>, ids: set<string>, p: Path)
    requires ArePlaced(Sources(before), items) && p in before
    ensures SplitLines(Concat(EditedLines(items, ids, p, Raw(before, p)))) == EditedLines(items, ids, p, Raw(before, p))
  {
    var now := EditedLines(items, ids, p, Raw(before, p));
    forall i | 0 <= i < |now| ensures SameEnd(Raw(before, p)[i], now[i]) && SameBegin(Raw(before, p)[i], now[i]) {
      EditedEndsAlike(before, items, ids, p, i);
    }
    Resplit(before[p].text, now);
  }

  lemma ItemsArePlaced(s: Snapshot)
    ensures ArePlaced(Sources(s), Items(s))
  {
    AllItemsArePlaced(Sources(s), VisitRoots(Parsed(Sources(s)), ROOTS, []), []);
  }

  /** Line for line, a Memory document after the change. */
  lemma LinesAfter(before: Snapshot, after: Snapshot, changed: set<Path>, p: Path)
    requires Accepts(before, after, changed) && OnlyChanged(before, after, changed) && FamilyOf(p) == Memory
    ensures p in before <==> p in after
    ensures Raw(after, p) == EditedLines(Items(before), Deleted(before, after), p, Raw(before, p))
  {
    var items, ids := Items(before), Deleted(before, after);
    ItemsArePlaced(before);
    if p in changed {
      EditedResplits(before, items, ids, p);
    } else {
      assert !IsEditedPath(items, ids, p);
      assert forall n: nat :: !IsEdited(items, ids, p, n);
    }
  }

  // ---------- the items after the change ----------

  function Repoint(item: Item, ids: set<string>): Item {
    item.(edges := Filter(Avoids(ids), item.edges))
  }

  function RepointAll(items: seq<Item>, ids: set<string>): (r: seq<Item>)
    ensures |r| == |items|
  {
    seq(|items|, i requires 0 <= i < |items| => Repoint(items[i], ids))
  }

  lemma KnowsRepointed(items: seq<Item>, ids: set<string>, id: string)
    ensures Knows(RepointAll(items, ids), id) <==> Knows(items, id)
  {
    assert forall i :: 0 <= i < |items| ==> RepointAll(items, ids)[i].id == items[i].id;
  }

  /** The forms of a document before and after, as far as the items of `all` are concerned. */
  ghost predicate FormsPair(all: seq<Item>, ids: set<string>, p: Path, f: seq<Form>, g: seq<Form>) {
    && SameHeads(f, g)
    && forall i :: 0 <= i < |f| ==> FormPairs(all, ids, p, i + 1, f[i], g[i])
  }

  ghost predicate FormPairs(all: seq<Item>, ids: set<string>, p: Path, n: nat, f: Form, g: Form) {
    var more := FormItem(p, n, f);
    more != [] && more[0] in all ==> FormItem(p, n, g) == RepointAll(more, ids)
  }

  lemma SameHeadSameId(p: Path, n: nat, f: Form, g: Form)
    requires SameHead(f, g)
    ensures |FormItem(p, n, f)| == |FormItem(p, n, g)| && (FormItem(p, n, f) != [] ==> FormItem(p, n, f)[0].id == FormItem(p, n, g)[0].id)
  {}

  lemma {:induction false} DocItemsPair(all: seq<Item>, ids: set<string>, items: seq<Item>, p: Path, f: seq<Form>, g: seq<Form>, n: nat)
    requires n <= |f| && FormsPair(all, ids, p, f, g) && DocItems(items, p, f, n) <= all
    ensures DocItems(RepointAll(items, ids), p, g, n) == RepointAll(DocItems(items, p, f, n), ids)
  {
    if n > 0 {
      var was := DocItems(items, p, f, n - 1);
      var more := FormItem(p, n, f[n - 1]);
      assert was <= Record(was, more) <= all;
      DocItemsPair(all, ids, items, p, f, g, n - 1);
      assert SameHead(f[n - 1], g[n - 1]) && FormPairs(all, ids, p, n, f[n - 1], g[n - 1]);
      SameHeadSameId(p, n, f[n - 1], g[n - 1]);
      if more != [] {
        KnowsRepointed(was, ids, more[0].id);
        if !Knows(was, more[0].id) {
          assert Record(was, more)[|was|] == more[0] == all[|was|];
          assert RepointAll(was + [more[0]], ids) == RepointAll(was, ids) + [Repoint(more[0], ids)];
        }
      }
    }
  }

  lemma {:induction false} AllItemsPair(a: map<Path, seq<string>>, b: map<Path, seq<string>>, all: seq<Item>, ids: set<string>, order: seq<Path>, items: seq<Item>)
    requires forall i :: 0 <= i < |order| ==> FormsPair(all, ids, order[i], FormsAt(a, order[i]), FormsAt(b, order[i]))
    requires ArePlaced(a, items) && AllItems(a, order, items) <= all
    ensures AllItems(b, order, RepointAll(items, ids)) == RepointAll(AllItems(a, order, items), ids)
  {
    if order != [] {
      var f, g := FormsAt(a, order[0]), FormsAt(b, order[0]);
      var next := DocItems(items, order[0], f, |f|);
      if order[0] in a {
        DocItemsArePlaced(a, items, order[0], |f|);
      }
      AllItemsArePlaced(a, order[1..], next);
      assert FormsPair(all, ids, order[0], f, g);
      DocItemsPair(all, ids, items, order[0], f, g, |f|);
      AllItemsPair(a, b, all, ids, order[1..], next);
    }
  }

  lemma {:induction false} AllItemsAppend(sources: map<Path, seq<string>>, order: seq<Path>, more: seq<Path>, items: seq<Item>)
    ensures AllItems(sources, order + more, items) == AllItems(sources, more, AllItems(sources, order, items))
  {
    if order == [] {
      assert order + more == more;
    } else {
      var forms := FormsAt(sources, order[0]);
      AllItemsAppend(sources, order[1..], more, DocItems(items, order[0], forms, |forms|));
      assert (order + more)[1..] == order[1..] + more;
    }
  }

  lemma {:induction false} DocItemsFamily(items: seq<Item>, p: Path, forms: seq<Form>, n: nat)
    requires n <= |forms|
    ensures var r := DocItems(items, p, forms, n);
            items <= r && forall i :: |items| <= i < |r| ==> r[i].family == FamilyOf(p)
  {
    if n > 0 {
      DocItemsFamily(items, p, forms, n - 1);
    }
  }

  lemma {:induction false} AllItemsFamily(sources: map<Path, seq<string>>, order: seq<Path>, items: seq<Item>, family: Family)
    requires AllFamily(order, family)
    ensures var r := AllItems(sources, order, items);
            items <= r && forall i :: |items| <= i < |r| ==> r[i].family == family
  {
    if order != [] {
      var forms := FormsAt(sources, order[0]);
      DocItemsFamily(items, order[0], forms, |forms|);
      AllItemsFamily(sources, order[1..], DocItems(items, order[0], forms, |forms|), family);
    }
  }

  lemma {:induction false} NoneOfMemory(items: seq<Item>)
    requires forall i :: 0 <= i < |items| ==> items[i].family == Pursuit
    ensures Filter(IsMemoryItem, items) == []
  {
    if items != [] {
      NoneOfMemory(items[1..]);
    }
  }

  lemma MemoryThenPursuit(memory: seq<Item>, all: seq<Item>)
    requires memory <= all && (forall i :: 0 <= i < |memory| ==> memory[i].family == Memory)
    requires forall i :: |memory| <= i < |all| ==> all[i].family == Pursuit
    ensures Filter(IsMemoryItem, all) == memory
  {
    var rest := all[|memory|..];
    assert all == memory + rest;
    FilterAppend(IsMemoryItem, memory, rest);
    FilterAll(IsMemoryItem, memory);
    NoneOfMemory(rest);
  }

  /** The Memory items are those of the Memory documents, which come first. */
  lemma MemoryItemsComeFirst(s: Snapshot)
    ensures MemoryItems(s) == AllItems(Sources(s), MemoryOrder(Parsed(Sources(s))), []) <= Items(s)
  {
    var files := Parsed(Sources(s));
    ParsedRefsStay(Sources(s));
    MemoryIsFirst(files);
    var first, all := MemoryOrder(files), VisitRoots(files, ROOTS, []);
    TwoFamilies(Sources(s), first, all);
  }

  lemma TwoFamilies(sources: map<Path, seq<string>>, first: seq<Path>, all: seq<Path>)
    requires first <= all && AllFamily(first, Memory) && AllFamily(all[|first|..], Pursuit)
    ensures Filter(IsMemoryItem, AllItems(sources, all, [])) == AllItems(sources, first, []) <= AllItems(sources, all, [])
  {
    assert all == first + all[|first|..];
    AllItemsAppend(sources, first, all[|first|..], []);
    AllItemsFamily(sources, first, [], Memory);
    AllItemsFamily(sources, all[|first|..], AllItems(sources, first, []), Pursuit);
    MemoryThenPursuit(AllItems(sources, first, []), AllItems(sources, all, []));
  }

  // ---------- the fence ----------

  /** The Memory documents keep their headings and names. */
  lemma ContentsAfter(before: Snapshot, after: Snapshot, changed: set<Path>, p: Path)
    requires Accepts(before, after, changed) && OnlyChanged(before, after, changed) && FamilyOf(p) == Memory && p in before
    ensures p in after && |Sources(after)[p]| == |Sources(before)[p]|
    ensures forall i :: 0 <= i < |Sources(before)[p]| ==>
      Sources(after)[p][i] == if IsEdited(Items(before), Deleted(before, after), p, i + 1) then WithoutTargets(Sources(before)[p][i], Deleted(before, after)) else Sources(before)[p][i]
  {
    var items, ids := Items(before), Deleted(before, after);
    LinesAfter(before, after, changed, p);
    ItemsArePlaced(before);
    forall i | 0 <= i < |Sources(before)[p]|
      ensures Sources(after)[p][i] == if IsEdited(items, ids, p, i + 1) then WithoutTargets(Sources(before)[p][i], ids) else Sources(before)[p][i]
    {
      EditedEndsAlike(before, items, ids, p, i);
    }
  }

  lemma FilterFormSameHead(f: Form, ids: set<string>)
    ensures SameHead(f, f) && SameHead(f, FilterForm(f, ids))
  {}

  lemma UntouchedAvoids(item: Item, ids: set<string>)
    requires item.family == Memory && !IsTouched(item, ids)
    ensures Repoint(item, ids) == item
  {
    forall e | e in item.edges ensures Avoids(ids)(e) {
      var i :| 0 <= i < |item.edges| && item.edges[i] == e;
    }
    FilterAll(Avoids(ids), item.edges);
  }

  /** A recorded item's line loses exactly the deleted references, edited or not. */
  lemma PairedForm(all: seq<Item>, ids: set<string>, p: Path, n: nat, f: Form, g: Form)
    requires FamilyOf(p) == Memory && g == if IsEdited(all, ids, p, n) then FilterForm(f, ids) else f
    ensures FormPairs(all, ids, p, n, f, g)
  {
    var more := FormItem(p, n, f);
    if more != [] && more[0] in all {
      var i :| 0 <= i < |all| && all[i] == more[0];
      if !IsEdited(all, ids, p, n) {
        assert !IsTouched(all[i], ids);
        UntouchedAvoids(more[0], ids);
      }
    }
  }

  lemma FormsAfter(before: Snapshot, after: Snapshot, changed: set<Path>, p: Path)
    requires Accepts(before, after, changed) && OnlyChanged(before, after, changed) && FamilyOf(p) == Memory && p in before
    ensures p in after && FormsPair(Items(before), Deleted(before, after), p, FormsAt(Sources(before), p), FormsAt(Sources(after), p))
  {
    var items, ids := Items(before), Deleted(before, after);
    ContentsAfter(before, after, changed, p);
    var lines, other := Sources(before)[p], Sources(after)[p];
    FormsFiltered(START, lines, other, ids);
    var f, g := FormsAt(Sources(before), p), FormsAt(Sources(after), p);
    forall i | 0 <= i < |f| ensures SameHead(f[i], g[i]) && FormPairs(items, ids, p, i + 1, f[i], g[i]) {
      FilterFormSameHead(f[i], ids);
      assert other[i] == lines[i] || other[i] == WithoutTargets(lines[i], ids);
      PairedForm(items, ids, p, i + 1, f[i], g[i]);
    }
  }

  lemma MemoryStaysLoaded(before: Snapshot, after: Snapshot, changed: set<Path>)
    requires Accepts(before, after, changed) && OnlyChanged(before, after, changed)
    ensures MemoryOrder(Parsed(Sources(after))) == MemoryOrder(Parsed(Sources(before)))
  {
    var a, b := Parsed(Sources(before)), Parsed(Sources(after));
    forall p | FamilyOf(p) == Memory ensures (p in a <==> p in b) && (p in a ==> a[p].refs == b[p].refs) {
      LinesAfter(before, after, changed, p);
      if p in before {
        FormsAfter(before, after, changed, p);
        var f, g := FormsAt(Sources(before), p), FormsAt(Sources(after), p);
        SameRefs(Memory, f, g, |f|);
      }
    }
    ParsedRefsStay(Sources(before));
    if ROOTS[0] in a {
      VisitSame(a, b, ROOTS[0], []);
    }
  }

  /**
   A Memory change that the fence accepts has the same Memory items before and
   after, in the same places; each has exactly its old edges minus those to
   deleted Pursuit ids.
   */
  lemma FenceKeepsMemory(before: Snapshot, after: Snapshot, changed: set<Path>)
    requires Accepts(before, after, changed) && OnlyChanged(before, after, changed)
    ensures MemoryItems(after) == RepointAll(MemoryItems(before), Deleted(before, after))
  {
    var ids := Deleted(before, after);
    var order := MemoryOrder(Parsed(Sources(before)));
    MemoryItemsComeFirst(before);
    MemoryItemsComeFirst(after);
    MemoryStaysLoaded(before, after, changed);
    ParsedRefsStay(Sources(before));
    MemoryIsFirst(Parsed(Sources(before)));
    forall i | 0 <= i < |order| ensures FormsPair(Items(before), ids, order[i], FormsAt(Sources(before), order[i]), FormsAt(Sources(after), order[i])) {
      LinesAfter(before, after, changed, order[i]);
      if order[i] in before {
        FormsAfter(before, after, changed, order[i]);
      }
    }
    AllItemsPair(Sources(before), Sources(after), Items(before), ids, order, []);
    assert RepointAll([], ids) == [];
  }

  /**
   Every Memory line that is not the line of an item with a deleted reference
   is the same after the change, to the byte; the others have that reference
   removed and nothing else.
   */
  lemma FenceKeepsLines(before: Snapshot, after: Snapshot, changed: set<Path>, p: Path, i: nat)
    requires Accepts(before, after, changed) && OnlyChanged(before, after, changed)
    requires FamilyOf(p) == Memory && p in before && i < |Raw(before, p)|
    ensures |Raw(after, p)| == |Raw(before, p)|
    ensures Raw(after, p)[i] == if IsEdited(Items(before), Deleted(before, after), p, i + 1) then RemoveEdgeTargets(Raw(before, p)[i], Deleted(before, after)) else Raw(before, p)[i]
  {
    LinesAfter(before, after, changed, p);
    LineOfEdited(Items(before), Deleted(before, after), p, Raw(before, p), i);
  }

  // ---------- exactly which changes are accepted ----------

  /** A Pursuit item has this id, no later item has it. */
  ghost predicate IsGone(items: seq<Item>, later: seq<Item>, id: string) {
    && (exists item :: item in items && item.family == Pursuit && item.id == id)
    && forall item :: item in later ==> item.id != id
  }

  ghost predicate HasGoneTarget(items: seq<Item>, later: seq<Item>, item: Item) {
    exists e :: e in item.edges && IsGone(items, later, e.target)
  }

  /** Line `n` of `p` carries a Memory item with an edge to an id that has gone. */
  ghost predicate RefersToGone(items: seq<Item>, later: seq<Item>, p: Path, n: nat) {
    exists item :: item in items && item.family == Memory && item.path == p && item.line == n && HasGoneTarget(items, later, item)
  }

  ghost predicate AreGone(items: seq<Item>, later: seq<Item>, ids: set<string>) {
    forall id :: id in ids <==> IsGone(items, later, id)
  }

  lemma DeletedAreGone(before: Snapshot, after: Snapshot)
    ensures AreGone(Items(before), Items(after), Deleted(before, after))
  {
    forall id ensures id in Deleted(before, after) <==> IsGone(Items(before), Items(after), id) {
      KnowsMeans(Items(after), id);
    }
  }

  lemma KnowsMeans(items: seq<Item>, id: string)
    ensures Knows(items, id) <==> exists item :: item in items && item.id == id
  {}

  lemma TouchedMeans(items: seq<Item>, later: seq<Item>, ids: set<string>, item: Item)
    requires AreGone(items, later, ids)
    ensures IsTouched(item, ids) <==> item.family == Memory && HasGoneTarget(items, later, item)
  {
    if item.family == Memory && HasGoneTarget(items, later, item) {
      var e :| e in item.edges && IsGone(items, later, e.target);
      var k: nat :| k < |item.edges| && item.edges[k] == e;
    }
    if IsTouched(item, ids) {
      var k: nat :| k < |item.edges| && item.edges[k].target in ids;
      assert item.edges[k] in item.edges;
    }
  }

  lemma EditedMeans(items: seq<Item>, later: seq<Item>, ids: set<string>, p: Path, n: nat)
    requires AreGone(items, later, ids)
    ensures IsEdited(items, ids, p, n) <==> RefersToGone(items, later, p, n)
  {
    forall item ensures IsTouched(item, ids) <==> item.family == Memory && HasGoneTarget(items, later, item) {
      TouchedMeans(items, later, ids, item);
    }
    if item :| item in items && IsTouched(item, ids) && item.path == p && item.line == n {
      var i: nat :| i < |items| && items[i] == item;
    }
  }

  lemma EditedPathMeans(items: seq<Item>, later: seq<Item>, ids: set<string>, p: Path)
    requires AreGone(items, later, ids)
    ensures IsEditedPath(items, ids, p) <==> exists n :: RefersToGone(items, later, p, n)
  {
    if IsEditedPath(items, ids, p) {
      var i: nat :| i < |items| && IsTouched(items[i], ids) && items[i].path == p;
      assert IsEdited(items, ids, p, items[i].line);
      EditedMeans(items, later, ids, p, items[i].line);
    }
    if n :| RefersToGone(items, later, p, n) {
      EditedMeans(items, later, ids, p, n);
    }
  }

  /** The lines with the references to what has gone removed. */
  ghost predicate AreRepointed(items: seq<Item>, later: seq<Item>, ids: set<string>, p: Path, was: seq<string>, lines: seq<string>) {
    && |lines| == |was|
    && forall i :: 0 <= i < |lines| ==> lines[i] == if RefersToGone(items, later, p, i + 1) then RemoveEdgeTargets(was[i], ids) else was[i]
  }

  lemma RepointedMeans(items: seq<Item>, later: seq<Item>, ids: set<string>, p: Path, was: seq<string>, lines: seq<string>)
    requires AreGone(items, later, ids)
    ensures AreRepointed(items, later, ids, p, was, lines) <==> lines == EditedLines(items, ids, p, was)
  {
    forall i: nat | i < |was|
      ensures EditedLines(items, ids, p, was)[i] == if RefersToGone(items, later, p, i + 1) then RemoveEdgeTargets(was[i], ids) else was[i]
    {
      LineOfEdited(items, ids, p, was, i);
      EditedMeans(items, later, ids, p, i + 1);
    }
  }

  /** A document is there before and after, with the same mode, and only these references went. */
  ghost predicate IsRepointed(items: seq<Item>, later: seq<Item>, ids: set<string>, before: Snapshot, after: Snapshot, p: Path) {
    && p in before && p in after && before[p].executable == after[p].executable
    && exists lines :: AreRepointed(items, later, ids, p, SplitLines(before[p].text), lines) && after[p].text == Concat(lines)
  }

  lemma BecomesMeans(items: seq<Item>, later: seq<Item>, ids: set<string>, before: Snapshot, after: Snapshot, p: Path)
    requires AreGone(items, later, ids)
    ensures BecomesLines(before, after, p, EditedLines(items, ids, p, Raw(before, p))) <==> IsRepointed(items, later, ids, before, after, p)
  {
    var edited := EditedLines(items, ids, p, Raw(before, p));
    RepointedMeans(items, later, ids, p, Raw(before, p), edited);
    forall lines ensures AreRepointed(items, later, ids, p, Raw(before, p), lines) <==> lines == edited {
      RepointedMeans(items, later, ids, p, Raw(before, p), lines);
    }
  }

  /** The changed files are those with a reference to an id that has gone, and each of them is only repointed. */
  ghost predicate IsRepointing(items: seq<Item>, later: seq<Item>, ids: set<string>, before: Snapshot, after: Snapshot, changed: set<Path>) {
    && (forall p :: p in changed <==> exists n :: RefersToGone(items, later, p, n))
    && forall p :: p in changed ==> IsRepointed(items, later, ids, before, after, p)
  }

  lemma RepointingMeans(items: seq<Item>, later: seq<Item>, ids: set<string>, before: Snapshot, after: Snapshot, changed: set<Path>)
    requires AreGone(items, later, ids)
    ensures IsRepointing(items, later, ids, before, after, changed) <==>
      && (forall p :: p in changed <==> IsEditedPath(items, ids, p))
      && forall p :: p in changed ==> BecomesLines(before, after, p, EditedLines(items, ids, p, Raw(before, p)))
  {
    forall p
      ensures IsEditedPath(items, ids, p) <==> exists n :: RefersToGone(items, later, p, n)
      ensures BecomesLines(before, after, p, EditedLines(items, ids, p, Raw(before, p))) <==> IsRepointed(items, later, ids, before, after, p)
    {
      EditedPathMeans(items, later, ids, p);
      BecomesMeans(items, later, ids, before, after, p);
    }
  }

  /** Exactly such changes are accepted. */
  lemma AcceptsMeans(before: Snapshot, after: Snapshot, changed: set<Path>)
    ensures AreGone(Items(before), Items(after), Deleted(before, after))
    ensures Accepts(before, after, changed) <==> IsRepointing(Items(before), Items(after), Deleted(before, after), before, after, changed)
  {
    DeletedAreGone(before, after);
    RepointingMeans(Items(before), Items(after), Deleted(before, after), before, after, changed);
  }

  // ---------- the first item with an id keeps it ----------

  /** Every addressed heading and node of the first `n` lines. */
  function AddressedLines(p: Path, forms: seq<Form>, n: nat): seq<Item>
    requires n <= |forms|
  {
    if n == 0 then [] else AddressedLines(p, forms, n - 1) + FormItem(p, n, forms[n - 1])
  }

  /** Every addressed heading and node of these documents, in order. */
  function Addressed(sources: map<Path, seq<string>>, order: seq<Path>): seq<Item> {
    if order == [] then []
    else AddressedLines(order[0], FormsAt(sources, order[0]), |FormsAt(sources, order[0])|) + Addressed(sources, order[1..])
  }

  /** The line of the item is a heading with its id or a node, and carries its edges. */
  predicate IsAddressed(sources: map<Path, seq<string>>, item: Item) {
    && item.path in sources && 0 < item.line <= |sources[item.path]| && item.family == FamilyOf(item.path)
    && match Forms(FamilyOf(item.path), sources[item.path])[item.line - 1]
       case Head(_, _, address, edges) => address == Some(item.id) && edges == item.edges
       case Node(id, edges) => id == item.id && edges == item.edges
       case Text => false
       case Focus(_) => false
  }

  lemma {:induction false} AddressedLinesMean(sources: map<Path, seq<string>>, p: Path, n: nat, item: Item)
    requires n <= |FormsAt(sources, p)|
    ensures item in AddressedLines(p, FormsAt(sources, p), n) <==> item.path == p && item.line <= n && IsAddressed(sources, item)
  {
    var forms := FormsAt(sources, p);
    if n > 0 {
      AddressedLinesMean(sources, p, n - 1, item);
      assert item in FormItem(p, n, forms[n - 1]) <==> item.path == p && item.line == n && IsAddressed(sources, item);
    }
  }

  /** Every heading with an id and every node of these documents, and nothing else. */
  lemma {:induction false} AddressedMeans(sources: map<Path, seq<string>>, order: seq<Path>, item: Item)
    ensures item in Addressed(sources, order) <==> item.path in order && IsAddressed(sources, item)
    decreases |order|
  {
    if order != [] {
      AddressedLinesMean(sources, order[0], |FormsAt(sources, order[0])|, item);
      AddressedMeans(sources, order[1..], item);
      assert item.path in order <==> item.path == order[0] || item.path in order[1..];
    }
  }

  predicate IsFirst(all: seq<Item>, k: nat, item: Item) {
    k < |all| && all[k] == item && forall j :: 0 <= j < k ==> all[j].id != item.id
  }

  /** Nothing before it has its id. */
  ghost predicate Begins(all: seq<Item>, item: Item) {
    exists k: nat :: IsFirst(all, k, item)
  }

  /** The items with different ids, each where its id first occurs. */
  ghost predicate AreFirsts(items: seq<Item>, all: seq<Item>) {
    && (forall item :: item in items <==> Begins(all, item))
    && (forall i, j :: 0 <= i < j < |items| ==> items[i].id != items[j].id)
    && forall id :: Knows(items, id) <==> Knows(all, id)
  }

  lemma KnowsMore(all: seq<Item>, x: Item, id: string)
    ensures Knows(all + [x], id) <==> Knows(all, id) || x.id == id
  {
    assert (all + [x])[|all|] == x;
    assert forall i :: 0 <= i < |all| ==> (all + [x])[i] == all[i];
  }

  lemma BeginsMore(all: seq<Item>, x: Item, item: Item)
    ensures Begins(all + [x], item) <==> Begins(all, item) || (item == x && !Knows(all, x.id))
  {
    var more := all + [x];
    assert forall i :: 0 <= i < |all| ==> more[i] == all[i];
    if k: nat :| IsFirst(all, k, item) {
      assert IsFirst(more, k, item);
    }
    if item == x && !Knows(all, x.id) {
      assert IsFirst(more, |all|, item);
    }
    if k: nat :| IsFirst(more, k, item) {
      if k < |all| {
        assert IsFirst(all, k, item);
      } else {
        assert forall j :: 0 <= j < |all| ==> more[j].id != x.id;
      }
    }
  }

  lemma FirstsSame(items: seq<Item>, all: seq<Item>, x: Item)
    requires AreFirsts(items, all) && Knows(items, x.id)
    ensures AreFirsts(items, all + [x])
  {
    forall item ensures Begins(all + [x], item) <==> Begins(all, item) {
      BeginsMore(all, x, item);
    }
    forall id ensures Knows(all + [x], id) <==> Knows(all, id) {
      KnowsMore(all, x, id);
    }
  }

  lemma FirstsMore(items: seq<Item>, all: seq<Item>, x: Item)
    requires AreFirsts(items, all) && !Knows(items, x.id)
    ensures AreFirsts(items + [x], all + [x])
  {
    forall item ensures Begins(all + [x], item) <==> Begins(all, item) || item == x {
      BeginsMore(all, x, item);
    }
    forall id ensures Knows(all + [x], id) <==> Knows(items + [x], id) {
      KnowsMore(all, x, id);
      KnowsMore(items, x, id);
    }
    assert forall i :: 0 <= i < |items| ==> items[i].id != x.id;
  }

  lemma NoFirsts()
    ensures AreFirsts([], [])
  {}

  lemma RecordKeepsFirsts(items: seq<Item>, all: seq<Item>, more: seq<Item>)
    requires AreFirsts(items, all) && |more| <= 1
    ensures AreFirsts(Record(items, more), all + more)
  {
    if more == [] {
      assert all + more == all;
    } else {
      assert more == [more[0]];
      if Knows(items, more[0].id) {
        FirstsSame(items, all, more[0]);
      } else {
        FirstsMore(items, all, more[0]);
      }
    }
  }

  lemma {:induction false} DocItemsAreFirsts(items: seq<Item>, all: seq<Item>, p: Path, forms: seq<Form>, n: nat)
    requires AreFirsts(items, all) && n <= |forms|
    ensures AreFirsts(DocItems(items, p, forms, n), all + AddressedLines(p, forms, n))
  {
    if n == 0 {
      assert all + [] == all;
    } else {
      DocItemsAreFirsts(items, all, p, forms, n - 1);
      RecordKeepsFirsts(DocItems(items, p, forms, n - 1), all + AddressedLines(p, forms, n - 1), FormItem(p, n, forms[n - 1]));
      Assoc(all, AddressedLines(p, forms, n - 1), FormItem(p, n, forms[n - 1]));
    }
  }

  lemma {:induction false} AllItemsAreFirsts(sources: map<Path, seq<string>>, order: seq<Path>, items: seq<Item>, all: seq<Item>)
    requires AreFirsts(items, all)
    ensures AreFirsts(AllItems(sources, order, items), all + Addressed(sources, order))
  {
    if order == [] {
      assert all + [] == all;
    } else {
      var forms := FormsAt(sources, order[0]);
      DocItemsAreFirsts(items, all, order[0], forms, |forms|);
      var lines := AddressedLines(order[0], forms, |forms|);
      AllItemsAreFirsts(sources, order[1..], DocItems(items, order[0], forms, |forms|), all + lines);
      Assoc(all, lines, Addressed(sources, order[1..]));
    }
  }

  /** The items of a commit are the addressed headings and nodes of the loaded documents, each id where it first occurs. */
  lemma ItemsAreFirsts(s: Snapshot)
    ensures AreFirsts(Items(s), Addressed(Sources(s), VisitRoots(Parsed(Sources(s)), ROOTS, [])))
  {
    var order := VisitRoots(Parsed(Sources(s)), ROOTS, []);
    NoFirsts();
    AllItemsAreFirsts(Sources(s), order, [], []);
    assert [] + Addressed(Sources(s), order) == Addressed(Sources(s), order);
  }
}
