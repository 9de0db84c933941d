/** Parsing one document into nested blocks. */
module Index {
  import opened Common
  import opened Paths
  import opened Lines
  import opened Edges

  datatype Family = Memory | Pursuit

  /** What the parser makes of a line. */
  datatype Form =
    | Text
    | Head(depth: nat, kind: Option<AnchorKind>, address: Option<string>, edges: seq<Edge>)
    | Focus(target: string)
    | Node(id: string, edges: seq<Edge>)

  /** What the parser remembers from line to line besides the open headings. */
  datatype Scan = Scan(fence: Option<Fence>, inFocus: bool, inNext: bool)

  // ---------- lines ----------

  predicate IsFocusHeading(line: string) {
    var h := HeadingOf(line);
    h.Some? && h.value.depth == 2 && SameIgnoringCase(Strip(line[h.value.next..]), "Focus")
  }

  const LEGACY_FIELDS := ["**state:**", "**next:**", "**done when:**", "**status:**"]

  predicate StartsIgnoringCase(line: string, i: nat, word: string) {
    i + |word| <= |line| && SameIgnoringCase(line[i..i + |word|], word)
  }

  predicate IsLegacyField(line: string) {
    exists word :: word in LEGACY_FIELDS && StartsIgnoringCase(line, Skip(IsSpace, line, 0), word)
  }

  predicate IsLegacyNext(line: string) {
    StartsIgnoringCase(line, Skip(IsSpace, line, 0), "**next:**")
  }

  /** An addressed heading, a malformed one that still shows its id, or a plain one. */
  function HeadForm(line: string): (r: Form)
    requires HeadingOf(line).Some?
    ensures r.Head? && r.depth == HeadingOf(line).value.depth
  {
    var h := HeadingOf(line).value;
    var anchor := AnchorOf(line);
    if anchor.Some? then Head(h.depth, Some(anchor.value.anchor.kind), Some(anchor.value.anchor.id), LineEdges(line))
    else
      var c := FindCandidate(line, h.next);
      if c.Some? then Head(h.depth, Some(c.value.kind), if IsId(c.value.id) then Some(c.value.id) else None, [])
      else Head(h.depth, None, None, [])
  }

  function NodeForm(line: string): (r: Form)
    requires IsNodeCandidate(line)
  {
    var id := NodeStartOf(line).value.id;
    if IsId(id) && NodeListOf(line).Some? then Node(id, LineEdges(line)) else Text
  }

  function FormOf(family: Family, s: Scan, line: string): Form {
    if FenceOf(line).Some? || s.fence.Some? then Text
    else if HeadingOf(line).Some? then HeadForm(line)
    else if family == Pursuit && IsLegacyField(line) then Text
    else if s.inFocus && IsNodeCandidate(line) then
      if IsId(NodeStartOf(line).value.id) then Focus(NodeStartOf(line).value.id) else Text
    else if family == Pursuit && s.inNext then Text
    else if IsNodeCandidate(line) then NodeForm(line)
    else Text
  }

  function ScanAfter(family: Family, s: Scan, line: string): Scan {
    if FenceOf(line).Some? then s.(fence := NextFence(s.fence, FenceOf(line).value))
    else if s.fence.Some? || family == Memory then s
    else if HeadingOf(line).Some? then
      s.(inFocus := if HeadingOf(line).value.depth <= 2 then IsFocusHeading(line) else s.inFocus, inNext := false)
    else if IsLegacyField(line) then s.(inNext := IsLegacyNext(line))
    else s
  }

  /** The forms of `lines` when the parser is in state `s`. */
  function FormsFrom(family: Family, s: Scan, lines: seq<string>): (r: seq<Form>)
    ensures |r| == |lines|
    decreases |lines|
  {
    if lines == [] then [] else [FormOf(family, s, lines[0])] + FormsFrom(family, ScanAfter(family, s, lines[0]), lines[1..])
  }

  const START := Scan(None, false, false)

  function Forms(family: Family, lines: seq<string>): (r: seq<Form>)
    ensures |r| == |lines|
  {
    FormsFrom(family, START, lines)
  }

  // ---------- nesting ----------
  // Lines are numbered from 1; 0 stands for the document itself.

  predicate IsHead(forms: seq<Form>, i: nat) {
    0 < i <= |forms| && forms[i - 1].Head?
  }

  function Depth(forms: seq<Form>, i: nat): nat {
    if IsHead(forms, i) then forms[i - 1].depth else 0
  }

  /** Heading `j` is above line `i`: any heading is above other lines, a shallower one above a heading. */
  predicate Above(forms: seq<Form>, j: nat, i: nat) {
    IsHead(forms, j) && (IsHead(forms, i) ==> Depth(forms, j) < Depth(forms, i))
  }

  function OwnerFrom(forms: seq<Form>, i: nat, j: nat): (r: nat)
    ensures r <= j
    ensures r == 0 || Above(forms, r, i)
  {
    if j == 0 || Above(forms, j, i) then j else OwnerFrom(forms, i, j - 1)
  }

  /** The nearest heading above line `i`, or the document. */
  function Owner(forms: seq<Form>, i: nat): (r: nat)
    ensures i > 0 ==> r < i
  {
    if i == 0 then 0 else OwnerFrom(forms, i, i - 1)
  }

  predicate Ends(forms: seq<Form>, j: nat, k: nat) {
    IsHead(forms, k) && Depth(forms, k) <= Depth(forms, j)
  }

  function EndFrom(forms: seq<Form>, j: nat, k: nat): (r: nat)
    requires 0 < k <= |forms| + 1
    ensures k - 1 <= r <= |forms|
    ensures r < |forms| ==> Ends(forms, j, r + 1)
    decreases |forms| + 1 - k
  {
    if k == |forms| + 1 || Ends(forms, j, k) then k - 1 else EndFrom(forms, j, k + 1)
  }

  /** The last line of the block at `j`. */
  function EndOf(forms: seq<Form>, j: nat): nat
    requires j <= |forms|
  {
    if j == 0 then |forms| else if IsHead(forms, j) then EndFrom(forms, j, j + 1) else j
  }

  /** The first heading from `k` on, or the line after the last. */
  function NextHead(forms: seq<Form>, k: nat): (r: nat)
    requires 0 < k <= |forms| + 1
    ensures k <= r <= |forms| + 1
    ensures r <= |forms| ==> IsHead(forms, r)
    decreases |forms| + 1 - k
  {
    if k == |forms| + 1 || IsHead(forms, k) then k else NextHead(forms, k + 1)
  }

  datatype Part = Line(text: string) | Child(line: nat)

  function PartAt(forms: seq<Form>, lines: seq<string>, i: nat): Part
    requires |forms| == |lines| && 0 < i <= |lines|
  {
    if forms[i - 1].Text? then Line(lines[i - 1]) else Child(i)
  }

  /** What lines `a` to `b` contribute to the block at `j`. */
  function PartsOf(forms: seq<Form>, lines: seq<string>, j: nat, a: nat, b: nat): seq<Part>
    requires |forms| == |lines| && 0 < a && b <= |lines|
    decreases b
  {
    if b < a then []
    else PartsOf(forms, lines, j, a, b - 1) + (if Owner(forms, b) == j then [PartAt(forms, lines, b)] else [])
  }

  datatype Body = NoBody | Body(first: nat, last: nat)

  /** The body of a document or heading: the lines after it, up to the next heading. */
  function BodyOf(forms: seq<Form>, j: nat): Body
    requires j <= |forms|
  {
    var next := NextHead(forms, j + 1);
    if (j == 0 || IsHead(forms, j)) && j + 1 < next then Body(j + 1, next - 1) else NoBody
  }

  datatype Block = Block(form: Option<Form>, line: string, end: nat, parent: nat, parts: seq<Part>, body: Body)

  /** The block at `j` of the whole document, with `body` for its body. */
  function WithBody(forms: seq<Form>, lines: seq<string>, j: nat, body: Body): Block
    requires |forms| == |lines| && j <= |lines|
  {
    if j == 0 then Block(None, "", |lines|, 0, PartsOf(forms, lines, 0, 1, |lines|), body)
    else Block(Some(forms[j - 1]), lines[j - 1], EndOf(forms, j), Owner(forms, j), PartsOf(forms, lines, j, 1, |lines|), body)
  }

  /** The block at line `j`, as the whole document determines it. */
  function BlockOf(forms: seq<Form>, lines: seq<string>, j: nat): Block
    requires |forms| == |lines| && j <= |lines|
  {
    WithBody(forms, lines, j, BodyOf(forms, j))
  }

  predicate HasBlock(forms: seq<Form>, j: nat) {
    j == 0 || (j <= |forms| && !forms[j - 1].Text?)
  }

  /** The blocks of a document. */
  ghost predicate IsIndex(blocks: map<nat, Block>, forms: seq<Form>, lines: seq<string>) {
    && |forms| == |lines|
    && (forall j: nat :: j in blocks <==> HasBlock(forms, j))
    && forall j :: j in blocks ==> j <= |lines| && blocks[j] == BlockOf(forms, lines, j)
  }

  // ---------- what the nesting functions find ----------

  lemma {:induction false} NoneAboveBetween(forms: seq<Form>, i: nat, j: nat)
    ensures forall k :: OwnerFrom(forms, i, j) < k <= j ==> !Above(forms, k, i)
  {
    if j > 0 && !Above(forms, j, i) {
      NoneAboveBetween(forms, i, j - 1);
    }
  }

  /** Between a line and its owner nothing is above it. */
  lemma OwnerIsNearest(forms: seq<Form>, i: nat)
    requires i > 0
    ensures forall k :: Owner(forms, i) < k < i ==> !Above(forms, k, i)
  {
    NoneAboveBetween(forms, i, i - 1);
  }

  lemma {:induction false} NoneEndsBefore(forms: seq<Form>, j: nat, k: nat)
    requires 0 < k <= |forms| + 1
    ensures forall l :: k <= l <= EndFrom(forms, j, k) ==> !Ends(forms, j, l)
    decreases |forms| + 1 - k
  {
    if k <= |forms| && !Ends(forms, j, k) {
      NoneEndsBefore(forms, j, k + 1);
    }
  }

  /** Inside a heading's span no heading ends it. */
  lemma SpanIsOpen(forms: seq<Form>, j: nat)
    requires j <= |forms|
    ensures IsHead(forms, j) ==> forall l :: j < l <= EndOf(forms, j) ==> !Ends(forms, j, l)
  {
    NoneEndsBefore(forms, j, j + 1);
  }

  lemma {:induction false} NoHeadBefore(forms: seq<Form>, k: nat)
    requires 0 < k <= |forms| + 1
    ensures forall l :: k <= l < NextHead(forms, k) ==> !IsHead(forms, l)
    decreases |forms| + 1 - k
  {
    if k <= |forms| && !IsHead(forms, k) {
      NoHeadBefore(forms, k + 1);
    }
  }

  // ---------- the parser ----------

  lemma {:induction false} OwnerSkip(forms: seq<Form>, i: nat, a: nat, b: nat)
    requires a <= b && forall k :: a < k <= b ==> !Above(forms, k, i)
    ensures OwnerFrom(forms, i, b) == OwnerFrom(forms, i, a)
  {
    if a < b {
      OwnerSkip(forms, i, a, b - 1);
    }
  }

  lemma {:induction false} EndFromIs(forms: seq<Form>, j: nat, k: nat, e: nat)
    requires 0 < k <= e + 1 && e <= |forms|
    requires forall l :: k <= l <= e ==> !Ends(forms, j, l)
    requires e < |forms| ==> Ends(forms, j, e + 1)
    ensures EndFrom(forms, j, k) == e
    decreases e + 1 - k
  {
    if k <= e {
      EndFromIs(forms, j, k + 1, e);
    }
  }

  lemma EndIs(forms: seq<Form>, j: nat, e: nat)
    requires IsHead(forms, j) && j <= e <= |forms|
    requires forall l :: j < l <= e ==> !Ends(forms, j, l)
    requires e < |forms| ==> Ends(forms, j, e + 1)
    ensures EndOf(forms, j) == e
  {
    EndFromIs(forms, j, j + 1, e);
  }

  /** The headings open after the heading at `h`, outermost first. */
  function ChainOf(forms: seq<Form>, h: nat): seq<nat> {
    if h == 0 then [] else ChainOf(forms, Owner(forms, h)) + [h]
  }

  lemma {:induction false} ChainDeepens(forms: seq<Form>, h: nat)
    requires h == 0 || IsHead(forms, h)
    ensures forall s :: s in ChainOf(forms, h) ==> IsHead(forms, s) && s <= h && Depth(forms, s) <= Depth(forms, h)
    ensures h != 0 ==> forall s :: s in ChainOf(forms, Owner(forms, h)) ==> Depth(forms, s) < Depth(forms, h)
    decreases h
  {
    if h != 0 {
      ChainDeepens(forms, Owner(forms, h));
    }
  }

  /** The blocks after `i` lines: open headings have no end yet, and no bodies are known. */
  function DraftOf(forms: seq<Form>, lines: seq<string>, stack: seq<nat>, i: nat, j: nat): Block
    requires |forms| == |lines| && j <= |lines| && i <= |lines|
  {
    var end := if j in stack then j else EndOf(forms, j);
    if j == 0 then Block(None, "", end, 0, PartsOf(forms, lines, j, 1, i), NoBody)
    else Block(Some(forms[j - 1]), lines[j - 1], end, Owner(forms, j), PartsOf(forms, lines, j, 1, i), NoBody)
  }

  ghost predicate IsDraft(blocks: map<nat, Block>, forms: seq<Form>, lines: seq<string>, stack: seq<nat>, i: nat) {
    && |forms| == |lines| && i <= |lines|
    && (forall j: nat :: j in blocks <==> HasBlock(forms, j) && j <= i)
    && forall j :: j in blocks ==> j <= |lines| && blocks[j] == DraftOf(forms, lines, stack, i, j)
  }

  /** No line so far has ended an open heading. */
  predicate AllOpen(forms: seq<Form>, stack: seq<nat>, i: nat) {
    forall s :: s in stack ==> IsHead(forms, s) && s <= i && forall l :: s < l <= i ==> !Ends(forms, s, l)
  }

  function Top(stack: seq<nat>): nat {
    if stack == [] then 0 else stack[|stack| - 1]
  }

  lemma {:induction false} NoPartsYet(forms: seq<Form>, lines: seq<string>, j: nat, i: nat)
    requires |forms| == |lines| && i <= j <= |lines| && 0 < j
    ensures PartsOf(forms, lines, j, 1, i) == []
    decreases i
  {
    if i > 0 {
      NoPartsYet(forms, lines, j, i - 1);
    }
  }

  lemma PopDraft(blocks: map<nat, Block>, forms: seq<Form>, lines: seq<string>, rest: seq<nat>, h: nat, e: nat)
    requires h !in rest && IsHead(forms, h) && h <= e && EndOf(forms, h) == e
    requires IsDraft(blocks, forms, lines, rest + [h], e)
    ensures IsDraft(blocks[h := blocks[h].(end := e)], forms, lines, rest, e)
  {
    var after := blocks[h := blocks[h].(end := e)];
    forall j | j in after ensures after[j] == DraftOf(forms, lines, rest, e, j) {
      assert blocks[j] == DraftOf(forms, lines, rest + [h], e, j);
      assert j != h ==> (j in rest + [h] <==> j in rest);
    }
  }

  /** Closing the innermost open heading at line `n`. */
  lemma PopKeepsDraft(blocks: map<nat, Block>, forms: seq<Form>, lines: seq<string>, h: nat, n: nat)
    requires IsHead(forms, h) && h < n && Ends(forms, h, n)
    requires IsDraft(blocks, forms, lines, ChainOf(forms, h), n - 1) && AllOpen(forms, ChainOf(forms, h), n - 1)
    ensures IsDraft(blocks[h := blocks[h].(end := n - 1)], forms, lines, ChainOf(forms, Owner(forms, h)), n - 1)
    ensures AllOpen(forms, ChainOf(forms, Owner(forms, h)), n - 1)
  {
    var rest := ChainOf(forms, Owner(forms, h));
    assert h in ChainOf(forms, h);
    assert forall s :: s in rest ==> s in ChainOf(forms, h);
    EndIs(forms, h, n - 1);
    ChainDeepens(forms, h);
    ChainDeepens(forms, Owner(forms, h));
    PopDraft(blocks, forms, lines, rest, h, n - 1);
  }

  /** The heading that owns line `n` is below the innermost open heading, if that one is not shallower. */
  lemma PopKeepsOwner(forms: seq<Form>, h: nat, n: nat)
    requires IsHead(forms, h) && h < n && Ends(forms, h, n)
    requires IsHead(forms, n) && Owner(forms, n) == OwnerFrom(forms, n, h)
    ensures Owner(forms, n) == OwnerFrom(forms, n, Owner(forms, h))
  {
    OwnerIsNearest(forms, h);
    forall k | Owner(forms, h) < k <= h ensures !Above(forms, k, n) {
      assert k < h ==> !Above(forms, k, h);
    }
    OwnerSkip(forms, n, Owner(forms, h), h);
  }

  /** The stack holds the headings open below the last one, `h`. */
  ghost predicate IsStack(stack: seq<nat>, h: nat, forms: seq<Form>, i: nat) {
    && (h == 0 || IsHead(forms, h)) && h <= i && stack == ChainOf(forms, h) && AllOpen(forms, stack, i)
    && forall k :: h < k <= i ==> !IsHead(forms, k)
  }

  /** A heading leaves open what it is below. */
  lemma PushStack(rest: seq<nat>, forms: seq<Form>, n: nat)
    requires IsHead(forms, n) && rest == ChainOf(forms, Owner(forms, n)) && AllOpen(forms, rest, n - 1)
    ensures IsStack(rest + [n], n, forms, n)
    ensures Owner(forms, n) == 0 || IsHead(forms, Owner(forms, n))
  {
    ChainDeepens(forms, n);
  }

  lemma HasTop(blocks: map<nat, Block>, stack: seq<nat>, forms: seq<Form>, lines: seq<string>, i: nat, p: nat)
    requires IsDraft(blocks, forms, lines, stack, i) && (p == 0 || IsHead(forms, p)) && p <= i
    ensures p in blocks
  {
    assert HasBlock(forms, p);
  }

  lemma ReadyToAttach(blocks: map<nat, Block>, rest: seq<nat>, forms: seq<Form>, lines: seq<string>, n: nat)
    requires IsHead(forms, n) && Closing(blocks, rest, Owner(forms, n), n, forms, lines)
    ensures IsDraft(blocks, forms, lines, rest, n - 1) && IsStack(rest + [n], n, forms, n)
    ensures Top(rest) == Owner(forms, n) && Owner(forms, n) in blocks
  {
    PushStack(rest, forms, n);
    TopOfChain(forms, Owner(forms, n));
    HasTop(blocks, rest, forms, lines, n - 1, Owner(forms, n));
  }

  lemma TopOfChain(forms: seq<Form>, h: nat)
    ensures Top(ChainOf(forms, h)) == h && (ChainOf(forms, h) == [] <==> h == 0)
  {}

  lemma HeadLooks(blocks: map<nat, Block>, stack: seq<nat>, forms: seq<Form>, lines: seq<string>, i: nat, h: nat)
    requires IsDraft(blocks, forms, lines, stack, i) && IsHead(forms, h) && h <= i
    ensures h in blocks && blocks[h].form == Some(forms[h - 1]) && blocks[h].form.value.Head? && blocks[h].form.value.depth == Depth(forms, h)
  {
    HasTop(blocks, stack, forms, lines, i, h);
    assert blocks[h] == DraftOf(forms, lines, stack, i, h);
  }

  lemma OwnerFromTop(stack: seq<nat>, h: nat, forms: seq<Form>, n: nat)
    requires 0 < n && IsStack(stack, h, forms, n - 1)
    ensures Owner(forms, n) == OwnerFrom(forms, n, h) && (h == 0 || IsHead(forms, h)) && h < n && stack == ChainOf(forms, h) && AllOpen(forms, stack, n - 1)
  {
    OwnerSkip(forms, n, h, n - 1);
  }

  /** Closing headings at line `n`: those open below `top` are left. */
  ghost predicate Closing(blocks: map<nat, Block>, rest: seq<nat>, top: nat, n: nat, forms: seq<Form>, lines: seq<string>) {
    && 0 < n && top < n && (top == 0 || IsHead(forms, top)) && rest == ChainOf(forms, top)
    && IsDraft(blocks, forms, lines, rest, n - 1) && AllOpen(forms, rest, n - 1)
    && Owner(forms, n) == OwnerFrom(forms, n, top)
  }

  lemma ClosingTop(blocks: map<nat, Block>, rest: seq<nat>, top: nat, n: nat, forms: seq<Form>, lines: seq<string>)
    requires Closing(blocks, rest, top, n, forms, lines)
    ensures Top(rest) == top && (rest == [] <==> top == 0)
  {
    TopOfChain(forms, top);
  }

  lemma OpenIsOwner(forms: seq<Form>, top: nat, n: nat)
    requires IsHead(forms, n) && IsHead(forms, top) && Depth(forms, top) < Depth(forms, n)
    ensures OwnerFrom(forms, n, top) == top
  {}

  method CloseTop(blocks: map<nat, Block>, stack: seq<nat>, n: nat, ghost top: nat, ghost forms: seq<Form>, ghost lines: seq<string>)
    returns (after: map<nat, Block>, rest: seq<nat>)
    requires Closing(blocks, stack, top, n, forms, lines) && IsHead(forms, n) && top != 0 && Ends(forms, top, n)
    ensures Closing(after, rest, Owner(forms, top), n, forms, lines)
  {
    ClosingTop(blocks, stack, top, n, forms, lines);
    HeadLooks(blocks, stack, forms, lines, n - 1, top);
    PopKeepsDraft(blocks, forms, lines, top, n);
    PopKeepsOwner(forms, top, n);
    after := blocks[Top(stack) := blocks[Top(stack)].(end := n - 1)];
    rest := stack[..|stack| - 1];
  }

  /** The parser's own step: close the headings that a heading at line `n` ends. */
  method CloseHeadings(blocks: map<nat, Block>, stack: seq<nat>, n: nat, depth: nat, ghost forms: seq<Form>, ghost lines: seq<string>, ghost h: nat)
    returns (after: map<nat, Block>, rest: seq<nat>)
    requires IsHead(forms, n) && depth == Depth(forms, n)
    requires IsDraft(blocks, forms, lines, stack, n - 1) && IsStack(stack, h, forms, n - 1)
    ensures Closing(after, rest, Owner(forms, n), n, forms, lines)
  {
    after, rest := blocks, stack;
    ghost var top: nat := h;
    OwnerFromTop(stack, h, forms, n);
    ClosingTop(after, rest, top, n, forms, lines);
    while rest != []
      invariant Closing(after, rest, top, n, forms, lines)
      invariant Top(rest) == top && (rest == [] <==> top == 0)
      decreases top
    {
      HeadLooks(after, rest, forms, lines, n - 1, top);
      if after[Top(rest)].form.value.depth < depth {
        OpenIsOwner(forms, top, n);
        return;
      }
      after, rest := CloseTop(after, rest, n, top, forms, lines);
      top := Owner(forms, top);
      ClosingTop(after, rest, top, n, forms, lines);
    }
  }

  function WithPart(b: Block, part: Part): Block {
    b.(parts := b.parts + [part])
  }

  /** A line of text goes to the innermost open heading. */
  lemma TextKeepsDraft(blocks: map<nat, Block>, forms: seq<Form>, lines: seq<string>, stack: seq<nat>, n: nat, p: nat)
    requires 0 < n <= |lines| && IsDraft(blocks, forms, lines, stack, n - 1) && forms[n - 1].Text? && Owner(forms, n) == p && p in blocks
    ensures IsDraft(blocks[p := WithPart(blocks[p], Line(lines[n - 1]))], forms, lines, stack, n)
  {
    var after := blocks[p := WithPart(blocks[p], Line(lines[n - 1]))];
    forall j | j in after ensures after[j] == DraftOf(forms, lines, stack, n, j) {
      assert blocks[j] == DraftOf(forms, lines, stack, n - 1, j);
    }
  }

  function NewBlock(form: Form, line: string, n: nat, p: nat): Block {
    Block(Some(form), line, n, p, [], NoBody)
  }

  lemma NewBlockIsDraft(forms: seq<Form>, lines: seq<string>, stack: seq<nat>, n: nat)
    requires |forms| == |lines| && 0 < n <= |lines| && (IsHead(forms, n) ==> n in stack)
    ensures NewBlock(forms[n - 1], lines[n - 1], n, Owner(forms, n)) == DraftOf(forms, lines, stack, n, n)
  {
    NoPartsYet(forms, lines, n, n);
  }

  /** A structured line becomes a block and a child of the innermost open heading. */
  lemma BlockKeepsDraft(blocks: map<nat, Block>, forms: seq<Form>, lines: seq<string>, stack: seq<nat>, more: seq<nat>, n: nat, p: nat)
    requires 0 < n <= |lines| && IsDraft(blocks, forms, lines, stack, n - 1) && !forms[n - 1].Text? && Owner(forms, n) == p && p in blocks
    requires more == if forms[n - 1].Head? then stack + [n] else stack
    ensures IsDraft(blocks[p := WithPart(blocks[p], Child(n))][n := NewBlock(forms[n - 1], lines[n - 1], n, p)], forms, lines, more, n)
  {
    var after := blocks[p := WithPart(blocks[p], Child(n))][n := NewBlock(forms[n - 1], lines[n - 1], n, p)];
    NewBlockIsDraft(forms, lines, more, n);
    forall j | j in after && j != n ensures j <= |lines| && after[j] == DraftOf(forms, lines, more, n, j) {
      OldBlockIsDraft(blocks, forms, lines, stack, more, n, p, j);
    }
  }

  lemma OldBlockIsDraft(blocks: map<nat, Block>, forms: seq<Form>, lines: seq<string>, stack: seq<nat>, more: seq<nat>, n: nat, p: nat, j: nat)
    requires 0 < n <= |lines| && IsDraft(blocks, forms, lines, stack, n - 1) && !forms[n - 1].Text? && Owner(forms, n) == p && p in blocks
    requires more == (if forms[n - 1].Head? then stack + [n] else stack) && j in blocks && j != n
    ensures j <= |lines| && blocks[p := WithPart(blocks[p], Child(n))][j] == DraftOf(forms, lines, more, n, j)
  {
    assert blocks[j] == DraftOf(forms, lines, stack, n - 1, j);
    assert j in more <==> j in stack;
  }

  /** Without a heading since `h`, the next line that is no heading belongs to `h`. */
  lemma OwnerIsLast(forms: seq<Form>, h: nat, n: nat)
    requires (h == 0 || IsHead(forms, h)) && h < n && !IsHead(forms, n) && forall k :: h < k < n ==> !IsHead(forms, k)
    ensures Owner(forms, n) == h
  {
    OwnerSkip(forms, n, h, n - 1);
  }

  lemma FormsStep(family: Family, s: Scan, forms: seq<Form>, lines: seq<string>, i: nat)
    requires i < |lines| == |forms| && forms[i..] == FormsFrom(family, s, lines[i..])
    ensures forms[i] == FormOf(family, s, lines[i])
    ensures forms[i + 1..] == FormsFrom(family, ScanAfter(family, s, lines[i]), lines[i + 1..])
  {
    assert lines[i..][1..] == lines[i + 1..];
    assert forms[i..][1..] == forms[i + 1..];
    assert forms[i] == forms[i..][0];
  }

  /** A line that is no heading belongs to the innermost open heading and closes none. */
  lemma SameStack(stack: seq<nat>, h: nat, forms: seq<Form>, n: nat)
    requires 0 < n && IsStack(stack, h, forms, n - 1) && !IsHead(forms, n)
    ensures IsStack(stack, h, forms, n) && Top(stack) == Owner(forms, n) == h
  {
    TopOfChain(forms, h);
    OwnerIsLast(forms, h, n);
  }

  /** One line that is no heading. */
  method AddLine(blocks: map<nat, Block>, stack: seq<nat>, n: nat, line: string, form: Form, ghost h: nat, ghost forms: seq<Form>, ghost lines: seq<string>)
    returns (after: map<nat, Block>)
    requires 0 < n <= |lines| && IsDraft(blocks, forms, lines, stack, n - 1) && IsStack(stack, h, forms, n - 1)
    requires form == forms[n - 1] && line == lines[n - 1] && !form.Head?
    ensures IsDraft(after, forms, lines, stack, n) && IsStack(stack, h, forms, n)
  {
    var parent := Top(stack);
    SameStack(stack, h, forms, n);
    HasTop(blocks, stack, forms, lines, n - 1, parent);
    if form.Text? {
      TextKeepsDraft(blocks, forms, lines, stack, n, parent);
      after := blocks[parent := WithPart(blocks[parent], Line(line))];
    } else {
      BlockKeepsDraft(blocks, forms, lines, stack, stack, n, parent);
      after := blocks[parent := WithPart(blocks[parent], Child(n))][n := NewBlock(form, line, n, parent)];
    }
  }

  method AttachHeading(blocks: map<nat, Block>, rest: seq<nat>, n: nat, line: string, form: Form, ghost forms: seq<Form>, ghost lines: seq<string>)
    returns (after: map<nat, Block>)
    requires 0 < n <= |lines| && IsDraft(blocks, forms, lines, rest, n - 1) && form == forms[n - 1] && line == lines[n - 1] && form.Head?
    requires Top(rest) == Owner(forms, n) && Top(rest) in blocks
    ensures IsDraft(after, forms, lines, rest + [n], n)
  {
    var parent := Top(rest);
    BlockKeepsDraft(blocks, forms, lines, rest, rest + [n], n, parent);
    after := blocks[parent := WithPart(blocks[parent], Child(n))][n := NewBlock(form, line, n, parent)];
  }

  /** One heading: it closes what it ends, joins its owner and is open itself. */
  method AddHeading(blocks: map<nat, Block>, stack: seq<nat>, n: nat, line: string, form: Form, ghost h: nat, ghost forms: seq<Form>, ghost lines: seq<string>)
    returns (after: map<nat, Block>, more: seq<nat>)
    requires 0 < n <= |lines| && IsDraft(blocks, forms, lines, stack, n - 1) && IsStack(stack, h, forms, n - 1)
    requires form == forms[n - 1] && line == lines[n - 1] && form.Head?
    ensures IsDraft(after, forms, lines, more, n) && IsStack(more, n, forms, n)
  {
    var closed, rest := CloseHeadings(blocks, stack, n, form.depth, forms, lines, h);
    ReadyToAttach(closed, rest, forms, lines, n);
    after := AttachHeading(closed, rest, n, line, form, forms, lines);
    more := rest + [n];
  }

  method AddForm(blocks: map<nat, Block>, stack: seq<nat>, n: nat, line: string, form: Form, ghost h: nat, ghost forms: seq<Form>, ghost lines: seq<string>)
    returns (after: map<nat, Block>, more: seq<nat>, ghost last: nat)
    requires 0 < n <= |lines| && IsDraft(blocks, forms, lines, stack, n - 1) && IsStack(stack, h, forms, n - 1)
    requires form == forms[n - 1] && line == lines[n - 1]
    ensures IsDraft(after, forms, lines, more, n) && IsStack(more, last, forms, n)
  {
    if form.Head? {
      after, more := AddHeading(blocks, stack, n, line, form, h, forms, lines);
      last := n;
    } else {
      after := AddLine(blocks, stack, n, line, form, h, forms, lines);
      more, last := stack, h;
    }
  }

  /** One pass over the lines, with a stack of open headings. */
  method ParseLines(family: Family, lines: seq<string>) returns (blocks: map<nat, Block>, stack: seq<nat>)
    ensures IsDraft(blocks, Forms(family, lines), lines, stack, |lines|) && AllOpen(Forms(family, lines), stack, |lines|)
  {
    ghost var forms := Forms(family, lines);
    blocks := map[0 := Block(None, "", |lines|, 0, [], NoBody)];
    stack := [];
    var scan := START;
    var i := 0;
    ghost var h: nat := 0;
    NothingParsed(family, forms, lines);
    while i < |lines|
      invariant 0 <= i <= |lines|
      invariant forms[i..] == FormsFrom(family, scan, lines[i..])
      invariant IsDraft(blocks, forms, lines, stack, i) && IsStack(stack, h, forms, i)
    {
      FormsStep(family, scan, forms, lines, i);
      var line, form := lines[i], FormOf(family, scan, lines[i]);
      blocks, stack, h := AddForm(blocks, stack, i + 1, line, form, h, forms, lines);
      scan := ScanAfter(family, scan, line);
      i := i + 1;
    }
    StackIsOpen(stack, h, forms, i);
  }

  lemma NothingParsed(family: Family, forms: seq<Form>, lines: seq<string>)
    requires forms == Forms(family, lines)
    ensures forms[0..] == FormsFrom(family, START, lines[0..])
    ensures IsDraft(map[0 := Block(None, "", |lines|, 0, [], NoBody)], forms, lines, [], 0) && IsStack([], 0, forms, 0)
  {
    assert lines[0..] == lines;
  }

  lemma StackIsOpen(stack: seq<nat>, h: nat, forms: seq<Form>, n: nat)
    requires IsStack(stack, h, forms, n)
    ensures AllOpen(forms, stack, n)
  {}

  /** Every block has its end and its parts; those before line `k` have their bodies. */
  ghost predicate IsClosed(blocks: map<nat, Block>, forms: seq<Form>, lines: seq<string>, k: nat) {
    && |forms| == |lines|
    && (forall j: nat :: j in blocks <==> HasBlock(forms, j))
    && forall j :: j in blocks ==> j <= |lines| && blocks[j] == WithBody(forms, lines, j, if j < k then BodyOf(forms, j) else NoBody)
  }

  /** The named blocks end at line `n`. */
  method EndBlocks(blocks: map<nat, Block>, stack: seq<nat>, n: nat) returns (after: map<nat, Block>)
    requires forall s :: s in stack ==> s in blocks
    ensures forall j :: j in after <==> j in blocks
    ensures forall j :: j in blocks ==> after[j] == if j in stack then blocks[j].(end := n) else blocks[j]
  {
    after := blocks;
    var i := 0;
    while i < |stack|
      invariant 0 <= i <= |stack|
      invariant forall j :: j in after <==> j in blocks
      invariant forall j :: j in blocks ==> after[j] == if j in stack[..i] then blocks[j].(end := n) else blocks[j]
    {
      assert stack[i] in stack;
      assert stack[..i + 1] == stack[..i] + [stack[i]];
      after := after[stack[i] := after[stack[i]].(end := n)];
      i := i + 1;
    }
    assert stack[..i] == stack;
  }

  /** What is still open at the end of the document ends there. */
  method CloseAll(blocks: map<nat, Block>, stack: seq<nat>, ghost forms: seq<Form>, lines: seq<string>) returns (after: map<nat, Block>)
    requires IsDraft(blocks, forms, lines, stack, |lines|) && AllOpen(forms, stack, |lines|)
    ensures IsClosed(after, forms, lines, 0)
  {
    forall s | s in stack ensures s in blocks {
      HasTop(blocks, stack, forms, lines, |lines|, s);
    }
    after := EndBlocks(blocks, stack, |lines|);
    forall j | j in blocks ensures j <= |lines| && after[j] == WithBody(forms, lines, j, NoBody) {
      ClosedBlock(blocks, stack, forms, lines, j);
    }
  }

  lemma ClosedBlock(blocks: map<nat, Block>, stack: seq<nat>, forms: seq<Form>, lines: seq<string>, j: nat)
    requires IsDraft(blocks, forms, lines, stack, |lines|) && AllOpen(forms, stack, |lines|) && j in blocks
    ensures j <= |lines|
    ensures (if j in stack then blocks[j].(end := |lines|) else blocks[j]) == WithBody(forms, lines, j, NoBody)
  {
    if j in stack {
      EndIs(forms, j, |lines|);
    }
  }

  /** The first child that is a heading; 0 if none is. */
  function FirstHead(forms: seq<Form>, parts: seq<Part>): nat {
    if parts == [] then 0
    else if parts[0].Child? && IsHead(forms, parts[0].line) then parts[0].line
    else FirstHead(forms, parts[1..])
  }

  lemma {:induction false} FirstHeadAppend(forms: seq<Form>, parts: seq<Part>, more: seq<Part>)
    ensures FirstHead(forms, parts + more) == if FirstHead(forms, parts) != 0 then FirstHead(forms, parts) else FirstHead(forms, more)
  {
    if parts == [] {
      assert parts + more == more;
    } else {
      FirstHeadAppend(forms, parts[1..], more);
      assert (parts + more)[1..] == parts[1..] + more;
    }
  }

  /** With no heading in between, what a heading does not end belongs to it. */
  lemma OwnedIfOpen(forms: seq<Form>, j: nat, h: nat)
    requires j < h && (j == 0 || Above(forms, j, h)) && forall k :: j < k < h ==> !IsHead(forms, k)
    ensures Owner(forms, h) == j
  {
    OwnerSkip(forms, h, j, h - 1);
  }

  /** The first heading after a block is its child, if it lies in the block. */
  lemma NextHeadIsOwned(forms: seq<Form>, j: nat)
    requires j <= |forms| && (j == 0 || IsHead(forms, j)) && NextHead(forms, j + 1) <= EndOf(forms, j)
    ensures Owner(forms, NextHead(forms, j + 1)) == j
  {
    NoHeadBefore(forms, j + 1);
    if j > 0 {
      SpanIsOpen(forms, j);
      assert !Ends(forms, j, NextHead(forms, j + 1));
    }
    OwnedIfOpen(forms, j, NextHead(forms, j + 1));
  }

  /** A heading owns nothing from the heading that ends it on. */
  lemma EndedOwnsNone(forms: seq<Form>, j: nat, h: nat, b: nat)
    requires IsHead(forms, j) && Ends(forms, j, h) && j < h <= b
    ensures Owner(forms, b) != j
  {
    OwnerIsNearest(forms, b);
    if h < b && Above(forms, j, b) {
      assert Above(forms, h, b);
    }
  }

  /** Otherwise the block ends before it and owns nothing from there on. */
  lemma NextHeadIsForeign(forms: seq<Form>, j: nat, b: nat)
    requires IsHead(forms, j) && EndOf(forms, j) < NextHead(forms, j + 1) <= b <= |forms|
    ensures Owner(forms, b) != j
  {
    EndedOwnsNone(forms, j, EndOf(forms, j) + 1, b);
  }

  lemma {:induction false} FirstHeadIsNext(forms: seq<Form>, lines: seq<string>, j: nat, b: nat)
    requires |forms| == |lines| && b <= |lines| && j <= |lines| && (j == 0 || IsHead(forms, j))
    ensures var h := NextHead(forms, j + 1);
            FirstHead(forms, PartsOf(forms, lines, j, 1, b)) == if h <= b && h <= EndOf(forms, j) then h else 0
    decreases b
  {
    if b > 0 {
      FirstHeadIsNext(forms, lines, j, b - 1);
      NoHeadBefore(forms, j + 1);
      var h := NextHead(forms, j + 1);
      if h <= EndOf(forms, j) {
        NextHeadIsOwned(forms, j);
      } else if j > 0 && h <= b {
        NextHeadIsForeign(forms, j, b);
      }
      var parts := PartsOf(forms, lines, j, 1, b - 1);
      var last := if Owner(forms, b) == j then [PartAt(forms, lines, b)] else [];
      FirstHeadAppend(forms, parts, last);
      assert last != [] ==> last[1..] == [];
    }
  }

  method FindFirstHead(blocks: map<nat, Block>, parts: seq<Part>, ghost forms: seq<Form>) returns (h: nat)
    requires forall p :: p in parts && p.Child? ==> p.line in blocks && 0 < p.line <= |forms| && blocks[p.line].form == Some(forms[p.line - 1])
    ensures h == FirstHead(forms, parts)
  {
    var i := 0;
    assert parts[0..] == parts;
    while i < |parts|
      invariant 0 <= i <= |parts| && FirstHead(forms, parts) == FirstHead(forms, parts[i..])
    {
      assert parts[i] in parts && parts[i..][1..] == parts[i + 1..];
      if parts[i].Child? && blocks[parts[i].line].form.value.Head? {
        return parts[i].line;
      }
      i := i + 1;
    }
    return 0;
  }

  lemma {:induction false} PartsAreBlocks(forms: seq<Form>, lines: seq<string>, j: nat, b: nat)
    requires |forms| == |lines| && b <= |lines|
    ensures forall p :: p in PartsOf(forms, lines, j, 1, b) && p.Child? ==> 0 < p.line <= b && HasBlock(forms, p.line)
    decreases b
  {
    if b > 0 {
      PartsAreBlocks(forms, lines, j, b - 1);
    }
  }

  /** So a body ends before the first child heading, or with the block. */
  lemma BodyFromParts(forms: seq<Form>, lines: seq<string>, j: nat)
    requires |forms| == |lines| && j <= |lines| && (j == 0 || IsHead(forms, j))
    ensures var h := FirstHead(forms, PartsOf(forms, lines, j, 1, |lines|));
            var last := if h != 0 then h - 1 else EndOf(forms, j);
            BodyOf(forms, j) == if j + 1 <= last then Body(j + 1, last) else NoBody
  {
    FirstHeadIsNext(forms, lines, j, |lines|);
    NoHeadBefore(forms, j + 1);
    var h := NextHead(forms, j + 1);
    assert h > EndOf(forms, j) ==> EndOf(forms, j) == h - 1;
  }

  lemma StepClosed(blocks: map<nat, Block>, forms: seq<Form>, lines: seq<string>, j: nat)
    requires IsClosed(blocks, forms, lines, j) && j <= |lines|
    ensures j in blocks && (j == 0 || IsHead(forms, j)) ==> IsClosed(blocks[j := blocks[j].(body := BodyOf(forms, j))], forms, lines, j + 1)
    ensures j !in blocks || !(j == 0 || IsHead(forms, j)) ==> IsClosed(blocks, forms, lines, j + 1)
  {}

  /** The body of every document and heading block. */
  method Finalize(blocks: map<nat, Block>, ghost forms: seq<Form>, lines: seq<string>) returns (after: map<nat, Block>)
    requires IsClosed(blocks, forms, lines, 0)
    ensures IsIndex(after, forms, lines)
  {
    after := blocks;
    var j := 0;
    while j <= |lines|
      invariant 0 <= j <= |lines| + 1
      invariant IsClosed(after, forms, lines, j)
    {
      StepClosed(after, forms, lines, j);
      if j in after && (j == 0 || after[j].form.value.Head?) {
        var body := FindBody(after, j, forms, lines);
        after := after[j := after[j].(body := body)];
      }
      j := j + 1;
    }
  }

  method FindBody(blocks: map<nat, Block>, j: nat, ghost forms: seq<Form>, ghost lines: seq<string>) returns (body: Body)
    requires j <= |lines| && IsClosed(blocks, forms, lines, j) && j in blocks && (j == 0 || IsHead(forms, j))
    ensures body == BodyOf(forms, j)
  {
    PartsAreBlocks(forms, lines, j, |lines|);
    BodyFromParts(forms, lines, j);
    var h := FindFirstHead(blocks, blocks[j].parts, forms);
    var last := if h != 0 then h - 1 else blocks[j].end;
    body := if j + 1 <= last then Body(j + 1, last) else NoBody;
  }

  /** The index of a document. */
  method ParseDocument(family: Family, lines: seq<string>) returns (blocks: map<nat, Block>)
    ensures IsIndex(blocks, Forms(family, lines), lines)
  {
    var stack;
    blocks, stack := ParseLines(family, lines);
    ghost var forms := Forms(family, lines);
    blocks := CloseAll(blocks, stack, forms, lines);
    blocks := Finalize(blocks, forms, lines);
  }
}
