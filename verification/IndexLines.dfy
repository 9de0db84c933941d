/** What the parser makes of each line, told from the lines themselves. */
module IndexLines {
  import opened Common
  import opened Paths
  import opened Lines
  import opened Edges
  import opened Fences
  import opened LineGrammar
  import opened Index
  import opened IndexProofs

  /** What the parser remembers before line `i`. */
  function StateAt(family: Family, lines: seq<string>, i: nat): Scan
    requires i <= |lines|
  {
    if i == 0 then START else ScanAfter(family, StateAt(family, lines, i - 1), lines[i - 1])
  }

  lemma {:induction false} FormsAt(family: Family, lines: seq<string>, i: nat)
    requires i <= |lines|
    ensures Forms(family, lines)[i..] == FormsFrom(family, StateAt(family, lines, i), lines[i..])
  {
    if i == 0 {
      assert lines[0..] == lines;
    } else {
      FormsAt(family, lines, i - 1);
      FormsStep(family, StateAt(family, lines, i - 1), Forms(family, lines), lines, i - 1);
    }
  }

  lemma FormIs(family: Family, lines: seq<string>, i: nat)
    requires i < |lines|
    ensures Forms(family, lines)[i] == FormOf(family, StateAt(family, lines, i), lines[i])
  {
    FormsAt(family, lines, i);
    FormsStep(family, StateAt(family, lines, i), Forms(family, lines), lines, i);
  }

  /** The parser's fence state is the open block. */
  lemma {:induction false} FenceState(family: Family, lines: seq<string>, i: nat)
    requires i <= |lines|
    ensures IsOpenFence(lines, i, StateAt(family, lines, i).fence)
  {
    if i > 0 {
      FenceState(family, lines, i - 1);
      FenceStep(lines, i - 1, StateAt(family, lines, i - 1).fence);
    }
  }

  // ---------- focus headings and old fields ----------

  lemma LowerMeans(c: char)
    ensures Lower(c) as int == if 65 <= c as int <= 90 then c as int + 32 else c as int
  {}

  /** Two number signs, white space, the word in any case, white space. */
  ghost predicate IsFocusText(line: string, a: string, word: string, b: string) {
    line == "##" + a + word + b && a != [] && AllSpace(a) && AllSpace(b) && SameIgnoringCase(word, "Focus")
  }

  lemma FocusWord(word: string)
    requires SameIgnoringCase(word, "Focus")
    ensures |word| == 5 && !IsSpace(word[0]) && !IsSpace(word[4])
  {
    assert Lower(word[0]) == 'f' && Lower(word[4]) == 's';
  }

  lemma FocusTextIs(line: string, a: string, word: string, b: string)
    requires IsFocusText(line, a, word, b)
    ensures IsFocusHeading(line)
  {
    var next := 2 + |a|;
    FocusWord(word);
    assert forall k :: 2 <= k < next ==> line[k] == a[k - 2];
    assert line[next] == word[0] && line[next..] == word + b;
    SkipStops(c => c == '#', line, 0, 2);
    SkipSpaces(line, 2, next);
    assert word + b == "" + word + b;
    StripAround(line[next..], "", word, b);
  }

  lemma AllTogether(line: string, next: nat, before: string, word: string, after: string)
    requires 2 <= next <= |line| && line[..2] == "##" && line[next..] == before + word + after
    ensures line == "##" + (line[2..next] + before) + word + after
  {
    assert line == line[..2] + line[2..next] + line[next..];
  }

  lemma FocusMarks(line: string, next: nat)
    requires HeadingOf(line) == Some(Heading(2, next))
    ensures 2 < next <= |line| && line[..2] == "##" && AllSpace(line[2..next])
  {
    HeadingMeans(line, 2);
  }

  lemma FocusIsText(line: string) returns (a: string, word: string, b: string)
    requires IsFocusHeading(line)
    ensures IsFocusText(line, a, word, b)
  {
    var next := HeadingOf(line).value.next;
    FocusMarks(line, next);
    var rest := line[next..];
    a, word, b := FocusRest(line, next, rest);
  }

  lemma FocusRest(line: string, next: nat, rest: string) returns (a: string, word: string, b: string)
    requires 2 < next <= |line| && line[..2] == "##" && AllSpace(line[2..next]) && rest == line[next..] && SameIgnoringCase(Strip(rest), "Focus")
    ensures IsFocusText(line, a, word, b)
  {
    var before;
    before, b := StripParts(rest);
    word := Strip(rest);
    a := line[2..next] + before;
    AllTogether(line, next, before, word, b);
  }

  /** A focus heading has depth two and the title `Focus` in any case. */
  lemma FocusHeadingMeans(line: string)
    ensures IsFocusHeading(line) <==> exists a, word, b :: IsFocusText(line, a, word, b)
  {
    if IsFocusHeading(line) {
      var a, word, b := FocusIsText(line);
    }
    forall a, word, b | IsFocusText(line, a, word, b) ensures IsFocusHeading(line) {
      FocusTextIs(line, a, word, b);
    }
  }

  /** White space, then a word in any case. */
  ghost predicate BeginsWith(line: string, word: string) {
    exists a, w, rest :: line == a + w + rest && AllSpace(a) && SameIgnoringCase(w, word)
  }

  lemma BeginsIs(line: string, word: string, a: string, w: string, rest: string)
    requires word != [] && word[0] == '*' && line == a + w + rest && AllSpace(a) && SameIgnoringCase(w, word)
    ensures StartsIgnoringCase(line, Skip(IsSpace, line, 0), word)
  {
    assert Lower(w[0]) == '*';
    assert forall k :: 0 <= k < |a| ==> line[k] == a[k];
    assert line[|a|] == w[0];
    SkipSpaces(line, 0, |a|);
    assert line[|a|..|a| + |w|] == w;
  }

  lemma BeginsMeans(line: string, word: string)
    requires word != [] && word[0] == '*'
    ensures StartsIgnoringCase(line, Skip(IsSpace, line, 0), word) <==> BeginsWith(line, word)
  {
    var i := Skip(IsSpace, line, 0);
    if StartsIgnoringCase(line, i, word) {
      Rejoin(line, i, i + |word|);
    }
    forall a, w, rest | line == a + w + rest && AllSpace(a) && SameIgnoringCase(w, word) ensures StartsIgnoringCase(line, i, word) {
      BeginsIs(line, word, a, w, rest);
    }
  }

  /** The old fields of a pursuit. */
  lemma LegacyFieldMeans(line: string)
    ensures IsLegacyField(line) <==> BeginsWith(line, "**state:**") || BeginsWith(line, "**next:**") || BeginsWith(line, "**done when:**") || BeginsWith(line, "**status:**")
    ensures IsLegacyNext(line) <==> BeginsWith(line, "**next:**")
  {
    BeginsMeans(line, "**state:**");
    BeginsMeans(line, "**next:**");
    BeginsMeans(line, "**done when:**");
    BeginsMeans(line, "**status:**");
    assert LEGACY_FIELDS[0] == "**state:**" && LEGACY_FIELDS[1] == "**next:**" && LEGACY_FIELDS[2] == "**done when:**" && LEGACY_FIELDS[3] == "**status:**";
  }

  // ---------- headings, focus and legacy fields ----------

  ghost predicate IsHeading(lines: seq<string>, i: nat) {
    IsPlain(lines, i) && HeadingOf(lines[i]).Some?
  }

  function DepthOf(line: string): nat {
    if HeadingOf(line).Some? then HeadingOf(line).value.depth else 0
  }

  ghost predicate IsField(lines: seq<string>, i: nat) {
    IsPlain(lines, i) && HeadingOf(lines[i]).None? && IsLegacyField(lines[i])
  }

  /** The last line before `i` that is of the first kind is of the second, too. */
  ghost predicate LastIs(p: nat -> bool, q: nat -> bool, i: nat) {
    exists k: nat :: k < i && p(k) && q(k) && NoneBetween(p, k, i)
  }

  ghost predicate NoneBetween(p: nat -> bool, k: nat, i: nat) {
    forall b: nat :: k < b < i ==> !p(b)
  }

  lemma {:induction false} LastStep(p: nat -> bool, q: nat -> bool, i: nat)
    ensures LastIs(p, q, i + 1) <==> if p(i) then q(i) else LastIs(p, q, i)
  {
    if LastIs(p, q, i + 1) {
      var k: nat :| k < i + 1 && p(k) && q(k) && NoneBetween(p, k, i + 1);
      assert NoneBetween(p, k, i);
    }
    if p(i) {
      assert NoneBetween(p, i, i + 1);
    } else if LastIs(p, q, i) {
      var k: nat :| k < i && p(k) && q(k) && NoneBetween(p, k, i);
      assert NoneBetween(p, k, i + 1);
    }
  }

  ghost function TopHeadings(lines: seq<string>): nat -> bool {
    (k: nat) => IsHeading(lines, k) && DepthOf(lines[k]) <= 2
  }

  function FocusHeadings(lines: seq<string>): nat -> bool {
    (k: nat) => k < |lines| && IsFocusHeading(lines[k])
  }

  ghost function FieldsAndHeadings(lines: seq<string>): nat -> bool {
    (k: nat) => IsHeading(lines, k) || IsField(lines, k)
  }

  ghost function NextFields(lines: seq<string>): nat -> bool {
    (k: nat) => IsField(lines, k) && IsLegacyNext(lines[k])
  }

  /** The last heading of depth one or two is a focus heading. */
  ghost predicate InFocus(lines: seq<string>, i: nat) {
    LastIs(TopHeadings(lines), FocusHeadings(lines), i)
  }

  /** The last heading or legacy field is a `Next` field. */
  ghost predicate InNext(lines: seq<string>, i: nat) {
    LastIs(FieldsAndHeadings(lines), NextFields(lines), i)
  }

  /** `s` is what the lines before line `i` determine; memory documents have no focus or fields. */
  ghost predicate IsStateAt(family: Family, lines: seq<string>, i: nat, s: Scan) {
    && (s.fence.Some? <==> InFence(lines, i))
    && (s.inFocus <==> family == Pursuit && InFocus(lines, i))
    && (s.inNext <==> family == Pursuit && InNext(lines, i))
  }

  lemma PlainIs(family: Family, lines: seq<string>, i: nat, s: Scan)
    requires i < |lines| && IsStateAt(family, lines, i, s)
    ensures IsPlain(lines, i) <==> FenceOf(lines[i]).None? && s.fence.None?
  {}

  lemma FocusStep(family: Family, lines: seq<string>, i: nat, s: Scan)
    requires i < |lines| && IsStateAt(family, lines, i, s)
    ensures ScanAfter(family, s, lines[i]).inFocus <==> family == Pursuit && InFocus(lines, i + 1)
  {
    PlainIs(family, lines, i, s);
    LastStep(TopHeadings(lines), FocusHeadings(lines), i);
  }

  lemma NextStep(family: Family, lines: seq<string>, i: nat, s: Scan)
    requires i < |lines| && IsStateAt(family, lines, i, s)
    ensures ScanAfter(family, s, lines[i]).inNext <==> family == Pursuit && InNext(lines, i + 1)
  {
    PlainIs(family, lines, i, s);
    LastStep(FieldsAndHeadings(lines), NextFields(lines), i);
  }

  /** All of the parser's state before line `i` is determined by the lines before it. */
  lemma {:induction false} StateMeans(family: Family, lines: seq<string>, i: nat)
    requires i <= |lines|
    ensures IsStateAt(family, lines, i, StateAt(family, lines, i))
  {
    if i == 0 {
      StartMeans(family, lines);
    } else {
      StateMeans(family, lines, i - 1);
      StateOneMore(family, lines, i - 1);
    }
  }

  lemma StateOneMore(family: Family, lines: seq<string>, i: nat)
    requires i < |lines| && IsStateAt(family, lines, i, StateAt(family, lines, i))
    ensures IsStateAt(family, lines, i + 1, StateAt(family, lines, i + 1))
  {
    FenceStateMeans(family, lines, i + 1);
    StateFollows(family, lines, i, StateAt(family, lines, i), StateAt(family, lines, i + 1));
  }

  lemma FenceStateMeans(family: Family, lines: seq<string>, i: nat)
    requires i <= |lines|
    ensures StateAt(family, lines, i).fence.Some? <==> InFence(lines, i)
  {
    FenceState(family, lines, i);
    OpenFenceIsIn(lines, i, StateAt(family, lines, i).fence);
  }

  lemma StartMeans(family: Family, lines: seq<string>)
    ensures IsStateAt(family, lines, 0, START)
  {}

  lemma StateFollows(family: Family, lines: seq<string>, i: nat, s: Scan, t: Scan)
    requires i < |lines| && IsStateAt(family, lines, i, s) && t == ScanAfter(family, s, lines[i]) && (t.fence.Some? <==> InFence(lines, i + 1))
    ensures IsStateAt(family, lines, i + 1, t)
  {
    FocusStep(family, lines, i, s);
    NextStep(family, lines, i, s);
  }

  // ---------- the form of every line ----------

  /** A list item that begins with a valid id in a code span and ends with an edge list. */
  predicate IsNodeLine(line: string) {
    IsNodeCandidate(line) && IsId(NodeStartOf(line).value.id) && NodeListOf(line).Some?
  }

  /** A list item that begins with a valid id in a code span. */
  predicate IsReferenceLine(line: string) {
    IsNodeCandidate(line) && IsId(NodeStartOf(line).value.id)
  }

  /** In a pursuit document, list items belong to the focus list, or to an old `Next` field, or are fields themselves. */
  ghost predicate IsTaken(lines: seq<string>, i: nat) {
    i < |lines| && (IsField(lines, i) || InFocus(lines, i) || InNext(lines, i))
  }

  /**
   What each line of a document is: a heading where a heading line stands outside
   of every fenced block, a focus reference or a node where one stands outside of
   fences and headings, and text everywhere else.
   */
  lemma FormsMean(family: Family, lines: seq<string>, i: nat)
    requires i < |lines|
    ensures var form := Forms(family, lines)[i];
            && (form.Head? <==> IsHeading(lines, i))
            && (form.Head? ==> form == HeadForm(lines[i]) && form.depth == DepthOf(lines[i]))
            && (form.Focus? <==> family == Pursuit && IsPlain(lines, i) && !IsHeading(lines, i) && !IsField(lines, i) && InFocus(lines, i) && IsReferenceLine(lines[i]))
            && (form.Focus? ==> form.target == NodeStartOf(lines[i]).value.id)
            && (form.Node? <==> IsPlain(lines, i) && !IsHeading(lines, i) && IsNodeLine(lines[i]) && !(family == Pursuit && IsTaken(lines, i)))
            && (form.Node? ==> form.id == NodeStartOf(lines[i]).value.id && form.edges == LineEdges(lines[i]))
  {
    FormIs(family, lines, i);
    StateMeans(family, lines, i);
  }

  /** An addressed heading shows the kind, the id and the edges of its anchor. */
  lemma HeadsMean(line: string)
    requires HeadingOf(line).Some?
    ensures var form := HeadForm(line);
            && (AnchorOf(line).Some? ==> form.kind == Some(AnchorOf(line).value.anchor.kind) && form.address == Some(AnchorOf(line).value.anchor.id) && form.edges == LineEdges(line))
            && (AnchorOf(line).None? ==> form.edges == [])
            && (AnchorOf(line).None? && FindCandidate(line, HeadingOf(line).value.next).None? ==> form.kind == None && form.address == None)
            && (AnchorOf(line).None? && FindCandidate(line, HeadingOf(line).value.next).Some? ==>
                 var c := FindCandidate(line, HeadingOf(line).value.next).value;
                 form.kind == Some(c.kind) && (form.address == Some(c.id) <==> IsId(c.id)) && (form.address == None <==> !IsId(c.id)))
            && (form.address.Some? ==> form.kind.Some? && IsId(form.address.value))
  {
    if AnchorOf(line).Some? {
      FoundIsId(line, HeadingOf(line).value.next);
    }
  }

  lemma {:induction false} FoundIsId(line: string, p: nat)
    requires FindAnchor(line, p).Some?
    ensures IsId(FindAnchor(line, p).value.anchor.id)
    decreases |line| - p
  {
    if MatchAt(line, p).Some? {
      AnchorIdIsId(line, p);
    } else {
      FoundIsId(line, p + 1);
    }
  }

  lemma AnchorIdIsId(line: string, p: nat)
    requires AnchorAt(line, p).Some?
    ensures IsId(AnchorAt(line, p).value.id)
  {
    var (kind, n) := KindAt(line, p + 1);
    var i := p + 1 + n;
    var j := Skip(IsIdChar, line, i);
    assert forall k :: 0 <= k < j - i ==> line[i..j][k] == line[i + k];
  }

  // ---------- spans and bodies, on the lines ----------
  // Blocks are numbered from 1, so the block at `j` begins with `lines[j - 1]`.

  lemma HeadIsHeading(family: Family, lines: seq<string>, j: nat)
    requires 0 < j <= |lines|
    ensures IsHead(Forms(family, lines), j) <==> IsHeading(lines, j - 1)
    ensures IsHead(Forms(family, lines), j) ==> Depth(Forms(family, lines), j) == DepthOf(lines[j - 1])
  {
    FormsMean(family, lines, j - 1);
  }

  /** The block of a heading runs up to the next unfenced heading line with as few or fewer number signs. */
  lemma SpanEndsOnLines(family: Family, lines: seq<string>, blocks: map<nat, Block>, j: nat)
    requires IsIndex(blocks, Forms(family, lines), lines) && 0 < j <= |lines| && IsHeading(lines, j - 1)
    ensures j in blocks
    ensures var e := blocks[j].end;
            && j <= e <= |lines|
            && (forall l: nat :: j <= l < e && IsHeading(lines, l) ==> DepthOf(lines[l]) > DepthOf(lines[j - 1]))
            && (e < |lines| ==> IsHeading(lines, e) && DepthOf(lines[e]) <= DepthOf(lines[j - 1]))
  {
    var forms := Forms(family, lines);
    HeadIsHeading(family, lines, j);
    assert HasBlock(forms, j);
    SpanEnds(blocks, forms, lines, j);
    SpanMeans(family, lines, j, blocks[j].end);
  }

  lemma SpanMeans(family: Family, lines: seq<string>, j: nat, e: nat)
    requires 0 < j <= e <= |lines| && IsHeading(lines, j - 1)
    requires var forms := Forms(family, lines);
             && (forall l :: j < l <= e && IsHead(forms, l) ==> Depth(forms, l) > Depth(forms, j))
             && (e < |lines| ==> IsHead(forms, e + 1) && Depth(forms, e + 1) <= Depth(forms, j))
    ensures forall l: nat :: j <= l < e && IsHeading(lines, l) ==> DepthOf(lines[l]) > DepthOf(lines[j - 1])
    ensures e < |lines| ==> IsHeading(lines, e) && DepthOf(lines[e]) <= DepthOf(lines[j - 1])
  {
    HeadIsHeading(family, lines, j);
    forall l: nat | j <= l < e && IsHeading(lines, l) ensures DepthOf(lines[l]) > DepthOf(lines[j - 1]) {
      HeadIsHeading(family, lines, l + 1);
    }
    if e < |lines| {
      HeadIsHeading(family, lines, e + 1);
    }
  }

  /** A line that is no heading is in the body of exactly one block: that of the nearest heading line before it, or of the document. */
  lemma BodiesOnLines(family: Family, lines: seq<string>, blocks: map<nat, Block>, i: nat)
    requires IsIndex(blocks, Forms(family, lines), lines) && 0 < i <= |lines| && !IsHeading(lines, i - 1)
    ensures forall j :: j in blocks ==>
      (InBody(blocks[j].body, i) <==> j < i && (j == 0 || IsHeading(lines, j - 1)) && forall l: nat :: j <= l < i - 1 ==> !IsHeading(lines, l))
  {
    var forms := Forms(family, lines);
    HeadIsHeading(family, lines, i);
    BodiesPartition(blocks, forms, lines, i);
    OwnerIsNearest(forms, i);
    forall j | j in blocks
      ensures InBody(blocks[j].body, i) <==> j < i && (j == 0 || IsHeading(lines, j - 1)) && forall l: nat :: j <= l < i - 1 ==> !IsHeading(lines, l)
    {
      NearestHeading(family, lines, i, j);
    }
  }

  lemma NearestHeading(family: Family, lines: seq<string>, i: nat, j: nat)
    requires 0 < i <= |lines| && !IsHeading(lines, i - 1)
    ensures j == Owner(Forms(family, lines), i) <==> j < i && (j == 0 || IsHeading(lines, j - 1)) && forall l: nat :: j <= l < i - 1 ==> !IsHeading(lines, l)
  {
    var forms := Forms(family, lines);
    HeadIsHeading(family, lines, i);
    OwnerIsNearest(forms, i);
    forall k: nat | 0 < k < i ensures Above(forms, k, i) <==> IsHeading(lines, k - 1) {
      HeadIsHeading(family, lines, k);
    }
    if j < i && (j == 0 || IsHeading(lines, j - 1)) && forall l: nat :: j <= l < i - 1 ==> !IsHeading(lines, l) {
      forall k: nat | j < k <= i - 1 ensures !Above(forms, k, i) {
        assert !IsHeading(lines, k - 1);
      }
      OwnerSkip(forms, i, j, i - 1);
    } else if j == Owner(forms, i) {
      forall l: nat | j <= l < i - 1 ensures !IsHeading(lines, l) {
        assert !Above(forms, l + 1, i);
      }
    }
  }
}
