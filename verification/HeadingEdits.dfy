/** Writing an addressed heading, reading it back, and changing its title. */
module HeadingEdits {
  import opened Common
  import opened Lines
  import opened TextLines
  import opened Edges
  import opened Index
  import opened Fences
  import opened LineGrammar

  /** What a reader takes from an addressed heading. */
  datatype Addressable = Addressable(depth: nat, title: string, kind: AnchorKind, id: string, edges: seq<Edge>, malformed: seq<string>)

  const KNOWN_EDGES := {"dep", "emb", "bak", "agg", "ver", "ext", "up", "rel", "loc", "run", "cfg", "out", "in", "doc", "todo"}

  // ---------- reading ----------

  /** Where the first anchor from `p` on stands. */
  function AnchorPlace(line: string, p: nat): (r: nat)
    ensures p <= r && (r < |line| ==> MatchAt(line, r).Some?)
    decreases |line| - p
  {
    if p >= |line| || MatchAt(line, p).Some? then p else AnchorPlace(line, p + 1)
  }

  /** The tokens of a list that are neither blank nor an edge. */
  function Malformed(tokens: seq<string>): seq<string> {
    if tokens == [] then [] else MalformedToken(tokens[0]) + Malformed(tokens[1..])
  }

  function MalformedToken(token: string): seq<string> {
    var value := Strip(token);
    if value != [] && EdgeOf(value).None? then [value] else []
  }

  function ListText(line: string, list: Option<Span>): string {
    if list.Some? && list.value.first <= list.value.last <= |line| then line[list.value.first..list.value.last] else []
  }

  function Read(line: string): Option<Addressable> {
    var source := line[..BodyEnd(line)];
    var h := HeadingOf(source);
    if h.None? then None
    else
      var p := AnchorPlace(source, h.value.next);
      if p >= |source| then None
      else
        var m := MatchAt(source, p).value;
        var tokens := Split(ListText(source, m.list));
        Some(Addressable(h.value.depth, Strip(source[h.value.next..p]), m.anchor.kind, m.anchor.id, EdgesOf(tokens), Malformed(tokens)))
  }

  // ---------- writing ----------

  /** Letters, a number sign and any text in braces: an anchor of a kind that is not supported. */
  predicate IsUnsupportedAt(s: string, p: nat) {
    && p < |s| && s[p] == '{'
    && var i := Skip(IsLetter, s, p + 1);
       p + 1 < i < |s| && s[i] == '#' && exists j :: i < j < |s| && s[j] == '}'
  }

  predicate ShowsAnchor(title: string) {
    FindCandidate(title, 0).Some? || exists p :: 0 <= p < |title| && IsUnsupportedAt(title, p)
  }

  /** The title as it is written; None where the program refuses it. */
  function CleanTitle(title: string): Option<string> {
    var t := Strip(title);
    if t == [] || |LinesOf(t)| != 1 || '\0' in t || ShowsAnchor(t) then None else Some(t)
  }

  function Repeat(c: char, n: nat): (r: string)
    ensures |r| == n && forall i :: 0 <= i < n ==> r[i] == c
  {
    seq(n, i => c)
  }

  function EdgeText(e: Edge): string {
    e.kind + ":" + e.target
  }

  /** The edges with a comma and a blank between them. */
  function EdgeList(edges: seq<Edge>): string {
    if edges == [] then []
    else if |edges| == 1 then EdgeText(edges[0])
    else EdgeText(edges[0]) + ", " + EdgeList(edges[1..])
  }

  function Suffix(edges: seq<Edge>): string {
    if edges == [] then [] else " \U{2192} [" + EdgeList(edges) + "]"
  }

  predicate IsWritable(e: Edge) {
    e.kind in KNOWN_EDGES && IsId(e.target)
  }

  /** A new heading; an ordinary one is at most three deep. */
  function Render(title: string, kind: AnchorKind, id: string, edges: seq<Edge>, depth: nat): Option<string> {
    var t := CleanTitle(title);
    if t.None? || !IsId(id) || depth < 1 || depth > 4 || (depth == 4 && kind == PlainAnchor) || (exists i :: 0 <= i < |edges| && !IsWritable(edges[i])) then None
    else Some(Repeat('#', depth) + " " + t.value + " " + AnchorText(kind, id) + Suffix(edges))
  }

  /** The line with another title; the anchor, what follows it and the white space around the title stay. */
  function ReplaceTitle(line: string, title: string): Option<string> {
    var t := CleanTitle(title);
    var source := line[..BodyEnd(line)];
    var h := HeadingOf(source);
    if t.None? || h.None? then None
    else
      var p := AnchorPlace(source, h.value.next);
      if p >= |source| then None
      else
        var was := source[h.value.next..p];
        Some(line[..h.value.next] + t.value + was[TrimEnd(was)..] + line[p..])
  }

  // ---------- a suffix behind another text ----------

  lemma HasAtShift(x: string, s: string, i: nat, word: string)
    ensures HasAt(x + s, |x| + i, word) <==> HasAt(s, i, word)
  {
    if i + |word| <= |s| {
      assert (x + s)[|x| + i..|x| + i + |word|] == s[i..i + |word|];
    }
  }

  lemma SpacesShift(x: string, s: string, a: nat, b: nat)
    requires a <= b <= |s|
    ensures SpacesBetween(x + s, |x| + a, |x| + b) <==> SpacesBetween(s, a, b)
  {
    assert forall k :: a <= k < b ==> (x + s)[|x| + k] == s[k];
    if SpacesBetween(x + s, |x| + a, |x| + b) {
      forall k | a <= k < b ensures IsSpace(s[k]) {
        assert IsSpace((x + s)[|x| + k]);
      }
    }
  }

  function ShiftedSpan(list: Span, n: nat): Span {
    Span(list.first + n, list.last + n)
  }

  function ShiftedList(list: Option<Span>, n: nat): Option<Span> {
    if list.Some? then Some(ShiftedSpan(list.value, n)) else None
  }

  function ShiftedAnchor(a: Anchor, n: nat): Anchor {
    Anchor(a.kind, a.id, a.next + n)
  }

  lemma ListShift(x: string, s: string, i: nat, a: nat, list: Span)
    ensures IsListFrom(x + s, |x| + i, a, ShiftedSpan(list, |x|)) <==> IsListFrom(s, i, a, list)
  {
    HasAtShift(x, s, i, "\U{2192}");
    HasAtShift(x, s, i, "->");
    if i + a < list.first <= list.last < |s| {
      SpacesShift(x, s, i + a, list.first - 1);
      SpacesShift(x, s, list.last + 1, |s|);
      assert (x + s)[|x| + list.first - 1] == s[list.first - 1] && (x + s)[|x| + list.last] == s[list.last];
    }
  }

  lemma IsListShift(x: string, s: string, i: nat, list: Span)
    ensures IsList(x + s, |x| + i, ShiftedSpan(list, |x|)) <==> IsList(s, i, list)
  {
    if IsList(s, i, list) {
      var a: nat :| IsListFrom(s, i, a, list);
      ListShift(x, s, i, a, list);
    }
    if IsList(x + s, |x| + i, ShiftedSpan(list, |x|)) {
      var a: nat :| IsListFrom(x + s, |x| + i, a, ShiftedSpan(list, |x|));
      ListShift(x, s, i, a, list);
    }
  }

  lemma TailShift(x: string, s: string, next: nat, list: Option<Span>, i: nat)
    ensures IsTail(x + s, |x| + next, ShiftedList(list, |x|), |x| + i) <==> IsTail(s, next, list, i)
  {
    if next <= i <= |s| {
      SpacesShift(x, s, next, i);
    }
    if list.Some? {
      IsListShift(x, s, i, list.value);
    }
  }

  lemma AnchorShift(x: string, s: string, p: nat, a: Anchor)
    ensures IsAnchor(x + s, |x| + p, ShiftedAnchor(a, |x|)) <==> IsAnchor(s, p, a)
  {
    HasAtShift(x, s, p, AnchorText(a.kind, a.id));
  }

  function Shifted(m: AnchorMatch, n: nat): AnchorMatch {
    AnchorMatch(ShiftedAnchor(m.anchor, n), ShiftedList(m.list, n))
  }

  lemma IsMatchShift(x: string, s: string, p: nat, m: AnchorMatch, i: nat)
    ensures IsMatch(x + s, |x| + p, Shifted(m, |x|), |x| + i) <==> IsMatch(s, p, m, i)
  {
    AnchorShift(x, s, p, m.anchor);
    TailShift(x, s, m.anchor.next, m.list, i);
  }

  /** A match stays one when the line begins with something else. */
  lemma MatchForth(x: string, s: string, p: nat, m: AnchorMatch, line: string, q: nat, n: AnchorMatch)
    requires MatchAt(s, p) == Some(m) && line == x + s && q == |x| + p && n == Shifted(m, |x|)
    ensures MatchAt(line, q) == Some(n)
  {
    var i := MatchParts(s, p, m);
    ShiftedIs(x, s, p, m, i, line, q, n);
  }

  lemma ShiftedIs(x: string, s: string, p: nat, m: AnchorMatch, i: nat, line: string, q: nat, n: AnchorMatch)
    requires IsMatch(s, p, m, i) && line == x + s && q == |x| + p && n == Shifted(m, |x|)
    ensures MatchAt(line, q) == Some(n)
  {
    assert IsMatch(line, q, n, |x| + i) by {
      IsMatchShift(x, s, p, m, i);
    }
    MatchIs(line, q, n, |x| + i);
  }

  lemma MatchBack(x: string, s: string, p: nat, m: AnchorMatch, line: string, q: nat, n: AnchorMatch)
    requires MatchAt(line, q) == Some(n) && line == x + s && q == |x| + p && n == Shifted(m, |x|)
    ensures MatchAt(s, p) == Some(m)
  {
    var i := MatchParts(line, q, n);
    UnshiftedIs(x, s, p, m, i, line, q, n);
  }

  lemma UnshiftedIs(x: string, s: string, p: nat, m: AnchorMatch, i: nat, line: string, q: nat, n: AnchorMatch)
    requires IsMatch(line, q, n, i) && line == x + s && q == |x| + p && n == Shifted(m, |x|)
    ensures MatchAt(s, p) == Some(m)
  {
    assert |x| <= i && IsMatch(s, p, m, i - |x|) by {
      MatchIsBehind(line, q, n, i, |x|);
      IsMatchShift(x, s, p, m, i - |x|);
    }
    MatchIs(s, p, m, i - |x|);
  }

  lemma TailIsBehind(line: string, next: nat, list: Option<Span>, i: nat, n: nat)
    requires IsTail(line, next, list, i) && n <= next && list.Some?
    ensures n <= list.value.first && n <= list.value.last
  {
    var a: nat :| IsListFrom(line, i, a, list.value);
  }

  /** What stands behind the first `n` characters is shifted. */
  lemma IsShifted(line: string, p: nat, m: AnchorMatch, n: nat) returns (back: AnchorMatch)
    requires MatchAt(line, p) == Some(m) && n <= p
    ensures m == Shifted(back, n)
  {
    var i := MatchParts(line, p, m);
    back := MatchIsShifted(line, p, m, i, n);
  }

  lemma MatchIsShifted(line: string, p: nat, m: AnchorMatch, i: nat, n: nat) returns (back: AnchorMatch)
    requires IsMatch(line, p, m, i) && n <= p
    ensures m == Shifted(back, n)
  {
    MatchIsBehind(line, p, m, i, n);
    back := AnchorMatch(Anchor(m.anchor.kind, m.anchor.id, m.anchor.next - n),
                        if m.list.Some? then Some(Span(m.list.value.first - n, m.list.value.last - n)) else None);
  }

  lemma MatchIsBehind(line: string, p: nat, m: AnchorMatch, i: nat, n: nat)
    requires IsMatch(line, p, m, i) && n <= p
    ensures n <= i && n <= m.anchor.next && (m.list.Some? ==> n <= m.list.value.first && n <= m.list.value.last)
  {
    if m.list.Some? {
      TailIsBehind(line, m.anchor.next, m.list, i, n);
    }
  }

  // ---------- no anchor in a clean title ----------

  lemma TextChars(kind: AnchorKind, id: string)
    requires IsId(id)
    ensures var text := AnchorText(kind, id); text[0] == '{' && forall k :: 1 <= k < |text| ==> !IsSpace(text[k]) && text[k] != '{'
  {
    var text, m := AnchorText(kind, id), Marker(kind);
    forall k | 1 <= k < |text| ensures !IsSpace(text[k]) && text[k] != '{' {
      if k <= |m| {
        assert text[k] == m[k - 1];
      } else if k <= |m| + |id| {
        assert text[k] == id[k - 1 - |m|];
      }
    }
  }

  lemma TextIsCandidate(t: string, p: nat, kind: AnchorKind, id: string)
    requires IsId(id) && HasAt(t, p, AnchorText(kind, id))
    ensures p < |t| && CandidateAt(t, p).Some?
  {
    LineGrammar.AnchorParts(t, p, kind, id);
    KindIs(t, p + 1, kind);
    var i := p + 1 + |Marker(kind)|;
    var j := Skip(IsNoBrace, t, i);
    assert t[i + |id|] == '}';
  }

  /** A boundary that no anchor contains. */
  predicate IsStop(c: char) {
    IsSpace(c) || c == '{'
  }

  lemma AcrossEnd(t: string, b: string, p: nat, text: string)
    requires HasAt(t + b, p, text) && p < |t| < p + |text|
    ensures b != [] && text[|t| - p] == b[0]
  {
    assert (t + b)[p..p + |text|][|t| - p] == (t + b)[|t|];
  }

  lemma NoAnchorIn(t: string, b: string, p: nat)
    requires p < |t| && CandidateAt(t, p).None? && b != [] && IsStop(b[0])
    ensures AnchorAt(t + b, p).None?
  {
    if AnchorAt(t + b, p).Some? {
      var a := AnchorAt(t + b, p).value;
      AnchorMeans(t + b, p);
      var text := AnchorText(a.kind, a.id);
      TextChars(a.kind, a.id);
      assert (t + b)[p..p + |text|] == text;
      if p + |text| <= |t| {
        assert t[p..p + |text|] == text;
        TextIsCandidate(t, p, a.kind, a.id);
      } else {
        AcrossEnd(t, b, p, text);
      }
    }
  }

  lemma {:induction false} NoCandidates(t: string, p: nat, k: nat)
    requires FindCandidate(t, p).None? && p <= k < |t|
    ensures CandidateAt(t, k).None?
    decreases k - p
  {
    if p < k {
      NoCandidates(t, p + 1, k);
    }
  }

  // ---------- a heading in parts ----------

  /** Number signs and white space, a clean title, white space, and the rest. */
  predicate IsComposed(line: string, lead: string, t: string, gap: string, s: string, d: nat) {
    && line == lead + t + gap + s && 0 < d < |lead| && AllSpace(gap)
    && (forall k :: 0 <= k < d ==> lead[k] == '#') && (forall k :: d <= k < |lead| ==> IsSpace(lead[k]))
    && t != [] && !IsSpace(t[0]) && !IsSpace(t[|t| - 1]) && FindCandidate(t, 0).None?
  }

  lemma ComposedHeading(line: string, lead: string, t: string, gap: string, s: string, d: nat)
    requires IsComposed(line, lead, t, gap, s, d)
    ensures HeadingOf(line) == Some(Heading(d, |lead|))
  {
    assert forall k :: 0 <= k < |lead| ==> line[k] == lead[k];
    assert line[|lead|] == t[0];
    SkipStops(c => c == '#', line, 0, d);
    SkipSpaces(line, d, |lead|);
  }

  lemma Slices(lead: string, w: string, s: string, line: string)
    requires line == lead + w + s
    ensures var p := |lead| + |w|;
            line[..|lead|] == lead && line[|lead|..p] == w && line[p..] == s && line[..p] == lead + w
  {}

  lemma TitleInGap(t: string, gap: string)
    requires t != [] && !IsSpace(t[0]) && !IsSpace(t[|t| - 1]) && AllSpace(gap)
    ensures TrimEnd(t + gap) == |t| && Strip(t + gap) == t && (t + gap)[|t|..] == gap
  {
    var w := t + gap;
    assert forall k :: |t| <= k < |w| ==> w[k] == gap[k - |t|];
    TrimEndIs(w, |t|);
    StripIs(w, 0, |t|);
  }

  lemma NoAnchorBehind(lead: string, w: string, k: nat, line: string, q: nat)
    requires AnchorAt(w, k).None? && line == lead + w && q == |lead| + k
    ensures AnchorAt(line, q).None?
  {
    if AnchorAt(line, q).Some? {
      var a := AnchorAt(line, q).value;
      AnchorMeans(line, q);
      var back := Anchor(a.kind, a.id, a.next - |lead|);
      AnchorShift(lead, w, k, back);
      LineGrammar.AnchorIs(w, k, back);
    }
  }

  lemma NoMatchWithoutAnchor(line: string, k: nat)
    requires AnchorAt(line, k).None?
    ensures MatchAt(line, k).None?
  {}

  lemma NoAnchorOnSpace(line: string, k: nat)
    requires k < |line| && IsSpace(line[k])
    ensures AnchorAt(line, k).None?
  {}

  lemma ComposedHasNoAnchor(line: string, lead: string, t: string, gap: string, s: string, d: nat, k: nat)
    requires IsComposed(line, lead, t, gap, s, d) && s != [] && s[0] == '{' && |lead| <= k < |lead| + |t| + |gap|
    ensures AnchorAt(line, k).None?
  {
    if k < |lead| + |t| {
      var b := gap + s;
      assert line == lead + (t + b);
      NoCandidates(t, 0, k - |lead|);
      NoAnchorIn(t, b, k - |lead|);
      NoAnchorBehind(lead, t + b, k - |lead|, line, k);
    } else {
      assert line[k] == gap[k - |lead| - |t|];
      NoAnchorOnSpace(line, k);
    }
  }

  lemma {:induction false} PlaceMeans(line: string, q: nat)
    ensures NoMatch(line, q, AnchorPlace(line, q))
    decreases |line| - q
  {
    if q < |line| && MatchAt(line, q).None? {
      PlaceMeans(line, q + 1);
      NoMatchStep(line, q, AnchorPlace(line, q + 1));
    }
  }

  lemma PlaceIs(line: string, q: nat, p: nat)
    requires q <= p < |line| && MatchAt(line, p).Some? && NoMatch(line, q, p)
    ensures AnchorPlace(line, q) == p
  {
    PlaceMeans(line, q);
    FirstIsPlace(line, q, p, AnchorPlace(line, q));
  }

  lemma FirstIsPlace(line: string, q: nat, p: nat, r: nat)
    requires q <= p < |line| && MatchAt(line, p).Some? && NoMatch(line, q, p)
    requires q <= r && NoMatch(line, q, r) && (r < |line| ==> MatchAt(line, r).Some?)
    ensures r == p
  {}

  lemma MatchStarts(s: string, m: AnchorMatch)
    requires MatchAt(s, 0) == Some(m)
    ensures s != [] && s[0] == '{'
  {}

  lemma ComposedPlace(line: string, lead: string, t: string, gap: string, s: string, d: nat, m: AnchorMatch, p: nat)
    requires IsComposed(line, lead, t, gap, s, d) && MatchAt(s, 0) == Some(m) && p == |lead| + |t| + |gap|
    ensures p < |line| && AnchorPlace(line, |lead|) == p && MatchAt(line, p) == Some(Shifted(m, p))
  {
    MatchStarts(s, m);
    var x := lead + t + gap;
    MatchForth(x, s, 0, m, line, p, Shifted(m, p));
    forall k | |lead| <= k < p ensures MatchAt(line, k).None? {
      ComposedHasNoAnchor(line, lead, t, gap, s, d, k);
      NoMatchWithoutAnchor(line, k);
    }
    PlaceIs(line, |lead|, p);
  }

  lemma ListTextShift(x: string, s: string, list: Option<Span>)
    requires list.Some? ==> list.value.first <= list.value.last <= |s|
    ensures ListText(x + s, ShiftedList(list, |x|)) == ListText(s, list)
  {
    if list.Some? {
      assert (x + s)[list.value.first + |x|..list.value.last + |x|] == s[list.value.first..list.value.last];
    }
  }

  lemma ListIsInText(s: string, p: nat, m: AnchorMatch)
    requires MatchAt(s, p) == Some(m)
    ensures m.list.Some? ==> m.list.value.first <= m.list.value.last <= |s|
  {}

  // ---------- reading a heading in parts ----------

  lemma EndingIsCut(source: string, ending: string)
    requires EndsInText(source) && forall k :: 0 <= k < |ending| ==> IsBreak(ending[k])
    ensures (source + ending)[..BodyEnd(source + ending)] == source && (source + ending)[BodyEnd(source + ending)..] == ending
  {
    BodyEndOf(source, ending);
  }

  /** What is read: the depth, the title, and what the rest says. */
  function ReadFrom(d: nat, t: string, s: string, m: AnchorMatch): Addressable {
    var tokens := Split(ListText(s, m.list));
    Addressable(d, t, m.anchor.kind, m.anchor.id, EdgesOf(tokens), Malformed(tokens))
  }

  lemma ReadComposed(source: string, ending: string, lead: string, t: string, gap: string, s: string, d: nat, m: AnchorMatch)
    requires IsComposed(source, lead, t, gap, s, d) && MatchAt(s, 0) == Some(m) && EndsInText(source)
    requires forall k :: 0 <= k < |ending| ==> IsBreak(ending[k])
    ensures Read(source + ending) == Some(ReadFrom(d, t, s, m))
  {
    EndingIsCut(source, ending);
    ReadSource(source + ending, source, lead, t, gap, s, d, m);
  }

  lemma ReadSource(line: string, source: string, lead: string, t: string, gap: string, s: string, d: nat, m: AnchorMatch)
    requires IsComposed(source, lead, t, gap, s, d) && MatchAt(s, 0) == Some(m) && line[..BodyEnd(line)] == source
    ensures Read(line) == Some(ReadFrom(d, t, s, m))
  {
    var p := |lead| + |t| + |gap|;
    ComposedHeading(source, lead, t, gap, s, d);
    ComposedPlace(source, lead, t, gap, s, d, m, p);
    ListIsInText(s, 0, m);
    ComposedTexts(source, lead, t, gap, s, d, m, p, Shifted(m, p));
    ReadIs(line, source, |lead|, p, d, t, Shifted(m, p), ReadFrom(d, t, s, m));
  }

  lemma ComposedTexts(source: string, lead: string, t: string, gap: string, s: string, d: nat, m: AnchorMatch, p: nat, n: AnchorMatch)
    requires source == lead + t + gap + s && t != [] && !IsSpace(t[0]) && !IsSpace(t[|t| - 1]) && AllSpace(gap)
    requires p == |lead| + |t| + |gap| && n == Shifted(m, p) && (m.list.Some? ==> m.list.value.first <= m.list.value.last <= |s|)
    ensures source[|lead|..p] == t + gap && Strip(source[|lead|..p]) == t && ReadFrom(d, t, source, n) == ReadFrom(d, t, s, m)
  {
    assert source == lead + (t + gap) + s;
    Slices(lead, t + gap, s, source);
    TitleInGap(t, gap);
    ListTextShift(lead + t + gap, s, m.list);
  }

  lemma ReadIs(line: string, source: string, next: nat, p: nat, d: nat, t: string, m: AnchorMatch, r: Addressable)
    requires line[..BodyEnd(line)] == source && HeadingOf(source) == Some(Heading(d, next)) && AnchorPlace(source, next) == p
    requires next <= p < |source| && MatchAt(source, p) == Some(m) && Strip(source[next..p]) == t && r == ReadFrom(d, t, source, m)
    ensures Read(line) == Some(r)
  {}

  // ---------- what is rendered is read ----------

  lemma NoCommaIn(e: Edge)
    requires IsWord(e.kind) && IsId(e.target)
    ensures ',' !in EdgeText(e)
  {
    var t := EdgeText(e);
    forall k | 0 <= k < |t| ensures t[k] != ',' {
      if k < |e.kind| {
        assert t[k] == e.kind[k];
      } else if k > |e.kind| {
        assert t[k] == e.target[k - |e.kind| - 1];
      }
    }
  }

  lemma TokenIsEdge(pad: string, e: Edge)
    requires AllSpace(pad) && IsWord(e.kind) && IsId(e.target)
    ensures EdgeOf(pad + EdgeText(e)) == Some(e)
  {
    var s := EdgeText(e);
    assert s == e.kind + ":" + "" + e.target;
    BareParts(s, e, "");
    assert pad + s == pad + s + "";
    StripAround(pad + s, pad, s, "");
    EdgeFrom(pad + s, s, e, "");
  }

  lemma OneToken(token: string, e: Edge)
    requires EdgeOf(token) == Some(e)
    ensures TokenEdge(token) == [e] && MalformedToken(token) == []
  {
    SameEdge(token);
  }

  lemma SameEdge(token: string)
    ensures EdgeOf(Strip(token)) == EdgeOf(token)
  {
    StripTwice(token);
  }

  lemma FirstToken(token: string, rest: seq<string>)
    ensures EdgesOf([token] + rest) == TokenEdge(token) + EdgesOf(rest) && Malformed([token] + rest) == MalformedToken(token) + Malformed(rest)
  {
    FirstEdge(token, rest);
    FirstMalformed(token, rest);
  }

  lemma FirstMalformed(token: string, rest: seq<string>)
    ensures Malformed([token] + rest) == MalformedToken(token) + Malformed(rest)
  {
    assert ([token] + rest)[1..] == rest;
  }

  lemma KnownIsWord(kind: string)
    requires kind in KNOWN_EDGES
    ensures IsWord(kind)
  {}

  predicate HoldsEdges(text: string, edges: seq<Edge>) {
    EdgesOf(Split(text)) == edges && Malformed(Split(text)) == []
  }

  predicate AreWords(edges: seq<Edge>) {
    forall i :: 0 <= i < |edges| ==> IsWord(edges[i].kind) && IsId(edges[i].target)
  }

  lemma RestAreWords(edges: seq<Edge>)
    requires edges != [] && AreWords(edges)
    ensures AreWords(edges[1..]) && IsWord(edges[0].kind) && IsId(edges[0].target)
  {}

  lemma TokenRead(pad: string, e: Edge)
    requires AllSpace(pad) && ',' !in pad && IsWord(e.kind) && IsId(e.target)
    ensures EdgeOf(pad + EdgeText(e)) == Some(e) && ',' !in pad + EdgeText(e)
  {
    NoCommaIn(e);
    TokenIsEdge(pad, e);
  }

  /** A list as it is written holds its edges. */
  lemma {:induction false} EdgesRead(text: string, pad: string, edges: seq<Edge>)
    requires AllSpace(pad) && ',' !in pad && AreWords(edges) && edges != [] && text == pad + EdgeList(edges)
    ensures HoldsEdges(text, edges)
    decreases |edges|
  {
    RestAreWords(edges);
    if |edges| == 1 {
      OneEdgeRead(text, pad, edges);
    } else {
      var more := " " + EdgeList(edges[1..]);
      EdgesRead(more, " ", edges[1..]);
      MoreEdgesRead(text, pad, edges, more);
    }
  }

  lemma OneEdgeRead(text: string, pad: string, edges: seq<Edge>)
    requires AllSpace(pad) && ',' !in pad && |edges| == 1 && IsWord(edges[0].kind) && IsId(edges[0].target) && text == pad + EdgeList(edges)
    ensures HoldsEdges(text, edges)
  {
    assert edges == [edges[0]];
    TokenRead(pad, edges[0]);
    OneTokenSplit(text, edges[0]);
  }

  lemma MoreEdgesRead(text: string, pad: string, edges: seq<Edge>, more: string)
    requires AllSpace(pad) && ',' !in pad && |edges| > 1 && IsWord(edges[0].kind) && IsId(edges[0].target) && text == pad + EdgeList(edges)
    requires more == " " + EdgeList(edges[1..]) && HoldsEdges(more, edges[1..])
    ensures HoldsEdges(text, edges)
  {
    TokenRead(pad, edges[0]);
    ListStep(pad, edges);
    MoreTokensSplit(pad + EdgeText(edges[0]), edges[0], more, edges[1..], text, edges);
  }

  lemma ListStep(pad: string, edges: seq<Edge>)
    requires |edges| > 1
    ensures pad + EdgeList(edges) == pad + EdgeText(edges[0]) + "," + (" " + EdgeList(edges[1..]))
  {
    CommaBlank(pad, EdgeText(edges[0]), EdgeList(edges[1..]));
  }

  lemma CommaBlank(pad: string, first: string, rest: string)
    ensures pad + (first + ", " + rest) == pad + first + "," + (" " + rest)
  {}

  lemma OneTokenSplit(token: string, e: Edge)
    requires EdgeOf(token) == Some(e) && ',' !in token
    ensures HoldsEdges(token, [e])
  {
    SplitWithoutComma(token);
    OneToken(token, e);
    FirstToken(token, []);
    assert [token] + [] == [token];
    NoTokens();
  }

  lemma NoTokens()
    ensures EdgesOf([]) == [] && Malformed([]) == []
  {}

  lemma MoreTokensSplit(token: string, e: Edge, more: string, rest: seq<Edge>, text: string, edges: seq<Edge>)
    requires EdgeOf(token) == Some(e) && ',' !in token && HoldsEdges(more, rest)
    requires text == token + "," + more && edges != [] && edges[0] == e && edges[1..] == rest
    ensures HoldsEdges(text, edges)
  {
    SplitAtComma(token, more);
    OneToken(token, e);
    FirstToken(token, Split(more));
    assert edges == [e] + rest;
  }

  /** The match that a rendered anchor and its list make. */
  function WrittenMatch(kind: AnchorKind, id: string, edges: seq<Edge>): AnchorMatch {
    var n := |AnchorText(kind, id)|;
    AnchorMatch(Anchor(kind, id, n), if edges == [] then None else Some(Span(n + 4, n + 4 + |EdgeList(edges)|)))
  }

  lemma WrittenIsMatch(kind: AnchorKind, id: string, edges: seq<Edge>, s: string, m: AnchorMatch)
    requires IsId(id) && s == AnchorText(kind, id) + Suffix(edges) && m == WrittenMatch(kind, id, edges)
    ensures MatchAt(s, 0) == Some(m) && ListText(s, m.list) == EdgeList(edges) && s != [] && (s[|s| - 1] == '}' || s[|s| - 1] == ']')
  {
    var text := AnchorText(kind, id);
    StartsWith(text, Suffix(edges));
    if edges == [] {
      assert s == text;
      WrittenTail(s, |text|, m);
    } else {
      SuffixText(text, edges);
      ListTail(text, EdgeList(edges), s, m);
    }
  }

  lemma StartsWith(text: string, more: string)
    ensures HasAt(text + more, 0, text)
  {
    assert (text + more)[0..|text|] == text;
  }

  lemma SuffixText(text: string, edges: seq<Edge>)
    requires edges != []
    ensures text + Suffix(edges) == text + " \U{2192} [" + EdgeList(edges) + "]"
  {}

  lemma WrittenTail(s: string, n: nat, m: AnchorMatch)
    requires IsAnchor(s, 0, m.anchor) && m.anchor.next == n == |s| && m.list == None
    ensures MatchAt(s, 0) == Some(m)
  {
    MatchIs(s, 0, m, n);
  }

  lemma ListTail(text: string, list: string, s: string, m: AnchorMatch)
    requires s == text + " \U{2192} [" + list + "]" && IsAnchor(s, 0, m.anchor) && m.anchor.next == |text|
    requires m.list == Some(Span(|text| + 4, |text| + 4 + |list|))
    ensures MatchAt(s, 0) == Some(m) && ListText(s, m.list) == list
  {
    var i := |text| + 1;
    var arrow := " \U{2192} [";
    assert forall k :: 0 <= k < 4 ==> s[|text| + k] == arrow[k];
    HasChar(s, i, '\U{2192}');
    assert IsListFrom(s, i, 1, m.list.value);
    MatchIs(s, 0, m, i);
  }

  /** Every heading that can be rendered is read back, whatever line ending follows. */
  lemma RenderReads(title: string, kind: AnchorKind, id: string, edges: seq<Edge>, depth: nat, ending: string)
    requires Render(title, kind, id, edges, depth).Some? && forall k :: 0 <= k < |ending| ==> IsBreak(ending[k])
    ensures Read(Render(title, kind, id, edges, depth).value + ending) == Some(Addressable(depth, Strip(title), kind, id, edges, []))
  {
    var t := Strip(title);
    var lead := Repeat('#', depth) + " ";
    var s := AnchorText(kind, id) + Suffix(edges);
    var source := Render(title, kind, id, edges, depth).value;
    WritesComposed(title, kind, id, edges, depth);
    WrittenIsMatch(kind, id, edges, s, WrittenMatch(kind, id, edges));
    assert source[|source| - 1] == s[|s| - 1];
    ReadComposed(source, ending, lead, t, " ", s, depth, WrittenMatch(kind, id, edges));
    WritableAreWords(edges);
    ListIsRead(EdgeList(edges), edges);
  }

  lemma WritableAreWords(edges: seq<Edge>)
    requires forall i :: 0 <= i < |edges| ==> IsWritable(edges[i])
    ensures AreWords(edges)
  {
    forall i | 0 <= i < |edges| ensures IsWord(edges[i].kind) && IsId(edges[i].target) {
      assert IsWritable(edges[i]);
      KnownIsWord(edges[i].kind);
    }
  }

  lemma NoPad(text: string)
    ensures [] + text == text
  {}

  lemma ListIsRead(text: string, edges: seq<Edge>)
    requires text == EdgeList(edges) && AreWords(edges)
    ensures HoldsEdges(text, edges)
  {
    if edges == [] {
      NothingRead();
    } else {
      ListReads(text, edges);
    }
  }

  lemma ListReads(text: string, edges: seq<Edge>)
    requires AreWords(edges) && edges != [] && text == EdgeList(edges)
    ensures HoldsEdges(text, edges)
  {
    NoPad(text);
    EdgesRead(text, [], edges);
  }

  lemma NothingRead()
    ensures HoldsEdges([], [])
  {
    var blank: seq<string> := [[]];
    assert Split([]) == blank && blank[1..] == [];
  }

  lemma WritesComposed(title: string, kind: AnchorKind, id: string, edges: seq<Edge>, depth: nat)
    requires Render(title, kind, id, edges, depth).Some?
    ensures IsId(id) && forall i :: 0 <= i < |edges| ==> IsWritable(edges[i])
    ensures IsComposed(Render(title, kind, id, edges, depth).value, Repeat('#', depth) + " ", Strip(title), " ", AnchorText(kind, id) + Suffix(edges), depth)
  {
    var t := Strip(title);
    IsCleaned(title, t);
    Together(Repeat('#', depth) + " ", t, AnchorText(kind, id), Suffix(edges));
    LeadIsMarks(depth);
  }

  lemma IsCleaned(title: string, t: string)
    requires CleanTitle(title) == Some(t)
    ensures t == Strip(title) && t != [] && !IsSpace(t[0]) && !IsSpace(t[|t| - 1]) && FindCandidate(t, 0).None?
  {}

  lemma Together(lead: string, t: string, text: string, suffix: string)
    ensures lead + t + " " + text + suffix == lead + t + " " + (text + suffix)
  {}

  lemma LeadIsMarks(depth: nat)
    ensures var lead := Repeat('#', depth) + " "; |lead| == depth + 1 && lead[depth] == ' ' && forall k :: 0 <= k < depth ==> lead[k] == '#'
  {}

  // ---------- which titles are written ----------

  /** A brace, letters up to `i`, a number sign, and later a closing brace. */
  predicate IsAnchorLike(s: string, p: nat, i: nat, j: nat) {
    p < i < j < |s| && s[p] == '{' && (forall k :: p < k < i ==> IsLetter(s[k])) && s[i] == '#' && s[j] == '}'
  }

  lemma {:induction false} FoundCandidate(t: string, q: nat) returns (p: nat)
    requires FindCandidate(t, q).Some?
    ensures q <= p < |t| && CandidateAt(t, p).Some?
    decreases |t| - q
  {
    if CandidateAt(t, q).Some? {
      p := q;
    } else {
      p := FoundCandidate(t, q + 1);
    }
  }

  lemma MarkerShape(kind: AnchorKind)
    ensures var m := Marker(kind); m != [] && m[|m| - 1] == '#' && forall k :: 0 <= k < |m| - 1 ==> IsLetter(m[k])
  {}

  lemma MarkerAt(t: string, q: nat, m: string)
    requires HasAt(t, q, m)
    ensures q + |m| <= |t| && forall k :: 0 <= k < |m| ==> t[q + k] == m[k]
  {
    assert t[q..q + |m|] == m;
  }

  lemma CandidateEnds(t: string, p: nat) returns (j: nat)
    requires p < |t| && CandidateAt(t, p).Some?
    ensures t[p] == '{' && KindAt(t, p + 1).1 > 0 && p + KindAt(t, p + 1).1 < j < |t| && t[j] == '}'
  {
    j := Skip(IsNoBrace, t, p + 1 + KindAt(t, p + 1).1);
  }

  lemma CandidateIsAnchorLike(t: string, p: nat) returns (i: nat, j: nat)
    requires p < |t| && CandidateAt(t, p).Some?
    ensures IsAnchorLike(t, p, i, j)
  {
    j := CandidateEnds(t, p);
    i := KindEnds(t, p);
  }

  lemma KindEnds(t: string, p: nat) returns (i: nat)
    requires KindAt(t, p + 1).1 > 0
    ensures i == p + KindAt(t, p + 1).1 < |t| && p < i && t[i] == '#' && forall k :: p < k < i ==> IsLetter(t[k])
  {
    KindMeans(t, p + 1);
    var m := Marker(KindAt(t, p + 1).0);
    MarkerShape(KindAt(t, p + 1).0);
    MarkerAt(t, p + 1, m);
    i := p + |m|;
    assert forall k :: p < k < i ==> t[k] == m[k - p - 1];
  }

  lemma AnchorLikeShows(t: string, p: nat, i: nat, j: nat)
    requires IsAnchorLike(t, p, i, j)
    ensures ShowsAnchor(t)
  {
    if i == p + 1 {
      HasChar(t, i, '#');
      KindIs(t, i, PlainAnchor);
      assert CandidateAt(t, p).Some?;
      if FindCandidate(t, 0).None? {
        NoCandidates(t, 0, p);
      }
    } else {
      SkipStops(IsLetter, t, p + 1, i);
      assert IsUnsupportedAt(t, p);
    }
  }

  lemma ShowsAnchorMeans(t: string)
    ensures ShowsAnchor(t) <==> exists p, i, j :: IsAnchorLike(t, p, i, j)
  {
    if FindCandidate(t, 0).Some? {
      var p := FoundCandidate(t, 0);
      var i, j := CandidateIsAnchorLike(t, p);
    } else if ShowsAnchor(t) {
      var p: nat :| p < |t| && IsUnsupportedAt(t, p);
      var i := Skip(IsLetter, t, p + 1);
      var j :| i < j < |t| && t[j] == '}';
      assert IsAnchorLike(t, p, i, j);
    }
    if p: nat, i: nat, j: nat :| IsAnchorLike(t, p, i, j) {
      AnchorLikeShows(t, p, i, j);
    }
  }

  lemma EndsEarly(t: string, m: nat, n: nat)
    requires IsFirstLine(t, m, n) && m < |t| && !IsSpace(t[|t| - 1])
    ensures n < |t|
  {}

  lemma MoreLines(t: string)
    requires t != [] && FirstEnd(t) < |t|
    ensures |LinesOf(t)| > 1
  {
    LinesStep(t, FirstEnd(t));
  }

  lemma WholeIsPlain(t: string, m: nat)
    requires m == |t| && NoBoundary(t[..m])
    ensures NoBoundary(t)
  {
    assert t[..m] == t;
  }

  lemma OneLineMeans(t: string)
    requires t != [] && !IsSpace(t[|t| - 1])
    ensures |LinesOf(t)| == 1 <==> NoBoundary(t)
  {
    if NoBoundary(t) {
      OneLine(t);
    } else {
      var m := FirstEndMeans(t);
      if m == |t| {
        WholeIsPlain(t, m);
      } else {
        EndsEarly(t, m, FirstEnd(t));
        MoreLines(t);
      }
    }
  }

  /** A title is written exactly if it is a line of text that shows no anchor. */
  lemma TitleMeans(title: string)
    ensures var t := Strip(title);
            CleanTitle(title) == (if t != [] && NoBoundary(t) && '\0' !in t && !(exists p, i, j :: IsAnchorLike(t, p, i, j)) then Some(t) else None)
  {
    var t := Strip(title);
    if t != [] {
      OneLineMeans(t);
      ShowsAnchorMeans(t);
    }
  }

  // ---------- another title ----------

  lemma HeadingLead(source: string, d: nat, next: nat)
    requires HeadingOf(source) == Some(Heading(d, next))
    ensures 0 < d < next <= |source| && (next < |source| ==> !IsSpace(source[next]))
    ensures (forall k :: 0 <= k < d ==> source[k] == '#') && forall k :: d <= k < next ==> IsSpace(source[k])
  {}

  /** What stands before and behind the title of an addressed heading; `was` is the title and the white space behind it. */
  datatype Parts = Parts(lead: string, was: string, rest: string, ending: string, depth: nat, m: AnchorMatch)

  ghost predicate IsInParts(line: string, source: string, p: nat, x: Parts) {
    && source == x.lead + x.was + x.rest && p == |x.lead| + |x.was| < |source|
    && line == source + x.ending && line[..BodyEnd(line)] == source && AllBreaks(x.ending) && EndsInText(x.rest)
    && HeadingOf(source) == Some(Heading(x.depth, |x.lead|)) && AnchorPlace(source, |x.lead|) == p && MatchAt(x.rest, 0) == Some(x.m)
  }

  predicate AllBreaks(s: string) {
    forall k :: 0 <= k < |s| ==> IsBreak(s[k])
  }

  lemma BodyIsCut(line: string)
    ensures var n := BodyEnd(line); line == line[..n] + line[n..] && AllBreaks(line[n..]) && EndsInText(line[..n])
  {}

  lemma RestMatches(source: string, p: nat, m: AnchorMatch) returns (back: AnchorMatch)
    requires p < |source| && MatchAt(source, p) == Some(m)
    ensures MatchAt(source[p..], 0) == Some(back)
  {
    back := IsShifted(source, p, m, p);
    assert source == source[..p] + source[p..];
    MatchBack(source[..p], source[p..], 0, back, source, p, m);
  }

  lemma RestEndsInText(source: string, p: nat)
    requires p < |source| && EndsInText(source)
    ensures EndsInText(source[p..])
  {}

  lemma Cut(line: string, source: string, ending: string, d: nat, next: nat, p: nat, m: AnchorMatch) returns (x: Parts)
    requires line == source + ending && line[..BodyEnd(line)] == source && AllBreaks(ending) && EndsInText(source)
    requires HeadingOf(source) == Some(Heading(d, next)) && AnchorPlace(source, next) == p < |source| && next <= p && MatchAt(source[p..], 0) == Some(m)
    ensures IsInParts(line, source, p, x)
  {
    x := Parts(source[..next], source[next..p], source[p..], ending, d, m);
    Rejoin(source, next, p);
    RestEndsInText(source, p);
  }

  lemma ReadHas(line: string, source: string) returns (d: nat, next: nat, p: nat, m: AnchorMatch)
    requires Read(line).Some? && source == line[..BodyEnd(line)]
    ensures HeadingOf(source) == Some(Heading(d, next)) && AnchorPlace(source, next) == p < |source| && next <= p && MatchAt(source, p) == Some(m)
  {
    d, next := HeadingOf(source).value.depth, HeadingOf(source).value.next;
    p := AnchorPlace(source, next);
    m := MatchAt(source, p).value;
  }

  /** An addressed heading has these parts. */
  lemma PartsOf(line: string) returns (source: string, p: nat, x: Parts)
    requires Read(line).Some?
    ensures IsInParts(line, source, p, x)
  {
    source := line[..BodyEnd(line)];
    var d, next, m;
    d, next, p, m := ReadHas(line, source);
    BodyIsCut(line);
    var back := RestMatches(source, p, m);
    x := Cut(line, source, line[BodyEnd(line)..], d, next, p, back);
  }

  lemma SameRest(source: string, before: string, rest: string, d: nat, t: string, m: AnchorMatch, p: nat, n: AnchorMatch)
    requires source == before + rest && p == |before| && n == Shifted(m, p) && (m.list.Some? ==> m.list.value.first <= m.list.value.last <= |rest|)
    ensures ReadFrom(d, t, source, n) == ReadFrom(d, t, rest, m)
  {
    ListTextShift(before, rest, m.list);
  }

  lemma PartsAreRead(line: string, source: string, p: nat, x: Parts)
    requires IsInParts(line, source, p, x)
    ensures Read(line) == Some(ReadFrom(x.depth, Strip(x.was), x.rest, x.m))
  {
    PartsMatch(x.lead + x.was, x.rest, x.m, source, p, Shifted(x.m, p), x.depth, Strip(x.was));
    WasIsBetween(source, x, p);
    ReadIs(line, source, |x.lead|, p, x.depth, Strip(x.was), Shifted(x.m, p), ReadFrom(x.depth, Strip(x.was), x.rest, x.m));
  }

  lemma WasIsBetween(source: string, x: Parts, p: nat)
    requires source == x.lead + x.was + x.rest && p == |x.lead| + |x.was|
    ensures p <= |source| && source[|x.lead|..p] == x.was
  {}

  lemma PartsMatch(before: string, rest: string, m: AnchorMatch, source: string, p: nat, n: AnchorMatch, d: nat, t: string)
    requires source == before + rest && p == |before| && n == Shifted(m, p) && MatchAt(rest, 0) == Some(m)
    ensures MatchAt(source, p) == Some(n) && ReadFrom(d, t, source, n) == ReadFrom(d, t, rest, m)
  {
    MatchForth(before, rest, 0, m, source, p, n);
    ListIsInText(rest, 0, m);
    SameRest(source, before, rest, d, t, m, p, n);
  }

  lemma WhiteBehind(was: string, t: string) returns (gap: string)
    requires t != [] && !IsSpace(t[0]) && !IsSpace(t[|t| - 1])
    ensures gap == was[TrimEnd(was)..] && AllSpace(gap) && Strip(t + gap) == t && (t + gap)[TrimEnd(t + gap)..] == gap
  {
    gap := was[TrimEnd(was)..];
    TitleInGap(t, gap);
  }

  /** The same parts with another title. */
  function Retitled(x: Parts, t: string): Parts {
    x.(was := t + x.was[TrimEnd(x.was)..])
  }

  lemma ReplaceIs(line: string, source: string, next: nat, p: nat, depth: nat, title: string, t: string)
    requires CleanTitle(title) == Some(t) && line[..BodyEnd(line)] == source && HeadingOf(source) == Some(Heading(depth, next))
    requires AnchorPlace(source, next) == p < |source| <= |line|
    ensures ReplaceTitle(line, title) == Some(line[..next] + t + source[next..p][TrimEnd(source[next..p])..] + line[p..])
  {}

  lemma ReplacedIs(line: string, source: string, p: nat, x: Parts, title: string, t: string)
    requires IsInParts(line, source, p, x) && CleanTitle(title) == Some(t)
    ensures ReplaceTitle(line, title) == Some(x.lead + Retitled(x, t).was + x.rest + x.ending)
  {
    ReplaceIs(line, source, |x.lead|, p, x.depth, title, t);
    RetitledText(line, source, p, x, t);
  }

  lemma RetitledText(line: string, source: string, p: nat, x: Parts, t: string)
    requires source == x.lead + x.was + x.rest && p == |x.lead| + |x.was| && line == source + x.ending
    ensures p <= |source| && source[|x.lead|..p] == x.was
    ensures line[..|x.lead|] + t + x.was[TrimEnd(x.was)..] + line[p..] == x.lead + Retitled(x, t).was + x.rest + x.ending
  {
    Slices(x.lead, x.was, x.rest + x.ending, line);
    Slices(x.lead, x.was, x.rest, source);
  }

  lemma NewIsComposed(source: string, next: nat, d: nat, lead: string, t: string, gap: string, s: string)
    requires HeadingOf(source) == Some(Heading(d, next)) && lead == source[..next] && AllSpace(gap)
    requires t != [] && !IsSpace(t[0]) && !IsSpace(t[|t| - 1]) && FindCandidate(t, 0).None?
    ensures IsComposed(lead + t + gap + s, lead, t, gap, s, d)
  {
    HeadingLead(source, d, next);
  }

  lemma NewEnding(source: string, x: string, rest: string, ending: string)
    requires source == x + rest && rest != [] && EndsInText(rest) && AllBreaks(ending)
    ensures (source + ending)[..BodyEnd(source + ending)] == source
  {
    assert source[|source| - 1] == rest[|rest| - 1];
    EndingIsCut(source, ending);
  }

  lemma NewSource(x: Parts, source: string, t: string, gap: string, now: string, q: nat)
    requires source == x.lead + x.was + x.rest && HeadingOf(source) == Some(Heading(x.depth, |x.lead|)) && MatchAt(x.rest, 0) == Some(x.m)
    requires AllSpace(gap) && t != [] && !IsSpace(t[0]) && !IsSpace(t[|t| - 1]) && FindCandidate(t, 0).None?
    requires now == x.lead + t + gap + x.rest && q == |x.lead| + |t| + |gap|
    ensures q < |now| && HeadingOf(now) == Some(Heading(x.depth, |x.lead|)) && AnchorPlace(now, |x.lead|) == q
  {
    Slices(x.lead, x.was, x.rest, source);
    NewIsComposed(source, |x.lead|, x.depth, x.lead, t, gap, x.rest);
    ComposedHeading(now, x.lead, t, gap, x.rest, x.depth);
    ComposedPlace(now, x.lead, t, gap, x.rest, x.depth, x.m, q);
  }

  /** With a clean title the other parts stay. */
  lemma NewParts(line: string, source: string, p: nat, x: Parts, t: string, y: Parts, now: string, q: nat)
    requires IsInParts(line, source, p, x) && t != [] && !IsSpace(t[0]) && !IsSpace(t[|t| - 1]) && FindCandidate(t, 0).None?
    requires y == Retitled(x, t) && now == y.lead + y.was + y.rest && q == |y.lead| + |y.was|
    ensures IsInParts(now + y.ending, now, q, y)
  {
    var gap := NewText(x, t, y, now, q);
    NewSource(x, source, t, gap, now, q);
    MatchStarts(x.rest, x.m);
    NewEnding(now, y.lead + y.was, y.rest, y.ending);
  }

  lemma NewText(x: Parts, t: string, y: Parts, now: string, q: nat) returns (gap: string)
    requires y == Retitled(x, t) && now == y.lead + y.was + y.rest && q == |y.lead| + |y.was|
    ensures AllSpace(gap) && now == x.lead + t + gap + x.rest && q == |x.lead| + |t| + |gap|
    ensures y.lead == x.lead && y.rest == x.rest && y.ending == x.ending && y.depth == x.depth && y.m == x.m
  {
    gap := x.was[TrimEnd(x.was)..];
  }

  /** A new title changes what is read in nothing but the title. */
  lemma ReplaceReads(line: string, title: string)
    ensures ReplaceTitle(line, title).Some? <==> Read(line).Some? && CleanTitle(title).Some?
    ensures ReplaceTitle(line, title).Some? ==> Read(ReplaceTitle(line, title).value) == Some(Read(line).value.(title := Strip(title)))
  {
    if Read(line).Some? && CleanTitle(title).Some? {
      var t := CleanTitle(title).value;
      IsCleaned(title, t);
      var source, p, x := PartsOf(line);
      var y := Retitled(x, t);
      var now, q := y.lead + y.was + y.rest, |y.lead| + |y.was|;
      var gap := WhiteBehind(x.was, t);
      ReplacedIs(line, source, p, x, title, t);
      NewParts(line, source, p, x, t, y, now, q);
      PartsAreRead(line, source, p, x);
      PartsAreRead(now + y.ending, now, q, y);
    }
  }

  lemma OldTitle(source: string, x: Parts, u: string)
    requires HeadingOf(source) == Some(Heading(x.depth, |x.lead|)) && source == x.lead + x.was + x.rest && u == Strip(x.was) && u != []
    ensures Retitled(x, u) == x
  {
    HeadingLead(source, x.depth, |x.lead|);
    var n := TrimEnd(x.was);
    if x.was != [] {
      assert source[|x.lead|] == x.was[0];
    }
    if n > 0 {
      StripIs(x.was, 0, n);
    }
  }

  /** The last title counts, and the old one brings the line back to the character. */
  lemma ReplaceAgain(line: string, title: string, other: string)
    requires ReplaceTitle(line, title).Some? && CleanTitle(other).Some?
    ensures ReplaceTitle(ReplaceTitle(line, title).value, other) == ReplaceTitle(line, other)
    ensures Strip(other) == Read(line).value.title ==> ReplaceTitle(line, other) == Some(line)
  {
    var t, u := CleanTitle(title).value, CleanTitle(other).value;
    IsCleaned(title, t);
    IsCleaned(other, u);
    ReplaceReads(line, title);
    var source, p, x := PartsOf(line);
    var y := Retitled(x, t);
    var gap := WhiteBehind(x.was, t);
    PartsAreRead(line, source, p, x);
    ReplacedIs(line, source, p, x, title, t);
    ReplacedIs(line, source, p, x, other, u);
    var now, q := y.lead + y.was + y.rest, |y.lead| + |y.was|;
    NewParts(line, source, p, x, t, y, now, q);
    ReplacedIs(now + y.ending, now, q, y, other, u);
    if u == Strip(x.was) {
      OldTitle(source, x, u);
    }
  }

  // ---------- the document index reads the same ----------

  lemma PlaceIsAnchor(line: string, q: nat, p: nat)
    requires q <= p < |line| && AnchorPlace(line, q) == p
    ensures FindAnchor(line, q) == MatchAt(line, p)
  {
    PlaceMeans(line, q);
    FirstAnchor(line, q, p);
  }

  lemma AnchorEdges(line: string, m: AnchorMatch)
    requires AnchorOf(line) == Some(m)
    ensures LineEdges(line) == EdgesOf(Split(ListText(line, m.list)))
  {
    ListIsInside(line);
    if m.list.None? {
      NothingRead();
    }
  }

  lemma FormIs(line: string, m: AnchorMatch)
    requires HeadingOf(line).Some? && AnchorOf(line) == Some(m)
    ensures HeadForm(line) == Head(HeadingOf(line).value.depth, Some(m.anchor.kind), Some(m.anchor.id), LineEdges(line))
  {}

  /** The index takes the depth, the kind, the id and the edges that a reader of the line takes. */
  lemma ReadIsIndexed(line: string)
    requires Read(line).Some? && BodyEnd(line) == |line|
    ensures HeadingOf(line).Some?
    ensures var a := Read(line).value; HeadForm(line) == Head(a.depth, Some(a.kind), Some(a.id), a.edges)
  {
    assert line[..|line|] == line;
    var d, next, p, m := ReadHas(line, line);
    PlaceIsAnchor(line, next, p);
    AnchorEdges(line, m);
    FormIs(line, m);
  }

  /** Which headings are written: a title that is a line without an anchor, valid ids, known edges, at most three deep unless its kind is terminal. */
  lemma RenderAccepts(title: string, kind: AnchorKind, id: string, edges: seq<Edge>, depth: nat)
    ensures var t := Strip(title);
            Render(title, kind, id, edges, depth).Some? <==>
              && t != [] && NoBoundary(t) && '\0' !in t && !(exists p, i, j :: IsAnchorLike(t, p, i, j))
              && IsId(id) && (if kind == PlainAnchor then depth in {1, 2, 3} else depth in {1, 2, 3, 4})
              && forall i :: 0 <= i < |edges| ==> edges[i].kind in KNOWN_EDGES && IsId(edges[i].target)
  {
    TitleMeans(title);
  }
}
