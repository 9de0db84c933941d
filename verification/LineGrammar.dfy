/** Edge lists, anchors, node lines and typed edges, told from their characters. */
module LineGrammar {
  import opened Common
  import opened Paths
  import opened Lines
  import opened Fences
  import Edges

  predicate SpacesBetween(s: string, a: nat, b: nat)
    requires a <= b <= |s|
  {
    forall k :: a <= k < b ==> IsSpace(s[k])
  }

  lemma SkipSpaces(s: string, i: nat, n: nat)
    requires i <= n <= |s| && SpacesBetween(s, i, n) && (n < |s| ==> !IsSpace(s[n]))
    ensures Skip(IsSpace, s, i) == n
  {
    SkipStops(IsSpace, s, i, n);
  }

  // ---------- edge lists ----------

  predicate HasArrow(line: string, i: nat, a: nat) {
    (a == 1 && HasAt(line, i, "\U{2192}")) || (a == 2 && HasAt(line, i, "->"))
  }

  /** An arrow of `a` characters at `i`, white space, and brackets around `first` up to `last`; only white space follows. */
  predicate IsListFrom(line: string, i: nat, a: nat, list: Span) {
    && HasArrow(line, i, a) && i + a < list.first <= list.last < |line| && SpacesBetween(line, i + a, list.first - 1)
    && line[list.first - 1] == '[' && line[list.last] == ']' && SpacesBetween(line, list.last + 1, |line|)
  }

  lemma OpenedIs(line: string, i: nat, a: nat, first: nat)
    requires HasArrow(line, i, a) && i + a < first <= |line| && SpacesBetween(line, i + a, first - 1) && line[first - 1] == '['
    ensures OpenedAt(line, i) == Some(first)
  {
    SkipSpaces(line, i + a, first - 1);
    HasChar(line, i, '\U{2192}');
    HasTwo(line, i, '-', '>');
  }

  lemma OpenedMeans(line: string, i: nat) returns (a: nat)
    requires i <= |line| && OpenedAt(line, i).Some?
    ensures var first := OpenedAt(line, i).value;
            HasArrow(line, i, a) && i + a < first <= |line| && SpacesBetween(line, i + a, first - 1) && line[first - 1] == '['
  {
    a := if HasAt(line, i, "\U{2192}") then 1 else 2;
  }

  lemma ListIs(line: string, i: nat, a: nat, list: Span)
    requires i <= |line| && IsListFrom(line, i, a, list)
    ensures ListAt(line, i) == Some(list)
  {
    OpenedIs(line, i, a, list.first);
    TrimEndIs(line, list.last + 1);
  }

  lemma ListMeans(line: string, i: nat) returns (a: nat)
    requires i <= |line| && ListAt(line, i).Some?
    ensures IsListFrom(line, i, a, ListAt(line, i).value)
  {
    a := OpenedMeans(line, i);
  }

  // ---------- anchors ----------

  function Marker(kind: AnchorKind): string {
    match kind
    case PlainAnchor => "#"
    case FAnchor => "F#"
    case MAnchor => "M#"
    case SAnchor => "S#"
    case MFAnchor => "MF#"
    case MQAnchor => "MQ#"
  }

  function AnchorText(kind: AnchorKind, id: string): string {
    "{" + Marker(kind) + id + "}"
  }

  lemma TextLength(kind: AnchorKind, id: string)
    ensures |AnchorText(kind, id)| == |Marker(kind)| + |id| + 2
  {}

  /** Braces at `p` around a marker and an id. */
  predicate IsAnchor(line: string, p: nat, a: Anchor) {
    IsId(a.id) && HasAt(line, p, AnchorText(a.kind, a.id)) && a.next == p + |AnchorText(a.kind, a.id)|
  }

  lemma HasParts(line: string, p: nat, s: string, t: string)
    ensures HasAt(line, p, s + t) <==> HasAt(line, p, s) && HasAt(line, p + |s|, t)
  {
    if HasAt(line, p, s + t) {
      assert line[p..p + |s + t|][..|s|] == line[p..p + |s|];
      assert line[p..p + |s + t|][|s|..] == line[p + |s|..p + |s| + |t|];
    }
    if HasAt(line, p, s) && HasAt(line, p + |s|, t) {
      assert line[p..p + |s + t|] == line[p..p + |s|] + line[p + |s|..p + |s| + |t|];
    }
  }

  lemma HasChar(line: string, p: nat, c: char)
    ensures HasAt(line, p, [c]) <==> p < |line| && line[p] == c
  {
    if p < |line| {
      assert line[p..p + 1] == [line[p]];
    }
  }

  lemma HasTwo(line: string, p: nat, c: char, d: char)
    ensures HasAt(line, p, [c, d]) <==> p + 1 < |line| && line[p] == c && line[p + 1] == d
  {
    if p + 1 < |line| {
      assert line[p..p + 2] == [line[p], line[p + 1]];
    }
  }

  lemma HasThree(line: string, p: nat, c: char, d: char, e: char)
    ensures HasAt(line, p, [c, d, e]) <==> p + 2 < |line| && line[p] == c && line[p + 1] == d && line[p + 2] == e
  {
    if p + 2 < |line| {
      assert line[p..p + 3] == [line[p], line[p + 1], line[p + 2]];
    }
  }

  lemma KindIs(line: string, i: nat, kind: AnchorKind)
    requires HasAt(line, i, Marker(kind))
    ensures KindAt(line, i) == (kind, |Marker(kind)|)
  {
    HasChar(line, i, '#');
    HasTwo(line, i, 'F', '#');
    HasTwo(line, i, 'M', '#');
    HasTwo(line, i, 'S', '#');
    HasThree(line, i, 'M', 'F', '#');
    HasThree(line, i, 'M', 'Q', '#');
  }

  lemma KindMeans(line: string, i: nat)
    requires KindAt(line, i).1 > 0
    ensures HasAt(line, i, Marker(KindAt(line, i).0)) && KindAt(line, i).1 == |Marker(KindAt(line, i).0)|
  {}

  lemma AnchorParts(line: string, p: nat, kind: AnchorKind, id: string)
    ensures var n := p + 1 + |Marker(kind)|;
            HasAt(line, p, AnchorText(kind, id)) <==>
              p < |line| && line[p] == '{' && HasAt(line, p + 1, Marker(kind)) && HasAt(line, n, id) && n + |id| < |line| && line[n + |id|] == '}'
  {
    var m := Marker(kind);
    HasParts(line, p, "{" + m + id, "}");
    HasParts(line, p, "{" + m, id);
    HasParts(line, p, "{", m);
    HasChar(line, p, '{');
    HasChar(line, p + 1 + |m| + |id|, '}');
  }

  lemma HasRun(line: string, i: nat, id: string)
    requires IsId(id) && HasAt(line, i, id) && i + |id| < |line| && line[i + |id|] == '}'
    ensures Skip(IsIdChar, line, i) == i + |id| && line[i..i + |id|] == id
  {
    forall k | i <= k < i + |id| ensures IsIdChar(line[k]) {
      assert line[i..i + |id|][k - i] == line[k];
    }
    SkipStops(IsIdChar, line, i, i + |id|);
  }

  lemma PartsOfText(line: string, p: nat, kind: AnchorKind, id: string)
    requires IsId(id) && HasAt(line, p, AnchorText(kind, id))
    ensures var i := p + 1 + |Marker(kind)|;
            Edges.AnchorParts(line, p, kind, i, i + |id|) && line[i..i + |id|] == id && |AnchorText(kind, id)| == |Marker(kind)| + |id| + 2
  {
    AnchorParts(line, p, kind, id);
    KindIs(line, p + 1, kind);
    HasRun(line, p + 1 + |Marker(kind)|, id);
  }

  lemma AnchorIs(line: string, p: nat, a: Anchor)
    requires IsAnchor(line, p, a)
    ensures AnchorAt(line, p) == Some(a)
  {
    PartsOfText(line, p, a.kind, a.id);
    var i := p + 1 + |Marker(a.kind)|;
    Edges.AnchorIs(line, p, a.kind, i, i + |a.id|);
  }

  lemma AnchorMeans(line: string, p: nat)
    requires AnchorAt(line, p).Some?
    ensures IsAnchor(line, p, AnchorAt(line, p).value)
  {
    var a := AnchorAt(line, p).value;
    KindMeans(line, p + 1);
    var i := p + 1 + |Marker(a.kind)|;
    AnchorIsBetween(line, p, a, i);
    AnchorParts(line, p, a.kind, a.id);
    TextLength(a.kind, a.id);
  }

  lemma AnchorIsBetween(line: string, p: nat, a: Anchor, i: nat)
    requires AnchorAt(line, p) == Some(a) && i == p + 1 + KindAt(line, p + 1).1
    ensures p < |line| && line[p] == '{' && KindAt(line, p + 1) == (a.kind, i - p - 1) && i > p + 1
    ensures HasAt(line, i, a.id) && IsId(a.id) && i + |a.id| < |line| && line[i + |a.id|] == '}' && a.next == i + |a.id| + 1
  {
    assert a.id == line[i..i + |a.id|];
    assert forall k :: 0 <= k < |a.id| ==> a.id[k] == line[i + k];
  }

  ghost predicate IsList(line: string, i: nat, list: Span) {
    exists a: nat :: IsListFrom(line, i, a, list)
  }

  /** White space up to `i`, then an edge list or the end of the line. */
  ghost predicate IsTail(line: string, next: nat, list: Option<Span>, i: nat) {
    && next <= i <= |line| && SpacesBetween(line, next, i)
    && match list
       case None => i == |line|
       case Some(span) => IsList(line, i, span)
  }

  lemma TailIs(line: string, next: nat, list: Option<Span>, i: nat)
    requires IsTail(line, next, list, i)
    ensures Skip(IsSpace, line, next) == i && ListAt(line, i) == list
  {
    if list.Some? {
      var a: nat :| IsListFrom(line, i, a, list.value);
      ListIs(line, i, a, list.value);
      HasChar(line, i, '\U{2192}');
      if a == 2 {
        assert line[i..i + 2][0] == line[i];
      }
    }
    SkipSpaces(line, next, i);
  }

  /** An anchor at `p`, then white space up to `i` and what `IsTail` allows there. */
  ghost predicate IsMatch(line: string, p: nat, m: AnchorMatch, i: nat) {
    IsAnchor(line, p, m.anchor) && IsTail(line, m.anchor.next, m.list, i)
  }

  lemma MatchIs(line: string, p: nat, m: AnchorMatch, i: nat)
    requires IsMatch(line, p, m, i)
    ensures MatchAt(line, p) == Some(m)
  {
    AnchorIs(line, p, m.anchor);
    TailIs(line, m.anchor.next, m.list, i);
  }

  lemma MatchParts(line: string, p: nat, m: AnchorMatch) returns (i: nat)
    requires MatchAt(line, p) == Some(m)
    ensures IsMatch(line, p, m, i)
  {
    AnchorMeans(line, p);
    i := Skip(IsSpace, line, m.anchor.next);
    if m.list.Some? {
      var a := ListMeans(line, i);
    }
  }

  /** An anchor stands at `p` exactly if the characters there are one and only an edge list, or nothing, follows. */
  lemma MatchMeans(line: string, p: nat)
    ensures forall m :: MatchAt(line, p) == Some(m) <==> exists i :: IsMatch(line, p, m, i)
  {
    if MatchAt(line, p).Some? {
      var i := MatchParts(line, p, MatchAt(line, p).value);
    }
    forall m, i | IsMatch(line, p, m, i) ensures MatchAt(line, p) == Some(m) {
      MatchIs(line, p, m, i);
    }
  }

  ghost predicate NoMatch(line: string, q: nat, p: nat) {
    forall k :: q <= k < p ==> MatchAt(line, k).None?
  }

  lemma NoMatchStep(line: string, q: nat, p: nat)
    requires MatchAt(line, q).None? && NoMatch(line, q + 1, p)
    ensures NoMatch(line, q, p)
  {}

  /** The anchor of a heading is the first that stands in its text. */
  lemma {:induction false} FoundAnchor(line: string, q: nat) returns (p: nat)
    ensures q <= p && NoMatch(line, q, p)
    ensures if FindAnchor(line, q).None? then p >= |line| else MatchAt(line, p) == FindAnchor(line, q)
    decreases |line| - q
  {
    if q >= |line| || MatchAt(line, q).Some? {
      p := q;
    } else {
      p := FoundAnchor(line, q + 1);
      NoMatchStep(line, q, p);
    }
  }

  lemma {:induction false} FirstAnchor(line: string, q: nat, p: nat)
    requires q <= p && MatchAt(line, p).Some? && NoMatch(line, q, p)
    ensures FindAnchor(line, q) == MatchAt(line, p)
    decreases p - q
  {
    if q < p {
      FirstAnchor(line, q + 1, p);
    }
  }

  // ---------- what a heading still shows ----------

  /** Braces at `p` around a marker and any text. */
  predicate IsShown(line: string, p: nat, a: Anchor) {
    HasAt(line, p, AnchorText(a.kind, a.id)) && '}' !in a.id && a.next == p + |AnchorText(a.kind, a.id)|
  }

  lemma RunTo(line: string, i: nat, id: string)
    requires '}' !in id && HasAt(line, i, id) && i + |id| < |line| && line[i + |id|] == '}'
    ensures Skip(IsNoBrace, line, i) == i + |id| && line[i..i + |id|] == id
  {
    forall k | i <= k < i + |id| ensures line[k] != '}' {
      assert line[i..i + |id|][k - i] == line[k];
    }
    SkipStops(IsNoBrace, line, i, i + |id|);
  }

  lemma CandidateFrom(line: string, p: nat, kind: AnchorKind, i: nat, j: nat)
    requires p < |line| && line[p] == '{' && p + 1 < i <= |line| && KindAt(line, p + 1) == (kind, i - p - 1)
    requires j == Skip(IsNoBrace, line, i) && j < |line|
    ensures CandidateAt(line, p) == Some(Anchor(kind, line[i..j], j + 1))
  {}

  lemma ShownParts(line: string, p: nat, kind: AnchorKind, id: string, i: nat)
    requires '}' !in id && p < |line| && line[p] == '{' && i == p + 1 + |Marker(kind)| && HasAt(line, p + 1, Marker(kind))
    requires HasAt(line, i, id) && i + |id| < |line| && line[i + |id|] == '}'
    ensures CandidateAt(line, p) == Some(Anchor(kind, id, i + |id| + 1))
  {
    KindIs(line, p + 1, kind);
    RunTo(line, i, id);
    CandidateFrom(line, p, kind, i, i + |id|);
  }

  lemma ShownIs(line: string, p: nat, a: Anchor)
    requires IsShown(line, p, a)
    ensures p < |line| && CandidateAt(line, p) == Some(a)
  {
    AnchorParts(line, p, a.kind, a.id);
    TextLength(a.kind, a.id);
    ShownParts(line, p, a.kind, a.id, p + 1 + |Marker(a.kind)|);
  }

  lemma CandidateIsShown(line: string, p: nat)
    requires p < |line| && CandidateAt(line, p).Some?
    ensures IsShown(line, p, CandidateAt(line, p).value)
  {
    var a := CandidateAt(line, p).value;
    KindMeans(line, p + 1);
    var i := p + 1 + |Marker(a.kind)|;
    assert a.id == line[i..i + |a.id|];
    AnchorParts(line, p, a.kind, a.id);
  }

  ghost predicate NoCandidate(line: string, q: nat, p: nat) {
    forall k :: q <= k < p && k < |line| ==> CandidateAt(line, k).None?
  }

  lemma NoCandidateStep(line: string, q: nat, p: nat)
    requires q < |line| && CandidateAt(line, q).None? && NoCandidate(line, q + 1, p)
    ensures NoCandidate(line, q, p)
  {}

  /** The first that a heading shows from `q` on. */
  lemma {:induction false} FindCandidateMeans(line: string, q: nat) returns (p: nat)
    ensures q <= p && NoCandidate(line, q, p)
    ensures if FindCandidate(line, q).None? then p >= |line| else p < |line| && IsShown(line, p, FindCandidate(line, q).value)
    decreases |line| - q
  {
    if q >= |line| {
      p := q;
    } else if CandidateAt(line, q).Some? {
      CandidateIsShown(line, q);
      p := q;
    } else {
      p := FindCandidateMeans(line, q + 1);
      NoCandidateStep(line, q, p);
    }
  }

  // ---------- node lines ----------

  /** White space, a dash at `i`, white space, and a code span from `j` on. */
  predicate IsNodeStart(line: string, i: nat, j: nat, n: NodeStart) {
    && i + 1 < j < n.next - 2 < |line| - 1
    && SpacesBetween(line, 0, i) && line[i] == '-' && SpacesBetween(line, i + 1, j)
    && line[j] == '`' && line[n.next - 1] == '`' && n.id == line[j + 1..n.next - 1] && '`' !in n.id
  }

  lemma NodeStartIs(line: string, i: nat, j: nat, n: NodeStart)
    requires IsNodeStart(line, i, j, n)
    ensures NodeStartOf(line) == Some(n)
  {
    SkipSpaces(line, 0, i);
    SkipSpaces(line, i + 1, j);
    assert forall k :: j + 1 <= k < n.next - 1 ==> line[k] == n.id[k - j - 1];
    SkipStops(IsNoTick, line, j + 1, n.next - 1);
  }

  lemma NodeStartMeans(line: string)
    ensures forall n :: NodeStartOf(line) == Some(n) <==> exists i, j :: IsNodeStart(line, i, j, n)
  {
    if NodeStartOf(line).Some? {
      var n := NodeStartOf(line).value;
      var i := Skip(IsSpace, line, 0);
      var j := Skip(IsSpace, line, i + 1);
      assert IsNodeStart(line, i, j, n);
    }
    forall n, i, j | IsNodeStart(line, i, j, n) ensures NodeStartOf(line) == Some(n) {
      NodeStartIs(line, i, j, n);
    }
  }

  /** White space and then an edge list. */
  predicate HasList(line: string, p: nat) {
    p < |line| && IsSpace(line[p]) && ListAt(line, p + 1).Some?
  }

  ghost predicate NoList(line: string, q: nat, p: nat) {
    forall k :: q <= k < p ==> !HasList(line, k)
  }

  lemma NoListStep(line: string, q: nat, p: nat)
    requires !HasList(line, q) && NoList(line, q + 1, p)
    ensures NoList(line, q, p)
  {}

  /** The edge list of a node line is the first after its code span. */
  lemma {:induction false} FoundList(line: string, q: nat) returns (p: nat)
    ensures q <= p && NoList(line, q, p)
    ensures if FindList(line, q).None? then p >= |line| else HasList(line, p) && ListAt(line, p + 1) == FindList(line, q)
    decreases |line| - q
  {
    if q >= |line| || HasList(line, q) {
      p := q;
    } else {
      p := FoundList(line, q + 1);
      NoListStep(line, q, p);
    }
  }

  lemma {:induction false} FirstList(line: string, q: nat, p: nat)
    requires q <= p && HasList(line, p) && NoList(line, q, p)
    ensures FindList(line, q) == ListAt(line, p + 1)
    decreases p - q
  {
    if q < p {
      assert !HasList(line, q);
      FirstList(line, q + 1, p);
    }
  }

  // ---------- typed edges ----------

  predicate IsWord(s: string) {
    s != [] && IsLetter(s[0]) && forall i :: 0 <= i < |s| ==> IsLetter(s[i]) || '0' <= s[i] <= '9' || s[i] == '_' || s[i] == '-'
  }

  /** A kind, a colon and a target with white space around them. */
  predicate IsEdge(token: string, e: Edge, before: string, between: string, after: string) {
    && token == before + e.kind + ":" + between + e.target + after
    && AllSpace(before) && AllSpace(between) && AllSpace(after) && IsWord(e.kind) && IsId(e.target)
  }

  lemma StripIs(s: string, i: nat, n: nat)
    requires i < n <= |s| && SpacesBetween(s, 0, i) && SpacesBetween(s, n, |s|) && !IsSpace(s[i]) && !IsSpace(s[n - 1])
    ensures Strip(s) == s[i..n]
  {
    TrimEndIs(s, n);
    SkipStops(IsSpace, s[..n], 0, i);
  }

  predicate IsWordChar(c: char) {
    IsLetter(c) || '0' <= c <= '9' || c == '_' || c == '-'
  }

  /** The same without white space around it. */
  predicate IsBareEdge(s: string, e: Edge, between: string) {
    s == e.kind + ":" + between + e.target && AllSpace(between) && IsWord(e.kind) && IsId(e.target)
  }

  lemma BareParts(s: string, e: Edge, between: string)
    requires IsBareEdge(s, e, between)
    ensures var j, a := |e.kind|, |e.kind| + 1 + |between|;
            s != [] && IsLetter(s[0]) && j < |s| && s[j] == ':' && s[..j] == e.kind && s[a..] == e.target
            && (forall k :: 1 <= k < j ==> IsWordChar(s[k])) && SpacesBetween(s, j + 1, a) && !IsSpace(s[a]) && !IsSpace(s[|s| - 1])
  {
    var j, a := |e.kind|, |e.kind| + 1 + |between|;
    assert forall k :: 0 <= k < j ==> s[k] == e.kind[k];
    assert forall k :: j + 1 <= k < a ==> s[k] == between[k - j - 1];
    assert forall k :: a <= k < |s| ==> s[k] == e.target[k - a];
  }

  lemma EdgeFrom(token: string, s: string, e: Edge, between: string)
    requires Strip(token) == s && IsBareEdge(s, e, between)
    ensures EdgeOf(token) == Some(e)
  {
    BareParts(s, e, between);
    SkipStops(c => IsLetter(c) || '0' <= c <= '9' || c == '_' || c == '-', s, 1, |e.kind|);
    SkipSpaces(s, |e.kind| + 1, |e.kind| + 1 + |between|);
  }

  lemma StripAround(token: string, before: string, s: string, after: string)
    requires token == before + s + after && AllSpace(before) && AllSpace(after) && s != [] && !IsSpace(s[0]) && !IsSpace(s[|s| - 1])
    ensures Strip(token) == s
  {
    var i, n := |before|, |before| + |s|;
    assert forall k :: 0 <= k < i ==> token[k] == before[k];
    assert forall k :: n <= k < |token| ==> token[k] == after[k - n];
    assert token[i] == s[0] && token[n - 1] == s[|s| - 1];
    StripIs(token, i, n);
  }

  lemma EdgeIs(token: string, e: Edge, before: string, between: string, after: string)
    requires IsEdge(token, e, before, between, after)
    ensures EdgeOf(token) == Some(e)
  {
    var s := e.kind + ":" + between + e.target;
    assert token == before + s + after;
    BareParts(s, e, between);
    StripAround(token, before, s, after);
    EdgeFrom(token, s, e, between);
  }

  lemma StripParts(token: string) returns (before: string, after: string)
    ensures token == before + Strip(token) + after && AllSpace(before) && AllSpace(after)
  {
    var n := TrimEnd(token);
    var i := Skip(IsSpace, token[..n], 0);
    before, after := token[..i], token[n..];
    assert Strip(token) == token[i..n];
  }

  lemma EdgeShape(token: string)
    requires EdgeOf(token).Some?
    ensures var s, e := Strip(token), EdgeOf(token).value;
            var j := |e.kind|;
            j < |s| && s[j] == ':' && s[..j] == e.kind && IsWord(e.kind) && s[Skip(IsSpace, s, j + 1)..] == e.target && IsId(e.target)
  {}

  lemma BareFrom(s: string, e: Edge, a: nat)
    requires |e.kind| < a <= |s| && s[|e.kind|] == ':' && s[..|e.kind|] == e.kind && s[a..] == e.target
    requires IsWord(e.kind) && IsId(e.target) && SpacesBetween(s, |e.kind| + 1, a)
    ensures IsBareEdge(s, e, s[|e.kind| + 1..a])
  {
    assert s == s[..|e.kind|] + ":" + s[|e.kind| + 1..a] + s[a..];
  }

  lemma EdgeIsBare(token: string) returns (between: string)
    requires EdgeOf(token).Some?
    ensures IsBareEdge(Strip(token), EdgeOf(token).value, between)
  {
    EdgeShape(token);
    var s, e := Strip(token), EdgeOf(token).value;
    var a := Skip(IsSpace, s, |e.kind| + 1);
    between := s[|e.kind| + 1..a];
    BareFrom(s, e, a);
  }

  lemma EdgeAround(token: string, s: string, e: Edge, before: string, between: string, after: string)
    requires token == before + s + after && AllSpace(before) && AllSpace(after) && IsBareEdge(s, e, between)
    ensures IsEdge(token, e, before, between, after)
  {
    assert before + (e.kind + ":" + between + e.target) + after == before + e.kind + ":" + between + e.target + after;
  }

  lemma EdgeParts(token: string) returns (before: string, between: string, after: string)
    requires EdgeOf(token).Some?
    ensures IsEdge(token, EdgeOf(token).value, before, between, after)
  {
    before, after := StripParts(token);
    between := EdgeIsBare(token);
    EdgeAround(token, Strip(token), EdgeOf(token).value, before, between, after);
  }

  /** A token is an edge exactly if it is a kind, a colon and a target, apart from white space around them. */
  lemma EdgeMeans(token: string)
    ensures forall e :: EdgeOf(token) == Some(e) <==> exists before, between, after :: IsEdge(token, e, before, between, after)
  {
    if EdgeOf(token).Some? {
      var before, between, after := EdgeParts(token);
    }
    forall e, before, between, after | IsEdge(token, e, before, between, after) ensures EdgeOf(token) == Some(e) {
      EdgeIs(token, e, before, between, after);
    }
  }

  // ---------- characters ----------

  /** Letters and digits of ASCII, the underscore, the dot and the dash. */
  lemma IdCharMeans(c: char)
    ensures IsIdChar(c) <==> 48 <= c as int <= 57 || 65 <= c as int <= 90 || 97 <= c as int <= 122 || c as int in {95, 46, 45}
  {}

  /** The white space characters of Unicode. */
  lemma SpaceMeans(c: char)
    ensures IsSpace(c) <==> var n := c as int; 9 <= n <= 13 || 28 <= n <= 32 || 8192 <= n <= 8202 || n in {133, 160, 5760, 8232, 8233, 8239, 8287, 12288}
  {}
}
