/** Removing typed edges from a line, and what that keeps. */
module Edges {
  import opened Common
  import opened Paths
  import opened Lines

  predicate IsBreak(c: char) {
    c == '\r' || c == '\n'
  }

  /** Where the line ending begins. */
  function BodyEnd(line: string): (r: nat)
    ensures r <= |line| && (r > 0 ==> !IsBreak(line[r - 1])) && forall k :: r <= k < |line| ==> IsBreak(line[k])
  {
    if line != [] && IsBreak(line[|line| - 1]) then BodyEnd(line[..|line| - 1]) else |line|
  }

  function Misses(ids: set<string>): string -> bool {
    t => !Targets(t, ids)
  }

  function Kept(tokens: seq<string>, ids: set<string>): seq<string> {
    Filter(Misses(ids), tokens)
  }

  function Avoids(ids: set<string>): Edge -> bool {
    (e: Edge) => e.target !in ids
  }

  /** The line with another edge list in place of the one at `list`. */
  function WithList(line: string, list: Span, content: string): string
    requires list.first <= list.last <= |line|
  {
    line[..list.first] + content + line[list.last..]
  }

  /** The text of a line without the edges whose target is in `ids`. */
  function WithoutTargets(source: string, ids: set<string>): string {
    var list := ListOf(source);
    if list.None? then source
    else
      ListIsInside(source);
      var tokens := Split(source[list.value.first..list.value.last]);
      var kept := Kept(tokens, ids);
      if |kept| == |tokens| then source else WithList(source, list.value, Join(kept))
  }

  /** Drop typed edges from a line and leave its ending. */
  function RemoveEdgeTargets(line: string, ids: set<string>): string {
    WithoutTargets(line[..BodyEnd(line)], ids) + line[BodyEnd(line)..]
  }

  lemma {:induction false} ListIsInside(line: string)
    ensures ListOf(line).Some? ==> EndsLine(line, ListOf(line).value)
  {
    var a := AnchorOf(line);
    if a.Some? {
      AnchorListIsInside(line, HeadingOf(line).value.next);
    } else if NodeStartOf(line).Some? {
      NodeListIsInside(line, NodeStartOf(line).value.next);
    }
  }

  /** A found list ends at the closing bracket that ends the line. */
  predicate EndsLine(line: string, list: Span) {
    list.first <= list.last < |line| && line[list.last] == ']' && list.last == TrimEnd(line) - 1
  }

  lemma {:induction false} AnchorListIsInside(line: string, p: nat)
    ensures var m := FindAnchor(line, p); m.Some? && m.value.list.Some? ==> EndsLine(line, m.value.list.value)
    decreases |line| - p
  {
    if p < |line| && MatchAt(line, p).None? {
      AnchorListIsInside(line, p + 1);
    }
  }

  lemma {:induction false} NodeListIsInside(line: string, p: nat)
    ensures var list := FindList(line, p); list.Some? ==> EndsLine(line, list.value) && p < list.value.first
    decreases |line| - p
  {
    if p < |line| && !(IsSpace(line[p]) && ListAt(line, p + 1).Some?) {
      NodeListIsInside(line, p + 1);
    }
  }

  // ---------- a line with another list is read the same way ----------

  /** Two lines with the same first `n` characters. */
  predicate Agree(s: string, t: string, n: nat) {
    n <= |s| && n <= |t| && s[..n] == t[..n]
  }

  lemma AgreeAt(s: string, t: string, n: nat)
    requires Agree(s, t, n)
    ensures forall k :: 0 <= k < n ==> s[k] == t[k]
  {
    forall k | 0 <= k < n ensures s[k] == t[k] {
      assert s[k] == s[..n][k] && t[k] == t[..n][k];
    }
  }

  lemma HasAtAgrees(s: string, t: string, n: nat, i: nat, word: string)
    requires Agree(s, t, n) && i + |word| <= n
    ensures HasAt(s, i, word) <==> HasAt(t, i, word)
  {
    AgreeAt(s, t, n);
    assert s[i..i + |word|] == t[i..i + |word|];
  }

  lemma {:induction false} SkipAgrees(f: char -> bool, s: string, t: string, n: nat, i: nat)
    requires Agree(s, t, n) && i <= n
    ensures Skip(f, s, i) < n || Skip(f, t, i) < n ==> Skip(f, s, i) == Skip(f, t, i)
    decreases n - i
  {
    AgreeAt(s, t, n);
    if i < n && f(s[i]) {
      SkipAgrees(f, s, t, n, i + 1);
    }
  }

  lemma HeadingAgrees(s: string, t: string, n: nat)
    requires Agree(s, t, n) && HeadingOf(s).Some? && HeadingOf(s).value.next < n
    ensures HeadingOf(t) == HeadingOf(s)
  {
    var h := HeadingOf(s).value;
    SkipAgrees(c => c == '#', s, t, n, 0);
    SkipAgrees(IsSpace, s, t, n, h.depth);
    AgreeAt(s, t, n);
  }

  /** The dash at `i`, and the code span from `j` to `k`. */
  predicate NodeParts(s: string, i: nat, j: nat, k: nat) {
    && i == Skip(IsSpace, s, 0) && i < |s| && s[i] == '-'
    && j == Skip(IsSpace, s, i + 1) && i + 1 < j < |s| && s[j] == '`'
    && k == Skip(IsNoTick, s, j + 1) && j + 1 < k < |s|
  }

  lemma NodeStartIs(s: string, i: nat, j: nat, k: nat)
    requires NodeParts(s, i, j, k)
    ensures NodeStartOf(s) == Some(NodeStart(s[j + 1..k], k + 1))
  {}

  lemma NodePartsAgree(s: string, t: string, n: nat, i: nat, j: nat, k: nat)
    requires Agree(s, t, n) && NodeParts(s, i, j, k) && k < n
    ensures NodeParts(t, i, j, k) && s[j + 1..k] == t[j + 1..k]
  {
    SkipAgrees(IsSpace, s, t, n, 0);
    SkipAgrees(IsSpace, s, t, n, i + 1);
    SkipAgrees(IsNoTick, s, t, n, j + 1);
    AgreeAt(s, t, n);
  }

  lemma NodeStartAgrees(s: string, t: string, n: nat)
    requires Agree(s, t, n) && NodeStartOf(s).Some? && NodeStartOf(s).value.next < n
    ensures NodeStartOf(t) == NodeStartOf(s)
  {
    var i := Skip(IsSpace, s, 0);
    var j := Skip(IsSpace, s, i + 1);
    var k := Skip(IsNoTick, s, j + 1);
    NodeStartIs(s, i, j, k);
    NodePartsAgree(s, t, n, i, j, k);
    NodeStartIs(t, i, j, k);
  }

  /** An anchor that ends before the common part does. */
  lemma AnchorAgrees(s: string, t: string, n: nat, p: nat)
    requires Agree(s, t, n) && AnchorAt(s, p).Some? && AnchorAt(s, p).value.next < n
    ensures AnchorAt(t, p) == AnchorAt(s, p)
  {
    var (kind, marks) := KindAt(s, p + 1);
    var i := p + 1 + marks;
    var j := Skip(IsIdChar, s, i);
    AnchorIs(s, p, kind, i, j);
    assert AnchorParts(t, p, kind, i, j) && s[i..j] == t[i..j] by {
      AgreeAt(s, t, n);
      KindAgrees(s, t, n, p + 1);
      SkipAgrees(IsIdChar, s, t, n, i);
    }
    AnchorIs(t, p, kind, i, j);
  }

  /** The brace at `p`, the marker, and the id from `i` to `j`. */
  predicate AnchorParts(s: string, p: nat, kind: AnchorKind, i: nat, j: nat) {
    && p < |s| && s[p] == '{' && p + 1 < i <= |s| && KindAt(s, p + 1) == (kind, i - p - 1)
    && j == Skip(IsIdChar, s, i) && i < j < |s| && s[j] == '}'
  }

  lemma AnchorIs(s: string, p: nat, kind: AnchorKind, i: nat, j: nat)
    requires AnchorParts(s, p, kind, i, j)
    ensures AnchorAt(s, p) == Some(Anchor(kind, s[i..j], j + 1))
  {}

  lemma KindAgrees(s: string, t: string, n: nat, i: nat)
    requires Agree(s, t, n) && i + 3 <= n
    ensures KindAt(s, i) == KindAt(t, i)
  {
    HasAtAgrees(s, t, n, i, "F#");
    HasAtAgrees(s, t, n, i, "M#");
    HasAtAgrees(s, t, n, i, "S#");
    HasAtAgrees(s, t, n, i, "MF#");
    HasAtAgrees(s, t, n, i, "MQ#");
    HasAtAgrees(s, t, n, i, "#");
  }

  /** What opens a list before the common part ends. */
  lemma OpenedAgrees(s: string, t: string, n: nat, i: nat)
    requires Agree(s, t, n) && i <= n && OpenedAt(s, i).Some? && OpenedAt(s, i).value <= n
    ensures OpenedAt(t, i) == OpenedAt(s, i)
  {
    AgreeAt(s, t, n);
    HasAtAgrees(s, t, n, i, ['\U{2192}']);
    HasAtAgrees(s, t, n, i, "->");
    var a := if HasAt(s, i, ['\U{2192}']) then 1 else 2;
    SkipAgrees(IsSpace, s, t, n, i + a);
  }

  /** The pieces of a line around its list. */
  lemma ParsedAgain(line: string, list: Span, content: string)
    requires EndsLine(line, list)
    ensures var t := WithList(line, list, content);
            && Agree(line, t, list.first) && t[list.first..list.first + |content|] == content
            && t[list.first + |content|..] == line[list.last..]
            && EndsLine(t, Span(list.first, list.first + |content|))
  {
    var t := WithList(line, list, content);
    var shift := list.first + |content|;
    assert t[shift..] == line[list.last..];
    assert t[shift] == ']';
    forall k | shift < k < |t| ensures IsSpace(t[k]) {
      assert t[k] == line[list.last..][k - shift];
    }
  }

  // ---------- the same anchor is found again ----------

  lemma WordHasNoBrace(s: string, i: nat, word: string)
    requires '{' !in word
    ensures HasAt(s, i, word) ==> forall k :: i <= k < i + |word| ==> s[k] != '{'
  {
    if HasAt(s, i, word) {
      forall k | i <= k < i + |word| ensures s[k] != '{' {
        assert s[k] == s[i..i + |word|][k - i];
        assert s[k] in word;
      }
    }
  }

  lemma KindHasNoBrace(s: string, i: nat)
    ensures var n := KindAt(s, i).1; i + n <= |s| || n == 0
    ensures forall k :: i <= k < i + KindAt(s, i).1 ==> s[k] != '{'
  {
    WordHasNoBrace(s, i, "F#");
    WordHasNoBrace(s, i, "M#");
    WordHasNoBrace(s, i, "S#");
    WordHasNoBrace(s, i, "MF#");
    WordHasNoBrace(s, i, "MQ#");
    WordHasNoBrace(s, i, "#");
  }

  lemma AnchorHasNoBrace(s: string, p: nat)
    requires AnchorAt(s, p).Some?
    ensures forall k :: p < k < AnchorAt(s, p).value.next ==> s[k] != '{'
  {
    KindHasNoBrace(s, p + 1);
  }

  /** Two lines that are the same up to their list, and end with one. */
  predicate SameStart(line: string, list: Span, t: string, other: Span) {
    EndsLine(line, list) && EndsLine(t, other) && other.first == list.first && Agree(line, t, list.first)
  }

  /** An anchor before a brace in the common part is in both lines. */
  lemma AnchorBeforeBrace(line: string, t: string, n: nat, p: nat, q: nat)
    requires Agree(line, t, n) && p < q < n && line[q] == '{' && AnchorAt(t, p).Some?
    ensures AnchorAt(line, p) == AnchorAt(t, p) && AnchorAt(t, p).value.next <= q && t[q] == '{'
  {
    AgreeAt(line, t, n);
    AnchorHasNoBrace(t, p);
    AnchorAgrees(t, line, n, p);
  }

  /** A list of the other line that opens before a brace in the common part would be one of this line. */
  lemma ListBeforeBrace(line: string, list: Span, t: string, other: Span, i: nat, q: nat)
    requires SameStart(line, list, t, other) && i <= q < list.first && t[q] == '{' && ListAt(t, i).Some?
    ensures ListAt(line, i).Some?
  {
    OpenedBefore(t, i, q);
    OpenedAgrees(t, line, list.first, i);
  }

  /** What a failed match before the found one depends on lies before the list. */
  lemma EarlierStillFails(line: string, p: nat, q: nat, list: Span, t: string, other: Span)
    requires SameStart(line, list, t, other) && p < q < list.first && line[q] == '{' && MatchAt(line, p).None?
    ensures MatchAt(t, p).None?
  {
    if MatchAt(t, p).Some? {
      AnchorBeforeBrace(line, t, list.first, p, q);
      var next := AnchorAt(t, p).value.next;
      SkipAgrees(IsSpace, t, line, list.first, next);
      assert Skip(IsSpace, t, next) <= q;
      ListBeforeBrace(line, list, t, other, Skip(IsSpace, t, next), q);
    }
  }

  /** A list that opens before a brace. */
  lemma OpenedBefore(t: string, i: nat, q: nat)
    requires i <= q < |t| && t[q] == '{' && OpenedAt(t, i).Some?
    ensures OpenedAt(t, i).value <= q
  {
    var a := if HasAt(t, i, ['\U{2192}']) then 1 else 2;
    assert forall k :: i <= k < i + a ==> t[k] == t[i..i + a][k - i];
    assert i + a <= q;
  }

  lemma AnchorFoundHere(line: string, p: nat, m: AnchorMatch, list: Span, t: string, other: Span)
    requires MatchAt(line, p) == Some(m) && m.list == Some(list) && SameStart(line, list, t, other)
    ensures MatchAt(t, p) == Some(AnchorMatch(m.anchor, Some(other)))
  {
    var i := Skip(IsSpace, line, m.anchor.next);
    AnchorAgrees(line, t, list.first, p);
    SkipAgrees(IsSpace, line, t, list.first, m.anchor.next);
    OpenedAgrees(line, t, list.first, i);
  }

  lemma {:induction false} AnchorFoundAgain(line: string, p: nat, m: AnchorMatch, list: Span, t: string, other: Span)
    requires FindAnchor(line, p) == Some(m) && m.list == Some(list) && SameStart(line, list, t, other)
    ensures FindAnchor(t, p) == Some(AnchorMatch(m.anchor, Some(other)))
    decreases |line| - p
  {
    if MatchAt(line, p).Some? {
      AnchorFoundHere(line, p, m, list, t, other);
    } else {
      AnchorFoundAgain(line, p + 1, m, list, t, other);
      var q := FoundWhere(line, p + 1);
      EarlierStillFails(line, p, q, list, t, other);
    }
    assert p < list.first <= |t|;
  }

  lemma {:induction false} FoundWhere(line: string, p: nat) returns (q: nat)
    requires FindAnchor(line, p).Some? && FindAnchor(line, p).value.list.Some?
    ensures p <= q < FindAnchor(line, p).value.list.value.first && q < |line| && line[q] == '{'
    decreases |line| - p
  {
    if MatchAt(line, p).Some? {
      q := p;
    } else {
      q := FoundWhere(line, p + 1);
    }
  }

  predicate IsArrowStart(c: char) {
    c == '-' || c == '\U{2192}'
  }

  lemma {:induction false} ListFoundWhere(line: string, p: nat) returns (q: nat)
    requires FindList(line, p).Some?
    ensures p <= q && q + 2 < FindList(line, p).value.first <= |line| && IsSpace(line[q]) && IsArrowStart(line[q + 1])
    decreases |line| - p
  {
    if IsSpace(line[p]) && ListAt(line, p + 1).Some? {
      q := p;
      var a := if HasAt(line, p + 1, ['\U{2192}']) then 1 else 2;
      assert line[p + 1] == line[p + 1..p + 1 + a][0];
    } else {
      q := ListFoundWhere(line, p + 1);
    }
  }

  lemma OpenedBeforeArrow(t: string, i: nat, q: nat)
    requires i <= q && q + 1 < |t| && IsSpace(t[q]) && IsArrowStart(t[q + 1]) && OpenedAt(t, i).Some?
    ensures OpenedAt(t, i).value <= q + 1
  {
    var a := if HasAt(t, i, ['\U{2192}']) then 1 else 2;
    assert forall k :: i <= k < i + a ==> t[k] == t[i..i + a][k - i];
    assert i + a <= q;
  }

  lemma NodeListFoundHere(line: string, i: nat, list: Span, t: string, other: Span)
    requires i <= |line| && ListAt(line, i) == Some(list) && SameStart(line, list, t, other)
    ensures i <= |t| && ListAt(t, i) == Some(other)
  {
    OpenedAgrees(line, t, list.first, i);
  }

  /** An earlier opening in the other line would be one in this line. */
  lemma EarlierStillOpensNone(line: string, i: nat, q: nat, list: Span, t: string, other: Span)
    requires SameStart(line, list, t, other) && i <= q && q + 2 < list.first && IsSpace(line[q]) && IsArrowStart(line[q + 1])
    requires ListAt(line, i).None?
    ensures i <= |t| && ListAt(t, i).None?
  {
    AgreeAt(line, t, list.first);
    if ListAt(t, i).Some? {
      OpenedBeforeArrow(t, i, q);
      OpenedAgrees(t, line, list.first, i);
    }
  }

  lemma {:induction false} NodeListFoundAgain(line: string, p: nat, list: Span, t: string, other: Span)
    requires FindList(line, p) == Some(list) && SameStart(line, list, t, other)
    ensures FindList(t, p) == Some(other)
    decreases |line| - p
  {
    var q := ListFoundWhere(line, p);
    AgreeAt(line, t, list.first);
    if IsSpace(line[p]) && ListAt(line, p + 1).Some? {
      NodeListFoundHere(line, p + 1, list, t, other);
    } else {
      NodeListFoundAgain(line, p + 1, list, t, other);
      if IsSpace(line[p]) {
        q := ListFoundWhere(line, p + 1);
        EarlierStillOpensNone(line, p + 1, q, list, t, other);
      }
    }
  }

  // ---------- lists ----------

  lemma {:induction false} JoinSplit(s: string)
    ensures Join(Split(s)) == s
  {
    if s != [] {
      JoinSplit(s[1..]);
      var rest := Split(s[1..]);
      assert s == [s[0]] + s[1..];
      if s[0] == ',' {
        assert Split(s)[1..] == rest;
      } else {
        assert Split(s)[1..] == rest[1..];
      }
    }
  }

  lemma {:induction false} SplitAtComma(s: string, t: string)
    requires ',' !in s
    ensures Split(s + "," + t) == [s] + Split(t)
  {
    var u := s + "," + t;
    if s == [] {
      assert u[1..] == t;
    } else {
      SplitAtComma(s[1..], t);
      assert u[1..] == s[1..] + "," + t;
      assert [s[0]] + s[1..] == s;
    }
  }

  lemma {:induction false} SplitWithoutComma(s: string)
    requires ',' !in s
    ensures Split(s) == [s]
  {
    if s != [] {
      SplitWithoutComma(s[1..]);
      assert [s[0]] + s[1..] == s;
    }
  }

  lemma {:induction false} SplitJoin(tokens: seq<string>)
    requires tokens != [] && forall i :: 0 <= i < |tokens| ==> ',' !in tokens[i]
    ensures Split(Join(tokens)) == tokens
  {
    if |tokens| == 1 {
      SplitWithoutComma(tokens[0]);
    } else {
      SplitJoin(tokens[1..]);
      SplitAtComma(tokens[0], Join(tokens[1..]));
    }
  }

  /** Dropping tokens drops exactly their edges. */
  lemma {:induction false} EdgesOfKept(tokens: seq<string>, ids: set<string>)
    ensures EdgesOf(Kept(tokens, ids)) == Filter(Avoids(ids), EdgesOf(tokens))
  {
    if tokens != [] {
      EdgesOfKept(tokens[1..], ids);
      var mine := TokenEdge(tokens[0]);
      TokenEdgeKept(tokens[0], ids);
      FilterAppend(Avoids(ids), mine, EdgesOf(tokens[1..]));
      FirstEdge(tokens[0], Kept(tokens[1..], ids));
    }
  }

  /** The edge a token holds. */
  function TokenEdge(token: string): seq<Edge> {
    var value := Strip(token);
    var e := EdgeOf(value);
    if value != [] && e.Some? then [e.value] else []
  }

  lemma FirstEdge(token: string, rest: seq<string>)
    ensures EdgesOf([token] + rest) == TokenEdge(token) + EdgesOf(rest)
  {
    assert ([token] + rest)[1..] == rest;
  }

  lemma TokenEdgeKept(token: string, ids: set<string>)
    ensures Filter(Avoids(ids), TokenEdge(token)) == if Targets(token, ids) then [] else TokenEdge(token)
  {
    StripTwice(token);
    var mine := TokenEdge(token);
    assert mine != [] ==> mine[1..] == [];
  }

  /** The edges a line declares. */
  function LineEdges(line: string): seq<Edge> {
    var list := ListOf(line);
    if list.None? then []
    else
      ListIsInside(line);
      EdgesOf(Split(line[list.value.first..list.value.last]))
  }

  /** What the index reads of a line besides its edges. */
  predicate ReadsAlike(s: string, t: string) {
    && HeadingOf(s) == HeadingOf(t) && NodeStartOf(s) == NodeStartOf(t)
    && AnchorOf(s).Some? == AnchorOf(t).Some? && (AnchorOf(s).Some? ==> AnchorOf(s).value.anchor == AnchorOf(t).value.anchor)
    && ListOf(s).Some? == ListOf(t).Some? && FenceOf(s) == FenceOf(t) && (IsNodeCandidate(s) <==> IsNodeCandidate(t))
  }

  lemma HeadingIsNoNode(line: string)
    ensures HeadingOf(line).Some? ==> NodeStartOf(line).None?
  {
    if HeadingOf(line).Some? {
      assert line[0] == '#';
    }
  }

  lemma HeadingIsNoFence(line: string)
    ensures HeadingOf(line).Some? ==> FenceOf(line).None?
  {
    if HeadingOf(line).Some? {
      assert line[0] == '#';
    }
  }

  lemma NodeIsNoFence(line: string)
    ensures NodeStartOf(line).Some? ==> FenceOf(line).None?
  {
    if NodeStartOf(line).Some? {
      var i := Skip(c => c == ' ', line, 0);
      var j := Skip(IsSpace, line, 0);
      assert line[j] == '-';
      assert i <= j;
      assert i < j ==> IsSpace(line[i]);
    }
  }

  /** With another list in place of its own an addressed heading keeps its anchor. */
  lemma HeadingReadAgain(line: string, list: Span, t: string, other: Span)
    requires AnchorOf(line).Some? && AnchorOf(line).value.list == Some(list) && SameStart(line, list, t, other)
    ensures HeadingOf(t) == HeadingOf(line) && HeadingOf(t).Some?
    ensures AnchorOf(t) == Some(AnchorMatch(AnchorOf(line).value.anchor, Some(other)))
  {
    var next := HeadingOf(line).value.next;
    var q := FoundWhere(line, next);
    HeadingAgrees(line, t, list.first);
    AnchorFoundAgain(line, next, AnchorOf(line).value, list, t, other);
  }

  /** And a node line its id. */
  lemma NodeReadAgain(line: string, list: Span, t: string, other: Span)
    requires NodeListOf(line) == Some(list) && SameStart(line, list, t, other)
    ensures NodeStartOf(t) == NodeStartOf(line) && NodeStartOf(t).Some? && NodeListOf(t) == Some(other)
    ensures IsNodeCandidate(t) <==> IsNodeCandidate(line)
  {
    var next := NodeStartOf(line).value.next;
    var q := ListFoundWhere(line, next);
    NodeStartAgrees(line, t, list.first);
    AgreeAt(line, t, list.first);
    NodeListFoundAgain(line, next, list, t, other);
  }

  /** Two lines that are the same up to their lists are read alike. */
  lemma SameStartReadsAlike(line: string, list: Span, t: string, other: Span)
    requires ListOf(line) == Some(list) && SameStart(line, list, t, other)
    ensures ReadsAlike(line, t) && ListOf(t) == Some(other)
  {
    if AnchorOf(line).Some? {
      HeadingReadAgain(line, list, t, other);
    } else {
      NodeReadAgain(line, list, t, other);
    }
    HeadingIsNoNode(line);
    HeadingIsNoNode(t);
    HeadingIsNoFence(line);
    HeadingIsNoFence(t);
    NodeIsNoFence(line);
    NodeIsNoFence(t);
  }

  lemma ReadListAgain(line: string, list: Span, content: string)
    requires ListOf(line) == Some(list) && EndsLine(line, list)
    ensures ReadsAlike(line, WithList(line, list, content))
    ensures ListOf(WithList(line, list, content)) == Some(Span(list.first, list.first + |content|))
  {
    ParsedAgain(line, list, content);
    SameStartReadsAlike(line, list, WithList(line, list, content), Span(list.first, list.first + |content|));
  }

  lemma ReadAgain(line: string, content: string)
    requires ListOf(line).Some?
    ensures EndsLine(line, ListOf(line).value)
    ensures var list := ListOf(line).value;
            var t := WithList(line, list, content);
            ReadsAlike(line, t) && ListOf(t) == Some(Span(list.first, list.first + |content|))
  {
    ListIsInside(line);
    ReadListAgain(line, ListOf(line).value, content);
  }

  // ---------- removing ----------

  lemma {:induction false} KeptAll(tokens: seq<string>, ids: set<string>)
    ensures |Kept(tokens, ids)| <= |tokens|
    ensures |Kept(tokens, ids)| == |tokens| <==> Kept(tokens, ids) == tokens
    ensures |Kept(tokens, ids)| == |tokens| <==> forall i :: 0 <= i < |tokens| ==> !Targets(tokens[i], ids)
  {
    if tokens != [] {
      KeptAll(tokens[1..], ids);
      NoTargetsFirst(tokens, ids);
      assert tokens == [tokens[0]] + tokens[1..];
    }
  }

  lemma NoTargetsFirst(tokens: seq<string>, ids: set<string>)
    requires tokens != []
    ensures (forall i :: 0 <= i < |tokens| ==> !Targets(tokens[i], ids)) <==>
            !Targets(tokens[0], ids) && forall i :: 0 <= i < |tokens[1..]| ==> !Targets(tokens[1..][i], ids)
  {
    assert forall i :: 0 <= i < |tokens| - 1 ==> tokens[1..][i] == tokens[i + 1];
    assert forall i :: 0 < i < |tokens| ==> tokens[i] == tokens[1..][i - 1];
  }

  lemma {:induction false} KeptTwice(tokens: seq<string>, a: set<string>, b: set<string>)
    ensures Kept(Kept(tokens, a), b) == Kept(tokens, a + b)
  {
    if tokens != [] {
      KeptTwice(tokens[1..], a, b);
      assert ([tokens[0]] + Kept(tokens[1..], a))[1..] == Kept(tokens[1..], a);
    }
  }

  lemma {:induction false} KeptHasNoComma(tokens: seq<string>, ids: set<string>)
    requires forall i :: 0 <= i < |tokens| ==> ',' !in tokens[i]
    ensures forall i :: 0 <= i < |Kept(tokens, ids)| ==> ',' !in Kept(tokens, ids)[i]
  {
    FilterMembers(Misses(ids), tokens);
    forall t | t in tokens ensures ',' !in t {
      var i :| 0 <= i < |tokens| && tokens[i] == t;
    }
    assert forall i :: 0 <= i < |Kept(tokens, ids)| ==> Kept(tokens, ids)[i] in tokens;
  }

  /** The tokens of a line's list. */
  function Tokens(line: string): (r: seq<string>)
    requires ListOf(line).Some?
    ensures r != [] && forall i :: 0 <= i < |r| ==> ',' !in r[i]
  {
    ListIsInside(line);
    Split(line[ListOf(line).value.first..ListOf(line).value.last])
  }

  /** What is left when a list is emptied is one empty token. */
  function OrEmpty(tokens: seq<string>): seq<string> {
    if tokens == [] then [[]] else tokens
  }

  lemma WithoutTargetsIsWithList(line: string, ids: set<string>)
    requires ListOf(line).Some?
    ensures EndsLine(line, ListOf(line).value)
    ensures WithoutTargets(line, ids) == WithList(line, ListOf(line).value, Join(Kept(Tokens(line), ids)))
  {
    ListIsInside(line);
    KeptAll(Tokens(line), ids);
    SameList(line, ListOf(line).value);
  }

  lemma SameList(line: string, list: Span)
    requires list.first <= list.last <= |line|
    ensures WithList(line, list, Join(Split(line[list.first..list.last]))) == line
  {
    JoinSplit(line[list.first..list.last]);
  }

  lemma TokensAfter(line: string, ids: set<string>)
    requires ListOf(line).Some?
    ensures var t := WithoutTargets(line, ids); ReadsAlike(line, t) && Tokens(t) == OrEmpty(Kept(Tokens(line), ids))
  {
    var list := ListOf(line).value;
    var kept := Kept(Tokens(line), ids);
    WithoutTargetsIsWithList(line, ids);
    ReadAgain(line, Join(kept));
    ParsedAgain(line, list, Join(kept));
    KeptHasNoComma(Tokens(line), ids);
    if kept != [] {
      SplitJoin(kept);
    }
  }

  lemma NoEdgesWhenEmpty(tokens: seq<string>)
    ensures EdgesOf(OrEmpty(tokens)) == EdgesOf(tokens)
  {
    if tokens == [] {
      var one: seq<string> := [[]];
      assert one[1..] == [];
    }
  }

  /** Exactly the edges that target `ids` are gone; the anchor, the depth, the id and the kind of line are as before. */
  lemma RemovesExactly(line: string, ids: set<string>)
    ensures var t := WithoutTargets(line, ids);
            ReadsAlike(line, t) && LineEdges(t) == Filter(Avoids(ids), LineEdges(line))
  {
    if ListOf(line).Some? {
      TokensAfter(line, ids);
      EdgesOfKept(Tokens(line), ids);
      NoEdgesWhenEmpty(Kept(Tokens(line), ids));
    }
  }

  lemma {:induction false} TargetsAreEdges(tokens: seq<string>, ids: set<string>)
    ensures (exists e :: e in EdgesOf(tokens) && e.target in ids) <==> exists i :: 0 <= i < |tokens| && Targets(tokens[i], ids)
  {
    EdgesOfKept(tokens, ids);
    KeptAll(tokens, ids);
        if Kept(tokens, ids) == tokens {
      FilterMembers(Avoids(ids), EdgesOf(tokens));
    } else {
      EdgeOfTarget(tokens, ids);
    }
  }

  lemma {:induction false} EdgeOfTarget(tokens: seq<string>, ids: set<string>)
    requires |Kept(tokens, ids)| != |tokens|
    ensures exists e :: e in EdgesOf(tokens) && e.target in ids
  {
    if Targets(tokens[0], ids) {
      StripTwice(tokens[0]);
      assert EdgeOf(tokens[0]).value in EdgesOf(tokens);
    } else {
      EdgeOfTarget(tokens[1..], ids);
      var e :| e in EdgesOf(tokens[1..]) && e.target in ids;
      assert e in EdgesOf(tokens);
    }
  }

  /** A list that loses tokens is another list, even when one empty token stands for the empty list. */
  lemma OnlyEmptyIsLost(tokens: seq<string>, ids: set<string>)
    requires tokens != []
    ensures OrEmpty(Kept(tokens, ids)) == tokens ==> Kept(tokens, ids) == tokens
  {
    assert !Targets([], ids);
  }

  /** A line changes only if one of its edges targets `ids`. */
  lemma ChangesOnlyTargets(line: string, ids: set<string>)
    ensures WithoutTargets(line, ids) == line <==> forall e :: e in LineEdges(line) ==> e.target !in ids
  {
    if ListOf(line).Some? {
      var tokens := Tokens(line);
      KeptAll(tokens, ids);
      TargetsAreEdges(tokens, ids);
      TokensAfter(line, ids);
      OnlyEmptyIsLost(tokens, ids);
    }
  }

  lemma KeptOfEmpty(tokens: seq<string>, b: set<string>)
    ensures Join(Kept(OrEmpty(tokens), b)) == Join(Kept(tokens, b))
  {
    if tokens == [] {
      var one: seq<string> := [[]];
      assert one[1..] == [];
      assert !Targets([], b);
    }
  }

  lemma WithListTwice(line: string, list: Span, c: string, d: string)
    requires EndsLine(line, list)
    ensures WithList(WithList(line, list, c), Span(list.first, list.first + |c|), d) == WithList(line, list, d)
  {
    ParsedAgain(line, list, c);
  }

  /** Removing twice is removing the union; so removing again changes nothing. */
  lemma RemovalsCompose(line: string, a: set<string>, b: set<string>)
    ensures WithoutTargets(WithoutTargets(line, a), b) == WithoutTargets(line, a + b)
  {
    if ListOf(line).Some? {
      ComposeInList(line, ListOf(line).value, Kept(Tokens(line), a), a, b);
    }
  }

  lemma ComposeInList(line: string, list: Span, kept: seq<string>, a: set<string>, b: set<string>)
    requires ListOf(line) == Some(list) && kept == Kept(Tokens(line), a)
    ensures WithoutTargets(WithoutTargets(line, a), b) == WithoutTargets(line, a + b)
  {
    var once := WithoutTargets(line, a);
    WithoutTargetsIsWithList(line, a);
    WithoutTargetsIsWithList(line, a + b);
    TokensAfter(line, a);
    ListAfter(line, Join(kept));
    WithoutTargetsIsWithList(once, b);
    KeptTwice(Tokens(line), a, b);
    KeptOfEmpty(kept, b);
    WithListTwice(line, list, Join(kept), Join(Kept(kept, b)));
  }

  lemma ListAfter(line: string, content: string)
    requires ListOf(line).Some?
    ensures EndsLine(line, ListOf(line).value)
    ensures var list := ListOf(line).value;
            ListOf(WithList(line, list, content)) == Some(Span(list.first, list.first + |content|))
  {
    ReadAgain(line, content);
  }

  // ---------- the line ending ----------

  lemma {:induction false} BodyEndOf(body: string, ending: string)
    requires EndsInText(body) && forall k :: 0 <= k < |ending| ==> IsBreak(ending[k])
    ensures BodyEnd(body + ending) == |body|
  {
    var line := body + ending;
    if ending != [] {
      assert line[..|line| - 1] == body + ending[..|ending| - 1];
      BodyEndOf(body, ending[..|ending| - 1]);
    }
  }

  predicate EndsInText(s: string) {
    s == [] || !IsBreak(s[|s| - 1])
  }

  lemma RemovalEndsInText(body: string, ids: set<string>)
    requires EndsInText(body)
    ensures EndsInText(WithoutTargets(body, ids))
  {
    if ListOf(body).Some? {
      WithoutTargetsIsWithList(body, ids);
      LastCharStays(body, ListOf(body).value, Join(Kept(Tokens(body), ids)));
    }
  }

  lemma LastCharStays(line: string, list: Span, content: string)
    requires EndsLine(line, list) && EndsInText(line)
    ensures EndsInText(WithList(line, list, content))
  {
    var t := WithList(line, list, content);
    assert t[|t| - 1] == line[|line| - 1];
  }

  /** The ending of a line is kept, and its text is the old text without the targets. */
  lemma RemovalKeepsEnding(line: string, ids: set<string>)
    ensures var t := RemoveEdgeTargets(line, ids);
            && t[..BodyEnd(t)] == WithoutTargets(line[..BodyEnd(line)], ids)
            && t[BodyEnd(t)..] == line[BodyEnd(line)..]
  {
    var n := BodyEnd(line);
    var text := WithoutTargets(line[..n], ids);
    RemovalEndsInText(line[..n], ids);
    BodyEndOf(text, line[n..]);
    assert RemoveEdgeTargets(line, ids)[..|text|] == text;
    assert RemoveEdgeTargets(line, ids)[|text|..] == line[n..];
  }

  // ---------- a line with more white space at its end ----------

  lemma SpaceKeepsList(line: string, ending: string)
    requires ListOf(line).Some? && AllSpace(ending)
    ensures ListOf(line + ending) == ListOf(line) && EndsLine(line, ListOf(line).value)
  {
    var list := ListOf(line).value;
    ListIsInside(line);
    var t := line + ending;
    assert t[..list.first] == line[..list.first];
    forall k | list.last < k < |t| ensures IsSpace(t[k]) {
      assert k >= |line| ==> t[k] == ending[k - |line|];
    }
    TrimEndIs(t, list.last + 1);
    SameStartReadsAlike(line, list, t, list);
  }

  lemma WithListThenSpace(line: string, list: Span, ending: string, content: string)
    requires EndsLine(line, list)
    ensures WithList(line + ending, list, content) == WithList(line, list, content) + ending
    ensures (line + ending)[list.first..list.last] == line[list.first..list.last]
  {
    assert (line + ending)[list.last..] == line[list.last..] + ending;
    assert (line + ending)[..list.first] == line[..list.first];
  }

  /** White space at the end of a line makes no difference to what is removed. */
  lemma SpaceKeepsRemoval(line: string, ending: string, ids: set<string>)
    requires ListOf(line).Some? && AllSpace(ending)
    ensures WithoutTargets(line + ending, ids) == WithoutTargets(line, ids) + ending
  {
    SpaceKeepsList(line, ending);
    WithListThenSpace(line, ListOf(line).value, ending, Join(Kept(Tokens(line), ids)));
    WithoutTargetsIsWithList(line, ids);
    WithoutTargetsIsWithList(line + ending, ids);
  }
}
