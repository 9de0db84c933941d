/** The line grammar of the documents: fences, headings, anchors, node lines and typed edges. */
module Lines {
  import opened Common
  import opened Paths

  /** Unicode white space. */
  predicate IsSpace(c: char) {
    || '\t' <= c <= '\r' || '\U{1c}' <= c <= ' ' || c == '\U{85}' || c == '\U{a0}' || c == '\U{1680}'
    || '\U{2000}' <= c <= '\U{200a}' || c == '\U{2028}' || c == '\U{2029}' || c == '\U{202f}' || c == '\U{205f}' || c == '\U{3000}'
  }

  predicate IsLetter(c: char) {
    'a' <= c <= 'z' || 'A' <= c <= 'Z'
  }

  /** The end of the longest run from `i` whose characters satisfy `f`. */
  function Skip(f: char -> bool, s: string, i: nat): (r: nat)
    requires i <= |s|
    ensures i <= r <= |s| && (r < |s| ==> !f(s[r])) && forall k :: i <= k < r ==> f(s[k])
    decreases |s| - i
  {
    if i < |s| && f(s[i]) then Skip(f, s, i + 1) else i
  }

  /** Where the trailing white space begins. */
  function TrimEnd(s: string): (r: nat)
    ensures r <= |s| && (r > 0 ==> !IsSpace(s[r - 1])) && forall k :: r <= k < |s| ==> IsSpace(s[k])
  {
    if s != [] && IsSpace(s[|s| - 1]) then TrimEnd(s[..|s| - 1]) else |s|
  }

  /** The text without the white space around it. */
  function Strip(s: string): (r: string)
    ensures r == [] || (!IsSpace(r[0]) && !IsSpace(r[|r| - 1]))
  {
    var n := TrimEnd(s);
    var i := Skip(IsSpace, s[..n], 0);
    s[..n][i..]
  }

  lemma StripTwice(s: string)
    ensures Strip(Strip(s)) == Strip(s)
  {}

  lemma TrimEndIs(s: string, n: nat)
    requires 0 < n <= |s| && !IsSpace(s[n - 1]) && forall k :: n <= k < |s| ==> IsSpace(s[k])
    ensures TrimEnd(s) == n
  {
    var r := TrimEnd(s);
    assert forall k :: r <= k < |s| ==> IsSpace(s[k]);
  }

  predicate AllSpace(s: string) {
    forall k :: 0 <= k < |s| ==> IsSpace(s[k])
  }

  predicate HasAt(s: string, i: nat, t: string) {
    i + |t| <= |s| && s[i..i + |t|] == t
  }

  // ---------- fences and headings ----------

  datatype Fence = Fence(mark: char, length: nat)

  /** Up to three blanks, then three or more backticks or tildes. */
  function FenceOf(line: string): (r: Option<Fence>) {
    var i := Skip(c => c == ' ', line, 0);
    if i > 3 || i == |line| || (line[i] != '`' && line[i] != '~') then None
    else
      var n := Skip(c => c == line[i], line, i) - i;
      if n >= 3 then Some(Fence(line[i], n)) else None
  }

  /** A fence opens a block, or closes the open one if it has its mark and is as long. */
  function NextFence(open: Option<Fence>, f: Fence): Option<Fence> {
    if open.None? then Some(f)
    else if f.mark == open.value.mark && f.length >= open.value.length then None
    else open
  }

  /** Number signs and white space; `next` is where the title starts. */
  datatype Heading = Heading(depth: nat, next: nat)

  function HeadingOf(line: string): (r: Option<Heading>)
    ensures r.Some? ==> 0 < r.value.depth < r.value.next <= |line|
  {
    var depth := Skip(c => c == '#', line, 0);
    if depth > 0 && depth < |line| && IsSpace(line[depth]) then Some(Heading(depth, Skip(IsSpace, line, depth)))
    else None
  }

  // ---------- edge lists ----------

  /** A part of a line: from `first` up to `last`. */
  datatype Span = Span(first: nat, last: nat)

  /** An arrow and an opening bracket at `i`; the result is where the list begins. */
  function OpenedAt(line: string, i: nat): (r: Option<nat>)
    requires i <= |line|
    ensures r.Some? ==> i + 2 <= r.value <= |line| && line[r.value - 1] == '['
  {
    var a := if HasAt(line, i, ['\U{2192}']) then 1 else if HasAt(line, i, "->") then 2 else 0;
    if a == 0 then None
    else
      var j := Skip(IsSpace, line, i + a);
      if j < |line| && line[j] == '[' then Some(j + 1) else None
  }

  /** The list runs to the closing bracket that ends the line. */
  function ListAt(line: string, i: nat): (r: Option<Span>)
    requires i <= |line|
    ensures r.Some? ==> r.value.first <= r.value.last < |line| && line[r.value.last] == ']' && r.value.last == TrimEnd(line) - 1
  {
    var start := OpenedAt(line, i);
    var n := TrimEnd(line);
    if start.Some? && start.value < n && line[n - 1] == ']' then Some(Span(start.value, n - 1)) else None
  }

  // ---------- anchors ----------

  datatype AnchorKind = PlainAnchor | FAnchor | MAnchor | SAnchor | MFAnchor | MQAnchor

  /** The marker at `i` and its length; 0 if there is none. */
  function KindAt(line: string, i: nat): (AnchorKind, nat) {
    if HasAt(line, i, "F#") then (FAnchor, 2)
    else if HasAt(line, i, "M#") then (MAnchor, 2)
    else if HasAt(line, i, "S#") then (SAnchor, 2)
    else if HasAt(line, i, "MF#") then (MFAnchor, 3)
    else if HasAt(line, i, "MQ#") then (MQAnchor, 3)
    else if HasAt(line, i, "#") then (PlainAnchor, 1)
    else (PlainAnchor, 0)
  }

  datatype Anchor = Anchor(kind: AnchorKind, id: string, next: nat)

  /** A marker and an id in braces at `p`. */
  function AnchorAt(line: string, p: nat): (r: Option<Anchor>)
    ensures r.Some? ==> p + 2 < r.value.next <= |line| && line[p] == '{'
  {
    if p >= |line| || line[p] != '{' then None
    else
      var (kind, n) := KindAt(line, p + 1);
      if n == 0 then None
      else
        var i := p + 1 + n;
        var j := Skip(IsIdChar, line, i);
        if j > i && j < |line| && line[j] == '}' then Some(Anchor(kind, line[i..j], j + 1)) else None
  }

  datatype AnchorMatch = AnchorMatch(anchor: Anchor, list: Option<Span>)

  /** An anchor at `p` after which only an edge list, or nothing, follows. */
  function MatchAt(line: string, p: nat): (r: Option<AnchorMatch>) {
    var a := AnchorAt(line, p);
    if a.None? then None
    else
      var list := ListAt(line, Skip(IsSpace, line, a.value.next));
      if list.Some? || Skip(IsSpace, line, a.value.next) == |line| then Some(AnchorMatch(a.value, list)) else None
  }

  /** The first such anchor from `p` on. */
  function FindAnchor(line: string, p: nat): (r: Option<AnchorMatch>)
    decreases |line| - p
  {
    if p >= |line| then None
    else if MatchAt(line, p).Some? then MatchAt(line, p)
    else FindAnchor(line, p + 1)
  }

  /** The anchor of an addressable heading. */
  function AnchorOf(line: string): (r: Option<AnchorMatch>) {
    var h := HeadingOf(line);
    if h.Some? then FindAnchor(line, h.value.next) else None
  }

  predicate IsNoBrace(c: char) {
    c != '}'
  }

  /** A marker in braces with any text for the id: what a heading with a malformed id or list still shows. */
  function CandidateAt(line: string, p: nat): (r: Option<Anchor>)
    requires p < |line|
  {
    var (kind, n) := KindAt(line, p + 1);
    if line[p] != '{' || n == 0 then None
    else
      var i := p + 1 + n;
      var j := Skip(IsNoBrace, line, i);
      if j < |line| then Some(Anchor(kind, line[i..j], j + 1)) else None
  }

  function FindCandidate(line: string, p: nat): (r: Option<Anchor>)
    decreases |line| - p
  {
    if p >= |line| then None
    else if CandidateAt(line, p).Some? then CandidateAt(line, p)
    else FindCandidate(line, p + 1)
  }

  predicate IsId(s: string) {
    s != [] && forall i :: 0 <= i < |s| ==> IsIdChar(s[i])
  }

  // ---------- node lines ----------

  predicate IsNoTick(c: char) {
    c != '`'
  }

  /** A list item whose text starts with a code span; `next` follows the closing backtick. */
  datatype NodeStart = NodeStart(id: string, next: nat)

  function NodeStartOf(line: string): (r: Option<NodeStart>)
    ensures r.Some? ==> r.value.next <= |line|
  {
    var i := Skip(IsSpace, line, 0);
    if i == |line| || line[i] != '-' then None
    else
      var j := Skip(IsSpace, line, i + 1);
      if j == i + 1 || j == |line| || line[j] != '`' then None
      else
        var k := Skip(IsNoTick, line, j + 1);
        if k == j + 1 || k == |line| then None else Some(NodeStart(line[j + 1..k], k + 1))
  }

  /** The first edge list that white space separates from the text before it. */
  function FindList(line: string, p: nat): (r: Option<Span>)
    decreases |line| - p
  {
    if p >= |line| then None
    else if IsSpace(line[p]) && ListAt(line, p + 1).Some? then ListAt(line, p + 1)
    else FindList(line, p + 1)
  }

  /** The edge list of a node line. */
  function NodeListOf(line: string): (r: Option<Span>) {
    var n := NodeStartOf(line);
    if n.Some? then FindList(line, n.value.next) else None
  }

  /** The code span ends the line or is followed by white space. */
  predicate IsNodeCandidate(line: string) {
    var n := NodeStartOf(line);
    n.Some? && (n.value.next == |line| || IsSpace(line[n.value.next]))
  }

  // ---------- typed edges ----------

  datatype Edge = Edge(kind: string, target: string)

  /** `kind: target`, white space around it ignored. */
  function EdgeOf(token: string): (r: Option<Edge>) {
    var s := Strip(token);
    if s == [] || !IsLetter(s[0]) then None
    else
      var j := Skip(c => IsLetter(c) || '0' <= c <= '9' || c == '_' || c == '-', s, 1);
      if j == |s| || s[j] != ':' then None
      else
        var a := Skip(IsSpace, s, j + 1);
        if IsId(s[a..]) then Some(Edge(s[..j], s[a..])) else None
  }

  /** The pieces between commas; there is always at least one. */
  function Split(s: string): (r: seq<string>)
    ensures r != []
    ensures forall i :: 0 <= i < |r| ==> ',' !in r[i]
  {
    if s == [] then [[]]
    else if s[0] == ',' then [[]] + Split(s[1..])
    else
      var rest := Split(s[1..]);
      [[s[0]] + rest[0]] + rest[1..]
  }

  function Join(tokens: seq<string>): string {
    if tokens == [] then []
    else if |tokens| == 1 then tokens[0]
    else tokens[0] + "," + Join(tokens[1..])
  }

  /** The well-formed edges of a list, in order. */
  function EdgesOf(tokens: seq<string>): (r: seq<Edge>) {
    if tokens == [] then []
    else
      var value := Strip(tokens[0]);
      var e := EdgeOf(value);
      (if value != [] && e.Some? then [e.value] else []) + EdgesOf(tokens[1..])
  }

  /** The list a line carries, if it is an addressable heading or a node line. */
  function ListOf(line: string): (r: Option<Span>) {
    var a := AnchorOf(line);
    if a.Some? then a.value.list else NodeListOf(line)
  }

  predicate Targets(token: string, ids: set<string>) {
    EdgeOf(token).Some? && EdgeOf(token).value.target in ids
  }
}
