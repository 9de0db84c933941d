/** A text as lines that keep their endings, and as the lines the parser sees. */
module TextLines {
  import opened Lines

  predicate IsBoundary(c: char) {
    || '\n' <= c <= '\r' || '\U{1c}' <= c <= '\U{1e}' || c == '\U{85}' || c == '\U{2028}' || c == '\U{2029}'
  }

  function ContentEnd(s: string): (r: nat)
    ensures r <= |s| && (r < |s| ==> IsBoundary(s[r])) && forall k :: 0 <= k < r ==> !IsBoundary(s[k])
  {
    Skip(c => !IsBoundary(c), s, 0)
  }

  /** A line without its ending. */
  function Content(raw: string): string {
    raw[..ContentEnd(raw)]
  }

  function Ending(raw: string): string {
    raw[ContentEnd(raw)..]
  }

  /** Where the first line ends: after one line boundary, a carriage return and line feed counting as one. */
  function FirstEnd(text: string): (r: nat)
    requires text != []
    ensures 0 < r <= |text|
  {
    if IsBoundary(text[0]) then if text[0] == '\r' && |text| > 1 && text[1] == '\n' then 2 else 1
    else if |text| == 1 then 1
    else 1 + FirstEnd(text[1..])
  }

  function SplitLines(text: string): (r: seq<string>) {
    if text == [] then [] else [text[..FirstEnd(text)]] + SplitLines(text[FirstEnd(text)..])
  }

  /** The lines of a text, without their endings. */
  function LinesOf(text: string): seq<string> {
    if text == [] then [] else [Content(text[..FirstEnd(text)])] + LinesOf(text[FirstEnd(text)..])
  }

  function Concat(lines: seq<string>): string {
    if lines == [] then [] else lines[0] + Concat(lines[1..])
  }

  /** What the parser reads. */
  function Contents(lines: seq<string>): (r: seq<string>)
    ensures |r| == |lines|
  {
    seq(|lines|, i requires 0 <= i < |lines| => Content(lines[i]))
  }

  /** Line by line the same ending, and content where there was content. */
  predicate SameEnds(lines: seq<string>, other: seq<string>) {
    |lines| == |other| && forall i :: 0 <= i < |lines| ==> SameEnd(lines[i], other[i])
  }

  predicate SameEnd(line: string, other: string) {
    Ending(other) == Ending(line) && (Content(other) == [] <==> Content(line) == [])
  }

  predicate NoBoundary(s: string) {
    forall k :: 0 <= k < |s| ==> !IsBoundary(s[k])
  }

  lemma {:induction false} FirstEndSkips(content: string, rest: string)
    requires NoBoundary(content) && content + rest != []
    ensures FirstEnd(content + rest) == |content| + if rest == [] then 0 else FirstEnd(rest)
  {
    if content == [] {
      assert content + rest == rest;
    } else if |content| > 1 || rest != [] {
      assert (content + rest)[1..] == content[1..] + rest;
      FirstEndSkips(content[1..], rest);
    }
  }

  lemma Halves(raw: string)
    ensures raw == Content(raw) + Ending(raw) && NoBoundary(Content(raw)) && (Ending(raw) != [] ==> IsBoundary(Ending(raw)[0]))
  {}

  /** Whether two texts go on alike, as far as a line ending can tell. */
  predicate GoOnAlike(rest: string, tail: string) {
    (rest == [] <==> tail == []) && (rest != [] ==> (rest[0] == '\n' <==> tail[0] == '\n'))
  }

  lemma EndingFits(e: string, rest: string, tail: string)
    requires e != [] && IsBoundary(e[0]) && FirstEnd(e + rest) == |e| && GoOnAlike(rest, tail)
    ensures FirstEnd(e + tail) == |e|
  {
    assert |e| == 2 ==> (e + rest)[1] == e[1] && (e + tail)[1] == e[1];
    assert |e| == 1 && rest != [] ==> (e + rest)[1] == rest[0] && (e + tail)[1] == tail[0];
  }

  lemma FirstEndOfHalves(content: string, e: string, rest: string)
    requires NoBoundary(content) && content + e != []
    ensures FirstEnd(content + e + rest) == |content| + if e + rest == [] then 0 else FirstEnd(e + rest)
  {
    assert content + e + rest == content + (e + rest);
    FirstEndSkips(content, e + rest);
  }

  /** A line with other content and the same ending is cut off at the same place. */
  lemma FirstEndOf(raw: string, rest: string, other: string, tail: string)
    requires raw != [] && FirstEnd(raw + rest) == |raw| && SameEnd(raw, other) && GoOnAlike(rest, tail)
    ensures other != [] && FirstEnd(other + tail) == |other|
  {
    Halves(raw);
    Halves(other);
    CutAlike(Content(raw), Content(other), Ending(raw), rest, tail);
  }

  lemma CutAlike(content: string, other: string, e: string, rest: string, tail: string)
    requires NoBoundary(content) && NoBoundary(other) && (e != [] ==> IsBoundary(e[0])) && (content == [] <==> other == [])
    requires content + e != [] && FirstEnd(content + e + rest) == |content + e| && GoOnAlike(rest, tail)
    ensures other + e != [] && FirstEnd(other + e + tail) == |other + e|
  {
    FirstEndOfHalves(content, e, rest);
    FirstEndOfHalves(other, e, tail);
    if e != [] {
      EndingFits(e, rest, tail);
    } else {
      assert e + rest == rest && e + tail == tail;
    }
  }

  /** How a line begins says how the text goes on. */
  lemma BeginsAlike(raw: string, other: string, rest: string, tail: string)
    requires SameEnd(raw, other) && raw != [] && other != [] && (Content(raw) != [] ==> Content(raw)[0] == Content(other)[0])
    ensures GoOnAlike(raw + rest, other + tail)
  {
    Halves(raw);
    Halves(other);
  }

  /** Content that was there begins as before. */
  predicate SameBegin(line: string, other: string) {
    Content(line) != [] && Content(other) != [] ==> Content(line)[0] == Content(other)[0]
  }

  lemma {:induction false} Resplit(text: string, other: seq<string>)
    requires SameEnds(SplitLines(text), other)
    requires forall i :: 0 <= i < |other| ==> SameBegin(SplitLines(text)[i], other[i])
    ensures SplitLines(Concat(other)) == other && GoOnAlike(text, Concat(other))
  {
    if text != [] {
      var raw, rest := text[..FirstEnd(text)], text[FirstEnd(text)..];
      assert text == raw + rest && SplitLines(text)[0] == raw && SplitLines(text)[1..] == SplitLines(rest);
      forall i | 0 <= i < |other[1..]| ensures SameEnd(SplitLines(rest)[i], other[1..][i]) && SameBegin(SplitLines(rest)[i], other[1..][i]) {
        assert SplitLines(text)[i + 1] == SplitLines(rest)[i] && other[1..][i] == other[i + 1];
        assert SameEnd(SplitLines(text)[i + 1], other[i + 1]) && SameBegin(SplitLines(text)[i + 1], other[i + 1]);
      }
      Resplit(rest, other[1..]);
      assert SameEnd(raw, other[0]) && SameBegin(raw, other[0]);
      FirstEndOf(raw, rest, other[0], Concat(other[1..]));
      BeginsAlike(raw, other[0], rest, Concat(other[1..]));
      var whole := other[0] + Concat(other[1..]);
      assert whole[..|other[0]|] == other[0] && whole[|other[0]|..] == Concat(other[1..]);
    }
  }

  lemma ContentEndIs(s: string, n: nat)
    requires n <= |s| && (forall k :: 0 <= k < n ==> !IsBoundary(s[k])) && (n < |s| ==> IsBoundary(s[n]))
    ensures ContentEnd(s) == n
  {
    var m := ContentEnd(s);
    assert m < |s| ==> IsBoundary(s[m]);
    assert forall k :: 0 <= k < m ==> !IsBoundary(s[k]);
  }

  lemma HalvesOf(content: string, e: string)
    requires NoBoundary(content) && (e != [] ==> IsBoundary(e[0]))
    ensures Content(content + e) == content && Ending(content + e) == e
  {
    ContentEndIs(content + e, |content|);
  }

  lemma StripPlain(s: string)
    requires NoBoundary(s)
    ensures NoBoundary(Strip(s))
  {}

  // ---------- where lines end ----------

  lemma BoundaryMeans(c: char)
    ensures IsBoundary(c) <==> c as int in {10, 11, 12, 13, 28, 29, 30, 133, 8232, 8233}
  {}

  /** The first line is its text up to `m` and the boundary there, if there is one. */
  predicate IsFirstLine(text: string, m: nat, n: nat) {
    && m <= |text| && NoBoundary(text[..m])
    && if m == |text| then n == m
       else IsBoundary(text[m]) && n == m + if text[m] == '\r' && m + 1 < |text| && text[m + 1] == '\n' then 2 else 1
  }

  lemma {:induction false} FirstEndMeans(text: string) returns (m: nat)
    requires text != []
    ensures IsFirstLine(text, m, FirstEnd(text))
    decreases |text|
  {
    if IsBoundary(text[0]) {
      m := 0;
    } else if |text| == 1 {
      m := 1;
    } else {
      m := FirstEndMeans(text[1..]);
      m := m + 1;
      assert forall k :: 0 < k < |text| ==> text[k] == text[1..][k - 1];
      assert forall k :: 0 < k < m ==> text[..m][k] == text[1..][..m - 1][k - 1];
    }
  }

  /** Cutting a text into lines loses nothing. */
  lemma {:induction false} SplitKeepsText(text: string)
    ensures Concat(SplitLines(text)) == text && LinesOf(text) == Contents(SplitLines(text))
  {
    if text != [] {
      var raw, rest := text[..FirstEnd(text)], text[FirstEnd(text)..];
      SplitKeepsText(rest);
      assert SplitLines(text) == [raw] + SplitLines(rest);
      assert SplitLines(text)[1..] == SplitLines(rest) && raw + rest == text;
      assert forall i :: 0 < i < |SplitLines(text)| ==> SplitLines(text)[i] == SplitLines(rest)[i - 1];
    }
  }

  // ---------- lines without their endings ----------

  lemma LinesStep(text: string, n: nat)
    requires text != [] && n == FirstEnd(text)
    ensures LinesOf(text) == [Content(text[..n])] + LinesOf(text[n..])
  {}

  lemma OneLine(x: string)
    requires NoBoundary(x) && x != []
    ensures LinesOf(x) == [x]
  {
    FirstEndSkips(x, []);
    assert x + [] == x;
    LinesStep(x, |x|);
    ContentEndIs(x, |x|);
    assert x[..|x|] == x;
  }

  lemma {:induction false} LinesArePlain(text: string)
    ensures forall i :: 0 <= i < |LinesOf(text)| ==> NoBoundary(LinesOf(text)[i])
  {
    if text != [] {
      Halves(text[..FirstEnd(text)]);
      LinesArePlain(text[FirstEnd(text)..]);
    }
  }
}
