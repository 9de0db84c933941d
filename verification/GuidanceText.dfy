/** Parsing an inbox undoes rendering it, exactly when every body keeps its fences and headings to itself. */
module GuidanceText {
  import opened Common
  import opened Lines
  import opened TextLines
  import opened Guidance

  // ---------- texts and lines ----------

  predicate EndsOpen(x: string) {
    x == [] || !IsBoundary(x[|x| - 1])
  }

  lemma {:induction false} FirstEndPrefix(x: string, y: string)
    requires x != [] && EndsOpen(x) && !NoBoundary(x)
    ensures FirstEnd(x + y) == FirstEnd(x) < |x|
  {
    if IsBoundary(x[0]) {
      assert |x| > 1 && (x + y)[1] == x[1];
    } else {
      assert (x + y)[1..] == x[1..] + y;
      FirstEndPrefix(x[1..], y);
    }
  }

  /** The lines of a text that a line feed follows. */
  function LineList(x: string): seq<string> {
    if x == [] then [[]] else LinesOf(x)
  }

  lemma OneLineMore(x: string, t: string)
    requires NoBoundary(x)
    ensures LinesOf(x + "\n" + t) == [x] + LinesOf(t)
  {
    var text := x + ("\n" + t);
    assert text == x + "\n" + t;
    FirstEndSkips(x, "\n" + t);
    LinesStep(text, |x| + 1);
    assert text[..|x| + 1] == x + "\n" && text[|x| + 1..] == t;
    HalvesOf(x, "\n");
  }

  lemma CutTogether(x: string, t: string, n: nat)
    requires n <= |x|
    ensures x + "\n" + t == x + ("\n" + t) && (x + ("\n" + t))[..n] == x[..n] && (x + ("\n" + t))[n..] == x[n..] + "\n" + t
  {}

  lemma {:induction false} LinesAppend(x: string, t: string)
    requires EndsOpen(x)
    ensures LinesOf(x + "\n" + t) == LineList(x) + LinesOf(t)
    decreases |x|
  {
    if NoBoundary(x) {
      OneLineMore(x, t);
      if x != [] {
        OneLine(x);
      }
    } else {
      var n := FirstEnd(x);
      var y := "\n" + t;
      FirstEndPrefix(x, y);
      FirstEndPrefix(x, []);
      assert x + [] == x;
      LinesStep(x, n);
      LinesStep(x + y, n);
      CutTogether(x, t, n);
      LinesAppend(x[n..], t);
      Assoc([Content(x[..n])], LinesOf(x[n..]), LinesOf(t));
    }
  }

  // ---------- scanning ----------

  function Mark(line: string, fence: Option<Fence>): Option<Fence> {
    if FenceOf(line).Some? then NextFence(fence, FenceOf(line).value) else fence
  }

  lemma ScanStep(lines: seq<string>, i: nat, fence: Option<Fence>)
    requires i < |lines|
    ensures var line := lines[i];
            var rest := Scan(lines[i + 1..], Mark(line, fence));
            Scan(lines[i..], fence) ==
              if FenceOf(line).None? && fence.None? && IsEntryHeading(line) then Sections([], [Section(line[3..], rest.head)] + rest.tail, rest.ok)
              else Sections([line] + rest.head, rest.tail, rest.ok && (FenceOf(line).Some? || fence.Some? || !Starts(line, MARK)))
  {
    assert lines[i..][1..] == lines[i + 1..];
  }

  function FenceAfter(lines: seq<string>, fence: Option<Fence>): Option<Fence> {
    if lines == [] then fence else FenceAfter(lines[1..], Mark(lines[0], fence))
  }

  /** No line outside the fences looks like an entry heading. */
  predicate NoHeadings(lines: seq<string>, fence: Option<Fence>) {
    lines == [] ||
      ((FenceOf(lines[0]).Some? || fence.Some? || !Starts(lines[0], MARK)) && NoHeadings(lines[1..], Mark(lines[0], fence)))
  }

  lemma HeadingIsMarked(line: string)
    ensures IsEntryHeading(line) ==> Starts(line, MARK) && FenceOf(line).None?
  {
    if IsEntryHeading(line) {
      assert line[0] == line[..3][0] == '#';
      assert line[..6] == line[..3] + line[3..][..3];
    }
  }

  /** A line that is no heading goes to the section it follows. */
  lemma ScanLine(line: string, rest: seq<string>, fence: Option<Fence>)
    requires NoHeadings([line], fence)
    ensures var r := Scan(rest, Mark(line, fence)); Scan([line] + rest, fence) == Sections([line] + r.head, r.tail, r.ok)
  {
    FirstOfBoth([line], rest);
    assert [line][1..] + rest == rest;
    HeadingIsMarked(line);
  }

  /** Lines without headings go to the section they follow. */
  lemma {:induction false} ScanAppend(a: seq<string>, b: seq<string>, fence: Option<Fence>)
    requires NoHeadings(a, fence)
    ensures var r := Scan(b, FenceAfter(a, fence)); Scan(a + b, fence) == Sections(a + r.head, r.tail, r.ok)
    decreases |a|
  {
    if a == [] {
      assert a + b == b;
      assert Sections([] + Scan(b, fence).head, Scan(b, fence).tail, Scan(b, fence).ok) == Scan(b, fence);
    } else {
      ScanLine(a[0], a[1..] + b, fence);
      ScanAppend(a[1..], b, Mark(a[0], fence));
      assert [a[0]] + a[1..] == a;
      Assoc([a[0]], a[1..], b);
      Assoc([a[0]], a[1..], Scan(b, FenceAfter(a, fence)).head);
    }
  }

  lemma ScanHeading(id: string, b: seq<string>)
    requires IsEntryId(id)
    ensures var r := Scan(b, None); Scan(["## " + id] + b, None) == Sections([], [Section(id, r.head)] + r.tail, r.ok)
  {
    var line := "## " + id;
    assert line[..3] == "## " && line[3..] == id;
    HeadingIsMarked(line);
    assert ([line] + b)[1..] == b;
  }

  /** A body that keeps its fences and headings to itself. */
  predicate SelfContained(body: string) {
    NoHeadings(LinesOf(body), None) && FenceAfter(LinesOf(body), None).None?
  }

  // ---------- one entry ----------

  predicate OnlyNewlines(s: string) {
    forall i :: 0 <= i < |s| ==> IsBoundary(s[i]) ==> s[i] == '\n'
  }

  predicate IsField(s: string) {
    Strip(s) == s && NoBoundary(s)
  }

  /** What every parsed entry is. */
  predicate WellFormed(valid: string -> bool, e: Entry) {
    && IsEntryId(e.id) && e.session != [] && IsField(e.session) && IsField(e.submitted) && valid(e.submitted)
    && e.body != [] && Strip(e.body) == e.body && OnlyNewlines(e.body)
  }

  lemma BreaksAreSpaces(c: char)
    ensures IsBoundary(c) ==> IsSpace(c)
  {}

  lemma StrippedEndsOpen(s: string)
    requires Strip(s) == s
    ensures EndsOpen(s)
  {
    if s != [] {
      BreaksAreSpaces(s[|s| - 1]);
    }
  }

  lemma {:induction false} JoinedLines(body: string)
    requires body != [] && EndsOpen(body) && OnlyNewlines(body)
    ensures LinesOf(body) != [] && JoinLines(LinesOf(body)) == body
    decreases |body|
  {
    if NoBoundary(body) {
      OneLine(body);
    } else {
      var n := FirstEnd(body);
      FirstEndPrefix(body, []);
      assert body + [] == body;
      LinesStep(body, n);
      FirstLineEnds(body);
      JoinedLines(body[n..]);
      JoinFirst(body[..n - 1], LinesOf(body[n..]));
      CutAtNewline(body, n);
    }
  }

  lemma JoinFirst(line: string, rest: seq<string>)
    requires rest != []
    ensures JoinLines([line] + rest) == line + "\n" + JoinLines(rest)
  {
    assert ([line] + rest)[1..] == rest;
  }

  lemma CutAtNewline(s: string, n: nat)
    requires 0 < n <= |s| && s[n - 1] == '\n'
    ensures s == s[..n - 1] + "\n" + s[n..]
  {}

  lemma {:induction false} FirstLineEnds(body: string)
    requires body != [] && EndsOpen(body) && OnlyNewlines(body) && !NoBoundary(body)
    ensures var n := FirstEnd(body); n < |body| && body[n - 1] == '\n' && Content(body[..n]) == body[..n - 1]
  {
    var n := ContentEnd(body);
    FirstEndPrefix(body, []);
    assert body + [] == body;
    FirstBreak(body, n);
    ContentEndIs(body[..n + 1], n);
  }

  lemma FirstBreak(body: string, n: nat)
    requires n < |body| && NoBoundary(body[..n]) && body[n] == '\n'
    ensures FirstEnd(body) == n + 1
  {
    var rest := body[n..];
    assert rest[0] == '\n';
    assert FirstEnd(rest) == 1;
    assert body == body[..n] + rest;
    FirstEndSkips(body[..n], rest);
  }

  lemma {:induction false} JoinAppend(a: seq<string>, b: seq<string>)
    requires a != [] && b != []
    ensures JoinLines(a + b) == JoinLines(a) + "\n" + JoinLines(b)
  {
    if |a| == 1 {
      JoinFirst(a[0], b);
      assert a == [a[0]];
    } else {
      JoinAppend(a[1..], b);
      assert a + b == [a[0]] + (a[1..] + b);
      JoinFirst(a[0], a[1..] + b);
      JoinFirst(a[0], a[1..]);
      assert [a[0]] + a[1..] == a;
    }
  }

  lemma StripMore(s: string, more: string)
    requires s != [] && Strip(s) == s && AllSpace(more)
    ensures Strip(s + more) == s
  {
    var t := s + more;
    TrimEndIs(t, |s|);
    assert t[..|s|] == s;
  }

  lemma WordIsStart(word: string, value: string)
    requires IsField(value)
    ensures Starts(word + value, word) && ValueOf(word, word + value) == value
  {
    assert (word + value)[|word|..] == value;
  }

  lemma NotBlank(line: string)
    requires line != [] && !IsSpace(line[0])
    ensures !IsBlank(line)
  {}

  function ProvenanceLines(e: Entry): seq<string> {
    [[], SESSION + e.session, SUBMITTED + e.submitted, []]
  }

  lemma ProvenanceFirst(e: Entry, raw: seq<string>)
    ensures DropBlank(ProvenanceLines(e) + raw) == [SESSION + e.session, SUBMITTED + e.submitted, []] + raw
    ensures DropBlank([[]] + raw) == DropBlank(raw)
  {
    var lines := ProvenanceLines(e) + raw;
    var rest := [SESSION + e.session, SUBMITTED + e.submitted, []] + raw;
    assert lines[1..] == rest;
    NotBlank(SESSION + e.session);
    assert rest[0] == SESSION + e.session;
    assert IsBlank([]);
    assert ([[]] + raw)[1..] == raw;
  }

  /** The entry that a block of two provenance lines, a blank line and a body makes. */
  function EntryFrom(valid: string -> bool, id: string, session: string, submitted: string, body: string): Option<Entry> {
    if session == [] || !valid(submitted) || body == [] then None else Some(Entry(id, session, submitted, body))
  }

  lemma EntryOfBlock(valid: string -> bool, section: Section, s: string, t: string, raw: seq<string>)
    requires DropBlank(section.lines) == [s, t, []] + raw && DropBlank([[]] + raw) == DropBlank(raw) && Starts(t, SUBMITTED)
    ensures EntryOf(valid, section) == EntryFrom(valid, section.id, ValueOf(SESSION, s), ValueOf(SUBMITTED, t), Strip(JoinLines(DropBlank(raw))))
  {
    var block := [s, t, []] + raw;
    assert block[1..] == [t, []] + raw && block[1..][1..] == [[]] + raw;
    assert First(block) == s && Rest(block) == block[1..] && First(Rest(block)) == t && Rest(Rest(block)) == [[]] + raw;
  }

  /** Provenance, a blank line, and any lines whose text is the body. */
  lemma EntryParses(valid: string -> bool, e: Entry, raw: seq<string>)
    requires e.session != [] && IsField(e.session) && IsField(e.submitted) && valid(e.submitted)
    ensures var body := Strip(JoinLines(DropBlank(raw)));
            EntryOf(valid, Section(e.id, ProvenanceLines(e) + raw)) == if body == [] then None else Some(e.(body := body))
  {
    ProvenanceFirst(e, raw);
    WordIsStart(SESSION, e.session);
    WordIsStart(SUBMITTED, e.submitted);
    EntryOfBlock(valid, Section(e.id, ProvenanceLines(e) + raw), SESSION + e.session, SUBMITTED + e.submitted, raw);
  }

  lemma FirstLineOfBody(body: string)
    requires body != [] && Strip(body) == body && OnlyNewlines(body)
    ensures LinesOf(body) != [] && LinesOf(body)[0] != [] && LinesOf(body)[0][0] == body[0] && !IsBlank(LinesOf(body)[0])
  {
    StrippedEndsOpen(body);
    BreaksAreSpaces(body[0]);
    if NoBoundary(body) {
      OneLine(body);
    } else {
      FirstLineEnds(body);
      LinesStep(body, FirstEnd(body));
    }
    NotBlank(LinesOf(body)[0]);
  }

  lemma DropNone(lines: seq<string>)
    requires lines != [] && !IsBlank(lines[0])
    ensures DropBlank(lines) == lines
  {}

  /** The lines of a rendered body, with or without the blank line before the next heading, give the body back. */
  lemma BodyComesBack(body: string)
    requires body != [] && Strip(body) == body && OnlyNewlines(body)
    ensures Strip(JoinLines(DropBlank(LinesOf(body)))) == body
    ensures Strip(JoinLines(DropBlank(LinesOf(body) + [[]]))) == body
  {
    FirstLineOfBody(body);
    StrippedEndsOpen(body);
    JoinedLines(body);
    DropNone(LinesOf(body));
    DropNone(LinesOf(body) + [[]]);
    JoinAppend(LinesOf(body), [[]]);
    StripMore(body, "\n");
    assert body + "\n" + [] == body + "\n";
  }

  // ---------- the rendered document ----------

  function LineLists(chunks: seq<string>): seq<string> {
    if chunks == [] then [] else LineList(chunks[0]) + LineLists(chunks[1..])
  }

  predicate AllEndOpen(chunks: seq<string>) {
    forall i :: 0 <= i < |chunks| ==> EndsOpen(chunks[i])
  }

  /** Chunks joined by line feeds are read chunk by chunk. */
  lemma {:induction false} ChunkLines(chunks: seq<string>)
    requires chunks != [] && AllEndOpen(chunks)
    ensures LinesOf(JoinLines(chunks) + "\n") == LineLists(chunks)
    decreases |chunks|
  {
    if |chunks| == 1 {
      LinesAppend(chunks[0], []);
      assert chunks[0] + "\n" + [] == chunks[0] + "\n";
    } else {
      ChunkLines(chunks[1..]);
      LinesAppend(chunks[0], JoinLines(chunks[1..]) + "\n");
      assert JoinLines(chunks) + "\n" == chunks[0] + "\n" + (JoinLines(chunks[1..]) + "\n");
    }
  }

  lemma LineListsFirst(chunk: string, rest: seq<string>)
    ensures LineLists([chunk] + rest) == LineList(chunk) + LineLists(rest)
  {
    assert ([chunk] + rest)[1..] == rest;
  }

  lemma {:induction false} LineListsAppend(a: seq<string>, b: seq<string>)
    ensures LineLists(a + b) == LineLists(a) + LineLists(b)
  {
    if a == [] {
      assert a + b == b;
    } else {
      LineListsAppend(a[1..], b);
      LineListsFirst(a[0], a[1..] + b);
      LineListsFirst(a[0], a[1..]);
      assert [a[0]] + a[1..] == a;
      Assoc([a[0]], a[1..], b);
      Assoc(LineList(a[0]), LineLists(a[1..]), LineLists(b));
    }
  }

  lemma PlainLineList(x: string)
    requires NoBoundary(x)
    ensures LineList(x) == [x]
  {
    if x != [] {
      OneLine(x);
    }
  }

  lemma {:induction false} PlainLineLists(chunks: seq<string>)
    requires forall i :: 0 <= i < |chunks| ==> NoBoundary(chunks[i])
    ensures LineLists(chunks) == chunks
  {
    if chunks != [] {
      PlainLineList(chunks[0]);
      PlainLineLists(chunks[1..]);
    }
  }

  function HeadLines(e: Entry): seq<string> {
    [[], "## " + e.id] + ProvenanceLines(e)
  }

  lemma PlainTogether(a: string, b: string)
    requires NoBoundary(a) && NoBoundary(b)
    ensures NoBoundary(a + b)
  {}

  lemma IdIsPlain(id: string)
    requires IsEntryId(id)
    ensures NoBoundary(id)
  {
    forall i | 0 <= i < |id| ensures !IsBoundary(id[i]) {
      if i < 3 {
        assert id[i] == id[..3][i];
      }
    }
  }

  lemma WordsArePlain()
    ensures NoBoundary(SESSION) && NoBoundary(SUBMITTED) && NoBoundary("## ")
  {}

  lemma FieldsArePlain(valid: string -> bool, e: Entry)
    requires WellFormed(valid, e)
    ensures NoBoundary(e.id) && NoBoundary(e.session) && NoBoundary(e.submitted) && Strip(e.body) == e.body && EndsOpen(e.body)
  {
    IdIsPlain(e.id);
    StrippedEndsOpen(e.body);
  }

  lemma HeadLinesPlain(e: Entry)
    requires NoBoundary(e.id) && NoBoundary(e.session) && NoBoundary(e.submitted)
    ensures forall i :: 0 <= i < |HeadLines(e)| ==> NoBoundary(HeadLines(e)[i])
  {
    WordsArePlain();
    PlainTogether("## ", e.id);
    PlainTogether(SESSION, e.session);
    PlainTogether(SUBMITTED, e.submitted);
    SixPlain("## " + e.id, SESSION + e.session, SUBMITTED + e.submitted);
  }

  lemma SixPlain(a: string, b: string, c: string)
    requires NoBoundary(a) && NoBoundary(b) && NoBoundary(c)
    ensures var lines := [[], a, [], b, c, []]; forall i :: 0 <= i < |lines| ==> NoBoundary(lines[i])
  {}

  /** The lines of the rendered entries. */
  function RenderLines(es: seq<Entry>): seq<string> {
    if es == [] then [] else HeadLines(es[0]) + LinesOf(es[0].body) + RenderLines(es[1..])
  }

  lemma EntryChunkLines(valid: string -> bool, e: Entry)
    requires WellFormed(valid, e)
    ensures LineLists(EntryChunks(e)) == HeadLines(e) + LinesOf(e.body) && AllEndOpen(EntryChunks(e))
  {
    FieldsArePlain(valid, e);
    PlainChunkLines(e);
  }

  lemma PlainChunkLines(e: Entry)
    requires NoBoundary(e.id) && NoBoundary(e.session) && NoBoundary(e.submitted) && Strip(e.body) == e.body && EndsOpen(e.body) && e.body != []
    ensures LineLists(EntryChunks(e)) == HeadLines(e) + LinesOf(e.body) && AllEndOpen(EntryChunks(e))
  {
    HeadLinesPlain(e);
    PlainLineLists(HeadLines(e));
    assert EntryChunks(e) == HeadLines(e) + [e.body];
    LineListsAppend(HeadLines(e), [e.body]);
    LineListsFirst(e.body, []);
    assert [e.body] + [] == [e.body];
  }

  predicate AllWellFormed(valid: string -> bool, es: seq<Entry>) {
    forall i :: 0 <= i < |es| ==> WellFormed(valid, es[i])
  }

  lemma {:induction false} RenderedLines(valid: string -> bool, es: seq<Entry>)
    requires AllWellFormed(valid, es)
    ensures LineLists(Chunks(es)) == RenderLines(es) && AllEndOpen(Chunks(es))
  {
    if es != [] {
      EntryChunkLines(valid, es[0]);
      RenderedLines(valid, es[1..]);
      LineListsAppend(EntryChunks(es[0]), Chunks(es[1..]));
    }
  }

  lemma {:induction false} JoinEnds(chunks: seq<string>)
    requires chunks != [] && chunks[|chunks| - 1] != []
    ensures var t, c := JoinLines(chunks), chunks[|chunks| - 1]; t != [] && t[|t| - 1] == c[|c| - 1]
  {
    if |chunks| > 1 {
      JoinEnds(chunks[1..]);
    }
  }

  predicate EndsInText(chunks: seq<string>) {
    chunks != [] && var c := chunks[|chunks| - 1]; c != [] && !IsSpace(c[|c| - 1])
  }

  lemma {:induction false} LastChunk(valid: string -> bool, es: seq<Entry>)
    requires AllWellFormed(valid, es)
    ensures EndsInText([TITLE] + Chunks(es))
  {
    if es != [] {
      LastChunk(valid, es[1..]);
      LastOfEntry(valid, es[0]);
      LastOfMore(EntryChunks(es[0]), Chunks(es[1..]));
    }
  }

  lemma LastOfEntry(valid: string -> bool, e: Entry)
    requires WellFormed(valid, e)
    ensures EndsInText(EntryChunks(e))
  {
    assert EntryChunks(e)[6] == e.body;
  }

  lemma LastOfMore(first: seq<string>, more: seq<string>)
    requires EndsInText(first) && EndsInText([TITLE] + more)
    ensures EndsInText([TITLE] + (first + more))
  {
    var all := [TITLE] + (first + more);
    if more == [] {
      assert all[|all| - 1] == first[|first| - 1];
    } else {
      assert all[|all| - 1] == more[|more| - 1] == ([TITLE] + more)[|more|];
    }
  }

  /** Nothing is trimmed. */
  lemma RenderText(valid: string -> bool, es: seq<Entry>)
    requires AllWellFormed(valid, es)
    ensures Render(es) == JoinLines([TITLE] + Chunks(es)) + "\n"
  {
    var chunks := [TITLE] + Chunks(es);
    assert EndsInText(chunks) by {
      LastChunk(valid, es);
    }
    NotTrimmed(chunks);
  }

  lemma NotTrimmed(chunks: seq<string>)
    requires EndsInText(chunks)
    ensures TrimmedEnd(JoinLines(chunks)) == JoinLines(chunks)
  {
    var t := JoinLines(chunks);
    JoinEnds(chunks);
    TrimEndIs(t, |t|);
    TakeAll(t);
  }

  lemma RenderIs(valid: string -> bool, es: seq<Entry>)
    requires AllWellFormed(valid, es)
    ensures LinesOf(Render(es)) == [TITLE] + RenderLines(es)
  {
    RenderText(valid, es);
    RenderedLines(valid, es);
    TitledLines(Chunks(es));
  }

  lemma TitleIsPlain()
    ensures NoBoundary(TITLE) && LineList(TITLE) == [TITLE]
  {
    PlainLineList(TITLE);
  }

  lemma TitledLines(chunks: seq<string>)
    requires AllEndOpen(chunks)
    ensures LinesOf(JoinLines([TITLE] + chunks) + "\n") == [TITLE] + LineLists(chunks)
  {
    TitleIsPlain();
    assert AllEndOpen([TITLE]);
    AllEndOpenTogether([TITLE], chunks);
    ChunkLines([TITLE] + chunks);
    LineListsFirst(TITLE, chunks);
  }

  lemma AllEndOpenTogether(a: seq<string>, b: seq<string>)
    requires AllEndOpen(a) && AllEndOpen(b)
    ensures AllEndOpen(a + b)
  {}
}
