/** Parsing a rendered inbox. */
module GuidanceRoundTrip {
  import opened TextLines
  import opened Common
  import opened Lines
  import opened Guidance
  import opened GuidanceMerge
  import opened GuidanceText

  /** What follows the first entry heading. */
  function AfterHeading(es: seq<Entry>): seq<string>
    requires es != []
  {
    ProvenanceLines(es[0]) + (LinesOf(es[0].body) + RenderLines(es[1..]))
  }

  lemma RenderSplits(es: seq<Entry>)
    requires es != []
    ensures RenderLines(es) == [[]] + (["## " + es[0].id] + AfterHeading(es))
  {
    Grouped([], "## " + es[0].id, ProvenanceLines(es[0]), LinesOf(es[0].body), RenderLines(es[1..]));
  }

  lemma Grouped(a: string, b: string, c: seq<string>, d: seq<string>, e: seq<string>)
    ensures ([a, b] + c) + d + e == [a] + ([b] + (c + (d + e)))
  {}

  lemma QuietLine(line: string)
    requires line == [] || line[0] == 'S'
    ensures FenceOf(line).None? && !Starts(line, MARK)
  {
    if Starts(line, MARK) {
      StartsFirst(line, MARK);
    }
  }

  lemma StartsFirst(line: string, word: string)
    requires Starts(line, word) && word != []
    ensures line != [] && line[0] == word[0]
  {
    assert line[..|word|][0] == line[0];
  }

  lemma QuietOne(line: string, fence: Option<Fence>)
    requires FenceOf(line).None? && !Starts(line, MARK)
    ensures NoHeadings([line], fence) && FenceAfter([line], fence) == fence
  {
    assert [line][1..] == [];
  }

  lemma {:induction false} HeadingsTogether(a: seq<string>, b: seq<string>, fence: Option<Fence>)
    ensures NoHeadings(a + b, fence) <==> NoHeadings(a, fence) && NoHeadings(b, FenceAfter(a, fence))
    ensures FenceAfter(a + b, fence) == FenceAfter(b, FenceAfter(a, fence))
    decreases |a|
  {
    if a == [] {
      assert a + b == b;
    } else {
      assert (a + b)[1..] == a[1..] + b;
      HeadingsTogether(a[1..], b, Mark(a[0], fence));
    }
  }

  lemma ProvenanceIsQuiet(e: Entry)
    ensures NoHeadings(ProvenanceLines(e), None) && FenceAfter(ProvenanceLines(e), None) == None
  {
    var s, t := SESSION + e.session, SUBMITTED + e.submitted;
    QuietLine([]);
    QuietLine(s);
    QuietLine(t);
    QuietOne([], None);
    QuietOne(s, None);
    QuietOne(t, None);
    HeadingsTogether([[]], [s], None);
    HeadingsTogether([[]] + [s], [t], None);
    HeadingsTogether([[]] + [s] + [t], [[]], None);
    assert ProvenanceLines(e) == [[]] + [s] + [t] + [[]];
  }

  predicate SameIds(es: seq<Entry>, sections: seq<Section>) {
    |es| == |sections| && forall i :: 0 <= i < |es| ==> es[i].id == sections[i].id
  }

  lemma SameIdsFirst(e: Entry, es: seq<Entry>, sections: seq<Section>)
    requires sections != [] && e.id == sections[0].id && SameIds(es, sections[1..])
    ensures SameIds([e] + es, sections)
  {
    forall i | 0 <= i < |sections| ensures ([e] + es)[i].id == sections[i].id {
      assert i > 0 ==> sections[i] == sections[1..][i - 1] && es[i - 1].id == sections[1..][i - 1].id;
    }
  }

  lemma {:induction false} EntriesKeepIds(valid: string -> bool, sections: seq<Section>)
    ensures EntriesOf(valid, sections).Some? ==> SameIds(EntriesOf(valid, sections).value, sections)
  {
    if sections != [] && EntriesOf(valid, sections).Some? {
      EntriesKeepIds(valid, sections[1..]);
      SameIdsFirst(EntryOf(valid, sections[0]).value, EntriesOf(valid, sections[1..]).value, sections);
    }
  }

  /** Scanning from a heading on, the blank line before the next heading goes to the body. */
  lemma ScanNext(es: seq<Entry>)
    requires es != [] && IsEntryId(es[0].id)
    ensures var q := Scan(AfterHeading(es), None);
            Scan(RenderLines(es), None) == Sections([[]], [Section(es[0].id, q.head)] + q.tail, q.ok)
  {
    RenderSplits(es);
    QuietLine([]);
    QuietOne([], None);
    ScanAppend([[]], ["## " + es[0].id] + AfterHeading(es), None);
    ScanHeading(es[0].id, AfterHeading(es));
    var none: seq<string> := [];
    assert [[]] + none == [[]];
  }

  lemma ScanProvenance(es: seq<Entry>)
    requires es != []
    ensures var r := Scan(LinesOf(es[0].body) + RenderLines(es[1..]), None);
            Scan(AfterHeading(es), None) == Sections(ProvenanceLines(es[0]) + r.head, r.tail, r.ok)
  {
    ProvenanceIsQuiet(es[0]);
    ScanAppend(ProvenanceLines(es[0]), LinesOf(es[0].body) + RenderLines(es[1..]), None);
  }

  // ---------- self-contained bodies come back ----------

  predicate AllSelfContained(es: seq<Entry>) {
    forall i :: 0 <= i < |es| ==> SelfContained(es[i].body)
  }

  /** The sections from the first heading of `es` on give exactly `es`. */
  ghost predicate ComesBack(valid: string -> bool, es: seq<Entry>)
    requires es != []
  {
    GivesBack(valid, es, Scan(AfterHeading(es), None))
  }

  ghost predicate GivesBack(valid: string -> bool, es: seq<Entry>, r: Sections)
    requires es != []
  {
    r.ok && EntriesOf(valid, [Section(es[0].id, r.head)] + r.tail) == Some(es)
  }

  lemma EntriesFirst(valid: string -> bool, s: Section, rest: seq<Section>)
    ensures EntriesOf(valid, [s] + rest) ==
      if EntryOf(valid, s).Some? && EntriesOf(valid, rest).Some? then Some([EntryOf(valid, s).value] + EntriesOf(valid, rest).value) else None
  {
    assert ([s] + rest)[1..] == rest;
  }

  lemma BodyParses(valid: string -> bool, e: Entry)
    requires WellFormed(valid, e)
    ensures EntryOf(valid, Section(e.id, ProvenanceLines(e) + LinesOf(e.body))) == Some(e)
    ensures EntryOf(valid, Section(e.id, ProvenanceLines(e) + (LinesOf(e.body) + [[]]))) == Some(e)
  {
    BodyComesBack(e.body);
    EntryParses(valid, e, LinesOf(e.body));
    EntryParses(valid, e, LinesOf(e.body) + [[]]);
  }

  lemma GivesBackFrom(valid: string -> bool, es: seq<Entry>, head: seq<string>, tail: seq<Section>)
    requires es != [] && EntryOf(valid, Section(es[0].id, head)) == Some(es[0]) && EntriesOf(valid, tail) == Some(es[1..])
    ensures GivesBack(valid, es, Sections(head, tail, true))
  {
    EntriesCons(valid, Section(es[0].id, head), tail, es[0], es[1..]);
    FirstAndRest(es);
  }

  lemma EntriesCons(valid: string -> bool, s: Section, rest: seq<Section>, e: Entry, es: seq<Entry>)
    requires EntryOf(valid, s) == Some(e) && EntriesOf(valid, rest) == Some(es)
    ensures EntriesOf(valid, [s] + rest) == Some([e] + es)
  {
    EntriesFirst(valid, s, rest);
  }

  lemma FirstAndRest<T>(xs: seq<T>)
    requires xs != []
    ensures xs == [xs[0]] + xs[1..]
  {}

  lemma ComesBackFrom(valid: string -> bool, es: seq<Entry>, r: Sections)
    requires es != [] && r == Scan(LinesOf(es[0].body) + RenderLines(es[1..]), None) && r.ok
    requires EntryOf(valid, Section(es[0].id, ProvenanceLines(es[0]) + r.head)) == Some(es[0]) && EntriesOf(valid, r.tail) == Some(es[1..])
    ensures ComesBack(valid, es)
  {
    ScanProvenance(es);
    GivesBackFrom(valid, es, ProvenanceLines(es[0]) + r.head, r.tail);
  }

  lemma ScanBody(body: string, rest: seq<string>)
    requires SelfContained(body)
    ensures var r := Scan(rest, None); Scan(LinesOf(body) + rest, None) == Sections(LinesOf(body) + r.head, r.tail, r.ok)
  {
    ScanAppend(LinesOf(body), rest, None);
  }

  lemma LastComesBack(valid: string -> bool, es: seq<Entry>)
    requires |es| == 1 && AllWellFormed(valid, es) && AllSelfContained(es)
    ensures ComesBack(valid, es)
  {
    assert es[1..] == [] && WellFormed(valid, es[0]) && SelfContained(es[0].body);
    ScanBody(es[0].body, []);
    BodyParses(valid, es[0]);
    var body := LinesOf(es[0].body);
    assert body + [] == body;
    ComesBackFrom(valid, es, Sections(body, [], true));
  }

  lemma FirstComesBack(valid: string -> bool, es: seq<Entry>)
    requires |es| > 1 && AllWellFormed(valid, es) && SelfContained(es[0].body) && ComesBack(valid, es[1..])
    ensures ComesBack(valid, es)
  {
    assert WellFormed(valid, es[0]) && WellFormed(valid, es[1]);
    ScanBody(es[0].body, RenderLines(es[1..]));
    BodyParses(valid, es[0]);
    ScanNext(es[1..]);
    var q := Scan(AfterHeading(es[1..]), None);
    ComesBackFrom(valid, es, Sections(LinesOf(es[0].body) + [[]], [Section(es[1].id, q.head)] + q.tail, q.ok));
  }

  lemma {:induction false} SelfContainedComesBack(valid: string -> bool, es: seq<Entry>)
    requires es != [] && AllWellFormed(valid, es) && AllSelfContained(es)
    ensures ComesBack(valid, es)
    decreases |es|
  {
    if |es| == 1 {
      LastComesBack(valid, es);
    } else {
      SelfContainedComesBack(valid, es[1..]);
      FirstComesBack(valid, es);
    }
  }

  // ---------- and others do not ----------

  /** What a scan that stops at line `m` says. */
  ghost predicate StopsAt(lines: seq<string>, fence: Option<Fence>, m: nat) {
    var r := Scan(lines, fence);
    && m <= |lines| && r.head == lines[..m]
    && (r.ok ==> NoHeadings(lines[..m], fence))
    && (m == |lines| ==> r.tail == [] && (r.ok ==> FenceAfter(lines[..m], fence).None?))
    && (m < |lines| ==> FenceAfter(lines[..m], fence).None? && IsEntryHeading(lines[m]) && GoesOn(r, lines[m], lines[m + 1..]))
  }

  ghost predicate GoesOn(r: Sections, line: string, rest: seq<string>)
    requires |line| >= 3
  {
    var q := Scan(rest, None);
    r.tail == [Section(line[3..], q.head)] + q.tail && (r.ok ==> q.ok)
  }

  lemma {:induction false} ScanHead(lines: seq<string>, fence: Option<Fence>)
    ensures StopsAt(lines, fence, |Scan(lines, fence).head|)
    decreases |lines|
  {
    if lines != [] {
      var next := Mark(lines[0], fence);
      var m := |Scan(lines[1..], next).head|;
      if FenceOf(lines[0]).None? && fence.None? && IsEntryHeading(lines[0]) {
        assert lines[..0] == [];
      } else {
        ScanHead(lines[1..], next);
        assert lines[..m + 1][1..] == lines[1..][..m] && lines[..m + 1] == [lines[0]] + lines[1..][..m];
        assert m < |lines| - 1 ==> lines[m + 1] == lines[1..][m] && lines[m + 2..] == lines[1..][m + 1..];
      }
    }
  }

  lemma ShorterJoin(lines: seq<string>, m: nat)
    requires 0 < m < |lines|
    ensures |JoinLines(lines[..m])| < |JoinLines(lines)|
  {
    JoinAppend(lines[..m], lines[m..]);
    assert lines == lines[..m] + lines[m..];
  }

  /** A text that goes on past its body after a blank line strips to something longer. */
  lemma LongerStrip(body: string, tail: string)
    requires body != [] && !IsSpace(body[0]) && tail != [] && !IsSpace(tail[0])
    ensures |Strip(body + "\n" + ([] + "\n" + tail))| > |body|
  {
    var t := body + "\n" + ([] + "\n" + tail);
    assert t[|body| + 2] == tail[0];
    assert TrimEnd(t) >= |body| + 3;
    assert t[..TrimEnd(t)][0] == body[0];
  }

  lemma JoinStartsWith(line: string, rest: seq<string>)
    requires line != []
    ensures JoinLines([line] + rest) != [] && JoinLines([line] + rest)[0] == line[0]
  {
    if rest != [] {
      JoinFirst(line, rest);
    }
  }

  lemma ShortBody(e: Entry, m: nat)
    requires e.body != [] && Strip(e.body) == e.body && OnlyNewlines(e.body) && m < |LinesOf(e.body)|
    ensures Strip(JoinLines(DropBlank(LinesOf(e.body)[..m]))) != e.body
  {
    FirstLineOfBody(e.body);
    StrippedEndsOpen(e.body);
    JoinedLines(e.body);
    if m > 0 {
      DropNone(LinesOf(e.body)[..m]);
      ShorterJoin(LinesOf(e.body), m);
    }
  }

  /** The blank line and the heading after a body, then `k` more lines. */
  lemma PastBody(e: Entry, rest: seq<Entry>, m: nat)
    requires rest != [] && |LinesOf(e.body)| + 2 <= m <= |LinesOf(e.body) + RenderLines(rest)|
    ensures var more := (LinesOf(e.body) + RenderLines(rest))[|LinesOf(e.body)| + 2..m];
            (LinesOf(e.body) + RenderLines(rest))[..m] == LinesOf(e.body) + ([[]] + (["## " + rest[0].id] + more))
  {
    RenderSplits(rest);
    PastTwo(LinesOf(e.body), [], "## " + rest[0].id, AfterHeading(rest), m);
  }

  lemma PastTwo(first: seq<string>, a: string, b: string, rest: seq<string>, m: nat)
    requires var lines := first + ([a] + ([b] + rest)); |first| + 2 <= m <= |lines|
    ensures var lines := first + ([a] + ([b] + rest)); lines[..m] == first + ([a] + ([b] + lines[|first| + 2..m]))
  {}

  lemma CutInFirst<T>(a: seq<T>, b: seq<T>, m: nat)
    requires m <= |a|
    ensures (a + b)[..m] == a[..m]
  {}

  /** Only the body's own lines, and the blank line before the next heading, strip to the body. */
  lemma BodyEndsThere(e: Entry, rest: seq<Entry>, m: nat)
    requires e.body != [] && Strip(e.body) == e.body && OnlyNewlines(e.body)
    requires var lines := LinesOf(e.body) + RenderLines(rest);
             m <= |lines| && Strip(JoinLines(DropBlank(lines[..m]))) == e.body && (m < |lines| ==> IsEntryHeading(lines[m]))
    ensures m == |LinesOf(e.body)| + if rest == [] then 0 else 1
  {
    var n := |LinesOf(e.body)|;
    var lines := LinesOf(e.body) + RenderLines(rest);
    if rest != [] {
      RenderSplits(rest);
      assert n < |lines| && lines[n] == [];
    }
    if m < n {
      CutInFirst(LinesOf(e.body), RenderLines(rest), m);
      ShortBody(e, m);
    } else if rest != [] && m > n + 1 {
      PastBody(e, rest, m);
      LongBody(e, "## " + rest[0].id, lines[n + 2..m]);
    }
  }

  lemma LongBody(e: Entry, heading: string, more: seq<string>)
    requires e.body != [] && Strip(e.body) == e.body && OnlyNewlines(e.body) && heading != [] && !IsSpace(heading[0])
    ensures Strip(JoinLines(DropBlank(LinesOf(e.body) + ([[]] + ([heading] + more))))) != e.body
  {
    FirstLineOfBody(e.body);
    StrippedEndsOpen(e.body);
    JoinedLines(e.body);
    var tail := [heading] + more;
    DropNone(LinesOf(e.body) + ([[]] + tail));
    JoinAppend(LinesOf(e.body), [[]] + tail);
    JoinFirst([], tail);
    JoinStartsWith(heading, more);
    LongerStrip(e.body, JoinLines(tail));
  }

  /** An entry that comes back has its own lines for a body, and they are self-contained. */
  lemma FirstIsSelfContained(valid: string -> bool, es: seq<Entry>)
    requires es != [] && AllWellFormed(valid, es) && ComesBack(valid, es)
    ensures SelfContained(es[0].body)
    ensures |es| > 1 ==> ComesBack(valid, es[1..])
  {
    var e := es[0];
    var lines := LinesOf(e.body) + RenderLines(es[1..]);
    var r := Scan(lines, None);
    ScanProvenance(es);
    ScanHead(lines, None);
    EntriesFirst(valid, Section(e.id, ProvenanceLines(e) + r.head), r.tail);
    assert WellFormed(valid, e);
    EntryParses(valid, e, r.head);
    SplitFirst(EntryOf(valid, Section(e.id, ProvenanceLines(e) + r.head)).value, EntriesOf(valid, r.tail).value, es);
    BodyEndsThere(e, es[1..], |r.head|);
    PrefixIsSelfContained(e.body, es[1..], |r.head|);
    if |es| > 1 {
      NextComesBack(valid, es, r);
    }
  }

  lemma SplitFirst(e: Entry, rest: seq<Entry>, es: seq<Entry>)
    requires [e] + rest == es
    ensures es[0] == e && es[1..] == rest
  {}

  lemma PrefixIsSelfContained(body: string, rest: seq<Entry>, m: nat)
    requires m == |LinesOf(body)| + (if rest == [] then 0 else 1) && m <= |LinesOf(body) + RenderLines(rest)|
    requires var lines := LinesOf(body) + RenderLines(rest);
             NoHeadings(lines[..m], None) && FenceAfter(lines[..m], None).None?
    ensures SelfContained(body)
  {
    var lines := LinesOf(body) + RenderLines(rest);
    if rest == [] {
      assert lines[..m] == LinesOf(body);
    } else {
      RenderSplits(rest);
      assert lines[..m] == LinesOf(body) + [[]];
      QuietLine([]);
      HeadingsTogether(LinesOf(body), [[]], None);
      QuietOne([], FenceAfter(LinesOf(body), None));
    }
  }

  lemma NextComesBack(valid: string -> bool, es: seq<Entry>, r: Sections)
    requires |es| > 1 && AllWellFormed(valid, es) && r == Scan(LinesOf(es[0].body) + RenderLines(es[1..]), None)
    requires |r.head| == |LinesOf(es[0].body)| + 1 && r.ok && EntriesOf(valid, r.tail) == Some(es[1..])
    ensures ComesBack(valid, es[1..])
  {
    var lines := LinesOf(es[0].body) + RenderLines(es[1..]);
    ScanHead(lines, None);
    AtNextHeading(LinesOf(es[0].body), es[1..]);
    assert ("## " + es[1].id)[3..] == es[1].id;
  }

  lemma AtNextHeading(body: seq<string>, rest: seq<Entry>)
    requires rest != []
    ensures var lines, n := body + RenderLines(rest), |body| + 1;
            n < |lines| && lines[n] == "## " + rest[0].id && lines[n + 1..] == AfterHeading(rest)
  {
    RenderSplits(rest);
    assert RenderLines(rest)[0] == [] && RenderLines(rest)[1] == "## " + rest[0].id && RenderLines(rest)[2..] == AfterHeading(rest);
    assert (body + RenderLines(rest))[|body| + 2..] == RenderLines(rest)[2..];
  }

  lemma {:induction false} ComesBackSelfContained(valid: string -> bool, es: seq<Entry>)
    requires es != [] && AllWellFormed(valid, es) && ComesBack(valid, es)
    ensures AllSelfContained(es)
    decreases |es|
  {
    FirstIsSelfContained(valid, es);
    if |es| > 1 {
      ComesBackSelfContained(valid, es[1..]);
    }
    SelfContainedTogether(es);
  }

  lemma SelfContainedTogether(es: seq<Entry>)
    requires es != [] && SelfContained(es[0].body) && AllSelfContained(es[1..])
    ensures AllSelfContained(es)
  {
    forall i | 0 <= i < |es| ensures SelfContained(es[i].body) {
      assert i > 0 ==> es[i] == es[1..][i - 1];
    }
  }

  // ---------- parsing a rendered inbox ----------

  lemma DistinctSections(es: seq<Entry>, sections: seq<Section>)
    requires SameIds(es, sections)
    ensures DistinctEntries(es) <==> DistinctIds(sections)
  {
    assert forall i :: 0 <= i < |es| ==> es[i].id == sections[i].id;
  }

  lemma ParsedSections(valid: string -> bool, es: seq<Entry>)
    requires es != [] && AllWellFormed(valid, es)
    ensures var q := Scan(AfterHeading(es), None);
            var sections := [Section(es[0].id, q.head)] + q.tail;
            Parse(valid, Render(es)) == if q.ok && DistinctIds(sections) then EntriesOf(valid, sections) else None
  {
    RenderIs(valid, es);
    assert ([TITLE] + RenderLines(es))[1..] == RenderLines(es);
    assert WellFormed(valid, es[0]);
    ScanNext(es);
    ParsedScan(valid, [TITLE] + RenderLines(es));
  }

  /** A blank line before the first heading is no content. */
  lemma ParsedScan(valid: string -> bool, lines: seq<string>)
    requires lines != [] && lines[0] == TITLE && Scan(lines[1..], None).head == [[]]
    ensures var r := Scan(lines[1..], None);
            ParseLines(valid, lines) == if r.ok && DistinctIds(r.tail) then EntriesOf(valid, r.tail) else None
  {
    var s := Scan(lines[1..], None);
    BlankHead(s.head);
  }

  lemma BlankHead(head: seq<string>)
    requires head == [[]]
    ensures AllBlank(head)
  {
    assert IsBlank([]);
  }

  /** Rendering entries and parsing the text gives them back exactly if every body is self-contained. */
  lemma ParseUndoesRender(valid: string -> bool, es: seq<Entry>)
    requires AllWellFormed(valid, es) && DistinctEntries(es)
    ensures Parse(valid, Render(es)) == Some(es) <==> AllSelfContained(es)
  {
    if es == [] {
      RenderIs(valid, es);
      assert ([TITLE] + RenderLines(es))[1..] == [];
    } else {
      ParsedSections(valid, es);
      var q := Scan(AfterHeading(es), None);
      EntriesKeepIds(valid, [Section(es[0].id, q.head)] + q.tail);
      if AllSelfContained(es) {
        SelfContainedComesBack(valid, es);
        DistinctSections(es, [Section(es[0].id, q.head)] + q.tail);
      }
      if Parse(valid, Render(es)) == Some(es) {
        ComesBackSelfContained(valid, es);
      }
    }
  }
}
