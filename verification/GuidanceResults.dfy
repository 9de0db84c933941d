/** What the merge of inbox texts promises, and the one promise it breaks. */
module GuidanceResults {
  import opened Common
  import opened Lines
  import opened TextLines
  import opened Guidance
  import opened GuidanceMerge
  import opened GuidanceText
  import opened GuidanceRoundTrip

  // ---------- what parsing gives ----------

  lemma StripIsPart(s: string)
    ensures var n := TrimEnd(s); var i := Skip(IsSpace, s[..n], 0); i <= n && Strip(s) == s[i..n]
  {}

  lemma StripKeepsNewlines(s: string)
    requires OnlyNewlines(s)
    ensures OnlyNewlines(Strip(s))
  {
    StripIsPart(s);
    var n := TrimEnd(s);
    var i := Skip(IsSpace, s[..n], 0);
    assert forall k :: 0 <= k < n - i ==> Strip(s)[k] == s[i + k];
  }

  lemma ValueIsField(word: string, line: string)
    requires NoBoundary(line)
    ensures IsField(ValueOf(word, line))
  {
    if Starts(line, word) {
      StripTwice(line[|word|..]);
      StripPlain(line[|word|..]);
    }
  }

  predicate AllPlain(lines: seq<string>) {
    forall i :: 0 <= i < |lines| ==> NoBoundary(lines[i])
  }

  lemma {:induction false} DropBlankPlain(lines: seq<string>)
    requires AllPlain(lines)
    ensures AllPlain(DropBlank(lines))
  {
    if lines != [] && IsBlank(lines[0]) {
      DropBlankPlain(lines[1..]);
    }
  }

  lemma {:induction false} JoinOnlyNewlines(lines: seq<string>)
    requires AllPlain(lines)
    ensures OnlyNewlines(JoinLines(lines))
  {
    if |lines| > 1 {
      JoinOnlyNewlines(lines[1..]);
    }
  }

  lemma RestPlain(lines: seq<string>)
    requires AllPlain(lines)
    ensures AllPlain(Rest(lines)) && NoBoundary(First(lines))
  {}

  lemma EntryIsWellFormed(valid: string -> bool, s: Section)
    requires AllPlain(s.lines) && IsEntryId(s.id) && EntryOf(valid, s).Some?
    ensures WellFormed(valid, EntryOf(valid, s).value)
  {
    var block := DropBlank(s.lines);
    DropBlankPlain(s.lines);
    RestPlain(block);
    RestPlain(Rest(block));
    ValueIsField(SESSION, First(block));
    ValueIsField(SUBMITTED, First(Rest(block)));
    var raw := DropBlank(Rest(Rest(block)));
    DropBlankPlain(Rest(Rest(block)));
    JoinOnlyNewlines(raw);
    StripTwice(JoinLines(raw));
    StripKeepsNewlines(JoinLines(raw));
  }

  predicate PlainSections(sections: seq<Section>) {
    forall i :: 0 <= i < |sections| ==> AllPlain(sections[i].lines) && IsEntryId(sections[i].id)
  }

  lemma {:induction false} ScanIsPlain(lines: seq<string>, fence: Option<Fence>)
    requires AllPlain(lines)
    ensures AllPlain(Scan(lines, fence).head) && PlainSections(Scan(lines, fence).tail)
    decreases |lines|
  {
    if lines != [] {
      ScanIsPlain(lines[1..], Mark(lines[0], fence));
    }
  }

  lemma {:induction false} EntriesAreWellFormed(valid: string -> bool, sections: seq<Section>)
    requires PlainSections(sections) && EntriesOf(valid, sections).Some?
    ensures AllWellFormed(valid, EntriesOf(valid, sections).value)
  {
    if sections != [] {
      EntriesAreWellFormed(valid, sections[1..]);
      EntryIsWellFormed(valid, sections[0]);
      WellFormedTogether(valid, EntryOf(valid, sections[0]).value, EntriesOf(valid, sections[1..]).value);
    }
  }

  lemma WellFormedTogether(valid: string -> bool, e: Entry, es: seq<Entry>)
    requires WellFormed(valid, e) && AllWellFormed(valid, es)
    ensures AllWellFormed(valid, [e] + es)
  {
    forall i | 0 <= i < |es| + 1 ensures WellFormed(valid, ([e] + es)[i]) {
      assert i > 0 ==> ([e] + es)[i] == es[i - 1];
    }
  }

  /** Parsed entries are well formed and have distinct ids. */
  lemma ParsedAreWellFormed(valid: string -> bool, text: string)
    requires Parse(valid, text).Some?
    ensures AllWellFormed(valid, Parse(valid, text).value) && DistinctEntries(Parse(valid, text).value)
  {
    var lines := LinesOf(text);
    LinesArePlain(text);
    assert AllPlain(lines[1..]);
    ScanIsPlain(lines[1..], None);
    var s := Scan(lines[1..], None);
    EntriesAreWellFormed(valid, s.tail);
    EntriesKeepIds(valid, s.tail);
    DistinctSections(EntriesOf(valid, s.tail).value, s.tail);
  }

  // ---------- the merged text ----------

  lemma MemberIsWellFormed(valid: string -> bool, es: seq<Entry>, e: Entry)
    requires AllWellFormed(valid, es) && e in es
    ensures WellFormed(valid, e)
  {
    var i :| 0 <= i < |es| && es[i] == e;
  }

  /** Every merged entry is an entry of one of the sides. */
  lemma MergedFromSides(base: seq<Entry>, ours: seq<Entry>, theirs: seq<Entry>, e: Entry)
    requires MergeEntries(base, ours, theirs).Merged? && e in MergeEntries(base, ours, theirs).entries
    ensures e in ours || e in theirs
  {
    MergedMembers(base, ours, theirs, e);
  }

  lemma MergedAreWellFormed(valid: string -> bool, base: seq<Entry>, ours: seq<Entry>, theirs: seq<Entry>)
    requires AllWellFormed(valid, ours) && AllWellFormed(valid, theirs) && MergeEntries(base, ours, theirs).Merged?
    ensures AllWellFormed(valid, MergeEntries(base, ours, theirs).entries)
  {
    var es := MergeEntries(base, ours, theirs).entries;
    forall i | 0 <= i < |es| ensures WellFormed(valid, es[i]) {
      MergedFromSides(base, ours, theirs, es[i]);
      if es[i] in ours {
        MemberIsWellFormed(valid, ours, es[i]);
      } else {
        MemberIsWellFormed(valid, theirs, es[i]);
      }
    }
  }

  /** The merged entries of three texts. */
  function MergedEntries(valid: string -> bool, base: string, ours: string, theirs: string): seq<Entry>
    requires MergeText(valid, base, ours, theirs).Text?
  {
    MergeEntries(Parse(valid, base).value, Parse(valid, ours).value, Parse(valid, theirs).value).entries
  }

  /** Every body that the merge selects, id by id, keeps its fences and headings to itself. */
  predicate SelectsSelfContained(base: seq<Entry>, ours: seq<Entry>, theirs: seq<Entry>) {
    forall id :: id in Ids(ours) + Ids(theirs) && SelectAt(base, ours, theirs, id).Some? ==> SelfContained(SelectAt(base, ours, theirs, id).value.body)
  }

  lemma SelectedAreMerged(base: seq<Entry>, ours: seq<Entry>, theirs: seq<Entry>)
    requires MergeEntries(base, ours, theirs).Merged?
    ensures AllSelfContained(MergeEntries(base, ours, theirs).entries) <==> SelectsSelfContained(base, ours, theirs)
  {
    var es := MergeEntries(base, ours, theirs).entries;
    if SelectsSelfContained(base, ours, theirs) {
      forall i | 0 <= i < |es| ensures SelfContained(es[i].body) {
        MergedMembers(base, ours, theirs, es[i]);
        MergedFromSides(base, ours, theirs, es[i]);
        assert es[i].id in Ids(ours) + Ids(theirs);
      }
    } else {
      var id :| id in Ids(ours) + Ids(theirs) && SelectAt(base, ours, theirs, id).Some? && !SelfContained(SelectAt(base, ours, theirs, id).value.body);
      var e := SelectAt(base, ours, theirs, id).value;
      MergedMembers(base, ours, theirs, e);
      var i :| 0 <= i < |es| && es[i] == e;
    }
  }

  /** The merged text parses back to exactly the merged entries if and only if each body selected from the two sides is self-contained. */
  lemma {:induction false} MergeParsesBack(valid: string -> bool, base: string, ours: string, theirs: string)
    requires MergeText(valid, base, ours, theirs).Text?
    ensures Parse(valid, MergeText(valid, base, ours, theirs).text) == Some(MergedEntries(valid, base, ours, theirs))
       <==> SelectsSelfContained(Parse(valid, base).value, Parse(valid, ours).value, Parse(valid, theirs).value)
  {
    var b, o, t := Parse(valid, base), Parse(valid, ours), Parse(valid, theirs);
    ParsedAreWellFormed(valid, base);
    ParsedAreWellFormed(valid, ours);
    ParsedAreWellFormed(valid, theirs);
    MergedAreWellFormed(valid, b.value, o.value, t.value);
    MergeKeepsOrder(b.value, o.value, t.value);
    ParseUndoesRender(valid, MergedEntries(valid, base, ours, theirs));
    SelectedAreMerged(b.value, o.value, t.value);
  }

  /** So two sides whose bodies are all self-contained always merge to a text that parses back. */
  lemma {:induction false} SelfContainedSidesParseBack(valid: string -> bool, base: string, ours: string, theirs: string)
    requires MergeText(valid, base, ours, theirs).Text?
    requires AllSelfContained(Parse(valid, ours).value) && AllSelfContained(Parse(valid, theirs).value)
    ensures Parse(valid, MergeText(valid, base, ours, theirs).text) == Some(MergedEntries(valid, base, ours, theirs))
  {
    var b, o, t := Parse(valid, base).value, Parse(valid, ours).value, Parse(valid, theirs).value;
    forall id | SelectAt(b, o, t, id).Some? ensures SelfContained(SelectAt(b, o, t, id).value.body) {
      var e := SelectAt(b, o, t, id).value;
      assert e in o || e in t;
    }
    MergeParsesBack(valid, base, ours, theirs);
  }

  // ---------- the broken promise ----------

  const INDENTED := "    ```"
  const FENCE := "```"

  lemma FencesOfBoth()
    ensures FenceOf(INDENTED).None? && FenceOf(FENCE) == Some(Fence('`', 3)) && Strip(INDENTED) == FENCE && !IsBlank(INDENTED)
    ensures NoBoundary(INDENTED) && !Starts(INDENTED, MARK)
  {
    var blank := (c: char) => c == ' ';
    assert Skip(blank, INDENTED, 4) == 4;
    assert Skip(blank, INDENTED, 0) == 4;
    assert TrimEnd(INDENTED) == 7;
    assert INDENTED[..7] == INDENTED;
    assert Skip(IsSpace, INDENTED, 4) == 4;
    assert Skip(IsSpace, INDENTED, 0) == 4;
    assert INDENTED[4..] == FENCE;
    var mark := (c: char) => c == FENCE[0];
    assert Skip(mark, FENCE, 0) == 3;
    assert Skip(blank, FENCE, 0) == 0;
  }

  /** An inbox whose one body is a fence indented by four blanks, which is no fence. */
  function IndentedInbox(e: Entry): string {
    JoinLines([TITLE] + HeadLines(e) + [INDENTED]) + "\n"
  }

  lemma ScanIndented()
    ensures Scan([INDENTED], None) == Sections([INDENTED], [], true)
  {
    FencesOfBoth();
    HeadingIsMarked(INDENTED);
    assert [INDENTED][1..] == [];
  }

  lemma IndentedSections(e: Entry)
    requires IsEntryId(e.id)
    ensures Scan(HeadLines(e) + [INDENTED], None) == Sections([[]], [Section(e.id, ProvenanceLines(e) + [INDENTED])], true)
  {
    var after := ProvenanceLines(e) + [INDENTED];
    ProvenanceIsQuiet(e);
    ScanIndented();
    ScanAppend(ProvenanceLines(e), [INDENTED], None);
    ScanHeading(e.id, after);
    QuietLine([]);
    QuietOne([], None);
    ScanAppend([[]], ["## " + e.id] + after, None);
    assert HeadLines(e) + [INDENTED] == [[]] + (["## " + e.id] + after);
  }

  lemma IndentedLines(valid: string -> bool, e: Entry)
    requires WellFormed(valid, e)
    ensures LinesOf(IndentedInbox(e)) == [TITLE] + (HeadLines(e) + [INDENTED])
  {
    FieldsArePlain(valid, e);
    HeadLinesPlain(e);
    FencesOfBoth();
    var chunks := HeadLines(e) + [INDENTED];
    assert forall i :: 0 <= i < |chunks| ==> NoBoundary(chunks[i]);
    PlainLineLists(chunks);
    TitledLines(chunks);
    assert [TITLE] + HeadLines(e) + [INDENTED] == [TITLE] + chunks;
  }

  lemma IndentedBody()
    ensures Strip(JoinLines(DropBlank([INDENTED]))) == FENCE
  {
    FencesOfBoth();
    DropNone([INDENTED]);
  }

  lemma OneEntry(valid: string -> bool, section: Section, e: Entry)
    requires EntryOf(valid, section) == Some(e)
    ensures EntriesOf(valid, [section]) == Some([e])
  {
    EntriesCons(valid, section, [], e, []);
    assert [section] + [] == [section] && [e] + [] == [e];
  }

  lemma IndentedEntry(valid: string -> bool, e: Entry)
    requires WellFormed(valid, e) && e.body == FENCE
    ensures EntriesOf(valid, [Section(e.id, ProvenanceLines(e) + [INDENTED])]) == Some([e])
  {
    IndentedBody();
    EntryParses(valid, e, [INDENTED]);
    OneEntry(valid, Section(e.id, ProvenanceLines(e) + [INDENTED]), e);
  }

  lemma IndentedParses(valid: string -> bool, e: Entry)
    requires WellFormed(valid, e) && e.body == FENCE
    ensures Parse(valid, IndentedInbox(e)) == Some([e])
  {
    IndentedLines(valid, e);
    assert ([TITLE] + (HeadLines(e) + [INDENTED]))[1..] == HeadLines(e) + [INDENTED];
    IndentedSections(e);
    IndentedEntry(valid, e);
    assert IsBlank([]);
  }

  lemma {:induction false} ChosenAll(es: seq<Entry>, n: nat)
    requires DistinctEntries(es) && n <= |es|
    ensures Chosen(es, es, es, Ids(es)[n..]) == es[n..]
    decreases |es| - n
  {
    if n < |es| {
      ChosenAll(es, n + 1);
      assert Ids(es)[n..][1..] == Ids(es)[n + 1..] && Ids(es)[n] == es[n].id;
      forall x | x in es && x.id == es[n].id ensures x == es[n] {
        var i :| 0 <= i < |es| && es[i] == x;
      }
      FindIs(es, es[n].id, Some(es[n]));
    }
  }

  /** Merging what nobody changed gives it back. */
  lemma MergeOfSame(es: seq<Entry>)
    requires DistinctEntries(es)
    ensures MergeEntries(es, es, es) == Merged(es)
  {
    ChosenAll(es, 0);
    assert Ids(es)[0..] == Ids(es) && es[0..] == es;
    var ids := AllIds(es, es, es);
    var all := Chosen(es, es, es, ids);
    FilterMembers(NotIn(es), all);
    forall x ensures x !in Filter(NotIn(es), all) {
      if x in all {
        IdIsListed(es, es, es, x.id);
      }
    }
    NoMembers(Filter(NotIn(es), all));
    assert es + [] == es;
  }

  lemma FenceIsNotSelfContained()
    ensures !SelfContained(FENCE) && OnlyNewlines(FENCE) && Strip(FENCE) == FENCE
  {
    FencesOfBoth();
    StripTwice(INDENTED);
    OneLine(FENCE);
    assert [FENCE][1..] == [];
  }

  lemma SampleIsWellFormed(valid: string -> bool, submitted: string)
    requires IsField(submitted) && valid(submitted)
    ensures WellFormed(valid, Entry("GI-20250101-00000000", "s", submitted, FENCE))
  {
    FenceIsNotSelfContained();
    SampleFields();
  }

  lemma SampleFields()
    ensures IsField("s") && IsEntryId("GI-20250101-00000000")
  {
    var id := "GI-20250101-00000000";
    assert |id| == 20 && id[..3] == "GI-" && id[11] == '-';
  }

  lemma FenceDoesNotComeBack(valid: string -> bool, e: Entry)
    requires WellFormed(valid, e) && e.body == FENCE
    ensures Parse(valid, Render([e])) != Some([e])
  {
    FenceIsNotSelfContained();
    assert [e][0] == e && !AllSelfContained([e]);
    ParseUndoesRender(valid, [e]);
  }

  /**
   The indentation of a body's first line is stripped, so a line that was no
   fence becomes one: this valid inbox, merged with itself, is rendered as a
   text that does not parse back.
   */
  lemma IndentedFenceIsLost(valid: string -> bool, submitted: string)
    requires IsField(submitted) && valid(submitted)
    ensures var e := Entry("GI-20250101-00000000", "s", submitted, FENCE);
            var text := IndentedInbox(e);
            && Parse(valid, text) == Some([e])
            && MergeText(valid, text, text, text) == Text(Render([e]))
            && Parse(valid, Render([e])) != Some([e])
  {
    var e := Entry("GI-20250101-00000000", "s", submitted, FENCE);
    SampleIsWellFormed(valid, submitted);
    IndentedParses(valid, e);
    MergeOfSame([e]);
    FenceDoesNotComeBack(valid, e);
  }
}
