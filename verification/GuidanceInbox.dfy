/** The parser, the printer and the merge as they run. */
module GuidanceInbox {
  import opened TextLines
  import opened Common
  import opened Lines
  import opened Guidance
  import opened GuidanceText

  // ---------- parsing ----------

  /** An unfenced entry heading and its line. */
  datatype Start = Start(line: nat, id: string)

  /** The sections that begin at `starts`, the last one cut off at line `end`. */
  function Slices(lines: seq<string>, starts: seq<Start>, end: nat): (r: seq<Section>)
    ensures |r| == |starts|
    decreases |starts|
  {
    if starts == [] then []
    else
      var last := starts[|starts| - 1];
      Slices(lines, starts[..|starts| - 1], last.line) + [Section(last.id, Slice(lines, last.line + 1, end))]
  }

  /** Lines `from` to `end`. */
  function Slice(lines: seq<string>, from: nat, end: nat): seq<string> {
    if from <= end <= |lines| then lines[from..end] else []
  }

  function HeadEnd(starts: seq<Start>, end: nat): nat {
    if starts == [] then end else starts[0].line
  }

  /** What was found before line `i`, with the scan `rest` of the lines from there. */
  function Glue(lines: seq<string>, starts: seq<Start>, i: nat, clean: bool, rest: Sections): Sections {
    if starts == [] then Sections(Slice(lines, 1, i) + rest.head, rest.tail, clean && rest.ok)
    else
      var last := starts[|starts| - 1];
      Sections(
        Slice(lines, 1, starts[0].line),
        Slices(lines, starts[..|starts| - 1], last.line) + [Section(last.id, Slice(lines, last.line + 1, i) + rest.head)] + rest.tail,
        clean && rest.ok)
  }

  predicate StartsBefore(starts: seq<Start>, i: nat) {
    forall k :: 0 <= k < |starts| ==> 0 < starts[k].line < i
  }

  lemma SliceMore(lines: seq<string>, from: nat, i: nat)
    requires from <= i < |lines|
    ensures Slice(lines, from, i + 1) == Slice(lines, from, i) + [lines[i]]
  {}

  /** A line that is no heading joins the section it is in. */
  lemma GlueLine(lines: seq<string>, starts: seq<Start>, i: nat, clean: bool, fine: bool, rest: Sections)
    requires 0 < i < |lines| && StartsBefore(starts, i)
    ensures Glue(lines, starts, i, clean, Sections([lines[i]] + rest.head, rest.tail, rest.ok && fine)) == Glue(lines, starts, i + 1, clean && fine, rest)
  {
    var from := if starts == [] then 1 else starts[|starts| - 1].line + 1;
    SliceMore(lines, from, i);
    Assoc(Slice(lines, from, i), [lines[i]], rest.head);
  }

  lemma GlueFirst(lines: seq<string>, i: nat, clean: bool, id: string, rest: Sections)
    requires 0 < i < |lines|
    ensures Glue(lines, [], i, clean, Sections([], [Section(id, rest.head)] + rest.tail, rest.ok)) == Glue(lines, [Start(i, id)], i + 1, clean, rest)
  {
    var one := [Start(i, id)];
    assert one[..0] == [] && Slices(lines, one[..0], i) == [];
    assert Slice(lines, i + 1, i + 1) + rest.head == rest.head;
    assert Slice(lines, 1, i) + [] == Slice(lines, 1, i);
  }

  lemma GlueNext(lines: seq<string>, starts: seq<Start>, i: nat, clean: bool, id: string, rest: Sections)
    requires 0 < i < |lines| && starts != []
    ensures Glue(lines, starts, i, clean, Sections([], [Section(id, rest.head)] + rest.tail, rest.ok)) == Glue(lines, starts + [Start(i, id)], i + 1, clean, rest)
  {
    var more := starts + [Start(i, id)];
    var last := starts[|starts| - 1];
    var cut := Slice(lines, last.line + 1, i);
    assert more[..|more| - 1] == starts && more[0] == starts[0];
    assert Slice(lines, i + 1, i + 1) + rest.head == rest.head;
    assert cut + [] == cut;
    Assoc(Slices(lines, starts[..|starts| - 1], last.line) + [Section(last.id, cut)], [Section(id, rest.head)], rest.tail);
  }

  /** A heading starts a section. */
  lemma GlueHeading(lines: seq<string>, starts: seq<Start>, i: nat, clean: bool, id: string, rest: Sections)
    requires 0 < i < |lines|
    ensures Glue(lines, starts, i, clean, Sections([], [Section(id, rest.head)] + rest.tail, rest.ok)) == Glue(lines, starts + [Start(i, id)], i + 1, clean, rest)
  {
    if starts == [] {
      GlueFirst(lines, i, clean, id, rest);
      assert starts + [Start(i, id)] == [Start(i, id)];
    } else {
      GlueNext(lines, starts, i, clean, id, rest);
    }
  }

  lemma GlueEnd(lines: seq<string>, starts: seq<Start>, clean: bool, closed: bool)
    requires lines != [] && StartsBefore(starts, |lines|)
    ensures Glue(lines, starts, |lines|, clean, Sections([], [], closed)) == Sections(Slice(lines, 1, HeadEnd(starts, |lines|)), Slices(lines, starts, |lines|), clean && closed)
  {
    if starts == [] {
      assert Slice(lines, 1, |lines|) + [] == Slice(lines, 1, |lines|);
    } else {
      var last := starts[|starts| - 1];
      var cut := Slice(lines, last.line + 1, |lines|);
      assert cut + [] == cut;
      assert Slices(lines, starts, |lines|) == Slices(lines, starts[..|starts| - 1], last.line) + [Section(last.id, cut)];
    }
  }

  /** The scan of all lines is what was found before line `i` and the scan from there. */
  ghost predicate Found(lines: seq<string>, starts: seq<Start>, i: nat, clean: bool, fence: Option<Fence>)
    requires lines != [] && i <= |lines|
  {
    Scan(lines[1..], None) == Glue(lines, starts, i, clean, Scan(lines[i..], fence))
  }

  lemma FoundLine(lines: seq<string>, starts: seq<Start>, i: nat, clean: bool, fence: Option<Fence>)
    requires 0 < i < |lines| && StartsBefore(starts, i) && Found(lines, starts, i, clean, fence)
    requires FenceOf(lines[i]).Some? || fence.Some? || !IsEntryHeading(lines[i])
    ensures var fine := FenceOf(lines[i]).Some? || fence.Some? || !Starts(lines[i], MARK);
            Found(lines, starts, i + 1, clean && fine, Mark(lines[i], fence))
  {
    ScanStep(lines, i, fence);
    var fine := FenceOf(lines[i]).Some? || fence.Some? || !Starts(lines[i], MARK);
    GlueLine(lines, starts, i, clean, fine, Scan(lines[i + 1..], Mark(lines[i], fence)));
  }

  lemma FoundHeading(lines: seq<string>, starts: seq<Start>, i: nat, clean: bool)
    requires 0 < i < |lines| && Found(lines, starts, i, clean, None) && FenceOf(lines[i]).None? && IsEntryHeading(lines[i])
    ensures Found(lines, starts + [Start(i, lines[i][3..])], i + 1, clean, None)
  {
    ScanStep(lines, i, None);
    GlueHeading(lines, starts, i, clean, lines[i][3..], Scan(lines[i + 1..], None));
  }

  lemma FoundNothingYet(lines: seq<string>)
    requires lines != []
    ensures Found(lines, [], 1, true, None)
  {
    var all := Scan(lines[1..], None);
    assert Slice(lines, 1, 1) + all.head == all.head;
  }

  lemma FoundAll(lines: seq<string>, starts: seq<Start>, clean: bool, fence: Option<Fence>)
    requires lines != [] && StartsBefore(starts, |lines|) && Found(lines, starts, |lines|, clean, fence)
    ensures Scan(lines[1..], None) == Sections(Slice(lines, 1, HeadEnd(starts, |lines|)), Slices(lines, starts, |lines|), clean && fence.None?)
  {
    assert lines[|lines|..] == [];
    GlueEnd(lines, starts, clean, fence.None?);
  }

  /** What is found when the next line is read. */
  lemma FoundNext(lines: seq<string>, starts: seq<Start>, i: nat, clean: bool, fence: Option<Fence>, line: string, mark: Option<Fence>)
    requires 0 < i < |lines| && StartsBefore(starts, i) && Found(lines, starts, i, clean, fence) && line == lines[i] && mark == FenceOf(line)
    ensures StartsBefore(starts, i + 1) && (IsEntryHeading(line) ==> StartsBefore(starts + [Start(i, line[3..])], i + 1))
    ensures mark.Some? ==> Found(lines, starts, i + 1, clean, NextFence(fence, mark.value))
    ensures mark.None? && fence.Some? ==> Found(lines, starts, i + 1, clean, fence)
    ensures mark.None? && fence.None? && IsEntryHeading(line) ==> Found(lines, starts + [Start(i, line[3..])], i + 1, clean, None)
    ensures mark.None? && fence.None? && !IsEntryHeading(line) ==> Found(lines, starts, i + 1, clean && !Starts(line, MARK), None)
  {
    if mark.None? && fence.None? && IsEntryHeading(line) {
      FoundHeading(lines, starts, i, clean);
    } else {
      FoundLine(lines, starts, i, clean, fence);
    }
  }

  /** One pass with a fence state collects the headings. */
  method FindStarts(lines: seq<string>) returns (starts: seq<Start>, ok: bool)
    requires lines != []
    ensures StartsBefore(starts, |lines|)
    ensures Scan(lines[1..], None) == Sections(Slice(lines, 1, HeadEnd(starts, |lines|)), Slices(lines, starts, |lines|), ok)
  {
    starts := [];
    var clean := true;
    var fence: Option<Fence> := None;
    var i := 1;
    FoundNothingYet(lines);
    while i < |lines|
      invariant 1 <= i <= |lines| && StartsBefore(starts, i)
      invariant Found(lines, starts, i, clean, fence)
    {
      var line := lines[i];
      var mark := FenceOf(line);
      FoundNext(lines, starts, i, clean, fence, line, mark);
      if mark.Some? {
        fence := NextFence(fence, mark.value);
      } else if fence.None? && IsEntryHeading(line) {
        starts := starts + [Start(i, line[3..])];
      } else if fence.None? {
        clean := clean && !Starts(line, MARK);
      }
      i := i + 1;
    }
    FoundAll(lines, starts, clean, fence);
    ok := clean && fence.None?;
  }

  /** Blank lines are popped, then the two provenance lines, then blank lines; what is left is the body. */
  method ReadEntry(valid: string -> bool, id: string, lines: seq<string>) returns (e: Option<Entry>)
    ensures e == EntryOf(valid, Section(id, lines))
  {
    var block := lines;
    while block != [] && IsBlank(block[0])
      invariant DropBlank(block) == DropBlank(lines)
      decreases |block|
    {
      block := block[1..];
    }
    var session, submitted := [], [];
    if block != [] {
      session := block[0];
      block := block[1..];
    }
    if block != [] {
      submitted := block[0];
      block := block[1..];
    }
    ghost var left := block;
    while block != [] && IsBlank(block[0])
      invariant DropBlank(block) == DropBlank(left)
      decreases |block|
    {
      block := block[1..];
    }
    var body := Strip(JoinLines(block));
    if ValueOf(SESSION, session) == [] || !Starts(submitted, SUBMITTED) || !valid(ValueOf(SUBMITTED, submitted)) || body == [] {
      return None;
    }
    return Some(Entry(id, ValueOf(SESSION, session), ValueOf(SUBMITTED, submitted), body));
  }

  /** The entries so far and one more. */
  function Both(es: Option<seq<Entry>>, e: Option<Entry>): Option<seq<Entry>> {
    if es.Some? && e.Some? then Some(es.value + [e.value]) else None
  }

  function Cons(e: Option<Entry>, es: Option<seq<Entry>>): Option<seq<Entry>> {
    if e.Some? && es.Some? then Some([e.value] + es.value) else None
  }

  lemma ConsThenBoth(a: Option<Entry>, es: Option<seq<Entry>>, b: Option<Entry>)
    ensures Cons(a, Both(es, b)) == Both(Cons(a, es), b)
    ensures Cons(b, Some([])) == Both(Some([]), b)
  {
    if b.Some? {
      assert [b.value] + [] == [] + [b.value];
    }
    if a.Some? && es.Some? && b.Some? {
      Assoc([a.value], es.value, [b.value]);
    }
  }

  lemma EntriesCons(valid: string -> bool, sections: seq<Section>)
    requires sections != []
    ensures EntriesOf(valid, sections) == Cons(EntryOf(valid, sections[0]), EntriesOf(valid, sections[1..]))
  {}

  lemma EntriesOne(valid: string -> bool, s: Section)
    ensures EntriesOf(valid, [s]) == Both(Some([]), EntryOf(valid, s))
  {
    EntriesCons(valid, [s]);
    assert [s][1..] == [];
    ConsThenBoth(None, None, EntryOf(valid, s));
  }

  lemma SnocStep(valid: string -> bool, sections: seq<Section>, s: Section)
    requires sections != [] && EntriesOf(valid, sections[1..] + [s]) == Both(EntriesOf(valid, sections[1..]), EntryOf(valid, s))
    ensures EntriesOf(valid, sections + [s]) == Both(EntriesOf(valid, sections), EntryOf(valid, s))
  {
    FirstOfBoth(sections, [s]);
    EntriesCons(valid, sections + [s]);
    EntriesCons(valid, sections);
    ConsThenBoth(EntryOf(valid, sections[0]), EntriesOf(valid, sections[1..]), EntryOf(valid, s));
  }

  lemma {:induction false} EntriesSnoc(valid: string -> bool, sections: seq<Section>, s: Section)
    ensures EntriesOf(valid, sections + [s]) == Both(EntriesOf(valid, sections), EntryOf(valid, s))
    decreases |sections|
  {
    if sections == [] {
      EntriesOne(valid, s);
      assert sections + [s] == [s];
    } else {
      EntriesSnoc(valid, sections[1..], s);
      SnocStep(valid, sections, s);
    }
  }

  lemma DistinctSnoc(sections: seq<Section>, i: nat)
    requires i < |sections|
    ensures DistinctIds(sections[..i + 1]) <==> DistinctIds(sections[..i]) && forall k :: 0 <= k < i ==> sections[k].id != sections[i].id
  {
    var now, was := sections[..i + 1], sections[..i];
    assert forall k :: 0 <= k < i ==> now[k] == was[k] == sections[k];
    assert now[i] == sections[i];
  }

  /** No id is used twice. */
  method CheckIds(sections: seq<Section>) returns (distinct: bool)
    ensures distinct <==> DistinctIds(sections)
  {
    var seen: set<string> := {};
    distinct := true;
    var i := 0;
    while i < |sections|
      invariant 0 <= i <= |sections|
      invariant forall k :: 0 <= k < i ==> sections[k].id in seen
      invariant forall id :: id in seen ==> exists k :: 0 <= k < i && sections[k].id == id
      invariant distinct <==> DistinctIds(sections[..i])
    {
      DistinctSnoc(sections, i);
      if sections[i].id in seen {
        distinct := false;
      }
      seen := seen + {sections[i].id};
      i := i + 1;
    }
    assert sections[..i] == sections;
  }

  /** Read the sections one by one; a repeated id or a bad entry spoils the whole. */
  method ReadSections(valid: string -> bool, sections: seq<Section>) returns (es: Option<seq<Entry>>)
    ensures es == if DistinctIds(sections) then EntriesOf(valid, sections) else None
  {
    var distinct := CheckIds(sections);
    es := Some([]);
    var i := 0;
    while i < |sections|
      invariant 0 <= i <= |sections|
      invariant es == EntriesOf(valid, sections[..i])
    {
      TakeOne(sections, i);
      EntriesSnoc(valid, sections[..i], sections[i]);
      var e := ReadEntry(valid, sections[i].id, sections[i].lines);
      es := Both(es, e);
      i := i + 1;
    }
    assert sections[..i] == sections;
    if !distinct {
      es := None;
    }
  }

  method ParseInbox(valid: string -> bool, text: string) returns (es: Option<seq<Entry>>)
    ensures es == Parse(valid, text)
  {
    var lines := LinesOf(text);
    if lines == [] || lines[0] != TITLE {
      return None;
    }
    var starts, ok := FindStarts(lines);
    if !ok || !AllBlank(Slice(lines, 1, HeadEnd(starts, |lines|))) {
      return None;
    }
    es := ReadSections(valid, Slices(lines, starts, |lines|));
  }

  // ---------- rendering ----------

  function JoinWith(separator: string, parts: seq<string>): string {
    if parts == [] then [] else if |parts| == 1 then parts[0] else parts[0] + separator + JoinWith(separator, parts[1..])
  }

  function EntryPart(e: Entry): string {
    JoinLines(["## " + e.id, [], SESSION + e.session, SUBMITTED + e.submitted, [], Strip(e.body)])
  }

  function Parts(es: seq<Entry>): seq<string> {
    if es == [] then [] else [EntryPart(es[0])] + Parts(es[1..])
  }

  lemma ChunksAre(first: string, es: seq<Entry>, six: seq<string>)
    requires es != [] && six == ["## " + es[0].id, [], SESSION + es[0].session, SUBMITTED + es[0].submitted, [], Strip(es[0].body)]
    ensures [first] + Chunks(es) == [first] + ([[]] + (six + Chunks(es[1..])))
  {
    EntryChunksAre(es[0], six);
    Assoc([[]], six, Chunks(es[1..]));
  }

  lemma EntryChunksAre(e: Entry, six: seq<string>)
    requires six == ["## " + e.id, [], SESSION + e.session, SUBMITTED + e.submitted, [], Strip(e.body)]
    ensures EntryChunks(e) == [[]] + six
  {}

  lemma {:induction false} PartsAreChunks(first: string, es: seq<Entry>)
    ensures JoinWith("\n\n", [first] + Parts(es)) == JoinLines([first] + Chunks(es))
    decreases |es|
  {
    if es != [] {
      var six := ["## " + es[0].id, [], SESSION + es[0].session, SUBMITTED + es[0].submitted, [], Strip(es[0].body)];
      PartsAreChunks(EntryPart(es[0]), es[1..]);
      JoinNested(six, Chunks(es[1..]));
      FirstOfBoth([first], Parts(es));
      ChunksAre(first, es, six);
      JoinFirst(first, [[]] + (six + Chunks(es[1..])));
      JoinFirst([], six + Chunks(es[1..]));
      BlankLine(first, JoinLines(six + Chunks(es[1..])));
    }
  }

  lemma BlankLine(first: string, rest: string)
    ensures first + "\n\n" + rest == first + "\n" + ([] + "\n" + rest)
  {}

  /** A joined block in front of lines. */
  lemma JoinNested(block: seq<string>, rest: seq<string>)
    requires block != []
    ensures JoinLines([JoinLines(block)] + rest) == JoinLines(block + rest)
  {
    if rest == [] {
      assert block + rest == block;
    } else {
      JoinFirst(JoinLines(block), rest);
      JoinAppend(block, rest);
    }
  }

  lemma {:induction false} PartsSnoc(es: seq<Entry>, e: Entry)
    ensures Parts(es + [e]) == Parts(es) + [EntryPart(e)]
  {
    if es == [] {
      assert [e][1..] == [];
    } else {
      assert (es + [e])[1..] == es[1..] + [e];
      PartsSnoc(es[1..], e);
    }
  }

  method EntryParts(es: seq<Entry>) returns (parts: seq<string>)
    ensures parts == [TITLE] + Parts(es)
  {
    parts := [TITLE];
    var i := 0;
    while i < |es|
      invariant 0 <= i <= |es|
      invariant parts == [TITLE] + Parts(es[..i])
    {
      PartsSnoc(es[..i], es[i]);
      assert es[..i + 1] == es[..i] + [es[i]];
      Assoc([TITLE], Parts(es[..i]), [EntryPart(es[i])]);
      parts := parts + [EntryPart(es[i])];
      i := i + 1;
    }
    assert es[..i] == es;
  }

  method RenderInbox(es: seq<Entry>) returns (text: string)
    ensures text == Render(es)
  {
    var parts := EntryParts(es);
    PartsAreChunks(TITLE, es);
    text := TrimmedEnd(JoinWith("\n\n", parts)) + "\n";
  }

  // ---------- merging ----------

  lemma {:induction false} SortStep(es: seq<Entry>, i: nat)
    requires i < |es|
    ensures SortBySubmission(es[i..]) == Place(es[i], SortBySubmission(es[i + 1..]))
  {
    assert es[i..][1..] == es[i + 1..];
  }

  /** Additions in order of submission. */
  method SortAdditions(es: seq<Entry>) returns (sorted: seq<Entry>)
    ensures sorted == SortBySubmission(es)
  {
    sorted := [];
    var i := |es|;
    while i > 0
      invariant 0 <= i <= |es|
      invariant sorted == SortBySubmission(es[i..])
    {
      i := i - 1;
      SortStep(es, i);
      sorted := Place(es[i], sorted);
    }
    assert es[0..] == es;
  }

  lemma {:induction false} ChosenSnoc(base: seq<Entry>, ours: seq<Entry>, theirs: seq<Entry>, ids: seq<string>, id: string)
    ensures Chosen(base, ours, theirs, ids + [id]) ==
      Chosen(base, ours, theirs, ids) + (if SelectAt(base, ours, theirs, id).Some? then [SelectAt(base, ours, theirs, id).value] else [])
    decreases |ids|
  {
    if ids == [] {
      assert (ids + [id])[1..] == [];
    } else {
      assert (ids + [id])[1..] == ids[1..] + [id];
      ChosenSnoc(base, ours, theirs, ids[1..], id);
    }
  }

  lemma ConflictStep(base: seq<Entry>, ours: seq<Entry>, theirs: seq<Entry>, ids: seq<string>, i: nat)
    requires i < |ids|
    ensures FirstConflict(base, ours, theirs, ids[i..]) ==
      if ConflictsAt(base, ours, theirs, ids[i]) then Some(ids[i]) else FirstConflict(base, ours, theirs, ids[i + 1..])
  {
    assert ids[i..][1..] == ids[i + 1..];
  }

  /** Choose entry by entry in order of id; the first conflict stops. */
  method ChooseAll(base: seq<Entry>, ours: seq<Entry>, theirs: seq<Entry>, ids: seq<string>) returns (conflict: Option<string>, chosen: seq<Entry>)
    ensures conflict == FirstConflict(base, ours, theirs, ids)
    ensures conflict.None? ==> chosen == Chosen(base, ours, theirs, ids)
  {
    chosen := [];
    var i := 0;
    assert ids[0..] == ids;
    while i < |ids|
      invariant 0 <= i <= |ids|
      invariant FirstConflict(base, ours, theirs, ids) == FirstConflict(base, ours, theirs, ids[i..])
      invariant chosen == Chosen(base, ours, theirs, ids[..i])
    {
      var b, o, t := Find(base, ids[i]), Find(ours, ids[i]), Find(theirs, ids[i]);
      ConflictStep(base, ours, theirs, ids, i);
      ChosenSnoc(base, ours, theirs, ids[..i], ids[i]);
      assert ids[..i + 1] == ids[..i] + [ids[i]];
      if Conflicts(b, o, t) {
        return Some(ids[i]), [];
      }
      var selected := Select(b, o, t);
      if selected.Some? {
        chosen := chosen + [selected.value];
      }
      i := i + 1;
    }
    assert ids[..i] == ids && ids[i..] == [];
    conflict := None;
  }

  method MergeEdits(base: seq<Entry>, ours: seq<Entry>, theirs: seq<Entry>) returns (m: Merge)
    ensures m == MergeEntries(base, ours, theirs)
  {
    var conflict, chosen := ChooseAll(base, ours, theirs, AllIds(base, ours, theirs));
    if conflict.Some? {
      return Conflict(conflict.value);
    }
    var additions := SortAdditions(Filter(NotIn(base), chosen));
    m := Merged(Chosen(base, ours, theirs, Ids(base)) + additions);
  }

  method MergeInbox(valid: string -> bool, base: string, ours: string, theirs: string) returns (r: MergedText)
    ensures r == MergeText(valid, base, ours, theirs)
  {
    var b := ParseInbox(valid, base);
    var o := ParseInbox(valid, ours);
    var t := ParseInbox(valid, theirs);
    if b.None? || o.None? || t.None? {
      return BadInput;
    }
    var m := MergeEdits(b.value, o.value, t.value);
    match m {
      case Conflict(id) => r := Clash(id);
      case Merged(es) =>
        var text := RenderInbox(es);
        r := Text(text);
    }
  }
}
