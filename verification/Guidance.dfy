/** The guidance inbox: a document of entries, its parser, its printer, and the three-way merge of two edits of it. */
module Guidance {
  import opened Common
  import opened Lines
  import opened TextLines
  import opened Ordering

  datatype Entry = Entry(id: string, session: string, submitted: string, body: string)

  const TITLE := "# Pending Agent Guidance"
  const MARK := "## GI-"
  const SESSION := "Session: "
  const SUBMITTED := "Submitted: "

  // ---------- lines ----------

  predicate IsDigit(c: char) {
    '0' <= c <= '9'
  }

  predicate IsHex(c: char) {
    IsDigit(c) || 'a' <= c <= 'f'
  }

  /** `GI-`, a day, `-` and eight hexadecimal digits. */
  predicate IsEntryId(s: string) {
    && |s| == 20 && s[..3] == "GI-" && s[11] == '-'
    && (forall i :: 3 <= i < 11 ==> IsDigit(s[i])) && forall i :: 12 <= i < 20 ==> IsHex(s[i])
  }

  predicate Starts(line: string, word: string) {
    |word| <= |line| && line[..|word|] == word
  }

  predicate IsEntryHeading(line: string) {
    |line| == 23 && Starts(line, "## ") && IsEntryId(line[3..])
  }

  predicate IsBlank(line: string) {
    Strip(line) == []
  }

  function JoinLines(lines: seq<string>): string {
    if lines == [] then [] else if |lines| == 1 then lines[0] else lines[0] + "\n" + JoinLines(lines[1..])
  }

  // ---------- sections ----------

  /** The lines from an entry heading up to the next one. */
  datatype Section = Section(id: string, lines: seq<string>)

  /** What a run of lines holds: lines before the first heading, sections, and whether headings and fences are in order. */
  datatype Sections = Sections(head: seq<string>, tail: seq<Section>, ok: bool)

  /** Headings count outside fences only. */
  function Scan(lines: seq<string>, fence: Option<Fence>): (r: Sections)
    ensures |r.head| <= |lines|
  {
    if lines == [] then Sections([], [], fence.None?)
    else
      var line := lines[0];
      var mark := FenceOf(line);
      var next := if mark.Some? then NextFence(fence, mark.value) else fence;
      var rest := Scan(lines[1..], next);
      if mark.None? && fence.None? && IsEntryHeading(line) then
        Sections([], [Section(line[3..], rest.head)] + rest.tail, rest.ok)
      else
        Sections([line] + rest.head, rest.tail, rest.ok && (mark.Some? || fence.Some? || !Starts(line, MARK)))
  }

  function DropBlank(lines: seq<string>): (r: seq<string>)
    ensures r == [] || !IsBlank(r[0])
  {
    if lines != [] && IsBlank(lines[0]) then DropBlank(lines[1..]) else lines
  }

  /** The value of a provenance line; empty if it is missing. */
  function ValueOf(word: string, line: string): string {
    if Starts(line, word) then Strip(line[|word|..]) else []
  }

  function First(lines: seq<string>): string {
    if lines == [] then [] else lines[0]
  }

  function Rest(lines: seq<string>): seq<string> {
    if lines == [] then [] else lines[1..]
  }

  /** An entry, if its provenance and its evidence are there. */
  function EntryOf(valid: string -> bool, s: Section): (r: Option<Entry>)
    ensures r.Some? ==> r.value.id == s.id && r.value.session != [] && valid(r.value.submitted) && r.value.body != []
  {
    var block := DropBlank(s.lines);
    var session := ValueOf(SESSION, First(block));
    var submitted := ValueOf(SUBMITTED, First(Rest(block)));
    var body := Strip(JoinLines(DropBlank(Rest(Rest(block)))));
    if session == [] || !Starts(First(Rest(block)), SUBMITTED) || !valid(submitted) || body == [] then None
    else Some(Entry(s.id, session, submitted, body))
  }

  function EntriesOf(valid: string -> bool, sections: seq<Section>): Option<seq<Entry>> {
    if sections == [] then Some([])
    else
      var first := EntryOf(valid, sections[0]);
      var rest := EntriesOf(valid, sections[1..]);
      if first.Some? && rest.Some? then Some([first.value] + rest.value) else None
  }

  predicate DistinctIds(sections: seq<Section>) {
    forall i, j :: 0 <= i < j < |sections| ==> sections[i].id != sections[j].id
  }

  predicate AllBlank(lines: seq<string>) {
    forall i :: 0 <= i < |lines| ==> IsBlank(lines[i])
  }

  function ParseLines(valid: string -> bool, lines: seq<string>): Option<seq<Entry>> {
    if lines == [] || lines[0] != TITLE then None
    else
      var s := Scan(lines[1..], None);
      if s.ok && AllBlank(s.head) && DistinctIds(s.tail) then EntriesOf(valid, s.tail) else None
  }

  /** The entries of an inbox; None where the program lists errors. */
  function Parse(valid: string -> bool, text: string): Option<seq<Entry>> {
    ParseLines(valid, LinesOf(text))
  }

  // ---------- rendering ----------

  /** A blank line, the heading, a blank line, the provenance, a blank line and the body. */
  function EntryChunks(e: Entry): seq<string> {
    [[], "## " + e.id, [], SESSION + e.session, SUBMITTED + e.submitted, [], Strip(e.body)]
  }

  function Chunks(es: seq<Entry>): seq<string> {
    if es == [] then [] else EntryChunks(es[0]) + Chunks(es[1..])
  }

  function TrimmedEnd(s: string): string {
    s[..TrimEnd(s)]
  }

  function Render(es: seq<Entry>): string {
    TrimmedEnd(JoinLines([TITLE] + Chunks(es))) + "\n"
  }

  // ---------- merging ----------

  predicate HasId(es: seq<Entry>, id: string) {
    exists i :: 0 <= i < |es| && es[i].id == id
  }

  function Ids(es: seq<Entry>): (r: seq<string>)
    ensures |r| == |es| && forall id :: id in r <==> HasId(es, id)
  {
    var r := seq(|es|, i requires 0 <= i < |es| => es[i].id);
    assert forall i :: 0 <= i < |es| ==> r[i] == es[i].id;
    r
  }

  /** The entry with an id. */
  function Find(es: seq<Entry>, id: string): (r: Option<Entry>)
    ensures r.Some? ==> r.value.id == id && r.value in es
    ensures r.Some? <==> HasId(es, id)
  {
    if es == [] then None
    else if es[0].id == id then Some(es[0])
    else
      assert forall i :: 0 < i < |es| ==> es[i] == es[1..][i - 1];
      Find(es[1..], id)
  }

  /** Both sides changed the entry, and differently. */
  predicate Conflicts(base: Option<Entry>, ours: Option<Entry>, theirs: Option<Entry>) {
    ours != theirs && ours != base && theirs != base
  }

  function Select(base: Option<Entry>, ours: Option<Entry>, theirs: Option<Entry>): Option<Entry> {
    if ours == theirs then ours else if ours == base then theirs else ours
  }

  function SelectAt(base: seq<Entry>, ours: seq<Entry>, theirs: seq<Entry>, id: string): Option<Entry> {
    Select(Find(base, id), Find(ours, id), Find(theirs, id))
  }

  predicate ConflictsAt(base: seq<Entry>, ours: seq<Entry>, theirs: seq<Entry>, id: string) {
    Conflicts(Find(base, id), Find(ours, id), Find(theirs, id))
  }

  datatype Merge = Merged(entries: seq<Entry>) | Conflict(id: string)

  function FirstConflict(base: seq<Entry>, ours: seq<Entry>, theirs: seq<Entry>, ids: seq<string>): (r: Option<string>)
    ensures r.Some? ==> r.value in ids && ConflictsAt(base, ours, theirs, r.value)
    ensures r.None? ==> forall id :: id in ids ==> !ConflictsAt(base, ours, theirs, id)
  {
    if ids == [] then None
    else if ConflictsAt(base, ours, theirs, ids[0]) then Some(ids[0])
    else
      assert ids == [ids[0]] + ids[1..];
      FirstConflict(base, ours, theirs, ids[1..])
  }

  /** The selected entries of `ids`, in that order. */
  function Chosen(base: seq<Entry>, ours: seq<Entry>, theirs: seq<Entry>, ids: seq<string>): (r: seq<Entry>)
    ensures forall e :: e in r ==> e.id in ids && SelectAt(base, ours, theirs, e.id) == Some(e)
    ensures forall id :: id in ids && SelectAt(base, ours, theirs, id).Some? ==> SelectAt(base, ours, theirs, id).value in r
  {
    if ids == [] then []
    else
      assert ids == [ids[0]] + ids[1..];
      var rest := Chosen(base, ours, theirs, ids[1..]);
      var e := SelectAt(base, ours, theirs, ids[0]);
      if e.Some? then [e.value] + rest else rest
  }

  /** By time of submission, then by id. */
  predicate Sooner(a: Entry, b: Entry) {
    Less(a.submitted, b.submitted) || (a.submitted == b.submitted && Less(a.id, b.id))
  }

  function Place(e: Entry, es: seq<Entry>): seq<Entry> {
    if es == [] || Sooner(e, es[0]) then [e] + es else [es[0]] + Place(e, es[1..])
  }

  function SortBySubmission(es: seq<Entry>): seq<Entry> {
    if es == [] then [] else Place(es[0], SortBySubmission(es[1..]))
  }

  function AllIds(base: seq<Entry>, ours: seq<Entry>, theirs: seq<Entry>): seq<string> {
    Sorted(Ids(base) + Ids(ours) + Ids(theirs))
  }

  function NotIn(base: seq<Entry>): Entry -> bool {
    (e: Entry) => !HasId(base, e.id)
  }

  /** What stays of the base in its order, then the additions by time. */
  function MergeEntries(base: seq<Entry>, ours: seq<Entry>, theirs: seq<Entry>): Merge {
    var ids := AllIds(base, ours, theirs);
    var conflict := FirstConflict(base, ours, theirs, ids);
    if conflict.Some? then Conflict(conflict.value)
    else
      var additions := Filter(NotIn(base), Chosen(base, ours, theirs, ids));
      Merged(Chosen(base, ours, theirs, Ids(base)) + SortBySubmission(additions))
  }

  datatype MergedText = BadInput | Clash(id: string) | Text(text: string)

  function MergeText(valid: string -> bool, base: string, ours: string, theirs: string): MergedText {
    var b, o, t := Parse(valid, base), Parse(valid, ours), Parse(valid, theirs);
    if b.None? || o.None? || t.None? then BadInput
    else
      match MergeEntries(b.value, o.value, t.value)
      case Conflict(id) => Clash(id)
      case Merged(es) => Text(Render(es))
  }
}
