/** Exactly which texts the parser accepts as an inbox, and what it reads from them, told from their lines. */
module GuidanceLines {
  import opened Common
  import opened Lines
  import opened TextLines
  import opened Fences
  import opened Guidance
  import opened GuidanceText

  /** Eight decimal digits and eight hexadecimal ones. */
  ghost predicate IsIdOf(s: string, day: string, tail: string) {
    && s == "GI-" + day + "-" + tail && |day| == 8 && |tail| == 8
    && (forall i :: 0 <= i < 8 ==> 48 <= day[i] as int <= 57)
    && forall i :: 0 <= i < 8 ==> 48 <= tail[i] as int <= 57 || 97 <= tail[i] as int <= 102
  }

  lemma EntryIdMeans(s: string)
    ensures IsEntryId(s) <==> exists day, tail :: IsIdOf(s, day, tail)
  {
    if IsEntryId(s) {
      var day, tail := s[3..11], s[12..];
      assert s == "GI-" + day + "-" + tail;
      assert IsIdOf(s, day, tail);
    }
    forall day, tail | IsIdOf(s, day, tail) ensures IsEntryId(s) {
      assert s[..3] == "GI-";
      assert forall i :: 3 <= i < 11 ==> s[i] == day[i - 3];
      assert forall i :: 12 <= i < 20 ==> s[i] == tail[i - 12];
    }
  }

  /** An entry heading outside of every fenced block. */
  ghost predicate IsStart(lines: seq<string>, i: nat) {
    IsPlain(lines, i) && IsEntryHeading(lines[i])
  }

  /** The starts from line `from` on, in order. */
  ghost predicate AreStarts(lines: seq<string>, starts: seq<nat>, from: nat) {
    && (forall k :: 0 <= k < |starts| ==> from <= starts[k] && IsStart(lines, starts[k]))
    && (forall j, k :: 0 <= j < k < |starts| ==> starts[j] < starts[k])
    && forall i: nat :: from <= i && IsStart(lines, i) ==> i in starts
  }

  /** The line after the block that the `k`-th start begins, or after what comes before the first one. */
  function NextStart(lines: seq<string>, starts: seq<nat>, k: int): nat
    requires -1 <= k < |starts|
  {
    if k + 1 < |starts| then starts[k + 1] else |lines|
  }

  /** The lines from `a` up to `b`. */
  function Between(lines: seq<string>, a: nat, b: nat): seq<string> {
    if a <= b <= |lines| then lines[a..b] else []
  }

  /** The section at the `k`-th start. */
  predicate IsSection(lines: seq<string>, starts: seq<nat>, k: nat, s: Section) {
    && k < |starts| && starts[k] < |lines| && |lines[starts[k]]| >= 3
    && s == Section(lines[starts[k]][3..], Between(lines, starts[k] + 1, NextStart(lines, starts, k)))
  }

  /** Outside of fenced blocks, what begins like an entry heading is one. */
  ghost predicate HeadingsAreWhole(lines: seq<string>, from: nat) {
    forall i: nat :: from <= i && IsPlain(lines, i) && HasAt(lines[i], 0, "## GI-") ==> IsEntryHeading(lines[i])
  }

  /** `r` is what the lines from `from` on hold. */
  ghost predicate IsScan(lines: seq<string>, from: nat, starts: seq<nat>, r: Sections) {
    && from <= |lines| && AreStarts(lines, starts, from)
    && r.head == Between(lines, from, NextStart(lines, starts, -1))
    && |r.tail| == |starts| && (forall k :: 0 <= k < |starts| ==> IsSection(lines, starts, k, r.tail[k]))
    && (r.ok <==> !InFence(lines, |lines|) && HeadingsAreWhole(lines, from))
  }

  lemma EndIsScan(lines: seq<string>, fence: Option<Fence>)
    requires IsOpenFence(lines, |lines|, fence)
    ensures IsScan(lines, |lines|, [], Scan(lines[|lines|..], fence))
  {
    OpenFenceIsIn(lines, |lines|, fence);
    assert lines[|lines|..] == [];
  }

  lemma MarkIsFenceNext(line: string, fence: Option<Fence>)
    ensures Mark(line, fence) == FenceNext(fence, line)
  {}

  lemma StartsMark(line: string)
    ensures Starts(line, MARK) <==> HasAt(line, 0, "## GI-")
  {}

  lemma FirstBetween(lines: seq<string>, a: nat, b: nat)
    requires a < b <= |lines|
    ensures Between(lines, a, b) == [lines[a]] + Between(lines, a + 1, b)
  {}

  lemma StartsAreInside(lines: seq<string>, starts: seq<nat>, from: nat)
    requires AreStarts(lines, starts, from) && from <= |lines|
    ensures from <= NextStart(lines, starts, -1) <= |lines|
  {}

  /** A line that starts nothing. */
  lemma OtherLine(lines: seq<string>, i: nat, starts: seq<nat>, rest: Sections, r: Sections, fine: bool)
    requires i < |lines| && !IsStart(lines, i) && IsScan(lines, i + 1, starts, rest)
    requires r == Sections([lines[i]] + rest.head, rest.tail, rest.ok && fine)
    requires fine <==> (IsPlain(lines, i) && HasAt(lines[i], 0, "## GI-") ==> IsEntryHeading(lines[i]))
    ensures IsScan(lines, i, starts, r)
  {
    StartsAreInside(lines, starts, i + 1);
    FirstBetween(lines, i, NextStart(lines, starts, -1));
    assert HeadingsAreWhole(lines, i) <==> HeadingsAreWhole(lines, i + 1) && fine;
  }

  /** A line that starts an entry. */
  lemma StartLine(lines: seq<string>, i: nat, starts: seq<nat>, rest: Sections, r: Sections)
    requires IsStart(lines, i) && IsScan(lines, i + 1, starts, rest)
    requires r == Sections([], [Section(lines[i][3..], rest.head)] + rest.tail, rest.ok)
    ensures IsScan(lines, i, [i] + starts, r)
  {
    StartJoins(lines, i, starts);
    forall k | 0 <= k < |r.tail| ensures IsSection(lines, [i] + starts, k, r.tail[k]) {
      SectionJoins(lines, i, starts, rest, k);
    }
    assert HeadingsAreWhole(lines, i) <==> HeadingsAreWhole(lines, i + 1);
    assert Between(lines, i, i) == [];
  }

  lemma StartJoins(lines: seq<string>, i: nat, starts: seq<nat>)
    requires IsStart(lines, i) && AreStarts(lines, starts, i + 1)
    ensures AreStarts(lines, [i] + starts, i)
  {
    var all := [i] + starts;
    assert forall k :: 0 < k < |all| ==> all[k] == starts[k - 1];
    forall j: nat | i <= j && IsStart(lines, j) ensures j in all {
      assert j == i || j in starts;
    }
  }

  lemma SectionJoins(lines: seq<string>, i: nat, starts: seq<nat>, rest: Sections, k: nat)
    requires IsStart(lines, i) && IsScan(lines, i + 1, starts, rest) && k <= |starts|
    ensures IsSection(lines, [i] + starts, k, ([Section(lines[i][3..], rest.head)] + rest.tail)[k])
  {
    var all := [i] + starts;
    assert forall m :: 0 < m < |all| ==> all[m] == starts[m - 1];
    if k > 0 {
      assert IsSection(lines, starts, k - 1, rest.tail[k - 1]);
      assert NextStart(lines, all, k) == NextStart(lines, starts, k - 1);
    }
  }

  /** The scan from any line on, with the fence that is open there. */
  lemma {:induction false} ScanMeans(lines: seq<string>, i: nat, fence: Option<Fence>) returns (starts: seq<nat>)
    requires i <= |lines| && IsOpenFence(lines, i, fence)
    ensures IsScan(lines, i, starts, Scan(lines[i..], fence))
    decreases |lines| - i
  {
    if i == |lines| {
      EndIsScan(lines, fence);
      starts := [];
    } else {
      var line := lines[i];
      ScanStep(lines, i, fence);
      MarkIsFenceNext(line, fence);
      FenceStep(lines, i, fence);
      OpenFenceIsIn(lines, i, fence);
      StartsMark(line);
      var more := ScanMeans(lines, i + 1, Mark(line, fence));
      var rest := Scan(lines[i + 1..], Mark(line, fence));
      if FenceOf(line).None? && fence.None? && IsEntryHeading(line) {
        StartLine(lines, i, more, rest, Scan(lines[i..], fence));
        starts := [i] + more;
      } else {
        OtherLine(lines, i, more, rest, Scan(lines[i..], fence), FenceOf(line).Some? || fence.Some? || !Starts(line, MARK));
        starts := more;
      }
    }
  }

  // ---------- one entry ----------

  predicate AllBlankBetween(lines: seq<string>, a: nat, b: nat)
    requires a <= b <= |lines|
  {
    forall k :: a <= k < b ==> IsBlank(lines[k])
  }

  /** After blank lines a session line and a submission line; after blank lines again the evidence. */
  predicate IsEntryBlock(valid: string -> bool, lines: seq<string>, n: nat, m: nat, e: Entry) {
    && n + 2 <= m <= |lines| && AllBlankBetween(lines, 0, n) && !IsBlank(lines[n])
    && HasAt(lines[n], 0, "Session: ") && e.session == Strip(lines[n][9..]) && e.session != []
    && HasAt(lines[n + 1], 0, "Submitted: ") && e.submitted == Strip(lines[n + 1][11..]) && valid(e.submitted)
    && AllBlankBetween(lines, n + 2, m) && (m < |lines| ==> !IsBlank(lines[m]))
    && e.body == Strip(JoinLines(lines[m..])) && e.body != []
  }

  lemma {:induction false} DropBlankIs(lines: seq<string>, n: nat)
    requires n <= |lines| && AllBlankBetween(lines, 0, n) && (n < |lines| ==> !IsBlank(lines[n]))
    ensures DropBlank(lines) == lines[n..]
    decreases n
  {
    if n > 0 {
      assert AllBlankBetween(lines[1..], 0, n - 1);
      DropBlankIs(lines[1..], n - 1);
      assert lines[1..][n - 1..] == lines[n..];
    }
  }

  lemma {:induction false} DropBlankStops(lines: seq<string>) returns (n: nat)
    ensures n <= |lines| && AllBlankBetween(lines, 0, n) && (n < |lines| ==> !IsBlank(lines[n])) && DropBlank(lines) == lines[n..]
    decreases |lines|
  {
    if lines != [] && IsBlank(lines[0]) {
      var k := DropBlankStops(lines[1..]);
      n := k + 1;
      assert lines[1..][k..] == lines[n..];
      assert forall i :: 0 < i < n ==> lines[i] == lines[1..][i - 1];
    } else {
      n := 0;
    }
  }

  lemma ProvenanceMeans(line: string)
    ensures Starts(line, SESSION) <==> HasAt(line, 0, "Session: ")
    ensures Starts(line, SESSION) ==> ValueOf(SESSION, line) == Strip(line[9..])
    ensures Starts(line, SUBMITTED) <==> HasAt(line, 0, "Submitted: ")
    ensures Starts(line, SUBMITTED) ==> ValueOf(SUBMITTED, line) == Strip(line[11..])
  {}

  /** A block holds an entry exactly if its provenance lines come first and its evidence is not blank. */
  lemma {:induction false} BlockIsEntry(valid: string -> bool, s: Section, n: nat, m: nat, e: Entry)
    requires IsEntryBlock(valid, s.lines, n, m, e) && e.id == s.id
    ensures EntryOf(valid, s) == Some(e)
  {
    DropBlankIs(s.lines, n);
    var block := s.lines[n..];
    assert First(block) == s.lines[n] && Rest(block) == s.lines[n + 1..] && First(Rest(block)) == s.lines[n + 1];
    var rest := s.lines[n + 2..];
    assert Rest(Rest(block)) == rest;
    assert AllBlankBetween(rest, 0, m - n - 2) by {
      assert forall k :: 0 <= k < m - n - 2 ==> rest[k] == s.lines[n + 2 + k];
    }
    DropBlankIs(rest, m - n - 2);
    assert rest[m - n - 2..] == s.lines[m..];
    ProvenanceMeans(s.lines[n]);
    ProvenanceMeans(s.lines[n + 1]);
  }

  lemma {:induction false} EntryIsBlock(valid: string -> bool, s: Section) returns (n: nat, m: nat)
    requires EntryOf(valid, s).Some?
    ensures IsEntryBlock(valid, s.lines, n, m, EntryOf(valid, s).value) && EntryOf(valid, s).value.id == s.id
  {
    n := DropBlankStops(s.lines);
    var block := s.lines[n..];
    HasProvenance(valid, s, block);
    m := EvidenceStarts(s.lines, n + 2);
    assert Rest(Rest(block)) == s.lines[n + 2..];
    ProvenanceMeans(s.lines[n]);
    ProvenanceMeans(s.lines[n + 1]);
  }

  lemma EvidenceStarts(lines: seq<string>, from: nat) returns (m: nat)
    requires from <= |lines|
    ensures from <= m <= |lines| && AllBlankBetween(lines, from, m) && (m < |lines| ==> !IsBlank(lines[m]))
    ensures DropBlank(lines[from..]) == lines[m..]
  {
    var rest := lines[from..];
    var k := DropBlankStops(rest);
    m := from + k;
    assert rest[k..] == lines[m..];
    forall i | from <= i < m ensures IsBlank(lines[i]) {
      assert rest[i - from] == lines[i];
    }
  }

  lemma {:induction false} HasProvenance(valid: string -> bool, s: Section, block: seq<string>)
    requires EntryOf(valid, s).Some? && block == DropBlank(s.lines)
    ensures |block| >= 2 && Starts(block[0], SESSION) && Starts(block[1], SUBMITTED)
  {}

  ghost predicate HoldsEntry(valid: string -> bool, s: Section, e: Entry) {
    e.id == s.id && exists n, m :: IsEntryBlock(valid, s.lines, n, m, e)
  }

  lemma {:induction false} EntryMeans(valid: string -> bool, s: Section)
    ensures forall e :: EntryOf(valid, s) == Some(e) <==> HoldsEntry(valid, s, e)
  {
    if EntryOf(valid, s).Some? {
      var n, m := EntryIsBlock(valid, s);
    }
    forall e | HoldsEntry(valid, s, e) ensures EntryOf(valid, s) == Some(e) {
      var n, m :| IsEntryBlock(valid, s.lines, n, m, e);
      BlockIsEntry(valid, s, n, m, e);
    }
  }

  // ---------- the whole inbox ----------

  /**
   The lines after the title are an inbox: every fenced block is closed, every
   entry heading is whole, only blank lines come before the first one, and the
   ids differ.
   */
  ghost predicate IsLaidOut(lines: seq<string>, starts: seq<nat>) {
    && !InFence(lines, |lines|) && HeadingsAreWhole(lines, 0)
    && AllBlankBetween(lines, 0, if starts == [] then |lines| else if starts[0] <= |lines| then starts[0] else 0)
    && forall j, k :: 0 <= j < k < |starts| && starts[k] < |lines| && starts[j] < |lines| && |lines[starts[j]]| >= 3 && |lines[starts[k]]| >= 3 ==>
         lines[starts[j]][3..] != lines[starts[k]][3..]
  }

  /** The block that the `k`-th start begins. */
  function BlockAt(lines: seq<string>, starts: seq<nat>, k: nat): Section
    requires k < |starts|
  {
    if starts[k] < |lines| && |lines[starts[k]]| >= 3 then Section(lines[starts[k]][3..], Between(lines, starts[k] + 1, NextStart(lines, starts, k)))
    else Section([], [])
  }

  predicate AreAll(found: seq<Option<Entry>>, es: seq<Entry>) {
    |es| == |found| && forall k :: 0 <= k < |es| ==> found[k] == Some(es[k])
  }

  lemma AllStep(found: seq<Option<Entry>>, es: seq<Entry>)
    requires found != [] && es != []
    ensures AreAll(found, es) <==> found[0] == Some(es[0]) && AreAll(found[1..], es[1..])
  {
    assert forall k :: 0 < k < |found| ==> found[k] == found[1..][k - 1];
    assert forall k :: 0 < k < |es| ==> es[k] == es[1..][k - 1];
  }

  ghost predicate AreRead(valid: string -> bool, sections: seq<Section>, found: seq<Option<Entry>>) {
    |found| == |sections| && forall k :: 0 <= k < |found| ==> found[k] == EntryOf(valid, sections[k])
  }

  lemma {:induction false} EntriesMean(valid: string -> bool, sections: seq<Section>, found: seq<Option<Entry>>, es: seq<Entry>)
    requires AreRead(valid, sections, found)
    ensures EntriesOf(valid, sections) == Some(es) <==> AreAll(found, es)
    decreases |sections|
  {
    if sections != [] {
      assert found[0] == EntryOf(valid, sections[0]);
      if es != [] {
        assert AreRead(valid, sections[1..], found[1..]);
        EntriesMean(valid, sections[1..], found[1..], es[1..]);
        AllStep(found, es);
        assert es == [es[0]] + es[1..];
      }
    }
  }

  lemma LayoutMeans(lines: seq<string>, starts: seq<nat>, r: Sections)
    requires IsScan(lines, 0, starts, r)
    ensures r.ok && AllBlank(r.head) && DistinctIds(r.tail) <==> IsLaidOut(lines, starts)
    ensures forall k :: 0 <= k < |starts| ==> r.tail[k] == BlockAt(lines, starts, k)
  {
    StartsAreInside(lines, starts, 0);
    var n := NextStart(lines, starts, -1);
    assert r.head == lines[..n];
    assert AllBlank(r.head) <==> AllBlankBetween(lines, 0, n);
    forall k | 0 <= k < |starts| ensures r.tail[k] == BlockAt(lines, starts, k) && starts[k] < |lines| && |lines[starts[k]]| >= 3 && r.tail[k].id == lines[starts[k]][3..] {
      assert IsSection(lines, starts, k, r.tail[k]);
    }
  }

  /** The blocks hold these entries, one each, in order. */
  ghost predicate AreHeld(valid: string -> bool, lines: seq<string>, starts: seq<nat>, es: seq<Entry>) {
    |es| == |starts| && forall k :: 0 <= k < |es| ==> HoldsEntry(valid, BlockAt(lines, starts, k), es[k])
  }

  lemma {:induction false} HeldMeans(valid: string -> bool, lines: seq<string>, starts: seq<nat>, sections: seq<Section>, found: seq<Option<Entry>>, es: seq<Entry>)
    requires |sections| == |starts| && forall k :: 0 <= k < |starts| ==> sections[k] == BlockAt(lines, starts, k)
    requires AreRead(valid, sections, found)
    ensures AreAll(found, es) <==> AreHeld(valid, lines, starts, es)
  {
    forall k | 0 <= k < |es| == |sections|
      ensures found[k] == Some(es[k]) <==> HoldsEntry(valid, BlockAt(lines, starts, k), es[k])
    {
      EntryMeans(valid, sections[k]);
    }
  }

  lemma {:induction false} LinesMean(valid: string -> bool, lines: seq<string>) returns (starts: seq<nat>)
    requires lines != [] && lines[0] == TITLE
    ensures AreStarts(lines[1..], starts, 0)
    ensures forall es :: ParseLines(valid, lines) == Some(es) <==> IsLaidOut(lines[1..], starts) && AreHeld(valid, lines[1..], starts, es)
  {
    var rest := lines[1..];
    StartIsOpen(rest);
    assert rest[0..] == rest;
    starts := ScanMeans(rest, 0, None);
    var r := Scan(rest, None);
    LayoutMeans(rest, starts, r);
    var found := seq(|r.tail|, k requires 0 <= k < |r.tail| => EntryOf(valid, r.tail[k]));
    forall es ensures EntriesOf(valid, r.tail) == Some(es) <==> AreHeld(valid, rest, starts, es) {
      EntriesMean(valid, r.tail, found, es);
      HeldMeans(valid, rest, starts, r.tail, found, es);
    }
  }

  /**
   A text is accepted exactly if its first line is the title, the lines after it
   are laid out as an inbox, and each block holds an entry; its entries are those
   of the blocks, in order.
   */
  lemma {:induction false} ParseMeans(valid: string -> bool, text: string) returns (starts: seq<nat>)
    ensures LinesOf(text) != [] ==> AreStarts(LinesOf(text)[1..], starts, 0)
    ensures forall es :: Parse(valid, text) == Some(es) <==>
      && LinesOf(text) != [] && LinesOf(text)[0] == "# Pending Agent Guidance"
      && IsLaidOut(LinesOf(text)[1..], starts) && AreHeld(valid, LinesOf(text)[1..], starts, es)
  {
    var lines := LinesOf(text);
    starts := [];
    if lines != [] {
      if lines[0] == TITLE {
        starts := LinesMean(valid, lines);
      } else {
        starts := StartsOf(lines[1..]);
      }
    }
  }

  lemma {:induction false} StartsOf(lines: seq<string>) returns (starts: seq<nat>)
    ensures AreStarts(lines, starts, 0)
  {
    StartIsOpen(lines);
    starts := ScanMeans(lines, 0, None);
  }

  lemma StartIsOpen(lines: seq<string>)
    ensures IsOpenFence(lines, 0, None)
  {}
}
