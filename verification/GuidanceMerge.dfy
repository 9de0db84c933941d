/** The merge of two edits of the inbox is a sound three-way merge. */
module GuidanceMerge {
  import opened Common
  import opened Ordering
  import opened Guidance

  lemma IdIsListed(base: seq<Entry>, ours: seq<Entry>, theirs: seq<Entry>, id: string)
    ensures id in AllIds(base, ours, theirs) <==> HasId(base, id) || HasId(ours, id) || HasId(theirs, id)
  {
    assert id in Ids(base) + Ids(ours) + Ids(theirs) <==> id in Ids(base) || id in Ids(ours) || id in Ids(theirs);
  }

  /** What no side has is in no conflict and not selected. */
  lemma UnknownIsNothing(base: seq<Entry>, ours: seq<Entry>, theirs: seq<Entry>, id: string)
    requires id !in AllIds(base, ours, theirs)
    ensures !ConflictsAt(base, ours, theirs, id) && SelectAt(base, ours, theirs, id) == None
  {
    IdIsListed(base, ours, theirs, id);
  }

  // ---------- conflicts ----------

  lemma {:induction false} FirstConflictIsLeast(base: seq<Entry>, ours: seq<Entry>, theirs: seq<Entry>, ids: seq<string>, id: string)
    requires Ascending(ids) && id in ids && ConflictsAt(base, ours, theirs, id)
    ensures var r := FirstConflict(base, ours, theirs, ids); r.Some? && (r.value == id || Less(r.value, id))
  {
    FirstIsLeast(ids, id);
    if !ConflictsAt(base, ours, theirs, ids[0]) {
      assert ids == [ids[0]] + ids[1..];
      FirstConflictIsLeast(base, ours, theirs, ids[1..], id);
    }
  }

  /** Both sides changed what the base has under `id`, and differently. */
  predicate BothChanged(base: seq<Entry>, ours: seq<Entry>, theirs: seq<Entry>, id: string) {
    Find(ours, id) != Find(base, id) && Find(theirs, id) != Find(base, id) && Find(ours, id) != Find(theirs, id)
  }

  /** There is a conflict exactly when both sides changed one entry differently; the least such id is reported. */
  lemma ConflictIffBothChanged(base: seq<Entry>, ours: seq<Entry>, theirs: seq<Entry>)
    ensures MergeEntries(base, ours, theirs).Conflict? <==> exists id :: BothChanged(base, ours, theirs, id)
    ensures var m := MergeEntries(base, ours, theirs);
            m.Conflict? ==> BothChanged(base, ours, theirs, m.id) && forall id :: BothChanged(base, ours, theirs, id) ==> m.id == id || ComesBefore(m.id, id)
  {
    var ids := AllIds(base, ours, theirs);
    SortedAscends(Ids(base) + Ids(ours) + Ids(theirs));
    forall id ensures BothChanged(base, ours, theirs, id) <==> ConflictsAt(base, ours, theirs, id) {}
    forall id | BothChanged(base, ours, theirs, id)
      ensures var r := FirstConflict(base, ours, theirs, ids); r.Some? && (r.value == id || ComesBefore(r.value, id))
    {
      if id !in ids {
        UnknownIsNothing(base, ours, theirs, id);
      }
      FirstConflictIsLeast(base, ours, theirs, ids, id);
      LessMeans(FirstConflict(base, ours, theirs, ids).value, id);
    }
  }

  // ---------- what survives ----------

  lemma {:induction false} PlaceMembers(e: Entry, es: seq<Entry>)
    ensures multiset(Place(e, es)) == multiset(es)[e := multiset(es)[e] + 1]
  {
    if es != [] {
      assert es == [es[0]] + es[1..];
      if !Sooner(e, es[0]) {
        PlaceMembers(e, es[1..]);
      }
    }
  }

  lemma {:induction false} SortKeeps(es: seq<Entry>)
    ensures multiset(SortBySubmission(es)) == multiset(es)
  {
    if es != [] {
      assert es == [es[0]] + es[1..];
      SortKeeps(es[1..]);
      PlaceMembers(es[0], SortBySubmission(es[1..]));
    }
  }

  lemma SortMembers(es: seq<Entry>, e: Entry)
    ensures e in SortBySubmission(es) <==> e in es
  {
    SortKeeps(es);
    assert e in SortBySubmission(es) <==> e in multiset(SortBySubmission(es));
  }

  lemma MergedMembers(base: seq<Entry>, ours: seq<Entry>, theirs: seq<Entry>, e: Entry)
    requires MergeEntries(base, ours, theirs).Merged?
    ensures e in MergeEntries(base, ours, theirs).entries <==> SelectAt(base, ours, theirs, e.id) == Some(e)
  {
    var ids := AllIds(base, ours, theirs);
    var all := Chosen(base, ours, theirs, ids);
    var additions := Filter(NotIn(base), all);
    FilterMembers(NotIn(base), all);
    SortMembers(additions, e);
    if SelectAt(base, ours, theirs, e.id) == Some(e) {
      if e.id !in ids {
        UnknownIsNothing(base, ours, theirs, e.id);
      }
      assert e in all;
      assert HasId(base, e.id) ==> e.id in Ids(base);
    }
  }

  lemma FindIs(es: seq<Entry>, id: string, e: Option<Entry>)
    requires forall x :: x in es && x.id == id ==> e == Some(x)
    requires e.Some? ==> e.value in es && e.value.id == id
    ensures Find(es, id) == e
  {
    if e.Some? {
      var i :| 0 <= i < |es| && es[i] == e.value;
      assert HasId(es, id);
    }
  }

  /** Entry by entry the merge is what the three sides say. */
  lemma MergeIsPointwise(base: seq<Entry>, ours: seq<Entry>, theirs: seq<Entry>, id: string)
    requires MergeEntries(base, ours, theirs).Merged?
    ensures Find(MergeEntries(base, ours, theirs).entries, id) == SelectAt(base, ours, theirs, id)
  {
    var es := MergeEntries(base, ours, theirs).entries;
    forall x | x in es && x.id == id ensures SelectAt(base, ours, theirs, id) == Some(x) {
      MergedMembers(base, ours, theirs, x);
    }
    var e := SelectAt(base, ours, theirs, id);
    if e.Some? {
      MergedMembers(base, ours, theirs, e.value);
    }
    FindIs(es, id, e);
  }

  /** Every addition, edit or deletion that one side made and the other did not touch survives. */
  lemma OneSidedChangesSurvive(base: seq<Entry>, ours: seq<Entry>, theirs: seq<Entry>, id: string)
    requires MergeEntries(base, ours, theirs).Merged?
    ensures var es := MergeEntries(base, ours, theirs).entries;
            && (Find(theirs, id) == Find(base, id) ==> Find(es, id) == Find(ours, id))
            && (Find(ours, id) == Find(base, id) ==> Find(es, id) == Find(theirs, id))
            && (Find(ours, id) == Find(theirs, id) ==> Find(es, id) == Find(ours, id))
  {
    MergeIsPointwise(base, ours, theirs, id);
  }

  // ---------- symmetry ----------

  lemma {:induction false} FirstConflictSymmetric(base: seq<Entry>, ours: seq<Entry>, theirs: seq<Entry>, ids: seq<string>)
    ensures FirstConflict(base, ours, theirs, ids) == FirstConflict(base, theirs, ours, ids)
  {
    if ids != [] {
      FirstConflictSymmetric(base, ours, theirs, ids[1..]);
    }
  }

  lemma {:induction false} ChosenSymmetric(base: seq<Entry>, ours: seq<Entry>, theirs: seq<Entry>, ids: seq<string>)
    requires forall id :: id in ids ==> !ConflictsAt(base, ours, theirs, id)
    ensures Chosen(base, ours, theirs, ids) == Chosen(base, theirs, ours, ids)
  {
    if ids != [] {
      assert ids == [ids[0]] + ids[1..];
      assert ids[0] in ids;
      ChosenSymmetric(base, ours, theirs, ids[1..]);
    }
  }

  lemma AllIdsSymmetric(base: seq<Entry>, ours: seq<Entry>, theirs: seq<Entry>)
    ensures AllIds(base, ours, theirs) == AllIds(base, theirs, ours)
  {
    var a, b := Ids(base) + Ids(ours) + Ids(theirs), Ids(base) + Ids(theirs) + Ids(ours);
    SortedAscends(a);
    SortedAscends(b);
    assert forall x :: x in a <==> x in b;
    AscendingIsUnique(Sorted(a), Sorted(b));
  }

  /** Swapping the sides gives the same entries in the same order, or the same conflict. */
  lemma MergeIsSymmetric(base: seq<Entry>, ours: seq<Entry>, theirs: seq<Entry>)
    ensures MergeEntries(base, ours, theirs) == MergeEntries(base, theirs, ours)
  {
    var ids := AllIds(base, ours, theirs);
    AllIdsSymmetric(base, ours, theirs);
    FirstConflictSymmetric(base, ours, theirs, ids);
    if FirstConflict(base, ours, theirs, ids).None? {
      ChosenSymmetric(base, ours, theirs, ids);
      forall id | id in Ids(base) ensures id in ids {
        IdIsListed(base, ours, theirs, id);
      }
      ChosenSymmetric(base, ours, theirs, Ids(base));
    }
  }

  lemma MergeTextIsSymmetric(valid: string -> bool, base: string, ours: string, theirs: string)
    ensures MergeText(valid, base, ours, theirs) == MergeText(valid, base, theirs, ours)
  {
    var b, o, t := Parse(valid, base), Parse(valid, ours), Parse(valid, theirs);
    if b.Some? && o.Some? && t.Some? {
      MergeIsSymmetric(b.value, o.value, t.value);
    }
  }

  // ---------- order ----------

  predicate DistinctEntries(es: seq<Entry>) {
    forall i, j :: 0 <= i < j < |es| ==> es[i].id != es[j].id
  }

  predicate BySubmission(es: seq<Entry>) {
    forall i, j :: 0 <= i < j < |es| ==> Sooner(es[i], es[j])
  }

  lemma SoonerTotal(a: Entry, b: Entry)
    requires a.id != b.id
    ensures Sooner(a, b) || Sooner(b, a)
  {
    LessTotal(a.submitted, b.submitted);
    LessTotal(a.id, b.id);
  }

  lemma SoonerTrans(a: Entry, b: Entry, c: Entry)
    requires Sooner(a, b) && Sooner(b, c)
    ensures Sooner(a, c)
  {
    if Less(a.submitted, b.submitted) && Less(b.submitted, c.submitted) {
      LessTrans(a.submitted, b.submitted, c.submitted);
    } else if a.submitted == b.submitted == c.submitted {
      LessTrans(a.id, b.id, c.id);
    }
  }

  lemma {:induction false} PlaceSorts(e: Entry, es: seq<Entry>)
    requires BySubmission(es) && !HasId(es, e.id)
    ensures BySubmission(Place(e, es))
  {
    if es != [] {
      SoonerTotal(e, es[0]);
      if Sooner(e, es[0]) {
        forall i | 0 <= i < |es| ensures Sooner(e, es[i]) {
          if i > 0 {
            SoonerTrans(e, es[0], es[i]);
          }
        }
      } else {
        assert forall i :: 0 <= i < |es| - 1 ==> es[1..][i] == es[i + 1];
        PlaceSorts(e, es[1..]);
        var r := Place(e, es[1..]);
        forall i | 0 <= i < |r| ensures Sooner(es[0], r[i]) {
          PlaceMembers(e, es[1..]);
          assert r[i] in multiset(r);
        }
      }
    }
  }

  lemma {:induction false} SortSorts(es: seq<Entry>)
    requires DistinctEntries(es)
    ensures BySubmission(SortBySubmission(es))
  {
    if es != [] {
      SortSorts(es[1..]);
      forall i | 0 <= i < |SortBySubmission(es[1..])| ensures SortBySubmission(es[1..])[i].id != es[0].id {
        SortMembers(es[1..], SortBySubmission(es[1..])[i]);
      }
      PlaceSorts(es[0], SortBySubmission(es[1..]));
    }
  }

  function Survives(base: seq<Entry>, ours: seq<Entry>, theirs: seq<Entry>): string -> bool {
    id => SelectAt(base, ours, theirs, id).Some?
  }

  lemma {:induction false} ChosenIds(base: seq<Entry>, ours: seq<Entry>, theirs: seq<Entry>, ids: seq<string>)
    ensures Ids(Chosen(base, ours, theirs, ids)) == Filter(Survives(base, ours, theirs), ids)
  {
    if ids != [] {
      ChosenIds(base, ours, theirs, ids[1..]);
    }
  }

  lemma {:induction false} ChosenDistinct(base: seq<Entry>, ours: seq<Entry>, theirs: seq<Entry>, ids: seq<string>)
    requires forall i, j :: 0 <= i < j < |ids| ==> ids[i] != ids[j]
    ensures DistinctEntries(Chosen(base, ours, theirs, ids))
  {
    if ids != [] {
      ChosenDistinct(base, ours, theirs, ids[1..]);
    }
  }

  lemma {:induction false} FilterDistinct(keep: Entry -> bool, es: seq<Entry>)
    requires DistinctEntries(es)
    ensures DistinctEntries(Filter(keep, es))
  {
    if es != [] {
      FilterDistinct(keep, es[1..]);
      FilterMembers(keep, es[1..]);
      forall e | e in Filter(keep, es[1..]) ensures e.id != es[0].id {
        var i :| 0 <= i < |es[1..]| && es[1..][i] == e;
        assert es[i + 1] == e;
      }
    }
  }

  lemma AscendingDistinct(ids: seq<string>)
    requires Ascending(ids)
    ensures forall i, j :: 0 <= i < j < |ids| ==> ids[i] != ids[j]
  {
    forall i, j | 0 <= i < j < |ids| ensures ids[i] != ids[j] {
      LessIrreflexive(ids[i]);
    }
  }

  lemma {:induction false} PlaceDistinct(e: Entry, es: seq<Entry>)
    requires DistinctEntries(es) && !HasId(es, e.id)
    ensures DistinctEntries(Place(e, es))
  {
    if es != [] && !Sooner(e, es[0]) {
      assert forall i :: 0 <= i < |es| - 1 ==> es[1..][i] == es[i + 1];
      PlaceDistinct(e, es[1..]);
      var r := Place(e, es[1..]);
      PlaceMembers(e, es[1..]);
      forall i | 0 <= i < |r| ensures r[i].id != es[0].id {
        assert r[i] in multiset(r);
        assert r[i] == e || r[i] in es[1..];
      }
    }
  }

  lemma {:induction false} SortDistinct(es: seq<Entry>)
    requires DistinctEntries(es)
    ensures DistinctEntries(SortBySubmission(es))
  {
    if es != [] {
      SortDistinct(es[1..]);
      forall i | 0 <= i < |SortBySubmission(es[1..])| ensures SortBySubmission(es[1..])[i].id != es[0].id {
        SortMembers(es[1..], SortBySubmission(es[1..])[i]);
      }
      PlaceDistinct(es[0], SortBySubmission(es[1..]));
    }
  }

  function Additions(base: seq<Entry>, ours: seq<Entry>, theirs: seq<Entry>): seq<Entry> {
    SortBySubmission(Filter(NotIn(base), Chosen(base, ours, theirs, AllIds(base, ours, theirs))))
  }

  lemma AdditionsSorted(base: seq<Entry>, ours: seq<Entry>, theirs: seq<Entry>)
    ensures var added := Additions(base, ours, theirs);
            BySubmission(added) && DistinctEntries(added) && forall e :: e in added ==> !HasId(base, e.id)
  {
    var ids := AllIds(base, ours, theirs);
    var all := Chosen(base, ours, theirs, ids);
    SortedAscends(Ids(base) + Ids(ours) + Ids(theirs));
    AscendingDistinct(ids);
    ChosenDistinct(base, ours, theirs, ids);
    FilterDistinct(NotIn(base), all);
    SortSorts(Filter(NotIn(base), all));
    SortDistinct(Filter(NotIn(base), all));
    FilterMembers(NotIn(base), all);
    forall e | e in Additions(base, ours, theirs) ensures !HasId(base, e.id) {
      SortMembers(Filter(NotIn(base), all), e);
    }
  }

  /** Earlier submission first, then the id that comes before. */
  predicate InTimeOrder(es: seq<Entry>) {
    forall i, j :: 0 <= i < j < |es| ==>
      ComesBefore(es[i].submitted, es[j].submitted) || (es[i].submitted == es[j].submitted && ComesBefore(es[i].id, es[j].id))
  }

  lemma SubmissionIsTimeOrder(es: seq<Entry>)
    requires BySubmission(es)
    ensures InTimeOrder(es)
  {
    forall i, j | 0 <= i < j < |es|
      ensures ComesBefore(es[i].submitted, es[j].submitted) || (es[i].submitted == es[j].submitted && ComesBefore(es[i].id, es[j].id))
    {
      assert Sooner(es[i], es[j]);
      LessMeans(es[i].submitted, es[j].submitted);
      LessMeans(es[i].id, es[j].id);
    }
  }

  /** Surviving base entries keep their order and come first; the additions follow by time of submission. */
  lemma MergeKeepsOrder(base: seq<Entry>, ours: seq<Entry>, theirs: seq<Entry>)
    requires MergeEntries(base, ours, theirs).Merged? && DistinctEntries(base)
    ensures var es := MergeEntries(base, ours, theirs).entries;
            var n := |Filter(Survives(base, ours, theirs), Ids(base))|;
            && n <= |es| && Ids(es[..n]) == Filter(Survives(base, ours, theirs), Ids(base))
            && InTimeOrder(es[n..]) && (forall e :: e in es[n..] ==> !HasId(base, e.id))
            && DistinctEntries(es)
  {
    var kept, added := Chosen(base, ours, theirs, Ids(base)), Additions(base, ours, theirs);
    ChosenIds(base, ours, theirs, Ids(base));
    AdditionsSorted(base, ours, theirs);
    ChosenDistinct(base, ours, theirs, Ids(base));
    var es := kept + added;
    assert es[..|kept|] == kept && es[|kept|..] == added;
    SubmissionIsTimeOrder(added);
    KeptAndAdded(base, kept, added);
  }

  lemma KeptAndAdded(base: seq<Entry>, kept: seq<Entry>, added: seq<Entry>)
    requires DistinctEntries(kept) && (forall e :: e in kept ==> HasId(base, e.id)) && (forall e :: e in added ==> !HasId(base, e.id)) && DistinctEntries(added)
    ensures DistinctEntries(kept + added)
  {
    forall i, j | 0 <= i < j < |kept + added| ensures (kept + added)[i].id != (kept + added)[j].id {
      assert i < |kept| ==> kept[i] in kept;
      assert j >= |kept| ==> added[j - |kept|] in added;
    }
  }
}
