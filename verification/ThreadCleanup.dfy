/** A cleanup pass over the recorded provider threads: what forked from a base goes before the base. */
module ThreadCleanup {
  import opened Common

  type Id = string

  datatype Policy = ForkBase | Persistent | Ephemeral

  datatype ThreadRecord = ThreadRecord(policy: Policy, forkedFrom: Option<Id>, activityAt: int, pending: bool)

  type Records = map<Id, ThreadRecord>

  /** What the pass meets: the time, leases that others hold, threads the provider does not delete. */
  datatype Scene = Scene(now: int, busy: set<Id>, refused: set<Id>)

  datatype Counts = Counts(deleted: nat, pending: nat, skipped: nat)

  // seconds
  const FORK_BASE_RETENTION := 24 * 3600
  const THREAD_RETENTION := 3600

  function Retention(policy: Policy): int {
    if policy == ForkBase then FORK_BASE_RETENTION else THREAD_RETENTION
  }

  /** Marked before, or idle for longer than its retention. */
  predicate IsDue(r: ThreadRecord, now: int) {
    r.pending || r.activityAt <= now - Retention(r.policy)
  }

  predicate HasForkChild(records: Records, base: Id) {
    exists id :: id in records && records[id].forkedFrom == Some(base)
  }

  /** A thread may be deleted if it is due, nobody holds it and, for a fork base, no record names it as its source. */
  predicate MayDelete(records: Records, scene: Scene, id: Id) {
    && id in records && IsDue(records[id], scene.now) && id !in scene.busy
    && (records[id].policy == ForkBase ==> !HasForkChild(records, id))
  }

  ghost predicate OnlyRemoved(before: Records, after: Records, gone: set<Id>) {
    && gone <= before.Keys
    && (forall id :: id in after <==> id in before && id !in gone)
    && forall id :: id in after ==> after[id].(pending := before[id].pending) == before[id] && (before[id].pending ==> after[id].pending)
  }

  // ---------- marking and removing ----------

  lemma RemovedThenRemoved(a: Records, b: Records, c: Records, x: set<Id>, y: set<Id>)
    requires OnlyRemoved(a, b, x) && OnlyRemoved(b, c, y)
    ensures OnlyRemoved(a, c, x + y)
  {
    forall id | id in c ensures c[id].(pending := a[id].pending) == a[id] {
      assert b[id].(pending := a[id].pending) == a[id];
    }
  }

  /** What the first `ids` ready threads are. */
  function Ready(records: Records, scene: Scene): Id -> bool {
    id => MayDelete(records, scene, id)
  }

  function Accepts(scene: Scene): Id -> bool {
    id => id !in scene.refused
  }

  lemma {:induction false} FilterKeepsDistinct(keep: Id -> bool, ids: seq<Id>)
    requires Distinct(ids)
    ensures Distinct(Filter(keep, ids))
  {
    if ids != [] {
      FilterKeepsDistinct(keep, ids[1..]);
      FilterMembers(keep, ids[1..]);
      forall id | id in Filter(keep, ids[1..]) ensures id != ids[0] {
        var i :| 0 <= i < |ids| - 1 && ids[1..][i] == id;
        assert ids[i + 1] == id;
      }
    }
  }

  function IsBase(records: Records): Id -> bool {
    id => id in records && records[id].policy == ForkBase
  }

  function IsOther(records: Records): Id -> bool {
    id => !(id in records && records[id].policy == ForkBase)
  }

  lemma {:induction false} BasesAndOthers(records: Records, ids: seq<Id>)
    ensures |Filter(IsBase(records), ids)| + |Filter(IsOther(records), ids)| == |ids|
  {
    if ids != [] {
      BasesAndOthers(records, ids[1..]);
    }
  }

  /** Whatever fork base has gone, nothing left names it. */
  ghost predicate KeepsParents(before: Records, after: Records) {
    forall id :: id in before && id !in after && before[id].policy == ForkBase ==> !HasForkChild(after, id)
  }

  lemma FewerChildren(before: Records, after: Records, gone: set<Id>, id: Id)
    requires OnlyRemoved(before, after, gone) && HasForkChild(after, id)
    ensures HasForkChild(before, id)
  {
    var c :| c in after && after[c].forkedFrom == Some(id);
    assert before[c].forkedFrom == Some(id);
  }

  /** Bases that were ready have no child left. */
  lemma ReadyBasesKeepParents(before: Records, middle: Records, after: Records, first: set<Id>, second: set<Id>, scene: Scene)
    requires OnlyRemoved(before, middle, first) && OnlyRemoved(middle, after, second)
    requires forall id :: id in first ==> before[id].policy != ForkBase
    requires forall id :: id in second ==> MayDelete(middle, scene, id) || middle[id].policy != ForkBase
    ensures KeepsParents(before, after)
  {
    forall id | id in before && id !in after && before[id].policy == ForkBase ensures !HasForkChild(after, id) {
      assert id in middle && middle[id].(pending := before[id].pending) == before[id];
      if HasForkChild(after, id) {
        FewerChildren(middle, after, second, id);
      }
    }
  }

  /** Records of other threads are as they were. */
  ghost predicate Untouched(before: Records, after: Records, ids: set<Id>) {
    forall id :: id in before && id !in ids ==> id in after && after[id] == before[id]
  }

  // ---------- what a pass leaves ----------

  /** The same threads, those of `ids` marked. */
  ghost predicate AreMarked(before: Records, after: Records, ids: set<Id>) {
    && before.Keys == after.Keys
    && forall id :: id in after ==> after[id] == before[id].(pending := before[id].pending || id in ids)
  }

  /** Marked before, or idle for a day or for an hour. */
  ghost predicate IsIdle(r: ThreadRecord, now: int) {
    r.pending || now - r.activityAt >= (if r.policy == ForkBase then 86400 else 3600)
  }

  /** Idle and free; and of a fork base, only ordinary threads were forked, and they have gone. */
  ghost predicate IsReady(before: Records, after: Records, scene: Scene, id: Id) {
    && id in before && IsIdle(before[id], scene.now) && id !in scene.busy
    && (before[id].policy == ForkBase ==>
         forall c :: c in before && before[c].forkedFrom == Some(id) ==> before[c].policy != ForkBase && c !in after)
  }

  /** Exactly the ready threads that the provider deletes have gone; the other ready ones are marked. */
  ghost predicate IsPass(before: Records, after: Records, scene: Scene) {
    && after.Keys <= before.Keys
    && (forall id :: id in before ==> (id !in after <==> IsReady(before, after, scene, id) && id !in scene.refused))
    && forall id :: id in after ==> after[id] == before[id].(pending := before[id].pending || IsReady(before, after, scene, id))
  }

  /** The ready threads that are still there. */
  ghost function Held(before: Records, after: Records, scene: Scene): set<Id> {
    set id | id in after && IsReady(before, after, scene, id)
  }

  /** The same of one stage, which judges the threads of `ids` by what it finds. */
  ghost predicate IsStage(before: Records, after: Records, ids: set<Id>, scene: Scene) {
    && after.Keys <= before.Keys
    && (forall id :: id in before ==> (id !in after <==> id in ids && MayDelete(before, scene, id) && id !in scene.refused))
    && forall id :: id in after ==> after[id] == before[id].(pending := before[id].pending || (id in ids && MayDelete(before, scene, id)))
  }

  ghost function HeldBy(before: Records, after: Records, ids: set<Id>, scene: Scene): set<Id> {
    set id | id in after && id in ids && MayDelete(before, scene, id)
  }

  lemma DueMeans(r: ThreadRecord, now: int)
    ensures IsDue(r, now) <==> IsIdle(r, now)
  {}

  lemma OthersAreReady(before: Records, middle: Records, after: Records, others: set<Id>, bases: set<Id>, scene: Scene, id: Id)
    requires IsStage(before, middle, others, scene) && IsStage(middle, after, bases, scene) && id in before
    requires forall c :: c in before ==> (c in bases <==> before[c].policy == ForkBase) && (c in others <==> before[c].policy != ForkBase)
    ensures id in others ==> (MayDelete(before, scene, id) <==> IsReady(before, after, scene, id))
  {
    DueMeans(before[id], scene.now);
  }

  lemma BasesAreReady(before: Records, middle: Records, after: Records, others: set<Id>, bases: set<Id>, scene: Scene, id: Id)
    requires IsStage(before, middle, others, scene) && IsStage(middle, after, bases, scene) && id in before
    requires forall c :: c in before ==> (c in bases <==> before[c].policy == ForkBase) && (c in others <==> before[c].policy != ForkBase)
    ensures id in bases ==> id in middle && middle[id] == before[id] && (MayDelete(middle, scene, id) <==> IsReady(before, after, scene, id))
  {
    DueMeans(before[id], scene.now);
    if id in bases {
      assert middle[id] == before[id];
      if HasForkChild(middle, id) {
        var c :| c in middle && middle[c].forkedFrom == Some(id);
        assert before[c].forkedFrom == Some(id) && (before[c].policy == ForkBase || c in after);
      } else {
        forall c | c in before && before[c].forkedFrom == Some(id) ensures before[c].policy != ForkBase && c !in after {
          assert c !in middle;
        }
      }
    }
  }

  /** Ordinary threads first, then the fork bases that nothing left names. */
  lemma TwoStages(before: Records, middle: Records, after: Records, others: set<Id>, bases: set<Id>, scene: Scene)
    requires IsStage(before, middle, others, scene) && IsStage(middle, after, bases, scene)
    requires forall c :: c in before ==> (c in bases <==> before[c].policy == ForkBase) && (c in others <==> before[c].policy != ForkBase)
    ensures IsPass(before, after, scene)
    ensures Held(before, after, scene) == HeldBy(before, middle, others, scene) + HeldBy(middle, after, bases, scene)
    ensures HeldBy(before, middle, others, scene) !! HeldBy(middle, after, bases, scene)
  {
    forall id | id in before
      ensures id in others ==> (MayDelete(before, scene, id) <==> IsReady(before, after, scene, id))
      ensures id in bases ==> id in middle && middle[id] == before[id] && (MayDelete(middle, scene, id) <==> IsReady(before, after, scene, id))
    {
      OthersAreReady(before, middle, after, others, bases, scene, id);
      BasesAreReady(before, middle, after, others, bases, scene, id);
    }
  }

  lemma FirstAreReady(records: Records, scene: Scene, ids: seq<Id>, i: nat)
    requires i <= |ids|
    ensures forall id :: id in Filter(Ready(records, scene), ids[..i]) ==> id in ids && MayDelete(records, scene, id)
  {
    FilterMembers(Ready(records, scene), ids[..i]);
  }

  lemma StageIsSafe(before: Records, marked: Records, after: Records, ids: seq<Id>, prepared: seq<Id>, gone: set<Id>, scene: Scene)
    requires AreMarked(before, marked, Elements(prepared)) && forall id :: id in prepared ==> id in ids && MayDelete(before, scene, id)
    requires gone <= Elements(prepared) && gone !! scene.refused && OnlyRemoved(marked, after, gone) && Untouched(marked, after, Elements(prepared))
    ensures OnlyRemoved(before, after, gone) && Untouched(before, after, Elements(ids))
    ensures forall id :: id in gone ==> id in ids && MayDelete(before, scene, id) && id !in scene.refused
  {
    forall id | id in after ensures after[id].(pending := before[id].pending) == before[id] {
      assert marked[id].(pending := before[id].pending) == before[id];
    }
  }

  lemma StageIsExact(before: Records, marked: Records, after: Records, ids: seq<Id>, prepared: seq<Id>, gone: set<Id>, scene: Scene)
    requires prepared == Filter(Ready(before, scene), ids) && AreMarked(before, marked, Elements(prepared))
    requires forall id :: id in ids ==> id in before
    requires gone == Elements(Filter(Accepts(scene), prepared)) && OnlyRemoved(marked, after, gone)
    requires forall id :: id in after ==> after[id] == marked[id].(pending := marked[id].pending || id in prepared)
    ensures IsStage(before, after, Elements(ids), scene)
    ensures gone == before.Keys - after.Keys && HeldBy(before, after, Elements(ids), scene) == Elements(prepared) - gone
  {
    FilterMembers(Ready(before, scene), ids);
    FilterMembers(Accepts(scene), prepared);
  }

  lemma {:induction false} DistinctCount(ids: seq<Id>)
    requires Distinct(ids)
    ensures |Elements(ids)| == |ids|
  {
    if ids != [] {
      var n := |ids| - 1;
      NotBefore(ids, n);
      DistinctCount(ids[..n]);
      assert Elements(ids) == Elements(ids[..n]) + {ids[n]} by {
        TakeOne(ids, n);
        TakeAll(ids);
      }
    }
  }

  lemma CountGone(prepared: seq<Id>, scene: Scene)
    requires Distinct(prepared)
    ensures var gone := Elements(Filter(Accepts(scene), prepared));
            |gone| == |Filter(Accepts(scene), prepared)| && gone <= Elements(prepared) && |Elements(prepared) - gone| == |prepared| - |gone|
  {
    var accepted := Filter(Accepts(scene), prepared);
    FilterKeepsDistinct(Accepts(scene), prepared);
    FilterMembers(Accepts(scene), prepared);
    DistinctCount(accepted);
    DistinctCount(prepared);
    assert |Elements(prepared) - Elements(accepted)| + |Elements(accepted)| == |Elements(prepared)| by {
      assert (Elements(prepared) - Elements(accepted)) + Elements(accepted) == Elements(prepared);
    }
  }

  /** Marking changes neither sources nor policies, and makes due what it marks. */
  lemma MarkedSame(a: Records, b: Records, marked: set<Id>, scene: Scene, id: Id)
    requires AreMarked(a, b, marked)
    ensures HasForkChild(a, id) <==> HasForkChild(b, id)
    ensures id !in marked ==> (MayDelete(a, scene, id) <==> MayDelete(b, scene, id))
  {
    if HasForkChild(a, id) {
      var c :| c in a && a[c].forkedFrom == Some(id);
      assert c in b && b[c].forkedFrom == Some(id);
    }
    if HasForkChild(b, id) {
      var c :| c in b && b[c].forkedFrom == Some(id);
      assert c in a && a[c].forkedFrom == Some(id);
    }
  }

  /** The next thread is as it was, not yet prepared, and the next to pass or not. */
  lemma PrepareTurn(start: Records, now: Records, scene: Scene, ids: seq<Id>, i: nat)
    requires Distinct(ids) && i < |ids| && ids[i] in start
    requires AreMarked(start, now, Elements(Filter(Ready(start, scene), ids[..i])))
    ensures ids[i] !in Filter(Ready(start, scene), ids[..i])
    ensures MayDelete(start, scene, ids[i]) <==> MayDelete(now, scene, ids[i])
    ensures Filter(Ready(start, scene), ids[..i + 1]) == Filter(Ready(start, scene), ids[..i]) + if MayDelete(start, scene, ids[i]) then [ids[i]] else []
  {
    NotYetPrepared(start, scene, ids, i);
    MarkedSame(start, now, Elements(Filter(Ready(start, scene), ids[..i])), scene, ids[i]);
    FilterSnoc(Ready(start, scene), ids[..i], ids[i]);
    TakeOne(ids, i);
  }

  lemma MarkedMore(start: Records, now: Records, next: Records, prepared: seq<Id>, more: seq<Id>)
    requires AreMarked(start, now, Elements(prepared)) && AreMarked(now, next, Elements(more))
    ensures AreMarked(start, next, Elements(prepared + more))
  {}

  /** The threads of `gone` have gone, those of `ids` that are left are marked. */
  ghost predicate AreDeleted(before: Records, after: Records, ids: seq<Id>, gone: set<Id>) {
    && gone <= before.Keys && after.Keys == before.Keys - gone
    && forall id :: id in after ==> after[id] == before[id].(pending := before[id].pending || id in ids)
  }

  /** The next thread is deleted, or marked if the provider refuses. */
  lemma DeleteTurn(start: Records, now: Records, ids: seq<Id>, i: nat, gone: set<Id>, scene: Scene)
    requires Distinct(ids) && i < |ids| && ids[i] in start
    requires gone == Elements(Filter(Accepts(scene), ids[..i])) && AreDeleted(start, now, ids[..i], gone)
    ensures ids[i] in now && ids[i] !in gone
    ensures Filter(Accepts(scene), ids[..i + 1]) == Filter(Accepts(scene), ids[..i]) + if ids[i] in scene.refused then [] else [ids[i]]
    ensures ids[i] in scene.refused ==> AreDeleted(start, now[ids[i] := now[ids[i]].(pending := true)], ids[..i + 1], gone)
    ensures ids[i] !in scene.refused ==> AreDeleted(start, now - {ids[i]}, ids[..i + 1], gone + {ids[i]})
  {
    FilterSnoc(Accepts(scene), ids[..i], ids[i]);
    TakeOne(ids, i);
    NotYetGone(scene, ids, i);
  }

  lemma SomeDeleted(start: Records, now: Records, ids: seq<Id>, i: nat, gone: set<Id>, scene: Scene)
    requires i <= |ids| && gone == Elements(Filter(Accepts(scene), ids[..i])) && AreDeleted(start, now, ids[..i], gone)
    ensures gone <= Elements(ids) && gone !! scene.refused && OnlyRemoved(start, now, gone) && Untouched(start, now, Elements(ids))
  {
    FilterMembers(Accepts(scene), ids[..i]);
  }

  // ---------- the pass ----------

  class AgentCliThreadCleanup {
    var records: Records
    /** Leases this pass holds. */
    var leases: set<Id>
    /** Store operations that succeed before one fails. */
    var luck: nat

    constructor (records: Records, luck: nat)
      ensures this.records == records && this.luck == luck && leases == {}
    {
      this.records, this.luck, leases := records, luck, {};
    }

    method Attempt() returns (ok: bool)
      modifies this`luck
    {
      ok := luck > 0;
      if ok {
        luck := luck - 1;
      }
    }

    /** Take the lease, look again, mark; the lease is kept only for a thread that is ready. */
    method PrepareForDeletion(id: Id, scene: Scene) returns (exit: Exit, prepared: bool)
      requires id in records && id !in leases
      modifies this
      ensures exit != Crashed
      ensures exit == Returned ==> prepared == MayDelete(old(records), scene, id)
      ensures exit == Raised ==> !prepared
      ensures leases == if prepared then old(leases) + {id} else old(leases)
      ensures AreMarked(old(records), records, Elements(if prepared then [id] else []))
    {
      prepared := false;
      if id in scene.busy {
        return Returned, false;
      }
      leases := leases + {id};
      var ok := Attempt();
      if !ok {
        leases := leases - {id};
        return Raised, false;
      }
      if !IsDue(records[id], scene.now) || (records[id].policy == ForkBase && HasForkChild(records, id)) {
        leases := leases - {id};
        return Returned, false;
      }
      ok := Attempt();
      if !ok {
        leases := leases - {id};
        return Raised, false;
      }
      records := records[id := records[id].(pending := true)];
      return Returned, true;
    }

    /** Prepare the threads one by one; a failure releases those prepared so far. */
    method PrepareAll(ids: seq<Id>, scene: Scene) returns (exit: Exit, prepared: seq<Id>, skipped: nat)
      requires Distinct(ids) && leases == {} && forall id :: id in ids ==> id in records
      modifies this
      ensures exit != Crashed
      ensures exit == Returned ==> prepared == Filter(Ready(old(records), scene), ids) && leases == Elements(prepared) && skipped == |ids| - |prepared|
      ensures exit == Raised ==> leases == {}
      ensures AreMarked(old(records), records, Elements(prepared))
      ensures forall id :: id in prepared ==> id in ids && MayDelete(old(records), scene, id)
    {
      prepared, skipped := [], 0;
      ghost var start := records;
      var i := 0;
      assert Filter(Ready(start, scene), ids[..0]) == [];
      while i < |ids|
        invariant 0 <= i <= |ids| && AreMarked(start, records, Elements(prepared))
        invariant prepared == Filter(Ready(start, scene), ids[..i]) && leases == Elements(prepared) && skipped == i - |prepared|
      {
        var id := ids[i];
        ghost var now := records;
        PrepareTurn(start, records, scene, ids, i);
        var ready;
        exit, ready := PrepareForDeletion(id, scene);
        MarkedMore(start, now, records, prepared, if ready then [id] else []);
        if exit == Raised {
          leases := {};
          FirstAreReady(start, scene, ids, i);
          return;
        }
        if ready {
          prepared := prepared + [id];
        } else {
          skipped := skipped + 1;
        }
        i := i + 1;
      }
      TakeAll(ids);
      FirstAreReady(start, scene, ids, i);
      exit := Returned;
    }

    /** Delete the prepared threads; the leases are released on every exit. */
    method DeleteRecords(prepared: seq<Id>, scene: Scene) returns (exit: Exit, deleted: nat, pending: nat, ghost gone: set<Id>)
      requires Distinct(prepared) && leases == Elements(prepared) && forall id :: id in prepared ==> id in records
      modifies this
      ensures exit != Crashed && leases == {}
      ensures gone <= Elements(prepared) && gone !! scene.refused && OnlyRemoved(old(records), records, gone) && Untouched(old(records), records, Elements(prepared))
      ensures exit == Returned ==> forall id :: id in records ==> records[id] == old(records)[id].(pending := old(records)[id].pending || id in prepared)
      ensures exit == Returned ==> gone == Elements(Filter(Accepts(scene), prepared)) && deleted + pending == |prepared|
      ensures exit == Returned ==> deleted == |Filter(Accepts(scene), prepared)|
    {
      deleted, pending := 0, 0;
      ghost var start := records;
      gone := {};
      var i := 0;
      while i < |prepared|
        invariant 0 <= i <= |prepared|
        invariant gone == Elements(Filter(Accepts(scene), prepared[..i])) && AreDeleted(start, records, prepared[..i], gone)
        invariant deleted == |Filter(Accepts(scene), prepared[..i])| && deleted + pending == i
      {
        var id := prepared[i];
        var ok := Attempt();
        if !ok {
          SomeDeleted(start, records, prepared, i, gone, scene);
          leases := {};
          exit := Raised;
          return;
        }
        DeleteTurn(start, records, prepared, i, gone, scene);
        if id !in scene.refused {
          records := records - {id};
          gone := gone + {id};
          deleted := deleted + 1;
        } else {
          records := records[id := records[id].(pending := true)];
          pending := pending + 1;
        }
        i := i + 1;
      }
      SomeDeleted(start, records, prepared, i, gone, scene);
      TakeAll(prepared);
      leases := {};
      exit := Returned;
    }

    /** Prepare, then delete. */
    method RunStage(ids: seq<Id>, scene: Scene) returns (exit: Exit, counts: Counts, ghost gone: set<Id>)
      requires leases == {} && Distinct(ids) && forall id :: id in ids ==> id in records
      modifies this
      ensures exit != Crashed && leases == {}
      ensures OnlyRemoved(old(records), records, gone) && Untouched(old(records), records, Elements(ids))
      ensures forall id :: id in gone ==> id in ids && MayDelete(old(records), scene, id) && id !in scene.refused
      ensures exit == Returned ==> IsStage(old(records), records, Elements(ids), scene)
      ensures exit == Returned ==>
        && counts.deleted == |old(records).Keys - records.Keys| && counts.pending == |HeldBy(old(records), records, Elements(ids), scene)|
        && counts.deleted + counts.pending + counts.skipped == |ids|
    {
      ghost var start := records;
      counts, gone := Counts(0, 0, 0), {};
      var prepared, skipped;
      exit, prepared, skipped := PrepareAll(ids, scene);
      ghost var marked := records;
      if exit == Raised {
        StageIsSafe(start, marked, records, ids, prepared, {}, scene);
        return;
      }
      FilterKeepsDistinct(Ready(start, scene), ids);
      var deleted, pending;
      exit, deleted, pending, gone := DeleteRecords(prepared, scene);
      StageIsSafe(start, marked, records, ids, prepared, gone, scene);
      counts := Counts(deleted, pending, skipped);
      if exit == Returned {
        StageIsExact(start, marked, records, ids, prepared, gone, scene);
        CountGone(prepared, scene);
      }
    }

    /** One pass: first what is no fork base, then the fork bases. */
    method Run(order: seq<Id>, scene: Scene) returns (exit: Exit, counts: Counts)
      requires leases == {} && Distinct(order) && forall id :: id in order <==> id in records
      modifies this
      ensures exit != Crashed && leases == {}
      ensures KeepsParents(old(records), records) && exists gone :: OnlyRemoved(old(records), records, gone)
      ensures forall id :: id in old(records) && id !in records ==> IsIdle(old(records)[id], scene.now) && id !in scene.busy && id !in scene.refused
      ensures exit == Returned ==> IsPass(old(records), records, scene)
      ensures exit == Returned ==>
        && counts.deleted == |old(records).Keys - records.Keys| && counts.pending == |Held(old(records), records, scene)|
        && counts.deleted + counts.pending + counts.skipped == |order|
    {
      ghost var start := records;
      var others, bases := Filter(IsOther(records), order), Filter(IsBase(records), order);
      Partition(start, order);
      ghost var first;
      exit, counts, first := RunStage(others, scene);
      ghost var middle := records;
      if exit == Raised {
        assert OnlyRemoved(middle, middle, {});
        BothStages(start, middle, middle, others, bases, first, {}, scene);
        return;
      }
      var more;
      ghost var second;
      exit, more, second := RunStage(bases, scene);
      BothStages(start, middle, records, others, bases, first, second, scene);
      if exit == Returned {
        TwoStages(start, middle, records, Elements(others), Elements(bases), scene);
        GoneAdds(start, middle, records);
        counts := Counts(counts.deleted + more.deleted, counts.pending + more.pending, counts.skipped + more.skipped);
      }
    }
  }

  /** What both stages keep, however far they come. */
  lemma BothStages(before: Records, middle: Records, after: Records, others: seq<Id>, bases: seq<Id>, first: set<Id>, second: set<Id>, scene: Scene)
    requires OnlyRemoved(before, middle, first) && OnlyRemoved(middle, after, second) && Untouched(before, middle, Elements(others))
    requires forall id :: id in first ==> id in others && MayDelete(before, scene, id) && id !in scene.refused
    requires forall id :: id in second ==> id in bases && MayDelete(middle, scene, id) && id !in scene.refused
    requires forall id :: id in others ==> id in before && before[id].policy != ForkBase
    requires forall id :: id in bases ==> id in before && before[id].policy == ForkBase
    ensures KeepsParents(before, after) && OnlyRemoved(before, after, first + second)
    ensures forall id :: id in before && id !in after ==> IsIdle(before[id], scene.now) && id !in scene.busy && id !in scene.refused
  {
    RemovedThenRemoved(before, middle, after, first, second);
    ReadyBasesKeepParents(before, middle, after, first, second, scene);
    forall id | id in before && id !in after ensures IsIdle(before[id], scene.now) && id !in scene.busy && id !in scene.refused {
      DueMeans(before[id], scene.now);
      if id !in first {
        assert id in middle && middle[id] == before[id];
      }
    }
  }

  lemma GoneAdds(before: Records, middle: Records, after: Records)
    requires after.Keys <= middle.Keys <= before.Keys
    ensures |before.Keys - after.Keys| == |before.Keys - middle.Keys| + |middle.Keys - after.Keys|
  {
    assert before.Keys - after.Keys == (before.Keys - middle.Keys) + (middle.Keys - after.Keys);
  }

  lemma Partition(records: Records, order: seq<Id>)
    requires Distinct(order) && forall id :: id in order <==> id in records
    ensures var others, bases := Filter(IsOther(records), order), Filter(IsBase(records), order);
            && |bases| + |others| == |order| && Distinct(others) && Distinct(bases)
            && (forall id :: id in others <==> id in records && records[id].policy != ForkBase)
            && (forall id :: id in bases <==> id in records && records[id].policy == ForkBase)
  {
    BasesAndOthers(records, order);
    FilterKeepsDistinct(IsOther(records), order);
    FilterKeepsDistinct(IsBase(records), order);
    FilterMembers(IsOther(records), order);
    FilterMembers(IsBase(records), order);
  }

  lemma NotYetPrepared(records: Records, scene: Scene, ids: seq<Id>, i: nat)
    requires Distinct(ids) && i < |ids|
    ensures ids[i] !in Filter(Ready(records, scene), ids[..i])
  {
    FilterMembers(Ready(records, scene), ids[..i]);
    NotBefore(ids, i);
  }

  lemma NotYetGone(scene: Scene, ids: seq<Id>, i: nat)
    requires Distinct(ids) && i < |ids|
    ensures ids[i] !in Filter(Accepts(scene), ids[..i])
  {
    FilterMembers(Accepts(scene), ids[..i]);
    NotBefore(ids, i);
  }
}
