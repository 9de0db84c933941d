/** The scheduler's deadlines are sound, and its batches are fair and bounded. */
module SchedulerProofs {
  import opened Common
  import opened UpdateQueue
  import opened Scheduler

  // ---------- membership ----------

  lemma {:induction false} LaneDeadlinesMembers(lanes: seq<Lane>, now: int)
    ensures forall x :: x in LaneDeadlines(lanes, now) <==> now < x && exists lane :: lane in lanes && LaneTime(lane) == Some(x)
    decreases |lanes|
  {
    if lanes != [] {
      var init, last := lanes[..|lanes| - 1], lanes[|lanes| - 1];
      LaneDeadlinesMembers(init, now);
      assert lanes == init + [last];
    }
  }

  lemma {:induction false} ReadyRecoveryMembers(lanes: seq<Lane>, now: int)
    ensures forall p :: p in ReadyRecovery(lanes, now) <==> p.readyAt <= now && Recovery(p) in lanes
    decreases |lanes|
  {
    if lanes != [] {
      var init, last := lanes[..|lanes| - 1], lanes[|lanes| - 1];
      ReadyRecoveryMembers(init, now);
      assert lanes == init + [last];
    }
  }

  lemma {:induction false} WaitingMembers(lanes: seq<Lane>)
    ensures forall p :: p in WaitingItems(lanes) <==> Waiting(p) in lanes
    decreases |lanes|
  {
    if lanes != [] {
      var init, last := lanes[..|lanes| - 1], lanes[|lanes| - 1];
      WaitingMembers(init);
      assert lanes == init + [last];
    }
  }

  lemma {:induction false} NoReadyGroup(lanes: seq<Lane>, now: int, n: nat)
    requires n <= |lanes|
    ensures ReadyGroup(lanes, now, n).None? <==> forall k :: 0 <= k < n && lanes[k].OpRecovery? ==> !GroupReady(lanes, lanes[k].op, now)
    decreases n
  {
    if n > 0 {
      NoReadyGroup(lanes, now, n - 1);
    }
  }

  lemma {:induction false} SmallestIsLeast(xs: seq<int>)
    requires xs != []
    ensures Smallest(xs) in xs && forall x :: x in xs ==> Smallest(xs) <= x
    decreases |xs|
  {
    if |xs| > 1 {
      SmallestIsLeast(xs[1..]);
      assert xs == [xs[0]] + xs[1..];
    }
  }

  lemma {:induction false} LargestIsMember(xs: seq<int>)
    requires xs != []
    ensures Largest(xs) in xs
    decreases |xs|
  {
    if |xs| > 1 {
      LargestIsMember(xs[1..]);
    }
  }

  // ---------- a state that is not ready stays so until its deadline ----------

  /** If every deadline of the scan at `now` lies after `later`, nothing becomes ready by `later`. */
  lemma {:induction false} ReservationsStillWait(s: Store, executor: Executor, now: int, later: int, ops: seq<OpId>)
    requires now <= later
    requires var r := ReservedScan(s, executor, now, ops);
             !r.broken && r.ready == [] && forall x :: x in r.deadlines ==> later < x
    ensures var r, r' := ReservedScan(s, executor, now, ops), ReservedScan(s, executor, later, ops);
            !r'.broken && r'.ready == [] && r'.sessions == r.sessions
    decreases |ops|
  {
    if ops != [] {
      var init, op := ops[..|ops| - 1], ops[|ops| - 1];
      var before := ReservedScan(s, executor, now, init);
      assert forall x :: x in before.deadlines ==> x in ReservedScan(s, executor, now, ops).deadlines;
      ReservationsStillWait(s, executor, now, later, init);
      if op in s.reservations {
        var r := s.reservations[op];
        var standing := StandingOf(s, executor, op, r, r.participants);
        if standing.Held? && standing.mine && !standing.blocked {
          var times := After(now, standing.retries);
          LargestIsMember(times);
          FilterMembers((x: int) => now < x, standing.retries);
          FilterMembers((x: int) => later < x, standing.retries);
          assert Largest(times) in ReservedScan(s, executor, now, ops).deadlines;
          assert Largest(times) in After(later, standing.retries);
        }
      }
    }
  }

  lemma GroupsStillWait(lanes: seq<Lane>, now: int, later: int)
    requires now <= later && forall x :: x in LaneDeadlines(lanes, now) ==> later < x
    requires ReadyGroup(lanes, now, |lanes|).None?
    ensures ReadyGroup(lanes, later, |lanes|).None?
  {
    NoReadyGroup(lanes, now, |lanes|);
    NoReadyGroup(lanes, later, |lanes|);
    LaneDeadlinesMembers(lanes, now);
    forall k | 0 <= k < |lanes| && lanes[k].OpRecovery? ensures !GroupReady(lanes, lanes[k].op, later) {
      var op := lanes[k].op;
      forall lane | lane in lanes && lane.OpRecovery? && lane.op == op ensures lane.item.readyAt <= later ==> lane.item.readyAt <= now {
        assert LaneTime(lane) == Some(lane.item.readyAt);
      }
      assert !GroupReady(lanes, op, now);
      assert lanes[k] in lanes;
    }
  }

  lemma RecoveryStillWaits(lanes: seq<Lane>, now: int, later: int)
    requires now <= later && forall x :: x in LaneDeadlines(lanes, now) ==> later < x
    requires ReadyRecovery(lanes, now) == []
    ensures ReadyRecovery(lanes, later) == []
  {
    ReadyRecoveryMembers(lanes, now);
    ReadyRecoveryMembers(lanes, later);
    LaneDeadlinesMembers(lanes, now);
    var r := ReadyRecovery(lanes, later);
    forall p ensures p !in r {
      assert LaneTime(Recovery(p)) == Some(p.readyAt);
      assert p !in ReadyRecovery(lanes, now);
    }
    NoMembers(r);
  }

  lemma SameEligible(lanes: seq<Lane>, now: int, later: int, trigger: int)
    requires now <= later && forall x :: x in LaneDeadlines(lanes, now) ==> later < x
    ensures Eligible(WaitingItems(lanes), later, trigger) == Eligible(WaitingItems(lanes), now, trigger)
  {
    WaitingMembers(lanes);
    LaneDeadlinesMembers(lanes, now);
    forall p | p in WaitingItems(lanes) ensures p.readyAt <= later <==> p.readyAt <= now {
      assert LaneTime(Waiting(p)) == Some(p.readyAt);
    }
    SameFilter((p: Participant) => p.readyAt <= later, (p: Participant) => p.readyAt <= now, WaitingItems(lanes));
  }

  lemma SortedEmpty(ps: seq<Participant>)
    ensures SortByReady(ps) == [] <==> ps == []
  {}

  lemma SessionsStillWait(lanes: seq<Lane>, deadlines: seq<int>, deadlines': seq<int>, now: int, later: int, trigger: int, target: int, maxWait: int)
    requires now <= later
    requires var c := ChooseSession(lanes, deadlines, now, trigger, target, maxWait);
             c.Wait? && (c.deadline.Some? ==> later < c.deadline.value)
    ensures ChooseSession(lanes, deadlines', later, trigger, target, maxWait).Wait?
  {
    var all := deadlines + LaneDeadlines(lanes, now);
    var eligible := Eligible(WaitingItems(lanes), now, trigger);
    SortedEmpty(ReadyRecovery(lanes, now));
    if eligible != [] {
      SmallestIsLeast([eligible[0].readyAt + maxWait] + all);
    } else if all != [] {
      SmallestIsLeast(all);
    }
    forall x | x in LaneDeadlines(lanes, now) ensures later < x {
      assert x in all && x in [if eligible != [] then eligible[0].readyAt + maxWait else x] + all;
    }
    GroupsStillWait(lanes, now, later);
    RecoveryStillWaits(lanes, now, later);
    SameEligible(lanes, now, later, trigger);
    SortedEmpty(ReadyRecovery(lanes, later));
  }

  lemma WaitListsDeadlines(lanes: seq<Lane>, deadlines: seq<int>, now: int, trigger: int, target: int, maxWait: int)
    requires ChooseSession(lanes, deadlines, now, trigger, target, maxWait).Wait?
    ensures var d := ChooseSession(lanes, deadlines, now, trigger, target, maxWait).deadline;
            forall x :: x in deadlines ==> d.Some? && d.value <= x
  {
    var all := deadlines + LaneDeadlines(lanes, now);
    var eligible := Eligible(WaitingItems(lanes), now, trigger);
    if eligible != [] {
      SmallestIsLeast([eligible[0].readyAt + maxWait] + all);
    } else if all != [] {
      SmallestIsLeast(all);
    }
    forall x | x in deadlines
      ensures var d := ChooseSession(lanes, deadlines, now, trigger, target, maxWait).deadline; d.Some? && d.value <= x
    {
      assert x in all && x in [if eligible != [] then eligible[0].readyAt + maxWait else x] + all;
    }
  }

  /**
   If the scheduler finds nothing and names a deadline, it finds nothing at any
   earlier time on the same state; if it names none, it never will.
   */
  lemma DeadlinesAreSound(
      s: Store, executor: Executor, ids: seq<SessionId>, ops: seq<OpId>, now: int, later: int, trigger: int, target: int, maxWait: int)
    requires 1 <= trigger <= target && now <= later
    requires var c := NextBatch(s, executor, ids, ops, now, trigger, target, maxWait);
             c.Wait? && (c.deadline.Some? ==> later < c.deadline.value)
    ensures NextBatch(s, executor, ids, ops, later, trigger, target, maxWait).Wait?
  {
    var r := ReservedScan(s, executor, now, ops);
    var lanes := Lanes(s, executor, ids, r.sessions);
    WaitListsDeadlines(lanes, r.deadlines, now, trigger, target, maxWait);
    ReservationsStillWait(s, executor, now, later, ops);
    var r' := ReservedScan(s, executor, later, ops);
    SessionsStillWait(lanes, r.deadlines, r'.deadlines, now, later, trigger, target, maxWait);
  }

  lemma {:induction false} ScanDeadlinesAhead(s: Store, executor: Executor, now: int, ops: seq<OpId>)
    ensures forall x :: x in ReservedScan(s, executor, now, ops).deadlines ==> now < x
    decreases |ops|
  {
    if ops != [] {
      ScanDeadlinesAhead(s, executor, now, ops[..|ops| - 1]);
      var op := ops[|ops| - 1];
      if op in s.reservations {
        var r := s.reservations[op];
        var standing := StandingOf(s, executor, op, r, r.participants);
        if standing.Held? && After(now, standing.retries) != [] {
          LargestIsMember(After(now, standing.retries));
          FilterMembers((x: int) => now < x, standing.retries);
        }
      }
    }
  }

  /** A named deadline lies in the future, so waiting for it makes progress. */
  lemma DeadlineIsAhead(s: Store, executor: Executor, ids: seq<SessionId>, ops: seq<OpId>, now: int, trigger: int, target: int, maxWait: int)
    requires var c := NextBatch(s, executor, ids, ops, now, trigger, target, maxWait); c.Wait? && c.deadline.Some?
    ensures now < NextBatch(s, executor, ids, ops, now, trigger, target, maxWait).deadline.value
  {
    var r := ReservedScan(s, executor, now, ops);
    var lanes := Lanes(s, executor, ids, r.sessions);
    var all := r.deadlines + LaneDeadlines(lanes, now);
    ScanDeadlinesAhead(s, executor, now, ops);
    LaneDeadlinesMembers(lanes, now);
    var eligible := Eligible(WaitingItems(lanes), now, trigger);
    if eligible != [] {
      SmallestIsLeast([eligible[0].readyAt + maxWait] + all);
    } else {
      SmallestIsLeast(all);
    }
  }

  // ---------- order ----------

  predicate Sorted(ps: seq<Participant>) {
    forall i, j :: 0 <= i < j < |ps| ==> Before(ps[i], ps[j])
  }

  lemma {:induction false} InsertMembers(p: Participant, ps: seq<Participant>)
    ensures multiset(InsertByReady(p, ps)) == multiset(ps) + multiset{p}
    decreases |ps|
  {
    if ps != [] && !Before(p, ps[0]) {
      InsertMembers(p, ps[1..]);
      assert ps == [ps[0]] + ps[1..];
    }
  }

  lemma {:induction false} InsertSorted(p: Participant, ps: seq<Participant>)
    requires Sorted(ps)
    ensures Sorted(InsertByReady(p, ps))
    decreases |ps|
  {
    if ps != [] {
      if Before(p, ps[0]) {
        FirstIsBefore(p, ps);
      } else {
        InsertSorted(p, ps[1..]);
        InsertMembers(p, ps[1..]);
        var rest := InsertByReady(p, ps[1..]);
        forall q | q in rest ensures Before(ps[0], q) {
          assert q in multiset(rest);
          assert q == p || q in ps[1..];
        }
      }
    }
  }

  /** What comes before the first of a sorted list comes before all of it. */
  lemma FirstIsBefore(p: Participant, ps: seq<Participant>)
    requires Sorted(ps) && ps != [] && Before(p, ps[0])
    ensures Sorted([p] + ps)
  {
    forall i | 0 <= i < |ps| ensures Before(p, ps[i]) {
      assert i > 0 ==> Before(ps[0], ps[i]);
    }
  }

  lemma {:induction false} SortSorts(ps: seq<Participant>)
    ensures Sorted(SortByReady(ps)) && multiset(SortByReady(ps)) == multiset(ps)
    decreases |ps|
  {
    if ps != [] {
      SortSorts(ps[1..]);
      InsertSorted(ps[0], SortByReady(ps[1..]));
      InsertMembers(ps[0], SortByReady(ps[1..]));
      assert ps == [ps[0]] + ps[1..];
    }
  }

  lemma SortKeepsMembers(ps: seq<Participant>)
    ensures forall p :: p in SortByReady(ps) <==> p in ps
  {
    SortSorts(ps);
    forall p ensures p in SortByReady(ps) <==> p in ps {
      assert p in multiset(SortByReady(ps)) <==> p in multiset(ps);
    }
  }

  // ---------- fairness and size ----------

  /** The state offers no reserved batch and nothing to recover. */
  predicate OnlyWaiting(s: Store, executor: Executor, ids: seq<SessionId>, ops: seq<OpId>, now: int) {
    var r := ReservedScan(s, executor, now, ops);
    var lanes := Lanes(s, executor, ids, r.sessions);
    !r.broken && r.ready == [] && Corrupt !in lanes && ReadyGroup(lanes, now, |lanes|).None? && ReadyRecovery(lanes, now) == []
  }

  function WaitingQueues(s: Store, executor: Executor, ids: seq<SessionId>, ops: seq<OpId>, now: int): seq<Participant> {
    WaitingItems(Lanes(s, executor, ids, ReservedScan(s, executor, now, ops).sessions))
  }

  lemma {:induction false} ReachingStops(ps: seq<Participant>, target: int, n: nat)
    requires n <= |ps| && (n > 0 ==> Total(ps[..n]) < target)
    ensures var r := Reaching(ps, target, n);
            if r.Some? then (r.value > 1 ==> Total(ps[..r.value - 1]) < target) && Total(ps[..r.value]) >= target
            else n < |ps| ==> Total(ps) < target
    decreases |ps| - n
  {
    if n < |ps| {
      if Total(ps[..n + 1]) < target {
        ReachingStops(ps, target, n + 1);
        assert n + 1 == |ps| ==> ps[..n + 1] == ps;
      }
    }
  }

  lemma TotalDrop(ps: seq<Participant>)
    requires ps != []
    ensures Total(ps[..|ps| - 1]) <= Total(ps)
  {}

  /**
   A batch from the waiting lane is a nonempty prefix of the eligible session
   queues in (ready time, session) order, holds whole queues, starts with the
   oldest waiting session, and without its last queue stays below the target.
   */
  lemma WaitingBatchIsFairAndBounded(
      s: Store, executor: Executor, ids: seq<SessionId>, ops: seq<OpId>, now: int, trigger: int, target: int, maxWait: int)
    requires 1 <= trigger <= target && OnlyWaiting(s, executor, ids, ops, now)
    requires NextBatch(s, executor, ids, ops, now, trigger, target, maxWait).Batch?
    ensures var b := NextBatch(s, executor, ids, ops, now, trigger, target, maxWait).items;
            var waiting := WaitingQueues(s, executor, ids, ops, now);
            && b != [] && b <= Eligible(waiting, now, trigger) && Sorted(b)
            && (forall q :: q in waiting ==> Before(b[0], q))
            && (|b| > 1 ==> Total(b[..|b| - 1]) < target)
            && (forall p :: p in b ==> p in waiting)
  {
    var waiting := WaitingQueues(s, executor, ids, ops, now);
    var eligible := Eligible(waiting, now, trigger);
    var b := NextBatch(s, executor, ids, ops, now, trigger, target, maxWait).items;
    var chosen := if Total(waiting) >= trigger then waiting else Filter((p: Participant) => p.readyAt <= now, waiting);
    SortSorts(chosen);
    SortKeepsMembers(chosen);
    FilterMembers((p: Participant) => p.readyAt <= now, waiting);
    SortedEmpty(ReadyRecovery(Lanes(s, executor, ids, ReservedScan(s, executor, now, ops).sessions), now));
    ReachingStops(eligible, target, 0);
    if Reaching(eligible, target, 0).None? {
      assert b == eligible;
      TotalDrop(eligible);
    } else {
      var n := Reaching(eligible, target, 0).value;
      assert b == eligible[..n] && b[..|b| - 1] == eligible[..n - 1];
    }
    forall q | q in waiting ensures Before(b[0], q) {
      assert eligible[0] == b[0] && eligible[0] in chosen;
      if q in chosen {
        assert q in eligible;
        var k :| 0 <= k < |eligible| && eligible[k] == q;
      }
    }
  }
}
