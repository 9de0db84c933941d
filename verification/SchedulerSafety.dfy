/** On every reachable state the scheduler reads a consistent picture and only ever resumes live reservations. */
module SchedulerSafety {
  import opened Common
  import opened UpdateQueue
  import opened UpdateQueueInvariant
  import opened UpdateQueueBatches
  import opened UpdateQueueRuns
  import opened Scheduler
  import opened SchedulerProofs

  /** The directory listing of reservations: each exactly once. */
  ghost predicate ListsReservations(s: Store, ops: seq<OpId>) {
    && (forall op :: op in s.reservations ==> op in ops)
    && (forall i, j :: 0 <= i < j < |ops| ==> ops[i] != ops[j])
  }

  lemma {:induction false} StandingReadable(s: Store, executor: Executor, op: OpId, r: Reservation, items: seq<Participant>)
    requires Inv(s) && forall p :: p in items ==> Reserves(s, op, p)
    ensures var standing := StandingOf(s, executor, op, r, items);
            && !standing.Unreadable?
            && (standing.Gone? ==> forall p :: p in items ==> Acknowledged(ReadRaw(s, p.session, executor), op))
    decreases |items|
  {
    if items != [] {
      var p := items[0];
      ValidationNeverRaises(s, executor, op, p);
      assert SessionOk(s.sessions[p.session]);
      StandingReadable(s, executor, op, r, items[1..]);
      assert items == [p] + items[1..];
    }
  }

  /** What the scan has collected after some of the reservations. */
  ghost predicate Collected(s: Store, ops: seq<OpId>, r: Reserved) {
    && !r.broken
    && (forall sid :: sid in r.sessions ==> exists op, p :: op in ops && Reserves(s, op, p) && p.session == sid)
    && (forall op, p :: op in ops && Reserves(s, op, p) && !Acknowledged(ReadRaw(s, p.session, Worker), op) ==> p.session in r.sessions)
    && (forall x :: x in r.ready ==> exists op :: op in ops && op in s.reservations && s.reservations[op] == x)
  }

  lemma {:induction false} ScanCollects(s: Store, executor: Executor, now: int, ops: seq<OpId>)
    requires Inv(s) && forall i, j :: 0 <= i < j < |ops| ==> ops[i] != ops[j]
    ensures Collected(s, ops, ReservedScan(s, executor, now, ops))
    decreases |ops|
  {
    if ops != [] {
      var init, op := ops[..|ops| - 1], ops[|ops| - 1];
      ScanCollects(s, executor, now, init);
      var before := ReservedScan(s, executor, now, init);
      assert ops == init + [op];
      if op in s.reservations {
        var r := s.reservations[op];
        StandingReadable(s, executor, op, r, r.participants);
        forall sid | sid in before.sessions ensures sid !in SessionsOf(r.participants) {
          var op', p' :| op' in init && Reserves(s, op', p') && p'.session == sid;
          assert op' != op;
          assert forall p :: p in r.participants ==> Reserves(s, op, p);
        }
        assert before.sessions * SessionsOf(r.participants) == {};
        forall p | Reserves(s, op, p) ensures p.session in SessionsOf(r.participants) {}
      }
    }
  }

  /** A session whose batch runs belongs to the reservation that the scan has seen. */
  lemma RunningSessionsAreReserved(s: Store, executor: Executor, now: int, ops: seq<OpId>, sid: SessionId)
    requires Inv(s) && ListsReservations(s, ops) && sid in s.sessions && s.sessions[sid].current != []
    ensures sid in ReservedScan(s, executor, now, ops).sessions
  {
    ScanCollects(s, executor, now, ops);
    var op, p :| Runs(s, sid, op, p);
    assert op in ops && Reserves(s, op, p);
    assert !Acknowledged(s.sessions[sid], op);
  }

  predicate Plain(lane: Lane) {
    (lane.NoLane? || lane.Recovery? || lane.Waiting?) && (lane.Recovery? || lane.Waiting? ==> lane.item.operation == None)
  }

  lemma {:induction false} LanesArePlain(s: Store, executor: Executor, now: int, ops: seq<OpId>, ids: seq<SessionId>)
    requires Inv(s) && ListsReservations(s, ops)
    ensures forall lane :: lane in Lanes(s, executor, ids, ReservedScan(s, executor, now, ops).sessions) ==> Plain(lane)
    decreases |ids|
  {
    if ids != [] {
      var sid := ids[|ids| - 1];
      LanesArePlain(s, executor, now, ops, ids[..|ids| - 1]);
      if sid !in ReservedScan(s, executor, now, ops).sessions && sid in s.sessions {
        if s.sessions[sid].current != [] {
          RunningSessionsAreReserved(s, executor, now, ops, sid);
        }
        assert SessionOk(s.sessions[sid]);
      }
    }
  }

  lemma RecoveryIsPlain(lanes: seq<Lane>, now: int)
    requires forall lane :: lane in lanes ==> Plain(lane)
    ensures forall p :: p in ReadyRecovery(lanes, now) || p in WaitingItems(lanes) ==> p.operation == None
  {
    ReadyRecoveryMembers(lanes, now);
    WaitingMembers(lanes);
    forall p | Recovery(p) in lanes || Waiting(p) in lanes ensures p.operation == None {
      assert Recovery(p) in lanes ==> Plain(Recovery(p));
      assert Waiting(p) in lanes ==> Plain(Waiting(p));
    }
  }

  lemma WaitingChoiceIsPlain(waiting: seq<Participant>, deadlines: seq<int>, now: int, trigger: int, target: int, maxWait: int)
    requires forall p :: p in waiting ==> p.operation == None
    ensures var c := ChooseWaiting(waiting, deadlines, now, trigger, target, maxWait);
            !c.Broken? && (c.Batch? ==> forall p :: p in c.items ==> p.operation == None)
  {
    FilterMembers((p: Participant) => p.readyAt <= now, waiting);
    SortKeepsMembers(waiting);
    SortKeepsMembers(Filter((p: Participant) => p.readyAt <= now, waiting));
  }

  lemma SessionChoiceIsPlain(lanes: seq<Lane>, deadlines: seq<int>, now: int, trigger: int, target: int, maxWait: int)
    requires forall lane :: lane in lanes ==> Plain(lane)
    ensures var c := ChooseSession(lanes, deadlines, now, trigger, target, maxWait);
            !c.Broken? && (c.Batch? ==> forall p :: p in c.items ==> p.operation == None)
  {
    RecoveryIsPlain(lanes, now);
    NoReadyGroup(lanes, now, |lanes|);
    assert forall k :: 0 <= k < |lanes| ==> Plain(lanes[k]);
    assert !Plain(Corrupt);
    var recovery := SortByReady(ReadyRecovery(lanes, now));
    SortKeepsMembers(ReadyRecovery(lanes, now));
    if recovery != [] {
      FilterMembers((p: Participant) => p.operation == recovery[0].operation, recovery);
    } else {
      WaitingChoiceIsPlain(WaitingItems(lanes), deadlines + LaneDeadlines(lanes, now), now, trigger, target, maxWait);
    }
  }

  /**
   The scheduler never meets an inconsistent record, and every batch it returns
   is either a live reservation to resume, whole, or a batch of sessions that
   no operation has claimed yet.
   */
  lemma SchedulerResumesOnlyReservations(
      s: Store, executor: Executor, ids: seq<SessionId>, ops: seq<OpId>, now: int, trigger: int, target: int, maxWait: int)
    requires Reachable(s) && ListsReservations(s, ops)
    ensures var c := NextBatch(s, executor, ids, ops, now, trigger, target, maxWait);
            && !c.Broken?
            && (c.Batch? ==> (exists op :: op in s.reservations && s.reservations[op].participants == c.items)
                             || forall p :: p in c.items ==> p.operation == None)
  {
    ReachableInv(s);
    ScanCollects(s, executor, now, ops);
    var r := ReservedScan(s, executor, now, ops);
    LanesArePlain(s, executor, now, ops, ids);
    if r.ready != [] {
      EarliestIsMember(r.ready);
    } else {
      SessionChoiceIsPlain(Lanes(s, executor, ids, r.sessions), r.deadlines, now, trigger, target, maxWait);
    }
  }

  lemma {:induction false} EarliestIsMember(rs: seq<Reservation>)
    requires rs != []
    ensures Earliest(rs) in rs
    decreases |rs|
  {
    if |rs| > 1 {
      EarliestIsMember(rs[1..]);
    }
  }
}
