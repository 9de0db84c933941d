/** Which sessions the scheduler serves, told from the fields of the sessions and reservations. */
module SchedulerService {
  import opened Common
  import opened UpdateQueue
  import opened UpdateQueueInvariant
  import opened UpdateQueueRuns
  import opened UpdateQueueEffects
  import opened Scheduler
  import opened SchedulerProofs
  import opened SchedulerSafety

  // ---------- who is held by a reservation ----------

  predicate HasDone(s: Store, op: OpId, p: Participant) {
    p.session in s.sessions && s.sessions[p.session].lastOp == Some(op) && s.sessions[p.session].current == []
  }

  /** A live reservation with work left names the session. */
  ghost predicate IsHeld(s: Store, sid: SessionId) {
    exists op, p, q :: Reserves(s, op, p) && p.session == sid && Reserves(s, op, q) && !HasDone(s, op, q)
  }

  lemma {:induction false} StandingGone(s: Store, executor: Executor, op: OpId, r: Reservation, items: seq<Participant>)
    requires Inv(s) && forall p :: p in items ==> Reserves(s, op, p)
    ensures StandingOf(s, executor, op, r, items).Gone? <==> forall p :: p in items ==> HasDone(s, op, p)
    decreases |items|
  {
    StandingReadable(s, executor, op, r, items);
    if items != [] {
      var p := items[0];
      StandingReadable(s, executor, op, r, items[1..]);
      StandingGone(s, executor, op, r, items[1..]);
      assert p in items && Reserves(s, op, p) && p.session in s.sessions;
      assert Acknowledged(ReadRaw(s, p.session, executor), op) <==> HasDone(s, op, p);
      assert forall q :: q in items <==> q == p || q in items[1..];
    }
  }

  ghost predicate HeldBySome(s: Store, ops: seq<OpId>, sid: SessionId) {
    exists op, p, q :: op in ops && Reserves(s, op, p) && p.session == sid && Reserves(s, op, q) && !HasDone(s, op, q)
  }

  lemma {:induction false} ScanHolds(s: Store, executor: Executor, now: int, ops: seq<OpId>, sid: SessionId)
    requires Inv(s) && forall i, j :: 0 <= i < j < |ops| ==> ops[i] != ops[j]
    ensures sid in ReservedScan(s, executor, now, ops).sessions <==> HeldBySome(s, ops, sid)
    decreases |ops|
  {
    if ops != [] {
      var init, op := ops[..|ops| - 1], ops[|ops| - 1];
      ScanHolds(s, executor, now, init, sid);
      assert ops == init + [op];
      if op in s.reservations {
        ScanAddsOne(s, executor, now, ops);
        HeldByOne(s, init, op, sid);
      } else {
        assert forall p :: !Reserves(s, op, p);
      }
    }
  }

  lemma ScanAddsOne(s: Store, executor: Executor, now: int, ops: seq<OpId>)
    requires Inv(s) && ops != [] && (forall i, j :: 0 <= i < j < |ops| ==> ops[i] != ops[j]) && ops[|ops| - 1] in s.reservations
    ensures var op := ops[|ops| - 1];
            var items := s.reservations[op].participants;
            ReservedScan(s, executor, now, ops).sessions
            == ReservedScan(s, executor, now, ops[..|ops| - 1]).sessions + if forall q :: q in items ==> HasDone(s, op, q) then {} else SessionsOf(items)
  {
    var op := ops[|ops| - 1];
    var r := s.reservations[op];
    ScanCollects(s, executor, now, ops);
    ScanCollects(s, executor, now, ops[..|ops| - 1]);
    StandingReadable(s, executor, op, r, r.participants);
    StandingGone(s, executor, op, r, r.participants);
  }

  lemma HeldByOne(s: Store, init: seq<OpId>, op: OpId, sid: SessionId)
    requires op in s.reservations
    ensures HeldBySome(s, init + [op], sid) <==>
      HeldBySome(s, init, sid) || (sid in SessionsOf(s.reservations[op].participants) && exists q :: q in s.reservations[op].participants && !HasDone(s, op, q))
  {
    var items := s.reservations[op].participants;
    if HeldBySome(s, init, sid) {
      var o, p, q :| o in init && Reserves(s, o, p) && p.session == sid && Reserves(s, o, q) && !HasDone(s, o, q);
      assert o in init + [op];
    }
    if sid in SessionsOf(items) && exists q :: q in items && !HasDone(s, op, q) {
      var p :| p in items && p.session == sid;
      var q :| q in items && !HasDone(s, op, q);
      assert op in init + [op] && Reserves(s, op, p) && Reserves(s, op, q);
    }
    if HeldBySome(s, init + [op], sid) {
      var o, p, q :| o in init + [op] && Reserves(s, o, p) && p.session == sid && Reserves(s, o, q) && !HasDone(s, o, q);
      if o !in init {
        assert o == op && p in items && q in items;
      }
    }
  }

  lemma HeldIsHeld(s: Store, ops: seq<OpId>, sid: SessionId)
    requires ListsReservations(s, ops)
    ensures HeldBySome(s, ops, sid) <==> IsHeld(s, sid)
  {
    if IsHeld(s, sid) {
      var op, p, q :| Reserves(s, op, p) && p.session == sid && Reserves(s, op, q) && !HasDone(s, op, q);
      assert op in ops;
    }
  }

  // ---------- the lanes, told from session fields ----------

  /** The session is listed, belongs to the executor, and none of `reserved` holds it. */
  predicate IsOpen(s: Store, executor: Executor, ids: seq<SessionId>, reserved: set<SessionId>, sid: SessionId) {
    sid in ids && sid !in reserved && sid in s.sessions && s.sessions[sid].executor == executor
  }

  /** It runs nothing, and holds candidates of which none is published. */
  predicate HoldsQueue(s: Store, executor: Executor, ids: seq<SessionId>, reserved: set<SessionId>, sid: SessionId) {
    IsOpen(s, executor, ids, reserved, sid) &&
    var st := s.sessions[sid];
    st.current == [] && st.pending != [] && forall j :: j in st.pending ==> j.uid !in s.markers
  }

  /** Its whole queue waits until the flush time. */
  predicate WaitsWith(s: Store, executor: Executor, ids: seq<SessionId>, reserved: set<SessionId>, p: Participant) {
    HoldsQueue(s, executor, ids, reserved, p.session) &&
    var st := s.sessions[p.session];
    st.status == Running && st.phase == WaitingPhase && st.nextFlushAt == Some(p.readyAt) && p.jobs == st.pending && p.operation == None
  }

  /** It failed without an operation, and its candidates are retried at the retry time. */
  predicate RetriesWith(s: Store, executor: Executor, ids: seq<SessionId>, reserved: set<SessionId>, p: Participant) {
    IsOpen(s, executor, ids, reserved, p.session) &&
    var st := s.sessions[p.session];
    && st.status == Failed && st.nextRetryAt == Some(p.readyAt) && p.operation == None
    && ((HoldsQueue(s, executor, ids, reserved, p.session) && p.jobs == st.pending) || (st.current != [] && st.currentOp == None && p.jobs == st.current))
  }

  /** It failed in the operation, and its share is retried at the retry time. */
  predicate RetriesShare(s: Store, executor: Executor, ids: seq<SessionId>, reserved: set<SessionId>, op: OpId, p: Participant) {
    IsOpen(s, executor, ids, reserved, p.session) &&
    var st := s.sessions[p.session];
    st.status == Failed && st.nextRetryAt == Some(p.readyAt) && st.current != [] && st.currentOp == Some(op) && p.jobs == st.current && p.operation == Some(op)
  }

  /** It holds a share of the operation that has not failed, or that needs a person. */
  ghost predicate IsBlocked(s: Store, executor: Executor, ids: seq<SessionId>, reserved: set<SessionId>, op: OpId) {
    exists sid :: IsOpen(s, executor, ids, reserved, sid) && s.sessions[sid].current != [] && s.sessions[sid].currentOp == Some(op) && s.sessions[sid].status != Failed
  }

  /** It failed and has no retry time, or waits and has no flush time. */
  ghost predicate IsUntimed(s: Store, executor: Executor, ids: seq<SessionId>, reserved: set<SessionId>) {
    exists sid :: IsOpen(s, executor, ids, reserved, sid) &&
      var st := s.sessions[sid];
      || (st.status == Failed && st.nextRetryAt == None && (st.current != [] || HoldsQueue(s, executor, ids, reserved, sid)))
      || (HoldsQueue(s, executor, ids, reserved, sid) && st.status == Running && st.phase == WaitingPhase && st.nextFlushAt == None)
  }

  ghost predicate IsLaneOfSome(s: Store, executor: Executor, ids: seq<SessionId>, reserved: set<SessionId>, lane: Lane) {
    exists sid :: sid in ids && sid !in reserved && LaneOf(s, executor, sid) == lane
  }

  lemma {:induction false} LanesMembers(s: Store, executor: Executor, ids: seq<SessionId>, reserved: set<SessionId>, lane: Lane)
    ensures lane in Lanes(s, executor, ids, reserved) <==> IsLaneOfSome(s, executor, ids, reserved, lane)
    decreases |ids|
  {
    if ids != [] {
      var init, last := ids[..|ids| - 1], ids[|ids| - 1];
      LanesMembers(s, executor, init, reserved, lane);
      assert forall sid :: sid in ids <==> sid in init || sid == last by {
        assert ids == init + [last];
      }
      if IsLaneOfSome(s, executor, init, reserved, lane) {
        var sid :| sid in init && sid !in reserved && LaneOf(s, executor, sid) == lane;
        assert sid in ids;
      }
    }
  }

  lemma WaitingMeans(s: Store, executor: Executor, ids: seq<SessionId>, reserved: set<SessionId>, p: Participant)
    ensures Waiting(p) in Lanes(s, executor, ids, reserved) <==> WaitsWith(s, executor, ids, reserved, p)
  {
    LanesMembers(s, executor, ids, reserved, Waiting(p));
    if IsLaneOfSome(s, executor, ids, reserved, Waiting(p)) {
      var sid :| sid in ids && sid !in reserved && LaneOf(s, executor, sid) == Waiting(p);
      assert sid in s.sessions && p.session == sid;
    }
    if WaitsWith(s, executor, ids, reserved, p) {
      assert LaneOf(s, executor, p.session) == Waiting(p);
    }
  }

  lemma RecoveryMeans(s: Store, executor: Executor, ids: seq<SessionId>, reserved: set<SessionId>, p: Participant)
    ensures Recovery(p) in Lanes(s, executor, ids, reserved) <==> RetriesWith(s, executor, ids, reserved, p)
  {
    LanesMembers(s, executor, ids, reserved, Recovery(p));
    if IsLaneOfSome(s, executor, ids, reserved, Recovery(p)) {
      var sid :| sid in ids && sid !in reserved && LaneOf(s, executor, sid) == Recovery(p);
      assert sid in s.sessions && p.session == sid;
    }
    if RetriesWith(s, executor, ids, reserved, p) {
      assert LaneOf(s, executor, p.session) == Recovery(p);
    }
  }

  lemma ShareMeans(s: Store, executor: Executor, ids: seq<SessionId>, reserved: set<SessionId>, op: OpId, p: Participant)
    ensures OpRecovery(op, p) in Lanes(s, executor, ids, reserved) <==> RetriesShare(s, executor, ids, reserved, op, p)
  {
    LanesMembers(s, executor, ids, reserved, OpRecovery(op, p));
    if IsLaneOfSome(s, executor, ids, reserved, OpRecovery(op, p)) {
      var sid :| sid in ids && sid !in reserved && LaneOf(s, executor, sid) == OpRecovery(op, p);
      assert sid in s.sessions && p.session == sid;
    }
    if RetriesShare(s, executor, ids, reserved, op, p) {
      assert LaneOf(s, executor, p.session) == OpRecovery(op, p);
    }
  }

  lemma BlockingMeans(s: Store, executor: Executor, ids: seq<SessionId>, reserved: set<SessionId>, op: OpId)
    ensures Blocking(op) in Lanes(s, executor, ids, reserved) <==> IsBlocked(s, executor, ids, reserved, op)
  {
    LanesMembers(s, executor, ids, reserved, Blocking(op));
    if IsLaneOfSome(s, executor, ids, reserved, Blocking(op)) {
      var sid :| sid in ids && sid !in reserved && LaneOf(s, executor, sid) == Blocking(op);
      assert sid in s.sessions;
    }
    if IsBlocked(s, executor, ids, reserved, op) {
      var sid :| IsOpen(s, executor, ids, reserved, sid) && s.sessions[sid].current != [] && s.sessions[sid].currentOp == Some(op) && s.sessions[sid].status != Failed;
      assert LaneOf(s, executor, sid) == Blocking(op);
    }
  }

  lemma CorruptMeans(s: Store, executor: Executor, ids: seq<SessionId>, reserved: set<SessionId>)
    ensures Corrupt in Lanes(s, executor, ids, reserved) <==> IsUntimed(s, executor, ids, reserved)
  {
    LanesMembers(s, executor, ids, reserved, Corrupt);
    if IsLaneOfSome(s, executor, ids, reserved, Corrupt) {
      var sid :| sid in ids && sid !in reserved && LaneOf(s, executor, sid) == Corrupt;
      assert sid in s.sessions && IsOpen(s, executor, ids, reserved, sid);
    }
    if IsUntimed(s, executor, ids, reserved) {
      var sid :| IsOpen(s, executor, ids, reserved, sid) &&
        var st := s.sessions[sid];
        || (st.status == Failed && st.nextRetryAt == None && (st.current != [] || HoldsQueue(s, executor, ids, reserved, sid)))
        || (HoldsQueue(s, executor, ids, reserved, sid) && st.status == Running && st.phase == WaitingPhase && st.nextFlushAt == None);
      assert LaneOf(s, executor, sid) == Corrupt;
    }
  }

  // ---------- reservations that are due ----------

  /** The sessions that some live reservation with work left names. */
  ghost function HeldSessions(s: Store): set<SessionId> {
    set op, p | op in s.reservations && p in s.reservations[op].participants && IsHeld(s, p.session) :: p.session
  }

  lemma ScanHoldsAll(s: Store, executor: Executor, now: int, ops: seq<OpId>)
    requires Inv(s) && ListsReservations(s, ops)
    ensures ReservedScan(s, executor, now, ops).sessions == HeldSessions(s)
  {
    forall sid ensures sid in ReservedScan(s, executor, now, ops).sessions <==> sid in HeldSessions(s) {
      ScanHolds(s, executor, now, ops, sid);
      HeldIsHeld(s, ops, sid);
      if IsHeld(s, sid) {
        var op, p, q :| Reserves(s, op, p) && p.session == sid && Reserves(s, op, q) && !HasDone(s, op, q);
      }
    }
  }

  /** The participant is not done, and a failure of its session is retried at `x`. */
  predicate RetriesAt(s: Store, op: OpId, p: Participant, x: int) {
    p.session in s.sessions && !HasDone(s, op, p) && s.sessions[p.session].status == Failed && s.sessions[p.session].nextRetryAt == Some(x)
  }

  /** The participant is not done and needs a person. */
  predicate Blocks(s: Store, op: OpId, p: Participant) {
    p.session in s.sessions && !HasDone(s, op, p) && s.sessions[p.session].status == ManualRecovery
  }

  /** The executor's own reservation has work left, and no participant needs a person or has to wait. */
  ghost predicate IsDue(s: Store, executor: Executor, op: OpId, now: int) {
    && op in s.reservations && s.reservations[op].executor == executor
    && (exists p :: Reserves(s, op, p) && !HasDone(s, op, p))
    && (forall p :: Reserves(s, op, p) ==> !Blocks(s, op, p))
    && forall p, x :: Reserves(s, op, p) && RetriesAt(s, op, p, x) ==> x <= now
  }

  lemma {:induction false} StandingMeans(s: Store, executor: Executor, op: OpId, r: Reservation, items: seq<Participant>)
    requires Inv(s) && (forall p :: p in items ==> Reserves(s, op, p)) && StandingOf(s, executor, op, r, items).Held?
    ensures var h := StandingOf(s, executor, op, r, items);
            && (h.mine <==> r.executor == executor)
            && (h.blocked <==> exists p :: p in items && Blocks(s, op, p))
            && (forall x :: x in h.retries <==> exists p :: p in items && RetriesAt(s, op, p, x))
    decreases |items|
  {
    var p, rest := items[0], items[1..];
    assert p in items && Reserves(s, op, p) && p.session in s.sessions;
    assert SessionOk(s.sessions[p.session]);
    assert forall q :: q in items <==> q == p || q in rest;
    StandingReadable(s, executor, op, r, items);
    StandingReadable(s, executor, op, r, rest);
    StandingGone(s, executor, op, r, rest);
    if StandingOf(s, executor, op, r, rest).Held? {
      StandingMeans(s, executor, op, r, rest);
    } else {
      assert forall q :: q in rest ==> HasDone(s, op, q);
    }
    assert ShareOf(s, executor, op, p).Done? <==> HasDone(s, op, p);
  }

  lemma DueMeans(s: Store, executor: Executor, op: OpId, now: int)
    requires Inv(s) && op in s.reservations
    ensures var r := s.reservations[op];
            var h := StandingOf(s, executor, op, r, r.participants);
            IsDue(s, executor, op, now) <==> h.Held? && h.mine && !h.blocked && Scheduler.After(now, h.retries) == []
  {
    var r := s.reservations[op];
    var h := StandingOf(s, executor, op, r, r.participants);
    StandingReadable(s, executor, op, r, r.participants);
    StandingGone(s, executor, op, r, r.participants);
    if h.Held? {
      StandingMeans(s, executor, op, r, r.participants);
      LaterRetries(h.retries, now);
      if IsDue(s, executor, op, now) {
        DueStands(s, executor, op, now, h);
      } else if h.mine && !h.blocked && Scheduler.After(now, h.retries) == [] {
        StandsDue(s, executor, op, now, h);
      }
    }
  }

  /** The reservation's standing as its participants determine it. */
  ghost predicate Stands(s: Store, executor: Executor, op: OpId, h: Standing) {
    op in s.reservations && h.Held? &&
    var items := s.reservations[op].participants;
    && (h.mine <==> s.reservations[op].executor == executor)
    && (h.blocked <==> exists p :: p in items && Blocks(s, op, p))
    && (forall x :: x in h.retries <==> exists p :: p in items && RetriesAt(s, op, p, x))
    && exists p :: p in items && !HasDone(s, op, p)
  }

  lemma DueStands(s: Store, executor: Executor, op: OpId, now: int, h: Standing)
    requires Stands(s, executor, op, h) && IsDue(s, executor, op, now)
    ensures h.mine && !h.blocked && forall x :: x in h.retries ==> x <= now
  {
    var items := s.reservations[op].participants;
    forall x | x in h.retries ensures x <= now {
      var q :| q in items && RetriesAt(s, op, q, x);
      assert Reserves(s, op, q);
    }
    forall q | q in items ensures !Blocks(s, op, q) {
      assert Reserves(s, op, q);
    }
  }

  lemma StandsDue(s: Store, executor: Executor, op: OpId, now: int, h: Standing)
    requires Stands(s, executor, op, h) && h.mine && !h.blocked && forall x :: x in h.retries ==> x <= now
    ensures IsDue(s, executor, op, now)
  {
    var items := s.reservations[op].participants;
    var p :| p in items && !HasDone(s, op, p);
    assert Reserves(s, op, p);
    forall q, x | Reserves(s, op, q) && RetriesAt(s, op, q, x) ensures x <= now {
      assert x in h.retries;
    }
  }

  lemma LaterRetries(retries: seq<int>, now: int)
    ensures Scheduler.After(now, retries) == [] <==> forall x :: x in retries ==> x <= now
  {
    FilterMembers((x: int) => now < x, retries);
    if Scheduler.After(now, retries) != [] {
      assert Scheduler.After(now, retries)[0] in Scheduler.After(now, retries);
    } else {
      assert forall x :: x in retries ==> !(now < x);
    }
  }

  ghost predicate IsDueOne(s: Store, executor: Executor, ops: seq<OpId>, now: int, r: Reservation) {
    exists op :: op in ops && IsDue(s, executor, op, now) && s.reservations[op] == r
  }

  lemma {:induction false} ScanReady(s: Store, executor: Executor, now: int, ops: seq<OpId>, x: Reservation)
    requires Inv(s) && forall i, j :: 0 <= i < j < |ops| ==> ops[i] != ops[j]
    ensures x in ReservedScan(s, executor, now, ops).ready <==> IsDueOne(s, executor, ops, now, x)
    decreases |ops|
  {
    if ops != [] {
      var init, op := ops[..|ops| - 1], ops[|ops| - 1];
      ScanReady(s, executor, now, init, x);
      assert forall o :: o in ops <==> o in init || o == op by {
        assert ops == init + [op];
      }
      ScanReadyStep(s, executor, now, ops, x);
    }
  }

  lemma ScanReadyStep(s: Store, executor: Executor, now: int, ops: seq<OpId>, x: Reservation)
    requires Inv(s) && ops != [] && forall i, j :: 0 <= i < j < |ops| ==> ops[i] != ops[j]
    ensures var op := ops[|ops| - 1];
            x in ReservedScan(s, executor, now, ops).ready
            <==> x in ReservedScan(s, executor, now, ops[..|ops| - 1]).ready || (IsDue(s, executor, op, now) && s.reservations[op] == x)
  {
    var op := ops[|ops| - 1];
    ScanCollects(s, executor, now, ops);
    ScanCollects(s, executor, now, ops[..|ops| - 1]);
    if op in s.reservations {
      StandingReadable(s, executor, op, s.reservations[op], s.reservations[op].participants);
      DueMeans(s, executor, op, now);
    }
  }

  lemma {:induction false} EarliestIsLeast(rs: seq<Reservation>)
    requires rs != []
    ensures Earliest(rs) in rs && forall r :: r in rs ==> Earliest(rs).createdAt <= r.createdAt
    decreases |rs|
  {
    if |rs| > 1 {
      EarliestIsLeast(rs[1..]);
      assert rs == [rs[0]] + rs[1..];
    }
  }

  /** A due reservation comes before everything else: the one made first is resumed, whole. */
  lemma DueReservationComesFirst(
      s: Store, executor: Executor, ids: seq<SessionId>, ops: seq<OpId>, now: int, trigger: int, target: int, maxWait: int, op: OpId)
    requires Reachable(s) && ListsReservations(s, ops) && IsDue(s, executor, op, now)
    ensures exists o :: IsDue(s, executor, o, now)
              && NextBatch(s, executor, ids, ops, now, trigger, target, maxWait) == Batch(s.reservations[o].participants)
              && forall other :: IsDue(s, executor, other, now) ==> s.reservations[o].createdAt <= s.reservations[other].createdAt
  {
    ReachableInv(s);
    ScanCollects(s, executor, now, ops);
    var ready := ReservedScan(s, executor, now, ops).ready;
    forall other | IsDue(s, executor, other, now) ensures s.reservations[other] in ready {
      ScanReady(s, executor, now, ops, s.reservations[other]);
      assert other in ops;
    }
    EarliestIsLeast(ready);
    ScanReady(s, executor, now, ops, Earliest(ready));
  }

  // ---------- sessions that are served ----------

  /** No reservation of the executor is due. */
  ghost predicate NothingDue(s: Store, executor: Executor, now: int) {
    forall op :: !IsDue(s, executor, op, now)
  }

  lemma NothingReady(s: Store, executor: Executor, now: int, ops: seq<OpId>)
    requires Inv(s) && ListsReservations(s, ops) && NothingDue(s, executor, now)
    ensures var r := ReservedScan(s, executor, now, ops); !r.broken && r.ready == [] && r.sessions == HeldSessions(s)
  {
    ScanCollects(s, executor, now, ops);
    ScanHoldsAll(s, executor, now, ops);
    var ready := ReservedScan(s, executor, now, ops).ready;
    forall x ensures x !in ready {
      ScanReady(s, executor, now, ops, x);
    }
    NoMembers(ready);
  }

  /** The earlier ready time, then the smaller session. */
  predicate ReadyFirst(p: Participant, q: Participant) {
    p.readyAt < q.readyAt || (p.readyAt == q.readyAt && p.session <= q.session)
  }

  predicate InReadyOrder(ps: seq<Participant>) {
    forall i, j :: 0 <= i < j < |ps| ==> ReadyFirst(ps[i], ps[j])
  }

  lemma SortedIsReadyOrder(ps: seq<Participant>)
    ensures Sorted(ps) <==> InReadyOrder(ps)
  {}

  /** Without a due reservation, sessions whose retry time has passed come next: all of them, each with its whole queue. */
  lemma RetryComesNext(
      s: Store, executor: Executor, ids: seq<SessionId>, ops: seq<OpId>, now: int, trigger: int, target: int, maxWait: int, due: Participant)
    requires Reachable(s) && ListsReservations(s, ops) && NothingDue(s, executor, now)
    requires RetriesWith(s, executor, ids, HeldSessions(s), due) && due.readyAt <= now
    ensures var c := NextBatch(s, executor, ids, ops, now, trigger, target, maxWait);
            && c.Batch? && InReadyOrder(c.items)
            && forall p :: p in c.items <==> RetriesWith(s, executor, ids, HeldSessions(s), p) && p.readyAt <= now
  {
    ReachableInv(s);
    NothingReady(s, executor, now, ops);
    var lanes := Lanes(s, executor, ids, HeldSessions(s));
    LanesArePlain(s, executor, now, ops, ids);
    NoReadyGroup(lanes, now, |lanes|);
    assert forall k :: 0 <= k < |lanes| ==> Plain(lanes[k]);
    assert !Plain(Corrupt);
    RecoveryIsPlain(lanes, now);
    ReadyRecoveryMeans(s, executor, ids, HeldSessions(s), now);
    AllOfOne(ReadyRecovery(lanes, now));
    assert due in SortByReady(ReadyRecovery(lanes, now));
  }

  lemma ReadyRecoveryMeans(s: Store, executor: Executor, ids: seq<SessionId>, reserved: set<SessionId>, now: int)
    ensures forall p :: p in ReadyRecovery(Lanes(s, executor, ids, reserved), now) <==> RetriesWith(s, executor, ids, reserved, p) && p.readyAt <= now
  {
    ReadyRecoveryMembers(Lanes(s, executor, ids, reserved), now);
    forall p ensures p in ReadyRecovery(Lanes(s, executor, ids, reserved), now) <==> RetriesWith(s, executor, ids, reserved, p) && p.readyAt <= now {
      RecoveryMeans(s, executor, ids, reserved, p);
    }
  }

  /** Failed sessions without an operation are resumed together. */
  lemma AllOfOne(ready: seq<Participant>)
    requires forall p :: p in ready ==> p.operation == None
    ensures var sorted := SortByReady(ready);
            && InReadyOrder(sorted) && (forall p :: p in sorted <==> p in ready)
            && (sorted != [] ==> Filter((p: Participant) => p.operation == sorted[0].operation, sorted) == sorted)
  {
    SortSorts(ready);
    SortKeepsMembers(ready);
    var sorted := SortByReady(ready);
    SortedIsReadyOrder(sorted);
    if sorted != [] {
      assert sorted[0] in sorted;
      FilterAll((p: Participant) => p.operation == sorted[0].operation, sorted);
    }
  }

  // ---------- the waiting lane ----------

  predicate WaitsIn(s: Store, executor: Executor, ids: seq<SessionId>, reserved: set<SessionId>, sid: SessionId) {
    HoldsQueue(s, executor, ids, reserved, sid) &&
    s.sessions[sid].status == Running && s.sessions[sid].phase == WaitingPhase && s.sessions[sid].nextFlushAt.Some?
  }

  /** All candidates of the waiting sessions among the first `n` listed. */
  function WaitingJobs(s: Store, executor: Executor, ids: seq<SessionId>, reserved: set<SessionId>, n: nat): seq<Job>
    requires n <= |ids|
  {
    if n == 0 then []
    else
      WaitingJobs(s, executor, ids, reserved, n - 1)
      + if WaitsIn(s, executor, ids, reserved, ids[n - 1]) then s.sessions[ids[n - 1]].pending else []
  }

  function JobsOf(ps: seq<Participant>): seq<Job> {
    if ps == [] then [] else JobsOf(ps[..|ps| - 1]) + ps[|ps| - 1].jobs
  }

  lemma {:induction false} TotalCounts(ps: seq<Participant>)
    ensures Total(ps) == |JobsOf(ps)|
  {
    if ps != [] {
      TotalCounts(ps[..|ps| - 1]);
    }
  }

  lemma {:induction false} BacklogCounts(s: Store, executor: Executor, ids: seq<SessionId>, reserved: set<SessionId>, n: nat)
    requires n <= |ids|
    ensures Total(WaitingItems(Lanes(s, executor, ids[..n], reserved))) == |WaitingJobs(s, executor, ids, reserved, n)|
  {
    if n > 0 {
      BacklogCounts(s, executor, ids, reserved, n - 1);
      LanesStep(s, executor, ids, reserved, n - 1);
      BacklogNext(s, executor, ids, reserved, n - 1, Lanes(s, executor, ids[..n - 1], reserved), Lanes(s, executor, ids[..n], reserved));
    }
  }

  lemma BacklogNext(s: Store, executor: Executor, ids: seq<SessionId>, reserved: set<SessionId>, k: nat, before: seq<Lane>, lanes: seq<Lane>)
    requires k < |ids| && lanes == before + (if ids[k] in reserved then [] else [LaneOf(s, executor, ids[k])])
    requires Total(WaitingItems(before)) == |WaitingJobs(s, executor, ids, reserved, k)|
    ensures Total(WaitingItems(lanes)) == |WaitingJobs(s, executor, ids, reserved, k + 1)|
  {
    if ids[k] !in reserved {
      OneLaneCounts(s, executor, ids, reserved, k);
      OneLaneMore(before, LaneOf(s, executor, ids[k]));
    } else {
      assert before + [] == before;
    }
  }

  lemma OneLaneMore(before: seq<Lane>, lane: Lane)
    ensures Total(WaitingItems(before + [lane])) == Total(WaitingItems(before)) + if lane.Waiting? then |lane.item.jobs| else 0
  {
    LaneAdded(before, lane, 0);
    var items := WaitingItems(before);
    assert lane.Waiting? ==> (items + [lane.item])[..|items|] == items;
    assert items + [] == items;
  }

  lemma OneLaneCounts(s: Store, executor: Executor, ids: seq<SessionId>, reserved: set<SessionId>, k: nat)
    requires k < |ids| && ids[k] !in reserved
    ensures var lane := LaneOf(s, executor, ids[k]);
            && (lane.Waiting? <==> WaitsIn(s, executor, ids, reserved, ids[k]))
            && (lane.Waiting? ==> lane.item.jobs == s.sessions[ids[k]].pending)
  {}

  /** What the waiting lane is asked about: no reservation is due, and no session's retry time has passed. */
  ghost predicate NothingToResume(s: Store, executor: Executor, ids: seq<SessionId>, now: int) {
    NothingDue(s, executor, now) && forall p :: RetriesWith(s, executor, ids, HeldSessions(s), p) ==> now < p.readyAt
  }

  lemma OnlyWaitingMeans(s: Store, executor: Executor, ids: seq<SessionId>, ops: seq<OpId>, now: int)
    requires Inv(s) && ListsReservations(s, ops) && NothingToResume(s, executor, ids, now)
    ensures OnlyWaiting(s, executor, ids, ops, now)
    ensures var w := WaitingQueues(s, executor, ids, ops, now);
            && (forall p :: p in w <==> WaitsWith(s, executor, ids, HeldSessions(s), p))
            && Total(w) == |WaitingJobs(s, executor, ids, HeldSessions(s), |ids|)|
  {
    NothingReady(s, executor, now, ops);
    var lanes := Lanes(s, executor, ids, HeldSessions(s));
    LanesArePlain(s, executor, now, ops, ids);
    NoReadyGroup(lanes, now, |lanes|);
    assert forall k :: 0 <= k < |lanes| ==> Plain(lanes[k]);
    assert !Plain(Corrupt);
    ReadyRecoveryMembers(lanes, now);
    forall p ensures p !in ReadyRecovery(lanes, now) {
      RecoveryMeans(s, executor, ids, HeldSessions(s), p);
    }
    NoMembers(ReadyRecovery(lanes, now));
    WaitingMembers(lanes);
    forall p ensures p in WaitingItems(lanes) <==> WaitsWith(s, executor, ids, HeldSessions(s), p) {
      WaitingMeans(s, executor, ids, HeldSessions(s), p);
    }
    BacklogCounts(s, executor, ids, HeldSessions(s), |ids|);
    assert ids[..|ids|] == ids;
  }

  /** The candidates that wait in all are enough for a batch. */
  ghost predicate IsEnough(s: Store, executor: Executor, ids: seq<SessionId>, trigger: int) {
    |WaitingJobs(s, executor, ids, HeldSessions(s), |ids|)| >= trigger
  }

  /** Some session has waited longer than its flush time by `maxWait`. */
  ghost predicate IsOverdue(s: Store, executor: Executor, ids: seq<SessionId>, now: int, maxWait: int) {
    exists p :: WaitsWith(s, executor, ids, HeldSessions(s), p) && p.readyAt + maxWait <= now
  }

  /** The waiting sessions a batch may take: all of them if they hold enough, else those whose flush time has passed. */
  ghost predicate MayTake(s: Store, executor: Executor, ids: seq<SessionId>, now: int, trigger: int, p: Participant) {
    WaitsWith(s, executor, ids, HeldSessions(s), p) && (IsEnough(s, executor, ids, trigger) || p.readyAt <= now)
  }

  /** A batch of whole waiting queues in ready order from the oldest on: the fewest that reach the target, or all that may be taken. */
  ghost predicate IsWaitingBatch(s: Store, executor: Executor, ids: seq<SessionId>, now: int, trigger: int, target: int, b: seq<Participant>) {
    && b != [] && InReadyOrder(b)
    && (forall p :: p in b ==> MayTake(s, executor, ids, now, trigger, p))
    && (forall q :: WaitsWith(s, executor, ids, HeldSessions(s), q) ==> ReadyFirst(b[0], q))
    && |JobsOf(b[..|b| - 1])| < target
    && (|JobsOf(b)| < target ==> forall q :: MayTake(s, executor, ids, now, trigger, q) ==> q in b)
  }

  lemma EligibleMeans(w: seq<Participant>, now: int, trigger: int)
    ensures var eligible := Eligible(w, now, trigger);
            Sorted(eligible) && forall p :: p in eligible <==> p in w && (Total(w) >= trigger || p.readyAt <= now)
  {
    var chosen := if Total(w) >= trigger then w else Filter((p: Participant) => p.readyAt <= now, w);
    FilterMembers((p: Participant) => p.readyAt <= now, w);
    SortSorts(chosen);
    SortKeepsMembers(chosen);
  }

  /** The first eligible queue is the oldest of all that wait. */
  lemma FirstIsOldest(w: seq<Participant>, now: int, trigger: int)
    requires Eligible(w, now, trigger) != []
    ensures forall q :: q in w ==> Before(Eligible(w, now, trigger)[0], q)
  {
    var eligible := Eligible(w, now, trigger);
    EligibleMeans(w, now, trigger);
    forall q | q in w ensures Before(eligible[0], q) {
      assert eligible[0] in eligible;
      if q in eligible {
        var k :| 0 <= k < |eligible| && eligible[k] == q;
      }
    }
  }

  /** Whole queues up to the target, or all of them. */
  predicate IsSelection(b: seq<Participant>, eligible: seq<Participant>, target: int) {
    b != [] && b <= eligible && Total(b[..|b| - 1]) < target && (Total(b) < target ==> b == eligible)
  }

  lemma SelectionOf(eligible: seq<Participant>, target: int)
    requires eligible != [] && target >= 1
    ensures var n := Reaching(eligible, target, 0);
            IsSelection(if n.Some? then eligible[..n.value] else eligible, eligible, target)
            && (n.Some? ==> Total(eligible) >= target)
  {
    ReachingStops(eligible, target, 0);
    var n := Reaching(eligible, target, 0);
    if n.Some? {
      var b := eligible[..n.value];
      assert b[..|b| - 1] == eligible[..n.value - 1];
      assert n.value == 1 ==> b[..0] == [];
      TotalGrows(eligible, n.value, |eligible|);
    } else {
      TotalDrop(eligible);
    }
  }

  lemma {:induction false} TotalGrows(ps: seq<Participant>, a: nat, b: nat)
    requires a <= b <= |ps|
    ensures Total(ps[..a]) <= Total(ps[..b]) && ps[..|ps|] == ps
    decreases b - a
  {
    if a < b {
      TotalGrows(ps, a, b - 1);
      assert ps[..b][..b - 1] == ps[..b - 1];
    }
  }

  /** Filtering does not add candidates. */
  lemma {:induction false} TotalOfSome(w: seq<Participant>, keep: Participant -> bool)
    ensures Total(Filter(keep, w)) <= Total(w)
  {
    if w != [] {
      var init, last := w[..|w| - 1], w[|w| - 1];
      TotalOfSome(init, keep);
      assert w == init + [last];
      FilterSnoc(keep, init, last);
      var kept := Filter(keep, init);
      assert (kept + [last])[..|kept|] == kept;
      assert kept + [] == kept;
    }
  }

  lemma {:induction false} TotalIsSum(ps: seq<Participant>, p: Participant)
    ensures Total([p] + ps) == |p.jobs| + Total(ps)
  {
    if ps == [] {
      assert [p] + ps == [p] && [p][..0] == [];
    } else {
      TotalIsSum(ps[..|ps| - 1], p);
      assert ([p] + ps)[..|ps|] == [p] + ps[..|ps| - 1];
    }
  }

  lemma {:induction false} TotalInserted(p: Participant, ps: seq<Participant>)
    ensures Total(InsertByReady(p, ps)) == |p.jobs| + Total(ps)
    decreases |ps|
  {
    TotalIsSum(ps, p);
    if ps != [] && !Before(p, ps[0]) {
      TotalInserted(p, ps[1..]);
      TotalIsSum(InsertByReady(p, ps[1..]), ps[0]);
      TotalIsSum(ps[1..], ps[0]);
      assert [ps[0]] + ps[1..] == ps;
    } else {
      assert ps == [] ==> [p] + ps == [p];
    }
  }

  lemma {:induction false} TotalSorted(ps: seq<Participant>)
    ensures Total(SortByReady(ps)) == Total(ps)
    decreases |ps|
  {
    if ps != [] {
      TotalSorted(ps[1..]);
      TotalInserted(ps[0], SortByReady(ps[1..]));
      TotalIsSum(ps[1..], ps[0]);
      assert [ps[0]] + ps[1..] == ps;
    }
  }

  lemma EligibleTotal(w: seq<Participant>, now: int, trigger: int)
    ensures Total(Eligible(w, now, trigger)) <= Total(w)
  {
    var keep := (p: Participant) => p.readyAt <= now;
    TotalOfSome(w, keep);
    TotalSorted(Filter(keep, w));
    TotalSorted(w);
  }

  lemma ChooseWaitingMeans(w: seq<Participant>, deadlines: seq<int>, now: int, trigger: int, target: int, maxWait: int)
    requires 1 <= trigger <= target && 0 <= maxWait
    ensures var c := ChooseWaiting(w, deadlines, now, trigger, target, maxWait);
            && !c.Broken?
            && (c.Batch? <==> Total(w) >= trigger || exists p :: p in w && p.readyAt + maxWait <= now)
            && (c.Batch? ==> IsSelection(c.items, Eligible(w, now, trigger), target))
  {
    var eligible := Eligible(w, now, trigger);
    EligibleMeans(w, now, trigger);
    EligibleTotal(w, now, trigger);
    if eligible == [] {
      forall p | p in w ensures p.readyAt > now && Total(w) < trigger {
        assert p !in eligible;
      }
      assert w == [] ==> Total(w) == 0;
      assert w != [] ==> w[0] in w;
    } else {
      SelectionOf(eligible, target);
      FirstIsOldest(w, now, trigger);
      assert eligible[0] in eligible;
    }
  }

  /**
   With nothing to resume, the waiting lane gives a batch if and only if the
   waiting candidates are enough, or some session has waited too long; the batch
   holds whole queues with the flush times of their sessions, from the oldest on,
   the fewest that reach the target or else all that may be taken.
   */
  lemma WaitingSessionsAreServed(s: Store, executor: Executor, ids: seq<SessionId>, ops: seq<OpId>, now: int, trigger: int, target: int, maxWait: int)
    requires Reachable(s) && ListsReservations(s, ops) && NothingToResume(s, executor, ids, now)
    requires 1 <= trigger <= target && 0 <= maxWait
    ensures var c := NextBatch(s, executor, ids, ops, now, trigger, target, maxWait);
            && !c.Broken?
            && (c.Batch? <==> IsEnough(s, executor, ids, trigger) || IsOverdue(s, executor, ids, now, maxWait))
            && (c.Batch? ==> IsWaitingBatch(s, executor, ids, now, trigger, target, c.items))
  {
    ReachableInv(s);
    OnlyWaitingMeans(s, executor, ids, ops, now);
    var w := WaitingQueues(s, executor, ids, ops, now);
    var r := ReservedScan(s, executor, now, ops);
    var deadlines := r.deadlines + LaneDeadlines(Lanes(s, executor, ids, r.sessions), now);
    ChooseWaitingMeans(w, deadlines, now, trigger, target, maxWait);
    SortedEmpty(ReadyRecovery(Lanes(s, executor, ids, r.sessions), now));
    var c := NextBatch(s, executor, ids, ops, now, trigger, target, maxWait);
    assert c == ChooseWaiting(w, deadlines, now, trigger, target, maxWait);
    if c.Batch? {
      WaitingBatchMeans(s, executor, ids, ops, now, trigger, target, c.items);
    }
  }

  lemma WaitingBatchMeans(s: Store, executor: Executor, ids: seq<SessionId>, ops: seq<OpId>, now: int, trigger: int, target: int, b: seq<Participant>)
    requires Inv(s) && ListsReservations(s, ops) && NothingToResume(s, executor, ids, now)
    requires IsSelection(b, Eligible(WaitingQueues(s, executor, ids, ops, now), now, trigger), target)
    ensures IsWaitingBatch(s, executor, ids, now, trigger, target, b)
  {
    OnlyWaitingMeans(s, executor, ids, ops, now);
    var w := WaitingQueues(s, executor, ids, ops, now);
    var eligible := Eligible(w, now, trigger);
    EligibleMeans(w, now, trigger);
    FirstIsOldest(w, now, trigger);
    TotalCounts(b);
    TotalCounts(b[..|b| - 1]);
    SortedIsReadyOrder(b);
    assert b[0] == eligible[0];
    forall p | p in b ensures MayTake(s, executor, ids, now, trigger, p) {
      assert p in eligible;
    }
  }

  /** So an overdue session is served whatever else waits, once nothing is left to resume. */
  lemma OverdueSessionIsServed(
      s: Store, executor: Executor, ids: seq<SessionId>, ops: seq<OpId>, now: int, trigger: int, target: int, maxWait: int, sid: SessionId)
    requires Reachable(s) && ListsReservations(s, ops) && NothingToResume(s, executor, ids, now)
    requires 1 <= trigger <= target && 0 <= maxWait
    requires sid in ids && sid in s.sessions && !IsHeld(s, sid)
    requires var st := s.sessions[sid];
             && st.executor == executor && st.current == [] && st.pending != [] && (forall j :: j in st.pending ==> j.uid !in s.markers)
             && st.status == Running && st.phase == WaitingPhase && st.nextFlushAt.Some? && st.nextFlushAt.value + maxWait <= now
    ensures var c := NextBatch(s, executor, ids, ops, now, trigger, target, maxWait);
            c.Batch? && IsWaitingBatch(s, executor, ids, now, trigger, target, c.items)
  {
    WaitingSessionsAreServed(s, executor, ids, ops, now, trigger, target, maxWait);
    var st := s.sessions[sid];
    assert WaitsWith(s, executor, ids, HeldSessions(s), Participant(sid, st.nextFlushAt.value, st.pending, None));
  }

  // ---------- failed operation groups ----------
  // A reachable state has none outside a reservation; the scheduler handles them in any state.

  /** Every listed session that holds a share of the operation has failed in it, and all their retry times have passed. */
  ghost predicate IsReadyGroup(s: Store, executor: Executor, ids: seq<SessionId>, reserved: set<SessionId>, now: int, op: OpId) {
    && (exists p :: RetriesShare(s, executor, ids, reserved, op, p))
    && !IsBlocked(s, executor, ids, reserved, op)
    && forall p :: RetriesShare(s, executor, ids, reserved, op, p) ==> p.readyAt <= now
  }

  lemma GroupMeans(s: Store, executor: Executor, ids: seq<SessionId>, reserved: set<SessionId>, now: int, op: OpId)
    ensures GroupReady(Lanes(s, executor, ids, reserved), op, now) <==> IsReadyGroup(s, executor, ids, reserved, now, op)
  {
    var lanes := Lanes(s, executor, ids, reserved);
    BlockingMeans(s, executor, ids, reserved, op);
    forall p ensures OpRecovery(op, p) in lanes <==> RetriesShare(s, executor, ids, reserved, op, p) {
      ShareMeans(s, executor, ids, reserved, op, p);
    }
    forall lane | lane in lanes && lane.OpRecovery? && lane.op == op ensures lane == OpRecovery(op, lane.item) {}
    if IsReadyGroup(s, executor, ids, reserved, now, op) {
      var p :| RetriesShare(s, executor, ids, reserved, op, p);
      assert OpRecovery(op, p) in lanes;
    }
    if GroupReady(lanes, op, now) {
      forall p | RetriesShare(s, executor, ids, reserved, op, p) ensures p.readyAt <= now {
        assert OpRecovery(op, p).item == p;
      }
    }
  }

  lemma {:induction false} GroupMembers(lanes: seq<Lane>, op: OpId, p: Participant)
    ensures p in GroupItems(lanes, op) <==> OpRecovery(op, p) in lanes
    decreases |lanes|
  {
    if lanes != [] {
      GroupMembers(lanes[..|lanes| - 1], op, p);
      assert lanes == lanes[..|lanes| - 1] + [lanes[|lanes| - 1]];
    }
  }

  lemma {:induction false} LatestIsGreatest(items: seq<Participant>)
    requires items != []
    ensures (exists p :: p in items && p.readyAt == LatestReady(items)) && forall p :: p in items ==> p.readyAt <= LatestReady(items)
    decreases |items|
  {
    if |items| == 1 {
      assert items[0] in items;
    } else {
      LatestIsGreatest(items[1..]);
      assert forall p :: p in items <==> p == items[0] || p in items[1..];
      assert items[0] in items;
    }
  }

  /** The group chosen among the first `n` lanes is ready no later than any other ready group there. */
  lemma {:induction false} EarliestGroup(lanes: seq<Lane>, now: int, n: nat, op: OpId)
    requires n <= |lanes| && GroupReady(lanes, op, now) && exists k :: 0 <= k < n && lanes[k].OpRecovery? && lanes[k].op == op
    ensures var g := ReadyGroup(lanes, now, n);
            && g.Some? && GroupItems(lanes, g.value) != [] && GroupItems(lanes, op) != []
            && LatestReady(GroupItems(lanes, g.value)) <= LatestReady(GroupItems(lanes, op))
    decreases n
  {
    GroupNonempty(lanes, op);
    if n > 0 {
      var before := ReadyGroup(lanes, now, n - 1);
      if before.Some? {
        GroupNonempty(lanes, before.value);
      }
      if k :| 0 <= k < n - 1 && lanes[k].OpRecovery? && lanes[k].op == op {
        EarliestGroup(lanes, now, n - 1, op);
        if lanes[n - 1].OpRecovery? {
          GroupNonempty(lanes, lanes[n - 1].op);
        }
      }
    }
  }

  predicate InSessionOrder(ps: seq<Participant>) {
    forall i, j :: 0 <= i < j < |ps| ==> ps[i].session <= ps[j].session
  }

  lemma {:induction false} InsertedBySession(p: Participant, ps: seq<Participant>)
    requires InSessionOrder(ps)
    ensures InSessionOrder(InsertBySession(p, ps)) && forall q :: q in InsertBySession(p, ps) <==> q == p || q in ps
    decreases |ps|
  {
    if ps != [] && p.session > ps[0].session {
      InsertedBySession(p, ps[1..]);
      var rest := InsertBySession(p, ps[1..]);
      assert forall q :: q in ps <==> q == ps[0] || q in ps[1..];
      forall j | 0 <= j < |rest| ensures ps[0].session <= rest[j].session {
        assert rest[j] in rest;
        if rest[j] in ps[1..] {
          var k :| 0 <= k < |ps[1..]| && ps[1..][k] == rest[j];
        }
      }
    }
  }

  lemma {:induction false} SortedBySession(ps: seq<Participant>)
    ensures InSessionOrder(SortBySession(ps)) && forall q :: q in SortBySession(ps) <==> q in ps
    decreases |ps|
  {
    if ps != [] {
      SortedBySession(ps[1..]);
      InsertedBySession(ps[0], SortBySession(ps[1..]));
    }
  }

  /** Exactly the shares of the ready operation `g`, in session order; it was ready no later than `op`. */
  ghost predicate IsGroupBatch(
      s: Store, executor: Executor, ids: seq<SessionId>, reserved: set<SessionId>, now: int, g: OpId, op: OpId, items: seq<Participant>) {
    && IsReadyGroup(s, executor, ids, reserved, now, g) && InSessionOrder(items)
    && (forall p :: p in items <==> RetriesShare(s, executor, ids, reserved, g, p))
    && forall p :: p in items ==> exists q :: RetriesShare(s, executor, ids, reserved, op, q) && p.readyAt <= q.readyAt
  }

  /**
   In any state without a reserved batch, the participants of a failed operation
   whose retry times have all passed are resumed together, each with its whole
   batch, in session order; of several such operations, the one that was ready first.
   */
  lemma ReadyGroupIsServed(
      s: Store, executor: Executor, ids: seq<SessionId>, ops: seq<OpId>, now: int, trigger: int, target: int, maxWait: int, op: OpId)
    requires var r := ReservedScan(s, executor, now, ops);
             !r.broken && r.ready == [] && !IsUntimed(s, executor, ids, r.sessions) && IsReadyGroup(s, executor, ids, r.sessions, now, op)
    ensures var c := NextBatch(s, executor, ids, ops, now, trigger, target, maxWait);
            c.Batch? && exists g :: IsGroupBatch(s, executor, ids, ReservedScan(s, executor, now, ops).sessions, now, g, op, c.items)
  {
    var reserved := ReservedScan(s, executor, now, ops).sessions;
    CorruptMeans(s, executor, ids, reserved);
    var g := EarliestGroupIs(s, executor, ids, reserved, now, op);
    assert NextBatch(s, executor, ids, ops, now, trigger, target, maxWait) == Batch(SortBySession(GroupItems(Lanes(s, executor, ids, reserved), g)));
  }

  lemma EarliestGroupIs(s: Store, executor: Executor, ids: seq<SessionId>, reserved: set<SessionId>, now: int, op: OpId) returns (g: OpId)
    requires IsReadyGroup(s, executor, ids, reserved, now, op)
    ensures var lanes := Lanes(s, executor, ids, reserved);
            ReadyGroup(lanes, now, |lanes|) == Some(g) && IsGroupBatch(s, executor, ids, reserved, now, g, op, SortBySession(GroupItems(lanes, g)))
  {
    var lanes := Lanes(s, executor, ids, reserved);
    GroupMeans(s, executor, ids, reserved, now, op);
    var lane :| lane in lanes && lane.OpRecovery? && lane.op == op;
    var k :| 0 <= k < |lanes| && lanes[k] == lane;
    EarliestGroup(lanes, now, |lanes|, op);
    g := ReadyGroup(lanes, now, |lanes|).value;
    GroupMeans(s, executor, ids, reserved, now, g);
    SortedBySession(GroupItems(lanes, g));
    GroupItemsMean(s, executor, ids, reserved, g);
    GroupItemsMean(s, executor, ids, reserved, op);
    ReadyNoLater(lanes, g, op);
  }

  lemma GroupItemsMean(s: Store, executor: Executor, ids: seq<SessionId>, reserved: set<SessionId>, op: OpId)
    ensures forall p :: p in GroupItems(Lanes(s, executor, ids, reserved), op) <==> RetriesShare(s, executor, ids, reserved, op, p)
  {
    forall p ensures p in GroupItems(Lanes(s, executor, ids, reserved), op) <==> RetriesShare(s, executor, ids, reserved, op, p) {
      GroupMembers(Lanes(s, executor, ids, reserved), op, p);
      ShareMeans(s, executor, ids, reserved, op, p);
    }
  }

  lemma ReadyNoLater(lanes: seq<Lane>, g: OpId, op: OpId)
    requires GroupItems(lanes, g) != [] && GroupItems(lanes, op) != [] && LatestReady(GroupItems(lanes, g)) <= LatestReady(GroupItems(lanes, op))
    ensures forall p :: p in GroupItems(lanes, g) ==> exists q :: q in GroupItems(lanes, op) && p.readyAt <= q.readyAt
  {
    LatestIsGreatest(GroupItems(lanes, g));
    LatestIsGreatest(GroupItems(lanes, op));
  }

  // ---------- nothing is forgotten, and waiting has a reason ----------

  lemma RunningIsHeld(s: Store, sid: SessionId)
    requires Inv(s) && sid in s.sessions && s.sessions[sid].current != []
    ensures IsHeld(s, sid)
  {
    var op, p :| Runs(s, sid, op, p);
    assert !HasDone(s, op, p);
  }

  /**
   In every reachable state each session that holds candidates is held by a live
   reservation, or has published one, or needs a person, or is served by the
   retry or the waiting lane of its executor with its whole queue.
   */
  lemma NoCandidateIsForgotten(s: Store, ids: seq<SessionId>, sid: SessionId)
    requires Reachable(s) && sid in ids && sid in s.sessions && (s.sessions[sid].current != [] || s.sessions[sid].pending != [])
    ensures var st := s.sessions[sid];
            || IsHeld(s, sid)
            || (exists j :: j in st.pending && j.uid in s.markers)
            || st.status == ManualRecovery
            || (exists p: Participant :: p.session == sid && p.jobs == st.pending && (RetriesWith(s, st.executor, ids, HeldSessions(s), p) || WaitsWith(s, st.executor, ids, HeldSessions(s), p)))
  {
    ReachableInv(s);
    NothingIsStranded(s, sid);
    var st := s.sessions[sid];
    if st.current != [] {
      RunningIsHeld(s, sid);
    } else if !IsHeld(s, sid) && (forall j :: j in st.pending ==> j.uid !in s.markers) && st.status != ManualRecovery {
      var p := Participant(sid, if st.status == Failed then st.nextRetryAt.value else st.nextFlushAt.value, st.pending, None);
      assert RetriesWith(s, st.executor, ids, HeldSessions(s), p) || WaitsWith(s, st.executor, ids, HeldSessions(s), p);
    }
  }

  /** A session retries at `x`, or has waited for its flush until `x`, or for its flush and the longest wait. */
  ghost predicate IsSomeonesTime(s: Store, maxWait: int, x: int) {
    exists sid :: sid in s.sessions &&
      var st := s.sessions[sid];
      || (st.status == Failed && st.nextRetryAt == Some(x))
      || (st.status == Running && st.phase == WaitingPhase && st.nextFlushAt.Some? && (st.nextFlushAt.value == x || st.nextFlushAt.value + maxWait == x))
  }

  lemma RetryIsSomeones(s: Store, maxWait: int, sid: SessionId, x: int)
    requires sid in s.sessions && s.sessions[sid].status == Failed && s.sessions[sid].nextRetryAt == Some(x)
    ensures IsSomeonesTime(s, maxWait, x)
  {}

  lemma {:induction false} StandingRetries(s: Store, executor: Executor, op: OpId, r: Reservation, items: seq<Participant>, maxWait: int)
    requires forall sid :: ReadRaw(s, sid, executor).status == Failed ==> sid in s.sessions
    ensures var h := StandingOf(s, executor, op, r, items); h.Held? ==> forall x :: x in h.retries ==> IsSomeonesTime(s, maxWait, x)
    decreases |items|
  {
    if items != [] {
      StandingRetries(s, executor, op, r, items[1..], maxWait);
      var share := ShareOf(s, executor, op, items[0]);
      if share.Live? && share.retry.Some? {
        RetryIsSomeones(s, maxWait, items[0].session, share.retry.value);
      }
    }
  }

  lemma {:induction false} ScanDeadlinesAreTimes(s: Store, executor: Executor, now: int, ops: seq<OpId>, maxWait: int)
    ensures forall x :: x in ReservedScan(s, executor, now, ops).deadlines ==> IsSomeonesTime(s, maxWait, x)
    decreases |ops|
  {
    if ops != [] {
      ScanDeadlinesAreTimes(s, executor, now, ops[..|ops| - 1], maxWait);
      var op := ops[|ops| - 1];
      if op in s.reservations {
        var r := s.reservations[op];
        var standing := StandingOf(s, executor, op, r, r.participants);
        StandingRetries(s, executor, op, r, r.participants, maxWait);
        if standing.Held? && Scheduler.After(now, standing.retries) != [] {
          LargestIsMember(Scheduler.After(now, standing.retries));
          FilterMembers((x: int) => now < x, standing.retries);
        }
      }
    }
  }

  lemma LaneTimeIsSomeones(s: Store, executor: Executor, ids: seq<SessionId>, reserved: set<SessionId>, maxWait: int, lane: Lane)
    requires lane in Lanes(s, executor, ids, reserved) && LaneTime(lane).Some?
    ensures IsSomeonesTime(s, maxWait, LaneTime(lane).value)
    ensures lane.Waiting? ==> IsSomeonesTime(s, maxWait, lane.item.readyAt + maxWait)
  {
    match lane {
      case Waiting(p) => WaitingMeans(s, executor, ids, reserved, p);
      case Recovery(p) => RecoveryMeans(s, executor, ids, reserved, p);
      case OpRecovery(op, p) => ShareMeans(s, executor, ids, reserved, op, p);
    }
  }

  /** A named deadline is the time of some session: its retry, its flush, or its flush and the longest wait. */
  lemma DeadlineIsSomeones(s: Store, executor: Executor, ids: seq<SessionId>, ops: seq<OpId>, now: int, trigger: int, target: int, maxWait: int)
    requires var c := NextBatch(s, executor, ids, ops, now, trigger, target, maxWait); c.Wait? && c.deadline.Some?
    ensures IsSomeonesTime(s, maxWait, NextBatch(s, executor, ids, ops, now, trigger, target, maxWait).deadline.value)
  {
    var r := ReservedScan(s, executor, now, ops);
    var lanes := Lanes(s, executor, ids, r.sessions);
    var w := WaitingItems(lanes);
    AllAreTimes(s, executor, ids, ops, now, maxWait);
    DeadlineIsOne(w, r.deadlines + LaneDeadlines(lanes, now), now, trigger, target, maxWait);
    if Eligible(w, now, trigger) != [] {
      OldestIsTime(s, executor, ids, r.sessions, now, trigger, maxWait);
    }
  }

  lemma DeadlineIsOne(w: seq<Participant>, deadlines: seq<int>, now: int, trigger: int, target: int, maxWait: int)
    requires var c := ChooseWaiting(w, deadlines, now, trigger, target, maxWait); c.Wait? && c.deadline.Some?
    ensures var d := ChooseWaiting(w, deadlines, now, trigger, target, maxWait).deadline.value;
            var eligible := Eligible(w, now, trigger);
            d in deadlines || (eligible != [] && d == eligible[0].readyAt + maxWait)
  {
    var eligible := Eligible(w, now, trigger);
    if eligible != [] {
      SmallestIsLeast([eligible[0].readyAt + maxWait] + deadlines);
    } else {
      SmallestIsLeast(deadlines);
    }
  }

  lemma AllAreTimes(s: Store, executor: Executor, ids: seq<SessionId>, ops: seq<OpId>, now: int, maxWait: int)
    ensures var r := ReservedScan(s, executor, now, ops);
            forall x :: x in r.deadlines + LaneDeadlines(Lanes(s, executor, ids, r.sessions), now) ==> IsSomeonesTime(s, maxWait, x)
  {
    var r := ReservedScan(s, executor, now, ops);
    var lanes := Lanes(s, executor, ids, r.sessions);
    ScanDeadlinesAreTimes(s, executor, now, ops, maxWait);
    LaneDeadlinesMembers(lanes, now);
    forall x | x in LaneDeadlines(lanes, now) ensures IsSomeonesTime(s, maxWait, x) {
      var lane :| lane in lanes && LaneTime(lane) == Some(x);
      LaneTimeIsSomeones(s, executor, ids, r.sessions, maxWait, lane);
    }
  }

  lemma OldestIsTime(s: Store, executor: Executor, ids: seq<SessionId>, reserved: set<SessionId>, now: int, trigger: int, maxWait: int)
    requires Eligible(WaitingItems(Lanes(s, executor, ids, reserved)), now, trigger) != []
    ensures IsSomeonesTime(s, maxWait, Eligible(WaitingItems(Lanes(s, executor, ids, reserved)), now, trigger)[0].readyAt + maxWait)
  {
    var w := WaitingItems(Lanes(s, executor, ids, reserved));
    var eligible := Eligible(w, now, trigger);
    EligibleMeans(w, now, trigger);
    WaitingMembers(Lanes(s, executor, ids, reserved));
    assert eligible[0] in eligible;
    LaneTimeIsSomeones(s, executor, ids, reserved, maxWait, Waiting(eligible[0]));
  }
}
