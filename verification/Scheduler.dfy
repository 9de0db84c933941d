/**
 Choosing the next batch. Reservations come first, then batches to recover,
 then waiting sessions; when nothing is ready the scheduler names the next time
 worth looking.
 */
module Scheduler {
  import opened Common
  import opened UpdateQueue

  /** A batch to run, a time to look again (or none), or an error in the stored state. */
  datatype Schedule = Batch(items: seq<Participant>) | Wait(deadline: Option<int>) | Broken

  // ---------- reservations ----------

  /** What one reservation contributes, whatever the time. */
  datatype Standing =
    | Unreadable
    | Gone                              // every participant is acknowledged
    | Held(mine: bool, blocked: bool, retries: seq<int>, reservation: Reservation)

  datatype Share = Done | Live(manual: bool, retry: Option<int>) | Bad

  function ShareOf(s: Store, executor: Executor, op: OpId, p: Participant): Share {
    var st := ReadRaw(s, p.session, executor);
    if Acknowledged(st, op) then Done
    else if !Validated(st, p, op) then Bad
    else if st.status == ManualRecovery then Live(true, None)
    else if st.status == Failed then (if st.nextRetryAt.Some? then Live(false, st.nextRetryAt) else Bad)
    else Live(false, None)
  }

  function StandingOf(s: Store, executor: Executor, op: OpId, r: Reservation, items: seq<Participant>): Standing
    decreases |items|
  {
    if items == [] then Gone
    else
      var rest := StandingOf(s, executor, op, r, items[1..]);
      match ShareOf(s, executor, op, items[0])
      case Bad => Unreadable
      case Done => rest
      case Live(manual, retry) =>
        var times := if retry.Some? then [retry.value] else [];
        (match rest
         case Unreadable => Unreadable
         case Gone => Held(r.executor == executor, manual, times, r)
         case Held(mine, blocked, retries, _) => Held(mine, manual || blocked, times + retries, r))
  }

  function Largest(xs: seq<int>): int
    requires xs != []
  {
    if |xs| == 1 then xs[0] else Max(xs[0], Largest(xs[1..]))
  }

  function Smallest(xs: seq<int>): int
    requires xs != []
  {
    if |xs| == 1 then xs[0] else (var m := Smallest(xs[1..]); if xs[0] < m then xs[0] else m)
  }

  function After(now: int, xs: seq<int>): seq<int> {
    Filter((x: int) => now < x, xs)
  }

  datatype Reserved = Reserved(ready: seq<Reservation>, sessions: set<SessionId>, deadlines: seq<int>, broken: bool)

  function SessionsOf(ps: seq<Participant>): set<SessionId> {
    set p | p in ps :: p.session
  }

  function ReservedScan(s: Store, executor: Executor, now: int, ops: seq<OpId>): Reserved
  {
    if ops == [] then Reserved([], {}, [], false)
    else
      var before := ReservedScan(s, executor, now, ops[..|ops| - 1]);
      var op := ops[|ops| - 1];
      if before.broken || op !in s.reservations then before
      else
        var r := s.reservations[op];
        match StandingOf(s, executor, op, r, r.participants)
        case Unreadable => before.(broken := true)
        case Gone => before
        case Held(mine, blocked, retries, _) =>
          if before.sessions * SessionsOf(r.participants) != {} then before.(broken := true)
          else
            var later := After(now, retries);
            Reserved(
              if mine && !blocked && later == [] then before.ready + [r] else before.ready,
              before.sessions + SessionsOf(r.participants),
              if mine && !blocked && later != [] then before.deadlines + [Largest(later)] else before.deadlines,
              false)
  }

  function Earliest(rs: seq<Reservation>): Reservation
    requires rs != []
  {
    if |rs| == 1 then rs[0]
    else
      var best := Earliest(rs[1..]);
      if rs[0].createdAt <= best.createdAt then rs[0] else best
  }

  // ---------- sessions ----------

  /** The lane of a session that no reservation holds, whatever the time. */
  datatype Lane =
    | NoLane
    | Corrupt
    | Blocking(op: OpId)
    | OpRecovery(op: OpId, item: Participant)
    | Recovery(item: Participant)
    | Waiting(item: Participant)

  function LaneOf(s: Store, executor: Executor, sid: SessionId): Lane {
    var st := ReadRaw(s, sid, executor);
    if st.executor != executor then NoLane
    else if st.current != [] then
      if st.status == Failed then
        if st.nextRetryAt.None? then Corrupt
        else
          var item := Participant(sid, st.nextRetryAt.value, st.current, st.currentOp);
          if st.currentOp.Some? then OpRecovery(st.currentOp.value, item) else Recovery(item)
      else if st.currentOp.Some? then Blocking(st.currentOp.value)
      else NoLane
    else if st.pending == [] || (exists j :: j in st.pending && j.uid in s.markers) then NoLane
    else if st.status == Failed then
      if st.nextRetryAt.None? then Corrupt else Recovery(Participant(sid, st.nextRetryAt.value, st.pending, None))
    else if st.status != Running || st.phase != WaitingPhase then NoLane
    else if st.nextFlushAt.None? then Corrupt
    else Waiting(Participant(sid, st.nextFlushAt.value, st.pending, None))
  }

  function Lanes(s: Store, executor: Executor, ids: seq<SessionId>, reserved: set<SessionId>): seq<Lane> {
    if ids == [] then []
    else
      var before := Lanes(s, executor, ids[..|ids| - 1], reserved);
      if ids[|ids| - 1] in reserved then before else before + [LaneOf(s, executor, ids[|ids| - 1])]
  }

  function ReadyRecovery(lanes: seq<Lane>, now: int): seq<Participant> {
    if lanes == [] then []
    else
      var before := ReadyRecovery(lanes[..|lanes| - 1], now);
      var lane := lanes[|lanes| - 1];
      if lane.Recovery? && lane.item.readyAt <= now then before + [lane.item] else before
  }

  function WaitingItems(lanes: seq<Lane>): seq<Participant> {
    if lanes == [] then []
    else
      var before := WaitingItems(lanes[..|lanes| - 1]);
      var lane := lanes[|lanes| - 1];
      if lane.Waiting? then before + [lane.item] else before
  }

  function GroupItems(lanes: seq<Lane>, op: OpId): seq<Participant> {
    if lanes == [] then []
    else
      var before := GroupItems(lanes[..|lanes| - 1], op);
      var lane := lanes[|lanes| - 1];
      if lane.OpRecovery? && lane.op == op then before + [lane.item] else before
  }

  function LaneTime(lane: Lane): Option<int> {
    match lane
    case OpRecovery(_, item) => Some(item.readyAt)
    case Recovery(item) => Some(item.readyAt)
    case Waiting(item) => Some(item.readyAt)
    case _ => None
  }

  /** Every time after `now` at which some session becomes ready. */
  function LaneDeadlines(lanes: seq<Lane>, now: int): seq<int> {
    if lanes == [] then []
    else
      var before := LaneDeadlines(lanes[..|lanes| - 1], now);
      var time := LaneTime(lanes[|lanes| - 1]);
      if time.Some? && now < time.value then before + [time.value] else before
  }

  /** A group of failed participants of one operation may resume together. */
  predicate GroupReady(lanes: seq<Lane>, op: OpId, now: int) {
    && (exists lane :: lane in lanes && lane.OpRecovery? && lane.op == op)
    && (forall lane :: lane in lanes ==> lane != Blocking(op))
    && (forall lane :: lane in lanes && lane.OpRecovery? && lane.op == op ==> lane.item.readyAt <= now)
  }

  function LatestReady(items: seq<Participant>): int
    requires items != []
  {
    if |items| == 1 then items[0].readyAt else Max(items[0].readyAt, LatestReady(items[1..]))
  }

  lemma {:induction false} GroupNonempty(lanes: seq<Lane>, op: OpId)
    ensures GroupItems(lanes, op) != [] <==> exists lane :: lane in lanes && lane.OpRecovery? && lane.op == op
    decreases |lanes|
  {
    if lanes != [] {
      GroupNonempty(lanes[..|lanes| - 1], op);
      assert lanes == lanes[..|lanes| - 1] + [lanes[|lanes| - 1]];
    }
  }

  /** The ready group with the earliest common ready time, in the order the groups appear. */
  function ReadyGroup(lanes: seq<Lane>, now: int, n: nat): Option<OpId>
    requires n <= |lanes|
    ensures ReadyGroup(lanes, now, n).Some? ==> GroupReady(lanes, ReadyGroup(lanes, now, n).value, now)
  {
    if n == 0 then None
    else
      var before := ReadyGroup(lanes, now, n - 1);
      var lane := lanes[n - 1];
      if !lane.OpRecovery? || !GroupReady(lanes, lane.op, now) then before
      else
        GroupNonempty(lanes, lane.op);
        if before.None? then Some(lane.op)
        else
          GroupNonempty(lanes, before.value);
          if LatestReady(GroupItems(lanes, lane.op)) < LatestReady(GroupItems(lanes, before.value)) then Some(lane.op) else before
  }

  // ---------- order and size ----------

  predicate Before(p: Participant, q: Participant) {
    p.readyAt < q.readyAt || (p.readyAt == q.readyAt && p.session <= q.session)
  }

  function InsertByReady(p: Participant, ps: seq<Participant>): seq<Participant> {
    if ps == [] then [p]
    else if Before(p, ps[0]) then [p] + ps
    else [ps[0]] + InsertByReady(p, ps[1..])
  }

  function SortByReady(ps: seq<Participant>): seq<Participant> {
    if ps == [] then [] else InsertByReady(ps[0], SortByReady(ps[1..]))
  }

  function InsertBySession(p: Participant, ps: seq<Participant>): seq<Participant> {
    if ps == [] then [p]
    else if p.session <= ps[0].session then [p] + ps
    else [ps[0]] + InsertBySession(p, ps[1..])
  }

  function SortBySession(ps: seq<Participant>): seq<Participant> {
    if ps == [] then [] else InsertBySession(ps[0], SortBySession(ps[1..]))
  }

  /** How many candidates the queues hold. */
  function Total(ps: seq<Participant>): nat {
    if ps == [] then 0 else Total(ps[..|ps| - 1]) + |ps[|ps| - 1].jobs|
  }

  /** The least number of leading queues that reaches `target`, if any does. */
  function Reaching(ps: seq<Participant>, target: int, n: nat): (r: Option<nat>)
    requires n <= |ps|
    ensures r.Some? ==> n < r.value <= |ps|
    decreases |ps| - n
  {
    if n == |ps| then None
    else if Total(ps[..n + 1]) >= target then Some(n + 1)
    else Reaching(ps, target, n + 1)
  }

  function Eligible(waiting: seq<Participant>, now: int, trigger: int): seq<Participant> {
    SortByReady(if Total(waiting) >= trigger then waiting else Filter((p: Participant) => p.readyAt <= now, waiting))
  }

  /** The waiting lane, once nothing is reserved or to be recovered. */
  function ChooseWaiting(waiting: seq<Participant>, deadlines: seq<int>, now: int, trigger: int, target: int, maxWait: int): Schedule {
    var eligible := Eligible(waiting, now, trigger);
    if eligible == [] then Wait(if deadlines == [] then None else Some(Smallest(deadlines)))
    else
      var n := Reaching(eligible, target, 0);
      if n.Some? then Batch(eligible[..n.value])
      else if Total(waiting) >= trigger then Batch(eligible)
      else if now >= eligible[0].readyAt + maxWait then Batch(eligible)
      else Wait(Some(Smallest([eligible[0].readyAt + maxWait] + deadlines)))
  }

  function ChooseSession(lanes: seq<Lane>, deadlines: seq<int>, now: int, trigger: int, target: int, maxWait: int): Schedule {
    if Corrupt in lanes then Broken
    else
      var group := ReadyGroup(lanes, now, |lanes|);
      if group.Some? then Batch(SortBySession(GroupItems(lanes, group.value)))
      else
        var recovery := SortByReady(ReadyRecovery(lanes, now));
        if recovery != [] then
          var first := recovery[0].operation;
          Batch(Filter((p: Participant) => p.operation == first, recovery))
        else ChooseWaiting(WaitingItems(lanes), deadlines + LaneDeadlines(lanes, now), now, trigger, target, maxWait)
  }

  function NextBatch(s: Store, executor: Executor, ids: seq<SessionId>, ops: seq<OpId>, now: int, trigger: int, target: int, maxWait: int): Schedule {
    var r := ReservedScan(s, executor, now, ops);
    if r.broken then Broken
    else if r.ready != [] then Batch(Earliest(r.ready).participants)
    else ChooseSession(Lanes(s, executor, ids, r.sessions), r.deadlines, now, trigger, target, maxWait)
  }

  // ---------- the scheduler as it runs ----------

  /** Take whole queues in order until they reach the target. */
  method SelectQueues(eligible: seq<Participant>, target: int) returns (selected: seq<Participant>, reached: bool)
    ensures var n := Reaching(eligible, target, 0);
            reached == n.Some? && selected == (if n.Some? then eligible[..n.value] else eligible)
  {
    selected := [];
    var total := 0;
    var i := 0;
    while i < |eligible|
      invariant 0 <= i <= |eligible|
      invariant selected == eligible[..i] && total == Total(eligible[..i])
      invariant Reaching(eligible, target, 0) == Reaching(eligible, target, i)
    {
      assert eligible[..i + 1][..i] == eligible[..i];
      selected := selected + [eligible[i]];
      total := total + |eligible[i].jobs|;
      if total >= target {
        return selected, true;
      }
      i := i + 1;
    }
    assert eligible[..i] == eligible;
    return selected, false;
  }

  method ScanReservations(s: Store, executor: Executor, now: int, ops: seq<OpId>) returns (r: Reserved)
    ensures r == ReservedScan(s, executor, now, ops)
  {
    r := Reserved([], {}, [], false);
    var i := 0;
    while i < |ops|
      invariant 0 <= i <= |ops|
      invariant r == ReservedScan(s, executor, now, ops[..i])
    {
      assert ops[..i + 1][..i] == ops[..i];
      if !r.broken && ops[i] in s.reservations {
        var reservation := s.reservations[ops[i]];
        var standing := StandingOf(s, executor, ops[i], reservation, reservation.participants);
        if standing.Unreadable? {
          r := r.(broken := true);
        } else if standing.Held? {
          var ids := SessionsOf(reservation.participants);
          if r.sessions * ids != {} {
            r := r.(broken := true);
          } else {
            var later := After(now, standing.retries);
            if standing.mine && !standing.blocked {
              if later == [] {
                r := r.(ready := r.ready + [reservation]);
              } else {
                r := r.(deadlines := r.deadlines + [Largest(later)]);
              }
            }
            r := r.(sessions := r.sessions + ids);
          }
        }
      }
      i := i + 1;
    }
    assert ops[..i] == ops;
  }

  /** What one lane more adds. */
  lemma LaneAdded(lanes: seq<Lane>, lane: Lane, now: int)
    ensures ReadyRecovery(lanes + [lane], now) == ReadyRecovery(lanes, now) + (if lane.Recovery? && lane.item.readyAt <= now then [lane.item] else [])
    ensures WaitingItems(lanes + [lane]) == WaitingItems(lanes) + (if lane.Waiting? then [lane.item] else [])
    ensures LaneDeadlines(lanes + [lane], now) == LaneDeadlines(lanes, now) + (var time := LaneTime(lane); if time.Some? && now < time.value then [time.value] else [])
  {
    assert (lanes + [lane])[..|lanes|] == lanes;
  }

  lemma LanesStep(s: Store, executor: Executor, ids: seq<SessionId>, reserved: set<SessionId>, i: nat)
    requires i < |ids|
    ensures Lanes(s, executor, ids[..i + 1], reserved) == Lanes(s, executor, ids[..i], reserved) + if ids[i] in reserved then [] else [LaneOf(s, executor, ids[i])]
  {
    assert ids[..i + 1][..i] == ids[..i];
  }

  method ScanSessions(s: Store, executor: Executor, now: int, ids: seq<SessionId>, reserved: set<SessionId>)
    returns (lanes: seq<Lane>, recovery: seq<Participant>, waiting: seq<Participant>, deadlines: seq<int>)
    ensures lanes == Lanes(s, executor, ids, reserved)
    ensures recovery == ReadyRecovery(lanes, now) && waiting == WaitingItems(lanes) && deadlines == LaneDeadlines(lanes, now)
  {
    lanes, recovery, waiting, deadlines := [], [], [], [];
    var i := 0;
    while i < |ids|
      invariant 0 <= i <= |ids|
      invariant lanes == Lanes(s, executor, ids[..i], reserved)
      invariant recovery == ReadyRecovery(lanes, now) && waiting == WaitingItems(lanes) && deadlines == LaneDeadlines(lanes, now)
    {
      LanesStep(s, executor, ids, reserved, i);
      if ids[i] !in reserved {
        var lane := LaneOf(s, executor, ids[i]);
        LaneAdded(lanes, lane, now);
        if lane.Recovery? && lane.item.readyAt <= now {
          recovery := recovery + [lane.item];
        }
        if lane.Waiting? {
          waiting := waiting + [lane.item];
        }
        var time := LaneTime(lane);
        if time.Some? && now < time.value {
          deadlines := deadlines + [time.value];
        }
        lanes := lanes + [lane];
      }
      i := i + 1;
    }
    TakeAll(ids);
  }

  method ReadyBatch(s: Store, executor: Executor, ids: seq<SessionId>, ops: seq<OpId>, now: int, trigger: int, target: int, maxWait: int)
    returns (c: Schedule)
    ensures c == NextBatch(s, executor, ids, ops, now, trigger, target, maxWait)
  {
    var r := ScanReservations(s, executor, now, ops);
    if r.broken {
      return Broken;
    }
    if r.ready != [] {
      return Batch(Earliest(r.ready).participants);
    }
    var lanes, ready, waiting, later := ScanSessions(s, executor, now, ids, r.sessions);
    if Corrupt in lanes {
      return Broken;
    }
    var group := ReadyGroup(lanes, now, |lanes|);
    if group.Some? {
      return Batch(SortBySession(GroupItems(lanes, group.value)));
    }
    var recovery := SortByReady(ready);
    if recovery != [] {
      var first := recovery[0].operation;
      return Batch(Filter((p: Participant) => p.operation == first, recovery));
    }
    var deadlines := r.deadlines + later;
    var eligible := Eligible(waiting, now, trigger);
    if eligible == [] {
      return Wait(if deadlines == [] then None else Some(Smallest(deadlines)));
    }
    var selected, reached := SelectQueues(eligible, target);
    if reached || Total(waiting) >= trigger || now >= eligible[0].readyAt + maxWait {
      return Batch(selected);
    }
    return Wait(Some(Smallest([eligible[0].readyAt + maxWait] + deadlines)));
  }
}
