/** Finishing a batch can be cut off anywhere and called again. */
module UpdateQueueFinish {
  import opened Common
  import opened UpdateQueue
  import opened UpdateQueueInvariant
  import opened UpdateQueueBatches

  // ---------- the whole call ----------

  function FinishAllPlan(s: Store, executor: Executor, op: OpId, items: seq<Participant>, result: string, now: int): Plan
    decreases |items|
  {
    if items == [] then Plan([], true)
    else
      var first := FinishPlan(s, executor, op, items[0], result, now);
      if !first.ok then first
      else
        var rest := FinishAllPlan(Replay(s, first.writes), executor, op, items[1..], result, now);
        Plan(first.writes + rest.writes, rest.ok)
  }

  /** finish_reserved_batch: every participant in order, then the reservation if all are acknowledged; another executor is refused. */
  function FinishCall(s: Store, executor: Executor, op: OpId, result: string, now: int): Plan {
    if op !in s.reservations then Plan([], true)
    else if s.reservations[op].executor != executor then Plan([], false)
    else
      var all := FinishAllPlan(s, executor, op, s.reservations[op].participants, result, now);
      if !all.ok then all
      else Plan(all.writes + ClearPlan(Replay(s, all.writes), op, executor).writes, true)
  }

  // ---------- a property that holds along a list of writes ----------

  ghost predicate Along(P: Store -> bool, s: Store, ws: seq<Write>)
    decreases |ws|
  {
    P(s) && (ws == [] || Along(P, Apply(s, ws[0]), ws[1..]))
  }

  lemma {:induction false} AlongAppend(P: Store -> bool, s: Store, xs: seq<Write>, ys: seq<Write>)
    requires Along(P, s, xs) && Along(P, Replay(s, xs), ys)
    ensures Along(P, s, xs + ys)
    decreases |xs|
  {
    if xs == [] {
      assert xs + ys == ys;
    } else {
      AlongAppend(P, Apply(s, xs[0]), xs[1..], ys);
      assert (xs + ys)[1..] == xs[1..] + ys;
    }
  }

  lemma {:induction false} AlongCut(P: Store -> bool, s: Store, ws: seq<Write>, power: nat)
    requires Along(P, s, ws)
    ensures P(Cut(s, ws, power))
    decreases |ws|
  {
    if ws != [] && power > 0 {
      AlongCut(P, Apply(s, ws[0]), ws[1..], power - 1);
      if power < |ws| {
        assert ws[..power][1..] == ws[1..][..power - 1];
      }
    }
  }

  // ---------- how far a finish has come ----------

  predicate Owes(s: Store, op: OpId, sid: SessionId) {
    sid in s.sessions && s.sessions[sid].currentOp == Some(op)
  }

  predicate OwesUid(s: Store, op: OpId, sid: SessionId, u: Uid) {
    Owes(s, op, sid) && u in Uids(s.sessions[sid].current)
  }

  function Untimed(st: Session): Session {
    st.(nextFlushAt := if st.nextFlushAt.Some? then Some(0) else None)
  }

  /**
   The batch is gone and acknowledged; what waits goes on waiting, with its old
   flush time if it had one; if nothing waits the session has succeeded.
   */
  predicate Settles(st: Session, st': Session, op: OpId, result: string) {
    && st'.current == [] && st'.pending == st.pending && st'.accepted == st.accepted && st'.nextId == st.nextId && st'.executor == st.executor
    && st'.currentOp == None && st'.lastOp == Some(op)
    && st'.result == Some(result) && st'.attempts == 0 && st'.nextRetryAt == None
    && (st.pending == [] ==> st'.status == Succeeded && st'.phase == NoPhase && st'.nextFlushAt == None)
    && (st.pending != [] ==> st'.status == Running && st'.phase == WaitingPhase && st'.nextFlushAt.Some?)
    && (st.pending != [] && st.nextFlushAt.Some? ==> st'.nextFlushAt == st.nextFlushAt)
  }

  ghost predicate PartlySessions(s: Store, op: OpId, result: string, c: Store) {
    && c.sessions.Keys == s.sessions.Keys
    && (forall a :: a in s.sessions && !Owes(s, op, a) ==> c.sessions[a] == s.sessions[a])
    && (forall a :: Owes(s, op, a) ==> c.sessions[a] == s.sessions[a] || Settles(s.sessions[a], c.sessions[a], op, result))
  }

  /** Some session owes `u` in `s`. */
  ghost predicate Owed(s: Store, op: OpId, u: Uid) {
    exists a :: OwesUid(s, op, a, u)
  }

  /** Some session that owed `u` in `s` is settled in `c`. */
  ghost predicate Freed(s: Store, op: OpId, c: Store, u: Uid) {
    exists a :: OwesUid(s, op, a, u) && !Owes(c, op, a)
  }

  ghost predicate PartlyOutbox(s: Store, op: OpId, c: Store) {
    && (forall u :: u in c.outbox ==> u in s.outbox && c.outbox[u] == s.outbox[u] && !Freed(s, op, c, u))
    && (forall u :: u in s.outbox && u !in c.outbox ==> Owed(s, op, u))
  }

  /** `c` is `s` with some of the owed sessions settled and some of the owed outbox records removed. */
  ghost predicate Partly(s: Store, op: OpId, result: string, c: Store) {
    && c == s.(sessions := c.sessions, outbox := c.outbox, finished := c.finished, reservations := c.reservations)
    && PartlySessions(s, op, result, c)
    && (forall u :: u in c.finished <==> u in s.finished || Freed(s, op, c, u))
    && PartlyOutbox(s, op, c)
    && (c.reservations == s.reservations || (c.reservations == s.reservations - {op} && forall a :: !Owes(c, op, a)))
  }

  /** Every participant of the reservation was started: it runs the batch or has acknowledged it. */
  ghost predicate AllStarted(s: Store, op: OpId) {
    op in s.reservations &&
    forall p :: Reserves(s, op, p) ==> var st := ReadRaw(s, p.session, Worker); Acknowledged(st, op) || st.current == p.jobs
  }

  /** What a started participant looks like once finishing has gone part of the way. */
  lemma PartlyParticipant(s: Store, op: OpId, result: string, c: Store, p: Participant)
    requires Inv(s) && AllStarted(s, op) && Reserves(s, op, p) && Partly(s, op, result, c)
    ensures p.session in s.sessions && p.session in c.sessions && p.jobs != []
    ensures Acknowledged(c.sessions[p.session], op)
            || (Owes(s, op, p.session) && c.sessions[p.session] == s.sessions[p.session] && s.sessions[p.session].current == p.jobs)
  {
    assert ParticipantOk(s.sessions[p.session], op, p);
    assert WellFormed(op, s.reservations[op].participants);
    assert SessionOk(s.sessions[p.session]);
  }

  lemma DropOwed(s: Store, op: OpId, result: string, c: Store, sid: SessionId, u: Uid)
    requires Partly(s, op, result, c) && OwesUid(s, op, sid, u) && u !in s.markers
    ensures Partly(s, op, result, Apply(c, DropOutbox(u)))
    ensures Apply(Apply(c, DropOutbox(u)), DropMarker(u)) == Apply(c, DropOutbox(u))
  {
    var d := Apply(c, DropOutbox(u));
    assert forall a :: Owes(d, op, a) <==> Owes(c, op, a);
    assert forall v :: Freed(s, op, d, v) <==> Freed(s, op, c, v);
    assert Owed(s, op, u);
    assert c.markers - {u} == c.markers;
  }

  lemma {:induction false} DropsStay(s: Store, op: OpId, result: string, c: Store, sid: SessionId, jobs: seq<Job>)
    requires Partly(s, op, result, c) && forall j :: j in jobs ==> OwesUid(s, op, sid, j.uid) && j.uid !in s.markers
    ensures Along(x => Partly(s, op, result, x), c, DropRecords(jobs))
    ensures Partly(s, op, result, Replay(c, DropRecords(jobs)))
    ensures Replay(c, DropRecords(jobs)) == c.(outbox := c.outbox - Uids(jobs))
    decreases |jobs|
  {
    if jobs != [] {
      var u := jobs[0].uid;
      DropOwed(s, op, result, c, sid, u);
      var c1 := Apply(c, DropOutbox(u));
      DropsStay(s, op, result, c1, sid, jobs[1..]);
      UnrollDrops(x => Partly(s, op, result, x), c, jobs);
      assert Uids(jobs) == {u} + Uids(jobs[1..]);
      assert c.outbox - {u} - Uids(jobs[1..]) == c.outbox - Uids(jobs);
    }
  }

  lemma {:induction false} UnrollDrops(P: Store -> bool, c: Store, jobs: seq<Job>)
    requires jobs != [] && P(c)
    requires var c1 := Apply(c, DropOutbox(jobs[0].uid)); Apply(c1, DropMarker(jobs[0].uid)) == c1 && Along(P, c1, DropRecords(jobs[1..]))
    ensures Along(P, c, DropRecords(jobs))
    ensures Replay(c, DropRecords(jobs)) == Replay(Apply(c, DropOutbox(jobs[0].uid)), DropRecords(jobs[1..]))
  {
    var ws := DropRecords(jobs);
    assert ws[1..][1..] == DropRecords(jobs[1..]);
    assert ws[1..][0] == DropMarker(jobs[0].uid);
  }

  lemma SettleOne(s: Store, op: OpId, result: string, c: Store, sid: SessionId, now: int)
    requires Partly(s, op, result, c) && Owes(s, op, sid) && c.sessions[sid] == s.sessions[sid] && c.reservations == s.reservations
    requires c.outbox.Keys !! Uids(s.sessions[sid].current)
    ensures var st := s.sessions[sid];
            Partly(s, op, result, Apply(c, PutSession(sid, FinishedState(st, op, result, now), Finished(Uids(st.current)))))
  {
    var st := c.sessions[sid];
    var d := Apply(c, PutSession(sid, FinishedState(st, op, result, now), Finished(Uids(st.current))));
    assert forall a :: Owes(d, op, a) <==> Owes(c, op, a) && a != sid;
    forall u ensures Freed(s, op, d, u) <==> Freed(s, op, c, u) || u in Uids(st.current) {
      if u in Uids(st.current) {
        assert OwesUid(s, op, sid, u) && !Owes(d, op, sid);
      }
    }
  }

  lemma OwedUnmarked(s: Store, op: OpId, sid: SessionId)
    requires Inv(s) && Owes(s, op, sid)
    ensures s.sessions[sid].current != []
    ensures forall j :: j in s.sessions[sid].current ==> OwesUid(s, op, sid, j.uid) && j.uid !in s.markers
  {
    assert SessionOk(s.sessions[sid]);
    RunningUnpublished(s, sid);
  }

  /** Finishing a participant that still owes its batch. */
  lemma FinishOwed(s: Store, op: OpId, result: string, c: Store, sid: SessionId, now: int)
    requires Partly(s, op, result, c) && Owes(s, op, sid) && c.sessions[sid] == s.sessions[sid] && c.reservations == s.reservations
    requires forall j :: j in s.sessions[sid].current ==> OwesUid(s, op, sid, j.uid) && j.uid !in s.markers
    ensures var st := s.sessions[sid];
            var ws := DropRecords(st.current) + [PutSession(sid, FinishedState(st, op, result, now), Finished(Uids(st.current)))];
            var d := Replay(c, ws);
            Along(x => Partly(s, op, result, x), c, ws) && Partly(s, op, result, d)
            && d.reservations == c.reservations && d.sessions == c.sessions[sid := FinishedState(st, op, result, now)]
  {
    var st := s.sessions[sid];
    var drops := DropRecords(st.current);
    var last := PutSession(sid, FinishedState(st, op, result, now), Finished(Uids(st.current)));
    DropsStay(s, op, result, c, sid, st.current);
    var c1 := Replay(c, drops);
    SettleOne(s, op, result, c1, sid, now);
    assert [last][1..] == [];
    assert Along(x => Partly(s, op, result, x), c1, [last]);
    AlongAppend(x => Partly(s, op, result, x), c, drops, [last]);
    ReplayAppend(c, drops, [last]);
    assert Replay(c1, [last]) == Apply(c1, last);
  }

  lemma FinishOneStays(s: Store, executor: Executor, op: OpId, result: string, c: Store, p: Participant, now: int)
    requires Inv(s) && AllStarted(s, op) && Reserves(s, op, p) && Partly(s, op, result, c) && c.reservations == s.reservations
    ensures var plan := FinishPlan(c, executor, op, p, result, now); var d := Replay(c, plan.writes);
            plan.ok && Along(x => Partly(s, op, result, x), c, plan.writes)
            && Partly(s, op, result, d) && d.reservations == c.reservations
            && p.session in d.sessions && Acknowledged(d.sessions[p.session], op)
            && d.sessions.Keys == c.sessions.Keys
            && forall a :: a in c.sessions && a != p.session ==> d.sessions[a] == c.sessions[a]
  {
    PartlyParticipant(s, op, result, c, p);
    if !Acknowledged(c.sessions[p.session], op) {
      OwedUnmarked(s, op, p.session);
      FinishOwed(s, op, result, c, p.session, now);
    }
  }

  /** `d` has acknowledged these participants and left every other session of `c` alone. */
  ghost predicate Advanced(s: Store, op: OpId, result: string, c: Store, items: seq<Participant>, d: Store) {
    && Partly(s, op, result, d) && d.reservations == c.reservations && d.sessions.Keys == c.sessions.Keys
    && (forall p :: p in items ==> p.session in d.sessions && Acknowledged(d.sessions[p.session], op))
    && (forall a :: a in c.sessions && (forall p :: p in items ==> p.session != a) ==> d.sessions[a] == c.sessions[a])
  }

  lemma AdvancedStep(s: Store, op: OpId, result: string, c: Store, p: Participant, c1: Store, rest: seq<Participant>, d: Store)
    requires Advanced(s, op, result, c, [p], c1) && Advanced(s, op, result, c1, rest, d)
    requires forall q :: q in rest ==> q.session != p.session
    ensures Advanced(s, op, result, c, [p] + rest, d)
  {
    assert p in [p];
    assert forall q :: q in [p] + rest <==> q == p || q in rest;
    assert d.sessions[p.session] == c1.sessions[p.session];
    forall a | a in c.sessions && (forall q :: q in [p] + rest ==> q.session != a) ensures d.sessions[a] == c.sessions[a] {
      assert p in [p] + rest;
      assert forall q :: q in rest ==> q in [p] + rest;
    }
  }

  lemma {:induction false} FinishAllStays(s: Store, executor: Executor, op: OpId, result: string, c: Store, items: seq<Participant>, now: int)
    requires Inv(s) && AllStarted(s, op) && (forall p :: p in items ==> Reserves(s, op, p)) && Partly(s, op, result, c) && c.reservations == s.reservations
    requires SortedSessions(items)
    ensures var plan := FinishAllPlan(c, executor, op, items, result, now);
            plan.ok && Along(x => Partly(s, op, result, x), c, plan.writes) && Advanced(s, op, result, c, items, Replay(c, plan.writes))
    decreases |items|
  {
    if items != [] {
      var p := items[0];
      var first := FinishPlan(c, executor, op, p, result, now);
      FinishOneStays(s, executor, op, result, c, p, now);
      var c1 := Replay(c, first.writes);
      assert Advanced(s, op, result, c, [p], c1) by {
        assert p in [p];
      }
      FinishAllStays(s, executor, op, result, c1, items[1..], now);
      var rest := FinishAllPlan(c1, executor, op, items[1..], result, now);
      AlongAppend(x => Partly(s, op, result, x), c, first.writes, rest.writes);
      ReplayAppend(c, first.writes, rest.writes);
      AdvancedStep(s, op, result, c, p, c1, items[1..], Replay(c1, rest.writes));
      assert items == [p] + items[1..];
    }
  }

  /** Everything owed is settled, its outbox records are gone, and so is the reservation. */
  ghost predicate Complete(s: Store, op: OpId, result: string, c: Store) {
    Partly(s, op, result, c) && op !in c.reservations
  }

  lemma OwesMeansReserved(s: Store, op: OpId, a: SessionId)
    requires Inv(s) && Owes(s, op, a)
    ensures exists p :: Reserves(s, op, p) && p.session == a
  {
    assert SessionOk(s.sessions[a]);
    var op', p :| Runs(s, a, op', p);
  }

  /** Once every participant is acknowledged, freeing the reservation completes the finish. */
  lemma ClearStays(s: Store, executor: Executor, op: OpId, result: string, d: Store)
    requires Inv(s) && op in s.reservations && Partly(s, op, result, d) && d.reservations == s.reservations
    requires forall p :: p in s.reservations[op].participants ==> p.session in d.sessions && Acknowledged(d.sessions[p.session], op)
    ensures ClearPlan(d, op, executor).writes == [DropReservation(op)]
    ensures Complete(s, op, result, Apply(d, DropReservation(op)))
  {
    var e := Apply(d, DropReservation(op));
    forall a | Owes(s, op, a) ensures !Owes(d, op, a) {
      OwesMeansReserved(s, op, a);
      var p :| Reserves(s, op, p) && p.session == a;
      assert Settles(s.sessions[a], d.sessions[a], op, result);
    }
    assert forall a :: Owes(d, op, a) ==> Owes(s, op, a);
    assert forall a :: Owes(e, op, a) <==> Owes(d, op, a);
    assert forall u :: Freed(s, op, e, u) <==> Freed(s, op, d, u);
  }

  lemma CallStays(s: Store, executor: Executor, op: OpId, result: string, c: Store, now: int)
    requires Inv(s) && AllStarted(s, op) && Partly(s, op, result, c) && executor == s.reservations[op].executor
    ensures var plan := FinishCall(c, executor, op, result, now);
            plan.ok && Along(x => Partly(s, op, result, x), c, plan.writes) && Complete(s, op, result, Replay(c, plan.writes))
  {
    if op in c.reservations {
      var items := s.reservations[op].participants;
      assert WellFormed(op, items);
      FinishAllStays(s, executor, op, result, c, items, now);
      var all := FinishAllPlan(c, executor, op, items, result, now);
      var d := Replay(c, all.writes);
      ClearStays(s, executor, op, result, d);
      var last := [DropReservation(op)];
      assert last[1..] == [];
      assert Along(x => Partly(s, op, result, x), d, last);
      AlongAppend(x => Partly(s, op, result, x), c, all.writes, last);
      ReplayAppend(c, all.writes, last);
      assert Replay(d, last) == Apply(d, DropReservation(op));
    }
  }

  // ---------- any number of interrupted calls ----------

  /** One finish call: its clock, and how many durable writes it makes before it is cut off. */
  datatype Call = Call(executor: Executor, now: int, power: nat)

  function AfterCall(s: Store, op: OpId, result: string, call: Call): Store {
    Cut(s, FinishCall(s, call.executor, op, result, call.now).writes, call.power)
  }

  function AfterCalls(s: Store, op: OpId, result: string, calls: seq<Call>): Store
    decreases |calls|
  {
    if calls == [] then s else AfterCalls(AfterCall(s, op, result, calls[0]), op, result, calls[1..])
  }

  /** A call of the other executor writes nothing. */
  lemma OneCallStays(s: Store, op: OpId, result: string, c: Store, call: Call)
    requires Inv(s) && AllStarted(s, op) && Partly(s, op, result, c)
    ensures Partly(s, op, result, AfterCall(c, op, result, call))
  {
    var plan := FinishCall(c, call.executor, op, result, call.now);
    if call.executor == s.reservations[op].executor {
      CallStays(s, call.executor, op, result, c, call.now);
      AlongCut(x => Partly(s, op, result, x), c, plan.writes, call.power);
    } else {
      assert plan.writes == [];
    }
  }

  lemma {:induction false} CallsStay(s: Store, op: OpId, result: string, c: Store, calls: seq<Call>)
    requires Inv(s) && AllStarted(s, op) && Partly(s, op, result, c)
    ensures Partly(s, op, result, AfterCalls(c, op, result, calls))
    decreases |calls|
  {
    if calls != [] {
      OneCallStays(s, op, result, c, calls[0]);
      CallsStay(s, op, result, AfterCall(c, op, result, calls[0]), calls[1..]);
    }
  }

  /** The same durable state up to the deadline that a settled session computes from its clock. */
  ghost predicate SameUpToTimes(x: Store, y: Store) {
    && x == y.(sessions := x.sessions)
    && x.sessions.Keys == y.sessions.Keys
    && forall a :: a in x.sessions ==> Untimed(x.sessions[a]) == Untimed(y.sessions[a])
  }

  lemma CompleteIsUnique(s: Store, op: OpId, result: string, x: Store, y: Store)
    requires Inv(s) && op in s.reservations && Complete(s, op, result, x) && Complete(s, op, result, y)
    ensures SameUpToTimes(x, y)
  {
    forall a | Owes(s, op, a) ensures Untimed(x.sessions[a]) == Untimed(y.sessions[a]) {
      assert !Owes(x, op, a) && !Owes(y, op, a);
    }
    forall u ensures Freed(s, op, x, u) <==> Owed(s, op, u) {
      if Owed(s, op, u) {
        var a :| OwesUid(s, op, a, u);
        assert !Owes(x, op, a);
      }
    }
    forall u ensures Freed(s, op, y, u) <==> Owed(s, op, u) {
      if Owed(s, op, u) {
        var a :| OwesUid(s, op, a, u);
        assert !Owes(y, op, a);
      }
    }
    assert forall u :: u in x.finished <==> u in y.finished;
    forall u ensures u in x.outbox <==> u in s.outbox && !Owed(s, op, u) {}
    forall u ensures u in y.outbox <==> u in s.outbox && !Owed(s, op, u) {}
    assert x.outbox.Keys == y.outbox.Keys by {
      forall u ensures u in x.outbox.Keys <==> u in y.outbox.Keys {}
    }
    forall u | u in x.outbox ensures u in y.outbox && x.outbox[u] == y.outbox[u] {
      assert u in x.outbox.Keys;
    }
    assert x.outbox == y.outbox;
  }

  lemma PartlyRefl(s: Store, op: OpId, result: string)
    requires op in s.reservations
    ensures Partly(s, op, result, s)
  {}

  /**
   Any number of finish calls, each cut off after any number of durable writes,
   followed by a complete one of the executor that owns the reservation, leave
   what one uninterrupted call leaves, and neither raises. A call of the other
   executor raises as long as the reservation is there, and writes nothing.
   */
  lemma FinishIsResumable(s: Store, op: OpId, result: string, calls: seq<Call>, executor: Executor, now: int, now': int)
    requires Inv(s) && AllStarted(s, op) && executor == s.reservations[op].executor
    ensures var c := AfterCalls(s, op, result, calls);
            var once := FinishCall(s, executor, op, result, now);
            var last := FinishCall(c, executor, op, result, now');
            once.ok && last.ok && SameUpToTimes(Replay(c, last.writes), Replay(s, once.writes))
    ensures var c := AfterCalls(s, op, result, calls);
            forall e :: e != executor ==>
              var other := FinishCall(c, e, op, result, now'); other.writes == [] && (other.ok <==> op !in c.reservations)
  {
    PartlyRefl(s, op, result);
    CallsStay(s, op, result, s, calls);
    var c := AfterCalls(s, op, result, calls);
    CallStays(s, executor, op, result, s, now);
    CallStays(s, executor, op, result, c, now');
    CompleteIsUnique(s, op, result, Replay(c, FinishCall(c, executor, op, result, now').writes), Replay(s, FinishCall(s, executor, op, result, now).writes));
  }

  /** The reservation disappears only once every participant's last operation is this one. */
  lemma ReservationGoesLast(s: Store, op: OpId, result: string, calls: seq<Call>, p: Participant)
    requires Inv(s) && AllStarted(s, op) && Reserves(s, op, p) && op !in AfterCalls(s, op, result, calls).reservations
    ensures var c := AfterCalls(s, op, result, calls); p.session in c.sessions && c.sessions[p.session].lastOp == Some(op)
  {
    PartlyRefl(s, op, result);
    CallsStay(s, op, result, s, calls);
    PartlyParticipant(s, op, result, AfterCalls(s, op, result, calls), p);
    assert !Owes(AfterCalls(s, op, result, calls), op, p.session);
  }

  // ---------- what each executed write settles ----------

  /** The candidates that a write takes out of a running batch or marks finished. */
  function Takes(s: Store, w: Write): set<Uid> {
    match w
    case PutSession(sid, st, fate) =>
      (if sid in s.sessions then Uids(s.sessions[sid].current) - Uids(st.current) else {}) +
      (match fate case Finished(us) => us case _ => {})
    case _ => {}
  }

  /** What the first `power` writes settle, counted write by write. */
  function Settlements(s: Store, ws: seq<Write>, power: nat): multiset<Uid>
    decreases |ws|
  {
    if ws == [] || power == 0 then multiset{}
    else multiset(Takes(s, ws[0])) + Settlements(Apply(s, ws[0]), ws[1..], power - 1)
  }

  /** The candidates of the operation that are still to be settled. */
  function OwedUids(s: Store, op: OpId): set<Uid> {
    set a, j | a in s.sessions && Owes(s, op, a) && j in s.sessions[a].current :: j.uid
  }

  /** Each write settles a part of what is owed, and the rest stays owed. */
  ghost predicate Pays(s: Store, op: OpId, ws: seq<Write>)
    decreases |ws|
  {
    ws == [] || (multiset(OwedUids(s, op)) == multiset(Takes(s, ws[0])) + multiset(OwedUids(Apply(s, ws[0]), op)) && Pays(Apply(s, ws[0]), op, ws[1..]))
  }

  lemma {:induction false} PaysAppend(s: Store, op: OpId, xs: seq<Write>, ys: seq<Write>)
    requires Pays(s, op, xs) && Pays(Replay(s, xs), op, ys)
    ensures Pays(s, op, xs + ys)
    decreases |xs|
  {
    if xs == [] {
      assert xs + ys == ys;
    } else {
      FirstOfBoth(xs, ys);
      PaysAppend(Apply(s, xs[0]), op, xs[1..], ys);
    }
  }

  /** What is owed before is what the executed writes settle and what is owed after. */
  lemma {:induction false} PaidUp(s: Store, op: OpId, ws: seq<Write>, power: nat)
    requires Pays(s, op, ws)
    ensures multiset(OwedUids(s, op)) == Settlements(s, ws, power) + multiset(OwedUids(Cut(s, ws, power), op))
    decreases |ws|
  {
    if ws != [] && power > 0 {
      PaidUp(Apply(s, ws[0]), op, ws[1..], power - 1);
      if power < |ws| {
        assert ws[..power][1..] == ws[1..][..power - 1];
      }
    }
  }

  lemma QuietPays(s: Store, op: OpId, w: Write)
    requires !w.PutSession?
    ensures multiset(OwedUids(s, op)) == multiset(Takes(s, w)) + multiset(OwedUids(Apply(s, w), op))
  {
    assert Apply(s, w).sessions == s.sessions;
    assert OwedUids(Apply(s, w), op) == OwedUids(s, op);
  }

  lemma {:induction false} DropsPay(s: Store, op: OpId, jobs: seq<Job>)
    ensures Pays(s, op, DropRecords(jobs))
    decreases |jobs|
  {
    if jobs != [] {
      var ws := DropRecords(jobs);
      var s1 := Apply(s, ws[0]);
      QuietPays(s, op, ws[0]);
      QuietPays(s1, op, ws[1]);
      assert ws[1..][1..] == DropRecords(jobs[1..]) && ws[1..][0] == ws[1];
      DropsPay(Apply(s1, ws[1]), op, jobs[1..]);
    }
  }

  /** Candidates of different sessions differ. */
  ghost predicate SessionsApart(s: Store, op: OpId) {
    forall a, b, u :: a != b && OwesUid(s, op, a, u) && b in s.sessions ==> u !in Uids(s.sessions[b].current)
  }

  lemma OwedApart(s: Store, op: OpId, result: string, c: Store)
    requires Inv(s) && Partly(s, op, result, c)
    ensures SessionsApart(c, op)
  {
    forall a, b, u | a != b && OwesUid(c, op, a, u) && b in c.sessions ensures u !in Uids(c.sessions[b].current) {
      assert OwesUid(s, op, a, u) && SessionOk(s.sessions[a]) && SessionOk(s.sessions[b]);
      assert u in Uids(Live(s.sessions[a])) && Accepts(s, a, u);
      if u in Uids(c.sessions[b].current) {
        assert u in Uids(Live(s.sessions[b])) && Accepts(s, b, u);
      }
    }
  }

  /** The write that finishes a session settles its batch and nothing else. */
  lemma SettlingPays(c: Store, op: OpId, result: string, sid: SessionId, now: int)
    requires SessionsApart(c, op) && Owes(c, op, sid)
    ensures var st := c.sessions[sid];
            var w := PutSession(sid, FinishedState(st, op, result, now), Finished(Uids(st.current)));
            multiset(OwedUids(c, op)) == multiset(Takes(c, w)) + multiset(OwedUids(Apply(c, w), op))
  {
    var st := c.sessions[sid];
    var mine := Uids(st.current);
    var d := Apply(c, PutSession(sid, FinishedState(st, op, result, now), Finished(mine)));
    assert Uids([]) == {};
    forall u ensures u in OwedUids(c, op) <==> u in mine || u in OwedUids(d, op) {
      OwedWhere(c, op, u);
      OwedWhere(d, op, u);
      assert forall a :: OwesUid(d, op, a, u) <==> a != sid && OwesUid(c, op, a, u);
    }
    forall u | u in mine ensures u !in OwedUids(d, op) {
      OwedWhere(d, op, u);
      assert OwesUid(c, op, sid, u);
    }
    assert OwedUids(c, op) == mine + OwedUids(d, op) && mine !! OwedUids(d, op);
  }

  lemma OwedWhere(s: Store, op: OpId, u: Uid)
    ensures u in OwedUids(s, op) <==> exists a :: OwesUid(s, op, a, u)
  {
    if a :| OwesUid(s, op, a, u) {
      assert exists j :: j in s.sessions[a].current && j.uid == u;
    }
    if u in OwedUids(s, op) {
      var a, j :| a in s.sessions && Owes(s, op, a) && j in s.sessions[a].current && j.uid == u;
      assert OwesUid(s, op, a, u);
    }
  }

  lemma FinishOnePays(s: Store, executor: Executor, op: OpId, result: string, c: Store, p: Participant, now: int)
    requires Inv(s) && AllStarted(s, op) && Reserves(s, op, p) && Partly(s, op, result, c) && c.reservations == s.reservations
    ensures Pays(c, op, FinishPlan(c, executor, op, p, result, now).writes)
  {
    PartlyParticipant(s, op, result, c, p);
    if !Acknowledged(c.sessions[p.session], op) {
      var st := c.sessions[p.session];
      var drops := DropRecords(st.current);
      var last := PutSession(p.session, FinishedState(st, op, result, now), Finished(Uids(st.current)));
      OwedUnmarked(s, op, p.session);
      DropsStay(s, op, result, c, p.session, st.current);
      DropsPay(c, op, st.current);
      var d := Replay(c, drops);
      OwedApart(s, op, result, d);
      SettlingPays(d, op, result, p.session, now);
      assert [last][1..] == [];
      PaysAppend(c, op, drops, [last]);
    }
  }

  lemma {:induction false} FinishAllPays(s: Store, executor: Executor, op: OpId, result: string, c: Store, items: seq<Participant>, now: int)
    requires Inv(s) && AllStarted(s, op) && (forall p :: p in items ==> Reserves(s, op, p)) && Partly(s, op, result, c) && c.reservations == s.reservations
    ensures Pays(c, op, FinishAllPlan(c, executor, op, items, result, now).writes)
    decreases |items|
  {
    if items != [] {
      var first := FinishPlan(c, executor, op, items[0], result, now);
      FinishOneStays(s, executor, op, result, c, items[0], now);
      FinishOnePays(s, executor, op, result, c, items[0], now);
      var c1 := Replay(c, first.writes);
      FinishAllPays(s, executor, op, result, c1, items[1..], now);
      PaysAppend(c, op, first.writes, FinishAllPlan(c1, executor, op, items[1..], result, now).writes);
    }
  }

  lemma CallPays(s: Store, executor: Executor, op: OpId, result: string, c: Store, now: int)
    requires Inv(s) && AllStarted(s, op) && Partly(s, op, result, c)
    ensures Pays(c, op, FinishCall(c, executor, op, result, now).writes)
  {
    if op in c.reservations && executor == c.reservations[op].executor {
      var items := s.reservations[op].participants;
      FinishAllPays(s, executor, op, result, c, items, now);
      var all := FinishAllPlan(c, executor, op, items, result, now);
      var d := Replay(c, all.writes);
      var last := ClearPlan(d, op, executor).writes;
      QuietPays(d, op, DropReservation(op));
      assert last != [] ==> last == [DropReservation(op)] && last[1..] == [];
      PaysAppend(c, op, all.writes, last);
    }
  }

  /** The candidates that the i-th call settles: those its executed writes take out of a batch or mark finished. */
  function SettledBy(s: Store, op: OpId, result: string, calls: seq<Call>, i: nat): multiset<Uid>
    requires i < |calls|
  {
    var c := AfterCalls(s, op, result, calls[..i]);
    Settlements(c, FinishCall(c, calls[i].executor, op, result, calls[i].now).writes, calls[i].power)
  }

  /** All that the first `n` calls settle, counted call by call and write by write. */
  function SettledUpTo(s: Store, op: OpId, result: string, calls: seq<Call>, n: nat): multiset<Uid>
    requires n <= |calls|
  {
    if n == 0 then multiset{} else SettledUpTo(s, op, result, calls, n - 1) + SettledBy(s, op, result, calls, n - 1)
  }

  lemma {:induction false} CallsSplit(s: Store, op: OpId, result: string, xs: seq<Call>, ys: seq<Call>)
    ensures AfterCalls(s, op, result, xs + ys) == AfterCalls(AfterCalls(s, op, result, xs), op, result, ys)
    decreases |xs|
  {
    if xs == [] {
      assert xs + ys == ys;
    } else {
      FirstOfBoth(xs, ys);
      CallsSplit(AfterCall(s, op, result, xs[0]), op, result, xs[1..], ys);
    }
  }

  lemma OneCallMore(s: Store, op: OpId, result: string, calls: seq<Call>, i: nat)
    requires i < |calls|
    ensures AfterCalls(s, op, result, calls[..i + 1]) == AfterCall(AfterCalls(s, op, result, calls[..i]), op, result, calls[i])
  {
    TakeOne(calls, i);
    CallsSplit(s, op, result, calls[..i], [calls[i]]);
    assert [calls[i]][1..] == [];
  }

  /** What was owed at first is what the first `n` calls have settled and what is still owed. */
  ghost predicate Balanced(s: Store, op: OpId, result: string, calls: seq<Call>, n: nat)
    requires n <= |calls|
  {
    multiset(OwedUids(s, op)) == SettledUpTo(s, op, result, calls, n) + multiset(OwedUids(AfterCalls(s, op, result, calls[..n]), op))
  }

  lemma {:induction false} SettledAndOwed(s: Store, op: OpId, result: string, calls: seq<Call>, n: nat)
    requires Inv(s) && AllStarted(s, op) && n <= |calls|
    ensures Balanced(s, op, result, calls, n)
  {
    if n == 0 {
      assert calls[..0] == [];
    } else {
      SettledAndOwed(s, op, result, calls, n - 1);
      BalancedNext(s, op, result, calls, n - 1);
    }
  }

  lemma BalancedNext(s: Store, op: OpId, result: string, calls: seq<Call>, i: nat)
    requires Inv(s) && AllStarted(s, op) && i < |calls| && Balanced(s, op, result, calls, i)
    ensures Balanced(s, op, result, calls, i + 1)
  {
    NextCallPays(s, op, result, calls, i);
    StaysBalanced(s, op, result, calls, i);
  }

  lemma StaysBalanced(s: Store, op: OpId, result: string, calls: seq<Call>, i: nat)
    requires i < |calls| && Balanced(s, op, result, calls, i)
    requires multiset(OwedUids(AfterCalls(s, op, result, calls[..i]), op))
          == SettledBy(s, op, result, calls, i) + multiset(OwedUids(AfterCalls(s, op, result, calls[..i + 1]), op))
    ensures Balanced(s, op, result, calls, i + 1)
  {}

  lemma NextCallPays(s: Store, op: OpId, result: string, calls: seq<Call>, i: nat)
    requires Inv(s) && AllStarted(s, op) && i < |calls|
    ensures multiset(OwedUids(AfterCalls(s, op, result, calls[..i]), op))
         == SettledBy(s, op, result, calls, i) + multiset(OwedUids(AfterCalls(s, op, result, calls[..i + 1]), op))
  {
    var call := calls[i];
    var c := AfterCalls(s, op, result, calls[..i]);
    PartlyRefl(s, op, result);
    CallsStay(s, op, result, s, calls[..i]);
    CallPays(s, call.executor, op, result, c, call.now);
    PaidUp(c, op, FinishCall(c, call.executor, op, result, call.now).writes, call.power);
    OneCallMore(s, op, result, calls, i);
  }

  /** Once a call has completed, the calls have settled every owed candidate exactly once, and nothing else. */
  lemma SettledExactlyOnce(s: Store, op: OpId, result: string, calls: seq<Call>)
    requires Inv(s) && AllStarted(s, op) && calls != []
    requires var last := calls[|calls| - 1];
             var c := AfterCalls(s, op, result, calls[..|calls| - 1]);
             last.executor == s.reservations[op].executor && last.power >= |FinishCall(c, last.executor, op, result, last.now).writes|
    ensures SettledUpTo(s, op, result, calls, |calls|) == multiset(OwedUids(s, op))
  {
    var n := |calls| - 1;
    var last := calls[n];
    var c := AfterCalls(s, op, result, calls[..n]);
    var ws := FinishCall(c, last.executor, op, result, last.now).writes;
    SettledAndOwed(s, op, result, calls, |calls|);
    PartlyRefl(s, op, result);
    CallsStay(s, op, result, s, calls[..n]);
    CallStays(s, last.executor, op, result, c, last.now);
    OneCallMore(s, op, result, calls, n);
    TakeAll(calls);
    var d := Replay(c, ws);
    NothingOwed(s, op, result, d);
  }

  lemma NothingOwed(s: Store, op: OpId, result: string, d: Store)
    requires Inv(s) && op in s.reservations && Complete(s, op, result, d)
    ensures OwedUids(d, op) == {}
  {
    forall u ensures u !in OwedUids(d, op) {
      OwedWhere(d, op, u);
    }
  }

  lemma CountOneMore(s: Store, op: OpId, result: string, calls: seq<Call>, n: nat, u: Uid)
    requires n < |calls|
    ensures SettledUpTo(s, op, result, calls, n + 1)[u] == SettledUpTo(s, op, result, calls, n)[u] + SettledBy(s, op, result, calls, n)[u]
  {}

  lemma {:induction false} EarlierIsCounted(s: Store, op: OpId, result: string, calls: seq<Call>, i: nat, n: nat, u: Uid)
    requires i < n <= |calls|
    ensures SettledBy(s, op, result, calls, i)[u] <= SettledUpTo(s, op, result, calls, n)[u]
  {
    CountOneMore(s, op, result, calls, n - 1, u);
    if i < n - 1 {
      EarlierIsCounted(s, op, result, calls, i, n - 1, u);
    }
  }

  lemma AtMostOnceInAll(s: Store, op: OpId, result: string, calls: seq<Call>, n: nat, u: Uid)
    requires Inv(s) && AllStarted(s, op) && n <= |calls|
    ensures SettledUpTo(s, op, result, calls, n)[u] <= 1
  {
    SettledAndOwed(s, op, result, calls, n);
    assert multiset(OwedUids(s, op))[u] <= 1;
  }

  /** No candidate is settled by two calls, nor twice by one. */
  lemma SettledOnce(s: Store, op: OpId, result: string, calls: seq<Call>, i: nat, k: nat, u: Uid)
    requires Inv(s) && AllStarted(s, op) && i < k < |calls|
    ensures SettledBy(s, op, result, calls, i)[u] + SettledBy(s, op, result, calls, k)[u] <= 1
  {
    AtMostOnceInAll(s, op, result, calls, k + 1, u);
    CountOneMore(s, op, result, calls, k, u);
    EarlierIsCounted(s, op, result, calls, i, k, u);
  }
}
