/** What each operation leaves when it is not cut off, on the fields that a user of the queue sees. */
module UpdateQueueEffects {
  import opened Common
  import opened UpdateQueue
  import opened UpdateQueueInvariant
  import opened UpdateQueueSafety
  import opened UpdateQueueBatches
  import opened UpdateQueueFinish
  import opened UpdateQueueSubmit
  import opened UpdateQueueRuns
  import opened UpdateQueueStore

  // ---------- no session is stranded ----------

  /** A timer or a person will bring the session's waiting candidates back. */
  predicate HasWayOn(st: Session) {
    || (st.status == Running && st.phase == WaitingPhase && st.nextFlushAt.Some?)
    || (st.status == Failed && st.nextRetryAt.Some?)
    || st.status == ManualRecovery
  }

  /** In every reachable state a session that holds candidates runs them, or waits with its time set, or needs a person. */
  lemma NothingIsStranded(s: Store, sid: SessionId)
    requires Reachable(s) && sid in s.sessions
    ensures var st := s.sessions[sid];
            && (st.current == [] && st.pending != [] ==> HasWayOn(st))
            && (st.current != [] ==> (st.status == Running && st.phase == RunningPhase && st.currentOp.Some?) || (st.status == Failed && st.nextRetryAt.Some?) || st.status == ManualRecovery)
  {
    ReachableInv(s);
    assert SessionOk(s.sessions[sid]);
  }

  // ---------- finish ----------

  /** Settled, and what waits without a flush time gets one an hour from now. */
  predicate LeftByFinish(st: Session, st': Session, op: OpId, result: string, now: int) {
    Settles(st, st', op, result) && (st.pending != [] && st.nextFlushAt == None ==> st'.nextFlushAt == Some(now + 3600))
  }

  lemma {:induction false} DropsOnlyRecords(s: Store, jobs: seq<Job>)
    ensures Replay(s, DropRecords(jobs)) == s.(outbox := s.outbox - Uids(jobs), markers := s.markers - Uids(jobs))
    decreases |jobs|
  {
    if jobs != [] {
      var s1 := Apply(Apply(s, DropOutbox(jobs[0].uid)), DropMarker(jobs[0].uid));
      DropRecordsFirst(jobs);
      UidsFirst(jobs);
      DropsOnlyRecords(s1, jobs[1..]);
    }
  }

  /** Finishing one participant: its session, the records of its candidates, and nothing else. */
  lemma FinishLeaves(s: Store, executor: Executor, op: OpId, item: Participant, result: string, now: int)
    requires item.session in s.sessions && item.jobs != []
    requires s.sessions[item.session].current == item.jobs && s.sessions[item.session].currentOp == Some(op)
    ensures var plan := FinishPlan(s, executor, op, item, result, now);
            var t := Replay(s, plan.writes);
            && plan.ok && item.session in t.sessions
            && LeftByFinish(s.sessions[item.session], t.sessions[item.session], op, result, now)
            && t == s.(sessions := s.sessions[item.session := t.sessions[item.session]],
                       outbox := s.outbox - Uids(item.jobs), markers := s.markers - Uids(item.jobs), finished := s.finished + Uids(item.jobs))
  {
    var st := s.sessions[item.session];
    var last := PutSession(item.session, FinishedState(st, op, result, now), Finished(Uids(st.current)));
    DropsOnlyRecords(s, st.current);
    ReplayAppend(s, DropRecords(st.current), [last]);
    ReplayOne(Replay(s, DropRecords(st.current)), last);
  }

  /** A checked read that finds the operation's terminal outcome finishes the session with that outcome. */
  lemma TerminalLeaves(s: Store, sid: SessionId, result: string, now: int)
    requires sid in s.sessions && s.sessions[sid].current != [] && s.sessions[sid].currentOp.Some?
    ensures var plan := TerminalPlan(s, sid, result, now);
            var t := Replay(s, plan.writes);
            && plan.ok && sid in t.sessions
            && LeftByFinish(s.sessions[sid], t.sessions[sid], s.sessions[sid].currentOp.value, result, now)
            && t == s.(sessions := s.sessions[sid := t.sessions[sid]], finished := s.finished + Uids(s.sessions[sid].current))
  {
    var plan := TerminalPlan(s, sid, result, now);
    ReplayOne(s, plan.writes[0]);
  }

  /** The session runs its share of the operation. */
  predicate RunsShare(s: Store, op: OpId, p: Participant) {
    p.session in s.sessions && p.jobs != [] && s.sessions[p.session].current == p.jobs && s.sessions[p.session].currentOp == Some(op)
  }

  predicate HasFinished(s: Store, op: OpId, p: Participant) {
    p.session in s.sessions && s.sessions[p.session].current == [] && s.sessions[p.session].lastOp == Some(op)
  }

  /** One of these participants still runs the candidate. */
  ghost predicate RunBySome(s: Store, op: OpId, items: seq<Participant>, u: Uid) {
    exists p :: p in items && RunsShare(s, op, p) && u in Uids(p.jobs)
  }

  /** `t` is `s` with these participants finished at `now`. */
  ghost predicate AllLeft(s: Store, t: Store, op: OpId, items: seq<Participant>, result: string, now: int) {
    && t.reservations == s.reservations && t.sessions.Keys == s.sessions.Keys
    && (forall p :: p in items && RunsShare(s, op, p) ==> LeftByFinish(s.sessions[p.session], t.sessions[p.session], op, result, now))
    && (forall a :: a in s.sessions && (forall p :: p in items && RunsShare(s, op, p) ==> p.session != a) ==> t.sessions[a] == s.sessions[a])
    && (forall u :: u in t.outbox <==> u in s.outbox && !RunBySome(s, op, items, u))
    && (forall u :: u in t.markers <==> u in s.markers && !RunBySome(s, op, items, u))
  }

  lemma LeftOne(s: Store, executor: Executor, op: OpId, p: Participant, result: string, now: int)
    requires RunsShare(s, op, p) || HasFinished(s, op, p)
    ensures var plan := FinishPlan(s, executor, op, p, result, now); plan.ok && AllLeft(s, Replay(s, plan.writes), op, [p], result, now)
  {
    assert p in [p];
    if HasFinished(s, op, p) {
      assert forall u :: !RunBySome(s, op, [p], u);
    } else {
      FinishLeaves(s, executor, op, p, result, now);
      assert forall u :: RunBySome(s, op, [p], u) <==> u in Uids(p.jobs);
    }
  }

  lemma LeftAlone(s: Store, m: Store, op: OpId, p: Participant, q: Participant, result: string, now: int)
    requires AllLeft(s, m, op, [p], result, now) && q.session != p.session
    ensures RunsShare(m, op, q) <==> RunsShare(s, op, q)
    ensures HasFinished(m, op, q) <==> HasFinished(s, op, q)
  {
    assert forall r :: r in [p] ==> r == p;
    assert q.session in s.sessions ==> m.sessions[q.session] == s.sessions[q.session];
  }

  lemma LeftMore(s: Store, m: Store, t: Store, op: OpId, p: Participant, rest: seq<Participant>, result: string, now: int)
    requires AllLeft(s, m, op, [p], result, now) && AllLeft(m, t, op, rest, result, now)
    requires forall q :: q in rest ==> q.session != p.session
    ensures AllLeft(s, t, op, [p] + rest, result, now)
  {
    assert p in [p];
    forall q | q in rest ensures RunsShare(m, op, q) <==> RunsShare(s, op, q) {
      assert q.session in s.sessions ==> m.sessions[q.session] == s.sessions[q.session];
    }
    LeftTogether(s, m, op, p, rest);
    forall q | q in [p] + rest && RunsShare(s, op, q) ensures LeftByFinish(s.sessions[q.session], t.sessions[q.session], op, result, now) {
      if q == p {
        assert t.sessions[p.session] == m.sessions[p.session];
      } else {
        assert q in rest && m.sessions[q.session] == s.sessions[q.session];
      }
    }
    forall a | a in s.sessions && (forall q :: q in [p] + rest && RunsShare(s, op, q) ==> q.session != a) ensures t.sessions[a] == s.sessions[a] {
      assert p in [p] + rest;
      assert forall q :: q in rest ==> q in [p] + rest;
    }
  }

  lemma LeftTogether(s: Store, m: Store, op: OpId, p: Participant, rest: seq<Participant>)
    requires forall q :: q in rest ==> (RunsShare(m, op, q) <==> RunsShare(s, op, q))
    ensures forall u :: RunBySome(s, op, [p] + rest, u) <==> RunBySome(s, op, [p], u) || RunBySome(m, op, rest, u)
  {
    forall u ensures RunBySome(s, op, [p] + rest, u) <==> RunBySome(s, op, [p], u) || RunBySome(m, op, rest, u) {
      if RunBySome(s, op, [p], u) {
        assert p in [p] + rest;
      }
      if RunBySome(m, op, rest, u) {
        var q :| q in rest && RunsShare(m, op, q) && u in Uids(q.jobs);
        assert q in [p] + rest;
      }
      if RunBySome(s, op, [p] + rest, u) {
        var q :| q in [p] + rest && RunsShare(s, op, q) && u in Uids(q.jobs);
        assert q == p || q in rest;
        assert p in [p];
      }
    }
  }

  lemma RestIsReady(s: Store, m: Store, op: OpId, items: seq<Participant>, result: string, now: int)
    requires items != [] && SortedSessions(items) && AllLeft(s, m, op, [items[0]], result, now)
    requires forall p :: p in items ==> RunsShare(s, op, p) || HasFinished(s, op, p)
    ensures forall q :: q in items[1..] ==> q.session != items[0].session && (RunsShare(m, op, q) || HasFinished(m, op, q))
  {
    forall q | q in items[1..] ensures q.session != items[0].session && (RunsShare(m, op, q) || HasFinished(m, op, q)) {
      var i :| 0 <= i < |items| - 1 && items[1..][i] == q;
      assert items[i + 1] == q && q in items;
      LeftAlone(s, m, op, items[0], q, result, now);
    }
  }

  lemma FirstThenRest(s: Store, executor: Executor, op: OpId, items: seq<Participant>, result: string, now: int, first: Plan, m: Store, rest: Plan)
    requires items != [] && first == FinishPlan(s, executor, op, items[0], result, now) && first.ok && m == Replay(s, first.writes)
    requires rest == FinishAllPlan(m, executor, op, items[1..], result, now)
    ensures var plan := FinishAllPlan(s, executor, op, items, result, now);
            plan.ok == rest.ok && Replay(s, plan.writes) == Replay(m, rest.writes)
  {
    ReplayAppend(s, first.writes, rest.writes);
  }

  lemma {:induction false} FinishAllLeaves(s: Store, executor: Executor, op: OpId, items: seq<Participant>, result: string, now: int)
    requires SortedSessions(items) && forall p :: p in items ==> RunsShare(s, op, p) || HasFinished(s, op, p)
    ensures var plan := FinishAllPlan(s, executor, op, items, result, now);
            plan.ok && AllLeft(s, Replay(s, plan.writes), op, items, result, now)
    decreases |items|
  {
    if items == [] {
      assert forall u :: !RunBySome(s, op, items, u);
    } else {
      var p := items[0];
      LeftOne(s, executor, op, p, result, now);
      var first := FinishPlan(s, executor, op, p, result, now);
      var m := Replay(s, first.writes);
      RestIsReady(s, m, op, items, result, now);
      FinishAllLeaves(m, executor, op, items[1..], result, now);
      var rest := FinishAllPlan(m, executor, op, items[1..], result, now);
      FirstThenRest(s, executor, op, items, result, now, first, m, rest);
      LeftMore(s, m, Replay(m, rest.writes), op, p, items[1..], result, now);
      assert items == [p] + items[1..];
    }
  }

  /**
   A complete finish of a started batch: the reservation is gone, and every
   session that ran its share is left finished; no other session, reservation,
   outbox record or marker has changed.
   */
  lemma FinishCallLeaves(s: Store, executor: Executor, op: OpId, result: string, now: int)
    requires Inv(s) && AllStarted(s, op) && executor == s.reservations[op].executor
    ensures var plan := FinishCall(s, executor, op, result, now);
            var t := Replay(s, plan.writes);
            plan.ok && t.reservations == s.reservations - {op}
            && AllLeft(s, t.(reservations := s.reservations), op, s.reservations[op].participants, result, now)
  {
    var items := s.reservations[op].participants;
    assert WellFormed(op, items);
    forall p | p in items ensures RunsShare(s, op, p) || HasFinished(s, op, p) {
      StartedOrFinished(s, op, p);
    }
    FinishAllLeaves(s, executor, op, items, result, now);
    var all := FinishAllPlan(s, executor, op, items, result, now);
    var d := Replay(s, all.writes);
    forall p | p in items ensures p.session in d.sessions && d.sessions[p.session].lastOp == Some(op) {
      FinishedLast(s, d, op, items, p, result, now);
    }
    ReplayAppend(s, all.writes, [DropReservation(op)]);
    ReplayOne(d, DropReservation(op));
  }

  lemma StartedOrFinished(s: Store, op: OpId, p: Participant)
    requires Inv(s) && AllStarted(s, op) && Reserves(s, op, p)
    ensures RunsShare(s, op, p) || HasFinished(s, op, p)
  {
    assert WellFormed(op, s.reservations[op].participants);
    assert ParticipantOk(s.sessions[p.session], op, p);
  }

  lemma FinishedLast(s: Store, d: Store, op: OpId, items: seq<Participant>, p: Participant, result: string, now: int)
    requires SortedSessions(items) && p in items && (RunsShare(s, op, p) || HasFinished(s, op, p)) && AllLeft(s, d, op, items, result, now)
    ensures p.session in d.sessions && d.sessions[p.session].lastOp == Some(op)
  {
    if !RunsShare(s, op, p) {
      forall q | q in items && RunsShare(s, op, q) ensures q.session != p.session {
        assert s.sessions[p.session].current == [];
      }
    }
  }

  // ---------- fail, start again, park, requeue ----------

  /** The batch, the queue and the operations of the session are as before. */
  predicate SameWork(st: Session, st': Session) {
    && st'.current == st.current && st'.pending == st.pending && st'.accepted == st.accepted && st'.nextId == st.nextId
    && st'.currentOp == st.currentOp && st'.lastOp == st.lastOp && st'.executor == st.executor && st'.result == st.result
  }

  /** The first failure is retried after an hour, a further one waits for a person. */
  predicate LeftByFailure(st: Session, st': Session, now: int) {
    && SameWork(st, st') && st'.phase == NoPhase && st'.attempts == st.attempts + 1
    && (st.attempts == 0 ==> st'.status == Failed && st'.nextRetryAt == Some(now + 3600))
    && (st.attempts > 0 ==> st'.status == ManualRecovery && st'.nextRetryAt == None)
    && (st.current == [] || st.pending == [] ==> st'.nextFlushAt == None)
    && (st.current != [] && st.pending != [] ==> st'.nextFlushAt == st.nextFlushAt)
  }

  lemma FailLeaves(s: Store, executor: Executor, op: OpId, item: Participant, now: int)
    requires RunsShare(s, op, item)
    ensures var plan := FailParticipantPlan(s, executor, op, item, now);
            var t := Replay(s, plan.writes);
            && plan.ok && item.session in t.sessions && t == s.(sessions := s.sessions[item.session := t.sessions[item.session]])
            && LeftByFailure(s.sessions[item.session], t.sessions[item.session], now)
  {
    ReplayOne(s, FailParticipantPlan(s, executor, op, item, now).writes[0]);
  }

  /** A session without a batch of its own fails the same way, when its worker dies. */
  lemma FailSessionLeaves(s: Store, executor: Executor, sid: SessionId, now: int)
    requires sid in s.sessions
    ensures var plan := FailPlan(s, executor, sid, now);
            var t := Replay(s, plan.writes);
            && plan.ok && sid in t.sessions && t == s.(sessions := s.sessions[sid := t.sessions[sid]])
            && LeftByFailure(s.sessions[sid], t.sessions[sid], now)
  {
    ReplayOne(s, FailPlan(s, executor, sid, now).writes[0]);
  }

  /** The batch runs again with the attempts it has used. */
  lemma RestartLeaves(s: Store, executor: Executor, op: OpId, item: Participant)
    requires RunsShare(s, op, item)
    ensures var plan := StartPlan(s, executor, op, item);
            var t := Replay(s, plan.writes);
            plan.ok && item.session in t.sessions &&
            var st, st' := s.sessions[item.session], t.sessions[item.session];
            && t == s.(sessions := s.sessions[item.session := st'])
            && SameWork(st.(result := None), st') && st'.status == Running && st'.phase == RunningPhase
            && st'.attempts == st.attempts && st'.nextFlushAt == st.nextFlushAt
  {
    ReplayOne(s, StartPlan(s, executor, op, item).writes[0]);
  }

  /** A waiting session starts: the share leaves the front of pending and is the batch; what stays keeps its flush time. */
  lemma StartLeaves(s: Store, executor: Executor, op: OpId, item: Participant)
    requires item.session in s.sessions && item.jobs != [] && s.sessions[item.session].lastOp != Some(op)
    requires s.sessions[item.session].current == [] && s.sessions[item.session].currentOp == None
    requires item.jobs <= s.sessions[item.session].pending
    ensures var plan := StartPlan(s, executor, op, item);
            var t := Replay(s, plan.writes);
            plan.ok && item.session in t.sessions &&
            var st, st' := s.sessions[item.session], t.sessions[item.session];
            && t == s.(sessions := s.sessions[item.session := st'])
            && st'.current == item.jobs && item.jobs + st'.pending == st.pending && st'.currentOp == Some(op) && st'.lastOp == st.lastOp
            && st'.status == Running && st'.phase == RunningPhase && st'.result == None
            && st'.attempts == st.attempts && st'.accepted == st.accepted && st'.nextId == st.nextId && st'.executor == st.executor
            && (st'.pending == [] ==> st'.nextFlushAt == None) && (st'.pending != [] ==> st'.nextFlushAt == st.nextFlushAt)
  {
    var st := s.sessions[item.session];
    assert st.pending[..|item.jobs|] == item.jobs;
    ReplayOne(s, StartPlan(s, executor, op, item).writes[0]);
  }

  /** What a person's retry requeues is due at once, with fresh attempts. */
  lemma RetryLeaves(s: Store, executor: Executor, sid: SessionId, now: int)
    requires sid in s.sessions
    ensures var plan := RetryPlan(s, executor, sid, now);
            var t := Replay(s, plan.writes);
            var st := s.sessions[sid];
            && plan.ok && sid in t.sessions && t == s.(sessions := s.sessions[sid := t.sessions[sid]])
            && (if st.executor == executor && st.status == ManualRecovery && (st.current != [] || st.pending != []) then
                  var st' := t.sessions[sid];
                  SameWork(st, st') && st'.status == Failed && st'.phase == NoPhase && st'.attempts == 0 && st'.nextRetryAt == Some(now) && st'.nextFlushAt == st.nextFlushAt
                else t == s)
  {
    var plan := RetryPlan(s, executor, sid, now);
    if plan.writes != [] {
      ReplayOne(s, plan.writes[0]);
    } else {
      assert s.sessions[sid := s.sessions[sid]] == s.sessions;
    }
  }

  /** If the worker then does not start, the session needs a person again. */
  lemma RestoreLeaves(s: Store, executor: Executor, sid: SessionId)
    requires sid in s.sessions && (s.sessions[sid].current != [] || s.sessions[sid].pending != [])
    ensures var plan := RestoreManualPlan(s, executor, sid);
            var t := Replay(s, plan.writes);
            plan.ok && sid in t.sessions &&
            var st, st' := s.sessions[sid], t.sessions[sid];
            && t == s.(sessions := s.sessions[sid := st'])
            && SameWork(st, st') && st'.status == ManualRecovery && st'.phase == NoPhase && st'.nextRetryAt == None
            && st'.attempts >= 2 && st'.attempts >= st.attempts && st'.nextFlushAt == st.nextFlushAt
  {
    ReplayOne(s, RestoreManualPlan(s, executor, sid).writes[0]);
  }

  /**
   A batch that fails twice in a row is retried once, after an hour, and then
   parked; requeued by a person it is due at once. Through all of it the session
   holds the same candidates.
   */
  lemma SecondFailureParks(s: Store, executor: Executor, op: OpId, item: Participant, first: int, second: int, third: int)
    requires RunsShare(s, op, item) && s.sessions[item.session].attempts == 0 && s.sessions[item.session].executor == executor
    ensures var a := Replay(s, FailParticipantPlan(s, executor, op, item, first).writes);
            var b := Replay(a, StartPlan(a, executor, op, item).writes);
            var c := Replay(b, FailParticipantPlan(b, executor, op, item, second).writes);
            var d := Replay(c, RetryPlan(c, executor, item.session, third).writes);
            && RunsShare(a, op, item) && RunsShare(b, op, item) && RunsShare(c, op, item) && RunsShare(d, op, item)
            && a.sessions[item.session].status == Failed && a.sessions[item.session].nextRetryAt == Some(first + 3600)
            && b.sessions[item.session].status == Running
            && c.sessions[item.session].status == ManualRecovery && c.sessions[item.session].nextRetryAt == None
            && d.sessions[item.session].status == Failed && d.sessions[item.session].nextRetryAt == Some(third)
            && d.sessions[item.session].pending == s.sessions[item.session].pending
  {
    FailLeaves(s, executor, op, item, first);
    var a := Replay(s, FailParticipantPlan(s, executor, op, item, first).writes);
    RestartLeaves(a, executor, op, item);
    var b := Replay(a, StartPlan(a, executor, op, item).writes);
    FailLeaves(b, executor, op, item, second);
    var c := Replay(b, FailParticipantPlan(b, executor, op, item, second).writes);
    RetryLeaves(c, executor, item.session, third);
  }

  // ---------- cancel ----------

  /** The candidate is still pending, not published, and in no live reservation of the session. */
  ghost predicate MayCancel(s: Store, sid: SessionId, id: int, job: Job) {
    && sid in s.sessions && job in s.sessions[sid].pending && job.id == id && job.uid !in s.markers
    && forall op, p, j :: Reserves(s, op, p) && p.session == sid && j in p.jobs ==> j.id != id
  }

  /** `rest` is `jobs` without `job`. */
  predicate IsWithout(jobs: seq<Job>, job: Job, rest: seq<Job>) {
    exists i :: 0 <= i < |jobs| && jobs[i] == job && rest == jobs[..i] + jobs[i + 1..]
  }

  lemma {:induction false} DropOneId(jobs: seq<Job>, id: int, reserved: set<int>, i: nat)
    requires Increasing(jobs) && i < |jobs| && jobs[i].id == id && id !in reserved
    ensures WithoutId(jobs, id, reserved) == jobs[..i] + jobs[i + 1..]
  {
    var keep := (j: Job) => j.id != id || j.id in reserved;
    assert jobs == jobs[..i] + ([jobs[i]] + jobs[i + 1..]);
    FilterAppend(keep, jobs[..i], [jobs[i]] + jobs[i + 1..]);
    FilterAppend(keep, [jobs[i]], jobs[i + 1..]);
    FilterAll(keep, jobs[..i]);
    FilterAll(keep, jobs[i + 1..]);
    assert [jobs[i]][1..] == [];
  }

  lemma {:induction false} DropNoId(jobs: seq<Job>, id: int, reserved: set<int>)
    requires id in reserved || forall j :: j in jobs ==> j.id != id
    ensures WithoutId(jobs, id, reserved) == jobs
  {
    FilterAll((j: Job) => j.id != id || j.id in reserved, jobs);
  }

  lemma ReservedIdsMean(s: Store, sid: SessionId, id: int)
    ensures id in ReservedIds(s, sid) <==> exists op, p, j :: Reserves(s, op, p) && p.session == sid && j in p.jobs && j.id == id
  {
    if id in ReservedIds(s, sid) {
      var op, p, j :| op in s.reservations && p in s.reservations[op].participants && p.session == sid && j in p.jobs && j.id == id;
      assert Reserves(s, op, p);
    }
  }

  /** `t` is `s` without this candidate in the queue and in the outbox. */
  predicate LeftByCancel(s: Store, t: Store, sid: SessionId, job: Job) {
    && sid in s.sessions && sid in t.sessions && IsWithout(s.sessions[sid].pending, job, t.sessions[sid].pending)
    && t == s.(sessions := s.sessions[sid := s.sessions[sid].(pending := t.sessions[sid].pending)],
               outbox := s.outbox - {job.uid}, cancelled := s.cancelled + {job.uid})
  }

  /** A candidate that may be cancelled leaves the queue and its outbox record goes; otherwise nothing changes. */
  lemma CancelLeaves(s: Store, executor: Executor, sid: SessionId, id: int)
    requires Inv(s) && sid in s.sessions && id >= 1
    ensures var plan := CancelPlan(s, executor, sid, id);
            var t := Replay(s, plan.writes);
            && plan.ok
            && (forall job :: MayCancel(s, sid, id, job) ==> LeftByCancel(s, t, sid, job))
            && ((forall job :: !MayCancel(s, sid, id, job)) ==> t == s)
  {
    if job :| MayCancel(s, sid, id, job) {
      forall other | MayCancel(s, sid, id, other) ensures LeftByCancel(s, Replay(s, CancelPlan(s, executor, sid, id).writes), sid, other) {
        CanCancel(s, executor, sid, id, other);
      }
      CanCancel(s, executor, sid, id, job);
    } else {
      CannotCancel(s, executor, sid, id);
    }
  }

  lemma PendingIncreases(s: Store, sid: SessionId)
    requires Inv(s) && sid in s.sessions
    ensures Increasing(s.sessions[sid].pending)
  {
    var st := s.sessions[sid];
    assert SessionOk(st);
    assert forall i :: 0 <= i < |st.pending| ==> st.pending[i] == Live(st)[|st.current| + i];
  }

  lemma CanCancel(s: Store, executor: Executor, sid: SessionId, id: int, job: Job)
    requires Inv(s) && id >= 1 && MayCancel(s, sid, id, job)
    ensures var plan := CancelPlan(s, executor, sid, id); plan.ok && LeftByCancel(s, Replay(s, plan.writes), sid, job)
  {
    var st := s.sessions[sid];
    PendingIncreases(s, sid);
    ReservedIdsMean(s, sid, id);
    var i :| 0 <= i < |st.pending| && st.pending[i] == job;
    OnlyJobWithId(st.pending, id, i);
    DropOneId(st.pending, id, ReservedIds(s, sid), i);
    var rest := st.pending[..i] + st.pending[i + 1..];
    var last := PutSession(sid, st.(pending := rest), Cancelled({job.uid}));
    assert CancelPlan(s, executor, sid, id) == Plan([DropOutbox(job.uid), last], true);
    assert [DropOutbox(job.uid), last][1..] == [last];
    ReplayOne(Apply(s, DropOutbox(job.uid)), last);
    assert IsWithout(st.pending, job, rest);
  }

  lemma OnlyJobWithId(jobs: seq<Job>, id: int, i: nat)
    requires Increasing(jobs) && i < |jobs| && jobs[i].id == id
    ensures FindById(jobs, id) == Some(jobs[i])
  {
    FindByIdFinds(jobs, id);
    var k :| 0 <= k < |jobs| && jobs[k] == FindById(jobs, id).value;
  }

  lemma CannotCancel(s: Store, executor: Executor, sid: SessionId, id: int)
    requires sid in s.sessions && id >= 1 && forall job :: !MayCancel(s, sid, id, job)
    ensures CancelPlan(s, executor, sid, id) == Plan([], true)
  {
    var st := s.sessions[sid];
    FindByIdFinds(st.pending, id);
    ReservedIdsMean(s, sid, id);
    var selected := FindById(st.pending, id);
    if selected.None? || selected.value.uid !in s.markers {
      assert selected.Some? ==> !MayCancel(s, sid, id, selected.value);
      DropNoId(st.pending, id, ReservedIds(s, sid));
    }
  }

  // ---------- submit ----------

  /** A failed session that still holds candidates, or one that needs a person, keeps its own time. */
  predicate KeepsItsTime(st: Session) {
    st.status == ManualRecovery || (st.status == Failed && (st.current != [] || st.pending != []))
  }

  /** The new job is last; a session that waits waits an hour from now, one that runs goes on, one that failed keeps its retry. */
  predicate LeftBySubmit(st: Session, st': Session, executor: Executor, uid: Uid, message: string, now: int) {
    && st'.executor == executor && st'.accepted == st.accepted + [uid] && st'.current == st.current
    && st'.pending == st.pending + [Job(st.nextId, uid, message, now)] && st'.nextId == st.nextId + 1
    && st'.currentOp == st.currentOp && st'.lastOp == st.lastOp
    && (KeepsItsTime(st) ==>
          st'.status == st.status && st'.phase == NoPhase && st'.attempts == st.attempts && st'.nextRetryAt == st.nextRetryAt && st'.nextFlushAt == st.nextFlushAt)
    && (!KeepsItsTime(st) && st.current != [] ==>
          st'.status == Running && st'.phase == RunningPhase && st'.attempts == st.attempts && st'.nextFlushAt == Some(now + 3600))
    && (!KeepsItsTime(st) && st.current == [] ==>
          st'.status == Running && st'.phase == WaitingPhase && st'.attempts == 0 && st'.nextRetryAt == None && st'.nextFlushAt == Some(now + 3600))
  }

  /** A complete submit of a new candidate to a session of its executor, or to one that holds nothing. */
  lemma SubmitLeaves(s: Store, executor: Executor, sid: SessionId, uid: Uid, message: string, now: int, listing: seq<Candidate>)
    requires Inv(s) && NamesOnly(s, sid, uid) && FullListing(s, executor, sid, listing)
    ensures var st := Reconciled(s, executor, sid);
            var plan := SubmitPlan(s, executor, sid, uid, message, now, listing);
            plan.ok && uid !in st.accepted ==> LeftBySubmit(st, ReadRaw(Replay(s, plan.writes), sid, executor), executor, uid, message, now)
  {
    SubmitEffect(s, executor, sid, uid, message, now, listing);
    ReconciledOk(s, executor, sid, uid);
  }

  // ---------- acknowledge ----------

  /** The handed candidates leave the queue in place; a session left with nothing has succeeded. */
  predicate LeftByHandOver(st: Session, st': Session, uids: set<Uid>, result: string) {
    && st'.pending == Filter((j: Job) => j.uid !in uids, st.pending)
    && st'.accepted == st.accepted && st'.current == st.current && st'.nextId == st.nextId && st'.executor == st.executor && st'.lastOp == st.lastOp
    && (st'.pending != [] ==> st' == st.(pending := st'.pending))
    && (st'.pending == [] ==> st'.status == Succeeded && st'.phase == NoPhase && st'.attempts == 0 && st'.result == Some(result)
                              && st'.nextRetryAt == None && st'.nextFlushAt == None && st'.currentOp == None)
  }

  /** Acknowledging hands over exactly the named pending candidates, and is refused once one of them runs. */
  lemma AcknowledgeLeaves(s: Store, executor: Executor, sid: SessionId, uids: set<Uid>, result: string)
    requires sid in s.sessions
    ensures var st := s.sessions[sid];
            var plan := AcknowledgePlan(s, executor, sid, uids, result);
            var t := Replay(s, plan.writes);
            && (plan.ok <==> forall j :: j in st.current ==> j.uid !in uids)
            && (plan.ok && (exists j :: j in st.pending && j.uid in uids) ==>
                  && sid in t.sessions && LeftByHandOver(st, t.sessions[sid], uids, result)
                  && t == s.(sessions := s.sessions[sid := t.sessions[sid]], handed := s.handed + Uids(st.pending) * uids))
            && (!plan.ok || (forall j :: j in st.pending ==> j.uid !in uids) ==> t == s)
  {
    var st := s.sessions[sid];
    var keep := (j: Job) => j.uid !in uids;
    var plan := AcknowledgePlan(s, executor, sid, uids, result);
    if j :| j in st.current && j.uid in uids {
      assert j.uid in Uids(st.current) * uids;
    }
    if forall j :: j in st.pending ==> j.uid !in uids {
      FilterAll(keep, st.pending);
    } else {
      FilterMembers(keep, st.pending);
      assert |Filter(keep, st.pending)| == |st.pending| ==> Filter(keep, st.pending) == st.pending by {
        FilterAllOrFewer(keep, st.pending);
      }
    }
    if plan.writes != [] {
      ReplayOne(s, plan.writes[0]);
    }
  }

  lemma {:induction false} FilterAllOrFewer<T>(keep: T -> bool, xs: seq<T>)
    ensures |Filter(keep, xs)| == |xs| ==> Filter(keep, xs) == xs
  {
    if xs != [] {
      FilterAllOrFewer(keep, xs[1..]);
    }
  }

  // ---------- publish ----------

  /** The candidate waits in its session, and no live reservation of the session holds it. */
  ghost predicate MayPublish(s: Store, c: Candidate) {
    && c.session in s.sessions && (exists j :: j in s.sessions[c.session].pending && CandidateOf(c.session, j) == c)
    && forall op, p, j :: Reserves(s, op, p) && p.session == c.session && j in p.jobs ==> j.uid != c.uid
  }

  lemma ReservedUidsMean(s: Store, sid: SessionId, u: Uid)
    ensures u in ReservedUids(s, sid) <==> exists op, p, j :: Reserves(s, op, p) && p.session == sid && j in p.jobs && j.uid == u
  {
    if u in ReservedUids(s, sid) {
      var op, p, j :| op in s.reservations && p in s.reservations[op].participants && p.session == sid && j in p.jobs && j.uid == u;
      assert Reserves(s, op, p);
    }
  }

  /** A waiting, unreserved candidate is marked as published; any other is left alone. */
  lemma PublishLeaves(s: Store, executor: Executor, c: Candidate)
    requires Inv(s) && c.uid in s.outbox && s.outbox[c.uid] == c
    ensures var plan := PublishPlan(s, executor, c, ReservedUids(s, c.session));
            plan.ok && Replay(s, plan.writes) == if MayPublish(s, c) then s.(markers := s.markers + {c.uid}, begun := s.begun + {c.uid}) else s
  {
    var plan := PublishPlan(s, executor, c, ReservedUids(s, c.session));
    ReservedUidsMean(s, c.session, c.uid);
    if c.session in s.sessions {
      var st := s.sessions[c.session];
      assert SessionOk(st);
      FindByUidFinds(st.pending, c.uid);
      WaitingRecord(s, c);
    }
    MarkedHasBegun(s);
    if plan.writes != [] {
      ReplayOne(s, PutMarker(c.uid));
    } else if MayPublish(s, c) {
      assert s.markers + {c.uid} == s.markers && s.begun + {c.uid} == s.begun;
    }
  }

  lemma MarkedHasBegun(s: Store)
    requires Inv(s)
    ensures s.markers <= s.begun
  {}

  /** The record of a waiting candidate is that of its job, and the candidate does not run. */
  lemma WaitingRecord(s: Store, c: Candidate)
    requires Inv(s) && c.uid in s.outbox && s.outbox[c.uid] == c && c.session in s.sessions
    ensures var st := s.sessions[c.session];
            && (forall j :: j in st.pending && j.uid == c.uid ==> CandidateOf(c.session, j) == c)
            && (c.uid in Uids(st.pending) ==> c.uid !in Uids(st.current))
  {
    var st := s.sessions[c.session];
    assert SessionOk(st);
    CurrentApartFromPending(st);
    forall j | j in st.pending && j.uid == c.uid ensures CandidateOf(c.session, j) == c {
      assert j in Live(st);
      RecordOfLiveJob(s, c.session, j);
    }
  }

  lemma ReconciledForPublication(s: Store, executor: Executor, c: Candidate)
    requires Inv(s) && c.uid in s.outbox && s.outbox[c.uid] == c
    ensures var first := ReconcilePlan(s, c.session, executor, [c]);
            var m := Replay(s, first.writes);
            first.ok && Inv(m) && c.uid in m.outbox && m.outbox[c.uid] == c && m.reservations == s.reservations
  {
    OwnRecordListed(s, executor, c);
    ReconcileSafe(s, executor, c.session, [c]);
    ReconcileEffect(s, executor, c.session, [c]);
    SafeEnds(s, ReconcilePlan(s, c.session, executor, [c]).writes);
  }

  /** So a call that begins a publication reconciles, and then marks the candidate if it waits unreserved. */
  lemma BeginPublicationLeaves(s: Store, executor: Executor, c: Candidate)
    requires Inv(s) && c.uid in s.outbox && s.outbox[c.uid] == c
    ensures var m := Replay(s, ReconcilePlan(s, c.session, executor, [c]).writes);
            var plan := BeginPublicationPlan(s, executor, c);
            plan.ok && Replay(s, plan.writes) == if MayPublish(m, c) then m.(markers := m.markers + {c.uid}, begun := m.begun + {c.uid}) else m
  {
    var first := ReconcilePlan(s, c.session, executor, [c]);
    var m := Replay(s, first.writes);
    ReconciledForPublication(s, executor, c);
    SameReserved(s, m, c.session);
    var second := PublishPlan(m, executor, c, ReservedUids(s, c.session));
    PublishLeaves(m, executor, c);
    PlansInTurn(s, first, second);
  }

  lemma PlansInTurn(s: Store, first: Plan, second: Plan)
    ensures Replay(s, first.writes + second.writes) == Replay(Replay(s, first.writes), second.writes)
  {
    ReplayAppend(s, first.writes, second.writes);
  }

  // ---------- reserve ----------

  /** The session is the executor's and holds these candidates untouched at the front of its queue, none of them published. */
  predicate IsFreshShare(s: Store, executor: Executor, p: Participant, op: OpId) {
    && p.session in s.sessions && p.jobs != []
    && s.sessions[p.session].executor == executor && s.sessions[p.session].current == [] && s.sessions[p.session].currentOp == None
    && p.jobs <= s.sessions[p.session].pending && s.sessions[p.session].lastOp != Some(op)
    && forall j :: j in p.jobs ==> j.uid !in s.markers
  }

  /** A batch of new shares, in session order, whose sessions no live reservation names. */
  ghost predicate IsFreshBatch(s: Store, batch: seq<Participant>, op: OpId) {
    && batch != [] && SortedSessions(batch) && BatchId(batch) == op && op !in s.reservations
    && (forall p :: p in batch ==> p.operation == None && p.jobs != [])
    && forall p, op', q :: p in batch && Reserves(s, op', q) ==> p.session != q.session
  }

  lemma LabelledBatch(batch: seq<Participant>, op: OpId)
    ensures BatchId(Labelled(batch, op)) == BatchId(batch)
  {
    var items := Labelled(batch, op);
    forall c ensures c in CandidatesOf(items) <==> c in CandidatesOf(batch) {
      if c in CandidatesOf(items) {
        var q, j :| q in items && j in q.jobs && c == CandidateOf(q.session, j);
        var i :| 0 <= i < |items| && items[i] == q;
        assert batch[i] in batch;
      }
      if c in CandidatesOf(batch) {
        var p, j :| p in batch && j in p.jobs && c == CandidateOf(p.session, j);
        var i :| 0 <= i < |batch| && batch[i] == p;
        assert items[i] in items && items[i].jobs == p.jobs;
      }
    }
  }

  lemma {:induction false} AcceptsAll(s: Store, executor: Executor, items: seq<Participant>, op: OpId)
    requires forall p :: p in items ==> IsFreshShare(s, executor, p, op)
    ensures JudgeAll(s, executor, items, op, true) == Accept
    decreases |items|
  {
    if items != [] {
      assert items[0] in items;
      AcceptsOne(s, executor, items[0], op);
      AcceptsAll(s, executor, items[1..], op);
    }
  }

  lemma AcceptsOne(s: Store, executor: Executor, p: Participant, op: OpId)
    requires IsFreshShare(s, executor, p, op)
    ensures Judge(s, executor, p, op, true) == Accept
  {
    var st := s.sessions[p.session];
    assert st.pending[..|p.jobs|] == p.jobs;
    forall u | u in Uids(p.jobs) ensures u !in s.markers {
      var j :| j in p.jobs && j.uid == u;
    }
  }

  /** What the steps before the verdict leave of a reserve call for a fresh batch. */
  lemma FreshReserve(s: Store, executor: Executor, batch: seq<Participant>, op: OpId, now: int)
    requires IsFreshBatch(s, batch, op)
    ensures var items := Labelled(batch, op);
            ReservePlan(s, executor, batch, op, now) ==
              match JudgeAll(s, executor, items, op, true)
              case Refuse => Plan([], false)
              case Withdraw => Plan([], true)
              case Accept => Plan([PutReservation(op, Reservation(now, items, executor))], true)
  {
    var items := Labelled(batch, op);
    LabelledBatch(batch, op);
    LabelledJobs(batch, op);
    forall op', p, q | op' in s.reservations && p in s.reservations[op'].participants && q in items ensures p.session != q.session {
      var b :| b in batch && q == b.(operation := Some(op));
      assert Reserves(s, op', p);
    }
  }

  /** A fresh batch whose shares are all untouched is reserved as it is, at this time and for this executor. */
  lemma ReserveLeaves(s: Store, executor: Executor, batch: seq<Participant>, op: OpId, now: int)
    requires IsFreshBatch(s, batch, op) && forall p :: p in batch ==> IsFreshShare(s, executor, p, op)
    ensures var plan := ReservePlan(s, executor, batch, op, now);
            var t := Replay(s, plan.writes);
            && plan.ok && op in t.reservations && t == s.(reservations := s.reservations[op := t.reservations[op]], booked := s.booked + {op})
            && t.reservations[op].createdAt == now && t.reservations[op].executor == executor
            && |t.reservations[op].participants| == |batch|
            && forall i :: 0 <= i < |batch| ==> t.reservations[op].participants[i] == batch[i].(operation := Some(op))
  {
    var items := Labelled(batch, op);
    LabelledJobs(batch, op);
    forall q | q in items ensures IsFreshShare(s, executor, q, op) {
      var b :| b in batch && q == b.(operation := Some(op));
      assert IsFreshShare(s, executor, b, op);
    }
    AcceptsAll(s, executor, items, op);
    FreshReserve(s, executor, batch, op, now);
    ReplayOne(s, PutReservation(op, Reservation(now, items, executor)));
  }

  /** The share was published or changed since it was chosen: the batch is withdrawn. */
  predicate IsOvertaken(s: Store, executor: Executor, p: Participant, op: OpId) {
    && p.session in s.sessions && s.sessions[p.session].executor == executor && s.sessions[p.session].lastOp != Some(op)
    && s.sessions[p.session].current == [] && s.sessions[p.session].currentOp == None
    && ((exists j :: j in p.jobs && j.uid in s.markers) || !(p.jobs <= s.sessions[p.session].pending))
  }

  lemma {:induction false} JudgesFirst(s: Store, executor: Executor, items: seq<Participant>, op: OpId, k: nat, verdict: Verdict)
    requires k < |items| && (forall i :: 0 <= i < k ==> IsFreshShare(s, executor, items[i], op))
    requires verdict != Accept && Judge(s, executor, items[k], op, true) == verdict
    ensures JudgeAll(s, executor, items, op, true) == verdict
    decreases k
  {
    if k > 0 {
      AcceptsOne(s, executor, items[0], op);
      JudgesFirst(s, executor, items[1..], op, k - 1, verdict);
    }
  }

  lemma OvertakenIsWithdrawn(s: Store, executor: Executor, p: Participant, op: OpId)
    requires IsOvertaken(s, executor, p, op)
    ensures Judge(s, executor, p, op, true) == Withdraw
  {
    var st := s.sessions[p.session];
    if j :| j in p.jobs && j.uid in s.markers {
      assert j.uid in Uids(p.jobs) * s.markers;
    }
    assert IsPrefix(p.jobs, st.pending) ==> p.jobs <= st.pending;
  }

  /** If the first share that is not fresh was overtaken, nothing is reserved and nothing raises; if its session is another executor's, the call raises. */
  lemma ReserveWithdraws(s: Store, executor: Executor, batch: seq<Participant>, op: OpId, now: int, k: nat)
    requires IsFreshBatch(s, batch, op) && k < |batch| && forall i :: 0 <= i < k ==> IsFreshShare(s, executor, batch[i], op)
    ensures IsOvertaken(s, executor, batch[k], op) ==> ReservePlan(s, executor, batch, op, now) == Plan([], true)
    ensures batch[k].session in s.sessions && s.sessions[batch[k].session].executor != executor ==> ReservePlan(s, executor, batch, op, now) == Plan([], false)
  {
    var items := Labelled(batch, op);
    FreshReserve(s, executor, batch, op, now);
    forall i | 0 <= i < k ensures IsFreshShare(s, executor, items[i], op) {
      assert IsFreshShare(s, executor, batch[i], op);
    }
    if IsOvertaken(s, executor, batch[k], op) {
      OvertakenIsWithdrawn(s, executor, items[k], op);
      JudgesFirst(s, executor, items, op, k, Withdraw);
    } else if batch[k].session in s.sessions && s.sessions[batch[k].session].executor != executor {
      JudgesFirst(s, executor, items, op, k, Refuse);
    }
  }

  // ---------- restore ----------

  /** Reconciling gives every waiting candidate its outbox record back, and changes no record that is there. */
  lemma {:induction false} RestoreLeavesRecords(s: Store, sid: SessionId, jobs: seq<Job>)
    requires RestorePlan(s.outbox, sid, jobs).ok
    ensures var t := Replay(s, RestorePlan(s.outbox, sid, jobs).writes);
            && t == s.(outbox := t.outbox)
            && (forall j :: j in jobs ==> j.uid in t.outbox && t.outbox[j.uid] == CandidateOf(sid, j))
            && (forall u :: u in s.outbox ==> u in t.outbox && t.outbox[u] == s.outbox[u])
            && (forall u :: u in t.outbox && u !in s.outbox ==> exists j :: j in jobs && j.uid == u)
    decreases |jobs|
  {
    if jobs != [] {
      var c := CandidateOf(sid, jobs[0]);
      if c.uid !in s.outbox {
        var s1 := Apply(s, PutOutbox(c));
        RestoreLeavesRecords(s1, sid, jobs[1..]);
        var rest := RestorePlan(s1.outbox, sid, jobs[1..]);
        assert RestorePlan(s.outbox, sid, jobs).writes[1..] == rest.writes;
      } else {
        RestoreLeavesRecords(s, sid, jobs[1..]);
      }
      assert forall j :: j in jobs <==> j == jobs[0] || j in jobs[1..];
    }
  }

  // ---------- the local records of handed candidates ----------

  lemma {:induction false} ClearLocalLeaves(s: Store, uids: seq<Uid>)
    ensures ClearLocalPlan(uids).ok
    ensures Replay(s, ClearLocalPlan(uids).writes) == s.(outbox := s.outbox - Elements(uids), markers := s.markers - Elements(uids))
    decreases |uids|
  {
    if uids != [] {
      var s1 := Apply(Apply(s, DropOutbox(uids[0])), DropMarker(uids[0]));
      ClearLocalLeaves(s1, uids[1..]);
      var ws := ClearLocalPlan(uids).writes;
      assert ws[1..][1..] == ClearLocalPlan(uids[1..]).writes;
      assert ws[1..][0] == DropMarker(uids[0]);
      assert Elements(uids) == {uids[0]} + Elements(uids[1..]);
      assert s.outbox - Elements(uids) == s1.outbox - Elements(uids[1..]);
    }
  }

  // ---------- a retry of everything that is parked ----------

  /** The session holds candidates and waits for a person. */
  predicate IsParked(s: Store, executor: Executor, sid: SessionId) {
    && sid in s.sessions && s.sessions[sid].executor == executor && s.sessions[sid].status == ManualRecovery
    && (s.sessions[sid].current != [] || s.sessions[sid].pending != [])
  }

  predicate IsDueAt(st: Session, st': Session, now: int) {
    SameWork(st, st') && st'.status == Failed && st'.attempts == 0 && st'.nextRetryAt == Some(now)
  }

  predicate NeedsAPerson(st: Session, st': Session) {
    SameWork(st, st') && st'.status == ManualRecovery && st'.nextRetryAt == None
  }

  ghost predicate Requeues(s: Store, t: Store, executor: Executor, sids: seq<SessionId>, now: int) {
    && t == s.(sessions := t.sessions) && t.sessions.Keys == s.sessions.Keys
    && (forall a :: a in sids && IsParked(s, executor, a) ==> IsDueAt(s.sessions[a], t.sessions[a], now))
    && (forall a :: a in s.sessions && !(a in sids && IsParked(s, executor, a)) ==> t.sessions[a] == s.sessions[a])
  }

  lemma RetryOne(s: Store, executor: Executor, sid: SessionId, now: int)
    ensures var plan := RetryPlan(s, executor, sid, now);
            var m := Replay(s, plan.writes);
            && plan.ok && (plan.writes != [] <==> IsParked(s, executor, sid))
            && m == s.(sessions := m.sessions) && m.sessions.Keys == s.sessions.Keys
            && (IsParked(s, executor, sid) ==> IsDueAt(s.sessions[sid], m.sessions[sid], now))
            && (forall a :: a in s.sessions && !(a == sid && IsParked(s, executor, sid)) ==> m.sessions[a] == s.sessions[a])
  {
    if sid in s.sessions {
      RetryLeaves(s, executor, sid, now);
      var plan := RetryPlan(s, executor, sid, now);
      assert !IsParked(s, executor, sid) ==> plan.writes == [];
    }
  }

  lemma {:induction false} RetryAllLeaves(s: Store, executor: Executor, sids: seq<SessionId>, now: int)
    requires Distinct(sids)
    ensures Requeues(s, Replay(s, RetryAllPlan(s, executor, sids, now).writes), executor, sids, now)
    ensures forall a :: a in Requeued(s, executor, sids, now) <==> a in sids && IsParked(s, executor, a)
    ensures Distinct(Requeued(s, executor, sids, now))
    decreases |sids|
  {
    if sids != [] {
      var first := RetryPlan(s, executor, sids[0], now);
      var m := Replay(s, first.writes);
      RetryOne(s, executor, sids[0], now);
      RetryAllLeaves(m, executor, sids[1..], now);
      ReplayAppend(s, first.writes, RetryAllPlan(m, executor, sids[1..], now).writes);
      NotAgain(sids);
      assert forall a :: a != sids[0] ==> (IsParked(m, executor, a) <==> IsParked(s, executor, a));
      RequeuesMore(s, m, Replay(m, RetryAllPlan(m, executor, sids[1..], now).writes), executor, sids, now);
    }
  }

  lemma NotAgain<T>(xs: seq<T>)
    requires xs != [] && Distinct(xs)
    ensures xs[0] !in xs[1..] && Distinct(xs[1..]) && forall x :: x in xs <==> x == xs[0] || x in xs[1..]
  {
    assert forall i :: 0 <= i < |xs| - 1 ==> xs[1..][i] == xs[i + 1];
  }

  lemma RequeuesMore(s: Store, m: Store, t: Store, executor: Executor, sids: seq<SessionId>, now: int)
    requires sids != [] && sids[0] !in sids[1..] && Requeues(m, t, executor, sids[1..], now)
    requires m == s.(sessions := m.sessions) && m.sessions.Keys == s.sessions.Keys
    requires IsParked(s, executor, sids[0]) ==> IsDueAt(s.sessions[sids[0]], m.sessions[sids[0]], now)
    requires forall a :: a in s.sessions && !(a == sids[0] && IsParked(s, executor, sids[0])) ==> m.sessions[a] == s.sessions[a]
    ensures Requeues(s, t, executor, sids, now)
  {
    assert forall a :: a in sids <==> a == sids[0] || a in sids[1..];
    assert forall a :: a != sids[0] ==> (IsParked(m, executor, a) <==> IsParked(s, executor, a));
    assert forall a :: a in s.sessions <==> a in m.sessions.Keys;
  }

  ghost predicate Parks(s: Store, t: Store, sids: seq<SessionId>) {
    && t == s.(sessions := t.sessions) && t.sessions.Keys == s.sessions.Keys
    && (forall a :: a in sids && a in s.sessions ==> NeedsAPerson(s.sessions[a], t.sessions[a]))
    && (forall a :: a in s.sessions && a !in sids ==> t.sessions[a] == s.sessions[a])
  }

  lemma {:induction false} RestoreAllLeaves(s: Store, executor: Executor, sids: seq<SessionId>)
    requires Distinct(sids) && forall a :: a in sids ==> a in s.sessions && (s.sessions[a].current != [] || s.sessions[a].pending != [])
    ensures RestoreAllPlan(s, executor, sids).ok && Parks(s, Replay(s, RestoreAllPlan(s, executor, sids).writes), sids)
    decreases |sids|
  {
    if sids != [] {
      NotAgain(sids);
      var first := RestoreManualPlan(s, executor, sids[0]);
      var m := Replay(s, first.writes);
      RestoreLeaves(s, executor, sids[0]);
      RestoreAllLeaves(m, executor, sids[1..]);
      ReplayAppend(s, first.writes, RestoreAllPlan(m, executor, sids[1..]).writes);
    }
  }

  /**
   A retry puts exactly the parked sessions back, due at once; if the worker does
   not start, every one of them is parked again with the work it had, and no other
   session has changed.
   */
  lemma RetryCallLeaves(s: Store, executor: Executor, sids: seq<SessionId>, now: int, starts: bool)
    requires Distinct(sids)
    ensures var plan := RetryCall(s, executor, sids, now, starts);
            var t := Replay(s, plan.writes);
            && plan.ok && t == s.(sessions := t.sessions) && t.sessions.Keys == s.sessions.Keys
            && (forall a :: a in sids && IsParked(s, executor, a) ==>
                  if starts then IsDueAt(s.sessions[a], t.sessions[a], now) else NeedsAPerson(s.sessions[a], t.sessions[a]))
            && (forall a :: a in s.sessions && !(a in sids && IsParked(s, executor, a)) ==> t.sessions[a] == s.sessions[a])
  {
    var first := RetryAllPlan(s, executor, sids, now);
    var m := Replay(s, first.writes);
    var back := Requeued(s, executor, sids, now);
    RetryAllLeaves(s, executor, sids, now);
    RetryNeverRaises(s, executor, sids, now);
    if !starts {
      RestoreAllLeaves(m, executor, back);
      ReplayAppend(s, first.writes, RestoreAllPlan(m, executor, back).writes);
    }
  }
}
