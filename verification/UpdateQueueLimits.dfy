/** Two places where the queue does not keep its promise, with the runs that reach them. */
module UpdateQueueLimits {
  import opened Common
  import opened UpdateQueue
  import opened UpdateQueueInvariant
  import opened UpdateQueueSafety
  import opened UpdateQueueRuns
  import opened UpdateQueueSubmit

  // ---------- acknowledging the last pending candidate of a session that runs a batch ----------

  /**
   If an acknowledgement empties pending while a batch of the session runs, the
   batch is no longer tied to its operation, and the next enqueued candidate
   drops it: its candidates stay accepted but are neither live nor settled.
   */
  lemma AcknowledgeThenEnqueueForgets(s: Store, executor: Executor, sid: SessionId, uids: set<Uid>, result: string, job: Job, now: int)
    requires Inv(s) && LosesBatch(s, executor, sid, uids) && !Accepts(s, sid, job.uid)
    ensures var t := Replay(s, AcknowledgePlan(s, executor, sid, uids, result).writes);
            var st := ReadRaw(t, sid, executor);
            var st' := Enqueue(st.(accepted := st.accepted + [job.uid]), job, now);
            && st.current == s.sessions[sid].current && st.currentOp == None
            && st.current != []
            && forall j :: j in st.current ==> j.uid in st'.accepted && j.uid !in Uids(Live(st')) && j.uid !in Settled(t)
  {
    var st := s.sessions[sid];
    assert SessionOk(st);
    var plan := AcknowledgePlan(s, executor, sid, uids, result);
    var w := PutSession(sid, HandedState(st, [], result), Handed(Uids(st.pending) * uids));
    assert plan.writes == [w];
    ReplayOne(s, w);
    CurrentApartFromPending(st);
    forall j | j in st.current ensures j.uid in st.accepted && j.uid !in Settled(s) && j.uid !in Uids(st.pending) {
      assert j in Live(st);
      assert Accepts(s, sid, j.uid) && IsLive(s, sid, j.uid);
    }
    assert !Accepts(s, sid, job.uid);
  }

  const FIRST := Job(1, 10, "first", 0)
  const SECOND := Job(2, 11, "second", 5)
  const BATCH := OpId({CandidateOf(1, FIRST)})
  const SHARE := Participant(1, 3600, [FIRST], Some(BATCH))

  /** The session while it runs its first candidate and a second one waits. */
  const BUSY := Session(Running, RunningPhase, 0, None, Some(3605), None, Some(BATCH), None, [10, 11], [FIRST], [SECOND], 3, Worker)

  /** The second candidate is published while the first one runs. */
  const BUSY_STORE := Store(
    map[1 := BUSY], map[BATCH := Reservation(1, [SHARE], Worker)],
    map[10 := CandidateOf(1, FIRST), 11 := CandidateOf(1, SECOND)], {11}, {BATCH}, {11}, {}, {}, {})

  lemma BusySession()
    ensures SessionsOk(BUSY_STORE) && LedgerOk(BUSY_STORE)
    ensures forall u :: (u == 10 || u == 11) <==> Accepts(BUSY_STORE, 1, u)
    ensures forall a, u :: Accepts(BUSY_STORE, a, u) ==> a == 1
    ensures forall a, u :: IsLive(BUSY_STORE, a, u) <==> a == 1 && (u == 10 || u == 11)
  {
    BusyUids();
    BusyIsOk();
  }

  lemma BusyIsOk()
    ensures SessionOk(BUSY)
  {
    assert Live(BUSY) == [FIRST, SECOND];
    assert FIRST in Live(BUSY) && SECOND in Live(BUSY);
  }

  lemma BusyUids()
    ensures Uids(Live(BUSY)) == {10, 11}
  {
    assert Live(BUSY) == [FIRST, SECOND];
    assert forall j :: j in [FIRST, SECOND] <==> j == FIRST || j == SECOND;
    assert FIRST in Live(BUSY) && SECOND in Live(BUSY);
  }

  lemma BusyOutbox()
    ensures OutboxOk(BUSY_STORE) && PublicationOk(BUSY_STORE)
  {
    BusySession();
    assert Live(BUSY) == [FIRST, SECOND];
    assert Accepts(BUSY_STORE, 1, 10) && Accepts(BUSY_STORE, 1, 11);
    assert Recorded(BUSY_STORE, 10) && Recorded(BUSY_STORE, 11);
    assert Owned(BUSY_STORE, 10) && Owned(BUSY_STORE, 11);
  }

  lemma BusyReservation()
    ensures ReservationsOk(BUSY_STORE) && HistoryOk(BUSY_STORE)
  {
    BusySession();
    assert SHARE in [SHARE] && FIRST in [FIRST];
    assert CandidatesOf([SHARE]) == {CandidateOf(1, FIRST)};
    assert WellFormed(BATCH, [SHARE]);
    assert ParticipantOk(BUSY, BATCH, SHARE);
    assert Runs(BUSY_STORE, 1, BATCH, SHARE);
  }

  /** A state of the invariant in which acknowledging the published candidate loses the running batch. */
  lemma AcknowledgeCanLoseBatch()
    ensures Inv(BUSY_STORE) && Uids(BUSY.pending) * {11} <= BUSY_STORE.markers
    ensures LosesBatch(BUSY_STORE, Worker, 1, {11})
  {
    BusySession();
    BusyOutbox();
    BusyReservation();
    assert SECOND in BUSY.pending;
    assert BUSY.pending[1..] == [];
  }

  // The run that reaches it: submit, reserve, start, submit again, begin publication.

  const WAITING := Session(Running, WaitingPhase, 0, None, Some(3600), None, None, None, [10], [], [FIRST], 2, Worker)
  const ALONE := Session(Running, RunningPhase, 0, None, None, None, Some(BATCH), None, [10], [FIRST], [], 2, Worker)
  const OFFER := Participant(1, 3600, [FIRST], None)
  const SUBMITTED := Store(map[1 := WAITING], map[], map[10 := CandidateOf(1, FIRST)], {}, {}, {}, {}, {}, {})
  const RESERVED := SUBMITTED.(reservations := map[BATCH := Reservation(1, [SHARE], Worker)], booked := {BATCH})
  const STARTED := RESERVED.(sessions := map[1 := ALONE])
  const SECOND_RECORD := CandidateOf(1, SECOND)

  const BUSY_RUN := [
    Step(Submit(Worker, 1, 10, "first", 0, []), 2),
    Step(Reserve(Worker, [OFFER], BATCH, 1), 1),
    Step(Start(Worker, BATCH, SHARE), 1),
    Step(Submit(Worker, 1, 11, "second", 5, [CandidateOf(1, FIRST)]), 2),
    Step(BeginPublication(Worker, SECOND_RECORD), 1)]

  lemma TwoWrites(s: Store, x: Write, y: Write)
    ensures Cut(s, [x, y], 2) == Apply(Apply(s, x), y)
  {
    assert [x, y][1..] == [y];
    ReplayOne(Apply(s, x), y);
  }

  lemma OneWrite(s: Store, x: Write)
    ensures Cut(s, [x], 1) == Apply(s, x)
  {
    ReplayOne(s, x);
  }

  lemma FirstSubmit()
    ensures Allowed(EMPTY, BUSY_RUN[0].action) && After(EMPTY, BUSY_RUN[0]) == SUBMITTED
  {
    assert ReconcilePlan(EMPTY, 1, Worker, []) == Plan([], true);
    var second := EnqueuePlan(map[], FreshSession(Worker), Worker, 1, 10, "first", 0);
    OnlyEnqueues(EMPTY, Worker, 1, 10, "first", 0, []);
    assert [] + [10] == [10];
    assert |second.writes| == 2 && second.writes[0] == PutOutbox(CandidateOf(1, FIRST)) && second.writes[1] == PutSession(1, WAITING, Kept);
    TwoWrites(EMPTY, PutOutbox(CandidateOf(1, FIRST)), PutSession(1, WAITING, Kept));
  }

  lemma ThenReserve()
    ensures Allowed(SUBMITTED, BUSY_RUN[1].action) && After(SUBMITTED, BUSY_RUN[1]) == RESERVED
  {
    assert OFFER in [OFFER] && SHARE in [SHARE] && FIRST in [FIRST];
    assert Labelled([OFFER], BATCH) == [SHARE];
    assert CandidatesOf([SHARE]) == {CandidateOf(1, FIRST)};
    assert [SHARE][1..] == [];
    assert Judge(SUBMITTED, Worker, SHARE, BATCH, true) == Accept;
    assert JudgeAll(SUBMITTED, Worker, [SHARE], BATCH, true) == Accept;
    OneWrite(SUBMITTED, PutReservation(BATCH, Reservation(1, [SHARE], Worker)));
  }

  lemma ThenStart()
    ensures Allowed(RESERVED, BUSY_RUN[2].action) && After(RESERVED, BUSY_RUN[2]) == STARTED
  {
    assert SHARE in [SHARE];
    assert Reserves(RESERVED, BATCH, SHARE);
    assert WAITING.pending[..1] == [FIRST] && WAITING.pending[1..] == [];
    OneWrite(RESERVED, PutSession(1, ALONE, Kept));
  }

  lemma ThenSubmit()
    ensures Allowed(STARTED, BUSY_RUN[3].action)
    ensures After(STARTED, BUSY_RUN[3]) == BUSY_STORE.(markers := {}, begun := {})
  {
    NothingToReconcile();
    SecondEnqueued();
    OnlyEnqueues(STARTED, Worker, 1, 11, "second", 5, [CandidateOf(1, FIRST)]);
    TwoWrites(STARTED, PutOutbox(SECOND_RECORD), PutSession(1, BUSY, Kept));
  }

  lemma OnlyEnqueues(s: Store, executor: Executor, sid: SessionId, uid: Uid, message: string, now: int, listing: seq<Candidate>)
    requires ReconcilePlan(s, sid, executor, listing) == Plan([], true)
    ensures SubmitPlan(s, executor, sid, uid, message, now, listing) == EnqueuePlan(s.outbox, ReadRaw(s, sid, executor), executor, sid, uid, message, now)
  {
    var second := EnqueuePlan(s.outbox, ReadRaw(s, sid, executor), executor, sid, uid, message, now);
    assert [] + second.writes == second.writes;
  }

  lemma NothingToReconcile()
    ensures ReconcilePlan(STARTED, 1, Worker, [CandidateOf(1, FIRST)]) == Plan([], true)
  {
    assert RestorePlan(STARTED.outbox, 1, []) == Plan([], true);
    assert Live(ALONE) == [FIRST];
    assert [FIRST][..0] == [];
    assert LiveByUid([FIRST]) == map[10 := FIRST];
    AdoptKnown(ALONE, 1, {}, map[10 := FIRST], [CandidateOf(1, FIRST)]);
  }

  lemma SecondEnqueued()
    ensures EnqueuePlan(STARTED.outbox, ALONE, Worker, 1, 11, "second", 5) == Plan([PutOutbox(SECOND_RECORD), PutSession(1, BUSY, Kept)], true)
  {
    assert [10] + [11] == [10, 11] && [] + [SECOND] == [SECOND];
  }

  lemma ThenPublish(s: Store)
    requires s == BUSY_STORE.(markers := {}, begun := {})
    ensures Allowed(s, BUSY_RUN[4].action) && After(s, BUSY_RUN[4]) == BUSY_STORE
  {
    assert BUSY.pending[1..] == [];
    assert RestorePlan(s.outbox, 1, BUSY.pending) == Plan([], true);
    LiveByUidFinds(Live(BUSY));
    assert Live(BUSY) == [FIRST, SECOND];
    AdoptKnown(BUSY, 1, {}, LiveByUid(Live(BUSY)), [SECOND_RECORD]);
    assert ReconcilePlan(s, 1, Worker, [SECOND_RECORD]) == Plan([], true);
    assert forall p :: p in s.reservations[BATCH].participants ==> p == SHARE;
    assert 11 !in ReservedUids(s, 1);
    assert FindByUid(BUSY.pending, 11) == Some(SECOND);
    assert BeginPublicationPlan(s, Worker, SECOND_RECORD).writes == [PutMarker(11)];
    OneWrite(s, PutMarker(11));
  }

  /** The state is reachable. */
  lemma BusyIsReachable()
    ensures Run(EMPTY, BUSY_RUN) && Final(EMPTY, BUSY_RUN) == BUSY_STORE
  {
    FirstSubmit();
    ThenReserve();
    ThenStart();
    ThenSubmit();
    ThenPublish(BUSY_STORE.(markers := {}, begun := {}));
    RunStep(EMPTY, BUSY_RUN);
    RunStep(SUBMITTED, BUSY_RUN[1..]);
    RunStep(RESERVED, BUSY_RUN[1..][1..]);
    RunStep(STARTED, BUSY_RUN[1..][1..][1..]);
    RunStep(BUSY_STORE.(markers := {}, begun := {}), BUSY_RUN[1..][1..][1..][1..]);
  }

  lemma RunStep(s: Store, steps: seq<Step>)
    requires steps != []
    ensures Run(s, steps) <==> Allowed(s, steps[0].action) && Run(After(s, steps[0]), steps[1..])
    ensures Final(s, steps) == Final(After(s, steps[0]), steps[1..])
  {}

  // ---------- a worker submit that is retried after the assistant owned the session ----------

  /** An assistant submit stopped after its first write, then a worker submit stopped after its outbox write. */
  const STEPS := [Step(Submit(Assistant, 1, 5, "a", 0, []), 1), Step(Submit(Worker, 1, 7, "b", 9, []), 1)]

  const IDLE := FreshSession(Assistant)
  const LEFT := Candidate(7, 1, 1, "b", 9)

  lemma AssistantStops()
    ensures Allowed(EMPTY, STEPS[0].action) && After(EMPTY, STEPS[0]) == EMPTY.(sessions := map[1 := IDLE])
  {
    var a := STEPS[0].action;
    assert ReconcilePlan(EMPTY, 1, Assistant, []) == Plan([], true);
    var second := EnqueuePlan(map[], IDLE, Assistant, 1, 5, "a", 0);
    assert SubmitPlan(EMPTY, Assistant, 1, 5, "a", 0, []).writes == second.writes;
    assert |second.writes| == 3 && second.writes[0] == PutSession(1, IDLE, Kept);
    assert second.writes[..1] == [second.writes[0]];
    ReplayOne(EMPTY, second.writes[0]);
  }

  lemma WorkerStops(s: Store)
    requires s == EMPTY.(sessions := map[1 := IDLE])
    ensures Allowed(s, STEPS[1].action) && After(s, STEPS[1]) == s.(outbox := map[7 := LEFT])
  {
    assert ReconcilePlan(s, 1, Worker, []) == Plan([], true);
    var second := EnqueuePlan(map[], IDLE, Worker, 1, 7, "b", 9);
    assert SubmitPlan(s, Worker, 1, 7, "b", 9, []).writes == second.writes;
    assert |second.writes| == 2 && second.writes[0] == PutOutbox(LEFT);
    assert second.writes[..1] == [second.writes[0]];
    ReplayOne(s, second.writes[0]);
  }

  /** The worker's retry raises, because reconciling has put its candidate into a session of the assistant. */
  lemma WorkerRetryCanRaise()
    ensures Run(EMPTY, STEPS) && !SubmitPlan(Final(EMPTY, STEPS), Worker, 1, 7, "b", 20, [LEFT]).ok
  {
    AssistantStops();
    var s := After(EMPTY, STEPS[0]);
    WorkerStops(s);
    var c := After(s, STEPS[1]);
    assert STEPS[1..][0] == STEPS[1] && STEPS[1..][1..] == [];
    assert Final(EMPTY, STEPS) == c;
    RunKeepsInv(EMPTY, STEPS);
    RetryRaises(c);
  }

  lemma RetryRaises(c: Store)
    requires Inv(c) && c == EMPTY.(sessions := map[1 := IDLE], outbox := map[7 := LEFT])
    ensures !SubmitPlan(c, Worker, 1, 7, "b", 20, [LEFT]).ok
  {
    assert Orphan(c, 7);
    RetryFromOrphan(c, Worker, 1, 7, "b", 20, [LEFT]);
  }
}
