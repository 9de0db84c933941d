/** Whole runs of the update queue: any interleaving of operations, each cut off after any number of durable writes. */
module UpdateQueueRuns {
  import opened Common
  import opened UpdateQueue
  import opened UpdateQueueInvariant
  import opened UpdateQueueSafety
  import opened UpdateQueueBatches

  datatype Action =
    | Submit(executor: Executor, sid: SessionId, uid: Uid, message: string, now: int, listing: seq<Candidate>)
    | Reconcile(executor: Executor, sid: SessionId, listing: seq<Candidate>)
    | Cancel(executor: Executor, sid: SessionId, id: int)
    | BeginPublication(executor: Executor, candidate: Candidate)
    | Acknowledge(executor: Executor, sid: SessionId, uids: set<Uid>, result: string)
    | ClearLocal(cleared: seq<Uid>)
    | Reserve(executor: Executor, batch: seq<Participant>, op: OpId, now: int)
    | Start(executor: Executor, op: OpId, item: Participant)
    | Finish(executor: Executor, op: OpId, item: Participant, result: string, now: int)
    | FailParticipant(executor: Executor, op: OpId, item: Participant, now: int)
    | Fail(executor: Executor, sid: SessionId, now: int)
    | Terminal(sid: SessionId, result: string, now: int)
    | Retry(executor: Executor, sid: SessionId, now: int)
    | RestoreManual(executor: Executor, sid: SessionId)
    | Clear(executor: Executor, op: OpId)

  function PlanOf(s: Store, a: Action): Plan {
    match a
    case Submit(e, sid, uid, message, now, listing) => SubmitPlan(s, e, sid, uid, message, now, listing)
    case Reconcile(e, sid, listing) => ReconcilePlan(s, sid, e, listing)
    case Cancel(e, sid, id) => CancelPlan(s, e, sid, id)
    case BeginPublication(e, c) => BeginPublicationPlan(s, e, c)
    case Acknowledge(e, sid, uids, result) => AcknowledgePlan(s, e, sid, uids, result)
    case ClearLocal(us) => ClearLocalPlan(us)
    case Reserve(e, batch, op, now) => ReservePlan(s, e, batch, op, now)
    case Start(e, op, item) => StartPlan(s, e, op, item)
    case Finish(e, op, item, result, now) => FinishPlan(s, e, op, item, result, now)
    case FailParticipant(e, op, item, now) => FailParticipantPlan(s, e, op, item, now)
    case Fail(e, sid, now) => FailPlan(s, e, sid, now)
    case Terminal(sid, result, now) => TerminalPlan(s, sid, result, now)
    case Retry(e, sid, now) => RetryPlan(s, e, sid, now)
    case RestoreManual(e, sid) => RestoreManualPlan(s, e, sid)
    case Clear(e, op) => ClearPlan(s, op, e)
  }

  /** What the callers of each operation provide. Everything else is checked by the operation itself. */
  ghost predicate Allowed(s: Store, a: Action) {
    match a
    // a uid names one piece of evidence, and the listing is what the outbox directory holds
    case Submit(e, sid, uid, _, _, listing) =>
      NamesOnly(s, sid, uid) && Listed(RestoredOutbox(s, sid, e), sid, listing) && ListsAll(RestoredOutbox(s, sid, e), sid, listing)
    case Reconcile(e, sid, listing) => Listed(RestoredOutbox(s, sid, e), sid, listing)
    // only published candidates are acknowledged, and not while that drops a running batch
    case Acknowledge(e, sid, uids, _) => Uids(ReadRaw(s, sid, e).pending) * uids <= s.markers && !LosesBatch(s, e, sid, uids)
    // local records are cleared after the scheduler has let the candidate go
    case ClearLocal(us) => forall u, b :: u in us ==> !IsLive(s, b, u)
    case Reserve(_, batch, op, _) => ResumesOnly(s, batch, op)
    case Start(_, op, item) => Names(s, op, item)
    case Finish(_, _, item, _, _) => item.jobs != []
    case _ => true
  }

  /** One operation, with the number of durable writes it makes before the process dies. */
  datatype Step = Step(action: Action, power: nat)

  function After(s: Store, step: Step): Store {
    Cut(s, PlanOf(s, step.action).writes, step.power)
  }

  ghost predicate Run(s: Store, steps: seq<Step>)
    decreases |steps|
  {
    steps == [] || (Allowed(s, steps[0].action) && Run(After(s, steps[0]), steps[1..]))
  }

  function Final(s: Store, steps: seq<Step>): Store
    decreases |steps|
  {
    if steps == [] then s else Final(After(s, steps[0]), steps[1..])
  }

  const EMPTY := Store(map[], map[], map[], {}, {}, {}, {}, {}, {})

  lemma ActionSafe(s: Store, a: Action)
    requires Inv(s) && Allowed(s, a)
    ensures Safe(s, PlanOf(s, a).writes)
  {
    match a
    case Submit(e, sid, uid, message, now, listing) => SubmitSafe(s, e, sid, uid, message, now, listing);
    case Reconcile(e, sid, listing) => ReconcileSafe(s, e, sid, listing);
    case Cancel(e, sid, id) => CancelSafe(s, e, sid, id);
    case BeginPublication(e, c) => BeginPublicationSafe(s, e, c);
    case Acknowledge(e, sid, uids, result) => AcknowledgeSafe(s, e, sid, uids, result);
    case ClearLocal(us) => ClearLocalSafe(s, us);
    case Reserve(e, batch, op, now) => ReserveSafe(s, e, batch, op, now);
    case Start(e, op, item) => StartSafe(s, e, op, item);
    case Finish(e, op, item, result, now) => FinishSafe(s, e, op, item, result, now);
    case FailParticipant(e, op, item, now) => FailParticipantSafe(s, e, op, item, now);
    case Fail(e, sid, now) => FailSafe(s, e, sid, now);
    case Terminal(sid, result, now) => TerminalSafe(s, sid, result, now);
    case Retry(e, sid, now) => RetrySafe(s, e, sid, now);
    case RestoreManual(e, sid) => RestoreManualSafe(s, e, sid);
    case Clear(e, op) => ClearSafe(s, op, e);
  }

  /** The invariant holds in every state a run can reach. */
  lemma {:induction false} RunKeepsInv(s: Store, steps: seq<Step>)
    requires Inv(s) && Run(s, steps)
    ensures Inv(Final(s, steps))
    decreases |steps|
  {
    if steps != [] {
      ActionSafe(s, steps[0].action);
      SafeCut(s, PlanOf(s, steps[0].action).writes, steps[0].power);
      RunKeepsInv(After(s, steps[0]), steps[1..]);
    }
  }

  ghost predicate Reachable(s: Store) {
    exists steps :: Run(EMPTY, steps) && s == Final(EMPTY, steps)
  }

  lemma EmptyInv()
    ensures Inv(EMPTY)
  {}

  lemma ReachableInv(s: Store)
    requires Reachable(s)
    ensures Inv(s)
  {
    EmptyInv();
    var steps :| Run(EMPTY, steps) && s == Final(EMPTY, steps);
    RunKeepsInv(EMPTY, steps);
  }

  // ---------- what the invariant says about reservations ----------

  /**
   In every reachable state, validating any participant of any live reservation
   raises nothing, no session belongs to two live reservations, and no candidate
   whose publication ever began belongs to one.
   */
  lemma ReservationSafety(s: Store, executor: Executor)
    requires Reachable(s)
    ensures forall op, p :: Reserves(s, op, p) ==> Validated(ReadRaw(s, p.session, executor), p, op)
    ensures forall op, p, op', p' :: Reserves(s, op, p) && Reserves(s, op', p') && p.session == p'.session ==> op == op' && p == p'
    ensures forall op, p, j :: Reserves(s, op, p) && j in p.jobs ==> j.uid !in s.begun
  {
    ReachableInv(s);
    forall op, p | Reserves(s, op, p) ensures Validated(ReadRaw(s, p.session, executor), p, op) {
      ValidationNeverRaises(s, executor, op, p);
    }
    forall op, p, op', p' | Reserves(s, op, p) && Reserves(s, op', p') && p.session == p'.session ensures op == op' && p == p' {
      assert op == op';
      SameParticipant(s, op, p, p');
    }
  }

  /** Finishing a reserved participant raises exactly when it has not been started yet. */
  lemma FinishRaisesOnlyBeforeStart(s: Store, executor: Executor, op: OpId, p: Participant, result: string, now: int)
    requires Reachable(s) && Reserves(s, op, p)
    ensures var st := ReadRaw(s, p.session, executor);
            !FinishPlan(s, executor, op, p, result, now).ok <==> (st.current == [] && st.lastOp != Some(op) && IsPrefix(p.jobs, st.pending))
  {
    ReachableInv(s);
    assert ParticipantOk(s.sessions[p.session], op, p);
    assert WellFormed(op, s.reservations[op].participants);
  }

  // ---------- conservation ----------

  function Bit(b: bool): nat {
    if b then 1 else 0
  }

  /** In how many places an accepted candidate is. */
  function Places(s: Store, sid: SessionId, u: Uid): nat
    requires sid in s.sessions
  {
    var st := s.sessions[sid];
    Bit(u in Uids(st.current)) + Bit(u in Uids(st.pending)) + Bit(u in s.cancelled) + Bit(u in s.finished) + Bit(u in s.handed)
  }

  /** In every reachable state each accepted candidate is in exactly one place, and live ids rise strictly below the next id. */
  lemma Conservation(s: Store, sid: SessionId)
    requires Reachable(s) && sid in s.sessions
    ensures forall u :: u in s.sessions[sid].accepted ==> Places(s, sid, u) == 1
    ensures forall u, b :: u in s.sessions[sid].accepted && b in s.sessions && u in s.sessions[b].accepted ==> b == sid
    ensures var live := s.sessions[sid].current + s.sessions[sid].pending;
            (forall i, j :: 0 <= i < j < |live| ==> live[i].id < live[j].id)
            && (forall j :: j in live ==> 1 <= j.id < s.sessions[sid].nextId)
  {
    ReachableInv(s);
    var st := s.sessions[sid];
    assert SessionOk(st);
    CurrentApartFromPending(st);
    forall u | u in st.accepted ensures Places(s, sid, u) == 1 {
      assert Accepts(s, sid, u);
      assert u in Uids(Live(st)) <==> u in Uids(st.current) || u in Uids(st.pending);
      assert IsLive(s, sid, u) <==> u !in Settled(s);
    }
    forall u, b | u in st.accepted && b in s.sessions && u in s.sessions[b].accepted ensures b == sid {
      assert Accepts(s, sid, u) && Accepts(s, b, u);
    }
  }

  /** Every session has its accepted uids still, at the front. */
  predicate Extends(s: Store, t: Store) {
    forall sid :: sid in s.sessions ==> sid in t.sessions && s.sessions[sid].accepted <= t.sessions[sid].accepted
  }

  lemma ExtendsTrans(s: Store, m: Store, t: Store)
    requires Extends(s, m) && Extends(m, t)
    ensures Extends(s, t)
  {
    forall sid | sid in s.sessions ensures s.sessions[sid].accepted <= t.sessions[sid].accepted {
      assert s.sessions[sid].accepted <= m.sessions[sid].accepted;
      assert m.sessions[sid].accepted <= t.sessions[sid].accepted;
    }
  }

  lemma CutFirst(s: Store, ws: seq<Write>, power: nat)
    requires ws != [] && power > 0
    ensures Cut(s, ws, power) == Cut(Apply(s, ws[0]), ws[1..], power - 1)
  {
    if power < |ws| {
      assert ws[..power][1..] == ws[1..][..power - 1];
    }
  }

  lemma {:induction false} SafeGrows(s: Store, ws: seq<Write>, power: nat)
    requires Safe(s, ws)
    ensures Extends(s, Cut(s, ws, power))
    decreases |ws|
  {
    if ws != [] && power > 0 {
      CutFirst(s, ws, power);
      GrowsExtends(s, ws[0]);
      SafeGrows(Apply(s, ws[0]), ws[1..], power - 1);
      ExtendsTrans(s, Apply(s, ws[0]), Cut(s, ws, power));
    }
  }

  lemma GrowsExtends(s: Store, w: Write)
    requires Grows(s, w)
    ensures Extends(s, Apply(s, w))
  {}

  /** Along any run no session ever forgets an accepted uid: the list only grows at its end. */
  lemma {:induction false} AcceptedOnlyGrows(s: Store, steps: seq<Step>)
    requires Inv(s) && Run(s, steps)
    ensures Extends(s, Final(s, steps))
    decreases |steps|
  {
    if steps != [] {
      var a := steps[0].action;
      ActionSafe(s, a);
      SafeCut(s, PlanOf(s, a).writes, steps[0].power);
      SafeGrows(s, PlanOf(s, a).writes, steps[0].power);
      AcceptedOnlyGrows(After(s, steps[0]), steps[1..]);
      ExtendsTrans(s, After(s, steps[0]), Final(s, steps));
    }
  }

  // ---------- the outbox ----------

  /**
   In every reachable state each session has at most one outbox record it has not
   accepted, that record carries the session's next id, and reconciling raises
   nothing whatever part of the outbox it lists.
   */
  lemma OutboxSafety(s: Store, executor: Executor, sid: SessionId, listing: seq<Candidate>)
    requires Reachable(s) && Listed(RestoredOutbox(s, sid, executor), sid, listing)
    ensures forall u :: u in s.outbox && s.outbox[u].session == sid && u !in ReadRaw(s, sid, executor).accepted ==>
      s.outbox[u].displayId == ReadRaw(s, sid, executor).nextId && u !in s.markers
    ensures forall u, v :: (u in s.outbox && v in s.outbox && s.outbox[u].session == sid && s.outbox[v].session == sid
      && u !in ReadRaw(s, sid, executor).accepted && v !in ReadRaw(s, sid, executor).accepted) ==> u == v
    ensures ReconcilePlan(s, sid, executor, listing).ok
  {
    ReachableInv(s);
    ReconcileSafe(s, executor, sid, listing);
    forall u | u in s.outbox && s.outbox[u].session == sid && u !in ReadRaw(s, sid, executor).accepted ensures Orphan(s, u) {
      assert !Recorded(s, u);
    }
  }
}
