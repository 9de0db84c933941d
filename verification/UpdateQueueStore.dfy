/**
 The store as the program runs it: one object whose fields are the durable
 records, changed by one durable write at a time. `power` is the number of
 durable writes left before the process dies; every method is proved to leave
 exactly the planned writes it still had power for.
 */
module UpdateQueueStore {
  import opened Common
  import opened UpdateQueue
  import opened UpdateQueueFinish

  /** Every participant started in order. */
  function StartAllPlan(s: Store, executor: Executor, op: OpId, items: seq<Participant>): Plan
    decreases |items|
  {
    if items == [] then Plan([], true)
    else
      var first := StartPlan(s, executor, op, items[0]);
      if !first.ok then first
      else
        var rest := StartAllPlan(Replay(s, first.writes), executor, op, items[1..]);
        Plan(first.writes + rest.writes, rest.ok)
  }

  function FailAllPlan(s: Store, executor: Executor, op: OpId, items: seq<Participant>, now: int): Plan
    decreases |items|
  {
    if items == [] then Plan([], true)
    else
      var first := FailParticipantPlan(s, executor, op, items[0], now);
      if !first.ok then first
      else
        var rest := FailAllPlan(Replay(s, first.writes), executor, op, items[1..], now);
        Plan(first.writes + rest.writes, rest.ok)
  }

  /** acknowledge_synchronized: session by session, until one has started a candidate. */
  function AcknowledgeAllPlan(s: Store, executor: Executor, sids: seq<SessionId>, uids: set<Uid>, result: string): Plan
    decreases |sids|
  {
    if sids == [] then Plan([], true)
    else
      var first := AcknowledgePlan(s, executor, sids[0], uids, result);
      if !first.ok then first
      else
        var rest := AcknowledgeAllPlan(Replay(s, first.writes), executor, sids[1..], uids, result);
        Plan(first.writes + rest.writes, rest.ok)
  }

  function RetryAllPlan(s: Store, executor: Executor, sids: seq<SessionId>, now: int): Plan
    decreases |sids|
  {
    if sids == [] then Plan([], true)
    else
      var first := RetryPlan(s, executor, sids[0], now);
      var rest := RetryAllPlan(Replay(s, first.writes), executor, sids[1..], now);
      Plan(first.writes + rest.writes, rest.ok)
  }

  function RestoreAllPlan(s: Store, executor: Executor, sids: seq<SessionId>): Plan
    decreases |sids|
  {
    if sids == [] then Plan([], true)
    else
      var first := RestoreManualPlan(s, executor, sids[0]);
      var rest := RestoreAllPlan(Replay(s, first.writes), executor, sids[1..]);
      Plan(first.writes + rest.writes, rest.ok)
  }

  /** The sessions that a retry puts back into the queue. */
  function Requeued(s: Store, executor: Executor, sids: seq<SessionId>, now: int): seq<SessionId>
    decreases |sids|
  {
    if sids == [] then []
    else
      var first := RetryPlan(s, executor, sids[0], now);
      (if first.writes == [] then [] else [sids[0]]) + Requeued(Replay(s, first.writes), executor, sids[1..], now)
  }

  /** retry_manual_recovery: requeue, start the worker, and put everything back if it does not start. */
  function RetryCall(s: Store, executor: Executor, sids: seq<SessionId>, now: int, starts: bool): Plan {
    var first := RetryAllPlan(s, executor, sids, now);
    if starts then first
    else
      var rest := RestoreAllPlan(Replay(s, first.writes), executor, Requeued(s, executor, sids, now));
      Plan(first.writes + rest.writes, rest.ok)
  }

  /** start_reserved_batch: the reservation must exist and belong to this executor. */
  function StartCall(s: Store, executor: Executor, op: OpId): Plan {
    if op !in s.reservations || s.reservations[op].executor != executor then Plan([], false)
    else StartAllPlan(s, executor, op, s.reservations[op].participants)
  }

  function RecordPlan(outbox: map<Uid, Candidate>, c: Candidate, sid: SessionId, next: Session): Plan {
    if c.uid in outbox && outbox[c.uid] != c then Plan([], false)
    else if c.uid in outbox then Plan([PutSession(sid, next, Kept)], true)
    else Plan([PutOutbox(c)] + [PutSession(sid, next, Kept)], true)
  }

  lemma EnqueueIsOwnThenRecord(outbox: map<Uid, Candidate>, st: Session, executor: Executor, sid: SessionId, uid: Uid, message: string, now: int)
    requires st.executor == executor || Live(st) == []
    ensures var mine := st.(executor := executor);
            var own := if executor == Assistant then [PutSession(sid, mine, Kept)] else [];
            var job := Job(st.nextId, uid, message, now);
            var rest := RecordPlan(outbox, CandidateOf(sid, job), sid, Enqueue(mine.(accepted := st.accepted + [uid]), job, now));
            uid !in st.accepted ==> EnqueuePlan(outbox, st, executor, sid, uid, message, now) == Plan(own + rest.writes, rest.ok)
  {
    if uid !in st.accepted {
      var mine := st.(executor := executor);
      var own := if executor == Assistant then [PutSession(sid, mine, Kept)] else [];
      assert own + [] == own;
    }
  }

  /** A plan made in two parts is cut in the first part or in the second. */
  lemma CutInParts(s: Store, first: seq<Write>, rest: seq<Write>, power: nat)
    ensures power < |first| ==> Cut(s, first + rest, power) == Cut(s, first, power)
    ensures power >= |first| ==> Cut(s, first + rest, power) == Cut(Cut(s, first, power), rest, power - |first|)
  {
    CutAppend(s, first, rest, power);
  }

  /** A first participant that returns leaves the rest of the call; one that does not ends it. */
  lemma TurnStep(s: Store, first: Plan, rest: Plan, whole: Plan, power: nat)
    requires whole == if first.ok then Plan(first.writes + rest.writes, rest.ok) else first
    ensures if ExitOf(|first.writes|, first.ok, power) == Returned then
              && Cut(s, first.writes, power) == Replay(s, first.writes)
              && Cut(s, whole.writes, power) == Cut(Replay(s, first.writes), rest.writes, power - |first.writes|)
              && |whole.writes| == |first.writes| + |rest.writes| && whole.ok == rest.ok
            else
              && Cut(s, whole.writes, power) == Cut(s, first.writes, power)
              && PowerAfter(|whole.writes|, power) == PowerAfter(|first.writes|, power)
              && ExitOf(|whole.writes|, whole.ok, power) == ExitOf(|first.writes|, first.ok, power)
  {
    if first.ok {
      CutInParts(s, first.writes, rest.writes, power);
    }
  }

  lemma {:induction false} RetryNeverRaises(s: Store, executor: Executor, sids: seq<SessionId>, now: int)
    ensures RetryAllPlan(s, executor, sids, now).ok
    decreases |sids|
  {
    if sids != [] {
      RetryNeverRaises(Replay(s, RetryPlan(s, executor, sids[0], now).writes), executor, sids[1..], now);
    }
  }

  class AsyncUpdateStore {
    var sessions: map<SessionId, Session>
    var reservations: map<OpId, Reservation>
    var outbox: map<Uid, Candidate>
    var markers: set<Uid>
    var power: nat
    const executor: Executor
    // history, written with the durable records and never read by an operation
    var booked: set<OpId>
    var begun: set<Uid>
    var cancelled: set<Uid>
    var finished: set<Uid>
    var handed: set<Uid>

    constructor (executor: Executor, power: nat)
      ensures View() == Store(map[], map[], map[], {}, {}, {}, {}, {}, {})
      ensures this.executor == executor && this.power == power
    {
      sessions, reservations, outbox, markers := map[], map[], map[], {};
      booked, begun, cancelled, finished, handed := {}, {}, {}, {}, {};
      this.executor, this.power := executor, power;
    }

    function View(): Store
      reads this
    {
      Store(sessions, reservations, outbox, markers, booked, begun, cancelled, finished, handed)
    }

    /** The planned writes were made as far as the power went, and nothing else. */
    twostate predicate Performed(plan: Plan, exit: Exit)
      reads this
    {
      && View() == Cut(old(View()), plan.writes, old(power))
      && power == PowerAfter(|plan.writes|, old(power))
      && exit == ExitOf(|plan.writes|, plan.ok, old(power))
    }

    /** What remains of `plan` after some of its writes is `rest`. */
    twostate predicate Leaves(plan: Plan, rest: Plan)
      reads this
    {
      && Cut(old(View()), plan.writes, old(power)) == Cut(View(), rest.writes, power)
      && |plan.writes| - old(power) == |rest.writes| - power
      && plan.ok == rest.ok
    }

    method Read(sid: SessionId) returns (st: Session)
      ensures st == ReadRaw(View(), sid, executor)
    {
      if sid in sessions {
        st := sessions[sid];
      } else {
        st := FreshSession(executor);
      }
    }

    /** One atomic, flushed file replacement or removal. */
    method Persist(w: Write) returns (alive: bool)
      modifies this
      ensures alive <==> old(power) > 0
      ensures View() == if alive then Apply(old(View()), w) else old(View())
      ensures power == if alive then old(power) - 1 else 0
    {
      if power == 0 {
        return false;
      }
      power := power - 1;
      match w {
        case PutSession(sid, st, fate) =>
          sessions := sessions[sid := st];
          match fate {
            case Kept =>
            case Cancelled(us) => cancelled := cancelled + us;
            case Finished(us) => finished := finished + us;
            case Handed(us) => handed := handed + us;
          }
        case PutOutbox(c) => outbox := outbox[c.uid := c];
        case DropOutbox(u) => outbox := outbox - {u};
        case PutMarker(u) => markers, begun := markers + {u}, begun + {u};
        case DropMarker(u) => markers := markers - {u};
        case PutReservation(op, r) => reservations, booked := reservations[op := r], booked + {op};
        case DropReservation(op) => reservations := reservations - {op};
      }
      return true;
    }

    /** A plan of at most one write. */
    method PersistLast(w: Write) returns (exit: Exit)
      modifies this
      ensures Performed(Plan([w], true), exit)
    {
      ReplayOne(View(), w);
      assert [w][..0] == [];
      var alive := Persist(w);
      exit := if alive then Returned else Crashed;
    }

    // ---------- outbox reconciliation ----------

    method Restore(sid: SessionId, jobs: seq<Job>) returns (exit: Exit)
      modifies this
      ensures Performed(RestorePlan(old(outbox), sid, jobs), exit)
    {
      ghost var whole := RestorePlan(outbox, sid, jobs);
      ghost var done: seq<Write> := [];
      var i := 0;
      while i < |jobs|
        invariant 0 <= i <= |jobs|
        invariant View() == Replay(old(View()), done) && |done| + power == old(power)
        invariant whole == Plan(done + RestorePlan(outbox, sid, jobs[i..]).writes, RestorePlan(outbox, sid, jobs[i..]).ok)
      {
        var c := CandidateOf(sid, jobs[i]);
        assert jobs[i..][1..] == jobs[i + 1..];
        if c.uid !in outbox {
          ghost var rest := RestorePlan(outbox[c.uid := c], sid, jobs[i + 1..]).writes;
          assert whole.writes == (done + [PutOutbox(c)]) + rest;
          CutAppend(old(View()), done, [PutOutbox(c)] + rest, old(power));
          var alive := Persist(PutOutbox(c));
          if !alive {
            return Crashed;
          }
          ReplayAppend(old(View()), done, [PutOutbox(c)]);
          ReplayOne(Replay(old(View()), done), PutOutbox(c));
          done := done + [PutOutbox(c)];
        } else if outbox[c.uid] != c {
          assert whole.writes == done;
          return Raised;
        }
        i := i + 1;
      }
      assert jobs[i..] == [] && whole.writes == done;
      return Returned;
    }

    method Reconcile(sid: SessionId, listing: seq<Candidate>) returns (exit: Exit)
      modifies this
      ensures Performed(ReconcilePlan(old(View()), sid, executor, listing), exit)
    {
      var st := Read(sid);
      var live := LiveByUid(Live(st));
      var changed := false;
      ghost var restore := RestorePlan(outbox, sid, st.pending);
      ghost var before := Adopt(st, sid, markers, live, listing);
      ghost var a := before;
      exit := Restore(sid, st.pending);
      label restored:
      if exit == Raised {
        return;
      }
      if exit == Crashed {
        CutAppend(old(View()), restore.writes, [PutSession(sid, a.session, Kept)], old(power));
        assert restore.writes + [] == restore.writes;
        return;
      }
      RestoreOnlyOutbox(old(View()), sid, st.pending);
      var i := 0;
      while i < |listing|
        invariant 0 <= i <= |listing|
        invariant View() == old@restored(View()) && power == old@restored(power)
        invariant a == Adopt(st, sid, markers, live, listing[i..])
        invariant before == a.(changed := a.changed || changed)
      {
        var c := listing[i];
        assert listing[i..][1..] == listing[i + 1..];
        if c.session != sid {
          assert restore.writes + [] == restore.writes;
          return Raised;
        }
        if c.uid in live {
          if CandidateOf(sid, live[c.uid]) != c {
            return Raised;
          }
        } else if c.uid !in st.accepted && c.uid !in markers {
          if c.displayId != st.nextId {
            return Raised;
          }
          st := Enqueue(st.(accepted := st.accepted + [c.uid]), JobOf(c), c.submittedAt);
          live := live[c.uid := JobOf(c)];
          changed := true;
          a := Adopt(st, sid, markers, live, listing[i + 1..]);
        }
        i := i + 1;
      }
      if changed {
        CutAppend(old(View()), restore.writes, [PutSession(sid, st, Kept)], old(power));
        exit := PersistLast(PutSession(sid, st, Kept));
      } else {
        assert restore.writes + [] == restore.writes;
      }
    }

    // ---------- submit ----------

    /** Write the outbox record (unless it is there already), then the session that accepts it. */
    method RecordAndAccept(c: Candidate, sid: SessionId, next: Session) returns (exit: Exit)
      modifies this
      ensures Performed(RecordPlan(old(outbox), c, sid, next), exit)
    {
      if c.uid in outbox {
        if outbox[c.uid] != c {
          return Raised;
        }
      } else {
        CutAppend(View(), [PutOutbox(c)], [PutSession(sid, next, Kept)], power);
        exit := PersistLast(PutOutbox(c));
        if exit == Crashed {
          return;
        }
      }
      exit := PersistLast(PutSession(sid, next, Kept));
    }

    /** The part of submit that follows reconciliation. */
    method AcceptCandidate(sid: SessionId, uid: Uid, message: string, now: int) returns (exit: Exit)
      modifies this
      ensures Performed(EnqueuePlan(old(outbox), ReadRaw(old(View()), sid, executor), executor, sid, uid, message, now), exit)
    {
      var st := Read(sid);
      if st.executor != executor && (st.current != [] || st.pending != []) {
        return Raised;
      }
      assert Live(st) == [] ==> st.current == [] && st.pending == [];
      var mine := st.(executor := executor);
      var job := Job(st.nextId, uid, message, now);
      var next := Enqueue(mine.(accepted := st.accepted + [uid]), job, now);
      ghost var own := if executor == Assistant then [PutSession(sid, mine, Kept)] else [];
      ghost var rest := RecordPlan(outbox, CandidateOf(sid, job), sid, next);
      EnqueueIsOwnThenRecord(outbox, st, executor, sid, uid, message, now);
      CutInParts(View(), own, rest.writes, power);
      ReplayOne(View(), PutSession(sid, mine, Kept));
      exit := Returned;
      if executor == Assistant {
        exit := PersistLast(PutSession(sid, mine, Kept));
        if exit == Crashed {
          return;
        }
      }
      if uid in st.accepted {
        exit := if MessagesMatch(st, uid, message) then Returned else Raised;
      } else {
        exit := RecordAndAccept(CandidateOf(sid, job), sid, next);
      }
    }

    method Submit(sid: SessionId, uid: Uid, message: string, now: int, listing: seq<Candidate>) returns (exit: Exit)
      modifies this
      ensures Performed(SubmitPlan(old(View()), executor, sid, uid, message, now, listing), exit)
    {
      ghost var first := ReconcilePlan(View(), sid, executor, listing);
      ghost var mid := Replay(View(), first.writes);
      ghost var second := EnqueuePlan(mid.outbox, ReadRaw(mid, sid, executor), executor, sid, uid, message, now);
      CutAppend(View(), first.writes, second.writes, power);
      exit := Reconcile(sid, listing);
      if exit == Returned {
        exit := AcceptCandidate(sid, uid, message, now);
      }
    }

    // ---------- cancel, publish, acknowledge ----------

    method Cancel(sid: SessionId, id: int) returns (exit: Exit)
      modifies this
      ensures Performed(CancelPlan(old(View()), executor, sid, id), exit)
    {
      if id < 1 {
        return Raised;
      }
      var reserved := ReservedIds(View(), sid);
      var st := Read(sid);
      var selected := FindById(st.pending, id);
      if selected.Some? && selected.value.uid in markers {
        return Returned;
      }
      var pending := WithoutId(st.pending, id, reserved);
      if |pending| == |st.pending| {
        return Returned;
      }
      if selected.Some? {
        var u := selected.value.uid;
        ghost var last := PutSession(sid, st.(pending := pending), Cancelled({u}));
        CutAppend(View(), [DropOutbox(u)], [last], power);
        assert [DropOutbox(u)] + [last] == [DropOutbox(u), last];
        exit := PersistLast(DropOutbox(u));
        if exit == Crashed {
          return;
        }
        exit := PersistLast(PutSession(sid, st.(pending := pending), Cancelled({u})));
      } else {
        exit := PersistLast(PutSession(sid, st.(pending := pending), Kept));
      }
    }

    method BeginPublication(candidate: Candidate) returns (exit: Exit)
      modifies this
      ensures Performed(BeginPublicationPlan(old(View()), executor, candidate), exit)
    {
      var u := candidate.uid;
      var reserved := ReservedUids(View(), candidate.session);
      if u !in outbox {
        return Returned;
      }
      if outbox[u] != candidate {
        return Raised;
      }
      ghost var first := ReconcilePlan(View(), candidate.session, executor, [candidate]);
      ghost var second := PublishPlan(Replay(View(), first.writes), executor, candidate, reserved);
      CutAppend(View(), first.writes, second.writes, power);
      exit := Reconcile(candidate.session, [candidate]);
      if exit == Returned {
        var st := Read(candidate.session);
        var job := FindByUid(st.pending, u);
        if u in Uids(st.current) || u in reserved || (job.None? && u !in markers) {
          return Returned;
        }
        if job.Some? && CandidateOf(candidate.session, job.value) != candidate {
          return Raised;
        }
        if u !in markers {
          exit := PersistLast(PutMarker(u));
        }
      }
    }

    /** One session's share. */
    method AcknowledgeSession(sid: SessionId, uids: set<Uid>, result: string) returns (exit: Exit)
      modifies this
      ensures Performed(AcknowledgePlan(old(View()), executor, sid, uids, result), exit)
    {
      var st := Read(sid);
      if exists j :: j in st.current && j.uid in uids {
        assert Uids(st.current) * uids != {} by {
          var j :| j in st.current && j.uid in uids;
          assert j.uid in Uids(st.current) * uids;
        }
        return Raised;
      }
      assert Uids(st.current) * uids == {};
      var pending := WithoutUids(st.pending, uids);
      if |pending| != |st.pending| {
        exit := PersistLast(PutSession(sid, HandedState(st, pending, result), Handed(Uids(st.pending) * uids)));
      } else {
        exit := Returned;
      }
    }

    method AcknowledgeFirst(sids: seq<SessionId>, uids: set<Uid>, result: string) returns (exit: Exit)
      requires sids != []
      modifies this
      ensures if exit == Returned then Leaves(AcknowledgeAllPlan(old(View()), executor, sids, uids, result), AcknowledgeAllPlan(View(), executor, sids[1..], uids, result))
              else Performed(AcknowledgeAllPlan(old(View()), executor, sids, uids, result), exit)
    {
      ghost var first := AcknowledgePlan(View(), executor, sids[0], uids, result);
      TurnStep(View(), first, AcknowledgeAllPlan(Replay(View(), first.writes), executor, sids[1..], uids, result),
               AcknowledgeAllPlan(View(), executor, sids, uids, result), power);
      exit := AcknowledgeSession(sids[0], uids, result);
    }

    method AcknowledgeSynchronized(sids: seq<SessionId>, uids: set<Uid>, result: string) returns (exit: Exit)
      modifies this
      ensures Performed(AcknowledgeAllPlan(old(View()), executor, sids, uids, result), exit)
    {
      var rest := sids;
      while rest != []
        invariant Leaves(AcknowledgeAllPlan(old(View()), executor, sids, uids, result), AcknowledgeAllPlan(View(), executor, rest, uids, result))
        decreases |rest|
      {
        exit := AcknowledgeFirst(rest, uids, result);
        if exit != Returned {
          return;
        }
        rest := rest[1..];
      }
      return Returned;
    }

    // ---------- reservations ----------

    method JudgeParticipant(p: Participant, op: OpId, isNew: bool) returns (verdict: Verdict)
      ensures verdict == Judge(View(), executor, p, op, isNew)
    {
      var st := Read(p.session);
      if st.executor != executor {
        return Refuse;
      }
      if isNew && exists j :: j in p.jobs && j.uid in markers {
        assert Uids(p.jobs) * markers != {} by {
          var j :| j in p.jobs && j.uid in markers;
          assert j.uid in Uids(p.jobs) * markers;
        }
        return Withdraw;
      }
      assert isNew ==> Uids(p.jobs) * markers == {};
      if isNew && st.lastOp != Some(op) && st.current == [] && st.currentOp == None && !IsPrefix(p.jobs, st.pending) {
        return Withdraw;
      }
      verdict := if Validated(st, p, op) then Accept else Refuse;
    }

    /** The loop of a reservation, which stops at the first participant that is not as it was selected. */
    method JudgeParticipants(items: seq<Participant>, op: OpId, isNew: bool) returns (verdict: Verdict)
      ensures verdict == JudgeAll(View(), executor, items, op, isNew)
    {
      var i := 0;
      assert items[0..] == items;
      while i < |items|
        invariant 0 <= i <= |items|
        invariant JudgeAll(View(), executor, items, op, isNew) == JudgeAll(View(), executor, items[i..], op, isNew)
      {
        assert items[i..][1..] == items[i + 1..];
        verdict := JudgeParticipant(items[i], op, isNew);
        if verdict != Accept {
          return;
        }
        i := i + 1;
      }
      verdict := Accept;
    }

    method Reserve(batch: seq<Participant>, op: OpId, now: int) returns (exit: Exit)
      modifies this
      ensures Performed(ReservePlan(old(View()), executor, batch, op, now), exit)
    {
      var isNew := forall p :: p in batch ==> p.operation == None;
      var items := Labelled(batch, op);
      if batch == [] || !SortedSessions(batch) || (exists p :: p in batch && p.jobs == []) || BatchId(items) != op {
        return Raised;
      }
      if op in reservations {
        var existing := reservations[op];
        return if existing.executor == executor && existing.participants == items then Returned else Raised;
      }
      if Overlaps(View(), items) {
        return Raised;
      }
      var verdict := JudgeParticipants(items, op, isNew);
      if verdict != Accept {
        return if verdict == Withdraw then Returned else Raised;
      }
      exit := PersistLast(PutReservation(op, Reservation(now, items, executor)));
    }

    method ClearIfAcknowledged(op: OpId) returns (exit: Exit)
      modifies this
      ensures Performed(ClearPlan(old(View()), op, executor), exit)
    {
      if op !in reservations {
        return Returned;
      }
      var items := reservations[op].participants;
      var i := 0;
      while i < |items|
        invariant 0 <= i <= |items|
        invariant View() == old(View()) && power == old(power)
        invariant forall k :: 0 <= k < i ==> ReadRaw(View(), items[k].session, executor).lastOp == Some(op)
      {
        var st := Read(items[i].session);
        if st.lastOp != Some(op) {
          assert items[i] in items;
          return Returned;
        }
        i := i + 1;
      }
      exit := PersistLast(DropReservation(op));
    }

    // ---------- batches ----------

    method StartParticipant(op: OpId, item: Participant) returns (exit: Exit)
      modifies this
      ensures Performed(StartPlan(old(View()), executor, op, item), exit)
    {
      var st := Read(item.session);
      if st.lastOp == Some(op) && st.current == [] {
        return Returned;
      }
      if st.current == item.jobs {
        if st.currentOp != None && st.currentOp != Some(op) {
          return Raised;
        }
        exit := PersistLast(PutSession(item.session, RestartedState(st, op), Kept));
        return;
      }
      if st.current != [] || !IsPrefix(item.jobs, st.pending) || st.currentOp != None {
        return Raised;
      }
      exit := PersistLast(PutSession(item.session, StartedState(st, op, |item.jobs|), Kept));
    }

    method StartFirst(op: OpId, items: seq<Participant>) returns (exit: Exit)
      requires items != []
      modifies this
      ensures if exit == Returned then Leaves(StartAllPlan(old(View()), executor, op, items), StartAllPlan(View(), executor, op, items[1..]))
              else Performed(StartAllPlan(old(View()), executor, op, items), exit)
    {
      ghost var first := StartPlan(View(), executor, op, items[0]);
      TurnStep(View(), first, StartAllPlan(Replay(View(), first.writes), executor, op, items[1..]), StartAllPlan(View(), executor, op, items), power);
      exit := StartParticipant(op, items[0]);
    }

    method StartReservedBatch(op: OpId) returns (exit: Exit)
      modifies this
      ensures Performed(StartCall(old(View()), executor, op), exit)
    {
      if op !in reservations || reservations[op].executor != executor {
        return Raised;
      }
      var items := reservations[op].participants;
      var rest := items;
      while rest != []
        invariant Leaves(StartAllPlan(old(View()), executor, op, items), StartAllPlan(View(), executor, op, rest))
        decreases |rest|
      {
        exit := StartFirst(op, rest);
        if exit != Returned {
          return;
        }
        rest := rest[1..];
      }
      return Returned;
    }

    /** Remove the outbox record and the publication marker of every job. */
    method DropAllRecords(jobs: seq<Job>) returns (exit: Exit)
      modifies this
      ensures Performed(Plan(DropRecords(jobs), true), exit)
    {
      ghost var whole := Plan(DropRecords(jobs), true);
      assert jobs[0..] == jobs;
      var i := 0;
      while i < |jobs|
        invariant 0 <= i <= |jobs|
        invariant Leaves(whole, Plan(DropRecords(jobs[i..]), true))
      {
        var u := jobs[i].uid;
        assert jobs[i..][1..] == jobs[i + 1..];
        ghost var rest := DropRecords(jobs[i + 1..]);
        assert DropRecords(jobs[i..]) == [DropOutbox(u)] + ([DropMarker(u)] + rest);
        CutInParts(View(), [DropOutbox(u)], [DropMarker(u)] + rest, power);
        exit := PersistLast(DropOutbox(u));
        if exit == Crashed {
          return;
        }
        CutInParts(View(), [DropMarker(u)], rest, power);
        exit := PersistLast(DropMarker(u));
        if exit == Crashed {
          return;
        }
        i := i + 1;
      }
      return Returned;
    }

    method FinishParticipant(op: OpId, item: Participant, result: string, now: int) returns (exit: Exit)
      modifies this
      ensures Performed(FinishPlan(old(View()), executor, op, item, result, now), exit)
    {
      var st := Read(item.session);
      if st.lastOp == Some(op) && st.current == [] {
        return Returned;
      }
      if st.current != item.jobs || st.currentOp != Some(op) {
        return Raised;
      }
      ghost var last := PutSession(item.session, FinishedState(st, op, result, now), Finished(Uids(st.current)));
      CutInParts(View(), DropRecords(st.current), [last], power);
      exit := DropAllRecords(st.current);
      if exit == Returned {
        exit := PersistLast(PutSession(item.session, FinishedState(st, op, result, now), Finished(Uids(st.current))));
      }
    }

    method FinishFirst(op: OpId, items: seq<Participant>, result: string, now: int) returns (exit: Exit)
      requires items != []
      modifies this
      ensures if exit == Returned then Leaves(FinishAllPlan(old(View()), executor, op, items, result, now), FinishAllPlan(View(), executor, op, items[1..], result, now))
              else Performed(FinishAllPlan(old(View()), executor, op, items, result, now), exit)
    {
      ghost var first := FinishPlan(View(), executor, op, items[0], result, now);
      TurnStep(View(), first, FinishAllPlan(Replay(View(), first.writes), executor, op, items[1..], result, now), FinishAllPlan(View(), executor, op, items, result, now), power);
      exit := FinishParticipant(op, items[0], result, now);
    }

    method FinishParticipants(op: OpId, items: seq<Participant>, result: string, now: int) returns (exit: Exit)
      modifies this
      ensures Performed(FinishAllPlan(old(View()), executor, op, items, result, now), exit)
    {
      var rest := items;
      while rest != []
        invariant Leaves(FinishAllPlan(old(View()), executor, op, items, result, now), FinishAllPlan(View(), executor, op, rest, result, now))
        decreases |rest|
      {
        exit := FinishFirst(op, rest, result, now);
        if exit != Returned {
          return;
        }
        rest := rest[1..];
      }
      return Returned;
    }

    method FinishReservedBatch(op: OpId, result: string, now: int) returns (exit: Exit)
      modifies this
      ensures Performed(FinishCall(old(View()), executor, op, result, now), exit)
    {
      if op !in reservations {
        return Returned;
      }
      if reservations[op].executor != executor {
        return Raised;
      }
      var items := reservations[op].participants;
      ghost var all := FinishAllPlan(View(), executor, op, items, result, now);
      CutInParts(View(), all.writes, ClearPlan(Replay(View(), all.writes), op, executor).writes, power);
      exit := FinishParticipants(op, items, result, now);
      if exit == Returned {
        exit := ClearIfAcknowledged(op);
      }
    }

    method FailParticipant(op: OpId, item: Participant, now: int) returns (exit: Exit)
      modifies this
      ensures Performed(FailParticipantPlan(old(View()), executor, op, item, now), exit)
    {
      var st := Read(item.session);
      if st.lastOp == Some(op) && st.current == [] {
        return Returned;
      }
      if st.current != item.jobs || st.currentOp != Some(op) {
        return Raised;
      }
      exit := PersistLast(PutSession(item.session, FailedState(st, now), Kept));
    }

    method FailFirst(op: OpId, items: seq<Participant>, now: int) returns (exit: Exit)
      requires items != []
      modifies this
      ensures if exit == Returned then Leaves(FailAllPlan(old(View()), executor, op, items, now), FailAllPlan(View(), executor, op, items[1..], now))
              else Performed(FailAllPlan(old(View()), executor, op, items, now), exit)
    {
      ghost var first := FailParticipantPlan(View(), executor, op, items[0], now);
      TurnStep(View(), first, FailAllPlan(Replay(View(), first.writes), executor, op, items[1..], now), FailAllPlan(View(), executor, op, items, now), power);
      exit := FailParticipant(op, items[0], now);
    }

    method FailCrossSessionBatch(op: OpId, items: seq<Participant>, now: int) returns (exit: Exit)
      modifies this
      ensures Performed(FailAllPlan(old(View()), executor, op, items, now), exit)
    {
      var rest := items;
      while rest != []
        invariant Leaves(FailAllPlan(old(View()), executor, op, items, now), FailAllPlan(View(), executor, op, rest, now))
        decreases |rest|
      {
        exit := FailFirst(op, rest, now);
        if exit != Returned {
          return;
        }
        rest := rest[1..];
      }
      return Returned;
    }

    /** One session's share of the manual-recovery retry. */
    method RetrySession(sid: SessionId, now: int) returns (exit: Exit, requeued: bool)
      modifies this
      ensures Performed(RetryPlan(old(View()), executor, sid, now), exit)
      ensures requeued <==> RetryPlan(old(View()), executor, sid, now).writes != []
    {
      var st := Read(sid);
      if st.executor != executor || st.status != ManualRecovery || |st.current| + |st.pending| == 0 {
        assert |Live(st)| == |st.current| + |st.pending|;
        return Returned, false;
      }
      exit := PersistLast(PutSession(sid, RequeuedState(st, now), Kept));
      requeued := true;
    }

    method RetryFirst(sids: seq<SessionId>, now: int) returns (exit: Exit, requeued: seq<SessionId>)
      requires sids != []
      modifies this
      ensures if exit == Returned then
                && Leaves(RetryAllPlan(old(View()), executor, sids, now), RetryAllPlan(View(), executor, sids[1..], now))
                && View() == Replay(old(View()), RetryPlan(old(View()), executor, sids[0], now).writes)
                && requeued + Requeued(View(), executor, sids[1..], now) == Requeued(old(View()), executor, sids, now)
              else Performed(RetryAllPlan(old(View()), executor, sids, now), exit)
    {
      ghost var first := RetryPlan(View(), executor, sids[0], now);
      TurnStep(View(), first, RetryAllPlan(Replay(View(), first.writes), executor, sids[1..], now), RetryAllPlan(View(), executor, sids, now), power);
      var wrote;
      exit, wrote := RetrySession(sids[0], now);
      requeued := if wrote then [sids[0]] else [];
    }

    method RetrySessions(sids: seq<SessionId>, now: int) returns (exit: Exit, requeued: seq<SessionId>)
      modifies this
      ensures Performed(RetryAllPlan(old(View()), executor, sids, now), exit)
      ensures exit == Returned ==> requeued == Requeued(old(View()), executor, sids, now)
    {
      requeued := [];
      var rest := sids;
      while rest != []
        invariant Leaves(RetryAllPlan(old(View()), executor, sids, now), RetryAllPlan(View(), executor, rest, now))
        invariant requeued + Requeued(View(), executor, rest, now) == Requeued(old(View()), executor, sids, now)
        decreases |rest|
      {
        var more;
        exit, more := RetryFirst(rest, now);
        if exit != Returned {
          return;
        }
        Assoc(requeued, more, Requeued(View(), executor, rest[1..], now));
        requeued, rest := requeued + more, rest[1..];
      }
      exit := Returned;
    }

    method RestoreSession(sid: SessionId) returns (exit: Exit)
      modifies this
      ensures Performed(RestoreManualPlan(old(View()), executor, sid), exit)
    {
      var st := Read(sid);
      if |st.current| + |st.pending| == 0 {
        assert |Live(st)| == 0;
        return Returned;
      }
      assert |Live(st)| > 0;
      exit := PersistLast(PutSession(sid, ManualState(st), Kept));
    }

    method RestoreFirst(sids: seq<SessionId>) returns (exit: Exit)
      requires sids != []
      modifies this
      ensures if exit == Returned then Leaves(RestoreAllPlan(old(View()), executor, sids), RestoreAllPlan(View(), executor, sids[1..]))
              else Performed(RestoreAllPlan(old(View()), executor, sids), exit)
    {
      ghost var first := RestoreManualPlan(View(), executor, sids[0]);
      TurnStep(View(), first, RestoreAllPlan(Replay(View(), first.writes), executor, sids[1..]), RestoreAllPlan(View(), executor, sids), power);
      exit := RestoreSession(sids[0]);
    }

    method RestoreManualRecovery(sids: seq<SessionId>) returns (exit: Exit)
      modifies this
      ensures Performed(RestoreAllPlan(old(View()), executor, sids), exit)
    {
      var rest := sids;
      while rest != []
        invariant Leaves(RestoreAllPlan(old(View()), executor, sids), RestoreAllPlan(View(), executor, rest))
        decreases |rest|
      {
        exit := RestoreFirst(rest);
        if exit != Returned {
          return;
        }
        rest := rest[1..];
      }
      return Returned;
    }

    /** Requeue what needs manual recovery; `starts` says whether the worker then starts. */
    method RetryManualRecovery(sids: seq<SessionId>, now: int, starts: bool) returns (exit: Exit)
      modifies this
      ensures Performed(RetryCall(old(View()), executor, sids, now, starts), exit)
    {
      ghost var first := RetryAllPlan(View(), executor, sids, now);
      RetryNeverRaises(View(), executor, sids, now);
      ghost var rest := RestoreAllPlan(Replay(View(), first.writes), executor, Requeued(View(), executor, sids, now));
      TurnStep(View(), first, rest, Plan(first.writes + rest.writes, rest.ok), power);
      var requeued;
      exit, requeued := RetrySessions(sids, now);
      if exit == Returned && requeued != [] && !starts {
        exit := RestoreManualRecovery(requeued);
      }
    }
  }

  lemma {:induction false} RestoreOnlyOutbox(s: Store, sid: SessionId, jobs: seq<Job>)
    ensures var t := Replay(s, RestorePlan(s.outbox, sid, jobs).writes); t == s.(outbox := t.outbox)
    decreases |jobs|
  {
    if jobs != [] {
      var c := CandidateOf(sid, jobs[0]);
      if c.uid !in s.outbox {
        RestoreOnlyOutbox(Apply(s, PutOutbox(c)), sid, jobs[1..]);
        assert RestorePlan(s.outbox, sid, jobs).writes[1..] == RestorePlan(s.outbox[c.uid := c], sid, jobs[1..]).writes;
      } else if s.outbox[c.uid] == c {
        RestoreOnlyOutbox(s, sid, jobs[1..]);
      }
    }
  }
}
