/** Reservations and batches: reserve, start, finish, fail, retry and clear keep the invariant at every write. */
module UpdateQueueBatches {
  import opened Common
  import opened UpdateQueue
  import opened UpdateQueueInvariant
  import opened UpdateQueueSafety

  // ---------- resuming never raises ----------

  /** Every participant of a live reservation passes validation: it is acknowledged, running this operation, or waiting untouched. */
  lemma ValidationNeverRaises(s: Store, executor: Executor, op: OpId, p: Participant)
    requires Inv(s) && Reserves(s, op, p)
    ensures Validated(ReadRaw(s, p.session, executor), p, op)
  {
    assert ParticipantOk(s.sessions[p.session], op, p);
    assert WellFormed(op, s.reservations[op].participants);
    assert SessionOk(s.sessions[p.session]);
  }

  // ---------- reserve ----------

  lemma {:induction false} JudgedAll(s: Store, executor: Executor, items: seq<Participant>, op: OpId, isNew: bool)
    requires JudgeAll(s, executor, items, op, isNew) == Accept
    ensures forall p :: p in items ==> Judge(s, executor, p, op, isNew) == Accept
    decreases |items|
  {
    if items != [] {
      JudgedAll(s, executor, items[1..], op, isNew);
      assert items == [items[0]] + items[1..];
    }
  }

  lemma LiveCandidate(s: Store, sid: SessionId, j: Job)
    requires Inv(s) && sid in s.sessions && j in Live(s.sessions[sid])
    ensures Accepts(s, sid, j.uid) && j.uid !in s.finished && (j.uid in s.begun ==> j.uid in s.markers)
  {
    assert SessionOk(s.sessions[sid]);
    assert IsLive(s, sid, j.uid);
  }

  /** An accepted participant of a new reservation is acknowledged or waiting, and none of its uids was published. */
  lemma AcceptedParticipant(s: Store, executor: Executor, p: Participant, op: OpId, isNew: bool)
    requires Inv(s) && op !in s.reservations && p.jobs != [] && Judge(s, executor, p, op, isNew) == Accept
    requires forall j :: j in p.jobs ==> CandidateOf(p.session, j) in op.candidates
    requires isNew || op in s.booked
    ensures p.session in s.sessions && ParticipantOk(s.sessions[p.session], op, p)
    ensures forall j :: j in p.jobs ==> Accepts(s, p.session, j.uid) && j.uid !in s.begun
  {
    assert p.session in s.sessions;
    var st := s.sessions[p.session];
    assert SessionOk(st);
    if Acknowledged(st, op) {
      forall j | j in p.jobs ensures Accepts(s, p.session, j.uid) && j.uid !in s.begun {
        assert CandidateOf(p.session, j) in op.candidates;
        assert AllFinished(s, op, p.session);
      }
    } else {
      assert st.current == p.jobs ==> exists op', q :: Runs(s, p.session, op', q);
      assert st.current == [] && IsPrefix(p.jobs, st.pending);
      assert st.lastOp != Some(op);
      forall j | j in p.jobs ensures Accepts(s, p.session, j.uid) && j.uid !in s.begun {
        assert j in st.pending;
        LiveCandidate(s, p.session, j);
        assert isNew ==> j.uid !in Uids(p.jobs) * s.markers;
        assert op in s.booked ==> CandidateOf(p.session, j).uid in s.finished;
      }
    }
  }

  /** A batch that keeps operation labels was read from a reservation of that operation. */
  ghost predicate ResumesOnly(s: Store, batch: seq<Participant>, op: OpId) {
    (forall p :: p in batch ==> p.operation == None) || op in s.booked
  }

  lemma LabelledJobs(ps: seq<Participant>, op: OpId)
    ensures |Labelled(ps, op)| == |ps|
    ensures forall i :: 0 <= i < |ps| ==> Labelled(ps, op)[i] == ps[i].(operation := Some(op))
    ensures SortedSessions(ps) ==> SortedSessions(Labelled(ps, op))
    ensures forall q :: q in Labelled(ps, op) ==> exists p :: p in ps && q == p.(operation := Some(op))
  {
    forall q | q in Labelled(ps, op) ensures exists p :: p in ps && q == p.(operation := Some(op)) {
      var i :| 0 <= i < |ps| && Labelled(ps, op)[i] == q;
      assert ps[i] in ps;
    }
  }

  lemma ReserveSafe(s: Store, executor: Executor, batch: seq<Participant>, op: OpId, now: int)
    requires Inv(s) && ResumesOnly(s, batch, op)
    ensures Safe(s, ReservePlan(s, executor, batch, op, now).writes)
  {
    var plan := ReservePlan(s, executor, batch, op, now);
    if plan.writes != [] {
      var isNew := forall p :: p in batch ==> p.operation == None;
      var items := Labelled(batch, op);
      LabelledJobs(batch, op);
      JudgedAll(s, executor, items, op, isNew);
      forall p | p in items
        ensures p.jobs != [] && p.session in s.sessions && ParticipantOk(s.sessions[p.session], op, p)
        ensures forall j :: j in p.jobs ==> Accepts(s, p.session, j.uid) && j.uid !in s.begun
      {
        assert forall j :: j in p.jobs ==> CandidateOf(p.session, j) in CandidatesOf(items);
        AcceptedParticipant(s, executor, p, op, isNew);
      }
      var r := Reservation(now, items, executor);
      assert WellFormed(op, items);
      PutReservationKeeps(s, op, r);
      SafeOne(s, PutReservation(op, r));
    }
  }

  // ---------- start, finish, fail ----------

  /** What a worker that read the reservation of `op` knows about one of its participants. */
  ghost predicate Names(s: Store, op: OpId, item: Participant) {
    && op in s.booked && item.jobs != []
    && (forall j :: j in item.jobs ==> CandidateOf(item.session, j) in op.candidates)
    && (op in s.reservations ==> exists p :: Reserves(s, op, p) && p.session == item.session && p.jobs == item.jobs)
  }

  /** Once the reservation is gone, its participants are finished and nothing of theirs is live. */
  lemma NothingLeft(s: Store, op: OpId, item: Participant)
    requires Inv(s) && Names(s, op, item) && op !in s.reservations && item.session in s.sessions
    ensures s.sessions[item.session].current != item.jobs && !IsPrefix(item.jobs, s.sessions[item.session].pending)
  {
    var st := s.sessions[item.session];
    var j := item.jobs[0];
    assert CandidateOf(item.session, j) in op.candidates;
    if st.current == item.jobs || IsPrefix(item.jobs, st.pending) {
      assert j in st.current || j in st.pending;
      LiveCandidate(s, item.session, j);
      assert false;
    }
  }

  lemma RestartKeeps(s: Store, sid: SessionId, op: OpId)
    requires Inv(s) && sid in s.sessions && s.sessions[sid].currentOp == Some(op)
    ensures Inv(Apply(s, PutSession(sid, RestartedState(s.sessions[sid], op), Kept)))
  {
    var st := s.sessions[sid];
    assert SessionOk(st);
    assert Live(RestartedState(st, op)) == Live(st);
    QuietKeeps(s, Worker, sid, RestartedState(st, op));
  }

  lemma StartSafe(s: Store, executor: Executor, op: OpId, item: Participant)
    requires Inv(s) && Names(s, op, item)
    ensures Safe(s, StartPlan(s, executor, op, item).writes)
  {
    var sid := item.session;
    var plan := StartPlan(s, executor, op, item);
    if plan.writes != [] {
      assert sid in s.sessions;
      var st := s.sessions[sid];
      assert SessionOk(st);
      if op !in s.reservations {
        NothingLeft(s, op, item);
      } else {
        var p :| Reserves(s, op, p) && p.session == sid && p.jobs == item.jobs;
        if st.current == item.jobs {
          RestartKeeps(s, sid, op);
        } else {
          StartKeeps(s, op, p);
        }
        SafeOne(s, plan.writes[0]);
      }
    }
  }

  lemma {:induction false} DropRecordsSafe(s: Store, jobs: seq<Job>)
    requires Inv(s) && forall j :: j in jobs ==> j.uid !in s.begun
    ensures Safe(s, DropRecords(jobs))
    ensures var t := Replay(s, DropRecords(jobs)); t == s.(outbox := t.outbox, markers := t.markers)
    ensures Replay(s, DropRecords(jobs)).outbox == s.outbox - Uids(jobs)
    ensures Replay(s, DropRecords(jobs)).markers == s.markers - Uids(jobs)
    decreases |jobs|
  {
    if jobs != [] {
      var u := jobs[0].uid;
      DropBothKeep(s, u);
      DropRecordsSafe(Apply(Apply(s, DropOutbox(u)), DropMarker(u)), jobs[1..]);
      DropRecordsFirst(jobs);
      UidsFirst(jobs);
    }
  }

  lemma DropBothKeep(s: Store, u: Uid)
    requires Inv(s) && u !in s.begun
    ensures Inv(Apply(s, DropOutbox(u))) && Inv(Apply(Apply(s, DropOutbox(u)), DropMarker(u)))
  {
    DropOutboxKeeps(s, u);
    DropMarkerKeeps(Apply(s, DropOutbox(u)), u);
  }

  lemma DropRecordsFirst(jobs: seq<Job>)
    requires jobs != []
    ensures var ws := DropRecords(jobs);
            |ws| >= 2 && ws[0] == DropOutbox(jobs[0].uid) && ws[1..][0] == DropMarker(jobs[0].uid) && ws[1..][1..] == DropRecords(jobs[1..])
  {}

  lemma UidsFirst(jobs: seq<Job>)
    requires jobs != []
    ensures Uids(jobs) == {jobs[0].uid} + Uids(jobs[1..])
  {
    assert jobs == [jobs[0]] + jobs[1..];
  }

  lemma RunningUnpublished(s: Store, sid: SessionId)
    requires Inv(s) && sid in s.sessions && s.sessions[sid].current != []
    ensures forall j :: j in s.sessions[sid].current ==> j.uid !in s.begun
  {
    var op, p :| Runs(s, sid, op, p);
  }

  lemma FinishSafe(s: Store, executor: Executor, op: OpId, item: Participant, result: string, now: int)
    requires Inv(s) && item.jobs != []
    ensures Safe(s, FinishPlan(s, executor, op, item, result, now).writes)
  {
    var sid := item.session;
    var plan := FinishPlan(s, executor, op, item, result, now);
    if plan.writes != [] {
      assert sid in s.sessions;
      var st := s.sessions[sid];
      RunningUnpublished(s, sid);
      var drops := DropRecords(st.current);
      var last := PutSession(sid, FinishedState(st, op, result, now), Finished(Uids(st.current)));
      DropRecordsSafe(s, st.current);
      var t := Replay(s, drops);
      SafeEnds(s, drops);
      FinishKeeps(t, sid, op, result, now);
      SafeOne(t, last);
      SafeAppend(s, drops, [last]);
    }
  }

  lemma TerminalSafe(s: Store, sid: SessionId, result: string, now: int)
    requires Inv(s)
    ensures Safe(s, TerminalPlan(s, sid, result, now).writes)
  {
    var plan := TerminalPlan(s, sid, result, now);
    if plan.writes != [] {
      FinishKeeps(s, sid, s.sessions[sid].currentOp.value, result, now);
      SafeOne(s, plan.writes[0]);
    }
  }

  lemma FailSafe(s: Store, executor: Executor, sid: SessionId, now: int)
    requires Inv(s)
    ensures Safe(s, FailPlan(s, executor, sid, now).writes)
  {
    var st := ReadRaw(s, sid, executor);
    var st' := FailedState(st, now);
    assert SessionOk(st);
    assert Live(st') == Live(st);
    QuietKeeps(s, executor, sid, st');
    SafeOne(s, PutSession(sid, st', Kept));
  }

  lemma FailParticipantSafe(s: Store, executor: Executor, op: OpId, item: Participant, now: int)
    requires Inv(s)
    ensures Safe(s, FailParticipantPlan(s, executor, op, item, now).writes)
  {
    FailSafe(s, executor, item.session, now);
  }

  lemma RetrySafe(s: Store, executor: Executor, sid: SessionId, now: int)
    requires Inv(s)
    ensures Safe(s, RetryPlan(s, executor, sid, now).writes)
  {
    var st := ReadRaw(s, sid, executor);
    var st' := RequeuedState(st, now);
    assert SessionOk(st);
    assert Live(st') == Live(st);
    QuietKeeps(s, executor, sid, st');
    SafeOne(s, PutSession(sid, st', Kept));
  }

  lemma RestoreManualSafe(s: Store, executor: Executor, sid: SessionId)
    requires Inv(s)
    ensures Safe(s, RestoreManualPlan(s, executor, sid).writes)
  {
    var st := ReadRaw(s, sid, executor);
    var st' := ManualState(st);
    assert SessionOk(st);
    assert Live(st') == Live(st);
    QuietKeeps(s, executor, sid, st');
    SafeOne(s, PutSession(sid, st', Kept));
  }

  lemma ClearSafe(s: Store, op: OpId, executor: Executor)
    requires Inv(s)
    ensures Safe(s, ClearPlan(s, op, executor).writes)
  {
    if Clearable(s, op, executor) {
      DropReservationKeeps(s, op, executor);
      SafeOne(s, DropReservation(op));
    }
  }

  lemma {:induction false} ClearLocalSafe(s: Store, uids: seq<Uid>)
    requires Inv(s) && forall u, a :: u in uids ==> !IsLive(s, a, u)
    ensures Safe(s, ClearLocalPlan(uids).writes)
    decreases |uids|
  {
    if uids != [] {
      var u := uids[0];
      DropOutboxKeeps(s, u);
      var s1 := Apply(s, DropOutbox(u));
      assert forall a :: IsLive(s1, a, u) <==> IsLive(s, a, u);
      DropMarkerKeeps(s1, u);
      var s2 := Apply(s1, DropMarker(u));
      assert forall v, a :: IsLive(s2, a, v) <==> IsLive(s, a, v);
      ClearLocalSafe(s2, uids[1..]);
      var ws := ClearLocalPlan(uids).writes;
      assert ws[1..][1..] == ClearLocalPlan(uids[1..]).writes;
      assert ws[1..][0] == DropMarker(u);
    }
  }
}
