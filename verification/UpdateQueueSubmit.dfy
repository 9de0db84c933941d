/** A submit that was cut off can be sent again: the candidate is added exactly once. */
module UpdateQueueSubmit {
  import opened Common
  import opened UpdateQueue
  import opened UpdateQueueInvariant
  import opened UpdateQueueSafety

  // ---------- what reconciliation makes of a session ----------

  ghost predicate OrphanOf(s: Store, sid: SessionId, u: Uid) {
    u in s.outbox && s.outbox[u].session == sid && Orphan(s, u)
  }

  ghost function Reconciled(s: Store, executor: Executor, sid: SessionId): Session {
    var st := ReadRaw(s, sid, executor);
    if u :| OrphanOf(s, sid, u) then Adopted(st, s.outbox[u]) else st
  }

  lemma OnlyOrphan(s: Store, executor: Executor, sid: SessionId, u: Uid)
    requires Inv(s) && OrphanOf(s, sid, u)
    ensures Reconciled(s, executor, sid) == Adopted(ReadRaw(s, sid, executor), s.outbox[u])
  {
    assert forall v :: OrphanOf(s, sid, v) ==> v == u;
  }

  ghost predicate FullListing(s: Store, executor: Executor, sid: SessionId, listing: seq<Candidate>) {
    Listed(RestoredOutbox(s, sid, executor), sid, listing) && ListsAll(RestoredOutbox(s, sid, executor), sid, listing)
  }

  lemma ReconciledSession(s: Store, executor: Executor, sid: SessionId, listing: seq<Candidate>)
    requires Inv(s) && FullListing(s, executor, sid, listing)
    ensures ReadRaw(Replay(s, ReconcilePlan(s, sid, executor, listing).writes), sid, executor) == Reconciled(s, executor, sid)
  {
    var st := ReadRaw(s, sid, executor);
    var restore := RestorePlan(s.outbox, sid, st.pending);
    RestoreSafe(s, sid, st.pending);
    SafeEnds(s, restore.writes);
    var t := Replay(s, restore.writes);
    RestoredOrphans(s, t, sid);
    AdoptListing(t, executor, sid, listing);
    var a := Adopt(st, sid, s.markers, LiveByUid(Live(st)), listing);
    if a.changed {
      var o :| o in listing && Orphan(t, o.uid) && a == Adoption(Adopted(st, o), true, true);
      assert OrphanOf(s, sid, o.uid);
      OnlyOrphan(s, executor, sid, o.uid);
      ReplayAppend(s, restore.writes, [PutSession(sid, a.session, Kept)]);
      ReplayOne(t, PutSession(sid, a.session, Kept));
    } else {
      NoOrphanListed(s, t, sid, listing);
      assert restore.writes + [] == restore.writes;
    }
  }

  lemma NoOrphanListed(s: Store, t: Store, sid: SessionId, listing: seq<Candidate>)
    requires OutboxOk(t) && ListsAll(t.outbox, sid, listing) && forall o :: o in listing ==> o.uid in t.outbox && !Orphan(t, o.uid)
    requires forall u :: OrphanOf(s, sid, u) ==> OrphanOf(t, sid, u)
    ensures forall u :: !OrphanOf(s, sid, u)
  {
    assert forall u :: u in t.outbox && t.outbox[u].session == sid ==> !Orphan(t, u);
  }

  // ---------- one submit from any state ----------

  predicate OwnedBy(st: Session, executor: Executor) {
    st.executor == executor || Live(st) == []
  }

  /** What a complete submit makes of the reconciled session `st`. */
  function Submitted(st: Session, executor: Executor, uid: Uid, message: string, now: int): Session {
    if !OwnedBy(st, executor) then st
    else if uid in st.accepted then (if executor == Assistant then st.(executor := executor) else st)
    else Enqueue(st.(executor := executor, accepted := st.accepted + [uid]), Job(st.nextId, uid, message, now), now)
  }

  lemma EnqueueEffect(s: Store, executor: Executor, sid: SessionId, uid: Uid, message: string, now: int)
    requires Inv(s) && NoOrphan(s, sid) && NamesOnly(s, sid, uid)
    ensures var st := ReadRaw(s, sid, executor);
            var plan := EnqueuePlan(s.outbox, st, executor, sid, uid, message, now);
            && (plan.ok <==> OwnedBy(st, executor) && (uid in st.accepted ==> MessagesMatch(st, uid, message)))
            && ReadRaw(Replay(s, plan.writes), sid, executor) == Submitted(st, executor, uid, message, now)
  {
    var st := ReadRaw(s, sid, executor);
    var plan := EnqueuePlan(s.outbox, st, executor, sid, uid, message, now);
    if OwnedBy(st, executor) {
      var mine := st.(executor := executor);
      var own := if executor == Assistant then [PutSession(sid, mine, Kept)] else [];
      ReplayOne(s, PutSession(sid, mine, Kept));
      if uid !in st.accepted {
        UnrecordedUid(s, sid, uid);
        var job := Job(st.nextId, uid, message, now);
        var box := PutOutbox(CandidateOf(sid, job));
        var last := PutSession(sid, Submitted(st, executor, uid, message, now), Kept);
        assert plan.writes == own + ([box] + [last]);
        ReplayAppend(s, own, [box] + [last]);
        ReplayAppend(Replay(s, own), [box], [last]);
        ReplayOne(Replay(s, own), box);
        ReplayOne(Apply(Replay(s, own), box), last);
      }
    }
  }

  /** A complete submit from any state of the invariant. */
  lemma SubmitEffect(s: Store, executor: Executor, sid: SessionId, uid: Uid, message: string, now: int, listing: seq<Candidate>)
    requires Inv(s) && NamesOnly(s, sid, uid) && FullListing(s, executor, sid, listing)
    ensures var st := Reconciled(s, executor, sid);
            var plan := SubmitPlan(s, executor, sid, uid, message, now, listing);
            && (plan.ok <==> OwnedBy(st, executor) && (uid in st.accepted ==> MessagesMatch(st, uid, message)))
            && ReadRaw(Replay(s, plan.writes), sid, executor) == Submitted(st, executor, uid, message, now)
  {
    var first := ReconcilePlan(s, sid, executor, listing);
    ReconcileSafe(s, executor, sid, listing);
    ReconcileEffect(s, executor, sid, listing);
    ReconciledSession(s, executor, sid, listing);
    var mid := Replay(s, first.writes);
    SafeEnds(s, first.writes);
    EnqueueEffect(mid, executor, sid, uid, message, now);
    ReplayAppend(s, first.writes, EnqueuePlan(mid.outbox, ReadRaw(mid, sid, executor), executor, sid, uid, message, now).writes);
  }

  // ---------- where a submit can stop ----------

  /** The candidate is nowhere yet, and reconciling gives the session `st`. */
  ghost predicate NotRecorded(s: Store, executor: Executor, sid: SessionId, uid: Uid, st: Session) {
    uid !in s.outbox && Reconciled(s, executor, sid) == st
  }

  /** The outbox record is written and the session is not. */
  ghost predicate Interrupted(s: Store, executor: Executor, sid: SessionId, uid: Uid, message: string) {
    && OrphanOf(s, sid, uid) && s.outbox[uid].message == message && s.outbox[uid].uid == uid
  }

  /** The session has accepted the candidate. */
  ghost predicate AcceptedOnce(s: Store, executor: Executor, sid: SessionId, uid: Uid, message: string) {
    && NoOrphan(s, sid) && Accepts(s, sid, uid) && MessagesMatch(s.sessions[sid], uid, message)
    && IsLive(s, sid, uid) && s.sessions[sid].executor == executor
  }

  lemma {:induction false} RestoreCut(s: Store, sid: SessionId, jobs: seq<Job>, power: nat)
    requires Inv(s) && (jobs != [] ==> sid in s.sessions)
    requires forall j :: j in jobs ==> j in Live(s.sessions[sid])
    ensures Restored(s, Cut(s, RestorePlan(s.outbox, sid, jobs).writes, power), sid)
    decreases |jobs|
  {
    var ws := RestorePlan(s.outbox, sid, jobs).writes;
    if jobs != [] && power > 0 {
      var j := jobs[0];
      var c := CandidateOf(sid, j);
      if c.uid in s.outbox {
        RecordOfLiveJob(s, sid, j);
        RestoreCut(s, sid, jobs[1..], power);
      } else {
        assert HasRecordedJob(s, c);
        PutOutboxKeeps(s, c);
        var s1 := Apply(s, PutOutbox(c));
        RestoreCut(s1, sid, jobs[1..], power - 1);
        var rest := RestorePlan(s1.outbox, sid, jobs[1..]).writes;
        assert ws[1..] == rest && ws[0] == PutOutbox(c);
        if power < |ws| {
          assert ws[..power][1..] == rest[..power - 1];
        }
        RestoredMore(s, c, Cut(s1, rest, power - 1), sid);
      }
    }
  }

  lemma RestoredMore(s: Store, c: Candidate, t: Store, sid: SessionId)
    requires c.uid !in s.outbox && c.session == sid && HasRecordedJob(s, c) && Restored(Apply(s, PutOutbox(c)), t, sid)
    ensures Restored(s, t, sid)
  {
    var s1 := Apply(s, PutOutbox(c));
    forall u | u in t.outbox && u !in s.outbox ensures t.outbox[u].uid == u && HasRecordedJob(s, t.outbox[u]) && t.outbox[u].session == sid {
      if u != c.uid {
        assert HasRecordedJob(s1, t.outbox[u]);
      }
    }
  }

  /** A cut of reconciliation either stops while restoring or has done everything. */
  lemma ReconcileCutShape(s: Store, executor: Executor, sid: SessionId, listing: seq<Candidate>, power: nat)
    requires RestorePlan(s.outbox, sid, ReadRaw(s, sid, executor).pending).ok
    ensures var plan := ReconcilePlan(s, sid, executor, listing);
            var restore := RestorePlan(s.outbox, sid, ReadRaw(s, sid, executor).pending);
            Cut(s, plan.writes, power) == Cut(s, restore.writes, power) || Cut(s, plan.writes, power) == Replay(s, plan.writes)
  {
    var restore := RestorePlan(s.outbox, sid, ReadRaw(s, sid, executor).pending);
    var st := ReadRaw(s, sid, executor);
    var a := Adopt(st, sid, s.markers, LiveByUid(Live(st)), listing);
    CutAppend(s, restore.writes, [PutSession(sid, a.session, Kept)], power);
    assert restore.writes + [] == restore.writes;
  }

  lemma NeverRestored(s: Store, c: Store, sid: SessionId, uid: Uid)
    requires SessionsOk(s) && Restored(s, c, sid) && uid !in s.outbox && !Accepts(s, sid, uid)
    ensures uid !in c.outbox
  {
    assert sid in s.sessions ==> SessionOk(s.sessions[sid]);
  }

  /** Stopping inside reconciliation changes nothing for a later reconciliation. */
  lemma CutInReconcile(s: Store, executor: Executor, sid: SessionId, uid: Uid, listing: seq<Candidate>, power: nat)
    requires Inv(s) && FullListing(s, executor, sid, listing) && uid !in s.outbox && !Accepts(s, sid, uid)
    ensures var c := Cut(s, ReconcilePlan(s, sid, executor, listing).writes, power);
            NotRecorded(c, executor, sid, uid, Reconciled(s, executor, sid))
  {
    var st := ReadRaw(s, sid, executor);
    var restore := RestorePlan(s.outbox, sid, st.pending);
    var plan := ReconcilePlan(s, sid, executor, listing);
    RestoreSafe(s, sid, st.pending);
    ReconcileSafe(s, executor, sid, listing);
    ReconcileCutShape(s, executor, sid, listing, power);
    var c := Cut(s, plan.writes, power);
    SafeCut(s, plan.writes, power);
    if c == Cut(s, restore.writes, power) {
      RestoreCut(s, sid, st.pending, power);
      RestoredOrphans(s, c, sid);
      SameReconciled(s, c, executor, sid);
      NeverRestored(s, c, sid, uid);
    } else {
      ReconciledSession(s, executor, sid, listing);
      ReconcileShape(s, executor, sid, listing);
      NeverRestored(s, Replay(s, restore.writes), sid, uid);
      assert forall u :: !OrphanOf(c, sid, u);
    }
  }

  lemma SameReconciled(s: Store, c: Store, executor: Executor, sid: SessionId)
    requires Inv(s) && Inv(c) && Restored(s, c, sid) && forall u :: OrphanOf(c, sid, u) <==> OrphanOf(s, sid, u)
    ensures Reconciled(c, executor, sid) == Reconciled(s, executor, sid)
  {
    if u :| OrphanOf(s, sid, u) {
      OnlyOrphan(s, executor, sid, u);
      OnlyOrphan(c, executor, sid, u);
    }
  }

  lemma ReconciledWithoutOrphan(s: Store, executor: Executor, sid: SessionId)
    requires NoOrphan(s, sid)
    ensures Reconciled(s, executor, sid) == ReadRaw(s, sid, executor)
  {
    assert forall u :: !OrphanOf(s, sid, u);
  }

  predicate AddedOnce(st: Session, uid: Uid, message: string) {
    && Distinct(st.accepted) && uid in st.accepted
    && (exists j :: j in Live(st) && j.uid == uid)
    && MessagesMatch(st, uid, message)
    && DistinctUids(Live(st))
  }

  lemma GrownAddsOnce(st: Session, st': Session, job: Job)
    requires JobsOk(st) && JobsOk(st') && Grown(st, st', job) && job.uid !in st.accepted
    ensures AddedOnce(st', job.uid, job.message)
  {
    assert Live(st') == Live(st) + [job];
    assert job in Live(st');
    assert forall j :: j in Live(st) ==> j.uid in st.accepted;
  }

  /** After the outbox write the candidate is the session's one orphan. */
  lemma RecordInterrupts(s: Store, executor: Executor, sid: SessionId, job: Job)
    requires OutboxOk(s) && NoOrphan(s, sid) && job.uid !in s.outbox && !Owned(s, job.uid)
    requires job.id == ReadRaw(s, sid, executor).nextId
    ensures Interrupted(Apply(s, PutOutbox(CandidateOf(sid, job))), executor, sid, job.uid, job.message)
  {
    var s1 := Apply(s, PutOutbox(CandidateOf(sid, job)));
    assert forall a, u :: Accepts(s1, a, u) <==> Accepts(s, a, u);
    SameOwned(s, s1);
    assert Orphan(s1, job.uid);
  }

  /** After the session write it is accepted. */
  lemma SessionWriteAccepts(s: Store, executor: Executor, sid: SessionId, job: Job)
    requires Inv(s) && NoOrphan(s, sid) && job.uid !in s.outbox && !Owned(s, job.uid)
    requires job.id == ReadRaw(s, sid, executor).nextId
    ensures var s1 := Apply(s, PutOutbox(CandidateOf(sid, job)));
            var st := ReadRaw(s, sid, executor);
            var st' := Enqueue(st.(executor := executor, accepted := st.accepted + [job.uid]), job, job.submittedAt);
            AcceptedOnce(Apply(s1, PutSession(sid, st', Kept)), executor, sid, job.uid, job.message)
  {
    var s1 := Apply(s, PutOutbox(CandidateOf(sid, job)));
    var st := ReadRaw(s, sid, executor);
    var st' := Enqueue(st.(executor := executor, accepted := st.accepted + [job.uid]), job, job.submittedAt);
    var t := Apply(s1, PutSession(sid, st', Kept));
    assert !Accepts(s, sid, job.uid);
    assert SessionOk(st);
    EnqueueGrows(st, executor, job, job.submittedAt);
    GrownAddsOnce(st, st', job);
    assert t.sessions[sid] == st';
    AcceptedHasNoOrphan(s, t, sid, st', job);
  }

  lemma AcceptedHasNoOrphan(s: Store, t: Store, sid: SessionId, st': Session, job: Job)
    requires OutboxOk(s) && NoOrphan(s, sid) && t.outbox == s.outbox[job.uid := CandidateOf(sid, job)]
    requires t.sessions == s.sessions[sid := st'] && job.uid in st'.accepted
    requires sid in s.sessions ==> forall u :: u in s.sessions[sid].accepted ==> u in st'.accepted
    ensures NoOrphan(t, sid)
  {
    forall u | u in t.outbox && t.outbox[u].session == sid ensures !Orphan(t, u) {
      if u != job.uid {
        assert Recorded(s, u);
      }
      assert Accepts(t, sid, u);
      assert Owned(t, u);
    }
  }

  /** Where a submit stopped, as seen by the next one: `st` is what its reconciliation would give before the record. */
  ghost predicate StopsAt(c: Store, executor: Executor, sid: SessionId, uid: Uid, message: string, st: Session) {
    || NotRecorded(c, executor, sid, uid, st)
    || NotRecorded(c, executor, sid, uid, st.(executor := executor))
    || (Interrupted(c, executor, sid, uid, message) && (executor == Assistant ==> ReadRaw(c, sid, executor).executor == executor))
    || AcceptedOnce(c, executor, sid, uid, message)
  }

  /** Once the executor is on disk (or need not be), the last two writes give the last two stops. */
  lemma WhereRecordStops(s: Store, executor: Executor, sid: SessionId, job: Job, st: Session, power: nat)
    requires Inv(s) && NoOrphan(s, sid) && job.uid !in s.outbox && !Owned(s, job.uid)
    requires ReadRaw(s, sid, executor) == st && job.id == st.nextId && (executor == Assistant ==> st.executor == executor)
    ensures var box := PutOutbox(CandidateOf(sid, job));
            var last := PutSession(sid, Enqueue(st.(executor := executor, accepted := st.accepted + [job.uid]), job, job.submittedAt), Kept);
            StopsAt(Cut(s, [box] + [last], power), executor, sid, job.uid, job.message, st)
  {
    var box := PutOutbox(CandidateOf(sid, job));
    var last := PutSession(sid, Enqueue(st.(executor := executor, accepted := st.accepted + [job.uid]), job, job.submittedAt), Kept);
    ReconciledWithoutOrphan(s, executor, sid);
    RecordInterrupts(s, executor, sid, job);
    SessionWriteAccepts(s, executor, sid, job);
    CutAppend(s, [box], [last], power);
    ReplayOne(s, box);
    ReplayOne(Apply(s, box), last);
  }

  /** The writes of an enqueue: the executor first if it is the assistant's, then the record and the session. */
  lemma EnqueueWrites(outbox: map<Uid, Candidate>, st: Session, executor: Executor, sid: SessionId, uid: Uid, message: string, now: int)
    requires uid !in outbox && uid !in st.accepted && OwnedBy(st, executor)
    ensures var mine := st.(executor := executor);
            var job := Job(st.nextId, uid, message, now);
            var record := [PutOutbox(CandidateOf(sid, job))] + [PutSession(sid, Enqueue(mine.(accepted := st.accepted + [uid]), job, now), Kept)];
            EnqueuePlan(outbox, st, executor, sid, uid, message, now).writes
            == if executor == Assistant then [PutSession(sid, mine, Kept)] + record else record
  {}

  /** Writing the executor is a stop of its own, then the record follows. */
  lemma WhereAssistantStops(s: Store, sid: SessionId, job: Job, st: Session, record: seq<Write>, power: nat)
    requires Inv(s) && NoOrphan(s, sid) && job.uid !in s.outbox && !Owned(s, job.uid) && OwnedBy(st, Assistant)
    requires ReadRaw(s, sid, Assistant) == st && job.id == st.nextId
    requires var mine := st.(executor := Assistant);
             record == [PutOutbox(CandidateOf(sid, job))] + [PutSession(sid, Enqueue(mine.(accepted := st.accepted + [job.uid]), job, job.submittedAt), Kept)]
    ensures StopsAt(Cut(s, [PutSession(sid, st.(executor := Assistant), Kept)] + record, power), Assistant, sid, job.uid, job.message, st)
  {
    var mine := st.(executor := Assistant);
    var own := PutSession(sid, mine, Kept);
    ReconciledWithoutOrphan(s, Assistant, sid);
    ExecutorWrite(s, Assistant, sid);
    ReplayOne(s, own);
    SameOwned(s, Apply(s, own));
    CutAppend(s, [own], record, power);
    WhereRecordStops(Apply(s, own), Assistant, sid, job, mine, if power > 1 then power - 1 else 0);
  }

  lemma WhereEnqueueStops(s: Store, executor: Executor, sid: SessionId, uid: Uid, message: string, now: int, power: nat)
    requires Inv(s) && NoOrphan(s, sid) && NamesOnly(s, sid, uid) && uid !in s.outbox && !Accepts(s, sid, uid)
    requires OwnedBy(ReadRaw(s, sid, executor), executor)
    ensures var st := ReadRaw(s, sid, executor);
            StopsAt(Cut(s, EnqueuePlan(s.outbox, st, executor, sid, uid, message, now).writes, power), executor, sid, uid, message, st)
  {
    var st := ReadRaw(s, sid, executor);
    var job := Job(st.nextId, uid, message, now);
    UnrecordedUid(s, sid, uid);
    EnqueueWrites(s.outbox, st, executor, sid, uid, message, now);
    if executor == Assistant {
      var mine := st.(executor := executor);
      var record := [PutOutbox(CandidateOf(sid, job))] + [PutSession(sid, Enqueue(mine.(accepted := st.accepted + [uid]), job, now), Kept)];
      WhereAssistantStops(s, sid, job, st, record, power);
    } else {
      WhereRecordStops(s, executor, sid, job, st, power);
    }
  }

  /** Every state a submit of a new candidate can stop in. */
  lemma WhereSubmitStops(s: Store, executor: Executor, sid: SessionId, uid: Uid, message: string, now: int, listing: seq<Candidate>, power: nat)
    requires Inv(s) && NamesOnly(s, sid, uid) && FullListing(s, executor, sid, listing) && uid !in s.outbox && !Accepts(s, sid, uid)
    requires SubmitPlan(s, executor, sid, uid, message, now, listing).ok
    ensures StopsAt(Cut(s, SubmitPlan(s, executor, sid, uid, message, now, listing).writes, power), executor, sid, uid, message,
                    Reconciled(s, executor, sid))
  {
    var first := ReconcilePlan(s, sid, executor, listing);
    var mid := Replay(s, first.writes);
    ReconcileSafe(s, executor, sid, listing);
    SafeEnds(s, first.writes);
    ReconcileEffect(s, executor, sid, listing);
    ReconciledSession(s, executor, sid, listing);
    ReconciledOk(s, executor, sid, uid);
    var st := ReadRaw(mid, sid, executor);
    var second := EnqueuePlan(mid.outbox, st, executor, sid, uid, message, now);
    CutAppend(s, first.writes, second.writes, power);
    if power > |first.writes| {
      CutInReconcile(s, executor, sid, uid, listing, |first.writes|);
      WhereEnqueueStops(mid, executor, sid, uid, message, now, power - |first.writes|);
    } else {
      CutInReconcile(s, executor, sid, uid, listing, power);
    }
  }

  // ---------- sending it again ----------

  /** The retry meets an interrupted record while the session on disk still belongs to another executor. */
  ghost predicate MeetsForeignSession(c: Store, executor: Executor, sid: SessionId, uid: Uid) {
    OrphanOf(c, sid, uid) && ReadRaw(c, sid, executor).executor != executor
  }

  lemma RetryFromOrphan(c: Store, executor: Executor, sid: SessionId, uid: Uid, message: string, now: int, listing: seq<Candidate>)
    requires Inv(c) && NamesOnly(c, sid, uid) && FullListing(c, executor, sid, listing) && Interrupted(c, executor, sid, uid, message)
    ensures var plan := SubmitPlan(c, executor, sid, uid, message, now, listing);
            && (plan.ok <==> ReadRaw(c, sid, executor).executor == executor)
            && AddedOnce(ReadRaw(Replay(c, plan.writes), sid, executor), uid, message)
  {
    OnlyOrphan(c, executor, sid, uid);
    SubmitEffect(c, executor, sid, uid, message, now, listing);
    assert SessionOk(ReadRaw(c, sid, executor)) && !Accepts(c, sid, uid);
    AdoptedOnce(ReadRaw(c, sid, executor), executor, c.outbox[uid], now);
  }

  lemma AdoptedOnce(st: Session, executor: Executor, o: Candidate, now: int)
    requires SessionOk(st) && o.displayId == st.nextId && o.uid !in st.accepted
    ensures var st' := Adopted(st, o);
            && o.uid in st'.accepted && Live(st') != [] && MessagesMatch(st', o.uid, o.message) && st'.executor == st.executor
            && AddedOnce(Submitted(st', executor, o.uid, o.message, now), o.uid, o.message)
  {
    var st' := Adopted(st, o);
    EnqueueGrows(st, st.executor, JobOf(o), o.submittedAt);
    assert st.(executor := st.executor, accepted := st.accepted + [o.uid]) == st.(accepted := st.accepted + [o.uid]);
    GrownAddsOnce(st, st', JobOf(o));
    assert Live(Submitted(st', executor, o.uid, o.message, now)) == Live(st');
  }

  lemma RetryFromNothing(c: Store, executor: Executor, sid: SessionId, uid: Uid, message: string, now: int, listing: seq<Candidate>, st: Session)
    requires Inv(c) && NamesOnly(c, sid, uid) && FullListing(c, executor, sid, listing)
    requires NotRecorded(c, executor, sid, uid, st) && OwnedBy(st, executor) && SessionOk(st) && uid !in st.accepted
    ensures var plan := SubmitPlan(c, executor, sid, uid, message, now, listing);
            plan.ok && AddedOnce(ReadRaw(Replay(c, plan.writes), sid, executor), uid, message)
  {
    SubmitEffect(c, executor, sid, uid, message, now, listing);
    var job := Job(st.nextId, uid, message, now);
    EnqueueGrows(st, executor, job, now);
    GrownAddsOnce(st, Submitted(st, executor, uid, message, now), job);
  }

  lemma RetryFromAccepted(c: Store, executor: Executor, sid: SessionId, uid: Uid, message: string, now: int, listing: seq<Candidate>)
    requires Inv(c) && NamesOnly(c, sid, uid) && FullListing(c, executor, sid, listing) && AcceptedOnce(c, executor, sid, uid, message)
    ensures var plan := SubmitPlan(c, executor, sid, uid, message, now, listing);
            plan.ok && AddedOnce(ReadRaw(Replay(c, plan.writes), sid, executor), uid, message)
  {
    ReconciledWithoutOrphan(c, executor, sid);
    SubmitEffect(c, executor, sid, uid, message, now, listing);
    var st := c.sessions[sid];
    assert SessionOk(st);
    assert Live(Submitted(st, executor, uid, message, now)) == Live(st);
  }

  lemma ReconciledOk(s: Store, executor: Executor, sid: SessionId, uid: Uid)
    requires Inv(s)
    ensures SessionOk(Reconciled(s, executor, sid))
    ensures uid !in s.outbox && !Accepts(s, sid, uid) ==> uid !in Reconciled(s, executor, sid).accepted
    ensures Accepts(s, sid, uid) ==> uid in Reconciled(s, executor, sid).accepted
  {
    var st := ReadRaw(s, sid, executor);
    assert SessionOk(st);
    if u :| OrphanOf(s, sid, u) {
      OnlyOrphan(s, executor, sid, u);
      var o := s.outbox[u];
      assert !Accepts(s, sid, u);
      EnqueueGrows(st, st.executor, JobOf(o), o.submittedAt);
      assert st.(executor := st.executor, accepted := st.accepted + [u]) == st.(accepted := st.accepted + [u]);
    }
  }

  /**
   A submit cut off after any number of durable writes and sent again leaves the
   candidate accepted exactly once, as one live job with its message. The second
   submit raises exactly when the first stopped between the outbox write and the
   session write while the session on disk belonged to the other executor.
   */
  lemma InterruptedSubmitRetry(
      s: Store, executor: Executor, sid: SessionId, uid: Uid, message: string, now: int, listing: seq<Candidate>, power: nat,
      now': int, listing': seq<Candidate>)
    requires Inv(s) && NamesOnly(s, sid, uid) && FullListing(s, executor, sid, listing) && uid !in s.outbox && !Accepts(s, sid, uid)
    requires SubmitPlan(s, executor, sid, uid, message, now, listing).ok
    requires var c := Cut(s, SubmitPlan(s, executor, sid, uid, message, now, listing).writes, power);
             NamesOnly(c, sid, uid) && FullListing(c, executor, sid, listing')
    ensures var c := Cut(s, SubmitPlan(s, executor, sid, uid, message, now, listing).writes, power);
            var again := SubmitPlan(c, executor, sid, uid, message, now', listing');
            && AddedOnce(ReadRaw(Replay(c, again.writes), sid, executor), uid, message)
            && (again.ok <==> !MeetsForeignSession(c, executor, sid, uid))
            && (executor == Assistant ==> again.ok)
  {
    var plan := SubmitPlan(s, executor, sid, uid, message, now, listing);
    var c := Cut(s, plan.writes, power);
    SubmitSafe(s, executor, sid, uid, message, now, listing);
    SafeCut(s, plan.writes, power);
    WhereSubmitStops(s, executor, sid, uid, message, now, listing, power);
    SubmitEffect(s, executor, sid, uid, message, now, listing);
    ReconciledOk(s, executor, sid, uid);
    var st := Reconciled(s, executor, sid);
    if NotRecorded(c, executor, sid, uid, st) {
      RetryFromNothing(c, executor, sid, uid, message, now', listing', st);
    } else if NotRecorded(c, executor, sid, uid, st.(executor := executor)) {
      assert Live(st.(executor := executor)) == Live(st);
      RetryFromNothing(c, executor, sid, uid, message, now', listing', st.(executor := executor));
    } else if Interrupted(c, executor, sid, uid, message) {
      RetryFromOrphan(c, executor, sid, uid, message, now', listing');
    } else {
      RetryFromAccepted(c, executor, sid, uid, message, now', listing');
      assert Owned(c, uid);
    }
  }
}
