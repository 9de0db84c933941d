/** Every operation, cut off after any number of durable writes, keeps the invariant. */
module UpdateQueueSafety {
  import opened Common
  import opened UpdateQueue
  import opened UpdateQueueInvariant

  /** A session write only appends to the accepted uids and never lowers the next id. */
  predicate Grows(s: Store, w: Write) {
    w.PutSession? && w.sid in s.sessions ==>
      && s.sessions[w.sid].accepted <= w.session.accepted
      && s.sessions[w.sid].nextId <= w.session.nextId
  }

  /** The invariant holds before and after each of these writes, and none forgets an accepted uid. */
  ghost predicate Safe(s: Store, ws: seq<Write>)
    decreases |ws|
  {
    Inv(s) && (ws == [] || (Grows(s, ws[0]) && Safe(Apply(s, ws[0]), ws[1..])))
  }

  lemma {:induction false} SafeAppend(s: Store, xs: seq<Write>, ys: seq<Write>)
    requires Safe(s, xs) && Safe(Replay(s, xs), ys)
    ensures Safe(s, xs + ys)
    decreases |xs|
  {
    if xs == [] {
      assert xs + ys == ys;
    } else {
      SafeAppend(Apply(s, xs[0]), xs[1..], ys);
      assert (xs + ys)[1..] == xs[1..] + ys;
    }
  }

  lemma {:induction false} SafeEnds(s: Store, ws: seq<Write>)
    requires Safe(s, ws)
    ensures Inv(Replay(s, ws))
    decreases |ws|
  {
    if ws != [] {
      SafeEnds(Apply(s, ws[0]), ws[1..]);
    }
  }

  lemma {:induction false} SafeCut(s: Store, ws: seq<Write>, power: nat)
    requires Safe(s, ws)
    ensures Inv(Cut(s, ws, power))
    decreases |ws|
  {
    if power >= |ws| {
      SafeEnds(s, ws);
    } else if power > 0 {
      SafeCut(Apply(s, ws[0]), ws[1..], power - 1);
      assert ws[..power][1..] == ws[1..][..power - 1];
    }
  }

  lemma SafeOne(s: Store, w: Write)
    requires Inv(s) && Inv(Apply(s, w)) && Grows(s, w)
    ensures Safe(s, [w]) && Replay(s, [w]) == Apply(s, w)
  {
    assert [w][1..] == [];
  }

  // ---------- reconciliation ----------

  /** `t` has at most more outbox records than `s`, each the record of a live job of `sid`. */
  ghost predicate Restored(s: Store, t: Store, sid: SessionId) {
    && t == s.(outbox := t.outbox)
    && (forall u :: u in s.outbox ==> u in t.outbox && t.outbox[u] == s.outbox[u])
    && (forall u :: u in t.outbox && u !in s.outbox ==> t.outbox[u].uid == u && HasRecordedJob(s, t.outbox[u]) && t.outbox[u].session == sid)
  }

  lemma RecordOfLiveJob(s: Store, sid: SessionId, j: Job)
    requires SessionsOk(s) && LedgerOk(s) && OutboxOk(s) && sid in s.sessions && j in Live(s.sessions[sid]) && j.uid in s.outbox
    ensures s.outbox[j.uid] == CandidateOf(sid, j)
  {
    assert SessionOk(s.sessions[sid]);
    assert Accepts(s, sid, j.uid);
    assert Owned(s, j.uid);
    assert Recorded(s, j.uid);
  }

  lemma {:induction false} RestoreSafe(s: Store, sid: SessionId, jobs: seq<Job>)
    requires Inv(s) && (jobs != [] ==> sid in s.sessions)
    requires forall j :: j in jobs ==> j in Live(s.sessions[sid])
    ensures var plan := RestorePlan(s.outbox, sid, jobs);
            plan.ok && Safe(s, plan.writes) && Restored(s, Replay(s, plan.writes), sid)
    decreases |jobs|
  {
    if jobs != [] {
      var j := jobs[0];
      var c := CandidateOf(sid, j);
      if c.uid in s.outbox {
        RecordOfLiveJob(s, sid, j);
        RestoreSafe(s, sid, jobs[1..]);
      } else {
        assert HasRecordedJob(s, c);
        PutOutboxKeeps(s, c);
        var s1 := Apply(s, PutOutbox(c));
        RestoreSafe(s1, sid, jobs[1..]);
        var rest := RestorePlan(s1.outbox, sid, jobs[1..]);
        assert RestorePlan(s.outbox, sid, jobs).writes[1..] == rest.writes;
        var t := Replay(s1, rest.writes);
        assert Restored(s1, t, sid);
        forall u | u in t.outbox && u !in s.outbox ensures t.outbox[u].uid == u && HasRecordedJob(s, t.outbox[u]) && t.outbox[u].session == sid {
          if u !in s1.outbox {
            assert HasRecordedJob(s1, t.outbox[u]);
          }
        }
      }
    }
  }

  lemma {:induction false} LiveByUidFinds(jobs: seq<Job>)
    ensures forall u :: u in LiveByUid(jobs) <==> u in Uids(jobs)
    ensures forall u :: u in LiveByUid(jobs) ==> LiveByUid(jobs)[u] in jobs && LiveByUid(jobs)[u].uid == u
    decreases |jobs|
  {
    if jobs != [] {
      var init, last := jobs[..|jobs| - 1], jobs[|jobs| - 1];
      LiveByUidFinds(init);
      assert jobs == init + [last];
    }
  }

  predicate Known(st: Session, sid: SessionId, live: map<Uid, Job>, c: Candidate) {
    && c.session == sid && c.uid in st.accepted
    && (c.uid in live ==> CandidateOf(sid, live[c.uid]) == c)
  }

  lemma {:induction false} AdoptKnown(st: Session, sid: SessionId, markers: set<Uid>, live: map<Uid, Job>, listing: seq<Candidate>)
    requires forall c :: c in listing ==> Known(st, sid, live, c)
    ensures Adopt(st, sid, markers, live, listing) == Adoption(st, false, true)
    decreases |listing|
  {
    if listing != [] {
      assert Known(st, sid, live, listing[0]);
      AdoptKnown(st, sid, markers, live, listing[1..]);
    }
  }

  function Adopted(st: Session, c: Candidate): Session {
    Enqueue(st.(accepted := st.accepted + [c.uid]), JobOf(c), c.submittedAt)
  }

  lemma {:induction false} AdoptOrphan(st: Session, sid: SessionId, markers: set<Uid>, live: map<Uid, Job>, listing: seq<Candidate>, o: Candidate)
    requires o in listing && o.session == sid && o.uid !in live && o.uid !in st.accepted && o.uid !in markers && o.displayId == st.nextId
    requires forall c :: c in listing ==> c == o || Known(st, sid, live, c)
    ensures Adopt(st, sid, markers, live, listing) == Adoption(Adopted(st, o), true, true)
    decreases |listing|
  {
    var c := listing[0];
    if c == o {
      var st' := Adopted(st, o);
      var live' := live[o.uid := JobOf(o)];
      assert forall d :: d in listing[1..] && d != o ==> d.uid != o.uid by {
        forall d | d in listing[1..] && d != o ensures d.uid != o.uid {
          assert Known(st, sid, live, d);
        }
      }
      forall d | d in listing[1..] ensures Known(st', sid, live', d) {
        assert d != o ==> Known(st, sid, live, d);
        assert st'.accepted == st.accepted + [o.uid];
      }
      AdoptKnown(st', sid, markers, live', listing[1..]);
    } else {
      assert Known(st, sid, live, c);
      AdoptOrphan(st, sid, markers, live, listing[1..], o);
    }
  }

  /** Each listed record is an outbox record of the session. */
  predicate Listed(outbox: map<Uid, Candidate>, sid: SessionId, listing: seq<Candidate>) {
    forall c :: c in listing ==> c.uid in outbox && outbox[c.uid] == c && c.session == sid
  }

  /** The listing names every outbox record of the session. */
  predicate ListsAll(outbox: map<Uid, Candidate>, sid: SessionId, listing: seq<Candidate>) {
    forall u :: u in outbox && outbox[u].session == sid ==> outbox[u] in listing
  }

  ghost predicate NoOrphan(s: Store, sid: SessionId) {
    forall u :: u in s.outbox && s.outbox[u].session == sid ==> !Orphan(s, u)
  }

  /** What adopting does, given the invariant: nothing, or exactly the one orphan. */
  lemma AdoptListing(s: Store, executor: Executor, sid: SessionId, listing: seq<Candidate>)
    requires Inv(s) && Listed(s.outbox, sid, listing)
    ensures var st := ReadRaw(s, sid, executor);
            var a := Adopt(st, sid, s.markers, LiveByUid(Live(st)), listing);
            if exists o :: o in listing && Orphan(s, o.uid)
            then exists o :: o in listing && Orphan(s, o.uid) && a == Adoption(Adopted(st, o), true, true)
            else a == Adoption(st, false, true)
  {
    var st := ReadRaw(s, sid, executor);
    var live := LiveByUid(Live(st));
    LiveByUidFinds(Live(st));
    forall c | c in listing && !Orphan(s, c.uid) ensures Known(st, sid, live, c) {
      assert Recorded(s, c.uid);
    }
    if o :| o in listing && Orphan(s, o.uid) {
      assert !Accepts(s, sid, o.uid);
      assert sid in s.sessions ==> SessionOk(s.sessions[sid]);
      assert o.uid !in live;
      assert o.uid !in s.markers;
      forall c | c in listing && Orphan(s, c.uid) ensures c == o {}
      AdoptOrphan(st, sid, s.markers, live, listing, o);
    } else {
      AdoptKnown(st, sid, s.markers, live, listing);
    }
  }

  lemma AdoptKeeps(s: Store, executor: Executor, sid: SessionId, o: Candidate)
    requires Inv(s) && o.uid in s.outbox && s.outbox[o.uid] == o && Orphan(s, o.uid) && o.session == sid
    ensures var t := Apply(s, PutSession(sid, Adopted(ReadRaw(s, sid, executor), o), Kept));
            Inv(t) && NoOrphan(t, sid) && t.outbox == s.outbox
            && Grown(ReadRaw(s, sid, executor), t.sessions[sid], JobOf(o))
            && t.sessions[sid].executor == ReadRaw(s, sid, executor).executor
  {
    var st := ReadRaw(s, sid, executor);
    assert sid in s.sessions ==> SessionOk(s.sessions[sid]);
    assert !Accepts(s, sid, o.uid);
    EnqueueGrows(st, st.executor, JobOf(o), o.submittedAt);
    assert st.(executor := st.executor, accepted := st.accepted + [o.uid]) == st.(accepted := st.accepted + [o.uid]);
    var st' := Adopted(st, o);
    GrowKeeps(s, executor, sid, st', JobOf(o));
    var t := Apply(s, PutSession(sid, st', Kept));
    forall u | u in t.outbox && t.outbox[u].session == sid ensures !Orphan(t, u) {
      if u == o.uid {
        assert Accepts(t, sid, u);
        assert Owned(t, u);
      } else {
        assert !Orphan(s, u);
        assert Recorded(s, u);
        assert Accepts(t, sid, u);
      }
    }
  }

  lemma RestoredOrphans(s: Store, t: Store, sid: SessionId)
    requires Inv(s) && Inv(t) && Restored(s, t, sid)
    ensures forall u :: u in t.outbox && Orphan(t, u) ==> u in s.outbox && Orphan(s, u)
    ensures forall u :: u in s.outbox && Orphan(s, u) ==> Orphan(t, u)
  {
    forall a, u ensures Accepts(t, a, u) <==> Accepts(s, a, u) {}
    SameOwned(s, t);
    forall u | u in t.outbox && u !in s.outbox ensures !Orphan(t, u) {
      var j :| j in Live(s.sessions[sid]) && CandidateOf(sid, j) == t.outbox[u];
      assert SessionOk(s.sessions[sid]);
      assert Accepts(s, sid, u);
    }
  }

  /** The outbox once every pending job has its record back. */
  function RestoredOutbox(s: Store, sid: SessionId, executor: Executor): map<Uid, Candidate> {
    Replay(s, RestorePlan(s.outbox, sid, ReadRaw(s, sid, executor).pending).writes).outbox
  }

  /** Reconciliation never raises and keeps the invariant at every write. */
  lemma ReconcileSafe(s: Store, executor: Executor, sid: SessionId, listing: seq<Candidate>)
    requires Inv(s)
    requires Listed(RestoredOutbox(s, sid, executor), sid, listing)
    ensures var plan := ReconcilePlan(s, sid, executor, listing);
            plan.ok && Safe(s, plan.writes)
    ensures ListsAll(RestoredOutbox(s, sid, executor), sid, listing) ==> NoOrphan(Replay(s, ReconcilePlan(s, sid, executor, listing).writes), sid)
  {
    var st := ReadRaw(s, sid, executor);
    var restore := RestorePlan(s.outbox, sid, st.pending);
    RestoreSafe(s, sid, st.pending);
    var t := Replay(s, restore.writes);
    SafeEnds(s, restore.writes);
    assert ReadRaw(t, sid, executor) == st && t.markers == s.markers;
    AdoptListing(t, executor, sid, listing);
    var a := Adopt(st, sid, s.markers, LiveByUid(Live(st)), listing);
    assert a.ok;
    if a.changed {
      var o :| o in listing && Orphan(t, o.uid) && a == Adoption(Adopted(st, o), true, true);
      AdoptAfterRestore(s, executor, sid, restore.writes, o);
    } else {
      assert restore.writes + [] == restore.writes;
    }
  }

  lemma AdoptAfterRestore(s: Store, executor: Executor, sid: SessionId, restore: seq<Write>, o: Candidate)
    requires Safe(s, restore)
    requires var t := Replay(s, restore); Inv(t) && o.uid in t.outbox && t.outbox[o.uid] == o && Orphan(t, o.uid) && o.session == sid
    ensures var w := PutSession(sid, Adopted(ReadRaw(Replay(s, restore), sid, executor), o), Kept);
            Safe(s, restore + [w]) && NoOrphan(Replay(s, restore + [w]), sid)
  {
    var t := Replay(s, restore);
    var w := PutSession(sid, Adopted(ReadRaw(t, sid, executor), o), Kept);
    AdoptKeeps(t, executor, sid, o);
    SafeOne(t, w);
    SafeAppend(s, restore, [w]);
    ReplayAppend(s, restore, [w]);
    ReplayOne(t, w);
  }

  // ---------- submit ----------

  /** The uid names this evidence only: no other session has accepted or recorded it. */
  predicate NamesOnly(s: Store, sid: SessionId, uid: Uid) {
    && (forall a :: a in s.sessions && a != sid ==> uid !in s.sessions[a].accepted)
    && (uid in s.outbox ==> s.outbox[uid].session == sid)
  }

  lemma ExecutorWrite(s: Store, executor: Executor, sid: SessionId)
    requires Inv(s) && NoOrphan(s, sid)
    ensures var t := Apply(s, PutSession(sid, ReadRaw(s, sid, executor).(executor := executor), Kept));
            Inv(t) && NoOrphan(t, sid) && t.outbox == s.outbox
    ensures var t := Apply(s, PutSession(sid, ReadRaw(s, sid, executor).(executor := executor), Kept));
            forall a, u :: Accepts(t, a, u) <==> Accepts(s, a, u)
  {
    var st := ReadRaw(s, sid, executor);
    var st' := st.(executor := executor);
    var t := Apply(s, PutSession(sid, st', Kept));
    assert SessionOk(st);
    assert Live(st') == Live(st);
    assert SessionOk(st');
    QuietKeeps(s, executor, sid, st');
    assert forall a, u :: Accepts(t, a, u) <==> Accepts(s, a, u);
    SameOwned(s, t);
    forall u | u in t.outbox && t.outbox[u].session == sid ensures !Orphan(t, u) {
      assert !Orphan(s, u);
    }
  }

  /** The last two writes of a submit: the outbox record, then the session that accepts it. */
  lemma RecordThenAccept(s: Store, executor: Executor, sid: SessionId, job: Job, now: int)
    requires Inv(s) && NoOrphan(s, sid) && job.uid !in s.outbox && !Owned(s, job.uid)
    requires job.id == ReadRaw(s, sid, executor).nextId
    ensures var st := ReadRaw(s, sid, executor);
            Safe(s, [PutOutbox(CandidateOf(sid, job)),
                     PutSession(sid, Enqueue(st.(executor := executor, accepted := st.accepted + [job.uid]), job, now), Kept)])
  {
    var st := ReadRaw(s, sid, executor);
    var st' := Enqueue(st.(executor := executor, accepted := st.accepted + [job.uid]), job, now);
    var c := CandidateOf(sid, job);
    PutOutboxKeeps(s, c);
    var s1 := Apply(s, PutOutbox(c));
    assert !Accepts(s, sid, job.uid);
    assert SessionOk(st);
    EnqueueGrows(st, executor, job, now);
    assert !Owned(s1, job.uid) by {
      assert forall a :: Accepts(s1, a, job.uid) ==> Accepts(s, a, job.uid);
    }
    GrowKeeps(s1, executor, sid, st', job);
    SafeOne(s1, PutSession(sid, st', Kept));
    assert [PutOutbox(c), PutSession(sid, st', Kept)][1..] == [PutSession(sid, st', Kept)];
  }

  lemma UnrecordedUid(s: Store, sid: SessionId, uid: Uid)
    requires Inv(s) && NoOrphan(s, sid) && NamesOnly(s, sid, uid) && !Accepts(s, sid, uid)
    ensures !Owned(s, uid) && uid !in s.outbox
  {
    assert forall u :: u in s.outbox && s.outbox[u].session == sid ==> Recorded(s, u);
  }

  /** The session is claimed first, if the assistant enqueues. */
  function OwnWrites(st: Session, executor: Executor, sid: SessionId): seq<Write> {
    if executor == Assistant then [PutSession(sid, st.(executor := executor), Kept)] else []
  }

  lemma OwnSafe(s: Store, executor: Executor, sid: SessionId)
    requires Inv(s) && NoOrphan(s, sid)
    ensures Safe(s, OwnWrites(ReadRaw(s, sid, executor), executor, sid))
    ensures var s1 := Replay(s, OwnWrites(ReadRaw(s, sid, executor), executor, sid));
            && Inv(s1) && s1.outbox == s.outbox
            && NoOrphan(s1, sid) && (forall a, u :: Accepts(s1, a, u) ==> Accepts(s, a, u))
            && ReadRaw(s1, sid, executor).(executor := executor) == ReadRaw(s, sid, executor).(executor := executor)
  {
    ExecutorWrite(s, executor, sid);
    if executor == Assistant {
      SafeOne(s, PutSession(sid, ReadRaw(s, sid, executor).(executor := executor), Kept));
    }
  }

  lemma EnqueueSafe(s: Store, executor: Executor, sid: SessionId, uid: Uid, message: string, now: int)
    requires Inv(s) && NoOrphan(s, sid) && NamesOnly(s, sid, uid)
    ensures Safe(s, EnqueuePlan(s.outbox, ReadRaw(s, sid, executor), executor, sid, uid, message, now).writes)
  {
    var st := ReadRaw(s, sid, executor);
    if st.executor == executor || Live(st) == [] {
      OwnSafe(s, executor, sid);
      if uid !in st.accepted {
        EnqueueNewSafe(s, executor, sid, uid, message, now);
      }
    }
  }

  lemma EnqueueNewSafe(s: Store, executor: Executor, sid: SessionId, uid: Uid, message: string, now: int)
    requires Inv(s) && NoOrphan(s, sid) && NamesOnly(s, sid, uid)
    requires var st := ReadRaw(s, sid, executor); (st.executor == executor || Live(st) == []) && uid !in st.accepted
    ensures Safe(s, EnqueuePlan(s.outbox, ReadRaw(s, sid, executor), executor, sid, uid, message, now).writes)
  {
    var st := ReadRaw(s, sid, executor);
    var own := OwnWrites(st, executor, sid);
    OwnSafe(s, executor, sid);
    var s1 := Replay(s, own);
    UnrecordedUid(s, sid, uid);
    assert !Owned(s1, uid);
    var job := Job(st.nextId, uid, message, now);
    RecordThenAccept(s1, executor, sid, job, now);
    var st1 := ReadRaw(s1, sid, executor);
    var last := [PutOutbox(CandidateOf(sid, job)),
                 PutSession(sid, Enqueue(st1.(executor := executor, accepted := st1.accepted + [uid]), job, now), Kept)];
    SafeAppend(s, own, last);
    EnqueueNewWrites(s.outbox, st, st1, executor, sid, uid, message, now, last);
  }

  lemma EnqueueNewWrites(
      outbox: map<Uid, Candidate>, st: Session, st1: Session, executor: Executor, sid: SessionId, uid: Uid, message: string, now: int, last: seq<Write>)
    requires (st.executor == executor || Live(st) == []) && uid !in st.accepted && uid !in outbox
    requires st1.(executor := executor) == st.(executor := executor)
    requires var job := Job(st.nextId, uid, message, now);
             last == [PutOutbox(CandidateOf(sid, job)),
                      PutSession(sid, Enqueue(st1.(executor := executor, accepted := st1.accepted + [uid]), job, now), Kept)]
    ensures EnqueuePlan(outbox, st, executor, sid, uid, message, now).writes == OwnWrites(st, executor, sid) + last
  {}

  /** Reconciliation ends where restoring ends, or one session write later. */
  lemma ReconcileShape(s: Store, executor: Executor, sid: SessionId, listing: seq<Candidate>)
    requires RestorePlan(s.outbox, sid, ReadRaw(s, sid, executor).pending).ok
    ensures var mid := Replay(s, ReconcilePlan(s, sid, executor, listing).writes);
            var t := Replay(s, RestorePlan(s.outbox, sid, ReadRaw(s, sid, executor).pending).writes);
            mid == t || (sid in mid.sessions && mid == t.(sessions := t.sessions[sid := mid.sessions[sid]]))
  {
    var st := ReadRaw(s, sid, executor);
    var restore := RestorePlan(s.outbox, sid, st.pending);
    var a := Adopt(st, sid, s.markers, LiveByUid(Live(st)), listing);
    var last := [PutSession(sid, a.session, Kept)];
    ReplayAppend(s, restore.writes, last);
    assert restore.writes + [] == restore.writes;
    assert last[1..] == [];
  }

  /** Reconciliation touches one session and adds outbox records of that session. */
  lemma ReconcileEffect(s: Store, executor: Executor, sid: SessionId, listing: seq<Candidate>)
    requires Inv(s)
    ensures var mid := Replay(s, ReconcilePlan(s, sid, executor, listing).writes);
            && mid == s.(outbox := mid.outbox, sessions := mid.sessions)
            && (forall a :: a != sid ==> (a in mid.sessions <==> a in s.sessions))
            && (forall a :: a != sid && a in s.sessions ==> mid.sessions[a] == s.sessions[a])
            && (forall u :: u in s.outbox ==> u in mid.outbox && mid.outbox[u] == s.outbox[u])
            && (forall u :: u in mid.outbox && u !in s.outbox ==> mid.outbox[u].session == sid)
  {
    RestoreSafe(s, sid, ReadRaw(s, sid, executor).pending);
    ReconcileShape(s, executor, sid, listing);
  }

  lemma SubmitSafe(s: Store, executor: Executor, sid: SessionId, uid: Uid, message: string, now: int, listing: seq<Candidate>)
    requires Inv(s) && NamesOnly(s, sid, uid)
    requires Listed(RestoredOutbox(s, sid, executor), sid, listing) && ListsAll(RestoredOutbox(s, sid, executor), sid, listing)
    ensures Safe(s, SubmitPlan(s, executor, sid, uid, message, now, listing).writes)
  {
    var first := ReconcilePlan(s, sid, executor, listing);
    ReconcileSafe(s, executor, sid, listing);
    ReconcileEffect(s, executor, sid, listing);
    var mid := Replay(s, first.writes);
    SafeEnds(s, first.writes);
    EnqueueSafe(mid, executor, sid, uid, message, now);
    SafeAppend(s, first.writes, EnqueuePlan(mid.outbox, ReadRaw(mid, sid, executor), executor, sid, uid, message, now).writes);
  }

  // ---------- cancel, publish, acknowledge ----------

  lemma {:induction false} FindByIdFinds(jobs: seq<Job>, id: int)
    ensures var r := FindById(jobs, id);
            (r.Some? ==> r.value in jobs && r.value.id == id) && (r.None? ==> forall j :: j in jobs ==> j.id != id)
  {
    if jobs != [] {
      FindByIdFinds(jobs[1..], id);
      assert jobs == [jobs[0]] + jobs[1..];
    }
  }

  lemma {:induction false} FindByUidFinds(jobs: seq<Job>, uid: Uid)
    ensures var r := FindByUid(jobs, uid);
            (r.Some? ==> r.value in jobs && r.value.uid == uid) && (r.None? ==> forall j :: j in jobs ==> j.uid != uid)
  {
    if jobs != [] {
      FindByUidFinds(jobs[1..], uid);
      assert jobs == [jobs[0]] + jobs[1..];
    }
  }

  lemma {:induction false} FilterShorter<T>(keep: T -> bool, xs: seq<T>)
    requires |Filter(keep, xs)| < |xs|
    ensures exists x :: x in xs && !keep(x)
  {
    if forall x :: x in xs ==> keep(x) {
      FilterAll(keep, xs);
    }
  }

  lemma SameIdSameJob(jobs: seq<Job>, j: Job, k: Job)
    requires Increasing(jobs) && j in jobs && k in jobs && j.id == k.id
    ensures j == k
  {
    var a :| 0 <= a < |jobs| && jobs[a] == j;
    var b :| 0 <= b < |jobs| && jobs[b] == k;
  }

  /** The session that a cancel or an acknowledgement leaves is well formed. */
  lemma {:induction false} ShrunkOk(st: Session, st': Session, keep: Job -> bool)
    requires SessionOk(st) && Shrunk(st, st', keep) && StatusOk(st')
    ensures SessionOk(st')
  {
    LiveShrinks(st, st', keep);
    assert forall j :: j in Live(st') ==> j in Live(st);
  }

  lemma CancelSafe(s: Store, executor: Executor, sid: SessionId, id: int)
    requires Inv(s)
    ensures Safe(s, CancelPlan(s, executor, sid, id).writes)
  {
    var st := ReadRaw(s, sid, executor);
    var selected := FindById(st.pending, id);
    FindByIdFinds(st.pending, id);
    var reserved := ReservedIds(s, sid);
    var keep := (j: Job) => j.id != id || j.id in reserved;
    var pending := WithoutId(st.pending, id, reserved);
    if |pending| < |st.pending| {
      FilterShorter(keep, st.pending);
    }
    var plan := CancelPlan(s, executor, sid, id);
    if plan.writes != [] {
      assert selected.Some?;
      assert sid in s.sessions && SessionOk(st);
      var u := selected.value.uid;
      DropOutboxKeeps(s, u);
      var s1 := Apply(s, DropOutbox(u));
      var st' := st.(pending := pending);
      assert pending == Filter(keep, st.pending);
      assert Shrunk(st, st', keep);
      ShrunkOk(st, st', keep);
      forall j | j in st.pending && !keep(j) ensures j == selected.value {
        assert j in Live(st) && selected.value in Live(st);
        SameIdSameJob(Live(st), j, selected.value);
      }
      assert Dropped(keep, st.pending) == {u};
      forall op, p, j | Reserves(s1, op, p) && p.session == sid && j in p.jobs ensures keep(j) {
        assert j.id in reserved;
      }
      ShrinkKeeps(s1, sid, st', keep, Cancelled({u}));
      SafeOne(s1, PutSession(sid, st', Cancelled({u})));
      assert plan.writes[1..] == [PutSession(sid, st', Cancelled({u}))];
    }
  }

  lemma OwnRecordListed(s: Store, executor: Executor, c: Candidate)
    requires Inv(s) && c.uid in s.outbox && s.outbox[c.uid] == c
    ensures Listed(RestoredOutbox(s, c.session, executor), c.session, [c])
  {
    RestoreSafe(s, c.session, ReadRaw(s, c.session, executor).pending);
  }

  lemma SameReserved(s: Store, t: Store, sid: SessionId)
    requires s.reservations == t.reservations
    ensures ReservedUids(s, sid) == ReservedUids(t, sid)
  {}

  lemma BeginPublicationSafe(s: Store, executor: Executor, c: Candidate)
    requires Inv(s)
    ensures Safe(s, BeginPublicationPlan(s, executor, c).writes)
  {
    if c.uid in s.outbox && s.outbox[c.uid] == c {
      OwnRecordListed(s, executor, c);
      ReconcileSafe(s, executor, c.session, [c]);
      ReconcileEffect(s, executor, c.session, [c]);
      var first := ReconcilePlan(s, c.session, executor, [c]);
      var mid := Replay(s, first.writes);
      SafeEnds(s, first.writes);
      SameReserved(s, mid, c.session);
      PublishSafe(mid, executor, c);
      SafeAppend(s, first.writes, PublishPlan(mid, executor, c, ReservedUids(s, c.session)).writes);
    }
  }

  lemma PublishSafe(s: Store, executor: Executor, c: Candidate)
    requires Inv(s)
    ensures Safe(s, PublishPlan(s, executor, c, ReservedUids(s, c.session)).writes)
  {
    var st := ReadRaw(s, c.session, executor);
    FindByUidFinds(st.pending, c.uid);
    if PublishPlan(s, executor, c, ReservedUids(s, c.session)).writes != [] {
      MarkPending(s, c.session, c.uid);
      SafeOne(s, PutMarker(c.uid));
    }
  }

  /** A pending, unreserved candidate may cross into Git authority. */
  lemma MarkPending(s: Store, sid: SessionId, uid: Uid)
    requires Inv(s) && sid in s.sessions && uid in Uids(s.sessions[sid].pending) && uid !in ReservedUids(s, sid)
    ensures Inv(Apply(s, PutMarker(uid)))
  {
    var st := s.sessions[sid];
    var j :| j in st.pending && j.uid == uid;
    assert SessionOk(st) && j in Live(st);
    assert Accepts(s, sid, uid) && IsLive(s, sid, uid);
    assert uid !in Settled(s);
    forall op, p, k | Reserves(s, op, p) && k in p.jobs ensures k.uid != uid {
      assert Accepts(s, p.session, k.uid);
      assert k.uid == uid ==> p.session == sid;
    }
    PutMarkerKeeps(s, uid);
  }

  /** Acknowledging would empty pending while a batch of the session still runs. */
  predicate LosesBatch(s: Store, executor: Executor, sid: SessionId, uids: set<Uid>) {
    var st := ReadRaw(s, sid, executor);
    st.current != [] && st.pending != [] && WithoutUids(st.pending, uids) == [] && Uids(st.current) * uids == {}
  }

  /** Acknowledging a published candidate is safe exactly when it does not drop a running batch. */
  lemma AcknowledgeSafe(s: Store, executor: Executor, sid: SessionId, uids: set<Uid>, result: string)
    requires Inv(s) && Uids(ReadRaw(s, sid, executor).pending) * uids <= s.markers
    ensures Safe(s, AcknowledgePlan(s, executor, sid, uids, result).writes) <==> !LosesBatch(s, executor, sid, uids)
  {
    var st := ReadRaw(s, sid, executor);
    var keep := (j: Job) => j.uid !in uids;
    var pending := WithoutUids(st.pending, uids);
    var plan := AcknowledgePlan(s, executor, sid, uids, result);
    if plan.writes != [] {
      assert sid in s.sessions && SessionOk(st);
      var st' := HandedState(st, pending, result);
      var fate := Handed(Uids(st.pending) * uids);
      if LosesBatch(s, executor, sid, uids) {
        assert !StatusOk(st');
        assert st' == Apply(s, plan.writes[0]).sessions[sid];
        assert !SessionOk(st');
        assert !Safe(Apply(s, plan.writes[0]), plan.writes[1..]);
      } else {
        assert pending == [] ==> st.current == [];
        assert Shrunk(st, st', keep);
        ShrunkOk(st, st', keep);
        assert Dropped(keep, st.pending) == Uids(st.pending) * uids;
        forall op, p, j | Reserves(s, op, p) && p.session == sid && !Acknowledged(st, op) && j in p.jobs ensures keep(j) {
          assert ParticipantOk(st, op, p) && j.uid !in s.begun && s.markers <= s.begun;
          assert j in st.current || j in st.pending;
          assert j.uid in Uids(st.current) || j.uid in Uids(st.pending);
          assert j.uid !in Uids(st.pending) * uids;
          assert j.uid !in Uids(st.current) * uids;
        }
        ShrinkKeeps(s, sid, st', keep, fate);
        SafeOne(s, PutSession(sid, st', fate));
      }
    }
  }
}
