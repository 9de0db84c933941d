/** What every reachable durable state of the update queue satisfies, and why each kind of write keeps it. */
module UpdateQueueInvariant {
  import opened Common
  import opened UpdateQueue

  predicate Increasing(jobs: seq<Job>) {
    forall i, j :: 0 <= i < j < |jobs| ==> jobs[i].id < jobs[j].id
  }

  predicate DistinctUids(jobs: seq<Job>) {
    forall i, j :: 0 <= i < j < |jobs| ==> jobs[i].uid != jobs[j].uid
  }

  /** Everything the JSON reader of a session file checks. */
  predicate JobsOk(st: Session) {
    && 1 <= st.nextId
    && Increasing(Live(st)) && DistinctUids(Live(st)) && Distinct(st.accepted)
    && (forall j :: j in Live(st) ==> 1 <= j.id < st.nextId && j.uid in st.accepted)
  }

  /** What the status of a session says about its batch and its deadlines. */
  predicate StatusOk(st: Session) {
    && (st.current == [] <==> st.currentOp == None)
    && (st.current != [] ==> st.status == Failed || st.status == ManualRecovery || (st.status == Running && st.phase == RunningPhase))
    && (st.current == [] && st.pending != [] ==> st.status == Failed || st.status == ManualRecovery || (st.status == Running && st.phase == WaitingPhase))
    && (st.status == Failed ==> st.nextRetryAt.Some?)
    && (st.status == Running && st.phase == WaitingPhase ==> st.nextFlushAt.Some?)
  }

  predicate SessionOk(st: Session) {
    JobsOk(st) && StatusOk(st)
  }

  ghost predicate SessionsOk(s: Store) {
    forall sid :: sid in s.sessions ==> SessionOk(s.sessions[sid])
  }

  predicate Accepts(s: Store, sid: SessionId, u: Uid) {
    sid in s.sessions && u in s.sessions[sid].accepted
  }

  ghost predicate Owned(s: Store, u: Uid) {
    exists a :: Accepts(s, a, u)
  }

  function Settled(s: Store): set<Uid> {
    s.cancelled + s.finished + s.handed
  }

  predicate IsLive(s: Store, sid: SessionId, u: Uid) {
    sid in s.sessions && u in Uids(Live(s.sessions[sid]))
  }

  /** Every accepted uid has one owner and is either live there or settled in exactly one way. */
  ghost predicate LedgerOk(s: Store) {
    && s.cancelled !! s.finished !! s.handed
    && (forall a, b, u :: Accepts(s, a, u) && Accepts(s, b, u) ==> a == b)
    && (forall a, u :: Accepts(s, a, u) ==> (IsLive(s, a, u) <==> u !in Settled(s)))
    && (forall u :: u in Settled(s) ==> Owned(s, u))
  }

  predicate Recorded(s: Store, u: Uid)
    requires u in s.outbox
  {
    var c := s.outbox[u];
    && Accepts(s, c.session, u)
    && forall j :: j in Live(s.sessions[c.session]) && j.uid == u ==> CandidateOf(c.session, j) == c
  }

  function NextId(s: Store, sid: SessionId): int {
    if sid in s.sessions then s.sessions[sid].nextId else 1
  }

  /** A candidate whose submit stopped between the outbox write and the session write. */
  ghost predicate Orphan(s: Store, u: Uid)
    requires u in s.outbox
  {
    && s.outbox[u].displayId == NextId(s, s.outbox[u].session)
    && !Owned(s, u)
  }

  ghost predicate OutboxOk(s: Store) {
    && (forall u :: u in s.outbox ==> s.outbox[u].uid == u && (Recorded(s, u) || Orphan(s, u)))
    && (forall u, v :: u in s.outbox && v in s.outbox && Orphan(s, u) && Orphan(s, v) && s.outbox[u].session == s.outbox[v].session ==> u == v)
  }

  predicate WellFormed(op: OpId, ps: seq<Participant>) {
    && ps != [] && SortedSessions(ps) && BatchId(ps) == op
    && forall p :: p in ps ==> p.jobs != []
  }

  /** A live participant has finished this operation, runs it, or still holds it at the head of pending. */
  predicate ParticipantOk(st: Session, op: OpId, p: Participant) {
    || Acknowledged(st, op)
    || (st.lastOp != Some(op) && st.current == p.jobs && st.currentOp == Some(op))
    || (st.lastOp != Some(op) && st.current == [] && IsPrefix(p.jobs, st.pending))
  }

  predicate Reserves(s: Store, op: OpId, p: Participant) {
    op in s.reservations && p in s.reservations[op].participants
  }

  predicate AllFinished(s: Store, op: OpId, sid: SessionId) {
    forall c :: c in op.candidates && c.session == sid ==> c.uid in s.finished && Accepts(s, sid, c.uid)
  }

  ghost predicate ReservationsOk(s: Store) {
    && (forall op :: op in s.reservations ==> op in s.booked && WellFormed(op, s.reservations[op].participants))
    && (forall op, p :: Reserves(s, op, p) ==> p.session in s.sessions && ParticipantOk(s.sessions[p.session], op, p))
    && (forall op, p, j :: Reserves(s, op, p) && j in p.jobs ==> Accepts(s, p.session, j.uid) && j.uid !in s.begun)
    && (forall op, p, op', p' :: Reserves(s, op, p) && Reserves(s, op', p') && p.session == p'.session ==> op == op')
  }

  /** The session runs exactly its share of the live reservation `op`. */
  predicate Runs(s: Store, sid: SessionId, op: OpId, p: Participant) {
    && sid in s.sessions && s.sessions[sid].currentOp == Some(op)
    && Reserves(s, op, p) && p.session == sid && p.jobs == s.sessions[sid].current
  }

  ghost predicate HistoryOk(s: Store) {
    && (forall op, c :: op in s.booked && op !in s.reservations && c in op.candidates ==> c.uid in s.finished)
    && (forall sid :: sid in s.sessions && s.sessions[sid].lastOp.Some? ==> AllFinished(s, s.sessions[sid].lastOp.value, sid))
    && (forall sid :: sid in s.sessions && s.sessions[sid].current != [] ==>
          exists op, p :: Runs(s, sid, op, p))
  }

  /** The publication marker of a live candidate stays as long as the candidate does. */
  ghost predicate PublicationOk(s: Store) {
    && s.markers <= s.begun && s.begun !! s.finished
    && (forall u :: u in s.begun ==> Owned(s, u))
    && (forall a, u :: IsLive(s, a, u) && u in s.begun ==> u in s.markers)
  }

  ghost predicate Inv(s: Store) {
    SessionsOk(s) && LedgerOk(s) && OutboxOk(s) && PublicationOk(s) && ReservationsOk(s) && HistoryOk(s)
  }

  /** A write that leaves the jobs and operations of a session alone. */
  predicate Quiet(st: Session, st': Session) {
    && st'.accepted == st.accepted && st'.current == st.current && st'.pending == st.pending && st'.nextId == st.nextId
    && st'.currentOp == st.currentOp && st'.lastOp == st.lastOp
  }

  // ---------- what each part of the invariant depends on ----------

  lemma SameOwned(s: Store, t: Store)
    requires forall a, u :: Accepts(t, a, u) <==> Accepts(s, a, u)
    ensures forall u :: Owned(t, u) <==> Owned(s, u)
  {
    forall u ensures Owned(t, u) <==> Owned(s, u) {
      if Owned(s, u) {
        var a :| Accepts(s, a, u);
        assert Accepts(t, a, u);
      }
      if Owned(t, u) {
        var a :| Accepts(t, a, u);
        assert Accepts(s, a, u);
      }
    }
  }

  lemma LedgerFrame(s: Store, t: Store)
    requires LedgerOk(s)
    requires forall a, u :: Accepts(t, a, u) <==> Accepts(s, a, u)
    requires t.cancelled !! t.finished !! t.handed && Settled(s) <= Settled(t)
    requires forall a, u :: Accepts(t, a, u) ==> (IsLive(t, a, u) <==> u !in Settled(t))
    requires forall u :: u in Settled(t) ==> Owned(s, u)
    ensures LedgerOk(t)
  {
    forall u | u in Settled(t) ensures Owned(t, u) {
      var a :| Accepts(s, a, u);
      assert Accepts(t, a, u);
    }
  }

  lemma OutboxFrame(s: Store, t: Store)
    requires OutboxOk(s) && t.outbox == s.outbox
    requires forall a, u :: Accepts(t, a, u) <==> Accepts(s, a, u)
    requires forall a :: NextId(t, a) == NextId(s, a)
    requires forall a :: a in t.sessions ==> a in s.sessions || Live(t.sessions[a]) == []
    requires forall a, j :: a in t.sessions && a in s.sessions && j in Live(t.sessions[a]) ==> j in Live(s.sessions[a])
    ensures OutboxOk(t)
  {
    SameOwned(s, t);
    forall u | u in s.outbox && Recorded(s, u) ensures Recorded(t, u) {
      assert Accepts(t, s.outbox[u].session, u);
    }
  }

  lemma ReservationsFrame(s: Store, t: Store)
    requires ReservationsOk(s) && t.reservations == s.reservations && s.booked <= t.booked
    requires forall a, u :: Accepts(s, a, u) ==> Accepts(t, a, u)
    requires forall op, p, j :: Reserves(s, op, p) && j in p.jobs ==> j.uid !in t.begun
    requires forall op, p :: Reserves(s, op, p) ==> p.session in t.sessions && ParticipantOk(t.sessions[p.session], op, p)
    ensures ReservationsOk(t)
  {
    assert forall op, p :: Reserves(t, op, p) ==> Reserves(s, op, p);
  }

  lemma HistoryFrame(s: Store, t: Store)
    requires HistoryOk(s) && t.reservations == s.reservations && t.booked == s.booked
    requires s.finished <= t.finished
    requires forall a, u :: Accepts(s, a, u) ==> Accepts(t, a, u)
    requires forall a :: a in t.sessions && t.sessions[a].lastOp.Some? ==>
               (a in s.sessions && s.sessions[a].lastOp == t.sessions[a].lastOp) || AllFinished(t, t.sessions[a].lastOp.value, a)
    requires forall a :: a in t.sessions && t.sessions[a].current != [] ==>
               (a in s.sessions && s.sessions[a].current == t.sessions[a].current && s.sessions[a].currentOp == t.sessions[a].currentOp)
               || exists op, p :: Runs(t, a, op, p)
    ensures HistoryOk(t)
  {
    forall a | a in t.sessions && t.sessions[a].current != [] ensures exists op, p :: Runs(t, a, op, p) {
      if !exists op, p :: Runs(t, a, op, p) {
        var op, p :| Runs(s, a, op, p);
        assert Runs(t, a, op, p);
      }
    }
  }

  lemma PublicationFrame(s: Store, t: Store)
    requires PublicationOk(s) && t.begun == s.begun && t.markers == s.markers && t.finished !! s.begun
    requires forall a, u :: Accepts(s, a, u) ==> Accepts(t, a, u)
    requires forall a, u :: IsLive(t, a, u) ==> IsLive(s, a, u) || u !in s.begun
    ensures PublicationOk(t)
  {
    forall u | u in t.begun ensures Owned(t, u) {
      var a :| Accepts(s, a, u);
      assert Accepts(t, a, u);
    }
  }

  lemma QuietKeeps(s: Store, executor: Executor, sid: SessionId, st': Session)
    requires Inv(s) && Quiet(ReadRaw(s, sid, executor), st') && SessionOk(st')
    ensures Inv(Apply(s, PutSession(sid, st', Kept)))
  {
    var t := Apply(s, PutSession(sid, st', Kept));
    LedgerFrame(s, t);
    OutboxFrame(s, t);
    PublicationFrame(s, t);
    ReservationsFrame(s, t);
    HistoryFrame(s, t);
  }

  // ---------- a new job ----------

  predicate Grown(st: Session, st': Session, job: Job) {
    && st'.accepted == st.accepted + [job.uid] && st'.current == st.current && st'.pending == st.pending + [job]
    && job.id == st.nextId && st'.nextId == job.id + 1
    && st'.currentOp == st.currentOp && st'.lastOp == st.lastOp
  }

  lemma AppendJob(jobs: seq<Job>, job: Job)
    requires Increasing(jobs) && DistinctUids(jobs)
    requires forall j :: j in jobs ==> j.id < job.id && j.uid != job.uid
    ensures Increasing(jobs + [job]) && DistinctUids(jobs + [job])
  {
    var all := jobs + [job];
    assert forall i :: 0 <= i < |jobs| ==> all[i] == jobs[i] && jobs[i] in jobs;
  }

  lemma GrownJobs(st: Session, st': Session, job: Job)
    requires JobsOk(st) && Grown(st, st', job) && job.uid !in st.accepted
    ensures JobsOk(st')
  {
    assert Live(st') == Live(st) + [job];
    AppendJob(Live(st), job);
    assert forall j :: j in Live(st) + [job] ==> j in Live(st) || j == job;
  }

  lemma EnqueueGrows(st: Session, executor: Executor, job: Job, now: int)
    requires SessionOk(st) && job.id == st.nextId && job.uid !in st.accepted
    ensures var st' := Enqueue(st.(executor := executor, accepted := st.accepted + [job.uid]), job, now);
            SessionOk(st') && Grown(st, st', job) && st'.executor == executor
  {
    var st' := Enqueue(st.(executor := executor, accepted := st.accepted + [job.uid]), job, now);
    assert st.pending == [] ==> [job] == st.pending + [job];
    GrownJobs(st, st', job);
  }

  lemma GrowLedger(s: Store, executor: Executor, sid: SessionId, st': Session, job: Job)
    requires LedgerOk(s) && Grown(ReadRaw(s, sid, executor), st', job) && !Owned(s, job.uid)
    ensures LedgerOk(Apply(s, PutSession(sid, st', Kept)))
  {
    var t := Apply(s, PutSession(sid, st', Kept));
    assert forall a :: !Accepts(s, a, job.uid);
    assert forall a, u :: Accepts(t, a, u) <==> Accepts(s, a, u) || (a == sid && u == job.uid);
    assert Live(st') == Live(ReadRaw(s, sid, executor)) + [job];
    assert job in Live(st');
    assert forall a, u :: IsLive(t, a, u) <==> IsLive(s, a, u) || (a == sid && u == job.uid);
    assert job.uid !in Settled(s);
    forall u | u in Settled(t) ensures Owned(t, u) {
      var a :| Accepts(s, a, u);
      assert Accepts(t, a, u);
    }
  }

  lemma GrowOutbox(s: Store, executor: Executor, sid: SessionId, st': Session, job: Job)
    requires OutboxOk(s) && Grown(ReadRaw(s, sid, executor), st', job) && !Owned(s, job.uid)
    requires job.uid in s.outbox && s.outbox[job.uid] == CandidateOf(sid, job)
    requires forall a, u :: Accepts(s, a, u) && u == job.uid ==> false
    requires sid in s.sessions ==> forall j :: j in Live(s.sessions[sid]) ==> j.uid in s.sessions[sid].accepted
    ensures OutboxOk(Apply(s, PutSession(sid, st', Kept)))
  {
    var t := Apply(s, PutSession(sid, st', Kept));
    var st := ReadRaw(s, sid, executor);
    assert Live(st') == Live(st) + [job];
    assert forall a, u :: Accepts(t, a, u) <==> Accepts(s, a, u) || (a == sid && u == job.uid);
    assert Orphan(s, job.uid);
    forall u ensures Owned(t, u) <==> Owned(s, u) || u == job.uid {
      if Owned(s, u) {
        var a :| Accepts(s, a, u);
        assert Accepts(t, a, u);
      }
      if Owned(t, u) && u != job.uid {
        var a :| Accepts(t, a, u);
        assert Accepts(s, a, u);
      }
      assert Accepts(t, sid, job.uid);
    }
    forall u | u in s.outbox ensures Recorded(t, u) || Orphan(t, u) {
      if u == job.uid {
        assert Recorded(t, u);
      } else if Recorded(s, u) {
        assert Recorded(t, u);
      } else {
        assert s.outbox[u].session != sid;
        assert Orphan(t, u);
      }
    }
  }

  lemma GrowRest(s: Store, executor: Executor, sid: SessionId, st': Session, job: Job)
    requires PublicationOk(s) && ReservationsOk(s) && HistoryOk(s)
    requires Grown(ReadRaw(s, sid, executor), st', job) && !Owned(s, job.uid)
    ensures var t := Apply(s, PutSession(sid, st', Kept)); PublicationOk(t) && ReservationsOk(t) && HistoryOk(t)
  {
    var t := Apply(s, PutSession(sid, st', Kept));
    var st := ReadRaw(s, sid, executor);
    assert Live(st') == Live(st) + [job];
    forall a, u | IsLive(t, a, u) ensures IsLive(s, a, u) || u !in s.begun {
      assert a == sid && u != job.uid ==> u in Uids(Live(st));
    }
    PublicationFrame(s, t);
    forall op, p | Reserves(s, op, p) ensures p.session in t.sessions && ParticipantOk(t.sessions[p.session], op, p) {
      if p.session == sid && IsPrefix(p.jobs, st.pending) {
        assert st'.pending[..|p.jobs|] == st.pending[..|p.jobs|];
      }
    }
    ReservationsFrame(s, t);
    HistoryFrame(s, t);
  }

  lemma GrowKeeps(s: Store, executor: Executor, sid: SessionId, st': Session, job: Job)
    requires Inv(s) && Grown(ReadRaw(s, sid, executor), st', job) && SessionOk(st') && !Owned(s, job.uid)
    requires job.uid in s.outbox && s.outbox[job.uid] == CandidateOf(sid, job)
    ensures Inv(Apply(s, PutSession(sid, st', Kept)))
  {
    GrowLedger(s, executor, sid, st', job);
    GrowOutbox(s, executor, sid, st', job);
    GrowRest(s, executor, sid, st', job);
  }

  // ---------- a job that leaves pending ----------

  /** `st'` is `st` without the pending jobs that fail `keep`. */
  ghost predicate Shrunk(st: Session, st': Session, keep: Job -> bool) {
    && st'.accepted == st.accepted && st'.current == st.current && st'.nextId == st.nextId
    && st'.currentOp == st.currentOp && st'.lastOp == st.lastOp
    && st'.pending == Filter(keep, st.pending)
  }

  function Dropped(keep: Job -> bool, jobs: seq<Job>): set<Uid> {
    set j | j in jobs && !keep(j) :: j.uid
  }

  lemma {:induction false} FilterIncreasing(keep: Job -> bool, jobs: seq<Job>)
    requires Increasing(jobs) && DistinctUids(jobs)
    ensures Increasing(Filter(keep, jobs)) && DistinctUids(Filter(keep, jobs))
  {
    if jobs != [] {
      FilterIncreasing(keep, jobs[1..]);
      FilterMembers(keep, jobs[1..]);
      var rest := Filter(keep, jobs[1..]);
      forall j | j in rest ensures jobs[0].id < j.id && jobs[0].uid != j.uid {
        assert j in jobs[1..];
        var k :| 0 <= k < |jobs[1..]| && jobs[1..][k] == j;
        assert jobs[k + 1] == j;
      }
    }
  }

  /** The whole session after filtering pending, seen as one filtered list. */
  lemma {:induction false} LiveFiltered(st: Session, st': Session, keep: Job -> bool)
    requires Shrunk(st, st', keep)
    ensures Live(st') == Filter((j: Job) => j in st.current || keep(j), Live(st)) || exists j :: j in st.current && j in st.pending
  {
    var all := (j: Job) => j in st.current || keep(j);
    FilterAll(all, st.current);
    FilterAppend(all, st.current, st.pending);
    if forall j :: j in st.current ==> j !in st.pending {
      SameFilter(all, keep, st.pending);
    }
  }

  lemma SameUidSameJob(jobs: seq<Job>, j: Job, k: Job)
    requires DistinctUids(jobs) && j in jobs && k in jobs && j.uid == k.uid
    ensures j == k
  {
    var a :| 0 <= a < |jobs| && jobs[a] == j;
    var b :| 0 <= b < |jobs| && jobs[b] == k;
  }

  lemma CurrentApartFromPending(st: Session)
    requires DistinctUids(Live(st))
    ensures forall j, k :: j in st.current && k in st.pending ==> j.uid != k.uid
  {
    forall j, k | j in st.current && k in st.pending ensures j.uid != k.uid {
      var a :| 0 <= a < |st.current| && st.current[a] == j;
      var b :| 0 <= b < |st.pending| && st.pending[b] == k;
      assert Live(st)[a] == j && Live(st)[|st.current| + b] == k;
    }
  }

  lemma {:induction false} LiveShrinks(st: Session, st': Session, keep: Job -> bool)
    requires Shrunk(st, st', keep) && Increasing(Live(st)) && DistinctUids(Live(st))
    ensures Increasing(Live(st')) && DistinctUids(Live(st'))
    ensures forall j :: j in Live(st') <==> j in st.current || (j in st.pending && keep(j))
    ensures Uids(Live(st')) == Uids(Live(st)) - Dropped(keep, st.pending)
    ensures Dropped(keep, st.pending) <= Uids(Live(st))
  {
    CurrentApartFromPending(st);
    LiveFiltered(st, st', keep);
    FilterIncreasing((j: Job) => j in st.current || keep(j), Live(st));
    FilterMembers(keep, st.pending);
    forall u ensures u in Uids(Live(st')) <==> u in Uids(Live(st)) && u !in Dropped(keep, st.pending) {
      if u in Uids(Live(st')) && u in Dropped(keep, st.pending) {
        var j :| j in Live(st') && j.uid == u;
        var k :| k in st.pending && !keep(k) && k.uid == u;
        SameUidSameJob(Live(st), j, k);
      }
    }
  }

  predicate Retires(fate: Fate, gone: set<Uid>) {
    fate == Cancelled(gone) || fate == Handed(gone) || fate == Finished(gone)
  }

  /** Live uids of one session move to one settled class. */
  lemma RetireLedger(s: Store, sid: SessionId, st': Session, fate: Fate, gone: set<Uid>)
    requires LedgerOk(s) && sid in s.sessions && st'.accepted == s.sessions[sid].accepted && Retires(fate, gone)
    requires gone <= Uids(Live(s.sessions[sid])) && Uids(Live(st')) == Uids(Live(s.sessions[sid])) - gone
    requires forall u :: u in Uids(Live(s.sessions[sid])) ==> u in st'.accepted
    ensures LedgerOk(Apply(s, PutSession(sid, st', fate)))
  {
    var t := Apply(s, PutSession(sid, st', fate));
    assert Settled(t) == Settled(s) + gone;
    assert forall a, u :: Accepts(t, a, u) <==> Accepts(s, a, u);
    forall u | u in gone ensures Accepts(s, sid, u) && u !in Settled(s) {
      assert IsLive(s, sid, u);
    }
    forall a, u | Accepts(t, a, u) ensures IsLive(t, a, u) <==> u !in Settled(t) {
      assert Accepts(s, a, u);
      assert IsLive(s, a, u) <==> u !in Settled(s);
      if u in gone {
        assert Accepts(s, sid, u);
        assert a == sid;
      }
    }
    LedgerFrame(s, t);
  }

  lemma {:induction false} ShrinkRest(s: Store, sid: SessionId, st': Session, keep: Job -> bool, fate: Fate)
    requires PublicationOk(s) && ReservationsOk(s) && HistoryOk(s) && sid in s.sessions && Shrunk(s.sessions[sid], st', keep)
    requires fate.Cancelled? || fate.Handed?
    requires Uids(Live(st')) <= Uids(Live(s.sessions[sid]))
    requires forall op, p, j :: Reserves(s, op, p) && p.session == sid && !Acknowledged(s.sessions[sid], op) && j in p.jobs ==> keep(j)
    ensures var t := Apply(s, PutSession(sid, st', fate)); PublicationOk(t) && ReservationsOk(t) && HistoryOk(t)
  {
    var t := Apply(s, PutSession(sid, st', fate));
    PublicationFrame(s, t);
    forall op, p | Reserves(s, op, p) ensures p.session in t.sessions && ParticipantOk(t.sessions[p.session], op, p) {
      if p.session == sid && !Acknowledged(s.sessions[sid], op) && IsPrefix(p.jobs, s.sessions[sid].pending) {
        FilterKeepsPrefix(keep, s.sessions[sid].pending, |p.jobs|);
      }
    }
    ReservationsFrame(s, t);
    HistoryFrame(s, t);
  }

  lemma {:induction false} ShrinkKeeps(s: Store, sid: SessionId, st': Session, keep: Job -> bool, fate: Fate)
    requires Inv(s) && sid in s.sessions && Shrunk(s.sessions[sid], st', keep) && SessionOk(st')
    requires fate == Cancelled(Dropped(keep, s.sessions[sid].pending)) || fate == Handed(Dropped(keep, s.sessions[sid].pending))
    requires forall op, p, j :: Reserves(s, op, p) && p.session == sid && !Acknowledged(s.sessions[sid], op) && j in p.jobs ==> keep(j)
    ensures Inv(Apply(s, PutSession(sid, st', fate)))
  {
    var t := Apply(s, PutSession(sid, st', fate));
    var st := s.sessions[sid];
    assert SessionOk(st);
    LiveShrinks(st, st', keep);
    RetireLedger(s, sid, st', fate, Dropped(keep, st.pending));
    OutboxFrame(s, t);
    ShrinkRest(s, sid, st', keep, fate);
  }

  // ---------- a batch that starts or ends ----------

  lemma SameParticipant(s: Store, op: OpId, p: Participant, q: Participant)
    requires ReservationsOk(s) && Reserves(s, op, p) && Reserves(s, op, q) && p.session == q.session
    ensures p == q
  {
    var ps := s.reservations[op].participants;
    var i :| 0 <= i < |ps| && ps[i] == p;
    var k :| 0 <= k < |ps| && ps[k] == q;
  }

  lemma StartRest(s: Store, op: OpId, p: Participant)
    requires PublicationOk(s) && ReservationsOk(s) && HistoryOk(s) && Reserves(s, op, p) && p.session in s.sessions
    requires var st := s.sessions[p.session]; st.lastOp != Some(op) && st.current == [] && IsPrefix(p.jobs, st.pending)
    ensures var t := Apply(s, PutSession(p.session, StartedState(s.sessions[p.session], op, |p.jobs|), Kept));
            PublicationOk(t) && ReservationsOk(t) && HistoryOk(t)
  {
    var st := s.sessions[p.session];
    var st' := StartedState(st, op, |p.jobs|);
    var t := Apply(s, PutSession(p.session, st', Kept));
    assert Live(st') == Live(st);
    PublicationFrame(s, t);
    forall op', q | Reserves(s, op', q) ensures q.session in t.sessions && ParticipantOk(t.sessions[q.session], op', q) {
      if q.session == p.session {
        assert op' == op;
        SameParticipant(s, op, p, q);
      }
    }
    ReservationsFrame(s, t);
    assert Runs(t, p.session, op, p);
    HistoryFrame(s, t);
  }

  lemma StartKeeps(s: Store, op: OpId, p: Participant)
    requires Inv(s) && Reserves(s, op, p) && p.session in s.sessions
    requires var st := s.sessions[p.session]; st.lastOp != Some(op) && st.current == [] && IsPrefix(p.jobs, st.pending)
    ensures Inv(Apply(s, PutSession(p.session, StartedState(s.sessions[p.session], op, |p.jobs|), Kept)))
  {
    var st := s.sessions[p.session];
    var st' := StartedState(st, op, |p.jobs|);
    var t := Apply(s, PutSession(p.session, st', Kept));
    assert Live(st') == Live(st);
    assert st'.current != [] by { assert WellFormed(op, s.reservations[op].participants); }
    assert SessionOk(st);
    assert SessionOk(st');
    LedgerFrame(s, t);
    OutboxFrame(s, t);
    StartRest(s, op, p);
  }

  lemma RunsWholeShare(s: Store, sid: SessionId, op: OpId, p: Participant)
    requires ReservationsOk(s) && Runs(s, sid, op, p)
    ensures forall c :: c in op.candidates && c.session == sid ==> c.uid in Uids(s.sessions[sid].current)
  {
    var ps := s.reservations[op].participants;
    assert WellFormed(op, ps);
    forall c | c in op.candidates && c.session == sid ensures c.uid in Uids(s.sessions[sid].current) {
      assert c in CandidatesOf(ps);
      var q, j :| q in ps && j in q.jobs && c == CandidateOf(q.session, j);
      assert Reserves(s, op, q);
      SameParticipant(s, op, p, q);
    }
  }

  lemma FinishedJobs(st: Session, op: OpId, result: string, now: int)
    requires SessionOk(st)
    ensures var st' := FinishedState(st, op, result, now);
            SessionOk(st') && Live(st') == st.pending && Uids(Live(st')) == Uids(Live(st)) - Uids(st.current)
    ensures Uids(st.current) <= Uids(Live(st))
  {
    var st' := FinishedState(st, op, result, now);
    assert Live(st') == st.pending;
    assert forall i :: 0 <= i < |st.pending| ==> st.pending[i] == Live(st)[|st.current| + i];
    CurrentApartFromPending(st);
  }

  lemma FinishRest(s: Store, sid: SessionId, op: OpId, result: string, now: int)
    requires SessionsOk(s) && PublicationOk(s) && ReservationsOk(s) && HistoryOk(s)
    requires sid in s.sessions && s.sessions[sid].current != [] && s.sessions[sid].currentOp == Some(op)
    ensures var t := Apply(s, PutSession(sid, FinishedState(s.sessions[sid], op, result, now), Finished(Uids(s.sessions[sid].current))));
            PublicationOk(t) && ReservationsOk(t) && HistoryOk(t)
  {
    var st := s.sessions[sid];
    var st' := FinishedState(st, op, result, now);
    var t := Apply(s, PutSession(sid, st', Finished(Uids(st.current))));
    var op', p :| Runs(s, sid, op', p);
    assert SessionOk(st);
    FinishedJobs(st, op, result, now);
    RunsWholeShare(s, sid, op, p);
    assert Uids(st.current) !! s.begun;
    PublicationFrame(s, t);
    forall op'', q | Reserves(s, op'', q) ensures q.session in t.sessions && ParticipantOk(t.sessions[q.session], op'', q) {
      if q.session == sid {
        assert op'' == op;
        SameParticipant(s, op, p, q);
      }
    }
    ReservationsFrame(s, t);
    HistoryFrame(s, t);
  }

  lemma FinishKeeps(s: Store, sid: SessionId, op: OpId, result: string, now: int)
    requires Inv(s) && sid in s.sessions && s.sessions[sid].current != [] && s.sessions[sid].currentOp == Some(op)
    ensures Inv(Apply(s, PutSession(sid, FinishedState(s.sessions[sid], op, result, now), Finished(Uids(s.sessions[sid].current)))))
  {
    var st := s.sessions[sid];
    var st' := FinishedState(st, op, result, now);
    var t := Apply(s, PutSession(sid, st', Finished(Uids(st.current))));
    assert SessionOk(st);
    FinishedJobs(st, op, result, now);
    RetireLedger(s, sid, st', Finished(Uids(st.current)), Uids(st.current));
    OutboxFrame(s, t);
    FinishRest(s, sid, op, result, now);
  }

  // ---------- outbox and publication records ----------

  lemma PutMarkerKeeps(s: Store, u: Uid)
    requires Inv(s) && Owned(s, u) && u !in s.finished
    requires forall op, p, j :: Reserves(s, op, p) && j in p.jobs ==> j.uid != u
    ensures Inv(Apply(s, PutMarker(u)))
  {
    var t := Apply(s, PutMarker(u));
    assert forall a, v :: IsLive(t, a, v) <==> IsLive(s, a, v);
    assert forall a, v :: Accepts(t, a, v) <==> Accepts(s, a, v);
    SameOwned(s, t);
    assert LedgerOk(t);
    assert forall v :: v in s.outbox && Orphan(s, v) ==> Orphan(t, v);
    assert forall v :: v in s.outbox && Recorded(s, v) ==> Recorded(t, v);
    assert OutboxOk(t);
    assert PublicationOk(t);
    ReservationsFrame(s, t);
    HistoryFrame(s, t);
  }

  lemma DropMarkerKeeps(s: Store, u: Uid)
    requires Inv(s) && (u in s.begun ==> forall a :: !IsLive(s, a, u))
    ensures Inv(Apply(s, DropMarker(u)))
  {
    var t := Apply(s, DropMarker(u));
    assert forall a, v :: IsLive(t, a, v) <==> IsLive(s, a, v);
    assert forall a, v :: Accepts(t, a, v) <==> Accepts(s, a, v);
    SameOwned(s, t);
    assert LedgerOk(t);
    assert forall v :: v in s.outbox && Orphan(s, v) ==> Orphan(t, v);
    assert forall v :: v in s.outbox && Recorded(s, v) ==> Recorded(t, v) && !Orphan(s, v) && !Orphan(t, v);
    assert OutboxOk(t);
    assert PublicationOk(t);
    ReservationsFrame(s, t);
    HistoryFrame(s, t);
  }

  lemma DropOutboxKeeps(s: Store, u: Uid)
    requires Inv(s)
    ensures Inv(Apply(s, DropOutbox(u)))
  {
    var t := Apply(s, DropOutbox(u));
    assert forall a, v :: Accepts(t, a, v) <==> Accepts(s, a, v);
    SameOwned(s, t);
    assert LedgerOk(t);
    assert forall v :: v in t.outbox ==> (Orphan(s, v) <==> Orphan(t, v)) && (Recorded(s, v) <==> Recorded(t, v));
    assert OutboxOk(t);
    assert PublicationOk(t);
    ReservationsFrame(s, t);
    HistoryFrame(s, t);
  }

  predicate HasRecordedJob(s: Store, c: Candidate) {
    c.session in s.sessions && exists j :: j in Live(s.sessions[c.session]) && CandidateOf(c.session, j) == c
  }

  ghost predicate IsNewOrphan(s: Store, c: Candidate) {
    && !Owned(s, c.uid) && c.displayId == NextId(s, c.session)
    && forall v :: v in s.outbox && s.outbox[v].session == c.session ==> !Orphan(s, v)
  }

  lemma PutOutboxOk(s: Store, c: Candidate)
    requires SessionsOk(s) && OutboxOk(s) && c.uid !in s.outbox
    requires HasRecordedJob(s, c) || IsNewOrphan(s, c)
    ensures OutboxOk(Apply(s, PutOutbox(c)))
  {
    var t := Apply(s, PutOutbox(c));
    assert forall a, v :: Accepts(t, a, v) <==> Accepts(s, a, v);
    SameOwned(s, t);
    assert forall v :: v in s.outbox ==> (Orphan(s, v) <==> Orphan(t, v)) && (Recorded(s, v) <==> Recorded(t, v));
    if HasRecordedJob(s, c) {
      var j :| j in Live(s.sessions[c.session]) && CandidateOf(c.session, j) == c;
      assert Accepts(s, c.session, c.uid);
      forall k | k in Live(s.sessions[c.session]) && k.uid == c.uid ensures CandidateOf(c.session, k) == c {
        SameUidSameJob(Live(s.sessions[c.session]), j, k);
      }
      assert Recorded(t, c.uid) && Owned(t, c.uid);
    } else {
      assert Orphan(t, c.uid);
    }
  }

  lemma PutOutboxKeeps(s: Store, c: Candidate)
    requires Inv(s) && c.uid !in s.outbox
    requires HasRecordedJob(s, c) || IsNewOrphan(s, c)
    ensures Inv(Apply(s, PutOutbox(c)))
  {
    var t := Apply(s, PutOutbox(c));
    PutOutboxOk(s, c);
    LedgerFrame(s, t);
    PublicationFrame(s, t);
    ReservationsFrame(s, t);
    HistoryFrame(s, t);
  }

  // ---------- reservations ----------

  lemma DropReservationKeeps(s: Store, op: OpId, executor: Executor)
    requires Inv(s) && Clearable(s, op, executor)
    ensures Inv(Apply(s, DropReservation(op)))
  {
    var t := Apply(s, DropReservation(op));
    LedgerFrame(s, t);
    OutboxFrame(s, t);
    PublicationFrame(s, t);
    assert forall op', p :: Reserves(t, op', p) <==> Reserves(s, op', p) && op' != op;
    assert ReservationsOk(t);
    assert WellFormed(op, s.reservations[op].participants);
    forall c | c in op.candidates ensures c.uid in s.finished {
      assert c in CandidatesOf(s.reservations[op].participants);
      var q, j :| q in s.reservations[op].participants && j in q.jobs && c == CandidateOf(q.session, j);
      assert Reserves(s, op, q);
      assert AllFinished(s, op, q.session);
    }
    forall a | a in t.sessions && t.sessions[a].current != [] ensures exists op', p :: Runs(t, a, op', p) {
      var op', p :| Runs(s, a, op', p);
      assert ReadRaw(s, p.session, executor).current != [];
      assert Runs(t, a, op', p);
    }
  }

  /** A reservation whose sessions no other one names joins them. */
  lemma ReservationJoins(s: Store, op: OpId, r: Reservation)
    requires ReservationsOk(s) && op !in s.reservations && WellFormed(op, r.participants) && !Overlaps(s, r.participants)
    requires forall p :: p in r.participants ==> p.session in s.sessions && ParticipantOk(s.sessions[p.session], op, p)
    requires forall p, j :: p in r.participants && j in p.jobs ==> Accepts(s, p.session, j.uid) && j.uid !in s.begun
    ensures ReservationsOk(Apply(s, PutReservation(op, r)))
  {
    var t := Apply(s, PutReservation(op, r));
    assert forall op', p :: Reserves(t, op', p) <==> Reserves(s, op', p) || (op' == op && p in r.participants);
    forall op', p, q | Reserves(s, op', p) && q in r.participants ensures p.session != q.session {
      assert !Overlaps(s, r.participants);
    }
  }

  lemma ReservationHistory(s: Store, op: OpId, r: Reservation)
    requires HistoryOk(s) && op !in s.reservations
    ensures HistoryOk(Apply(s, PutReservation(op, r)))
  {
    var t := Apply(s, PutReservation(op, r));
    forall sid | sid in t.sessions && t.sessions[sid].current != [] ensures exists op', p :: Runs(t, sid, op', p) {
      var op', p :| Runs(s, sid, op', p);
      assert Runs(t, sid, op', p);
    }
    assert forall op', sid :: AllFinished(s, op', sid) ==> AllFinished(t, op', sid);
  }

  lemma PutReservationKeeps(s: Store, op: OpId, r: Reservation)
    requires Inv(s) && op !in s.reservations && WellFormed(op, r.participants) && !Overlaps(s, r.participants)
    requires forall p :: p in r.participants ==> p.session in s.sessions && ParticipantOk(s.sessions[p.session], op, p)
    requires forall p, j :: p in r.participants && j in p.jobs ==> Accepts(s, p.session, j.uid) && j.uid !in s.begun
    ensures Inv(Apply(s, PutReservation(op, r)))
  {
    var t := Apply(s, PutReservation(op, r));
    LedgerFrame(s, t);
    OutboxFrame(s, t);
    PublicationFrame(s, t);
    ReservationJoins(s, op, r);
    ReservationHistory(s, op, r);
  }
}
