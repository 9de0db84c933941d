/**
 The asynchronous update queue: durable session, reservation, outbox and
 publication records, and the plan of durable writes of every operation.

 An operation holds its locks from its first read to its last write, so it is
 described by the sequence of durable writes it makes from the state it finds.
 A crash leaves any prefix of that sequence behind.
 */
module UpdateQueue {
  import opened Common

  // Identities are only compared and ordered.
  type SessionId = int
  type Uid = int

  const DEBOUNCE_SECONDS := 3600
  const RETRY_COOLDOWN_SECONDS := 3600
  const MAX_AUTOMATIC_ATTEMPTS := 2

  datatype Executor = Worker | Assistant
  datatype Status = Idle | Running | Succeeded | Failed | ManualRecovery
  datatype Phase = NoPhase | WaitingPhase | RunningPhase

  datatype Job = Job(id: int, uid: Uid, message: string, submittedAt: int)
  datatype Candidate = Candidate(uid: Uid, session: SessionId, displayId: int, message: string, submittedAt: int)

  /** The batch id is an injective function of the set of candidates. */
  datatype OpId = OpId(candidates: set<Candidate>)

  datatype Session = Session(
    status: Status, phase: Phase, attempts: nat,
    nextRetryAt: Option<int>, nextFlushAt: Option<int>, result: Option<string>,
    currentOp: Option<OpId>, lastOp: Option<OpId>,
    accepted: seq<Uid>, current: seq<Job>, pending: seq<Job>,
    nextId: int, executor: Executor)

  datatype Participant = Participant(session: SessionId, readyAt: int, jobs: seq<Job>, operation: Option<OpId>)
  datatype Reservation = Reservation(createdAt: int, participants: seq<Participant>, executor: Executor)

  /** What is on disk, plus the history (`booked`, `begun`, `cancelled`, `finished`, `handed`) that the properties speak about. */
  datatype Store = Store(
    sessions: map<SessionId, Session>,
    reservations: map<OpId, Reservation>,
    outbox: map<Uid, Candidate>,
    markers: set<Uid>,
    booked: set<OpId>, begun: set<Uid>,
    cancelled: set<Uid>, finished: set<Uid>, handed: set<Uid>)

  /** Why the jobs that a session write drops are gone. */
  datatype Fate = Kept | Cancelled(uids: set<Uid>) | Finished(uids: set<Uid>) | Handed(uids: set<Uid>)

  datatype Write =
    | PutSession(sid: SessionId, session: Session, fate: Fate)
    | PutOutbox(candidate: Candidate)
    | DropOutbox(uid: Uid)
    | PutMarker(uid: Uid)
    | DropMarker(uid: Uid)
    | PutReservation(op: OpId, reservation: Reservation)
    | DropReservation(op: OpId)

  /** The durable writes of one operation, and whether it ends without raising. */
  datatype Plan = Plan(writes: seq<Write>, ok: bool)

  // ---------- reading ----------

  function FreshSession(executor: Executor): Session {
    Session(Idle, NoPhase, 0, None, None, None, None, None, [], [], [], 1, executor)
  }

  function ReadRaw(s: Store, sid: SessionId, executor: Executor): Session {
    if sid in s.sessions then s.sessions[sid] else FreshSession(executor)
  }

  function Live(st: Session): seq<Job> {
    st.current + st.pending
  }

  function Uids(jobs: seq<Job>): set<Uid> {
    set j | j in jobs :: j.uid
  }

  function CandidateOf(sid: SessionId, job: Job): Candidate {
    Candidate(job.uid, sid, job.id, job.message, job.submittedAt)
  }

  function JobOf(c: Candidate): Job {
    Job(c.displayId, c.uid, c.message, c.submittedAt)
  }

  function CandidatesOf(ps: seq<Participant>): set<Candidate> {
    set p, j | p in ps && j in p.jobs :: CandidateOf(p.session, j)
  }

  function BatchId(ps: seq<Participant>): OpId {
    OpId(CandidatesOf(ps))
  }

  // ---------- writing ----------

  function Apply(s: Store, w: Write): Store {
    match w
    case PutSession(sid, st, fate) =>
      var s1 := s.(sessions := s.sessions[sid := st]);
      (match fate
       case Kept => s1
       case Cancelled(us) => s1.(cancelled := s1.cancelled + us)
       case Finished(us) => s1.(finished := s1.finished + us)
       case Handed(us) => s1.(handed := s1.handed + us))
    case PutOutbox(c) => s.(outbox := s.outbox[c.uid := c])
    case DropOutbox(u) => s.(outbox := s.outbox - {u})
    case PutMarker(u) => s.(markers := s.markers + {u}, begun := s.begun + {u})
    case DropMarker(u) => s.(markers := s.markers - {u})
    case PutReservation(op, r) => s.(reservations := s.reservations[op := r], booked := s.booked + {op})
    case DropReservation(op) => s.(reservations := s.reservations - {op})
  }

  function Replay(s: Store, ws: seq<Write>): Store
    decreases |ws|
  {
    if ws == [] then s else Replay(Apply(s, ws[0]), ws[1..])
  }

  /** What is on disk when the process dies after `power` more writes. */
  function Cut(s: Store, ws: seq<Write>, power: nat): Store {
    Replay(s, if power < |ws| then ws[..power] else ws)
  }

  lemma ReplayOne(s: Store, w: Write)
    ensures Replay(s, [w]) == Apply(s, w)
  {
    assert [w][1..] == [];
  }

  lemma {:induction false} ReplayAppend(s: Store, xs: seq<Write>, ys: seq<Write>)
    ensures Replay(s, xs + ys) == Replay(Replay(s, xs), ys)
    decreases |xs|
  {
    if xs == [] {
      assert xs + ys == ys;
    } else {
      ReplayAppend(Apply(s, xs[0]), xs[1..], ys);
      assert (xs + ys)[1..] == xs[1..] + ys;
    }
  }

  lemma CutAppend(s: Store, xs: seq<Write>, ys: seq<Write>, power: nat)
    ensures Cut(s, xs + ys, power) == if power <= |xs| then Cut(s, xs, power) else Cut(Replay(s, xs), ys, power - |xs|)
  {
    if power < |xs + ys| {
      if power <= |xs| {
        assert (xs + ys)[..power] == xs[..power];
        assert power == |xs| ==> xs[..power] == xs;
      } else {
        assert (xs + ys)[..power] == xs + ys[..power - |xs|];
        ReplayAppend(s, xs, ys[..power - |xs|]);
      }
    } else {
      ReplayAppend(s, xs, ys);
      if power == |xs| {
        assert xs + ys == xs;
      }
    }
  }

  // ---------- session transitions ----------

  function Max(a: int, b: int): int {
    if a < b then b else a
  }

  function Enqueue(st: Session, job: Job, now: int): Session {
    var next := Max(st.nextId, job.id + 1);
    var flush := Some(now + DEBOUNCE_SECONDS);
    if st.status == Failed && st.current == [] && st.pending == [] then
      Session(Running, WaitingPhase, 0, None, flush, None, None, st.lastOp, st.accepted, [], [job], next, st.executor)
    else if st.status == Failed || st.status == ManualRecovery then
      st.(phase := NoPhase, pending := st.pending + [job], nextId := next)
    else if st.status == Running && st.phase == RunningPhase && st.current != [] then
      st.(pending := st.pending + [job], nextId := next, nextFlushAt := flush)
    else
      Session(Running, WaitingPhase, 0, None, flush, None, None, st.lastOp, st.accepted, [], st.pending + [job], next, st.executor)
  }

  function FailedState(st: Session, now: int): Session {
    var attempts := st.attempts + 1;
    var manual := attempts >= MAX_AUTOMATIC_ATTEMPTS;
    st.(status := if manual then ManualRecovery else Failed,
        phase := NoPhase,
        attempts := attempts,
        nextRetryAt := if manual then None else Some(now + RETRY_COOLDOWN_SECONDS),
        nextFlushAt := if st.current != [] && st.pending != [] then st.nextFlushAt else None)
  }

  function RequeuedState(st: Session, now: int): Session {
    st.(status := Failed, phase := NoPhase, attempts := 0, nextRetryAt := Some(now))
  }

  function ManualState(st: Session): Session {
    st.(status := ManualRecovery, phase := NoPhase, attempts := Max(st.attempts, MAX_AUTOMATIC_ATTEMPTS), nextRetryAt := None)
  }

  /** Start again the batch that the session already runs. */
  function RestartedState(st: Session, op: OpId): Session {
    st.(status := Running, phase := RunningPhase, result := None, currentOp := Some(op))
  }

  /** Move the first `n` pending jobs into the running batch. */
  function StartedState(st: Session, op: OpId, n: nat): Session
    requires n <= |st.pending|
  {
    var rest := st.pending[n..];
    st.(status := Running, phase := RunningPhase, result := None, currentOp := Some(op),
        current := st.pending[..n], pending := rest,
        nextFlushAt := if rest != [] then st.nextFlushAt else None)
  }

  function FinishedState(st: Session, op: OpId, result: string, now: int): Session {
    var done := st.(current := [], currentOp := None, lastOp := Some(op), result := Some(result), attempts := 0, nextRetryAt := None);
    if st.pending != [] then
      done.(status := Running, phase := WaitingPhase,
            nextFlushAt := if st.nextFlushAt.Some? then st.nextFlushAt else Some(now + DEBOUNCE_SECONDS))
    else
      done.(status := Succeeded, phase := NoPhase, nextFlushAt := None)
  }

  function HandedState(st: Session, pending: seq<Job>, result: string): Session {
    if pending != [] then st.(pending := pending)
    else st.(status := Succeeded, phase := NoPhase, attempts := 0, nextRetryAt := None, nextFlushAt := None,
             result := Some(result), currentOp := None, pending := [])
  }

  // ---------- outbox reconciliation ----------

  /** Recreate the outbox record of every pending job that lost it. */
  function RestorePlan(outbox: map<Uid, Candidate>, sid: SessionId, jobs: seq<Job>): Plan
    decreases |jobs|
  {
    if jobs == [] then Plan([], true)
    else
      var c := CandidateOf(sid, jobs[0]);
      if c.uid !in outbox then
        var rest := RestorePlan(outbox[c.uid := c], sid, jobs[1..]);
        Plan([PutOutbox(c)] + rest.writes, rest.ok)
      else if outbox[c.uid] != c then Plan([], false)
      else RestorePlan(outbox, sid, jobs[1..])
  }

  function LiveByUid(jobs: seq<Job>): map<Uid, Job>
  {
    if jobs == [] then map[]
    else LiveByUid(jobs[..|jobs| - 1])[jobs[|jobs| - 1].uid := jobs[|jobs| - 1]]
  }

  datatype Adoption = Adoption(session: Session, changed: bool, ok: bool)

  /** Enqueue every listed outbox candidate that the session has not accepted yet. */
  function Adopt(st: Session, sid: SessionId, markers: set<Uid>, live: map<Uid, Job>, listing: seq<Candidate>): Adoption
    decreases |listing|
  {
    if listing == [] then Adoption(st, false, true)
    else
      var c := listing[0];
      if c.session != sid then Adoption(st, false, false)
      else if c.uid in live then
        if CandidateOf(sid, live[c.uid]) != c then Adoption(st, false, false)
        else Adopt(st, sid, markers, live, listing[1..])
      else if c.uid in st.accepted || c.uid in markers then Adopt(st, sid, markers, live, listing[1..])
      else if c.displayId != st.nextId then Adoption(st, false, false)
      else
        var st' := Enqueue(st.(accepted := st.accepted + [c.uid]), JobOf(c), c.submittedAt);
        Adopt(st', sid, markers, live[c.uid := JobOf(c)], listing[1..]).(changed := true)
  }

  function ReconcilePlan(s: Store, sid: SessionId, executor: Executor, listing: seq<Candidate>): Plan {
    var st := ReadRaw(s, sid, executor);
    var restore := RestorePlan(s.outbox, sid, st.pending);
    if !restore.ok then restore
    else
      var a := Adopt(st, sid, s.markers, LiveByUid(Live(st)), listing);
      if !a.ok then Plan(restore.writes, false)
      else Plan(restore.writes + (if a.changed then [PutSession(sid, a.session, Kept)] else []), true)
  }

  // ---------- operations ----------

  predicate MessagesMatch(st: Session, uid: Uid, message: string) {
    forall j :: j in Live(st) && j.uid == uid ==> j.message == message
  }

  /** The part of submit after reconciliation: `st` is the reconciled session. */
  function EnqueuePlan(outbox: map<Uid, Candidate>, st: Session, executor: Executor, sid: SessionId, uid: Uid, message: string, now: int): Plan {
    if st.executor != executor && Live(st) != [] then Plan([], false)
    else
      var mine := st.(executor := executor);
      var own := if executor == Assistant then [PutSession(sid, mine, Kept)] else [];
      if uid in st.accepted then
        Plan(own, MessagesMatch(st, uid, message))
      else
        var job := Job(st.nextId, uid, message, now);
        var c := CandidateOf(sid, job);
        if uid in outbox && outbox[uid] != c then Plan(own, false)
        else
          var box := if uid in outbox then [] else [PutOutbox(c)];
          var next := Enqueue(mine.(accepted := st.accepted + [uid]), job, now);
          Plan(own + box + [PutSession(sid, next, Kept)], true)
  }

  function SubmitPlan(s: Store, executor: Executor, sid: SessionId, uid: Uid, message: string, now: int, listing: seq<Candidate>): Plan {
    var first := ReconcilePlan(s, sid, executor, listing);
    if !first.ok then first
    else
      var mid := Replay(s, first.writes);
      var second := EnqueuePlan(mid.outbox, ReadRaw(mid, sid, executor), executor, sid, uid, message, now);
      Plan(first.writes + second.writes, second.ok)
  }

  function ReservedIds(s: Store, sid: SessionId): set<int> {
    set op, p, j | op in s.reservations && p in s.reservations[op].participants && p.session == sid && j in p.jobs :: j.id
  }

  function ReservedUids(s: Store, sid: SessionId): set<Uid> {
    set op, p, j | op in s.reservations && p in s.reservations[op].participants && p.session == sid && j in p.jobs :: j.uid
  }

  /** The first job with this id, as `next(...)` over the pending list finds it. */
  function FindById(jobs: seq<Job>, id: int): Option<Job> {
    if jobs == [] then None
    else if jobs[0].id == id then Some(jobs[0])
    else FindById(jobs[1..], id)
  }

  function FindByUid(jobs: seq<Job>, uid: Uid): Option<Job> {
    if jobs == [] then None
    else if jobs[0].uid == uid then Some(jobs[0])
    else FindByUid(jobs[1..], uid)
  }

  function WithoutId(jobs: seq<Job>, id: int, reserved: set<int>): seq<Job> {
    Filter((j: Job) => j.id != id || j.id in reserved, jobs)
  }

  function WithoutUids(jobs: seq<Job>, uids: set<Uid>): seq<Job> {
    Filter((j: Job) => j.uid !in uids, jobs)
  }

  function CancelPlan(s: Store, executor: Executor, sid: SessionId, id: int): Plan {
    if id < 1 then Plan([], false)
    else
      var st := ReadRaw(s, sid, executor);
      var selected := FindById(st.pending, id);
      if selected.Some? && selected.value.uid in s.markers then Plan([], true)
      else
        var pending := WithoutId(st.pending, id, ReservedIds(s, sid));
        if |pending| == |st.pending| then Plan([], true)
        else if selected.Some? then
          Plan([DropOutbox(selected.value.uid),
                PutSession(sid, st.(pending := pending), Cancelled({selected.value.uid}))], true)
        else Plan([PutSession(sid, st.(pending := pending), Kept)], true)
  }

  /** The part of begin_publication after reconciliation. */
  function PublishPlan(s: Store, executor: Executor, candidate: Candidate, reserved: set<Uid>): Plan {
    var u := candidate.uid;
    var st := ReadRaw(s, candidate.session, executor);
    var job := FindByUid(st.pending, u);
    if u in Uids(st.current) || u in reserved then Plan([], true)
    else if job.None? && u !in s.markers then Plan([], true)
    else if job.Some? && CandidateOf(candidate.session, job.value) != candidate then Plan([], false)
    else if u in s.markers then Plan([], true)
    else Plan([PutMarker(u)], true)
  }

  function BeginPublicationPlan(s: Store, executor: Executor, candidate: Candidate): Plan {
    var u := candidate.uid;
    if u !in s.outbox then Plan([], true)
    else if s.outbox[u] != candidate then Plan([], false)
    else
      var first := ReconcilePlan(s, candidate.session, executor, [candidate]);
      if !first.ok then first
      else
        var second := PublishPlan(Replay(s, first.writes), executor, candidate, ReservedUids(s, candidate.session));
        Plan(first.writes + second.writes, second.ok)
  }

  /** One session's share of acknowledge_synchronized. */
  function AcknowledgePlan(s: Store, executor: Executor, sid: SessionId, uids: set<Uid>, result: string): Plan {
    var st := ReadRaw(s, sid, executor);
    if Uids(st.current) * uids != {} then Plan([], false)
    else
      var pending := WithoutUids(st.pending, uids);
      if |pending| == |st.pending| then Plan([], true)
      else Plan([PutSession(sid, HandedState(st, pending, result), Handed(Uids(st.pending) * uids))], true)
  }

  /** The Git queue removes the local records of candidates it now owns. */
  function ClearLocalPlan(uids: seq<Uid>): Plan {
    if uids == [] then Plan([], true)
    else Plan([DropOutbox(uids[0]), DropMarker(uids[0])] + ClearLocalPlan(uids[1..]).writes, true)
  }

  // ---------- reservations ----------

  predicate Acknowledged(st: Session, op: OpId) {
    st.lastOp == Some(op) && st.current == []
  }

  predicate IsPrefix(jobs: seq<Job>, pending: seq<Job>) {
    |jobs| <= |pending| && pending[..|jobs|] == jobs
  }

  /** Whether resuming this reserved participant raises nothing. */
  predicate Validated(st: Session, item: Participant, op: OpId) {
    || Acknowledged(st, op)
    || (st.current == item.jobs && (st.currentOp == None || st.currentOp == Some(op)))
    || (st.current == [] && item.jobs != [] && IsPrefix(item.jobs, st.pending) && st.currentOp == None)
  }

  /** What the reserve loop decides about one participant. */
  datatype Verdict = Accept | Withdraw | Refuse

  function Judge(s: Store, executor: Executor, item: Participant, op: OpId, isNew: bool): Verdict {
    var st := ReadRaw(s, item.session, executor);
    if st.executor != executor then Refuse
    else if isNew && Uids(item.jobs) * s.markers != {} then Withdraw
    else if isNew && st.lastOp != Some(op) && st.current == [] && st.currentOp == None && !IsPrefix(item.jobs, st.pending) then Withdraw
    else if Validated(st, item, op) then Accept
    else Refuse
  }

  function JudgeAll(s: Store, executor: Executor, items: seq<Participant>, op: OpId, isNew: bool): Verdict {
    if items == [] then Accept
    else
      var v := Judge(s, executor, items[0], op, isNew);
      if v == Accept then JudgeAll(s, executor, items[1..], op, isNew) else v
  }

  predicate SortedSessions(ps: seq<Participant>) {
    forall i, j :: 0 <= i < j < |ps| ==> ps[i].session < ps[j].session
  }

  predicate Overlaps(s: Store, ps: seq<Participant>) {
    exists op, p, q :: op in s.reservations && p in s.reservations[op].participants && q in ps && p.session == q.session
  }

  function Labelled(ps: seq<Participant>, op: OpId): seq<Participant> {
    seq(|ps|, i requires 0 <= i < |ps| => ps[i].(operation := Some(op)))
  }

  /** `batch` is already in session order. */
  function ReservePlan(s: Store, executor: Executor, batch: seq<Participant>, op: OpId, now: int): Plan {
    var isNew := forall p :: p in batch ==> p.operation == None;
    var items := Labelled(batch, op);
    if batch == [] || !SortedSessions(batch) || (exists p :: p in batch && p.jobs == []) || BatchId(items) != op then Plan([], false)
    else if op in s.reservations then
      Plan([], s.reservations[op].executor == executor && s.reservations[op].participants == items)
    else if Overlaps(s, items) then Plan([], false)
    else
      match JudgeAll(s, executor, items, op, isNew)
      case Refuse => Plan([], false)
      case Withdraw => Plan([], true)
      case Accept => Plan([PutReservation(op, Reservation(now, items, executor))], true)
  }

  function StartPlan(s: Store, executor: Executor, op: OpId, item: Participant): Plan {
    var st := ReadRaw(s, item.session, executor);
    if Acknowledged(st, op) then Plan([], true)
    else if st.current == item.jobs then
      if st.currentOp != None && st.currentOp != Some(op) then Plan([], false)
      else Plan([PutSession(item.session, RestartedState(st, op), Kept)], true)
    else if st.current != [] || !IsPrefix(item.jobs, st.pending) || st.currentOp != None then Plan([], false)
    else Plan([PutSession(item.session, StartedState(st, op, |item.jobs|), Kept)], true)
  }

  function DropRecords(jobs: seq<Job>): seq<Write> {
    if jobs == [] then [] else [DropOutbox(jobs[0].uid), DropMarker(jobs[0].uid)] + DropRecords(jobs[1..])
  }

  function FinishPlan(s: Store, executor: Executor, op: OpId, item: Participant, result: string, now: int): Plan {
    var st := ReadRaw(s, item.session, executor);
    if Acknowledged(st, op) then Plan([], true)
    else if st.current != item.jobs || st.currentOp != Some(op) then Plan([], false)
    else
      Plan(DropRecords(st.current) +
           [PutSession(item.session, FinishedState(st, op, result, now), Finished(Uids(st.current)))], true)
  }

  /** A checked read settles a session whose operation already has a terminal outcome. */
  function TerminalPlan(s: Store, sid: SessionId, result: string, now: int): Plan {
    if sid in s.sessions && s.sessions[sid].current != [] && s.sessions[sid].currentOp.Some? then
      var st := s.sessions[sid];
      Plan([PutSession(sid, FinishedState(st, st.currentOp.value, result, now), Finished(Uids(st.current)))], true)
    else Plan([], true)
  }

  function FailParticipantPlan(s: Store, executor: Executor, op: OpId, item: Participant, now: int): Plan {
    var st := ReadRaw(s, item.session, executor);
    if Acknowledged(st, op) then Plan([], true)
    else if st.current != item.jobs || st.currentOp != Some(op) then Plan([], false)
    else Plan([PutSession(item.session, FailedState(st, now), Kept)], true)
  }

  function FailPlan(s: Store, executor: Executor, sid: SessionId, now: int): Plan {
    Plan([PutSession(sid, FailedState(ReadRaw(s, sid, executor), now), Kept)], true)
  }

  function RetryPlan(s: Store, executor: Executor, sid: SessionId, now: int): Plan {
    var st := ReadRaw(s, sid, executor);
    if st.executor != executor || st.status != ManualRecovery || Live(st) == [] then Plan([], true)
    else Plan([PutSession(sid, RequeuedState(st, now), Kept)], true)
  }

  function RestoreManualPlan(s: Store, executor: Executor, sid: SessionId): Plan {
    var st := ReadRaw(s, sid, executor);
    if Live(st) == [] then Plan([], true)
    else Plan([PutSession(sid, ManualState(st), Kept)], true)
  }

  predicate Clearable(s: Store, op: OpId, executor: Executor) {
    op in s.reservations &&
    forall p :: p in s.reservations[op].participants ==> ReadRaw(s, p.session, executor).lastOp == Some(op)
  }

  function ClearPlan(s: Store, op: OpId, executor: Executor): Plan {
    Plan(if Clearable(s, op, executor) then [DropReservation(op)] else [], true)
  }
}
