/** A submit that is cut off and sent again after any other operations. */
module UpdateQueueRetry {
  import opened UpdateQueue
  import opened UpdateQueueInvariant
  import opened UpdateQueueSafety
  import opened UpdateQueueRuns
  import opened UpdateQueueSubmit

  /** A submit of a uid that the session has accepted queues nothing; of a new one, one job. */
  lemma SubmitOnce(d: Store, executor: Executor, sid: SessionId, uid: Uid, message: string, now: int, listing: seq<Candidate>)
    requires Inv(d) && NamesOnly(d, sid, uid) && FullListing(d, executor, sid, listing)
    ensures var st := Reconciled(d, executor, sid);
            var again := SubmitPlan(d, executor, sid, uid, message, now, listing);
            var t := ReadRaw(Replay(d, again.writes), sid, executor);
            && (uid in st.accepted ==> t.accepted == st.accepted && Live(t) == Live(st))
            && (uid !in st.accepted && again.ok ==> t.accepted == st.accepted + [uid] && AddedOnce(t, uid, message))
  {
    var st := Reconciled(d, executor, sid);
    SubmitEffect(d, executor, sid, uid, message, now, listing);
    if uid !in st.accepted && OwnedBy(st, executor) {
      ReconciledOk(d, executor, sid, uid);
      var job := Job(st.nextId, uid, message, now);
      EnqueueGrows(st, executor, job, now);
      GrownAddsOnce(st, Submitted(st, executor, uid, message, now), job);
    }
  }

  /**
   However far the first submit got and whatever other operations, each cut off
   anywhere, came in between: the second one queues the candidate if it has not
   been accepted yet, and nothing if it has, wherever it has got to since. It
   raises exactly when the session's live candidates belong to another executor,
   or a live candidate has the uid with another message.
   */
  lemma InterruptedSubmitRetryLater(
      s: Store, executor: Executor, sid: SessionId, uid: Uid, message: string, now: int, listing: seq<Candidate>, power: nat,
      steps: seq<Step>, now': int, listing': seq<Candidate>)
    requires var first := Submit(executor, sid, uid, message, now, listing);
             Inv(s) && Allowed(s, first) && Run(After(s, Step(first, power)), steps)
    requires var d := Final(After(s, Step(Submit(executor, sid, uid, message, now, listing), power)), steps);
             NamesOnly(d, sid, uid) && FullListing(d, executor, sid, listing')
    ensures var c := After(s, Step(Submit(executor, sid, uid, message, now, listing), power));
            var d := Final(c, steps);
            var st := Reconciled(d, executor, sid);
            var again := SubmitPlan(d, executor, sid, uid, message, now', listing');
            var t := ReadRaw(Replay(d, again.writes), sid, executor);
            && (again.ok <==> OwnedBy(st, executor) && (uid in st.accepted ==> MessagesMatch(st, uid, message)))
            && (Accepts(c, sid, uid) ==> uid in st.accepted)
            && (uid in st.accepted ==> t.accepted == st.accepted && Live(t) == Live(st))
            && (uid !in st.accepted && again.ok ==> t.accepted == st.accepted + [uid] && AddedOnce(t, uid, message))
  {
    var first := Submit(executor, sid, uid, message, now, listing);
    var c := After(s, Step(first, power));
    var d := Final(c, steps);
    ActionSafe(s, first);
    SafeCut(s, PlanOf(s, first).writes, power);
    RunKeepsInv(c, steps);
    AcceptedOnlyGrows(c, steps);
    if Accepts(c, sid, uid) {
      assert Accepts(d, sid, uid);
      ReconciledOk(d, executor, sid, uid);
    }
    SubmitEffect(d, executor, sid, uid, message, now', listing');
    SubmitOnce(d, executor, sid, uid, message, now', listing');
  }
}
