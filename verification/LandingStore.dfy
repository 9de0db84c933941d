/**
 The supervisor as the program runs it: main, the operation records, the
 candidate refs and the outcome counter are changed by one durable write at a
 time, and the process dies when `power` writes have been made. Every method is
 proved to leave exactly the planned writes it still had power for.
 */
module LandingStore {
  import opened Common
  import opened Lines
  import opened Paths
  import opened Landing
  import opened LandingDrain

  lemma CutStep(w: World, xs: seq<Write>, power: nat)
    requires xs != []
    ensures Cut(w, xs, power) == if power == 0 then w else Cut(Apply(w, xs[0]), xs[1..], power - 1)
  {}

  /** A first resume that returns leaves the rest of the drain; one that does not ends it. */
  lemma {:induction false} DrainStep(w: World, ops: seq<OperationId>, picks: OperationId -> Pick, power: nat)
    requires ops != []
    ensures var first := ResumeOf(w, ops[0], picks);
            var rest := FinishAllPlan(Finished(w, first), ops[1..], picks);
            var plan := FinishAllPlan(w, ops, picks);
            if ExitOf(|first.writes|, first.ok, power) == Returned then
              && Cut(w, first.writes, power) == Finished(w, first)
              && Cut(w, plan.writes, power) == Cut(Finished(w, first), rest.writes, power - |first.writes|)
              && |plan.writes| == |first.writes| + |rest.writes| && plan.ok == rest.ok
            else
              && Cut(w, plan.writes, power) == Cut(w, first.writes, power)
              && PowerAfter(|plan.writes|, power) == PowerAfter(|first.writes|, power)
              && ExitOf(|plan.writes|, plan.ok, power) == ExitOf(|first.writes|, first.ok, power)
  {
    var first := ResumeOf(w, ops[0], picks);
    if first.ok {
      CutAppend(w, first.writes, FinishAllPlan(Finished(w, first), ops[1..], picks).writes, power);
    }
  }

  /** Line by line. */
  method HasTrailer(message: seq<string>, op: OperationId) returns (claimed: bool)
    ensures claimed <==> Claims(message, op)
  {
    for i := 0 to |message|
      invariant forall j :: 0 <= j < i ==> Strip(message[j]) != Trailer(op)
    {
      if Strip(message[i]) == Trailer(op) {
        return true;
      }
    }
    return false;
  }

  /** The newest landed commit of an operation, searched from the head down to where it started. */
  method FindLandedCommit(op: OperationId, start: Commit, head: Commit) returns (found: Option<Commit>)
    ensures found == FindLanded(op, start, head)
  {
    var commit := head;
    while commit != start && commit.Child?
      invariant FindLanded(op, start, head) == FindLanded(op, start, commit)
      decreases commit
    {
      var claimed := HasTrailer(commit.message, op);
      if claimed {
        return Some(commit);
      }
      commit := commit.parent;
    }
    return None;
  }

  /** Every private commit is checked before squashing hides it. */
  method ValidateSteps(role: Role, start: Tree, trees: seq<Tree>) returns (valid: bool)
    ensures valid <==> ValidSteps(role, start, trees)
  {
    var i := 0;
    var before := start;
    while i < |trees|
      invariant 0 <= i <= |trees|
      invariant before == if i == 0 then start else trees[i - 1]
      invariant forall j :: 0 <= j < i ==> ValidStep(role, start, trees, j)
    {
      if !ValidChange(role, before, trees[i], {}) || !HasRootFiles(role, trees[i]) {
        assert !ValidStep(role, start, trees, i);
        return false;
      }
      before := trees[i];
      i := i + 1;
    }
    return true;
  }

  class IsolatedWriteSupervisor {
    var main: Commit
    var records: map<OperationId, Record>
    var pins: map<OperationId, Commit>
    var sequence: nat
    var power: nat

    constructor (main: Commit, power: nat)
      ensures View() == World(main, map[], map[], 0) && this.power == power
    {
      this.main, records, pins, sequence, this.power := main, map[], map[], 0, power;
    }

    function View(): World
      reads this
    {
      World(main, records, pins, sequence)
    }

    /** The writes were made as far as the power went, and nothing else. */
    twostate predicate Made(xs: seq<Write>, ok: bool, exit: Exit)
      reads this
    {
      && View() == Cut(old(View()), xs, old(power))
      && power == PowerAfter(|xs|, old(power))
      && exit == ExitOf(|xs|, ok, old(power))
    }

    twostate predicate Performed(plan: Plan, exit: Exit)
      reads this
    {
      Made(plan.writes, plan.ok, exit)
    }

    /** What remains of `plan` after some of its writes is `rest`. */
    twostate predicate Leaves(plan: Plan, rest: Plan)
      reads this
    {
      && Cut(old(View()), plan.writes, old(power)) == Cut(View(), rest.writes, power)
      && |plan.writes| - old(power) == |rest.writes| - power
      && plan.ok == rest.ok
    }

    /** One flushed record, ref, counter or head update. */
    method Persist(x: Write) returns (alive: bool)
      modifies this
      ensures alive <==> old(power) > 0
      ensures View() == if alive then Apply(old(View()), x) else old(View())
      ensures power == if alive then old(power) - 1 else 0
    {
      if power == 0 {
        return false;
      }
      power := power - 1;
      match x {
        case PutRecord(op, record) => records := records[op := record];
        case Pin(op, commit) => pins := pins[op := commit];
        case Unpin(op) => pins := pins - {op};
        case MoveMain(commit) => main := commit;
        case NextSequence => sequence := sequence + 1;
      }
      return true;
    }

    /** The ref of an operation goes. */
    method DeleteRef(op: OperationId, ok: bool) returns (exit: Exit)
      modifies this
      ensures Made([Unpin(op)], ok, exit)
    {
      assert [Unpin(op)][1..] == [];
      var alive := Persist(Unpin(op));
      exit := if !alive then Crashed else if ok then Returned else Raised;
    }

    /** The last writes of every landing: the final record, then the ref goes. */
    method Complete(op: OperationId, record: Record) returns (exit: Exit)
      modifies this
      ensures Made(CompleteWrites(op, record), true, exit)
    {
      ghost var xs := CompleteWrites(op, record);
      assert xs[1..] == [Unpin(op)];
      CutStep(View(), xs, power);
      var alive := Persist(PutRecord(op, record));
      if !alive {
        return Crashed;
      }
      exit := DeleteRef(op, true);
    }

    method Begin(op: OperationId, role: Role) returns (exit: Exit)
      modifies this
      ensures Performed(BeginPlan(old(View()), op, role), exit)
    {
      if !IsOperationId(op) {
        return Raised;
      }
      if op !in records {
        exit := Complete(op, Running(role));
        return;
      }
      if records[op].role != role {
        return Raised;
      }
      if records[op].Prepared? {
        return Returned;
      }
      exit := DeleteRef(op, true);
    }

    /** Main moves, then the landing is recorded. */
    method Land(op: OperationId, landed: Commit, record: Record) returns (exit: Exit)
      modifies this
      ensures Made(LandWrites(op, landed, record), true, exit)
    {
      ghost var xs := LandWrites(op, landed, record);
      assert xs[1..] == CompleteWrites(op, record);
      CutStep(View(), xs, power);
      var alive := Persist(MoveMain(landed));
      if !alive {
        return Crashed;
      }
      exit := Complete(op, record);
    }

    /** The next number is taken, and the outcome is recorded under it. */
    method PrepareOutcome(op: OperationId, role: Role, start: Commit, candidate: Option<Commit>, held: bool, ghost rest: seq<Write>)
      returns (alive: bool)
      modifies this
      ensures var r := Prepared(role, old(sequence) + 1, start, candidate, held);
              && Cut(View(), if alive then rest else [], power) == Cut(old(View()), PrepareWrites(op, r, rest), old(power))
              && (alive <==> old(power) >= 2) && power == (if alive then old(power) - 2 else 0)
              && (alive ==> main == old(main))
    {
      ghost var r := Prepared(role, sequence + 1, start, candidate, held);
      ghost var later := [PutRecord(op, r)] + rest;
      ghost var xs := [NextSequence] + later;
      assert xs[1..] == later && later[1..] == rest;
      CutStep(View(), xs, power);
      alive := Persist(NextSequence);
      if !alive {
        return;
      }
      CutStep(View(), later, power);
      alive := Persist(PutRecord(op, Prepared(role, sequence, start, candidate, held)));
    }

    /** A run without change is prepared and, unless it is held, recorded. */
    method PublishNoChange(op: OperationId, role: Role, held: bool) returns (exit: Exit)
      modifies this
      ensures Made(NoChangeWrites(old(View()), op, role, held), true, exit)
    {
      var head := main;
      ghost var rest := if held then [] else CompleteWrites(op, NoChange(role, head, None, head));
      var alive := PrepareOutcome(op, role, head, None, held, rest);
      if !alive {
        return Crashed;
      }
      if held {
        return Returned;
      }
      exit := Complete(op, NoChange(role, head, None, head));
    }

    /** A candidate is pinned, prepared and, unless it is held, landed. */
    method PublishCandidate(op: OperationId, role: Role, c: Commit, held: bool) returns (exit: Exit)
      modifies this
      ensures Made(LandingWrites(old(View()), op, role, c, held), true, exit)
    {
      var head := main;
      ghost var rest := if held then [] else LandWrites(op, c, Committed(role, head, Some(c), c));
      ghost var xs := LandingWrites(View(), op, role, c, held);
      assert xs[1..] == PrepareWrites(op, Prepared(role, sequence + 1, head, Some(c), held), rest);
      CutStep(View(), xs, power);
      var alive := Persist(Pin(op, c));
      if !alive {
        return Crashed;
      }
      alive := PrepareOutcome(op, role, head, Some(c), held, rest);
      if !alive {
        return Crashed;
      }
      if held {
        return Returned;
      }
      exit := Land(op, c, Committed(role, head, Some(c), c));
    }

    /** The write lock: squash, move onto the current head, pin, prepare, land, complete. */
    method Publish(op: OperationId, turn: Turn) returns (exit: Exit)
      modifies this
      ensures Performed(PublishPlan(old(View()), op, turn), exit)
    {
      if op !in records || !records[op].Running? {
        return Raised;
      }
      var made := Candidate(View(), op, records[op].role, turn);
      match made {
        case None => exit := DeleteRef(op, false);
        case Some(None) => exit := PublishNoChange(op, records[op].role, turn.held);
        case Some(Some(c)) => exit := PublishCandidate(op, records[op].role, c, turn.held);
      }
    }

    /** Finish a durable outcome. */
    method ResumePrepared(op: OperationId, picked: Tree, stamp: int) returns (exit: Exit)
      modifies this
      ensures Performed(ResumePlan(old(View()), op, picked, stamp), exit)
    {
      if op !in records || !records[op].Prepared? {
        return Raised;
      }
      var Prepared(role, _, start, candidate, _) := records[op];
      if candidate.None? {
        if main != start && (!IsAncestor(start, main) || SemanticChanges(start.tree, main.tree) != {}) {
          return Raised;
        }
        exit := Complete(op, NoChange(role, start, None, start));
        return;
      }
      var c := candidate.value;
      if IsAncestor(c, main) {
        exit := Complete(op, Committed(role, start, candidate, c));
        return;
      }
      if IsAncestor(start, main) {
        var found := FindLandedCommit(op, start, main);
        if found.Some? {
          exit := Complete(op, Committed(role, start, candidate, found.value));
          return;
        }
      }
      if c.Root? || !ValidChange(role, c.parent.tree, c.tree, ManagedPaths(role, c)) || !HasRootFiles(role, c.tree) {
        return Raised;
      }
      if main == start {
        if c.parent != main {
          return Raised;
        }
        exit := Land(op, c, Committed(role, start, candidate, c));
        return;
      }
      if !IsAncestor(start, main) || SemanticChanges(start.tree, main.tree) != {} {
        return Raised;
      }
      var landed := Child(main, picked, c.message, stamp, c.author);
      exit := Land(op, landed, Committed(role, start, candidate, landed));
    }

    /** Which prepared operations are due, in the order of their outcomes. */
    method DueOperations(listing: seq<OperationId>) returns (ops: seq<OperationId>)
      ensures ops == DrainOrder(View(), listing)
    {
      ops := [];
      var i := |listing|;
      assert listing[i..] == [];
      while i > 0
        invariant 0 <= i <= |listing|
        invariant ops == DrainOrder(View(), listing[i..])
      {
        i := i - 1;
        assert listing[i..][1..] == listing[i + 1..];
        if listing[i] in records && records[listing[i]].Prepared? && !records[listing[i]].held {
          ops := InsertPrepared(View(), listing[i], ops);
        }
      }
      assert listing[0..] == listing;
    }

    method ResumeFirst(ops: seq<OperationId>, picks: OperationId -> Pick) returns (exit: Exit)
      requires ops != []
      modifies this
      ensures if exit == Returned then Leaves(FinishAllPlan(old(View()), ops, picks), FinishAllPlan(View(), ops[1..], picks))
              else Performed(FinishAllPlan(old(View()), ops, picks), exit)
    {
      DrainStep(View(), ops, picks, power);
      exit := ResumePrepared(ops[0], picks(ops[0]).picked, picks(ops[0]).stamp);
    }

    /** Finish what earlier processes prepared, in order, before a new run begins. */
    method DrainPrepared(listing: seq<OperationId>, picks: OperationId -> Pick) returns (exit: Exit)
      modifies this
      ensures Performed(DrainPlan(old(View()), listing, picks), exit)
    {
      var ops := DueOperations(listing);
      exit := FinishAll(ops, picks);
    }

    method FinishAll(ops: seq<OperationId>, picks: OperationId -> Pick) returns (exit: Exit)
      modifies this
      ensures Performed(FinishAllPlan(old(View()), ops, picks), exit)
    {
      var rest := ops;
      while rest != []
        invariant Leaves(FinishAllPlan(old(View()), ops, picks), FinishAllPlan(View(), rest, picks))
        decreases |rest|
      {
        exit := ResumeFirst(rest, picks);
        if exit != Returned {
          return;
        }
        rest := rest[1..];
      }
      return Returned;
    }
  }
}
