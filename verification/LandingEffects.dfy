/** What each operation leaves when it is not cut off, and exactly when it goes through. */
module LandingEffects {
  import opened Common
  import opened Paths
  import opened Landing
  import opened LandingProofs

  // ---------- the writes of a plan ----------

  lemma CutFirst(w: World, x: Write, rest: seq<Write>, power: nat)
    requires power > 0
    ensures Cut(w, [x] + rest, power) == Cut(Apply(w, x), rest, power - 1)
  {
    FirstOfBoth([x], rest);
    assert [x][1..] + rest == rest;
  }

  lemma CutComplete(w: World, op: OperationId, r: Record)
    ensures Cut(w, CompleteWrites(op, r), 2) == w.(records := w.records[op := r], pins := w.pins - {op})
  {
    assert CompleteWrites(op, r) == [PutRecord(op, r)] + [Unpin(op)];
    CutFirst(w, PutRecord(op, r), [Unpin(op)], 2);
    assert [Unpin(op)] == [Unpin(op)] + [];
    CutFirst(Apply(w, PutRecord(op, r)), Unpin(op), [], 1);
  }

  lemma CutPrepare(w: World, op: OperationId, r: Record, rest: seq<Write>, power: nat)
    requires power >= 2
    ensures Cut(w, PrepareWrites(op, r, rest), power) == Cut(AfterPrepare(w, op, r), rest, power - 2)
  {
    CutFirst(w, NextSequence, [PutRecord(op, r)] + rest, power);
    CutFirst(Apply(w, NextSequence), PutRecord(op, r), rest, power - 1);
  }

  function Began(w: World, op: OperationId, role: Role): World {
    w.(records := w.records[op := Running(role)], pins := w.pins - {op})
  }

  /** The candidate is prepared and held, or the process dies before main moves. */
  function Stopped(w: World, op: OperationId, role: Role, c: Commit, held: bool): World {
    AfterPrepare(w.(pins := w.pins[op := c]), op, Prepared(role, w.sequence + 1, w.main, Some(c), held))
  }

  lemma LandingCut(w: World, op: OperationId, role: Role, c: Commit, held: bool, rest: seq<Write>, power: nat)
    requires power >= 3 && rest == if held then [] else LandWrites(op, c, Committed(role, w.main, Some(c), c))
    ensures Cut(w, LandingWrites(w, op, role, c, held), power) == Cut(Stopped(w, op, role, c, held), rest, power - 3)
  {
    var r := Prepared(role, w.sequence + 1, w.main, Some(c), held);
    LandingWritesAre(w, op, role, c, held, r, rest);
    CutFirst(w, Pin(op, c), PrepareWrites(op, r, rest), power);
    CutPrepare(Apply(w, Pin(op, c)), op, r, rest, power - 1);
  }

  function Landed(w: World, op: OperationId, done: Record, c: Commit): World {
    w.(main := c, records := w.records[op := done], pins := w.pins - {op})
  }

  lemma CutLand(w: World, op: OperationId, done: Record, c: Commit)
    ensures Cut(w, LandWrites(op, c, done), 3) == Landed(w, op, done, c)
  {
    CutFirst(w, MoveMain(c), CompleteWrites(op, done), 3);
    CutComplete(w.(main := c), op, done);
  }

  function Published(w: World, op: OperationId, role: Role, c: Commit): World {
    Landed(Stopped(w, op, role, c, false), op, Committed(role, w.main, Some(c), c), c)
  }

  lemma PublishedCut(w: World, op: OperationId, role: Role, c: Commit)
    ensures Cut(w, LandingWrites(w, op, role, c, false), 6) == Published(w, op, role, c)
  {
    var done := Committed(role, w.main, Some(c), c);
    LandingCut(w, op, role, c, false, LandWrites(op, c, done), 6);
    CutLand(Stopped(w, op, role, c, false), op, done, c);
  }

  // ---------- the fence ----------

  /** Every path whose content differs is one of `managed` or one the role may write. */
  ghost predicate WritesOnly(role: Role, a: Tree, b: Tree, managed: set<string>) {
    forall p :: Lookup(a, p) != Lookup(b, p) ==> p in managed || IsRoleWritePath(role, p)
  }

  /** Only the pruner commits nothing, a role writes its own paths, and the root files stay. */
  ghost predicate IsFenced(role: Role, a: Tree, b: Tree, managed: set<string>) {
    && (a == b ==> role == Pruner) && WritesOnly(role, a, b, managed)
    && (role != Insight ==> "MEMORY.md" in b && "PURSUITS.md" in b)
  }

  lemma SameTrees(a: Tree, b: Tree)
    ensures ChangedPaths(a, b) == {} <==> a == b
  {
    if ChangedPaths(a, b) == {} {
      forall p ensures p in a <==> p in b {
        assert p !in ChangedPaths(a, b);
      }
      forall p | p in a ensures a[p] == b[p] {
        assert p !in ChangedPaths(a, b);
      }
    }
  }

  lemma FenceMeans(role: Role, a: Tree, b: Tree, managed: set<string>)
    ensures ValidChange(role, a, b, managed) && HasRootFiles(role, b) <==> IsFenced(role, a, b, managed)
  {
    SameTrees(a, b);
    forall p ensures p in ChangedPaths(a, b) <==> Lookup(a, p) != Lookup(b, p) {}
  }

  lemma MovedMeans(start: Commit, head: Commit)
    ensures IsAncestor(start, head) && SemanticChanges(start.tree, head.tree) == {} <==> NothingReadMoved(start, head)
  {
    if NothingReadMoved(start, head) {
      forall p ensures p !in SemanticChanges(start.tree, head.tree) {}
    } else if IsAncestor(start, head) && SemanticChanges(start.tree, head.tree) == {} {
      UnmovedIfEmpty(start, head);
    }
  }

  // ---------- begin ----------

  /** A new operation is recorded as running; a known one of the same role goes on; a prepared one keeps its ref. */
  lemma BeginLeaves(w: World, op: OperationId, role: Role)
    ensures var plan := BeginPlan(w, op, role);
            && (plan.ok <==> IsOperationId(op) && (op in w.records ==> w.records[op].role == role))
            && Finished(w, plan) ==
                 if !plan.ok || IsPrepared(w, op) then w
                 else if op in w.records then w.(pins := w.pins - {op})
                 else w.(records := w.records[op := Running(role)], pins := w.pins - {op})
  {
    var plan := BeginPlan(w, op, role);
    if plan.ok && op !in w.records {
      CutComplete(w, op, Running(role));
    } else if plan.ok && !IsPrepared(w, op) {
      CutUnpin(w, op);
    }
  }

  lemma CutUnpin(w: World, op: OperationId)
    ensures Cut(w, [Unpin(op)], 1) == w.(pins := w.pins - {op})
  {
    assert [Unpin(op)] == [Unpin(op)] + [];
    CutFirst(w, Unpin(op), [], 1);
  }

  // ---------- publish ----------

  /** The tree of the run on the present head, before the managed records. */
  function OnHead(w: World, turn: Turn): Tree {
    if turn.trees == [] then w.main.tree else if w.main == turn.start then OwnTree(turn) else turn.picked
  }

  /** Each private commit passes the fence against the one before it. */
  ghost predicate StepsAreFenced(role: Role, start: Tree, trees: seq<Tree>) {
    forall i :: 0 <= i < |trees| ==> IsFenced(role, if i == 0 then start else trees[i - 1], trees[i], {})
  }

  lemma StepsMean(role: Role, start: Tree, trees: seq<Tree>)
    ensures ValidSteps(role, start, trees) <==> StepsAreFenced(role, start, trees)
  {
    forall i | 0 <= i < |trees| ensures ValidStep(role, start, trees, i) <==> IsFenced(role, if i == 0 then start else trees[i - 1], trees[i], {}) {
      FenceMeans(role, if i == 0 then start else trees[i - 1], trees[i], {});
    }
  }

  /** The whole run changes only what the role may write, and its result on the present head passes the fence. */
  ghost predicate RunIsFenced(w: World, role: Role, turn: Turn) {
    turn.trees != [] ==>
      && WritesOnly(role, turn.start.tree, OwnTree(turn), {}) && (turn.start.tree == OwnTree(turn) ==> role == Pruner)
      && IsFenced(role, w.main.tree, OnHead(w, turn), {})
  }

  lemma RunMeans(w: World, role: Role, turn: Turn)
    ensures RunIsFenced(w, role, turn) <==>
      (turn.trees != [] ==> ValidChange(role, turn.start.tree, OwnTree(turn), {}) && ValidChange(role, w.main.tree, OnHead(w, turn), {}) && HasRootFiles(role, OnHead(w, turn)))
  {
    ChangeMeans(role, turn.start.tree, OwnTree(turn), {});
    FenceMeans(role, w.main.tree, OnHead(w, turn), {});
  }

  /** The managed records are the update role's, and the candidate with them passes the fence. */
  ghost predicate CandidateIsFenced(w: World, role: Role, turn: Turn) {
    && (turn.managed != map[] ==> role == Update && forall p :: p in turn.managed ==> IsUpdateRecord(p))
    && (turn.trees != [] || turn.managed != map[] ==> IsFenced(role, w.main.tree, OnHead(w, turn) + turn.managed, turn.managed.Keys))
  }

  /**
   A run is accepted if and only if each of its private commits and the whole of
   it pass the fence, nothing it may have read has moved, and the result on the
   present head passes the fence again, with and without the managed records.
   */
  lemma AcceptsExactly(w: World, op: OperationId, role: Role, turn: Turn)
    ensures Candidate(w, op, role, turn).Some? <==>
      && StepsAreFenced(role, turn.start.tree, turn.trees)
      && (w.main != turn.start ==> NothingReadMoved(turn.start, w.main))
      && RunIsFenced(w, role, turn) && CandidateIsFenced(w, role, turn)
  {
    StepsMean(role, turn.start.tree, turn.trees);
    MovedMeans(turn.start, w.main);
    RunMeans(w, role, turn);
    FenceMeans(role, w.main.tree, OnHead(w, turn) + turn.managed, turn.managed.Keys);
    AcceptsIf(w, op, role, turn);
  }

  /** The tests in the order they are made, as one conjunction. */
  lemma AcceptsIf(w: World, op: OperationId, role: Role, turn: Turn)
    ensures var own, result := OnHead(w, turn), OnHead(w, turn) + turn.managed;
            Candidate(w, op, role, turn).Some? <==>
              && ValidSteps(role, turn.start.tree, turn.trees) && ValidManaged(role, turn.managed)
              && (w.main != turn.start ==> IsAncestor(turn.start, w.main) && SemanticChanges(turn.start.tree, w.main.tree) == {})
              && (turn.trees != [] ==> ValidChange(role, turn.start.tree, OwnTree(turn), {}) && ValidChange(role, w.main.tree, own, {}) && HasRootFiles(role, own))
              && (turn.trees != [] || turn.managed != map[] ==> ValidChange(role, w.main.tree, result, turn.managed.Keys) && HasRootFiles(role, result))
  {}

  lemma ChangeMeans(role: Role, a: Tree, b: Tree, managed: set<string>)
    ensures ValidChange(role, a, b, managed) <==> (a == b ==> role == Pruner) && WritesOnly(role, a, b, managed)
  {
    SameTrees(a, b);
    forall p ensures p in ChangedPaths(a, b) <==> Lookup(a, p) != Lookup(b, p) {}
  }

  /** A candidate sits on the head with the run's tree and the managed records; a run without either has none. */
  lemma CandidateIs(w: World, op: OperationId, role: Role, turn: Turn)
    requires Candidate(w, op, role, turn).Some?
    ensures var made := Candidate(w, op, role, turn).value;
            && (made == None <==> turn.trees == [] && turn.managed == map[])
            && (made.Some? ==> made.value.Child? && made.value.parent == w.main && made.value.tree == OnHead(w, turn) + turn.managed
                               && made.value.stamp == turn.stamp && made.value.author == Some(op))
  {}

  /** A publication that is not held leaves the record final, main at the result, and no ref; one that is held leaves main. */
  lemma PublishLeaves(w: World, op: OperationId, turn: Turn)
    requires op in w.records && w.records[op].Running?
    ensures var role := w.records[op].role;
            var made := Candidate(w, op, role, turn);
            var plan := PublishPlan(w, op, turn);
            && (plan.ok <==> made.Some?)
            && Finished(w, plan) ==
                 (match made
                  case None => w.(pins := w.pins - {op})
                  case Some(None) =>
                    if turn.held then w.(sequence := w.sequence + 1, records := w.records[op := Prepared(role, w.sequence + 1, w.main, None, true)])
                    else World(w.main, w.records[op := NoChange(role, w.main, None, w.main)], w.pins - {op}, w.sequence + 1)
                  case Some(Some(c)) =>
                    if turn.held then World(w.main, w.records[op := Prepared(role, w.sequence + 1, w.main, Some(c), true)], w.pins[op := c], w.sequence + 1)
                    else World(c, w.records[op := Committed(role, w.main, Some(c), c)], w.pins - {op}, w.sequence + 1))
  {
    PublishedAs(w, op, w.records[op].role, Candidate(w, op, w.records[op].role, turn), turn.held);
  }

  lemma PublishedAs(w: World, op: OperationId, role: Role, made: Option<Option<Commit>>, held: bool)
    ensures var ws := PublishWrites(w, op, role, made, held);
            Cut(w, ws, |ws|) ==
              (match made
               case None => w.(pins := w.pins - {op})
               case Some(None) =>
                 if held then w.(sequence := w.sequence + 1, records := w.records[op := Prepared(role, w.sequence + 1, w.main, None, true)])
                 else World(w.main, w.records[op := NoChange(role, w.main, None, w.main)], w.pins - {op}, w.sequence + 1)
               case Some(Some(c)) =>
                 if held then World(w.main, w.records[op := Prepared(role, w.sequence + 1, w.main, Some(c), true)], w.pins[op := c], w.sequence + 1)
                 else World(c, w.records[op := Committed(role, w.main, Some(c), c)], w.pins - {op}, w.sequence + 1))
  {
    match made {
      case None => CutUnpin(w, op);
      case Some(None) => NoChangeCut(w, op, role, held);
      case Some(Some(c)) => CandidateCut(w, op, role, c, held);
    }
  }

  lemma CandidateCut(w: World, op: OperationId, role: Role, c: Commit, held: bool)
    ensures var ws := LandingWrites(w, op, role, c, held);
            Cut(w, ws, |ws|) ==
              if held then World(w.main, w.records[op := Prepared(role, w.sequence + 1, w.main, Some(c), true)], w.pins[op := c], w.sequence + 1)
              else World(c, w.records[op := Committed(role, w.main, Some(c), c)], w.pins - {op}, w.sequence + 1)
  {
    LandingLength(w, op, role, c, held);
    if held {
      LandingCut(w, op, role, c, true, [], 3);
    } else {
      PublishedCut(w, op, role, c);
      assert w.pins[op := c] - {op} == w.pins - {op};
    }
  }

  lemma LandingLength(w: World, op: OperationId, role: Role, c: Commit, held: bool)
    ensures |LandingWrites(w, op, role, c, held)| == if held then 3 else 6
  {}

  lemma NoChangeCut(w: World, op: OperationId, role: Role, held: bool)
    ensures var ws := NoChangeWrites(w, op, role, held);
            Cut(w, ws, |ws|) ==
              if held then w.(sequence := w.sequence + 1, records := w.records[op := Prepared(role, w.sequence + 1, w.main, None, true)])
              else World(w.main, w.records[op := NoChange(role, w.main, None, w.main)], w.pins - {op}, w.sequence + 1)
  {
    var r := Prepared(role, w.sequence + 1, w.main, None, held);
    var done := NoChange(role, w.main, None, w.main);
    var rest := if held then [] else CompleteWrites(op, done);
    NoChangeWritesAre(w, op, role, held, r, rest);
    CutPrepare(w, op, r, rest, 2 + |rest|);
    CutComplete(AfterPrepare(w, op, r), op, done);
  }

  // ---------- resume ----------

  /** The candidate is in the history of main already, itself or under another commit that claims the operation. */
  ghost predicate IsIn(w: World, op: OperationId, start: Commit, c: Commit) {
    IsAncestor(c, w.main) || (IsAncestor(start, w.main) && Found(w.main, op) > Found(start, op))
  }

  /** The candidate passes the fence as it stands and goes onto a head that nothing it read has moved. */
  ghost predicate MayLand(w: World, role: Role, start: Commit, c: Commit) {
    && c.Child? && IsFenced(role, c.parent.tree, c.tree, ManagedPaths(role, c))
    && (if w.main == start then c.parent == w.main else NothingReadMoved(start, w.main))
  }

  lemma SearchMeans(w: World, op: OperationId, start: Commit)
    requires IsAncestor(start, w.main)
    ensures FindLanded(op, start, w.main).Some? <==> Found(w.main, op) > Found(start, op)
  {
    FindLandedFinds(op, start, w.main);
    AncestorLands(start, w.main, op);
  }

  /** Where a prepared candidate goes is decided by what is in main, the fence, and what has moved. */
  lemma DestinationMeans(w: World, op: OperationId, role: Role, start: Commit, c: Commit, picked: Tree, stamp: int)
    ensures var d := DestinationOf(w, op, role, start, c, picked, stamp);
            && (d.Already? <==> IsIn(w, op, start, c))
            && (d.Land? <==> !IsIn(w, op, start, c) && MayLand(w, role, start, c))
            && (d.Land? && w.main == start ==> d.commit == c)
            && (d.Land? && w.main != start ==> d.commit == Child(w.main, picked, c.message, stamp, c.author))
            && (d.Already? && IsAncestor(c, w.main) ==> d.commit == c)
  {
    if IsAncestor(start, w.main) {
      SearchMeans(w, op, start);
    }
    if c.Child? {
      FenceMeans(role, c.parent.tree, c.tree, ManagedPaths(role, c));
    }
    MovedMeans(start, w.main);
  }

  /** A resume that returns leaves the record final and no ref; main moves only if the candidate was not in it. */
  lemma ResumeLeaves(w: World, op: OperationId, picked: Tree, stamp: int)
    requires IsPrepared(w, op)
    ensures var r := w.records[op];
            var plan := ResumePlan(w, op, picked, stamp);
            var t := Finished(w, plan);
            && (plan.ok <==> match r.candidate
                               case None => w.main == r.start || NothingReadMoved(r.start, w.main)
                               case Some(c) => IsIn(w, op, r.start, c) || MayLand(w, r.role, r.start, c))
            && (!plan.ok ==> t == w)
            && (plan.ok && r.candidate.None? ==> t == w.(records := w.records[op := NoChange(r.role, r.start, None, r.start)], pins := w.pins - {op}))
            && (plan.ok && r.candidate.Some? ==>
                  var d := DestinationOf(w, op, r.role, r.start, r.candidate.value, picked, stamp);
                  !d.Conflict? && t == World(if d.Land? then d.commit else w.main, w.records[op := Committed(r.role, r.start, r.candidate, d.commit)], w.pins - {op}, w.sequence))
  {
    var r := w.records[op];
    match r.candidate {
      case None =>
        MovedMeans(r.start, w.main);
        CutComplete(w, op, NoChange(r.role, r.start, None, r.start));
      case Some(c) =>
        DestinationMeans(w, op, r.role, r.start, c, picked, stamp);
        match DestinationOf(w, op, r.role, r.start, c, picked, stamp) {
          case Conflict =>
          case Already(landed) => CutComplete(w, op, Committed(r.role, r.start, r.candidate, landed));
          case Land(landed) => CutLand(w, op, Committed(r.role, r.start, r.candidate, landed), landed);
        }
    }
  }
}
