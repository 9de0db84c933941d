/**
 What at-most-once depends on: a line that looks like another operation's
 trailer makes that operation count as landed, and an id that the search cannot
 find lands twice. Nothing else can.
 */
module LandingLimits {
  import opened Common
  import opened Paths
  import opened Landing
  import opened LandingProofs
  import opened LandingEffects

  const TREE: Tree := map["MEMORY.md" := "", "PURSUITS.md" := ""]
  const START := World(Root(TREE), map[], map[], 0)

  function Edited(text: string): Tree {
    TREE["MEMORY.md" := text]
  }

  /** A private run that writes `text` into the memory file. */
  function Edit(text: string, message: seq<string>, held: bool): Turn {
    Turn(Root(TREE), [Edited(text)], message, map[], Edited(text), 0, held)
  }

  function EditCommit(op: OperationId, text: string, message: seq<string>): Commit {
    Child(Root(TREE), Edited(text), Squash(message, op), 0, Some(op))
  }

  // ---------- the steps ----------

  lemma StartIsInitial()
    ensures IsInitial(START)
  {}

  lemma BeginStep(w: World, op: OperationId, role: Role)
    requires IsOperationId(op) && op !in w.records
    ensures After(w, Step(Begin(op, role), 2)) == Began(w, op, role)
  {
    CutComplete(w, op, Running(role));
  }

  predicate Makes(w: World, op: OperationId, turn: Turn, c: Commit) {
    op in w.records && w.records[op].Running? && Candidate(w, op, w.records[op].role, turn) == Some(Some(c))
  }

  lemma StopStep(w: World, op: OperationId, turn: Turn, c: Commit)
    requires Makes(w, op, turn, c)
    ensures After(w, Step(Publish(op, turn), 3)) == Stopped(w, op, w.records[op].role, c, turn.held)
  {
    var role := w.records[op].role;
    LandingCut(w, op, role, c, turn.held, if turn.held then [] else LandWrites(op, c, Committed(role, w.main, Some(c), c)), 3);
  }

  lemma PublishStep(w: World, op: OperationId, turn: Turn, c: Commit)
    requires Makes(w, op, turn, c) && !turn.held
    ensures After(w, Step(Publish(op, turn), 6)) == Published(w, op, w.records[op].role, c)
  {
    PublishedCut(w, op, w.records[op].role, c);
  }

  lemma EditIsCandidate(w: World, op: OperationId, text: string, message: seq<string>, held: bool)
    requires w.main == Root(TREE) && text != ""
    ensures Candidate(w, op, Update, Edit(text, message, held)) == Some(Some(EditCommit(op, text, message)))
    ensures Allowed(w, Publish(op, Edit(text, message, held)))
  {
    var own := Edited(text);
    assert Lookup(TREE, "MEMORY.md") != Lookup(own, "MEMORY.md");
    assert "MEMORY.md" in ChangedPaths(TREE, own);
    forall p | p in ChangedPaths(TREE, own) ensures IsRoleWritePath(Update, p) {
      assert p == "MEMORY.md";
    }
    assert ValidStep(Update, TREE, [own], 0);
    assert own + map[] == own;
  }

  // ---------- runs in pieces ----------

  ghost predicate Leads(w: World, steps: seq<Step>, t: World) {
    Run(w, steps) && Final(w, steps) == t
  }

  lemma LeadsOne(w: World, step: Step, t: World)
    requires Allowed(w, step.action) && After(w, step) == t
    ensures Leads(w, [step], t)
  {
    assert [step][1..] == [];
  }

  lemma {:induction false} LeadsOn(w: World, a: seq<Step>, m: World, b: seq<Step>, t: World)
    requires Leads(w, a, m) && Leads(m, b, t)
    ensures Leads(w, a + b, t)
    decreases |a|
  {
    if a == [] {
      assert a + b == b;
    } else {
      FirstOfBoth(a, b);
      LeadsOn(After(w, a[0]), a[1..], m, b, t);
    }
  }

  // ---------- a quoted trailer ----------

  lemma EmptyQuotesNone(op: OperationId)
    ensures !QuotesOther([], op)
  {}

  /** `other` is prepared, held for its owner, and has not landed. */
  function Unlanded(other: OperationId): seq<Step> {
    [Step(Begin(other, Update), 2)] + [Step(Publish(other, Edit("a", [], true)), 3)]
  }

  function UnlandedWorld(w: World, other: OperationId): World {
    Stopped(Began(w, other, Update), other, Update, EditCommit(other, "a", []), true)
  }

  lemma UnlandedSteps(w: World, other: OperationId)
    requires w.main == Root(TREE) && IsFindable(other) && other !in w.records
    ensures Leads(w, Unlanded(other), UnlandedWorld(w, other))
  {
    var w1 := Began(w, other, Update);
    BeginStep(w, other, Update);
    LeadsOne(w, Step(Begin(other, Update), 2), w1);
    EditIsCandidate(w1, other, "a", [], true);
    StopStep(w1, other, Edit("a", [], true), EditCommit(other, "a", []));
    LeadsOne(w1, Step(Publish(other, Edit("a", [], true)), 3), UnlandedWorld(w, other));
    LeadsOn(w, [Step(Begin(other, Update), 2)], w1, [Step(Publish(other, Edit("a", [], true)), 3)], UnlandedWorld(w, other));
  }

  /** A cherry-pick of the edit of `other` onto any tree. */
  function Picked(onto: Tree): Tree {
    if Lookup(onto, "MEMORY.md") == Some("") then onto["MEMORY.md" := "a"] else onto
  }

  lemma PickedIsCherryPick(onto: Tree)
    ensures IsCherryPick(TREE, Edited("a"), onto, Picked(onto))
  {
    forall p | p != "MEMORY.md" ensures p !in ChangedPaths(TREE, Edited("a")) && Lookup(Picked(onto), p) == Lookup(onto, p) {}
  }

  predicate Waits(w: World, other: OperationId) {
    IsPrepared(w, other) && w.records[other].role == Update && w.records[other].start == Root(TREE)
    && w.records[other].candidate == Some(EditCommit(other, "a", []))
  }

  predicate IsClaimant(head: Commit, other: OperationId) {
    head.Child? && head.parent == Root(TREE) && head.author != Some(other) && Claims(head.message, other)
  }

  /** A head on the same start that claims `other` is taken for its landing. */
  lemma TakenForLanded(w: World, other: OperationId, picked: Tree)
    requires Waits(w, other) && IsClaimant(w.main, other)
    ensures var done := Committed(Update, Root(TREE), Some(EditCommit(other, "a", [])), w.main);
            ResumePlan(w, other, picked, 0) == Plan(CompleteWrites(other, done), true)
  {
    var c, head := EditCommit(other, "a", []), w.main;
    assert IsAncestor(Root(TREE), head.parent) && !IsAncestor(c, head.parent);
    assert FindLanded(other, Root(TREE), head) == Some(head);
  }

  /** Its record is committed, its result is lost. */
  ghost predicate IsLost(t: World, other: OperationId) {
    other in t.records && t.records[other].Committed? && Landings(t.main, other) == 0
  }

  lemma ResumeLoses(w: World, other: OperationId) returns (t: World)
    requires Waits(w, other) && IsClaimant(w.main, other)
    ensures Leads(w, [Step(Resume(other, Picked(w.main.tree), 0), 2)], t) && IsLost(t, other)
  {
    var done := Committed(Update, Root(TREE), Some(EditCommit(other, "a", [])), w.main);
    var step := Step(Resume(other, Picked(w.main.tree), 0), 2);
    TakenForLanded(w, other, Picked(w.main.tree));
    PickedIsCherryPick(w.main.tree);
    CutComplete(w, other, done);
    t := w.(records := w.records[other := done], pins := w.pins - {other});
    LeadsOne(w, step, t);
  }

  /** While `other` waits, `op` lands a private message that quotes the trailer of `other`. */
  function Quoting(op: OperationId, body: seq<string>): seq<Step> {
    [Step(Begin(op, Update), 2)] + [Step(Publish(op, Edit("b", body, false)), 6)]
  }

  lemma QuotingSteps(w: World, op: OperationId, body: seq<string>, other: OperationId) returns (t: World)
    requires w.main == Root(TREE) && Waits(w, other) && op != other && op !in w.records && IsOperationId(op)
    requires Claims(NoTrailers(body), other)
    ensures Leads(w, Quoting(op, body), t) && Waits(t, other) && IsClaimant(t.main, other) && t.main.tree == Edited("b")
  {
    var w1 := Began(w, op, Update);
    var c := EditCommit(op, "b", body);
    BeginStep(w, op, Update);
    LeadsOne(w, Step(Begin(op, Update), 2), w1);
    EditIsCandidate(w1, op, "b", body, false);
    PublishStep(w1, op, Edit("b", body, false), c);
    t := Published(w1, op, Update, c);
    LeadsOne(w1, Step(Publish(op, Edit("b", body, false)), 6), t);
    LeadsOn(w, [Step(Begin(op, Update), 2)], w1, [Step(Publish(op, Edit("b", body, false)), 6)], t);
    QuotingWaits(w, op, body, other);
  }

  lemma QuotingWaits(w: World, op: OperationId, body: seq<string>, other: OperationId)
    requires w.main == Root(TREE) && Waits(w, other) && op != other && Claims(NoTrailers(body), other)
    ensures var t := Published(Began(w, op, Update), op, Update, EditCommit(op, "b", body));
            Waits(t, other) && IsClaimant(t.main, other) && t.main.tree == Edited("b")
  {
    SquashClaims(body, op, other);
  }

  /** No crash is needed: a held operation whose trailer another one's message quotes counts as landed when it is not. */
  lemma QuotedOperationIsLost(op: OperationId, body: seq<string>, other: OperationId) returns (steps: seq<Step>)
    requires IsOperationId(op) && IsFindable(other) && op != other && Claims(NoTrailers(body), other)
    ensures IsInitial(START) && Run(START, steps) && IsLost(Final(START, steps), other)
    ensures steps == Unlanded(other) + (Quoting(op, body) + [Step(Resume(other, Picked(Edited("b")), 0), 2)])
  {
    StartIsInitial();
    UnlandedSteps(START, other);
    var w := UnlandedWorld(START, other);
    var m := QuotingSteps(w, op, body, other);
    var t := ResumeLoses(m, other);
    var last := [Step(Resume(other, Picked(m.main.tree), 0), 2)];
    LeadsOn(w, Quoting(op, body), m, last, t);
    LeadsOn(START, Unlanded(other), w, Quoting(op, body) + last, t);
    steps := Unlanded(other) + (Quoting(op, body) + last);
  }

  /** A foreign commit that carries the trailer does the same. */
  lemma ClaimedOperationIsLost(tree: Tree, message: seq<string>, stamp: int, other: OperationId) returns (steps: seq<Step>)
    requires IsFindable(other) && Claims(message, other)
    ensures IsInitial(START) && Run(START, steps) && IsLost(Final(START, steps), other)
    ensures steps == Unlanded(other) + ([Step(Foreign(tree, message, stamp), 1)] + [Step(Resume(other, Picked(tree), 0), 2)])
  {
    StartIsInitial();
    UnlandedSteps(START, other);
    var w := UnlandedWorld(START, other);
    var m := ForeignStep(w, tree, message, stamp);
    var t := ResumeLoses(m, other);
    var last := [Step(Resume(other, Picked(tree), 0), 2)];
    LeadsOn(w, [Step(Foreign(tree, message, stamp), 1)], m, last, t);
    LeadsOn(START, Unlanded(other), w, [Step(Foreign(tree, message, stamp), 1)] + last, t);
    steps := Unlanded(other) + ([Step(Foreign(tree, message, stamp), 1)] + last);
  }

  lemma ForeignStep(w: World, tree: Tree, message: seq<string>, stamp: int) returns (m: World)
    ensures m == w.(main := Child(w.main, tree, message, stamp, None)) && Leads(w, [Step(Foreign(tree, message, stamp), 1)], m)
  {
    m := w.(main := Child(w.main, tree, message, stamp, None));
    var x := MoveMain(m.main);
    assert [x] == [x] + [];
    CutFirst(w, x, [], 1);
    LeadsOne(w, Step(Foreign(tree, message, stamp), 1), m);
  }

  // ---------- an id that the search cannot find ----------

  const CHECKPOINT := Turn(Root(TREE), [TREE], ["prune: checkpoint"], map[], TREE, 0, false)

  function CheckpointCommit(op: OperationId): Commit {
    Child(Root(TREE), TREE, Squash(["prune: checkpoint"], op), 0, Some(op))
  }

  lemma NothingChanged(managed: set<string>)
    ensures ChangedPaths(TREE, TREE) == {} && ValidChange(Pruner, TREE, TREE, managed) && SemanticChanges(TREE, TREE) == {}
    ensures IsCherryPick(TREE, TREE, TREE, TREE)
  {}

  lemma CheckpointIsCandidate(w: World, op: OperationId)
    requires w.main == Root(TREE)
    ensures Candidate(w, op, Pruner, CHECKPOINT) == Some(Some(CheckpointCommit(op))) && Allowed(w, Publish(op, CHECKPOINT))
  {
    NothingChanged({});
    assert ValidStep(Pruner, TREE, [TREE], 0);
    assert TREE + map[] == TREE;
  }

  lemma CheckpointIsLost(op: OperationId)
    requires IsOperationId(op) && !IsSearchable(op)
    ensures !Claims(CheckpointCommit(op).message, op) && NoTrailers(["prune: checkpoint"]) == ["prune: checkpoint"]
  {
    assert NoTrailers(["prune: checkpoint"]) == ["prune: checkpoint"];
    SubjectClaims("prune: checkpoint", op);
    UnsearchableClaims(op);
    SquashClaims(["prune: checkpoint"], op, op);
  }

  predicate IsStuck(w: World, op: OperationId) {
    && IsPrepared(w, op) && w.records[op].role == Pruner && w.records[op].start == Root(TREE)
    && w.records[op].candidate == Some(CheckpointCommit(op))
    && w.main.Child? && w.main.tree == TREE && IsAncestor(Root(TREE), w.main)
    && !IsAncestor(CheckpointCommit(op), w.main) && FindLanded(op, Root(TREE), w.main) == None
  }

  function Again(w: World, op: OperationId, stamp: int): Commit {
    Child(w.main, TREE, CheckpointCommit(op).message, stamp, Some(op))
  }

  /** The checkpoint lands, and the process dies before that is recorded. */
  lemma LandsAgain(w: World, op: OperationId, stamp: int) returns (t: World)
    requires IsStuck(w, op) && IsOperationId(op) && !IsSearchable(op)
    ensures t == w.(main := Again(w, op, stamp)) && Leads(w, [Step(Resume(op, TREE, stamp), 1)], t) && IsStuck(t, op)
  {
    var c, landed := CheckpointCommit(op), Again(w, op, stamp);
    var done := Committed(Pruner, Root(TREE), Some(c), landed);
    NothingChanged(ManagedPaths(Pruner, c));
    assert ResumePlan(w, op, TREE, stamp) == Plan(LandWrites(op, landed, done), true);
    CutFirst(w, MoveMain(landed), CompleteWrites(op, done), 1);
    t := w.(main := landed);
    LeadsOne(w, Step(Resume(op, TREE, stamp), 1), t);
    CheckpointIsLost(op);
    assert w.main != c.parent;
  }

  function Repeating(op: OperationId): seq<Step> {
    [Step(Begin(op, Pruner), 2)] + ([Step(Publish(op, CHECKPOINT), 3)] + ([Step(Foreign(TREE, [], 0), 1)]
    + ([Step(Resume(op, TREE, 0), 1)] + [Step(Resume(op, TREE, 1), 1)])))
  }

  lemma StuckStart(op: OperationId) returns (m: World)
    requires IsOperationId(op)
    ensures Leads(START, [Step(Begin(op, Pruner), 2)] + [Step(Publish(op, CHECKPOINT), 3)], m)
    ensures m == Stopped(Began(START, op, Pruner), op, Pruner, CheckpointCommit(op), false)
  {
    var w1 := Began(START, op, Pruner);
    BeginStep(START, op, Pruner);
    LeadsOne(START, Step(Begin(op, Pruner), 2), w1);
    CheckpointIsCandidate(w1, op);
    StopStep(w1, op, CHECKPOINT, CheckpointCommit(op));
    m := Stopped(w1, op, Pruner, CheckpointCommit(op), false);
    LeadsOne(w1, Step(Publish(op, CHECKPOINT), 3), m);
    LeadsOn(START, [Step(Begin(op, Pruner), 2)], w1, [Step(Publish(op, CHECKPOINT), 3)], m);
  }

  lemma StuckTwice(w: World, op: OperationId) returns (t: World)
    requires IsStuck(w, op) && IsOperationId(op) && !IsSearchable(op) && Landings(w.main, op) == 0
    ensures Leads(w, [Step(Resume(op, TREE, 0), 1)] + [Step(Resume(op, TREE, 1), 1)], t) && Landings(t.main, op) == 2
  {
    var w1 := LandsAgain(w, op, 0);
    t := LandsAgain(w1, op, 1);
    LeadsOn(w, [Step(Resume(op, TREE, 0), 1)], w1, [Step(Resume(op, TREE, 1), 1)], t);
  }

  /** An operation whose id the search cannot find lands twice. */
  lemma UnsearchableLandsTwice(op: OperationId)
    requires IsOperationId(op) && !IsSearchable(op)
    ensures IsInitial(START) && Run(START, Repeating(op)) && Landings(Final(START, Repeating(op)).main, op) == 2
  {
    StartIsInitial();
    var m := StuckStart(op);
    var w := ForeignStep(m, TREE, [], 0);
    assert IsAncestor(Root(TREE), w.main.parent);
    assert !IsAncestor(CheckpointCommit(op), w.main.parent);
    var t := StuckTwice(w, op);
    var foreign, twice := [Step(Foreign(TREE, [], 0), 1)], [Step(Resume(op, TREE, 0), 1)] + [Step(Resume(op, TREE, 1), 1)];
    LeadsOn(m, foreign, w, twice, t);
    var begin, publish := [Step(Begin(op, Pruner), 2)], [Step(Publish(op, CHECKPOINT), 3)];
    LeadsOn(START, begin + publish, m, foreign + twice, t);
    Assoc(begin, publish, foreign + twice);
  }

  // ---------- nothing else ----------

  /** What others write that an operation cannot see to itself. */
  datatype Source =
    | Body(op: OperationId, message: seq<string>)
    | ForeignMessage(message: seq<string>)
    | Id(op: OperationId)

  predicate Uses(a: Action, source: Source) {
    match source
    case Body(op, message) => a.Publish? && a.op == op && a.turn.message == message
    case ForeignMessage(message) => a.Foreign? && a.message == message
    case Id(op) => a.Begin? && a.op == op
  }

  /** The steps are disciplined but for the use of `source`. */
  ghost predicate DisciplinedBut(steps: seq<Step>, source: Source) {
    forall i :: 0 <= i < |steps| ==> Disciplined(steps[i].action) || Uses(steps[i].action, source)
  }

  /** Some run that is otherwise disciplined loses an operation or lands it twice. */
  ghost predicate CanBreak(source: Source) {
    exists w, steps, other :: IsInitial(w) && Run(w, steps) && DisciplinedBut(steps, source) && !LandedOnce(Final(w, steps), other)
  }

  /** A caller can see it: a quoted trailer, or an id with a line separator or white space at its end. */
  ghost predicate IsHarmful(source: Source) {
    match source
    case Body(op, message) => QuotesOther(message, op)
    case ForeignMessage(message) => exists other :: IsFindable(other) && Claims(message, other)
    case Id(op) => !IsSearchable(op)
  }

  lemma HarmlessCannotBreak(source: Source)
    requires !IsHarmful(source)
    ensures !CanBreak(source)
  {
    forall w: World, steps: seq<Step>, other: OperationId | IsInitial(w) && Run(w, steps) && DisciplinedBut(steps, source)
      ensures LandedOnce(Final(w, steps), other)
    {
      forall i | 0 <= i < |steps| ensures Disciplined(steps[i].action) {
        assert Disciplined(steps[i].action) || Uses(steps[i].action, source);
      }
      LandsAtMostOnce(w, steps, other);
    }
  }

  lemma BreaksBy(source: Source, steps: seq<Step>, other: OperationId)
    requires IsInitial(START) && Run(START, steps) && DisciplinedBut(steps, source)
    requires IsLost(Final(START, steps), other) || Landings(Final(START, steps).main, other) == 2
    ensures CanBreak(source)
  {
    assert !LandedOnce(Final(START, steps), other);
  }

  lemma OneStep(step: Step, source: Source)
    requires Disciplined(step.action) || Uses(step.action, source)
    ensures DisciplinedBut([step], source)
  {}

  lemma Together(a: seq<Step>, b: seq<Step>, source: Source)
    requires DisciplinedBut(a, source) && DisciplinedBut(b, source)
    ensures DisciplinedBut(a + b, source)
  {
    forall i | 0 <= i < |a + b| ensures Disciplined((a + b)[i].action) || Uses((a + b)[i].action, source) {
      assert (a + b)[i] == if i < |a| then a[i] else b[i - |a|];
    }
  }

  lemma UnlandedIsDisciplined(other: OperationId, source: Source)
    requires IsFindable(other)
    ensures DisciplinedBut(Unlanded(other), source)
  {
    EmptyQuotesNone(other);
    OneStep(Step(Begin(other, Update), 2), source);
    OneStep(Step(Publish(other, Edit("a", [], true)), 3), source);
    Together([Step(Begin(other, Update), 2)], [Step(Publish(other, Edit("a", [], true)), 3)], source);
  }

  lemma QuotingIsDisciplinedBut(op: OperationId, message: seq<string>, other: OperationId)
    requires IsFindable(op) && IsFindable(other)
    ensures DisciplinedBut(Unlanded(other) + (Quoting(op, message) + [Step(Resume(other, Picked(Edited("b")), 0), 2)]), Body(op, message))
  {
    var source := Body(op, message);
    var begin, publish := Step(Begin(op, Update), 2), Step(Publish(op, Edit("b", message, false)), 6);
    var last := Step(Resume(other, Picked(Edited("b")), 0), 2);
    UnlandedIsDisciplined(other, source);
    OneStep(begin, source);
    OneStep(publish, source);
    OneStep(last, source);
    Together([begin], [publish], source);
    Together(Quoting(op, message), [last], source);
    Together(Unlanded(other), Quoting(op, message) + [last], source);
  }

  lemma BodyBreaks(op: OperationId, message: seq<string>)
    requires IsFindable(op) && QuotesOther(message, op)
    ensures CanBreak(Body(op, message))
  {
    var other, i :| 0 <= i < |message| && other != op && IsFindable(other) && IsIndentedTrailer(message[i], other);
    KeptClaims(message, other);
    var steps := QuotedOperationIsLost(op, message, other);
    QuotingIsDisciplinedBut(op, message, other);
    BreaksBy(Body(op, message), steps, other);
  }

  lemma ClaimingIsDisciplinedBut(tree: Tree, message: seq<string>, other: OperationId)
    requires IsFindable(other)
    ensures DisciplinedBut(Unlanded(other) + ([Step(Foreign(tree, message, 0), 1)] + [Step(Resume(other, Picked(tree), 0), 2)]), ForeignMessage(message))
  {
    var source := ForeignMessage(message);
    var foreign, last := Step(Foreign(tree, message, 0), 1), Step(Resume(other, Picked(tree), 0), 2);
    UnlandedIsDisciplined(other, source);
    OneStep(foreign, source);
    OneStep(last, source);
    Together([foreign], [last], source);
    Together(Unlanded(other), [foreign] + [last], source);
  }

  lemma ForeignBreaks(message: seq<string>, other: OperationId)
    requires IsFindable(other) && Claims(message, other)
    ensures CanBreak(ForeignMessage(message))
  {
    var steps := ClaimedOperationIsLost(TREE, message, 0, other);
    ClaimingIsDisciplinedBut(TREE, message, other);
    BreaksBy(ForeignMessage(message), steps, other);
  }

  lemma IdBreaks(op: OperationId)
    requires IsOperationId(op) && !IsSearchable(op)
    ensures CanBreak(Id(op))
  {
    var source := Id(op);
    UnsearchableLandsTwice(op);
    CheckpointQuotesNone(op);
    var begin, publish, foreign := Step(Begin(op, Pruner), 2), Step(Publish(op, CHECKPOINT), 3), Step(Foreign(TREE, [], 0), 1);
    var again, twice := Step(Resume(op, TREE, 0), 1), Step(Resume(op, TREE, 1), 1);
    OneStep(begin, source);
    OneStep(publish, source);
    OneStep(foreign, source);
    OneStep(again, source);
    OneStep(twice, source);
    Together([again], [twice], source);
    Together([foreign], [again] + [twice], source);
    Together([publish], [foreign] + ([again] + [twice]), source);
    Together([begin], [publish] + ([foreign] + ([again] + [twice])), source);
    BreaksBy(source, Repeating(op), op);
  }

  /** At most once holds over every run if and only if nothing harmful is written. */
  lemma DisciplineIsExact(source: Source)
    requires source.Body? ==> IsFindable(source.op)
    requires source.Id? ==> IsOperationId(source.op)
    ensures CanBreak(source) <==> IsHarmful(source)
  {
    if !IsHarmful(source) {
      HarmlessCannotBreak(source);
    } else {
      match source {
        case Body(op, message) => BodyBreaks(op, message);
        case ForeignMessage(message) =>
          var other :| IsFindable(other) && Claims(message, other);
          ForeignBreaks(message, other);
        case Id(op) => IdBreaks(op);
      }
    }
  }

  lemma CheckpointQuotesNone(op: OperationId)
    ensures !QuotesOther(CHECKPOINT.message, op)
  {
    forall other ensures !IsIndentedTrailer("prune: checkpoint", other) {}
  }
}
