/**
 Isolated writes: an operation works on a private copy, records its outcome
 durably, lands it on main and records that. The process may die between any
 two durable writes; a later run or drain finishes what was prepared.
 */
module Landing {
  import opened Common
  import opened Lines
  import opened TextLines
  import opened Ordering
  import opened Paths

  type OperationId = string

  /** A single line that is not blank. */
  predicate IsOperationId(op: OperationId) {
    Strip(op) != [] && |op| <= 512 && '\0' !in op && '\r' !in op && '\n' !in op
  }

  type Tree = map<string, string>

  /**
   A commit is what its hash covers: its parent, its tree, the lines of its
   message and its dates. `author` is history, read by no operation: whose result it is.
   */
  datatype Commit =
    | Root(tree: Tree)
    | Child(parent: Commit, tree: Tree, message: seq<string>, stamp: int, author: Option<OperationId>)

  /** A held outcome waits for its external owner: a drain passes it over. */
  datatype Record =
    | Running(role: Role)
    | Prepared(role: Role, sequence: nat, start: Commit, candidate: Option<Commit>, held: bool)
    | Committed(role: Role, start: Commit, candidate: Option<Commit>, landed: Commit)
    | NoChange(role: Role, start: Commit, candidate: Option<Commit>, landed: Commit)

  /** What survives a crash: main, the operation records, the refs that keep candidates alive, and the last sequence number. */
  datatype World = World(main: Commit, records: map<OperationId, Record>, pins: map<OperationId, Commit>, sequence: nat)

  datatype Write =
    | PutRecord(op: OperationId, record: Record)
    | Pin(op: OperationId, commit: Commit)
    | Unpin(op: OperationId)
    | MoveMain(commit: Commit)
    | NextSequence

  datatype Plan = Plan(writes: seq<Write>, ok: bool)

  function Apply(w: World, x: Write): World {
    match x
    case PutRecord(op, r) => w.(records := w.records[op := r])
    case Pin(op, c) => w.(pins := w.pins[op := c])
    case Unpin(op) => w.(pins := w.pins - {op})
    case MoveMain(c) => w.(main := c)
    case NextSequence => w.(sequence := w.sequence + 1)
  }

  /** What is durable when the process dies after `power` more writes. */
  function Cut(w: World, xs: seq<Write>, power: nat): World
    decreases |xs|
  {
    if xs == [] || power == 0 then w else Cut(Apply(w, xs[0]), xs[1..], power - 1)
  }

  /** What a plan leaves that is not cut off. */
  function Finished(w: World, plan: Plan): World {
    Cut(w, plan.writes, |plan.writes|)
  }

  // ---------- history ----------

  predicate IsAncestor(a: Commit, b: Commit) {
    a == b || (b.Child? && IsAncestor(a, b.parent))
  }

  const TRAILER := "RightMemory-Operation:"

  function Trailer(op: OperationId): string {
    TRAILER + " " + op
  }

  /** The message has a line that is the trailer of `op` once the white space around it is ignored. */
  predicate Claims(message: seq<string>, op: OperationId) {
    exists i :: 0 <= i < |message| && Strip(message[i]) == Trailer(op)
  }

  predicate IsTrailerLine(line: string) {
    |TRAILER| <= |line| && line[..|TRAILER|] == TRAILER
  }

  function NoTrailers(lines: seq<string>): seq<string> {
    Filter(line => !IsTrailerLine(line), lines)
  }

  /** The message of the squashed commit: lines that begin like a trailer go, the operation's own is added. */
  function Squash(lines: seq<string>, op: OperationId): seq<string> {
    NoTrailers(lines) + [""] + LinesOf(Trailer(op))
  }

  /** The message of a commit that only records a batch without change. */
  function RecordOnly(op: OperationId): seq<string> {
    ["update: record no-change candidate batch", ""] + LinesOf(Trailer(op))
  }

  /** How many commits up to `c` are the result of `op`. */
  function Landings(c: Commit, op: OperationId): nat {
    match c
    case Root(_) => 0
    case Child(parent, _, _, _, author) => Landings(parent, op) + (if author == Some(op) then 1 else 0)
  }

  /** How many commits up to `c` the search would take for the result of `op`. */
  function Found(c: Commit, op: OperationId): nat {
    match c
    case Root(_) => 0
    case Child(parent, _, message, _, _) => Found(parent, op) + (if Claims(message, op) then 1 else 0)
  }

  /** The newest commit after `start` whose message claims the operation. */
  function FindLanded(op: OperationId, start: Commit, head: Commit): Option<Commit> {
    if head == start || head.Root? then None
    else if Claims(head.message, op) then Some(head)
    else FindLanded(op, start, head.parent)
  }

  // ---------- trees ----------

  function Lookup(t: Tree, p: string): Option<string> {
    if p in t then Some(t[p]) else None
  }

  function ChangedPaths(a: Tree, b: Tree): set<string> {
    set p | p in a.Keys + b.Keys && Lookup(a, p) != Lookup(b, p)
  }

  /** The semantic paths that differ between the trees of two commits. */
  function SemanticChanges(a: Tree, b: Tree): set<string> {
    set p | p in ChangedPaths(a, b) && IsSemanticPath(p)
  }

  /** A cherry-pick keeps what its change does not touch, applies it where the base is unchanged, and merges freely elsewhere. */
  predicate IsCherryPick(base: Tree, picked: Tree, onto: Tree, result: Tree) {
    forall p :: p in base.Keys + picked.Keys + onto.Keys + result.Keys ==>
      && (p !in ChangedPaths(base, picked) ==> Lookup(result, p) == Lookup(onto, p))
      && (p in ChangedPaths(base, picked) && Lookup(onto, p) == Lookup(base, p) ==> Lookup(result, p) == Lookup(picked, p))
  }

  // ---------- validation ----------

  /** Every changed path is one the role may write, or an update record that the runtime manages; only the pruner commits nothing. */
  predicate ValidChange(role: Role, a: Tree, b: Tree, managed: set<string>) {
    && (ChangedPaths(a, b) == {} ==> role == Pruner)
    && forall p :: p in ChangedPaths(a, b) ==> p in managed || IsRoleWritePath(role, p)
  }

  predicate HasRootFiles(role: Role, t: Tree) {
    role == Insight || ("MEMORY.md" in t && "PURSUITS.md" in t)
  }

  predicate ValidStep(role: Role, start: Tree, trees: seq<Tree>, i: nat)
    requires i < |trees|
  {
    ValidChange(role, if i == 0 then start else trees[i - 1], trees[i], {}) && HasRootFiles(role, trees[i])
  }

  /** Each commit of the private branch is checked against its predecessor before they are squashed. */
  predicate ValidSteps(role: Role, start: Tree, trees: seq<Tree>) {
    forall i :: 0 <= i < |trees| ==> ValidStep(role, start, trees, i)
  }

  /** Update records the runtime adds for the update role. */
  predicate ValidManaged(role: Role, managed: map<string, string>) {
    managed != map[] ==> role == Update && forall p :: p in managed ==> IsUpdateRecord(p)
  }

  /** The managed paths that a prepared candidate is allowed when it is checked again. */
  function ManagedPaths(role: Role, c: Commit): set<string>
    requires c.Child?
  {
    set p | p in ChangedPaths(c.parent.tree, c.tree) && role == Update && IsUpdateRecord(p)
  }

  // ---------- running an operation ----------

  /** store.begin and the removal of a stale ref. */
  function BeginPlan(w: World, op: OperationId, role: Role): Plan {
    if !IsOperationId(op) then Plan([], false)
    else if op !in w.records then Plan(CompleteWrites(op, Running(role)), true)
    else if w.records[op].role != role then Plan([], false)
    else match w.records[op]
      case Prepared(_, _, _, _, _) => Plan([], true)
      case _ => Plan([Unpin(op)], true)
  }

  /** What the private run and the Git commands contribute: its trees and last message, the managed records, the picked tree and the commit dates; and whether the outcome is held. */
  datatype Turn = Turn(start: Commit, trees: seq<Tree>, message: seq<string>, managed: map<string, string>, picked: Tree, stamp: int, held: bool)

  /** The tree that the private run made. */
  function OwnTree(turn: Turn): Tree {
    if turn.trees == [] then turn.start.tree else turn.trees[|turn.trees| - 1]
  }

  /** Squash the private commits, move them onto the current head if it is semantically unchanged, and add the managed records. */
  function Candidate(w: World, op: OperationId, role: Role, turn: Turn): (Option<Option<Commit>>) {
    var head := w.main;
    if !ValidSteps(role, turn.start.tree, turn.trees) || !ValidManaged(role, turn.managed) then None
    else if turn.trees != [] && !ValidChange(role, turn.start.tree, turn.trees[|turn.trees| - 1], {}) then None
    else if head != turn.start && (!IsAncestor(turn.start, head) || SemanticChanges(turn.start.tree, head.tree) != {}) then None
    else
      var own :=
        if turn.trees == [] then head.tree
        else if head == turn.start then turn.trees[|turn.trees| - 1]
        else turn.picked;
      if turn.trees == [] && turn.managed == map[] then Some(None)
      else if turn.trees != [] && (!ValidChange(role, head.tree, own, {}) || !HasRootFiles(role, own)) then None
      else if !ValidChange(role, head.tree, own + turn.managed, turn.managed.Keys) || !HasRootFiles(role, own + turn.managed) then None
      else Some(Some(Child(head, own + turn.managed, if turn.trees == [] then RecordOnly(op) else Squash(turn.message, op), turn.stamp, Some(op))))
  }

  /** The last writes of every landing. */
  function CompleteWrites(op: OperationId, record: Record): seq<Write> {
    [PutRecord(op, record), Unpin(op)]
  }

  /** A number, the outcome under that number, then the rest. */
  function PrepareWrites(op: OperationId, record: Record, rest: seq<Write>): seq<Write> {
    [NextSequence] + ([PutRecord(op, record)] + rest)
  }

  function NoChangeWrites(w: World, op: OperationId, role: Role, held: bool): seq<Write> {
    PrepareWrites(op, Prepared(role, w.sequence + 1, w.main, None, held), if held then [] else CompleteWrites(op, NoChange(role, w.main, None, w.main)))
  }

  function LandingWrites(w: World, op: OperationId, role: Role, c: Commit, held: bool): seq<Write> {
    [Pin(op, c)] + PrepareWrites(op, Prepared(role, w.sequence + 1, w.main, Some(c), held), if held then [] else LandWrites(op, c, Committed(role, w.main, Some(c), c)))
  }

  /** Main moves, then the landing is recorded. */
  function LandWrites(op: OperationId, landed: Commit, record: Record): seq<Write> {
    [MoveMain(landed)] + CompleteWrites(op, record)
  }

  /** From the write lock to the final record: pin, number, prepare and, unless the outcome is held, land, complete, unpin. A failure removes a candidate that nothing has prepared. */
  function PublishWrites(w: World, op: OperationId, role: Role, made: Option<Option<Commit>>, held: bool): seq<Write> {
    match made
    case None => [Unpin(op)]
    case Some(None) => NoChangeWrites(w, op, role, held)
    case Some(Some(c)) => LandingWrites(w, op, role, c, held)
  }

  function PublishPlan(w: World, op: OperationId, turn: Turn): Plan {
    if op !in w.records || !w.records[op].Running? then Plan([], false)
    else
      var made := Candidate(w, op, w.records[op].role, turn);
      Plan(PublishWrites(w, op, w.records[op].role, made, turn.held), made.Some?)
  }

  /** Where a prepared candidate lands, or that it already has. */
  datatype Destination = Conflict | Already(commit: Commit) | Land(commit: Commit)

  function DestinationOf(w: World, op: OperationId, role: Role, start: Commit, c: Commit, picked: Tree, stamp: int): Destination {
    if IsAncestor(c, w.main) then Already(c)
    else
      var found := if IsAncestor(start, w.main) then FindLanded(op, start, w.main) else None;
      if found.Some? then Already(found.value)
      else if c.Root? || !ValidChange(role, c.parent.tree, c.tree, ManagedPaths(role, c)) || !HasRootFiles(role, c.tree) then Conflict
      else if w.main == start then (if c.parent == w.main then Land(c) else Conflict)
      else if !IsAncestor(start, w.main) || SemanticChanges(start.tree, w.main.tree) != {} then Conflict
      else Land(Child(w.main, picked, c.message, stamp, c.author))
  }

  /** Finish a durable outcome, whatever happened since it was prepared. */
  function ResumePlan(w: World, op: OperationId, picked: Tree, stamp: int): Plan {
    if op !in w.records || !w.records[op].Prepared? then Plan([], false)
    else
      var Prepared(role, _, start, candidate, _) := w.records[op];
      match candidate
      case None =>
        if w.main != start && (!IsAncestor(start, w.main) || SemanticChanges(start.tree, w.main.tree) != {}) then Plan([], false)
        else Plan(CompleteWrites(op, NoChange(role, start, None, start)), true)
      case Some(c) =>
        (match DestinationOf(w, op, role, start, c, picked, stamp)
         case Conflict => Plan([], false)
         case Already(landed) => Plan(CompleteWrites(op, Committed(role, start, Some(c), landed)), true)
         case Land(landed) => Plan(LandWrites(op, landed, Committed(role, start, Some(c), landed)), true))
  }

  /** Git's part in finishing a prepared operation: the picked tree and the commit date. */
  datatype Pick = Pick(picked: Tree, stamp: int)

  predicate IsPrepared(w: World, op: OperationId) {
    op in w.records && w.records[op].Prepared?
  }

  /** Finish these operations in order until one fails. */
  function FinishAllPlan(w: World, ops: seq<OperationId>, picks: OperationId -> Pick): Plan
    decreases |ops|
  {
    if ops == [] then Plan([], true)
    else
      var first := ResumePlan(w, ops[0], picks(ops[0]).picked, picks(ops[0]).stamp);
      if !first.ok then first
      else
        var rest := FinishAllPlan(Cut(w, first.writes, |first.writes|), ops[1..], picks);
        Plan(first.writes + rest.writes, rest.ok)
  }

  /** Earlier outcome first; equal numbers, which do not occur, by id. */
  predicate Earlier(w: World, a: OperationId, b: OperationId)
    requires IsPrepared(w, a) && IsPrepared(w, b)
  {
    w.records[a].sequence < w.records[b].sequence || (w.records[a].sequence == w.records[b].sequence && Less(a, b))
  }

  function InsertPrepared(w: World, op: OperationId, ops: seq<OperationId>): (r: seq<OperationId>)
    requires IsPrepared(w, op) && forall o :: o in ops ==> IsPrepared(w, o)
    ensures forall o :: o in r <==> o == op || o in ops
  {
    if ops == [] || Earlier(w, op, ops[0]) then [op] + ops
    else
      assert ops == [ops[0]] + ops[1..];
      [ops[0]] + InsertPrepared(w, op, ops[1..])
  }

  /** What a drain may finish. */
  predicate IsDue(w: World, op: OperationId) {
    IsPrepared(w, op) && !w.records[op].held
  }

  /** The prepared operations of a listing that are not held, in the order of their outcomes. */
  function DrainOrder(w: World, listing: seq<OperationId>): (r: seq<OperationId>)
    ensures forall o :: o in r <==> o in listing && IsDue(w, o)
  {
    if listing == [] then []
    else
      assert listing == [listing[0]] + listing[1..];
      var rest := DrainOrder(w, listing[1..]);
      if IsDue(w, listing[0]) then InsertPrepared(w, listing[0], rest) else rest
  }

  /** Before a new run begins, everything prepared that is not held is finished. */
  function DrainPlan(w: World, listing: seq<OperationId>, picks: OperationId -> Pick): Plan {
    FinishAllPlan(w, DrainOrder(w, listing), picks)
  }

  // ---------- runs ----------

  datatype Action =
    | Begin(op: OperationId, role: Role)
    | Publish(op: OperationId, turn: Turn)
    | Resume(op: OperationId, picked: Tree, stamp: int)
    | Foreign(tree: Tree, message: seq<string>, stamp: int)

  function PlanOf(w: World, a: Action): Plan {
    match a
    case Begin(op, role) => BeginPlan(w, op, role)
    case Publish(op, turn) => PublishPlan(w, op, turn)
    case Resume(op, picked, stamp) => ResumePlan(w, op, picked, stamp)
    // any other writer of main
    case Foreign(tree, message, stamp) => Plan([MoveMain(Child(w.main, tree, message, stamp, None))], true)
  }

  /** Git gives a cherry-pick of the change onto the current head. */
  predicate Allowed(w: World, a: Action) {
    match a
    case Publish(_, turn) => turn.trees != [] ==> IsCherryPick(turn.start.tree, OwnTree(turn), w.main.tree, turn.picked)
    case Resume(op, picked, _) =>
      (op in w.records && w.records[op].Prepared? && w.records[op].candidate.Some? && w.records[op].candidate.value.Child?) ==>
        IsCherryPick(w.records[op].candidate.value.parent.tree, w.records[op].candidate.value.tree, w.main.tree, picked)
    case _ => true
  }

  datatype Step = Step(action: Action, power: nat)

  function After(w: World, step: Step): World {
    Cut(w, PlanOf(w, step.action).writes, step.power)
  }

  predicate Run(w: World, steps: seq<Step>)
    decreases |steps|
  {
    steps == [] || (Allowed(w, steps[0].action) && Run(After(w, steps[0]), steps[1..]))
  }

  function Final(w: World, steps: seq<Step>): World
    decreases |steps|
  {
    if steps == [] then w else Final(After(w, steps[0]), steps[1..])
  }
}
