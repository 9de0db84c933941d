/** An operation lands at most once, and what it lands is serializable. */
module LandingProofs {
  import opened Common
  import opened Lines
  import opened TextLines
  import opened Paths
  import opened Landing

  // ---------- messages ----------

  /** The search can find what the operation lands: no line separator in its id, no white space at the end. */
  predicate IsSearchable(op: OperationId) {
    op != [] && NoBoundary(op) && !IsSpace(op[|op| - 1])
  }

  predicate IsFindable(op: OperationId) {
    IsOperationId(op) && IsSearchable(op)
  }

  lemma StripFirst(s: string)
    requires s != [] && !IsSpace(s[0])
    ensures Strip(s) != [] && Strip(s)[0] == s[0]
    ensures !IsSpace(s[|s| - 1]) ==> Strip(s) == s
  {}

  lemma TrailerIsOwn(op: OperationId, other: OperationId)
    ensures Trailer(op) == Trailer(other) ==> op == other
  {
    assert Trailer(op)[|TRAILER| + 1..] == op && Trailer(other)[|TRAILER| + 1..] == other;
  }

  lemma ClaimsTogether(a: seq<string>, b: seq<string>, op: OperationId)
    ensures Claims(a + b, op) <==> Claims(a, op) || Claims(b, op)
  {
    if Claims(a, op) {
      var i :| 0 <= i < |a| && Strip(a[i]) == Trailer(op);
      assert (a + b)[i] == a[i];
    }
    if Claims(b, op) {
      var i :| 0 <= i < |b| && Strip(b[i]) == Trailer(op);
      assert (a + b)[|a| + i] == b[i];
    }
  }

  /** The trailer of a searchable id is found, and found for that id only. */
  lemma TrailerClaims(op: OperationId, other: OperationId)
    requires IsSearchable(op)
    ensures Claims(LinesOf(Trailer(op)), other) <==> other == op
  {
    var t := Trailer(op);
    forall k | 0 <= k < |t| ensures !IsBoundary(t[k]) {
      assert k > |TRAILER| ==> t[k] == op[k - |TRAILER| - 1];
    }
    OneLine(t);
    assert t[|t| - 1] == op[|op| - 1];
    StripFirst(t);
    assert LinesOf(t)[0] == t;
    TrailerIsOwn(op, other);
  }

  /** Only searchable ids are read from a line. */
  lemma ReadIsSearchable(line: string, op: OperationId)
    requires op != [] && NoBoundary(line) && Strip(line) == Trailer(op)
    ensures IsSearchable(op)
  {
    StripPlain(line);
    var t := Strip(line);
    assert t[|t| - 1] == op[|op| - 1];
    forall k | 0 <= k < |op| ensures !IsBoundary(op[k]) {
      assert t[|TRAILER| + 1 + k] == op[k];
    }
  }

  /** The trailer of another id is never found. */
  lemma UnsearchableClaims(op: OperationId)
    requires IsOperationId(op) && !IsSearchable(op)
    ensures !Claims(LinesOf(Trailer(op)), op)
  {
    var lines := LinesOf(Trailer(op));
    LinesArePlain(Trailer(op));
    if Claims(lines, op) {
      var i :| 0 <= i < |lines| && Strip(lines[i]) == Trailer(op);
      ReadIsSearchable(lines[i], op);
    }
  }

  lemma SubjectClaims(line: string, op: OperationId)
    requires line == [] || line[0] == 'u' || line[0] == 'p'
    ensures !Claims([line], op)
  {
    if line != [] {
      StripFirst(line);
    }
  }

  /** White space, and then the trailer of the operation. */
  predicate IsIndentedTrailer(line: string, op: OperationId) {
    line != [] && IsSpace(line[0]) && Strip(line) == Trailer(op)
  }

  lemma StartsWithTrailer(line: string, op: OperationId)
    requires line != [] && !IsSpace(line[0]) && Strip(line) == Trailer(op)
    ensures IsTrailerLine(line)
  {
    var n := TrimEnd(line);
    assert n > 0;
    assert Skip(IsSpace, line[..n], 0) == 0;
    assert Strip(line) == line[..n];
    assert line[..|TRAILER|] == Trailer(op)[..|TRAILER|] == TRAILER;
  }

  lemma TrailerLineStarts(line: string)
    ensures IsTrailerLine(line) ==> line[0] == 'R'
  {
    if IsTrailerLine(line) {
      assert line[..|TRAILER|][0] == line[0];
    }
  }

  /** Of the trailers in a private message the squash keeps exactly the indented ones. */
  lemma KeptClaims(lines: seq<string>, op: OperationId)
    ensures Claims(NoTrailers(lines), op) <==> exists i :: 0 <= i < |lines| && IsIndentedTrailer(lines[i], op)
  {
    FilterMembers((line: string) => !IsTrailerLine(line), lines);
    var kept := NoTrailers(lines);
    if Claims(kept, op) {
      var k :| 0 <= k < |kept| && Strip(kept[k]) == Trailer(op);
      assert kept[k] in kept;
      var i :| 0 <= i < |lines| && lines[i] == kept[k];
      if lines[i] != [] && !IsSpace(lines[i][0]) {
        StartsWithTrailer(lines[i], op);
      }
    }
    if i :| 0 <= i < |lines| && IsIndentedTrailer(lines[i], op) {
      TrailerLineStarts(lines[i]);
      assert lines[i] in kept;
      var k :| 0 <= k < |kept| && kept[k] == lines[i];
    }
  }

  /** A squashed message is found for its own operation and for what the private message quotes. */
  lemma SquashClaims(lines: seq<string>, op: OperationId, other: OperationId)
    ensures Claims(Squash(lines, op), other) <==> Claims(NoTrailers(lines), other) || Claims(LinesOf(Trailer(op)), other)
  {
    ClaimsTogether(NoTrailers(lines) + [""], LinesOf(Trailer(op)), other);
    ClaimsTogether(NoTrailers(lines), [""], other);
    SubjectClaims("", other);
  }

  lemma RecordOnlyClaims(op: OperationId, other: OperationId)
    ensures Claims(RecordOnly(op), other) <==> Claims(LinesOf(Trailer(op)), other)
  {
    var subject := "update: record no-change candidate batch";
    assert [subject, ""] == [subject] + [""];
    ClaimsTogether([subject, ""], LinesOf(Trailer(op)), other);
    ClaimsTogether([subject], [""], other);
    SubjectClaims(subject, other);
    SubjectClaims("", other);
  }

  // ---------- history ----------

  lemma {:induction false} AncestorTrans(a: Commit, b: Commit, c: Commit)
    requires IsAncestor(a, b) && IsAncestor(b, c)
    ensures IsAncestor(a, c)
  {
    if b != c {
      AncestorTrans(a, b, c.parent);
    }
  }

  lemma {:induction false} AncestorLands(a: Commit, c: Commit, op: OperationId)
    requires IsAncestor(a, c)
    ensures Landings(a, op) <= Landings(c, op) && Found(a, op) <= Found(c, op)
  {
    if a != c {
      AncestorLands(a, c.parent, op);
    }
  }

  /** The search finds the newest commit that claims the operation exactly when there is one after `start`. */
  lemma {:induction false} FindLandedFinds(op: OperationId, start: Commit, head: Commit)
    requires IsAncestor(start, head)
    ensures var r := FindLanded(op, start, head);
            && (r.None? <==> Found(head, op) == Found(start, op))
            && (r.Some? ==> IsAncestor(r.value, head) && r.value.Child? && Claims(r.value.message, op) && Found(r.value, op) == Found(head, op))
  {
    if head != start {
      FindLandedFinds(op, start, head.parent);
      AncestorLands(start, head.parent, op);
    }
  }

  /** The message claims the operation whose result the commit is, and no other. */
  ghost predicate CleanCommit(c: Commit) {
    c.Child? && forall op :: IsFindable(op) ==> (Claims(c.message, op) <==> c.author == Some(op))
  }

  ghost predicate Clean(c: Commit) {
    c.Root? || (CleanCommit(c) && Clean(c.parent))
  }

  lemma {:induction false} CleanFinds(c: Commit, op: OperationId)
    requires Clean(c) && IsFindable(op)
    ensures Found(c, op) == Landings(c, op)
  {
    if c.Child? {
      CleanFinds(c.parent, op);
    }
  }

  lemma {:induction false} CleanAncestor(a: Commit, c: Commit)
    requires IsAncestor(a, c) && Clean(c)
    ensures Clean(a)
  {
    if a != c {
      CleanAncestor(a, c.parent);
    }
  }

  /** Nothing landed in this history, and the search finds nothing in it. */
  ghost predicate Untouched(c: Commit) {
    (forall op :: Landings(c, op) == 0) && forall op :: IsFindable(op) ==> Found(c, op) == 0
  }

  lemma {:induction false} UntouchedIsClean(c: Commit)
    requires Untouched(c)
    ensures Clean(c)
  {
    if c.Child? {
      forall op ensures Landings(c.parent, op) == 0 && c.author != Some(op) {
        assert Landings(c, op) == 0;
      }
      forall op | IsFindable(op) ensures Found(c.parent, op) == 0 && !Claims(c.message, op) {
        assert Found(c, op) == 0;
      }
      UntouchedIsClean(c.parent);
    }
  }

  // ---------- at most once ----------

  /** What the record of an operation says about main. */
  ghost predicate OpOk(w: World, op: OperationId) {
    if op !in w.records then Landings(w.main, op) == 0
    else match w.records[op]
      case Running(_) => Landings(w.main, op) == 0
      case Prepared(_, _, start, None, _) => Landings(w.main, op) == 0 && IsAncestor(start, w.main)
      case Prepared(_, _, start, Some(c), _) =>
        && CleanCommit(c) && c.parent == start && c.author == Some(op) && Landings(start, op) == 0
        && IsAncestor(start, w.main) && Landings(w.main, op) <= 1
        && op in w.pins && w.pins[op] == c
      case Committed(_, _, _, landed) =>
        Landings(w.main, op) == 1 && IsAncestor(landed, w.main) && landed.Child? && landed.author == Some(op)
      case NoChange(_, _, _, landed) => Landings(w.main, op) == 0 && IsAncestor(landed, w.main)
  }

  /** Outcomes carry different numbers, none above the last one given. */
  ghost predicate Numbered(w: World) {
    && (forall op :: IsPrepared(w, op) ==> w.records[op].sequence <= w.sequence)
    && forall a, b :: IsPrepared(w, a) && IsPrepared(w, b) && a != b ==> w.records[a].sequence != w.records[b].sequence
  }

  ghost predicate Named(w: World) {
    forall op :: op in w.records ==> IsFindable(op)
  }

  ghost predicate Inv(w: World) {
    Clean(w.main) && Named(w) && Numbered(w) && forall op :: OpOk(w, op)
  }

  /** Nothing prepared has this number. */
  ghost predicate IsFresh(w: World, n: nat) {
    n <= w.sequence && forall o :: IsPrepared(w, o) ==> w.records[o].sequence < n
  }

  /** A write that concerns only `op` leaves the other operations as they were. */
  lemma OthersKeep(w: World, x: Write, op: OperationId)
    requires Inv(w) && (x.PutRecord? || x.Pin? || x.Unpin?) && x.op == op && OpOk(Apply(w, x), op)
    requires x.PutRecord? ==> IsFindable(op) && (x.record.Prepared? ==> IsFresh(w, x.record.sequence))
    ensures Inv(Apply(w, x))
  {
    OthersNumbered(w, x, op);
    forall o ensures OpOk(Apply(w, x), o) {
      assert OpOk(w, o);
    }
  }

  lemma OthersNumbered(w: World, x: Write, op: OperationId)
    requires Numbered(w) && (x.PutRecord? || x.Pin? || x.Unpin?) && x.op == op
    requires x.PutRecord? && x.record.Prepared? ==> IsFresh(w, x.record.sequence)
    ensures Numbered(Apply(w, x))
  {
    var t := Apply(w, x);
    forall o | IsPrepared(t, o) && o != op ensures IsPrepared(w, o) && t.records[o] == w.records[o] {}
    forall o | IsPrepared(t, o) ensures t.records[o].sequence <= t.sequence {
      assert o == op || IsPrepared(w, o);
    }
  }

  lemma NumberKeeps(w: World)
    requires Inv(w)
    ensures Inv(Apply(w, NextSequence)) && IsFresh(Apply(w, NextSequence), w.sequence + 1)
  {
    var t := Apply(w, NextSequence);
    forall o ensures OpOk(t, o) && (IsPrepared(t, o) ==> t.records[o].sequence <= w.sequence) {
      assert OpOk(w, o);
      assert IsPrepared(t, o) ==> IsPrepared(w, o);
    }
    forall a, b | IsPrepared(t, a) && IsPrepared(t, b) && a != b ensures t.records[a].sequence != t.records[b].sequence {
      assert IsPrepared(w, a) && IsPrepared(w, b);
    }
  }

  /** Main moves to a child of its head that is the result of `op` or of none. */
  lemma MoveKeeps(w: World, op: OperationId, c: Commit)
    requires Inv(w) && CleanCommit(c) && c.parent == w.main && (c.author == Some(op) || c.author == None)
    requires OpOk(Apply(w, MoveMain(c)), op)
    ensures Inv(Apply(w, MoveMain(c)))
  {
    var t := Apply(w, MoveMain(c));
    forall o ensures OpOk(t, o) {
      if o != op {
        MoveKeepsOther(w, o, c);
      }
    }
    assert forall o :: IsPrepared(t, o) ==> IsPrepared(w, o);
  }

  lemma MoveKeepsOther(w: World, o: OperationId, c: Commit)
    requires OpOk(w, o) && c.Child? && c.parent == w.main && c.author != Some(o)
    ensures OpOk(Apply(w, MoveMain(c)), o)
  {
    assert Landings(c, o) == Landings(w.main, o);
    if o in w.records {
      match w.records[o] {
        case Running(_) =>
        case Prepared(_, _, start, _, _) => AncestorTrans(start, w.main, c);
        case Committed(_, _, _, landed) => AncestorTrans(landed, w.main, c);
        case NoChange(_, _, _, landed) => AncestorTrans(landed, w.main, c);
      }
    }
  }

  ghost predicate Safe(w: World, xs: seq<Write>)
    decreases |xs|
  {
    Inv(w) && (xs == [] || (IsAncestor(w.main, Apply(w, xs[0]).main) && Safe(Apply(w, xs[0]), xs[1..])))
  }

  lemma SafeFirst(w: World, x: Write, rest: seq<Write>, xs: seq<Write>)
    requires xs == [x] + rest && Inv(w) && IsAncestor(w.main, Apply(w, x).main) && Safe(Apply(w, x), rest)
    ensures Safe(w, xs)
  {
    assert xs[1..] == rest;
  }

  lemma {:induction false} SafeCut(w: World, xs: seq<Write>, power: nat)
    requires Safe(w, xs)
    ensures Inv(Cut(w, xs, power)) && IsAncestor(w.main, Cut(w, xs, power).main)
    decreases |xs|
  {
    if xs != [] && power > 0 {
      SafeCut(Apply(w, xs[0]), xs[1..], power - 1);
      AncestorTrans(w.main, Apply(w, xs[0]).main, Cut(w, xs, power).main);
    }
  }

  /** Removing the ref of an operation that has no prepared candidate. */
  lemma UnpinSafe(w: World, op: OperationId)
    requires Inv(w) && op in w.records && !w.records[op].Prepared?
    ensures Safe(w, [Unpin(op)])
  {
    assert OpOk(w, op);
    OthersKeep(w, Unpin(op), op);
    assert [Unpin(op)][1..] == [];
  }

  lemma RecordThenUnpin(w: World, op: OperationId, r: Record)
    requires Inv(w) && IsFindable(op) && !r.Prepared? && OpOk(Apply(w, PutRecord(op, r)), op)
    ensures Safe(w, CompleteWrites(op, r))
  {
    OthersKeep(w, PutRecord(op, r), op);
    UnpinSafe(Apply(w, PutRecord(op, r)), op);
    assert CompleteWrites(op, r)[1..] == [Unpin(op)];
  }

  lemma BeginSafe(w: World, op: OperationId, role: Role)
    requires Inv(w) && (IsOperationId(op) ==> IsSearchable(op))
    ensures Safe(w, BeginPlan(w, op, role).writes)
  {
    assert OpOk(w, op);
    if IsOperationId(op) {
      if op !in w.records {
        RecordThenUnpin(w, op, Running(role));
      } else if w.records[op].role == role && !w.records[op].Prepared? {
        UnpinSafe(w, op);
      }
    }
  }

  /** The record of `op` is prepared under the next number. */
  function AfterPrepare(w: World, op: OperationId, r: Record): World {
    w.(sequence := w.sequence + 1, records := w.records[op := r])
  }

  lemma PreparedInv(w: World, op: OperationId, r: Record)
    requires Inv(w) && op in w.records && r.Prepared? && r.sequence == w.sequence + 1
    requires OpOk(AfterPrepare(w, op, r), op)
    ensures Inv(AfterPrepare(w, op, r))
  {
    NumberKeeps(w);
    var w1 := Apply(w, NextSequence);
    assert Apply(w1, PutRecord(op, r)) == AfterPrepare(w, op, r);
    OthersKeep(w1, PutRecord(op, r), op);
  }

  /** From the number on: prepare, then what follows. */
  lemma PrepareSafe(w: World, op: OperationId, r: Record, rest: seq<Write>, xs: seq<Write>)
    requires xs == PrepareWrites(op, r, rest) && Inv(w) && Inv(AfterPrepare(w, op, r)) && Safe(AfterPrepare(w, op, r), rest)
    ensures Safe(w, xs)
  {
    NumberKeeps(w);
    TwoSafe(w, NextSequence, PutRecord(op, r), rest, xs);
  }

  lemma TwoSafe(w: World, x: Write, y: Write, rest: seq<Write>, xs: seq<Write>)
    requires xs == [x] + ([y] + rest) && Inv(w) && Inv(Apply(w, x)) && Safe(Apply(Apply(w, x), y), rest)
    requires IsAncestor(w.main, Apply(w, x).main) && IsAncestor(Apply(w, x).main, Apply(Apply(w, x), y).main)
    ensures Safe(w, xs)
  {
    SafeFirst(Apply(w, x), y, rest, [y] + rest);
    SafeFirst(w, x, [y] + rest, xs);
  }

  /** A prepared candidate on top of main lands and is recorded. */
  lemma LandSafe(w: World, op: OperationId, landed: Commit, done: Record)
    requires Inv(w) && IsPrepared(w, op) && w.records[op].candidate.Some? && Landings(w.main, op) == 0
    requires CleanCommit(landed) && landed.parent == w.main && landed.author == Some(op)
    requires done.Committed? && done.landed == landed
    ensures Safe(w, LandWrites(op, landed, done))
  {
    assert OpOk(w, op);
    AncestorTrans(w.records[op].start, w.main, landed);
    MoveKeeps(w, op, landed);
    RecordThenUnpin(Apply(w, MoveMain(landed)), op, done);
    SafeFirst(w, MoveMain(landed), CompleteWrites(op, done), LandWrites(op, landed, done));
  }

  /** An outcome without change is recorded. */
  lemma UnchangedSafe(w: World, op: OperationId, done: Record)
    requires Inv(w) && IsPrepared(w, op) && w.records[op].candidate.None?
    requires done.NoChange? && done.landed == w.records[op].start
    ensures Safe(w, CompleteWrites(op, done))
  {
    assert OpOk(w, op);
    RecordThenUnpin(w, op, done);
  }

  lemma NoChangeAfter(w: World, op: OperationId, r: Record, done: Record)
    requires Inv(w) && op in w.records && w.records[op].Running?
    requires r.Prepared? && r.sequence == w.sequence + 1 && r.candidate.None? && r.start == w.main && done.NoChange? && done.landed == w.main
    ensures Inv(AfterPrepare(w, op, r)) && Safe(AfterPrepare(w, op, r), CompleteWrites(op, done))
  {
    assert OpOk(w, op);
    PreparedInv(w, op, r);
    UnchangedSafe(AfterPrepare(w, op, r), op, done);
  }

  lemma NoChangeWritesAre(w: World, op: OperationId, role: Role, held: bool, r: Record, rest: seq<Write>)
    requires r == Prepared(role, w.sequence + 1, w.main, None, held)
    requires rest == if held then [] else CompleteWrites(op, NoChange(role, w.main, None, w.main))
    ensures NoChangeWrites(w, op, role, held) == PrepareWrites(op, r, rest)
  {}

  lemma LandingWritesAre(w: World, op: OperationId, role: Role, c: Commit, held: bool, r: Record, rest: seq<Write>)
    requires r == Prepared(role, w.sequence + 1, w.main, Some(c), held)
    requires rest == if held then [] else LandWrites(op, c, Committed(role, w.main, Some(c), c))
    ensures LandingWrites(w, op, role, c, held) == [Pin(op, c)] + PrepareWrites(op, r, rest)
  {}

  lemma SafeRest(w: World, held: bool, xs: seq<Write>, rest: seq<Write>)
    requires Inv(w) && Safe(w, xs) && rest == if held then [] else xs
    ensures Safe(w, rest)
  {}

  lemma NoChangeSafe(w: World, op: OperationId, role: Role, held: bool, xs: seq<Write>)
    requires Inv(w) && op in w.records && w.records[op].Running? && xs == NoChangeWrites(w, op, role, held)
    ensures Safe(w, xs)
  {
    var r := Prepared(role, w.sequence + 1, w.main, None, held);
    var done := NoChange(role, w.main, None, w.main);
    var rest := if held then [] else CompleteWrites(op, done);
    NoChangeAfter(w, op, r, done);
    SafeRest(AfterPrepare(w, op, r), held, CompleteWrites(op, done), rest);
    NoChangeWritesAre(w, op, role, held, r, rest);
    PrepareSafe(w, op, r, rest, xs);
  }

  lemma LandingAfter(w: World, op: OperationId, r: Record, c: Commit, done: Record)
    requires Inv(w) && op in w.records && w.records[op].Running? && CleanCommit(c) && c.parent == w.main && c.author == Some(op)
    requires op in w.pins && w.pins[op] == c
    requires r.Prepared? && r.sequence == w.sequence + 1 && r.candidate == Some(c) && r.start == w.main && done.Committed? && done.landed == c
    ensures Inv(AfterPrepare(w, op, r)) && Safe(AfterPrepare(w, op, r), LandWrites(op, c, done))
  {
    assert OpOk(w, op);
    PreparedInv(w, op, r);
    LandSafe(AfterPrepare(w, op, r), op, c, done);
  }

  lemma PinKeeps(w: World, op: OperationId, c: Commit)
    requires Inv(w) && op in w.records && w.records[op].Running?
    ensures Inv(Apply(w, Pin(op, c)))
  {
    assert OpOk(w, op);
    OthersKeep(w, Pin(op, c), op);
  }

  /** A fresh candidate of `op` on top of main goes through pin, number, prepare, land, complete and unpin. */
  lemma LandingSafe(w: World, op: OperationId, role: Role, c: Commit, held: bool, xs: seq<Write>)
    requires Inv(w) && op in w.records && w.records[op].Running? && CleanCommit(c) && c.parent == w.main && c.author == Some(op)
    requires xs == LandingWrites(w, op, role, c, held)
    ensures Safe(w, xs)
  {
    var r := Prepared(role, w.sequence + 1, w.main, Some(c), held);
    var done := Committed(role, w.main, Some(c), c);
    var rest := if held then [] else LandWrites(op, c, done);
    var w1 := Apply(w, Pin(op, c));
    PinKeeps(w, op, c);
    LandingAfter(w1, op, r, c, done);
    SafeRest(AfterPrepare(w1, op, r), held, LandWrites(op, c, done), rest);
    LandingWritesAre(w, op, role, c, held, r, rest);
    var more := PrepareWrites(op, r, rest);
    PrepareSafe(w1, op, r, rest, more);
    SafeFirst(w, Pin(op, c), more, xs);
  }

  /** The message names another operation in an indented line. */
  ghost predicate QuotesOther(message: seq<string>, op: OperationId) {
    exists other, i :: 0 <= i < |message| && other != op && IsFindable(other) && IsIndentedTrailer(message[i], other)
  }

  lemma CandidateIsClean(w: World, op: OperationId, role: Role, turn: Turn)
    requires IsSearchable(op) && !QuotesOther(turn.message, op)
    ensures var made := Candidate(w, op, role, turn);
            made.Some? && made.value.Some? ==>
              CleanCommit(made.value.value) && made.value.value.parent == w.main && made.value.value.author == Some(op)
  {
    forall other | IsFindable(other)
      ensures Claims(Squash(turn.message, op), other) <==> other == op
      ensures Claims(RecordOnly(op), other) <==> other == op
    {
      SquashClaims(turn.message, op, other);
      KeptClaims(turn.message, other);
      RecordOnlyClaims(op, other);
      TrailerClaims(op, other);
    }
  }

  lemma PublishSafe(w: World, op: OperationId, turn: Turn)
    requires Inv(w) && !QuotesOther(turn.message, op)
    ensures Safe(w, PublishPlan(w, op, turn).writes)
  {
    if op in w.records && w.records[op].Running? {
      var role := w.records[op].role;
      CandidateIsClean(w, op, role, turn);
      PublishMadeSafe(w, op, role, Candidate(w, op, role, turn), turn.held, PublishPlan(w, op, turn).writes);
    }
  }

  lemma PublishMadeSafe(w: World, op: OperationId, role: Role, made: Option<Option<Commit>>, held: bool, xs: seq<Write>)
    requires xs == PublishWrites(w, op, role, made, held) && Inv(w) && op in w.records && w.records[op].Running?
    requires made.Some? && made.value.Some? ==>
               CleanCommit(made.value.value) && made.value.value.parent == w.main && made.value.value.author == Some(op)
    ensures Safe(w, xs)
  {
    if made.None? {
      UnpinSafe(w, op);
    } else {
      match made.value {
        case None => NoChangeSafe(w, op, role, held, xs);
        case Some(c) => LandingSafe(w, op, role, c, held, xs);
      }
    }
  }

  /** A search in a clean history finds a result of the operation, and finds one if there is one. */
  lemma CleanSearch(op: OperationId, start: Commit, head: Commit)
    requires Clean(head) && IsFindable(op) && IsAncestor(start, head)
    ensures var r := FindLanded(op, start, head);
            && (r.None? <==> Landings(head, op) == Landings(start, op))
            && (r.Some? ==> IsAncestor(r.value, head) && r.value.Child? && r.value.author == Some(op))
  {
    FindLandedFinds(op, start, head);
    CleanAncestor(start, head);
    CleanFinds(head, op);
    CleanFinds(start, op);
    var r := FindLanded(op, start, head);
    if r.Some? {
      CleanAncestor(r.value, head);
    }
  }

  /** What the search or the ancestor test finds is the landing. */
  lemma AlreadySafe(w: World, op: OperationId, landed: Commit, done: Record)
    requires Inv(w) && IsPrepared(w, op) && w.records[op].candidate.Some?
    requires IsAncestor(landed, w.main) && landed.Child? && landed.author == Some(op)
    requires done.Committed? && done.landed == landed
    ensures Safe(w, CompleteWrites(op, done))
  {
    assert OpOk(w, op);
    AncestorLands(landed, w.main, op);
    RecordThenUnpin(w, op, done);
  }

  lemma ResumeSafe(w: World, op: OperationId, picked: Tree, stamp: int)
    requires Inv(w)
    ensures Safe(w, ResumePlan(w, op, picked, stamp).writes)
  {
    assert OpOk(w, op);
    var plan := ResumePlan(w, op, picked, stamp);
    if plan.writes != [] {
      var Prepared(role, _, start, candidate, _) := w.records[op];
      match candidate {
        case None => UnchangedSafe(w, op, NoChange(role, start, None, start));
        case Some(c) =>
          CleanSearch(op, start, w.main);
          match DestinationOf(w, op, role, start, c, picked, stamp) {
            case Already(landed) => AlreadySafe(w, op, landed, Committed(role, start, candidate, landed));
            case Land(landed) =>
              var done := Committed(role, start, candidate, landed);
              LandSafe(w, op, landed, done);
          }
      }
    }
  }

  /**
   The messages that others write keep to themselves: ids are searchable, no
   private message quotes the trailer of another operation in a line that the
   squash keeps, and no foreign commit carries a trailer.
   */
  ghost predicate Disciplined(a: Action) {
    match a
    case Begin(op, _) => IsOperationId(op) ==> IsSearchable(op)
    case Publish(op, turn) => !QuotesOther(turn.message, op)
    case Resume(_, _, _) => true
    case Foreign(_, message, _) => forall op :: IsFindable(op) ==> !Claims(message, op)
  }

  lemma ForeignSafe(w: World, c: Commit)
    requires Inv(w) && CleanCommit(c) && c.parent == w.main && c.author == None
    ensures Safe(w, [MoveMain(c)])
  {
    assert OpOk(w, "");
    MoveKeepsOther(w, "", c);
    MoveKeeps(w, "", c);
    assert IsAncestor(w.main, w.main) && IsAncestor(w.main, c);
    assert [MoveMain(c)][1..] == [];
  }

  lemma ActionSafe(w: World, a: Action)
    requires Inv(w) && Disciplined(a)
    ensures Safe(w, PlanOf(w, a).writes)
  {
    match a
    case Begin(op, role) => BeginSafe(w, op, role);
    case Publish(op, turn) => PublishSafe(w, op, turn);
    case Resume(op, picked, stamp) => ResumeSafe(w, op, picked, stamp);
    case Foreign(tree, message, stamp) => ForeignSafe(w, Child(w.main, tree, message, stamp, None));
  }

  ghost predicate AllDisciplined(steps: seq<Step>) {
    forall i :: 0 <= i < |steps| ==> Disciplined(steps[i].action)
  }

  lemma {:induction false} RunKeepsInv(w: World, steps: seq<Step>)
    requires Inv(w) && Run(w, steps) && AllDisciplined(steps)
    ensures Inv(Final(w, steps)) && IsAncestor(w.main, Final(w, steps).main)
    decreases |steps|
  {
    if steps != [] {
      assert Disciplined(steps[0].action);
      ActionSafe(w, steps[0].action);
      SafeCut(w, PlanOf(w, steps[0].action).writes, steps[0].power);
      RunKeepsInv(After(w, steps[0]), steps[1..]);
      AncestorTrans(w.main, After(w, steps[0]).main, Final(w, steps).main);
    }
  }

  /** Before any operation: no records, nothing landed and nothing that the search would find. */
  ghost predicate IsInitial(w: World) {
    w.records == map[] && Untouched(w.main)
  }

  lemma InitialInv(w: World)
    requires IsInitial(w)
    ensures Inv(w)
  {
    UntouchedIsClean(w.main);
  }

  /** Main holds at most one result of `op`, the one its record names once it is committed, and the search is right about it. */
  predicate LandedOnce(t: World, op: OperationId) {
    && Landings(t.main, op) <= 1
    && (op in t.records && t.records[op].Committed? ==>
          var landed := t.records[op].landed;
          Landings(t.main, op) == 1 && IsAncestor(landed, t.main) && landed.Child? && landed.author == Some(op))
    && (op !in t.records || t.records[op].Running? || t.records[op].NoChange? ==> Landings(t.main, op) == 0)
    && (IsFindable(op) ==> Found(t.main, op) == Landings(t.main, op))
  }

  /**
   Over any run, with a crash after any durable write and any number of retries
   and drains, main holds at most one commit of an operation; exactly one, the
   recorded one, once the operation is recorded committed; none while it is
   running or recorded without change.
   */
  lemma LandsAtMostOnce(w: World, steps: seq<Step>, op: OperationId)
    requires IsInitial(w) && Run(w, steps) && AllDisciplined(steps)
    ensures LandedOnce(Final(w, steps), op)
  {
    InitialInv(w);
    RunKeepsInv(w, steps);
    var t := Final(w, steps);
    assert OpOk(t, op);
    if IsFindable(op) {
      CleanFinds(t.main, op);
    }
  }

  /** A commit that a record calls landed stays in the history of main for ever. */
  lemma LandedStays(w: World, before: seq<Step>, more: seq<Step>, op: OperationId)
    requires IsInitial(w) && Run(w, before) && Run(Final(w, before), more) && AllDisciplined(before) && AllDisciplined(more)
    requires op in Final(w, before).records && Final(w, before).records[op].Committed?
    ensures IsAncestor(Final(w, before).records[op].landed, Final(Final(w, before), more).main)
  {
    InitialInv(w);
    RunKeepsInv(w, before);
    var t := Final(w, before);
    assert OpOk(t, op);
    RunKeepsInv(t, more);
    AncestorTrans(t.records[op].landed, t.main, Final(t, more).main);
  }

  // ---------- serializability ----------

  /** Semantically the new head is the operation's own result; elsewhere, the records it adds aside, it is the old head. */
  predicate Serialized(own: Tree, head: Tree, landed: Tree, managed: set<string>) {
    forall p :: p in own.Keys + head.Keys + landed.Keys ==>
      && (IsSemanticPath(p) ==> Lookup(landed, p) == Lookup(own, p))
      && (!IsSemanticPath(p) && p !in managed ==> Lookup(landed, p) == Lookup(head, p))
  }

  lemma PickSerializes(role: Role, start: Tree, own: Tree, head: Tree, picked: Tree, managed: set<string>)
    requires SemanticChanges(start, head) == {} && ValidChange(role, start, own, managed) && IsCherryPick(start, own, head, picked)
    requires forall p :: p in managed ==> IsUpdateRecord(p)
    ensures Serialized(own, head, picked, managed)
  {
    forall p | p in own.Keys + head.Keys + picked.Keys
      ensures IsSemanticPath(p) ==> Lookup(picked, p) == Lookup(own, p)
      ensures !IsSemanticPath(p) && p !in managed ==> Lookup(picked, p) == Lookup(head, p)
    {
      assert p !in SemanticChanges(start, head);
      if p in ChangedPaths(start, own) {
        if IsRoleWritePath(role, p) {
          RoleWritesAreSemantic(role, p);
        }
      }
    }
  }

  lemma ManagedSerializes(own: Tree, head: Tree, picked: Tree, managed: map<string, string>)
    requires Serialized(own, head, picked, {}) && forall p :: p in managed ==> IsUpdateRecord(p)
    ensures Serialized(own, head, picked + managed, managed.Keys)
  {
    forall p | p in managed ensures !IsSemanticPath(p) {
      UpdateRecordsAreNotSemantic(p);
    }
    var landed := picked + managed;
    forall p | p in own.Keys + head.Keys + landed.Keys
      ensures IsSemanticPath(p) ==> Lookup(landed, p) == Lookup(own, p)
      ensures !IsSemanticPath(p) && p !in managed ==> Lookup(landed, p) == Lookup(head, p)
    {
      if p !in managed {
        assert Lookup(landed, p) == Lookup(picked, p);
      }
    }
  }

  /** A run that lands although main has moved since it started lands serializably, with a change of its own or without. */
  lemma PublishIsSerializable(w: World, op: OperationId, turn: Turn)
    requires Allowed(w, Publish(op, turn))
    requires op in w.records && w.records[op].Running?
    requires var made := Candidate(w, op, w.records[op].role, turn); made.Some? && made.value.Some?
    ensures var landed := Candidate(w, op, w.records[op].role, turn).value.value;
            && (!turn.held ==> MoveMain(landed) in PublishPlan(w, op, turn).writes)
            && landed.Child? && landed.parent == w.main && landed.author == Some(op)
            && NothingReadMoved(turn.start, w.main)
            && Serialized(OwnTree(turn), w.main.tree, landed.tree, turn.managed.Keys)
            && forall p :: p in turn.managed ==> Lookup(landed.tree, p) == Some(turn.managed[p])
  {
    var role := w.records[op].role;
    var own := OwnTree(turn);
    assert !turn.held ==> PublishPlan(w, op, turn).writes[3] == MoveMain(Candidate(w, op, role, turn).value.value);
    var head := w.main.tree;
    if w.main == turn.start {
      assert SemanticChanges(turn.start.tree, head) == {};
    }
    UnmovedIfEmpty(turn.start, w.main);
    if turn.trees == [] {
      UnchangedSerializes(turn.start.tree, head);
      ManagedSerializes(own, head, head, turn.managed);
    } else {
      var picked := if w.main == turn.start then own else turn.picked;
      if w.main == turn.start {
        assert IsCherryPick(turn.start.tree, own, head, own);
      }
      PickSerializes(role, turn.start.tree, own, head, picked, {});
      ManagedSerializes(own, head, picked, turn.managed);
    }
  }

  /** Main goes on from `start`, and every path that a run may have read is as it was there. */
  ghost predicate NothingReadMoved(start: Commit, head: Commit) {
    IsAncestor(start, head) && forall p :: IsSemanticPath(p) ==> Lookup(head.tree, p) == Lookup(start.tree, p)
  }

  lemma UnmovedIfEmpty(start: Commit, head: Commit)
    requires IsAncestor(start, head) && SemanticChanges(start.tree, head.tree) == {}
    ensures NothingReadMoved(start, head)
  {
    forall p | IsSemanticPath(p) ensures Lookup(head.tree, p) == Lookup(start.tree, p) {
      assert p !in SemanticChanges(start.tree, head.tree);
    }
  }

  lemma UnchangedSerializes(start: Tree, head: Tree)
    requires SemanticChanges(start, head) == {}
    ensures Serialized(start, head, head, {})
  {
    forall p | p in start.Keys + head.Keys && IsSemanticPath(p) ensures Lookup(head, p) == Lookup(start, p) {
      assert p !in SemanticChanges(start, head);
    }
  }

  /** The records the candidate adds, changes or removes are as it left them, if main has not touched them since its start. */
  ghost predicate CarriesManaged(role: Role, c: Commit, head: Tree, landed: Tree)
    requires c.Child?
  {
    forall p :: p in ManagedPaths(role, c) && Lookup(head, p) == Lookup(c.parent.tree, p) ==> Lookup(landed, p) == Lookup(c.tree, p)
  }

  /** So does a prepared outcome that a later process lands after main has moved. */
  lemma ResumeIsSerializable(w: World, op: OperationId, picked: Tree, stamp: int)
    requires OpOk(w, op) && Allowed(w, Resume(op, picked, stamp)) && IsPrepared(w, op) && w.records[op].candidate.Some?
    requires var r := w.records[op]; DestinationOf(w, op, r.role, r.start, r.candidate.value, picked, stamp).Land?
    ensures var r := w.records[op];
            var landed := DestinationOf(w, op, r.role, r.start, r.candidate.value, picked, stamp).commit;
            && MoveMain(landed) in ResumePlan(w, op, picked, stamp).writes
            && landed.Child? && landed.parent == w.main && landed.author == Some(op)
            && NothingReadMoved(r.start, w.main)
            && CarriesManaged(r.role, r.candidate.value, w.main.tree, landed.tree)
            && Serialized(r.candidate.value.tree, w.main.tree, landed.tree, ManagedPaths(r.role, r.candidate.value))
  {
    var r := w.records[op];
    var c := r.candidate.value;
    var landed := DestinationOf(w, op, r.role, r.start, c, picked, stamp).commit;
    assert ResumePlan(w, op, picked, stamp).writes[0] == MoveMain(landed);
    if w.main == r.start {
      assert SemanticChanges(r.start.tree, w.main.tree) == {};
    }
    UnmovedIfEmpty(r.start, w.main);
    if w.main == r.start {
      assert IsCherryPick(r.start.tree, c.tree, w.main.tree, c.tree);
      assert ChangedPaths(r.start.tree, w.main.tree) == {};
    }
    PickSerializes(r.role, r.start.tree, c.tree, w.main.tree, landed.tree, ManagedPaths(r.role, c));
  }
}
