/** Before an operation begins, what others have prepared is finished, in the order of the outcomes. */
module LandingDrain {
  import opened Common
  import opened Ordering
  import opened Landing
  import opened LandingProofs

  lemma {:induction false} CutAppend(w: World, xs: seq<Write>, ys: seq<Write>, power: nat)
    ensures power <= |xs| ==> Cut(w, xs + ys, power) == Cut(w, xs, power)
    ensures power >= |xs| ==> Cut(w, xs + ys, power) == Cut(Cut(w, xs, |xs|), ys, power - |xs|)
    ensures power >= |xs| ==> Cut(w, xs, power) == Cut(w, xs, |xs|)
    decreases |xs|
  {
    if xs == [] {
      assert xs + ys == ys;
    } else if power > 0 {
      CutAppend(Apply(w, xs[0]), xs[1..], ys, power - 1);
      FirstOfBoth(xs, ys);
    }
  }

  // ---------- which, and in what order ----------

  predicate InOrder(w: World, ops: seq<OperationId>) {
    && (forall o :: o in ops ==> IsPrepared(w, o))
    && forall i, j :: 0 <= i < j < |ops| ==> Earlier(w, ops[i], ops[j])
  }

  lemma EarlierTrans(w: World, a: OperationId, b: OperationId, c: OperationId)
    requires IsPrepared(w, a) && IsPrepared(w, b) && IsPrepared(w, c) && Earlier(w, a, b) && Earlier(w, b, c)
    ensures Earlier(w, a, c)
  {
    if Less(a, b) && Less(b, c) {
      LessTrans(a, b, c);
    }
  }

  lemma {:induction false} InsertInOrder(w: World, op: OperationId, ops: seq<OperationId>)
    requires IsPrepared(w, op) && InOrder(w, ops) && op !in ops
    ensures InOrder(w, InsertPrepared(w, op, ops))
  {
    if ops != [] {
      if Earlier(w, op, ops[0]) {
        forall j | 0 <= j < |ops| ensures Earlier(w, op, ops[j]) {
          if j > 0 {
            EarlierTrans(w, op, ops[0], ops[j]);
          }
        }
      } else {
        LessTotal(op, ops[0]);
        InsertInOrder(w, op, ops[1..]);
        var rest := InsertPrepared(w, op, ops[1..]);
        forall j | 0 <= j < |rest| ensures Earlier(w, ops[0], rest[j]) {
          assert rest[j] in rest;
          if rest[j] != op {
            var k :| 0 <= k < |ops[1..]| && ops[1..][k] == rest[j];
            assert ops[k + 1] == rest[j];
          }
        }
      }
    }
  }

  /** A drain takes exactly the prepared operations that are not held, earlier outcomes first. */
  lemma {:induction false} DrainOrderIsSorted(w: World, listing: seq<OperationId>)
    requires Distinct(listing)
    ensures InOrder(w, DrainOrder(w, listing))
    ensures forall o :: o in DrainOrder(w, listing) <==> o in listing && IsDue(w, o)
  {
    if listing != [] {
      DrainOrderIsSorted(w, listing[1..]);
      if IsDue(w, listing[0]) {
        InsertInOrder(w, listing[0], DrainOrder(w, listing[1..]));
      }
    }
  }

  /** In every run outcomes have different numbers, so the number alone decides the order. */
  lemma OutcomesAreNumbered(w: World, steps: seq<Step>, listing: seq<OperationId>)
    requires IsInitial(w) && Run(w, steps) && AllDisciplined(steps) && Distinct(listing)
    ensures InNumberOrder(Final(w, steps), DrainOrder(Final(w, steps), listing))
  {
    InitialInv(w);
    RunKeepsInv(w, steps);
    DrainOrderIsSorted(Final(w, steps), listing);
    NumbersDecide(Final(w, steps), DrainOrder(Final(w, steps), listing));
  }

  lemma NumbersDecide(t: World, order: seq<OperationId>)
    requires Numbered(t) && InOrder(t, order)
    ensures InNumberOrder(t, order)
  {
    forall i, j | 0 <= i < j < |order| ensures SmallerNumber(t, order[i], order[j]) {
      assert order[i] in order && order[j] in order;
      assert Earlier(t, order[i], order[j]);
      LessIrreflexive(order[i]);
    }
  }

  predicate SmallerNumber(t: World, a: OperationId, b: OperationId) {
    IsPrepared(t, a) && IsPrepared(t, b) && t.records[a].sequence < t.records[b].sequence
  }

  predicate InNumberOrder(t: World, order: seq<OperationId>) {
    forall i, j :: 0 <= i < j < |order| ==> SmallerNumber(t, order[i], order[j])
  }

  // ---------- what it leaves ----------

  predicate IsFinal(w: World, op: OperationId) {
    op in w.records && (w.records[op].Committed? || w.records[op].NoChange?)
  }

  predicate SameRecord(w: World, t: World, op: OperationId) {
    (op in t.records <==> op in w.records) && (op in w.records ==> t.records[op] == w.records[op])
  }

  function ResumeOf(w: World, op: OperationId, picks: OperationId -> Pick): Plan {
    ResumePlan(w, op, picks(op).picked, picks(op).stamp)
  }

  /** Only a resume of the operation itself touches its record. */
  lemma ResumeTouchesOne(w: World, op: OperationId, picked: Tree, stamp: int)
    ensures var plan := ResumePlan(w, op, picked, stamp);
            && (forall o :: o != op ==> SameRecord(w, Finished(w, plan), o))
            && (plan.ok ==> IsFinal(Finished(w, plan), op))
  {
    var plan := ResumePlan(w, op, picked, stamp);
    if plan.writes != [] {
      CutThree(w, plan.writes);
    }
  }

  lemma CutThree(w: World, xs: seq<Write>)
    requires 2 <= |xs| <= 3
    ensures Cut(w, xs, |xs|) == if |xs| == 2 then Apply(Apply(w, xs[0]), xs[1]) else Apply(Apply(Apply(w, xs[0]), xs[1]), xs[2])
  {
    var w1 := Apply(w, xs[0]);
    var w2 := Apply(w1, xs[1]);
    assert Cut(w, xs, |xs|) == Cut(w1, xs[1..], |xs| - 1);
    assert Cut(w1, xs[1..], |xs| - 1) == Cut(w2, xs[1..][1..], |xs| - 2);
    if |xs| == 3 {
      assert Cut(w2, xs[1..][1..], 1) == Cut(Apply(w2, xs[2]), xs[1..][1..][1..], 0);
    }
  }

  lemma {:induction false} GoesOn(w: World, ops: seq<OperationId>, picks: OperationId -> Pick)
    requires ops != [] && FinishAllPlan(w, ops, picks).ok
    ensures var first := ResumeOf(w, ops[0], picks);
            var rest := FinishAllPlan(Finished(w, first), ops[1..], picks);
            first.ok && rest.ok && Finished(w, FinishAllPlan(w, ops, picks)) == Finished(Finished(w, first), rest)
  {
    var first := ResumeOf(w, ops[0], picks);
    var rest := FinishAllPlan(Finished(w, first), ops[1..], picks);
    BothFinished(w, first, rest);
  }

  lemma BothFinished(w: World, first: Plan, rest: Plan)
    ensures Finished(w, Plan(first.writes + rest.writes, rest.ok)) == Finished(Finished(w, first), rest)
  {
    CutAppend(w, first.writes, rest.writes, |first.writes| + |rest.writes|);
  }

  /** The first operation is final, the others wait in a world whose other records are as before. */
  lemma {:induction false} FinishOne(w: World, ops: seq<OperationId>, picks: OperationId -> Pick) returns (w1: World)
    requires ops != [] && FinishAllPlan(w, ops, picks).ok
    ensures FinishAllPlan(w1, ops[1..], picks).ok
    ensures Finished(w, FinishAllPlan(w, ops, picks)) == Finished(w1, FinishAllPlan(w1, ops[1..], picks))
    ensures IsFinal(w1, ops[0]) && forall o :: o != ops[0] ==> SameRecord(w, w1, o)
  {
    w1 := Finished(w, ResumeOf(w, ops[0], picks));
    GoesOn(w, ops, picks);
    ResumeTouchesOne(w, ops[0], picks(ops[0]).picked, picks(ops[0]).stamp);
  }

  ghost predicate FinishedIn(w: World, t: World, ops: seq<OperationId>, op: OperationId) {
    if op in ops then IsFinal(t, op) else SameRecord(w, t, op)
  }

  lemma FinishedFirst(w: World, w1: World, t: World, ops: seq<OperationId>, op: OperationId)
    requires ops != [] && FinishedIn(w1, t, ops[1..], op)
    requires IsFinal(w1, ops[0]) && (op != ops[0] ==> SameRecord(w, w1, op))
    ensures FinishedIn(w, t, ops, op)
  {
    assert ops == [ops[0]] + ops[1..];
  }

  lemma {:induction false} FinishAllFinishes(w: World, ops: seq<OperationId>, picks: OperationId -> Pick, op: OperationId)
    requires FinishAllPlan(w, ops, picks).ok
    ensures FinishedIn(w, Finished(w, FinishAllPlan(w, ops, picks)), ops, op)
    decreases |ops|
  {
    if ops != [] {
      var w1 := FinishOne(w, ops, picks);
      FinishAllFinishes(w1, ops[1..], picks, op);
      FinishedFirst(w, w1, Finished(w1, FinishAllPlan(w1, ops[1..], picks)), ops, op);
    }
  }

  /** A drain that returns leaves nothing prepared but what is held: what was due is final, every other record is as before. */
  lemma {:induction false} DrainFinishesAll(w: World, listing: seq<OperationId>, picks: OperationId -> Pick, op: OperationId)
    requires DrainPlan(w, listing, picks).ok && forall o :: IsDue(w, o) ==> o in listing
    ensures var t := Finished(w, DrainPlan(w, listing, picks));
            !IsDue(t, op) && if IsDue(w, op) then IsFinal(t, op) else SameRecord(w, t, op)
  {
    FinishAllFinishes(w, DrainOrder(w, listing), picks, op);
  }

  // ---------- a drain is a run ----------

  /** The resumes that are performed before the process dies. */
  function FinishSteps(w: World, ops: seq<OperationId>, picks: OperationId -> Pick, power: nat): seq<Step>
    decreases |ops|
  {
    if ops == [] then []
    else
      var first := ResumeOf(w, ops[0], picks);
      var step := Step(Resume(ops[0], picks(ops[0]).picked, picks(ops[0]).stamp), power);
      if !first.ok || power < |first.writes| then [step]
      else [step] + FinishSteps(After(w, step), ops[1..], picks, power - |first.writes|)
  }

  lemma FinalFirst(w: World, step: Step, more: seq<Step>)
    ensures Final(w, [step] + more) == Final(After(w, step), more)
  {
    FirstOfBoth([step], more);
    assert [step][1..] + more == more;
  }

  lemma {:induction false} FinishAllIsARun(w: World, ops: seq<OperationId>, picks: OperationId -> Pick, power: nat)
    ensures Cut(w, FinishAllPlan(w, ops, picks).writes, power) == Final(w, FinishSteps(w, ops, picks, power))
    decreases |ops|
  {
    if ops != [] {
      var first := ResumeOf(w, ops[0], picks);
      var step := Step(Resume(ops[0], picks(ops[0]).picked, picks(ops[0]).stamp), power);
      assert After(w, step) == Cut(w, first.writes, power);
      var rest := FinishAllPlan(Finished(w, first), ops[1..], picks);
      if first.ok {
        CutAppend(w, first.writes, rest.writes, power);
      }
      if !first.ok || power < |first.writes| {
        FinalFirst(w, step, []);
        assert [step] + [] == [step];
      } else {
        FinishAllIsARun(After(w, step), ops[1..], picks, power - |first.writes|);
        FinalFirst(w, step, FinishSteps(After(w, step), ops[1..], picks, power - |first.writes|));
      }
    }
  }

  /** So a drain, cut anywhere, is a run of resumes: everything proved of runs holds of it. */
  lemma {:induction false} DrainIsARun(w: World, listing: seq<OperationId>, picks: OperationId -> Pick, power: nat)
    ensures var steps := FinishSteps(w, DrainOrder(w, listing), picks, power);
            Cut(w, DrainPlan(w, listing, picks).writes, power) == Final(w, steps) && AllDisciplined(steps)
  {
    FinishAllIsARun(w, DrainOrder(w, listing), picks, power);
    OnlyResumes(w, DrainOrder(w, listing), picks, power);
  }

  lemma {:induction false} OnlyResumes(w: World, ops: seq<OperationId>, picks: OperationId -> Pick, power: nat)
    ensures forall i :: 0 <= i < |FinishSteps(w, ops, picks, power)| ==> FinishSteps(w, ops, picks, power)[i].action.Resume?
    decreases |ops|
  {
    if ops != [] {
      var first := ResumeOf(w, ops[0], picks);
      var step := Step(Resume(ops[0], picks(ops[0]).picked, picks(ops[0]).stamp), power);
      if first.ok && power >= |first.writes| {
        OnlyResumes(After(w, step), ops[1..], picks, power - |first.writes|);
      }
    }
  }
}
