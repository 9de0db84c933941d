/**
 Wake-ups of the worker, and when one can be lost. Every step below is one
 section under the worker lock, the worker's own scan, or an attempt at the
 leader lock; steps of submitters and of workers interleave freely.
 */
module Wakeups {
  import opened Common

  type Pid = nat

  /**
   A worker process: started but without the leader lock, holding the lock but
   not yet recorded, before reading the counter, before scanning, about to leave,
   its record cleared but the lock still held, exited.
   */
  datatype Phase = Spawned | Owner | Starting | Looked(counter: nat) | Leaving(counter: nat) | Cleared | Gone

  /** `served` is the largest counter value that was read before a scan: history, read by no step. */
  datatype World = World(wake: nat, record: Option<Pid>, workers: map<Pid, Phase>, leader: Option<Pid>, served: nat)

  datatype Step =
    | Submit(spawn: Pid)
    | TryLock(p: Pid)
    | Announce(p: Pid)
    | ReadCounter(p: Pid)
    | Scan(p: Pid, more: bool)
    | Leave(p: Pid)
    | Unlock(p: Pid)

  function PhaseOf(w: World, p: Pid): Phase {
    if p in w.workers then w.workers[p] else Gone
  }

  function With(w: World, p: Pid, phase: Phase): World {
    w.(workers := w.workers[p := phase])
  }

  predicate Enabled(w: World, s: Step) {
    match s
    case Submit(p) => p !in w.workers
    case TryLock(p) => PhaseOf(w, p).Spawned?
    case Announce(p) => PhaseOf(w, p).Owner?
    case ReadCounter(p) => PhaseOf(w, p).Starting?
    case Scan(p, _) => PhaseOf(w, p).Looked?
    case Leave(p) => PhaseOf(w, p).Leaving?
    case Unlock(p) => PhaseOf(w, p).Cleared?
  }

  /** Count the wake-up; start a worker unless the recorded one is alive. */
  function AfterSubmit(w: World, p: Pid): World {
    var t := w.(wake := w.wake + 1);
    if w.record.Some? && PhaseOf(w, w.record.value) != Gone then t
    else With(t, p, Spawned).(record := Some(p))
  }

  /** A process that does not get the lock returns at once; its record stays. */
  function AfterTryLock(w: World, p: Pid): World {
    if w.leader.None? then With(w, p, Owner).(leader := Some(p)) else With(w, p, Gone)
  }

  /** Leave only if nothing was counted since the counter was read; the own record is cleared in the same section. */
  function AfterLeave(w: World, p: Pid, c: nat): World {
    if w.wake != c then With(w, p, Starting)
    else With(w, p, Cleared).(record := if w.record == Some(p) then None else w.record)
  }

  function After(w: World, s: Step): World
    requires Enabled(w, s)
  {
    match s
    case Submit(p) => AfterSubmit(w, p)
    case TryLock(p) => AfterTryLock(w, p)
    case Announce(p) => With(w, p, Starting).(record := Some(p))
    case ReadCounter(p) => With(w, p, Looked(w.wake))
    // `more`: a batch was run or a deadline waited for; otherwise the worker has nothing left to do
    case Scan(p, more) =>
      var c := PhaseOf(w, p).counter;
      With(w, p, if more then Starting else Leaving(c)).(served := if c > w.served then c else w.served)
    case Leave(p) => AfterLeave(w, p, PhaseOf(w, p).counter)
    case Unlock(p) => With(w, p, Gone).(leader := None)
  }

  predicate Run(w: World, steps: seq<Step>)
    decreases |steps|
  {
    steps == [] || (Enabled(w, steps[0]) && Run(After(w, steps[0]), steps[1..]))
  }

  function Final(w: World, steps: seq<Step>): World
    requires Run(w, steps)
    decreases |steps|
  {
    if steps == [] then w else Final(After(w, steps[0]), steps[1..])
  }

  const INITIAL := World(0, None, map[], None, 0)

  // ---------- the invariant ----------

  /** A worker in its loop. */
  predicate IsActive(ph: Phase) {
    ph.Owner? || ph.Starting? || ph.Looked? || ph.Leaving?
  }

  /** Phase by phase: who is recorded, who leads, and what the counters say. */
  predicate WorkerOk(w: World, p: Pid) {
    var ph := PhaseOf(w, p);
    && (ph.Spawned? || IsActive(ph) ==> w.record == Some(p))
    && (IsActive(ph) || ph.Cleared? <==> w.leader == Some(p))
    && (ph.Cleared? ==> w.record != Some(p))
    && (ph.Looked? ==> ph.counter <= w.wake)
    && (ph.Leaving? ==> ph.counter <= w.served)
  }

  ghost predicate Inv(w: World) {
    && w.served <= w.wake
    && (w.record.None? ==> w.served == w.wake)
    && (w.record.Some? ==> w.record.value in w.workers)
    && forall p: Pid :: WorkerOk(w, p)
  }

  lemma StepKeeps(w: World, s: Step)
    requires Inv(w) && Enabled(w, s)
    ensures Inv(After(w, s)) && w.wake <= After(w, s).wake && w.served <= After(w, s).served
  {
    var t := After(w, s);
    var me := match s case Submit(p) => p case TryLock(p) => p case Announce(p) => p case ReadCounter(p) => p
              case Scan(p, _) => p case Leave(p) => p case Unlock(p) => p;
    assert WorkerOk(w, me);
    forall p: Pid ensures WorkerOk(t, p) {
      assert WorkerOk(w, p);
    }
  }

  lemma {:induction false} RunKeeps(w: World, steps: seq<Step>)
    requires Inv(w) && Run(w, steps)
    ensures Inv(Final(w, steps)) && w.wake <= Final(w, steps).wake && w.served <= Final(w, steps).served
    decreases |steps|
  {
    if steps != [] {
      StepKeeps(w, steps[0]);
      RunKeeps(After(w, steps[0]), steps[1..]);
    }
  }

  lemma Reached(steps: seq<Step>)
    requires Run(INITIAL, steps)
    ensures Inv(Final(INITIAL, steps))
  {
    assert Inv(INITIAL);
    RunKeeps(INITIAL, steps);
  }

  // ---------- the window ----------

  /** A worker has cleared its record but still holds the leader lock. */
  predicate InWindow(w: World) {
    w.leader.Some? && PhaseOf(w, w.leader.value).Cleared?
  }

  /** One of the first `n` wake-ups has not been served, and the recorded worker is no more. */
  predicate Stranded(w: World, n: nat) {
    w.served < n && (w.record.None? || PhaseOf(w, w.record.value) == Gone)
  }

  /** The first `n` wake-ups are served, or the recorded worker is in its loop, or it is sure to get the lock. */
  predicate Sure(w: World, n: nat) {
    w.served >= n ||
      (w.record.Some? && (IsActive(PhaseOf(w, w.record.value)) || (PhaseOf(w, w.record.value).Spawned? && w.leader.None?)))
  }

  lemma SubmitIsSure(w: World, p: Pid)
    requires Inv(w) && Enabled(w, Submit(p)) && !InWindow(w)
    ensures Sure(After(w, Submit(p)), w.wake + 1)
  {
    assert w.leader.Some? ==> WorkerOk(w, w.leader.value);
    assert w.record.Some? ==> WorkerOk(w, w.record.value);
  }

  lemma StaysSure(w: World, s: Step, n: nat)
    requires Inv(w) && Enabled(w, s) && n <= w.wake && Sure(w, n)
    ensures Sure(After(w, s), n)
  {
    if w.served < n {
      var r := w.record.value;
      assert WorkerOk(w, r);
      assert s.TryLock? ==> WorkerOk(w, s.p);
      assert s.Announce? ==> WorkerOk(w, s.p);
      assert s.ReadCounter? ==> WorkerOk(w, s.p);
      assert s.Scan? ==> WorkerOk(w, s.p);
      assert s.Leave? ==> WorkerOk(w, s.p);
      assert s.Unlock? ==> WorkerOk(w, s.p);
    }
  }

  lemma {:induction false} RunStaysSure(w: World, steps: seq<Step>, n: nat)
    requires Inv(w) && Run(w, steps) && n <= w.wake && Sure(w, n)
    ensures Sure(Final(w, steps), n)
    decreases |steps|
  {
    if steps != [] {
      StepKeeps(w, steps[0]);
      StaysSure(w, steps[0], n);
      RunStaysSure(After(w, steps[0]), steps[1..], n);
    }
  }

  /** In the window the recorded worker, new or not, may try the lock too early and return. */
  lemma WindowStrands(w: World, p: Pid)
    requires Inv(w) && Enabled(w, Submit(p)) && InWindow(w)
    ensures var t := After(w, Submit(p));
            t.record.Some? && Enabled(t, TryLock(t.record.value)) && Stranded(After(t, TryLock(t.record.value)), w.wake + 1)
  {
    assert WorkerOk(w, w.leader.value);
    assert w.record.Some? ==> WorkerOk(w, w.record.value);
  }

  /**
   In every reachable state, the wake-up that a submitter counts next can be left
   unserved with no worker to serve it if and only if some worker has cleared its
   record and not yet released the leader lock.
   */
  lemma LostOnlyInWindow(before: seq<Step>, p: Pid)
    requires Run(INITIAL, before) && Enabled(Final(INITIAL, before), Submit(p))
    ensures var w := Final(INITIAL, before);
            var t := After(w, Submit(p));
            (exists more :: Run(t, more) && Stranded(Final(t, more), w.wake + 1)) <==> InWindow(w)
  {
    Reached(before);
    var w := Final(INITIAL, before);
    var t := After(w, Submit(p));
    StepKeeps(w, Submit(p));
    if InWindow(w) {
      WindowStrands(w, p);
      OneStep(t, TryLock(t.record.value), []);
      assert Stranded(Final(t, [TryLock(t.record.value)] + []), w.wake + 1);
    } else {
      SubmitIsSure(w, p);
      forall more | Run(t, more) ensures !Stranded(Final(t, more), w.wake + 1) {
        RunStaysSure(t, more, w.wake + 1);
      }
    }
  }

  const LEAVING := World(1, Some(1), map[1 := Leaving(1)], Some(1), 1)
  const LOST := World(2, Some(2), map[1 := Cleared, 2 := Gone], Some(1), 1)
  const WORK := [Submit(1), TryLock(1), Announce(1), ReadCounter(1), Scan(1, false)]
  const EARLY := [Leave(1), Submit(2), TryLock(2)]

  lemma ThreeSteps(w: World, a: Step, b: Step, c: Step)
    requires Enabled(w, a) && Enabled(After(w, a), b) && Enabled(After(After(w, a), b), c)
    ensures Run(w, [a, b, c]) && Final(w, [a, b, c]) == After(After(After(w, a), b), c)
  {
    var w1 := After(w, a);
    OneStep(After(w1, b), c, []);
    OneStep(w1, b, [c]);
    OneStep(w, a, [b, c]);
    assert [c] + [] == [c] && [b] + [c] == [b, c] && [a] + [b, c] == [a, b, c];
  }

  lemma {:induction false} RunsTogether(w: World, xs: seq<Step>, ys: seq<Step>)
    requires Run(w, xs) && Run(Final(w, xs), ys)
    ensures Run(w, xs + ys) && Final(w, xs + ys) == Final(Final(w, xs), ys)
    decreases |xs|
  {
    if xs == [] {
      assert xs + ys == ys;
    } else {
      FirstOfBoth(xs, ys);
      RunsTogether(After(w, xs[0]), xs[1..], ys);
    }
  }

  lemma FirstWorkerLeaves()
    ensures Run(INITIAL, WORK) && Final(INITIAL, WORK) == LEAVING
  {
    var w3 := World(1, Some(1), map[1 := Starting], Some(1), 0);
    ThreeSteps(INITIAL, Submit(1), TryLock(1), Announce(1));
    assert Final(INITIAL, [Submit(1), TryLock(1), Announce(1)]) == w3;
    OneStep(After(w3, ReadCounter(1)), Scan(1, false), []);
    OneStep(w3, ReadCounter(1), [Scan(1, false)]);
    assert [Scan(1, false)] + [] == [Scan(1, false)];
    RunsTogether(INITIAL, [Submit(1), TryLock(1), Announce(1)], [ReadCounter(1)] + [Scan(1, false)]);
    assert WORK == [Submit(1), TryLock(1), Announce(1)] + ([ReadCounter(1)] + [Scan(1, false)]);
  }

  /** Such a state is reached: the second worker returns before the first has released the lock. */
  lemma WakeUpCanBeLost()
    ensures Run(INITIAL, WORK + EARLY) && Final(INITIAL, WORK + EARLY) == LOST && Stranded(LOST, 2)
  {
    FirstWorkerLeaves();
    ThreeSteps(LEAVING, Leave(1), Submit(2), TryLock(2));
    RunsTogether(INITIAL, WORK, EARLY);
  }

  lemma OneStep(w: World, s: Step, rest: seq<Step>)
    requires Enabled(w, s) && Run(After(w, s), rest)
    ensures Run(w, [s] + rest) && Final(w, [s] + rest) == Final(After(w, s), rest)
  {
    assert ([s] + rest)[1..] == rest;
  }

  // ---------- what is guaranteed ----------

  /** The first `n` wake-ups are served, or worker `r` is recorded and in its loop. */
  predicate StillThere(w: World, r: Pid, n: nat) {
    w.served >= n || (w.record == Some(r) && IsActive(PhaseOf(w, r)))
  }

  lemma {:induction false} RunStillThere(w: World, r: Pid, steps: seq<Step>, n: nat)
    requires Inv(w) && Run(w, steps) && n <= w.wake && StillThere(w, r, n)
    ensures StillThere(Final(w, steps), r, n)
    decreases |steps|
  {
    if steps != [] {
      StepKeeps(w, steps[0]);
      assert WorkerOk(w, r);
      StaysThere(w, r, steps[0], n);
      RunStillThere(After(w, steps[0]), r, steps[1..], n);
    }
  }

  lemma StaysThere(w: World, r: Pid, s: Step, n: nat)
    requires Inv(w) && Enabled(w, s) && n <= w.wake && StillThere(w, r, n)
    ensures StillThere(After(w, s), r, n)
  {
    if w.served < n {
      assert WorkerOk(w, r);
      assert s.Announce? ==> WorkerOk(w, s.p);
      assert s.Leave? ==> WorkerOk(w, s.p);
    }
  }

  /**
   A wake-up, counted at any time after the worker's last counter read, finds
   that worker recorded and makes it scan again before it clears its record; or
   it finds no living worker recorded and starts one; or it finds a started
   worker that has not tried the lock yet.
   */
  lemma SeenOrReplaced(before: seq<Step>, p: Pid, more: seq<Step>)
    requires Run(INITIAL, before) && Enabled(Final(INITIAL, before), Submit(p)) && Run(After(Final(INITIAL, before), Submit(p)), more)
    ensures var w := Final(INITIAL, before);
            var t := After(w, Submit(p));
            || (t.record == Some(p) && PhaseOf(t, p).Spawned?)
            || (w.record.Some? && t.record == w.record && PhaseOf(t, w.record.value).Spawned?)
            || (w.record.Some? && StillThere(Final(t, more), w.record.value, w.wake + 1))
  {
    Reached(before);
    var w := Final(INITIAL, before);
    var t := After(w, Submit(p));
    StepKeeps(w, Submit(p));
    if w.record.Some? {
      var r := w.record.value;
      assert WorkerOk(w, r);
      if IsActive(PhaseOf(w, r)) {
        RunStillThere(t, r, more, w.wake + 1);
      }
    }
  }

  // ---------- outside the window every wake-up is served ----------

  predicate IsWorkers(s: Step) {
    !s.Submit?
  }

  /** How many steps the recorded worker may still need to serve the first `n` wake-ups. */
  function StepsLeft(w: World, n: nat): nat {
    if w.served >= n || w.record.None? then 0
    else match PhaseOf(w, w.record.value)
      case Spawned => 4
      case Owner => 3
      case Starting => 2
      case Looked(c) => if c >= n then 1 else 4
      case Leaving(_) => 3
      case _ => 0
  }

  lemma StepGetsCloser(w: World, s: Step, n: nat)
    requires Inv(w) && Enabled(w, s) && n <= w.wake && Sure(w, n)
    ensures StepsLeft(After(w, s), n) <= StepsLeft(w, n)
    ensures IsWorkers(s) && StepsLeft(w, n) > 0 ==> StepsLeft(After(w, s), n) < StepsLeft(w, n)
  {
    if w.served < n {
      assert WorkerOk(w, w.record.value);
      assert s.TryLock? ==> WorkerOk(w, s.p);
      assert s.Announce? ==> WorkerOk(w, s.p);
      assert s.ReadCounter? ==> WorkerOk(w, s.p);
      assert s.Scan? ==> WorkerOk(w, s.p);
      assert s.Leave? ==> WorkerOk(w, s.p);
      assert s.Unlock? ==> WorkerOk(w, s.p);
    }
  }

  function WorkerSteps(steps: seq<Step>): nat {
    if steps == [] then 0 else (if IsWorkers(steps[0]) then 1 else 0) + WorkerSteps(steps[1..])
  }

  lemma {:induction false} RunGetsCloser(w: World, steps: seq<Step>, n: nat)
    requires Inv(w) && Run(w, steps) && n <= w.wake && Sure(w, n)
    ensures StepsLeft(Final(w, steps), n) <= (if WorkerSteps(steps) < StepsLeft(w, n) then StepsLeft(w, n) - WorkerSteps(steps) else 0)
    decreases |steps|
  {
    if steps != [] {
      StepKeeps(w, steps[0]);
      StepGetsCloser(w, steps[0], n);
      StaysSure(w, steps[0], n);
      RunGetsCloser(After(w, steps[0]), steps[1..], n);
    }
  }

  /**
   A wake-up counted outside the window is served: whatever submitters do in
   between, after four more steps of workers a scan has begun that read the
   counter after it.
   */
  lemma WakeUpIsServed(before: seq<Step>, p: Pid, more: seq<Step>)
    requires Run(INITIAL, before) && Enabled(Final(INITIAL, before), Submit(p)) && !InWindow(Final(INITIAL, before))
    requires Run(After(Final(INITIAL, before), Submit(p)), more) && WorkerSteps(more) >= 4
    ensures Final(After(Final(INITIAL, before), Submit(p)), more).served >= Final(INITIAL, before).wake + 1
  {
    Reached(before);
    var w := Final(INITIAL, before);
    var t := After(w, Submit(p));
    var n := w.wake + 1;
    StepKeeps(w, Submit(p));
    SubmitIsSure(w, p);
    RunGetsCloser(t, more, n);
    RunStaysSure(t, more, n);
  }
}
