/**
 The clients of an SDK runner and its shutdown. Every method is one section
 under the runner's condition lock; the call that closes a client runs between
 two of them. Turns and closers interleave freely.
 */
module ClientLeases {

  type Client = nat
  type Closer = nat

  datatype Lease = Lease(active: nat, closing: bool)

  /** A caller of `close` waits for the drain if it is the first, else for the completion: asleep until a notification, or awake and about to look. */
  datatype Wait = Asleep(first: bool) | Awake(first: bool) | Done

  /** `acquired` and `closes` are history: every client ever acquired, and how often each was closed. */
  datatype State = State(
    leases: map<Client, Lease>, active: nat, closing: nat, closed: bool, complete: bool,
    closers: map<Closer, Wait>, acquired: set<Client>, closes: map<Client, nat>)

  const INITIAL := State(map[], 0, 0, false, false, map[], {}, map[])

  datatype Step =
    | Acquire(c: Client)
    | Release(c: Client)
    | Closed(c: Client)
    | BeginClose(t: Closer)
    | Wake(t: Closer)

  /** A turn releases what it acquired, a close follows its scheduling, a new client is new; closers are distinct calls. */
  predicate Enabled(s: State, x: Step) {
    match x
    case Acquire(c) => c !in s.acquired
    case Release(c) => c in s.leases && s.leases[c].active > 0
    case Closed(c) => c in s.leases && s.leases[c].closing
    case BeginClose(t) => t !in s.closers
    case Wake(t) => t in s.closers && s.closers[t].Awake?
  }

  /** Refused once closing has begun. */
  function AfterAcquire(s: State, c: Client): State {
    if s.closed then s
    else s.(leases := s.leases[c := Lease(1, false)], active := s.active + 1, acquired := s.acquired + {c}, closes := s.closes[c := 0])
  }

  function NotifyAll(closers: map<Closer, Wait>): map<Closer, Wait> {
    map t | t in closers :: if closers[t].Asleep? then Awake(closers[t].first) else closers[t]
  }

  /** The last call of a client schedules its close; the last call of all notifies. */
  function AfterRelease(s: State, c: Client): State
    requires c in s.leases && s.leases[c].active > 0
  {
    var lease := s.leases[c].(active := s.leases[c].active - 1);
    var close := lease.active == 0 && !lease.closing;
    var active := if s.active > 0 then s.active - 1 else 0;
    s.(leases := s.leases[c := if close then lease.(closing := true) else lease],
       active := active,
       closing := s.closing + if close then 1 else 0,
       closers := if active == 0 then NotifyAll(s.closers) else s.closers)
  }

  /** The client has been closed. */
  function AfterClosed(s: State, c: Client): State {
    s.(leases := s.leases - {c},
       closing := if s.closing > 0 then s.closing - 1 else 0,
       closers := NotifyAll(s.closers),
       closes := s.closes[c := (if c in s.closes then s.closes[c] else 0) + 1])
  }

  /** A closer looks at what it waits for; the first one, when it returns, notifies the others. */
  function AfterLook(s: State, t: Closer, first: bool): State {
    if first && s.active == 0 && s.closing == 0 then s.(complete := true, closers := NotifyAll(s.closers)[t := Done])
    else if !first && s.complete then s.(closers := s.closers[t := Done])
    else s.(closers := s.closers[t := Asleep(first)])
  }

  function AfterBeginClose(s: State, t: Closer): State {
    AfterLook(s.(closed := true), t, !s.closed)
  }

  function AfterWake(s: State, t: Closer): State
    requires t in s.closers && s.closers[t].Awake?
  {
    AfterLook(s, t, s.closers[t].first)
  }

  function After(s: State, x: Step): State
    requires Enabled(s, x)
  {
    match x
    case Acquire(c) => AfterAcquire(s, c)
    case Release(c) => AfterRelease(s, c)
    case Closed(c) => AfterClosed(s, c)
    case BeginClose(t) => AfterBeginClose(s, t)
    case Wake(t) => AfterWake(s, t)
  }

  predicate Run(s: State, steps: seq<Step>)
    decreases |steps|
  {
    steps == [] || (Enabled(s, steps[0]) && Run(After(s, steps[0]), steps[1..]))
  }

  function Final(s: State, steps: seq<Step>): State
    requires Run(s, steps)
    decreases |steps|
  {
    if steps == [] then s else Final(After(s, steps[0]), steps[1..])
  }

  // ---------- the counters ----------

  function InUse(leases: map<Client, Lease>): set<Client> {
    set c | c in leases && leases[c].active > 0
  }

  function BeingClosed(leases: map<Client, Lease>): set<Client> {
    set c | c in leases && leases[c].closing
  }

  /** A lease serves one call, or its client is being closed. */
  ghost predicate LeasesOk(s: State) {
    && (forall c :: c in s.leases ==> c in s.acquired && (s.leases[c] == Lease(1, false) || s.leases[c] == Lease(0, true)))
    && s.active == |InUse(s.leases)| && s.closing == |BeingClosed(s.leases)|
  }

  /** A client is closed once, when its lease goes. */
  ghost predicate ClosesOk(s: State) {
    && (forall c :: c in s.acquired <==> c in s.closes)
    && forall c :: c in s.acquired ==> s.closes[c] == if c in s.leases then 0 else 1
  }

  /** A closer sleeps only while what it waits for is still to come, and the first one is there to announce the completion. */
  ghost predicate ClosersOk(s: State) {
    && (s.complete ==> s.closed && s.leases == map[])
    && (forall t :: t in s.closers ==> CloserOk(s, t))
    && (s.closed && !s.complete ==> exists t :: IsFirst(s, t))
  }

  ghost predicate CloserOk(s: State, t: Closer)
    requires t in s.closers
  {
    s.closed &&
    match s.closers[t]
    case Done => s.complete
    case Awake(first) => first ==> !s.complete
    case Asleep(first) => !s.complete && (first ==> s.active > 0 || s.closing > 0)
  }

  ghost predicate IsFirst(s: State, t: Closer) {
    t in s.closers && !s.closers[t].Done? && s.closers[t].first
  }

  ghost predicate Inv(s: State) {
    LeasesOk(s) && ClosesOk(s) && ClosersOk(s) && OneFirst(s)
  }

  lemma AcquireCounts(s: State, c: Client)
    requires LeasesOk(s) && c !in s.acquired
    ensures LeasesOk(AfterAcquire(s, c))
  {
    if !s.closed {
      var t := AfterAcquire(s, c);
      assert InUse(t.leases) == InUse(s.leases) + {c};
      assert BeingClosed(t.leases) == BeingClosed(s.leases);
    }
  }

  /** A new client is leased to its caller unless closing has begun; nothing else changes. */
  lemma AcquireLeaves(s: State, c: Client)
    requires Inv(s) && Enabled(s, Acquire(c))
    ensures var n := After(s, Acquire(c));
            if s.closed then n == s
            else
              && c in n.leases && n.leases[c].active == 1 && !n.leases[c].closing && n.active == s.active + 1 && n.acquired == s.acquired + {c}
              && (forall d :: d in s.leases ==> d in n.leases && n.leases[d] == s.leases[d]) && (forall d :: d in n.leases ==> d == c || d in s.leases)
              && n.closing == s.closing && n.closers == s.closers && n.closed == s.closed && n.complete == s.complete
  {
    assert c !in s.leases;
  }

  lemma ReleaseCounts(s: State, c: Client)
    requires LeasesOk(s) && c in s.leases && s.leases[c].active > 0
    ensures LeasesOk(AfterRelease(s, c)) && s.active > 0
  {
    var t := AfterRelease(s, c);
    assert c in InUse(s.leases);
    assert InUse(t.leases) == InUse(s.leases) - {c};
    assert BeingClosed(t.leases) == BeingClosed(s.leases) + {c};
  }

  lemma ClosedCounts(s: State, c: Client)
    requires LeasesOk(s) && c in s.leases && s.leases[c].closing
    ensures LeasesOk(AfterClosed(s, c)) && s.closing > 0
  {
    var t := AfterClosed(s, c);
    assert c in BeingClosed(s.leases);
    assert InUse(t.leases) == InUse(s.leases);
    assert BeingClosed(t.leases) == BeingClosed(s.leases) - {c};
  }

  lemma CountersAfter(s: State, x: Step)
    requires Inv(s) && Enabled(s, x)
    ensures LeasesOk(After(s, x))
  {
    match x {
      case Acquire(c) => AcquireCounts(s, c);
      case Release(c) => ReleaseCounts(s, c);
      case Closed(c) => ClosedCounts(s, c);
      case _ =>
    }
  }

  /** With both counters at zero no lease is left. */
  lemma DrainedIsEmpty(s: State)
    requires LeasesOk(s) && s.active == 0 && s.closing == 0
    ensures s.leases == map[]
  {
    assert InUse(s.leases) == {} && BeingClosed(s.leases) == {};
    assert s.leases.Keys == InUse(s.leases) + BeingClosed(s.leases);
  }

  ghost predicate OneFirst(s: State) {
    forall t, u :: IsFirst(s, t) && IsFirst(s, u) ==> t == u
  }

  /** Looking keeps the closers in order: the first completes the shutdown, another one returns after it. */
  lemma LookKeeps(s: State, t: Closer, first: bool)
    requires LeasesOk(s) && s.closed && (s.complete ==> s.leases == map[])
    requires forall u :: u in s.closers && u != t ==> CloserOk(s, u)
    requires first ==> !s.complete
    requires forall u :: IsFirst(s, u) && u != t ==> !first
    requires !s.complete ==> first || exists u :: u != t && IsFirst(s, u)
    ensures ClosersOk(AfterLook(s, t, first))
  {
    var n := AfterLook(s, t, first);
    if first {
      if s.active == 0 && s.closing == 0 {
        DrainedIsEmpty(s);
      } else {
        assert IsFirst(n, t);
      }
    } else if !s.complete {
      var u :| u != t && IsFirst(s, u);
      assert IsFirst(n, u);
    }
    forall u | u in n.closers && u != t ensures CloserOk(n, u) {
      assert CloserOk(s, u);
      assert !first || !IsFirst(s, u);
    }
  }

  lemma NotifyKeeps(s: State, n: State)
    requires ClosersOk(s) && n.closers == NotifyAll(s.closers) && n.closed == s.closed && n.complete == s.complete
    requires s.complete ==> n.leases == map[]
    ensures ClosersOk(n)
  {
    forall t | t in n.closers ensures CloserOk(n, t) {
      assert CloserOk(s, t);
    }
    if s.closed && !s.complete {
      var t :| IsFirst(s, t);
      assert IsFirst(n, t);
    }
  }

  lemma ClosersAfter(s: State, x: Step)
    requires Inv(s) && Enabled(s, x)
    ensures ClosersOk(After(s, x))
  {
    var n := After(s, x);
    match x {
      case Acquire(c) =>
        assert forall t :: t in s.closers ==> CloserOk(s, t);
      case Release(c) =>
        ReleaseCounts(s, c);
        if n.active == 0 {
          NotifyKeeps(s, n);
        } else {
          SameClosers(s, n);
        }
      case Closed(c) => NotifyKeeps(s, n);
      case BeginClose(t) =>
        var m := s.(closed := true);
        forall u | u in m.closers ensures CloserOk(m, u) {
          assert CloserOk(s, u);
        }
        if s.closed && !s.complete {
          var u :| IsFirst(s, u);
          assert IsFirst(m, u);
        }
        LookKeeps(m, t, !s.closed);
      case Wake(t) =>
        assert CloserOk(s, t);
        if !s.complete && !s.closers[t].first {
          var u :| IsFirst(s, u);
          assert u != t;
        }
        assert IsFirst(s, t) <==> s.closers[t].first;
        LookKeeps(s, t, s.closers[t].first);
    }
  }

  /** Turns go on while a closer sleeps. */
  lemma SameClosers(s: State, n: State)
    requires ClosersOk(s) && n.closers == s.closers && n.closed == s.closed && n.complete == s.complete && n.active > 0
    requires s.complete ==> n.leases == map[]
    ensures ClosersOk(n)
  {
    forall t | t in n.closers ensures CloserOk(n, t) {
      assert CloserOk(s, t);
    }
    if s.closed && !s.complete {
      var t :| IsFirst(s, t);
      assert IsFirst(n, t);
    }
  }

  lemma OneFirstAfter(s: State, x: Step)
    requires Inv(s) && Enabled(s, x)
    ensures OneFirst(After(s, x))
  {
    var n := After(s, x);
    forall t, u | IsFirst(n, t) && IsFirst(n, u) ensures t == u {
      assert x.BeginClose? && !s.closed ==> forall v :: v !in s.closers;
      assert IsFirst(s, t) || x == BeginClose(t);
      assert IsFirst(s, u) || x == BeginClose(u);
    }
  }

  lemma StepKeeps(s: State, x: Step)
    requires Inv(s) && Enabled(s, x)
    ensures Inv(After(s, x))
  {
    CountersAfter(s, x);
    ClosersAfter(s, x);
    OneFirstAfter(s, x);
  }

  lemma {:induction false} RunKeeps(s: State, steps: seq<Step>)
    requires Inv(s) && Run(s, steps)
    ensures Inv(Final(s, steps))
    decreases |steps|
  {
    if steps != [] {
      StepKeeps(s, steps[0]);
      RunKeeps(After(s, steps[0]), steps[1..]);
    }
  }

  lemma {:induction false} ClosedAcquiresNone(s: State, steps: seq<Step>)
    requires Run(s, steps) && s.closed
    ensures Final(s, steps).closed && Final(s, steps).acquired == s.acquired
    decreases |steps|
  {
    if steps != [] {
      ClosedAcquiresNone(After(s, steps[0]), steps[1..]);
    }
  }

  /**
   Under any interleaving, once some call of `close` has returned, every client
   ever acquired has been closed exactly once, no lease is left, and both
   counters are zero; from the first call on nothing more is acquired.
   */
  lemma ShutdownWaitsForEverything(steps: seq<Step>, more: seq<Step>, t: Closer)
    requires Run(INITIAL, steps) && t in Final(INITIAL, steps).closers && Run(Final(INITIAL, steps), more)
    ensures var s := Final(INITIAL, steps);
            && Final(s, more).acquired == s.acquired
            && (s.closers[t] == Done ==> s.leases == map[] && s.active == 0 && s.closing == 0 && forall c :: c in s.acquired ==> c in s.closes && s.closes[c] == 1)
  {
    assert Inv(INITIAL);
    RunKeeps(INITIAL, steps);
    ClosedAcquiresNone(Final(INITIAL, steps), more);
  }

  /** The counters always say how many clients are in use and being closed, and no client is closed twice. */
  lemma CountersAreExact(steps: seq<Step>)
    requires Run(INITIAL, steps)
    ensures var s := Final(INITIAL, steps);
            && s.active == |InUse(s.leases)| && s.closing == |BeingClosed(s.leases)|
            && InUse(s.leases) + BeingClosed(s.leases) == s.leases.Keys && InUse(s.leases) !! BeingClosed(s.leases)
            && forall c :: c in s.closes ==> s.closes[c] <= 1
  {
    assert Inv(INITIAL);
    RunKeeps(INITIAL, steps);
    InUseOrClosing(Final(INITIAL, steps));
  }

  lemma InUseOrClosing(s: State)
    requires LeasesOk(s) && ClosesOk(s)
    ensures InUse(s.leases) + BeingClosed(s.leases) == s.leases.Keys && InUse(s.leases) !! BeingClosed(s.leases)
    ensures forall c :: c in s.closes ==> s.closes[c] <= 1
  {}

  // ---------- nobody waits for ever ----------

  predicate OnlyWakes(steps: seq<Step>) {
    forall i :: 0 <= i < |steps| ==> steps[i].Wake?
  }

  function AwakeOnes(closers: map<Closer, Wait>): set<Closer> {
    set t | t in closers && closers[t].Awake?
  }

  /** How many looks are left once nothing is leased. */
  ghost function LooksLeft(s: State): nat {
    |AwakeOnes(s.closers)| + if s.complete then 0 else |s.closers|
  }

  lemma WakeCounts(s: State, t: Closer)
    requires Inv(s) && s.leases == map[] && Enabled(s, Wake(t))
    ensures AfterWake(s, t).leases == map[] && AfterWake(s, t).closers.Keys == s.closers.Keys && LooksLeft(AfterWake(s, t)) < LooksLeft(s)
  {
    assert InUse(s.leases) == {} && BeingClosed(s.leases) == {};
    var n := AfterWake(s, t);
    assert t in AwakeOnes(s.closers) && CloserOk(s, t);
    if s.closers[t].first {
      assert AwakeOnes(n.closers) <= s.closers.Keys - {t};
      SubsetSmaller(AwakeOnes(n.closers), s.closers.Keys - {t});
      assert |s.closers.Keys - {t}| == |s.closers| - 1;
    } else {
      assert AwakeOnes(n.closers) == AwakeOnes(s.closers) - {t};
    }
    assert n.closers.Keys == s.closers.Keys;
    assert |n.closers| == |n.closers.Keys| && |s.closers| == |s.closers.Keys|;
  }

  lemma {:induction false} SubsetSmaller(a: set<Closer>, b: set<Closer>)
    requires a <= b
    ensures |a| <= |b|
  {
    if a != {} {
      var x :| x in a;
      SubsetSmaller(a - {x}, b - {x});
    }
  }

  lemma {:induction false} WakesEnd(s: State, steps: seq<Step>)
    requires Inv(s) && s.leases == map[] && Run(s, steps) && OnlyWakes(steps)
    ensures |steps| <= LooksLeft(s) && Final(s, steps).leases == map[]
    decreases |steps|
  {
    if steps != [] {
      assert steps[0].Wake?;
      StepKeeps(s, steps[0]);
      WakeCounts(s, steps[0].t);
      WakesEnd(After(s, steps[0]), steps[1..]);
    }
  }

  lemma FirstIsAwake(s: State)
    requires ClosersOk(s) && s.active == 0 && s.closing == 0 && s.closed && !s.complete
    ensures exists t :: t in s.closers && s.closers[t].Awake?
  {
    var t :| IsFirst(s, t);
    assert CloserOk(s, t);
  }

  /**
   No closer sleeps for ever: once no lease is left, the closers that have been
   notified look at most twice each, whatever the order, and when none of them is
   left to look, all have returned.
   */
  lemma NobodySleepsForEver(steps: seq<Step>, wakes: seq<Step>)
    requires Run(INITIAL, steps) && Final(INITIAL, steps).leases == map[]
    requires Run(Final(INITIAL, steps), wakes) && OnlyWakes(wakes)
    ensures var s := Final(INITIAL, steps);
            var t := Final(s, wakes);
            && |wakes| <= 2 * |s.closers|
            && ((forall u :: u in t.closers ==> !t.closers[u].Awake?) ==> forall u :: u in t.closers ==> t.closers[u].Done?)
  {
    assert Inv(INITIAL);
    RunKeeps(INITIAL, steps);
    var s := Final(INITIAL, steps);
    WakesEnd(s, wakes);
    SubsetSmaller(AwakeOnes(s.closers), s.closers.Keys);
    RunKeeps(s, wakes);
    var t := Final(s, wakes);
    assert InUse(t.leases) == {} && BeingClosed(t.leases) == {};
    if t.closed && !t.complete {
      FirstIsAwake(t);
    }
    assert forall u :: u in t.closers ==> CloserOk(t, u);
  }

  // ---------- the runner ----------

  class CodexSdkRunner {
    var leases: map<Client, Lease>
    var activeCalls: nat
    var closingClients: nat
    var closed: bool
    var complete: bool
    ghost var closers: map<Closer, Wait>
    ghost var acquired: set<Client>
    ghost var closes: map<Client, nat>

    constructor ()
      ensures View() == INITIAL
    {
      leases, activeCalls, closingClients, closed, complete := map[], 0, 0, false, false;
      closers, acquired, closes := map[], {}, map[];
    }

    ghost function View(): State
      reads this
    {
      State(leases, activeCalls, closingClients, closed, complete, closers, acquired, closes)
    }

    method AcquireCodex(c: Client) returns (ok: bool)
      requires Enabled(View(), Acquire(c))
      modifies this
      ensures View() == After(old(View()), Acquire(c)) && ok == !old(closed)
    {
      if closed {
        return false;
      }
      leases := leases[c := Lease(1, false)];
      activeCalls := activeCalls + 1;
      acquired, closes := acquired + {c}, closes[c := 0];
      return true;
    }

    /** The first section of a release; `close` tells the caller to close the client. */
    method ReleaseCodex(c: Client) returns (close: bool)
      requires Inv(View()) && Enabled(View(), Release(c))
      modifies this
      ensures View() == After(old(View()), Release(c)) && close == View().leases[c].closing
    {
      ReleaseCounts(View(), c);
      leases := leases[c := leases[c].(active := leases[c].active - 1)];
      activeCalls := activeCalls - 1;
      close := ScheduleRetiredClose(c);
      if activeCalls == 0 {
        closers := NotifyAll(closers);
      }
    }

    method ScheduleRetiredClose(c: Client) returns (close: bool)
      requires c in leases
      modifies this`leases, this`closingClients
      ensures close == (old(leases)[c].active == 0 && !old(leases)[c].closing)
      ensures leases == if close then old(leases)[c := old(leases)[c].(closing := true)] else old(leases)
      ensures closingClients == old(closingClients) + if close then 1 else 0
    {
      if leases[c].active > 0 || leases[c].closing {
        return false;
      }
      leases := leases[c := leases[c].(closing := true)];
      closingClients := closingClients + 1;
      return true;
    }

    /** The section after the client's own close, which may have failed. */
    method FinishClose(c: Client)
      requires Inv(View()) && Enabled(View(), Closed(c))
      modifies this
      ensures View() == After(old(View()), Closed(c))
    {
      ClosedCounts(View(), c);
      leases := leases - {c};
      closingClients := closingClients - 1;
      closers := NotifyAll(closers);
      closes := closes[c := (if c in closes then closes[c] else 0) + 1];
    }

    /** The first section of `close`; the first caller waits for the drain, the others for the completion. */
    method BeginShutdown(t: Closer) returns (isFirst: bool, done: bool)
      requires Enabled(View(), BeginClose(t))
      modifies this
      ensures View() == After(old(View()), BeginClose(t)) && isFirst == !old(closed)
      ensures done <==> View().closers[t] == Done
    {
      isFirst := !closed;
      closed := true;
      done := Look(t, isFirst);
    }

    /** One turn of the waiting loop of `close`. */
    method CheckShutdown(t: Closer, isFirst: bool) returns (done: bool)
      requires Enabled(View(), Wake(t)) && (isFirst <==> closers[t].first)
      modifies this
      ensures View() == After(old(View()), Wake(t)) && (done <==> View().closers[t] == Done)
    {
      done := Look(t, isFirst);
    }

    /** The first one completes the shutdown and notifies; who has to wait sleeps. */
    method Look(t: Closer, isFirst: bool) returns (done: bool)
      modifies this`complete, this`closers
      ensures View() == AfterLook(old(View()), t, isFirst) && (done <==> View().closers[t] == Done)
    {
      if isFirst {
        done := activeCalls == 0 && closingClients == 0;
        if done {
          complete := true;
          closers := NotifyAll(closers);
        }
      } else {
        done := complete;
      }
      closers := closers[t := if done then Done else Asleep(isFirst)];
    }
  }
}
