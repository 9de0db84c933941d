/** Small shared datatypes and facts about sequences. */
module Common {

  datatype Option<+T> = None | Some(value: T)

  /** How a call ends: it returns, raises, or the process dies inside it. */
  datatype Exit = Returned | Raised | Crashed

  /** The elements of `xs` that satisfy `keep`, in order. */
  function Filter<T>(keep: T -> bool, xs: seq<T>): (r: seq<T>)
    ensures |r| <= |xs|
  {
    if xs == [] then []
    else if keep(xs[0]) then [xs[0]] + Filter(keep, xs[1..])
    else Filter(keep, xs[1..])
  }

  lemma {:induction false} FilterMembers<T>(keep: T -> bool, xs: seq<T>)
    ensures forall x :: x in Filter(keep, xs) <==> x in xs && keep(x)
  {
    if xs != [] {
      FilterMembers(keep, xs[1..]);
      assert xs == [xs[0]] + xs[1..];
    }
  }

  /** An element more counts once more. */
  lemma FirstCounts<T>(xs: seq<T>, x: T)
    requires xs != []
    ensures multiset(xs)[x] == multiset(xs[1..])[x] + if x == xs[0] then 1 else 0
  {
    assert xs == [xs[0]] + xs[1..];
  }

  lemma Assoc<T>(a: seq<T>, b: seq<T>, c: seq<T>)
    ensures a + (b + c) == (a + b) + c
  {}

  lemma FirstOfBoth<T>(xs: seq<T>, ys: seq<T>)
    requires xs != []
    ensures (xs + ys)[0] == xs[0] && (xs + ys)[1..] == xs[1..] + ys && xs + ys != []
  {}

  lemma {:induction false} FilterAppend<T>(keep: T -> bool, xs: seq<T>, ys: seq<T>)
    ensures Filter(keep, xs + ys) == Filter(keep, xs) + Filter(keep, ys)
  {
    if xs == [] {
      assert xs + ys == ys;
    } else {
      FirstOfBoth(xs, ys);
      FilterAppend(keep, xs[1..], ys);
      Assoc([xs[0]], Filter(keep, xs[1..]), Filter(keep, ys));
    }
  }

  lemma {:induction false} FilterSnoc<T>(keep: T -> bool, xs: seq<T>, x: T)
    ensures Filter(keep, xs + [x]) == Filter(keep, xs) + (if keep(x) then [x] else [])
  {
    FilterAppend(keep, xs, [x]);
    assert [x][1..] == [];
  }

  lemma {:induction false} FilterAll<T>(keep: T -> bool, xs: seq<T>)
    requires forall x :: x in xs ==> keep(x)
    ensures Filter(keep, xs) == xs
  {
    if xs != [] {
      FilterAll(keep, xs[1..]);
    }
  }

  /** A prefix whose elements all pass survives filtering as a prefix. */
  lemma {:induction false} FilterKeepsPrefix<T>(keep: T -> bool, xs: seq<T>, n: nat)
    requires n <= |xs|
    requires forall x :: x in xs[..n] ==> keep(x)
    ensures n <= |Filter(keep, xs)| && Filter(keep, xs)[..n] == xs[..n]
  {
    FilterAppend(keep, xs[..n], xs[n..]);
    FilterAll(keep, xs[..n]);
    assert xs == xs[..n] + xs[n..];
  }

  lemma {:induction false} SameFilter<T>(f: T -> bool, g: T -> bool, xs: seq<T>)
    requires forall x :: x in xs ==> f(x) == g(x)
    ensures Filter(f, xs) == Filter(g, xs)
  {
    if xs != [] {
      SameFilter(f, g, xs[1..]);
    }
  }

  lemma HasMember<T>(xs: seq<T>)
    requires xs != []
    ensures exists x :: x in xs
  {
    assert xs[0] in xs;
  }

  lemma NoMembers<T>(xs: seq<T>)
    requires forall x :: x !in xs
    ensures xs == []
  {
    if xs != [] {
      HasMember(xs);
    }
  }

  lemma TakeOne<T>(xs: seq<T>, i: nat)
    requires i < |xs|
    ensures xs[..i + 1] == xs[..i] + [xs[i]]
  {}

  lemma TakeAll<T>(xs: seq<T>)
    ensures xs[..|xs|] == xs && xs[..0] == []
  {}

  lemma Rejoin<T>(xs: seq<T>, a: nat, b: nat)
    requires a <= b <= |xs|
    ensures xs[..a] + xs[a..b] + xs[b..] == xs
  {}

  function Elements<T>(xs: seq<T>): set<T> {
    set x | x in xs
  }

  predicate Distinct<T(==)>(xs: seq<T>) {
    forall i, j :: 0 <= i < j < |xs| ==> xs[i] != xs[j]
  }

  lemma NotBefore<T>(xs: seq<T>, i: nat)
    requires Distinct(xs) && i < |xs|
    ensures xs[i] !in xs[..i]
  {
    forall j | 0 <= j < i ensures xs[..i][j] != xs[i] {
      assert xs[..i][j] == xs[j];
    }
  }

  /** How a call with `writes` durable writes ends that may make `power` of them. */
  function ExitOf(writes: nat, ok: bool, power: nat): Exit {
    if power < writes then Crashed else if ok then Returned else Raised
  }

  function PowerAfter(writes: nat, power: nat): nat {
    if power < writes then 0 else power - writes
  }
}
