/** The order of strings, and sorting. */
module Ordering {
  import opened Common

  /** Code point by code point. */
  predicate Less(a: string, b: string) {
    b != [] && (a == [] || a[0] < b[0] || (a[0] == b[0] && Less(a[1..], b[1..])))
  }

  /** `a` is a proper prefix of `b`, or has the smaller character where they first differ. */
  predicate ComesBefore(a: string, b: string) {
    exists n: nat :: n <= |a| && n <= |b| && a[..n] == b[..n] && n < |b| && (n == |a| || a[n] < b[n])
  }

  lemma {:induction false} LessMeans(a: string, b: string)
    ensures Less(a, b) <==> ComesBefore(a, b)
    decreases |a|
  {
    if a != [] && b != [] && a[0] == b[0] {
      LessMeans(a[1..], b[1..]);
      if ComesBefore(a[1..], b[1..]) {
        var n: nat :| n <= |a[1..]| && n <= |b[1..]| && a[1..][..n] == b[1..][..n] && n < |b[1..]| && (n == |a[1..]| || a[1..][n] < b[1..][n]);
        PrefixOneMore(a, b, n);
      }
      if ComesBefore(a, b) {
        var n: nat :| n <= |a| && n <= |b| && a[..n] == b[..n] && n < |b| && (n == |a| || a[n] < b[n]);
        PrefixOneLess(a, b, n);
      }
    } else if Less(a, b) {
      assert a[..0] == b[..0];
    } else if ComesBefore(a, b) {
      var n: nat :| n <= |a| && n <= |b| && a[..n] == b[..n] && n < |b| && (n == |a| || a[n] < b[n]);
      SamePrefix(a, b, n);
    }
  }

  lemma SamePrefix(a: string, b: string, n: nat)
    requires n <= |a| && n <= |b| && a[..n] == b[..n]
    ensures forall k :: 0 <= k < n ==> a[k] == b[k]
  {
    forall k | 0 <= k < n ensures a[k] == b[k] {
      assert a[..n][k] == b[..n][k];
    }
  }

  lemma PrefixOneMore(a: string, b: string, n: nat)
    requires a != [] && b != [] && a[0] == b[0] && n <= |a| - 1 && n < |b| - 1 && a[1..][..n] == b[1..][..n]
    requires n == |a| - 1 || a[1..][n] < b[1..][n]
    ensures ComesBefore(a, b)
  {
    assert a[..n + 1] == [a[0]] + a[1..][..n] && b[..n + 1] == [b[0]] + b[1..][..n];
  }

  lemma PrefixOneLess(a: string, b: string, n: nat)
    requires a != [] && b != [] && a[0] == b[0] && n <= |a| && n < |b| && a[..n] == b[..n] && (n == |a| || a[n] < b[n])
    ensures ComesBefore(a[1..], b[1..])
  {
    assert n > 0;
    assert a[1..][..n - 1] == a[..n][1..] && b[1..][..n - 1] == b[..n][1..];
  }

  lemma {:induction false} LessTotal(a: string, b: string)
    ensures a == b || Less(a, b) || Less(b, a)
  {
    if a != [] && b != [] && a[0] == b[0] {
      LessTotal(a[1..], b[1..]);
      assert a == [a[0]] + a[1..] && b == [b[0]] + b[1..];
    }
  }

  lemma {:induction false} LessTrans(a: string, b: string, c: string)
    requires Less(a, b) && Less(b, c)
    ensures Less(a, c)
  {
    if a != [] && a[0] == b[0] == c[0] {
      LessTrans(a[1..], b[1..], c[1..]);
    }
  }

  lemma {:induction false} LessIrreflexive(a: string)
    ensures !Less(a, a)
  {
    if a != [] {
      LessIrreflexive(a[1..]);
    }
  }

  predicate Ascending(xs: seq<string>) {
    forall i, j :: 0 <= i < j < |xs| ==> Less(xs[i], xs[j])
  }

  /** `x` in its place, once. */
  function Insert(x: string, xs: seq<string>): (r: seq<string>)
    ensures forall y :: y in r <==> y == x || y in xs
  {
    if xs == [] || Less(x, xs[0]) then [x] + xs
    else if x == xs[0] then xs
    else
      assert xs == [xs[0]] + xs[1..];
      [xs[0]] + Insert(x, xs[1..])
  }

  /** The distinct strings of `xs`, ascending. */
  function Sorted(xs: seq<string>): (r: seq<string>)
    ensures forall y :: y in r <==> y in xs
  {
    if xs == [] then [] else Insert(xs[0], Sorted(xs[1..]))
  }

  lemma {:induction false} InsertAscends(x: string, xs: seq<string>)
    requires Ascending(xs)
    ensures Ascending(Insert(x, xs))
  {
    if xs != [] && Less(x, xs[0]) {
      forall i | 0 <= i < |xs| ensures Less(x, xs[i]) {
        if i > 0 {
          LessTrans(x, xs[0], xs[i]);
        }
      }
    } else if xs != [] && x != xs[0] {
      LessTotal(x, xs[0]);
      InsertAscends(x, xs[1..]);
      var r := Insert(x, xs[1..]);
      forall i | 0 <= i < |r| ensures Less(xs[0], r[i]) {
        assert r[i] in r;
      }
    }
  }

  lemma {:induction false} SortedAscends(xs: seq<string>)
    ensures Ascending(Sorted(xs))
  {
    if xs != [] {
      SortedAscends(xs[1..]);
      InsertAscends(xs[0], Sorted(xs[1..]));
    }
  }

  /** There is one way to write a set in ascending order. */
  lemma {:induction false} AscendingIsUnique(xs: seq<string>, ys: seq<string>)
    requires Ascending(xs) && Ascending(ys) && forall x :: x in xs <==> x in ys
    ensures xs == ys
  {
    if xs == [] {
      NoMembers(ys);
    } else {
      assert xs[0] in ys && ys != [] && ys[0] in xs;
      FirstIsLeast(xs, ys[0]);
      FirstIsLeast(ys, xs[0]);
      if xs[0] != ys[0] {
        LessTrans(xs[0], ys[0], xs[0]);
        LessIrreflexive(xs[0]);
        assert false;
      }
      forall x ensures x in xs[1..] <==> x in ys[1..] {
        InTail(xs, x);
        InTail(ys, x);
      }
      AscendingIsUnique(xs[1..], ys[1..]);
      assert xs == [xs[0]] + xs[1..] && ys == [ys[0]] + ys[1..];
    }
  }

  lemma FirstIsLeast(xs: seq<string>, x: string)
    requires Ascending(xs) && x in xs
    ensures xs[0] == x || Less(xs[0], x)
  {
    var i :| 0 <= i < |xs| && xs[i] == x;
  }

  lemma InTail(xs: seq<string>, x: string)
    requires Ascending(xs) && xs != []
    ensures x in xs[1..] <==> x in xs && x != xs[0]
  {
    LessIrreflexive(xs[0]);
    if x in xs[1..] {
      var i :| 0 <= i < |xs| - 1 && xs[1..][i] == x;
      assert Less(xs[0], xs[i + 1]);
    }
  }
}
