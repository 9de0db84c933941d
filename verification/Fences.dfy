/** Fenced blocks and headings, told from the characters and lines of a document. */
module Fences {
  import opened Common
  import opened Lines

  // ---------- characters ----------

  predicate AllAre(s: string, from: nat, to: nat, c: char)
    requires from <= to <= |s|
  {
    forall k :: from <= k < to ==> s[k] == c
  }

  /** After `i` blanks, at most three, the mark stands `n` times, at least three and no more. */
  predicate IsFenceAt(line: string, i: nat, mark: char, n: nat) {
    && i <= 3 && n >= 3 && i + n <= |line| && AllAre(line, 0, i, ' ') && (mark == '`' || mark == '~')
    && AllAre(line, i, i + n, mark) && (i + n == |line| || line[i + n] != mark)
  }

  lemma {:induction false} SkipStops(f: char -> bool, s: string, i: nat, n: nat)
    requires i <= n <= |s| && (forall k :: i <= k < n ==> f(s[k])) && (n < |s| ==> !f(s[n]))
    ensures Skip(f, s, i) == n
    decreases n - i
  {
    if i < n {
      SkipStops(f, s, i + 1, n);
    }
  }

  lemma FenceIs(line: string, i: nat, mark: char, n: nat)
    requires IsFenceAt(line, i, mark, n)
    ensures FenceOf(line) == Some(Fence(mark, n))
  {
    SkipStops(c => c == ' ', line, 0, i);
    SkipStops(c => c == line[i], line, i, i + n);
  }

  /** A line is a fence exactly if it begins with at most three blanks and three or more of one mark. */
  lemma FenceMeans(line: string)
    ensures FenceOf(line).Some? <==> exists i, mark, n :: IsFenceAt(line, i, mark, n)
    ensures FenceOf(line).Some? ==> exists i :: IsFenceAt(line, i, FenceOf(line).value.mark, FenceOf(line).value.length)
  {
    if FenceOf(line).Some? {
      var f := FenceOf(line).value;
      var i := Skip(c => c == ' ', line, 0);
      var m := Skip(c => c == line[i], line, i);
      assert IsFenceAt(line, i, f.mark, f.length);
    }
    if i, mark, n :| IsFenceAt(line, i, mark, n) {
      FenceIs(line, i, mark, n);
    }
  }

  /** `d` number signs and then white space. */
  predicate IsHeadingAt(line: string, d: nat) {
    0 < d < |line| && AllAre(line, 0, d, '#') && IsSpace(line[d])
  }

  /** A line is a heading exactly if it begins with number signs and white space; their number is its depth, and the title begins after the space. */
  lemma HeadingMeans(line: string, d: nat)
    ensures IsHeadingAt(line, d) <==> HeadingOf(line).Some? && HeadingOf(line).value.depth == d
    ensures IsHeadingAt(line, d) ==>
      var next := HeadingOf(line).value.next;
      d < next <= |line| && (forall k :: d <= k < next ==> IsSpace(line[k])) && (next < |line| ==> !IsSpace(line[next]))
  {
    if IsHeadingAt(line, d) {
      SkipStops(c => c == '#', line, 0, d);
    }
  }

  // ---------- fences ----------

  predicate IsFence(lines: seq<string>, i: nat) {
    i < |lines| && FenceOf(lines[i]).Some?
  }

  /** A fence line ends the block that one with this mark and length has opened. */
  predicate Closes(f: Fence, g: Fence) {
    g.mark == f.mark && g.length >= f.length
  }

  predicate ClosedBetween(lines: seq<string>, a: nat, i: nat)
    requires IsFence(lines, a)
  {
    exists b: nat :: a < b < i && IsFence(lines, b) && Closes(FenceOf(lines[a]).value, FenceOf(lines[b]).value)
  }

  /** An earlier fence line has opened a block that none since has closed. */
  ghost predicate InFence(lines: seq<string>, i: nat)
    decreases i, 0
  {
    exists a: nat :: a < i && Opens(lines, a) && !ClosedBetween(lines, a, i)
  }

  /** A fence line outside of every block opens one. */
  ghost predicate Opens(lines: seq<string>, a: nat)
    decreases a, 1
  {
    IsFence(lines, a) && !InFence(lines, a)
  }

  /** The line is neither a fence nor inside a fenced block. */
  ghost predicate IsPlain(lines: seq<string>, i: nat) {
    i < |lines| && !IsFence(lines, i) && !InFence(lines, i)
  }

  ghost predicate OpenSince(lines: seq<string>, a: nat, i: nat) {
    a < i && Opens(lines, a) && !ClosedBetween(lines, a, i)
  }

  lemma OpenIsIn(lines: seq<string>, a: nat, i: nat)
    requires OpenSince(lines, a, i)
    ensures InFence(lines, i)
  {}

  /** Only one fence line has the open block. */
  lemma OpenOnce(lines: seq<string>, a: nat, b: nat, i: nat)
    requires OpenSince(lines, a, i) && OpenSince(lines, b, i)
    ensures a == b
  {
    if a < b {
      OpenIsIn(lines, a, b);
    } else if b < a {
      OpenIsIn(lines, b, a);
    }
  }

  lemma CloserIsEarlierOrLast(lines: seq<string>, a: nat, i: nat)
    requires IsFence(lines, a) && a < i
    ensures ClosedBetween(lines, a, i + 1) <==>
      ClosedBetween(lines, a, i) || (IsFence(lines, i) && Closes(FenceOf(lines[a]).value, FenceOf(lines[i]).value))
  {}

  /** `f` is the fence of the open block before line `i`, if there is one. */
  ghost predicate IsOpenFence(lines: seq<string>, i: nat, f: Option<Fence>) {
    if f.None? then !InFence(lines, i) else exists a: nat :: OpenSince(lines, a, i) && FenceOf(lines[a]) == f
  }

  lemma OpenFenceIsIn(lines: seq<string>, i: nat, f: Option<Fence>)
    requires IsOpenFence(lines, i, f)
    ensures f.Some? <==> InFence(lines, i)
  {
    if f.Some? {
      var a: nat :| OpenSince(lines, a, i) && FenceOf(lines[a]) == f;
      OpenIsIn(lines, a, i);
    }
  }

  function FenceNext(fence: Option<Fence>, line: string): Option<Fence> {
    if FenceOf(line).Some? then NextFence(fence, FenceOf(line).value) else fence
  }

  lemma FenceStep(lines: seq<string>, i: nat, f: Option<Fence>)
    requires i < |lines| && IsOpenFence(lines, i, f)
    ensures IsOpenFence(lines, i + 1, FenceNext(f, lines[i]))
  {
    if f.None? {
      if IsFence(lines, i) {
        assert OpenSince(lines, i, i + 1);
      } else {
        NothingOpens(lines, i);
      }
    } else {
      var a: nat :| OpenSince(lines, a, i) && FenceOf(lines[a]) == f;
      CloserIsEarlierOrLast(lines, a, i);
      if ClosedBetween(lines, a, i + 1) {
        LastCloses(lines, a, i);
      } else {
        assert OpenSince(lines, a, i + 1);
      }
    }
  }

  lemma ClosedIfOut(lines: seq<string>, a: nat, i: nat)
    requires a < i && Opens(lines, a) && !InFence(lines, i)
    ensures ClosedBetween(lines, a, i)
  {}

  lemma OtherIsClosed(lines: seq<string>, a: nat, b: nat, i: nat)
    requires OpenSince(lines, a, i) && b < i && Opens(lines, b) && b != a
    ensures ClosedBetween(lines, b, i)
  {
    if !ClosedBetween(lines, b, i) {
      OpenOnce(lines, a, b, i);
    }
  }

  lemma OutIfAllClosed(lines: seq<string>, i: nat)
    requires forall a: nat :: a < i && Opens(lines, a) ==> ClosedBetween(lines, a, i)
    ensures !InFence(lines, i)
  {}

  lemma NothingOpens(lines: seq<string>, i: nat)
    requires !InFence(lines, i) && !IsFence(lines, i)
    ensures !InFence(lines, i + 1)
  {
    forall a: nat | a < i + 1 && Opens(lines, a) ensures ClosedBetween(lines, a, i + 1) {
      ClosedIfOut(lines, a, i);
      CloserIsEarlierOrLast(lines, a, i);
    }
    OutIfAllClosed(lines, i + 1);
  }

  lemma LastCloses(lines: seq<string>, a: nat, i: nat)
    requires OpenSince(lines, a, i) && ClosedBetween(lines, a, i + 1)
    ensures !InFence(lines, i + 1)
  {
    OpenIsIn(lines, a, i);
    forall b: nat | b < i + 1 && Opens(lines, b) ensures ClosedBetween(lines, b, i + 1) {
      if b != a {
        OtherIsClosed(lines, a, b, i);
        CloserIsEarlierOrLast(lines, b, i);
      }
    }
    OutIfAllClosed(lines, i + 1);
  }
}
