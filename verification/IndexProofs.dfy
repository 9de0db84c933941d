/** An index loses no line of its document, and its blocks nest. */
module IndexProofs {
  import opened Index

  // ---------- nesting ----------

  predicate Opens(forms: seq<Form>, j: nat) {
    j == 0 || IsHead(forms, j)
  }

  /** What a block owns lies inside it. */
  lemma OwnedInside(forms: seq<Form>, k: nat)
    requires 0 < k <= |forms|
    ensures Opens(forms, Owner(forms, k)) && Owner(forms, k) < k <= EndOf(forms, Owner(forms, k))
  {
    var j := Owner(forms, k);
    OwnerIsNearest(forms, k);
    if j > 0 && EndOf(forms, j) < k {
      var l := EndOf(forms, j) + 1;
      assert Ends(forms, j, l);
      assert l < k ==> Above(forms, l, k);
    }
  }

  /** The line after what line `a` owns belongs to the same block, and nothing in between does. */
  lemma OwnedNext(forms: seq<Form>, j: nat, a: nat)
    requires 0 < a <= |forms| && Owner(forms, a) == j
    ensures EndOf(forms, a) <= EndOf(forms, j)
    ensures forall b :: a < b <= EndOf(forms, a) ==> Owner(forms, b) != j
    ensures EndOf(forms, a) < EndOf(forms, j) ==> Owner(forms, EndOf(forms, a) + 1) == j
  {
    OwnedInside(forms, a);
    SpanIsOpen(forms, a);
    var e := EndOf(forms, a);
    if e > EndOf(forms, j) {
      assert Ends(forms, j, EndOf(forms, j) + 1);
      assert Ends(forms, a, EndOf(forms, j) + 1);
    }
    forall b | a < b <= e ensures Owner(forms, b) != j {
      assert !Ends(forms, a, b) && Above(forms, a, b);
      OwnerIsNearest(forms, b);
    }
    if e < EndOf(forms, j) {
      NextIsOwned(forms, j, a, e);
    }
  }

  lemma NextIsOwned(forms: seq<Form>, j: nat, a: nat, e: nat)
    requires 0 < a <= |forms| && Owner(forms, a) == j && e == EndOf(forms, a) < EndOf(forms, j)
    ensures Owner(forms, e + 1) == j
  {
    OwnedInside(forms, a);
    SpanIsOpen(forms, a);
    SpanIsOpen(forms, j);
    OwnerIsNearest(forms, a);
    assert j > 0 ==> !Ends(forms, j, e + 1);
    var n := e + 1;
    forall k | j < k <= e ensures !Above(forms, k, n) {
      if k < a {
        assert !Above(forms, k, a);
      } else if a < k {
        assert !Ends(forms, a, k);
      }
    }
    OwnerSkip(forms, n, j, e);
  }

  lemma FirstIsOwned(forms: seq<Form>, j: nat)
    requires Opens(forms, j) && j < EndOf(forms, j)
    ensures Owner(forms, j + 1) == j
  {
    SpanIsOpen(forms, j);
    assert j > 0 ==> !Ends(forms, j, j + 1);
  }

  /** A child starts after its parent and ends within it; the next child starts after it ends. */
  lemma ChildrenNest(blocks: map<nat, Block>, forms: seq<Form>, lines: seq<string>, j: nat, k: nat)
    requires IsIndex(blocks, forms, lines) && j in blocks && k in blocks && k > 0 && blocks[k].parent == j
    ensures j < k <= blocks[k].end <= blocks[j].end
    ensures forall l :: l in blocks && k < l <= blocks[k].end ==> blocks[l].parent != j
  {
    OwnedInside(forms, k);
    OwnedNext(forms, j, k);
  }

  /** A heading's span ends just before the next heading that is not deeper, or with the document. */
  lemma SpanEnds(blocks: map<nat, Block>, forms: seq<Form>, lines: seq<string>, j: nat)
    requires IsIndex(blocks, forms, lines) && j in blocks && IsHead(forms, j)
    ensures var e := blocks[j].end;
            && j <= e <= |lines|
            && (forall l :: j < l <= e && IsHead(forms, l) ==> Depth(forms, l) > Depth(forms, j))
            && (e < |lines| ==> IsHead(forms, e + 1) && Depth(forms, e + 1) <= Depth(forms, j))
  {
    SpanIsOpen(forms, j);
    forall l | j < l <= blocks[j].end && IsHead(forms, l) ensures Depth(forms, l) > Depth(forms, j) {
      assert !Ends(forms, j, l);
    }
  }

  // ---------- nothing is lost ----------

  /** The source lines of a block, read from its parts in order. */
  function Flatten(blocks: map<nat, Block>, j: nat, n: nat): seq<string>
    requires j in blocks && j <= n
    decreases n - j, 1, 0
  {
    (if j == 0 then [] else [blocks[j].line]) + FlattenParts(blocks, blocks[j].parts, j, n)
  }

  function FlattenParts(blocks: map<nat, Block>, parts: seq<Part>, j: nat, n: nat): seq<string>
    requires j <= n
    decreases n - j, 0, |parts|
  {
    if parts == [] then []
    else
      var first :=
        match parts[0]
        case Line(text) => [text]
        case Child(k) => if k in blocks && j < k <= n then Flatten(blocks, k, n) else [];
      first + FlattenParts(blocks, parts[1..], j, n)
  }

  lemma {:induction false} PartsFront(forms: seq<Form>, lines: seq<string>, j: nat, a: nat, b: nat)
    requires |forms| == |lines| && 0 < a <= b <= |lines|
    ensures PartsOf(forms, lines, j, a, b) == (if Owner(forms, a) == j then [PartAt(forms, lines, a)] else []) + PartsOf(forms, lines, j, a + 1, b)
    decreases b
  {
    if a < b {
      PartsFront(forms, lines, j, a, b - 1);
    }
  }

  lemma {:induction false} PartsSkip(forms: seq<Form>, lines: seq<string>, j: nat, a: nat, c: nat, b: nat)
    requires |forms| == |lines| && 0 < a <= c && c <= b + 1 && b <= |lines|
    requires forall k :: a <= k < c ==> Owner(forms, k) != j
    ensures PartsOf(forms, lines, j, a, b) == PartsOf(forms, lines, j, c, b)
    decreases c - a
  {
    if a < c {
      PartsFront(forms, lines, j, a, b);
      PartsSkip(forms, lines, j, a + 1, c, b);
    }
  }

  lemma NothingAfterEnd(forms: seq<Form>, lines: seq<string>, j: nat)
    requires |forms| == |lines| && Opens(forms, j) && j <= |lines|
    ensures PartsOf(forms, lines, j, EndOf(forms, j) + 1, |lines|) == []
  {
    var c := EndOf(forms, j) + 1;
    forall k | c <= k < |lines| + 1 ensures Owner(forms, k) != j {
      OwnedInside(forms, k);
    }
    PartsSkip(forms, lines, j, c, |lines| + 1, |lines|);
  }

  lemma Looks(blocks: map<nat, Block>, forms: seq<Form>, lines: seq<string>, j: nat)
    requires IsIndex(blocks, forms, lines) && HasBlock(forms, j)
    ensures j in blocks && j <= |lines| && blocks[j].parts == PartsOf(forms, lines, j, 1, |lines|) && blocks[j].end == EndOf(forms, j)
    ensures j > 0 ==> blocks[j].line == lines[j - 1]
  {}

  lemma OnePart(blocks: map<nat, Block>, forms: seq<Form>, lines: seq<string>, j: nat, a: nat, rest: seq<Part>)
    requires |forms| == |lines| && j < a <= |lines| && EndOf(forms, a) <= |lines|
    requires !forms[a - 1].Text? ==> a in blocks && Flatten(blocks, a, |lines|) == lines[a - 1..EndOf(forms, a)]
    ensures FlattenParts(blocks, [PartAt(forms, lines, a)] + rest, j, |lines|)
         == lines[a - 1..EndOf(forms, a)] + FlattenParts(blocks, rest, j, |lines|)
  {
    assert ([PartAt(forms, lines, a)] + rest)[1..] == rest;
    assert forms[a - 1].Text? ==> lines[a - 1..EndOf(forms, a)] == [lines[a - 1]];
  }

  /** The part at line `a`, and then the parts after everything it covers. */
  lemma PartsFrom(forms: seq<Form>, lines: seq<string>, j: nat, a: nat)
    requires |forms| == |lines| && 0 < a <= |lines| && Owner(forms, a) == j
    ensures EndOf(forms, a) <= |lines|
    ensures PartsOf(forms, lines, j, a, |lines|) == [PartAt(forms, lines, a)] + PartsOf(forms, lines, j, EndOf(forms, a) + 1, |lines|)
  {
    OwnedNext(forms, j, a);
    PartsFront(forms, lines, j, a, |lines|);
    PartsSkip(forms, lines, j, a + 1, EndOf(forms, a) + 1, |lines|);
  }

  lemma Chained(blocks: map<nat, Block>, all: seq<Part>, first: seq<Part>, rest: seq<Part>, lines: seq<string>, j: nat, a: nat, e: nat, end: nat)
    requires j <= |lines| && a <= e <= end <= |lines| && all == first + rest
    requires FlattenParts(blocks, first + rest, j, |lines|) == lines[a..e] + FlattenParts(blocks, rest, j, |lines|)
    requires FlattenParts(blocks, rest, j, |lines|) == lines[e..end]
    ensures FlattenParts(blocks, all, j, |lines|) == lines[a..end]
  {
    assert lines[a..e] + lines[e..end] == lines[a..end];
  }

  /** The blocks below line `j` read as their source lines. */
  ghost predicate DeeperFlatten(blocks: map<nat, Block>, forms: seq<Form>, lines: seq<string>, j: nat) {
    && |forms| == |lines|
    && forall k :: j < k <= |lines| && HasBlock(forms, k) ==> k in blocks && Flatten(blocks, k, |lines|) == lines[k - 1..EndOf(forms, k)]
  }

  /** The parts of a block from line `a` on are its lines from `a` on. */
  lemma {:induction false} RestFlattens(blocks: map<nat, Block>, forms: seq<Form>, lines: seq<string>, j: nat, a: nat)
    requires DeeperFlatten(blocks, forms, lines, j) && Opens(forms, j) && j < a <= EndOf(forms, j) + 1 && j <= |lines|
    requires a <= EndOf(forms, j) ==> Owner(forms, a) == j
    ensures FlattenParts(blocks, PartsOf(forms, lines, j, a, |lines|), j, |lines|) == lines[a - 1..EndOf(forms, j)]
    decreases |lines| + 1 - a
  {
    var end := EndOf(forms, j);
    if a > end {
      NothingAfterEnd(forms, lines, j);
      assert FlattenParts(blocks, [], j, |lines|) == [] == lines[end..end];
    } else {
      OwnedNext(forms, j, a);
      RestFlattens(blocks, forms, lines, j, EndOf(forms, a) + 1);
      PartFlattens(blocks, forms, lines, j, a);
      PartsFrom(forms, lines, j, a);
      JoinRest(blocks, forms, lines, j, a);
    }
  }

  lemma PartFlattens(blocks: map<nat, Block>, forms: seq<Form>, lines: seq<string>, j: nat, a: nat)
    requires DeeperFlatten(blocks, forms, lines, j) && j < a <= |lines|
    ensures EndOf(forms, a) <= |lines|
    ensures !forms[a - 1].Text? ==> a in blocks && Flatten(blocks, a, |lines|) == lines[a - 1..EndOf(forms, a)]
  {
    assert HasBlock(forms, a) <==> !forms[a - 1].Text?;
  }

  lemma JoinRest(blocks: map<nat, Block>, forms: seq<Form>, lines: seq<string>, j: nat, a: nat)
    requires |forms| == |lines| && j < a <= |lines| && j <= |forms|
    requires a - 1 <= EndOf(forms, a) <= EndOf(forms, j) <= |lines|
    requires !forms[a - 1].Text? ==> a in blocks && Flatten(blocks, a, |lines|) == lines[a - 1..EndOf(forms, a)]
    requires PartsOf(forms, lines, j, a, |lines|) == [PartAt(forms, lines, a)] + PartsOf(forms, lines, j, EndOf(forms, a) + 1, |lines|)
    requires FlattenParts(blocks, PartsOf(forms, lines, j, EndOf(forms, a) + 1, |lines|), j, |lines|) == lines[EndOf(forms, a)..EndOf(forms, j)]
    ensures FlattenParts(blocks, PartsOf(forms, lines, j, a, |lines|), j, |lines|) == lines[a - 1..EndOf(forms, j)]
  {
    var e := EndOf(forms, a);
    var rest := PartsOf(forms, lines, j, e + 1, |lines|);
    OnePart(blocks, forms, lines, j, a, rest);
    Chained(blocks, PartsOf(forms, lines, j, a, |lines|), [PartAt(forms, lines, a)], rest, lines, j, a - 1, e, EndOf(forms, j));
  }

  lemma {:induction false} BlockFlattens(blocks: map<nat, Block>, forms: seq<Form>, lines: seq<string>, j: nat)
    requires IsIndex(blocks, forms, lines) && HasBlock(forms, j)
    ensures j in blocks && j <= |lines|
    ensures Flatten(blocks, j, |lines|) == if j == 0 then lines else lines[j - 1..EndOf(forms, j)]
    decreases |forms| - j
  {
    Looks(blocks, forms, lines, j);
    forall k | j < k <= |lines| && HasBlock(forms, k) ensures k in blocks && Flatten(blocks, k, |lines|) == lines[k - 1..EndOf(forms, k)] {
      BlockFlattens(blocks, forms, lines, k);
    }
    PartsFlatten(blocks, forms, lines, j);
    FirstLine(lines, j, EndOf(forms, j));
    assert Flatten(blocks, j, |lines|) == (if j == 0 then [] else [blocks[j].line]) + FlattenParts(blocks, blocks[j].parts, j, |lines|);
  }

  lemma PartsFlatten(blocks: map<nat, Block>, forms: seq<Form>, lines: seq<string>, j: nat)
    requires DeeperFlatten(blocks, forms, lines, j) && j <= |lines|
    ensures FlattenParts(blocks, PartsOf(forms, lines, j, 1, |lines|), j, |lines|) == lines[j..EndOf(forms, j)]
  {
    if Opens(forms, j) {
      if j < EndOf(forms, j) {
        FirstIsOwned(forms, j);
      }
      PartsAfter(forms, lines, j);
      RestFlattens(blocks, forms, lines, j, j + 1);
    } else {
      NoChildren(forms, lines, j, |lines|);
    }
  }

  lemma FirstLine(lines: seq<string>, j: nat, e: nat)
    requires j <= e <= |lines|
    ensures j > 0 ==> [lines[j - 1]] + lines[j..e] == lines[j - 1..e]
    ensures e == |lines| && j == 0 ==> lines[j..e] == lines
  {}

  /** A block owns nothing up to its own line. */
  lemma PartsAfter(forms: seq<Form>, lines: seq<string>, j: nat)
    requires |forms| == |lines| && j <= |lines|
    ensures PartsOf(forms, lines, j, 1, |lines|) == PartsOf(forms, lines, j, j + 1, |lines|)
  {
    PartsSkip(forms, lines, j, 1, j + 1, |lines|);
  }

  /** Nodes and focus lines own nothing. */
  lemma {:induction false} NoChildren(forms: seq<Form>, lines: seq<string>, j: nat, b: nat)
    requires |forms| == |lines| && b <= |lines| && !Opens(forms, j)
    ensures PartsOf(forms, lines, j, 1, b) == []
    decreases b
  {
    if b > 0 {
      NoChildren(forms, lines, j, b - 1);
    }
  }

  /** Reading a document's parts in order gives back every line once. */
  lemma ParsingLosesNothing(blocks: map<nat, Block>, forms: seq<Form>, lines: seq<string>)
    requires IsIndex(blocks, forms, lines)
    ensures 0 in blocks && Flatten(blocks, 0, |lines|) == lines
  {
    assert HasBlock(forms, 0);
    BlockFlattens(blocks, forms, lines, 0);
  }

  predicate InBody(body: Body, i: nat) {
    body.Body? && body.first <= i <= body.last
  }

  /** Heading lines and bodies partition the document: a line is a heading or in the body of exactly one block, its owner. */
  lemma BodiesPartition(blocks: map<nat, Block>, forms: seq<Form>, lines: seq<string>, i: nat)
    requires IsIndex(blocks, forms, lines) && 0 < i <= |lines|
    ensures Owner(forms, i) in blocks
    ensures forall j :: j in blocks ==> (InBody(blocks[j].body, i) <==> !IsHead(forms, i) && j == Owner(forms, i))
  {
    OwnedInside(forms, i);
    assert HasBlock(forms, Owner(forms, i));
    forall j | j in blocks ensures InBody(blocks[j].body, i) <==> !IsHead(forms, i) && j == Owner(forms, i) {
      assert blocks[j].body == BodyOf(forms, j);
      InOneBody(forms, i, j);
    }
  }

  lemma InOneBody(forms: seq<Form>, i: nat, j: nat)
    requires 0 < i <= |forms| && j <= |forms|
    ensures InBody(BodyOf(forms, j), i) <==> !IsHead(forms, i) && j == Owner(forms, i)
  {
    OwnedInside(forms, i);
    OwnerIsNearest(forms, i);
    NoHeadBefore(forms, j + 1);
    var next := NextHead(forms, j + 1);
    if InBody(BodyOf(forms, j), i) {
      OwnerSkip(forms, i, j, i - 1);
    } else if !IsHead(forms, i) && j == Owner(forms, i) {
      assert next < i ==> Above(forms, next, i);
    }
  }
}
