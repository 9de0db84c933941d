/** What loading needs of a parsed document: its blocks, and the backing files its headings name. */
module Documents {
  import opened Common
  import opened Paths
  import opened Lines
  import opened Index
  import opened IndexProofs

  type Path = string

  /** The heading at line `owner` keeps its detail in the file `target`. */
  datatype Ref = Ref(owner: nat, target: Path)

  datatype Doc = Doc(size: nat, blocks: map<nat, Block>, refs: seq<Ref>)

  function Prefix(family: Family): string {
    match family case Memory => "MEMORY_" case Pursuit => "PURSUIT_"
  }

  function DetailPath(family: Family, id: string): Path {
    Prefix(family) + id + ".md"
  }

  /** The detail file of an `F#` heading; the id `rules` stays reserved in pursuits. */
  function RefAt(family: Family, forms: seq<Form>, i: nat): (r: seq<Ref>)
    requires 0 < i <= |forms|
    ensures r == [] || (|r| == 1 && r[0].owner == i && forms[i - 1].Head?)
  {
    var f := forms[i - 1];
    if !f.Head? || f.kind != Some(FAnchor) || f.address.None? then []
    else if family == Pursuit && SameIgnoringCase(f.address.value, "rules") then []
    else [Ref(i, DetailPath(family, f.address.value))]
  }

  function RefsOf(family: Family, forms: seq<Form>, n: nat): (r: seq<Ref>)
    requires n <= |forms|
  {
    if n == 0 then [] else RefsOf(family, forms, n - 1) + RefAt(family, forms, n)
  }

  function BlocksOf(forms: seq<Form>, lines: seq<string>): map<nat, Block>
    requires |forms| == |lines|
  {
    map j: nat | j <= |lines| && HasBlock(forms, j) :: BlockOf(forms, lines, j)
  }

  function DocOf(family: Family, lines: seq<string>): Doc {
    var forms := Forms(family, lines);
    Doc(|lines|, BlocksOf(forms, lines), RefsOf(family, forms, |forms|))
  }

  lemma IndexIsUnique(blocks: map<nat, Block>, forms: seq<Form>, lines: seq<string>)
    requires IsIndex(blocks, forms, lines)
    ensures blocks == BlocksOf(forms, lines)
  {
    var other := BlocksOf(forms, lines);
    forall j: nat ensures j in blocks <==> j in other {
      assert j in blocks <==> HasBlock(forms, j);
    }
    assert blocks.Keys == other.Keys;
  }

  method ReadDocument(family: Family, lines: seq<string>) returns (d: Doc)
    ensures d == DocOf(family, lines)
  {
    var blocks := ParseDocument(family, lines);
    ghost var forms := Forms(family, lines);
    IndexIsUnique(blocks, forms, lines);
    var refs: seq<Ref> := [];
    var i := 0;
    while i < |lines|
      invariant 0 <= i <= |lines|
      invariant refs == RefsOf(family, forms, i)
    {
      i := i + 1;
      assert i in blocks <==> HasBlock(forms, i);
      if i in blocks && blocks[i].form.value.Head? && blocks[i].form.value.kind == Some(FAnchor) && blocks[i].form.value.address.Some? {
        var id := blocks[i].form.value.address.value;
        if !(family == Pursuit && SameIgnoringCase(id, "rules")) {
          refs := refs + [Ref(i, DetailPath(family, id))];
        }
      }
    }
    d := Doc(|lines|, blocks, refs);
  }

  // ---------- the shape of a document ----------

  predicate HasRootBlock(d: Doc) {
    0 in d.blocks
  }

  ghost predicate ParentsAreEarlier(d: Doc) {
    forall j :: j in d.blocks ==> j <= d.size && (j > 0 ==> d.blocks[j].parent < j && d.blocks[j].parent in d.blocks)
  }

  ghost predicate ListedOnce(d: Doc)
    requires ParentsAreEarlier(d)
  {
    forall j :: j in d.blocks && j > 0 ==> multiset(d.blocks[d.blocks[j].parent].parts)[Child(j)] == 1
  }

  ghost predicate ListsChildren(d: Doc) {
    forall j, k :: j in d.blocks && Child(k) in d.blocks[j].parts ==> k in d.blocks && k > 0 && d.blocks[k].parent == j
  }

  ghost predicate RefsAscend(d: Doc) {
    && (forall i :: 0 <= i < |d.refs| ==> 0 < d.refs[i].owner && d.refs[i].owner in d.blocks)
    && forall i, j :: 0 <= i < j < |d.refs| ==> d.refs[i].owner < d.refs[j].owner
  }

  ghost predicate IsTree(d: Doc) {
    HasRootBlock(d) && ParentsAreEarlier(d) && ListedOnce(d) && ListsChildren(d) && RefsAscend(d)
  }

  lemma {:induction false} PartsCount(forms: seq<Form>, lines: seq<string>, j: nat, b: nat, k: nat)
    requires |forms| == |lines| && b <= |lines|
    ensures multiset(PartsOf(forms, lines, j, 1, b))[Child(k)] == if 0 < k <= b && HasBlock(forms, k) && Owner(forms, k) == j then 1 else 0
    decreases b
  {
    if b > 0 {
      PartsCount(forms, lines, j, b - 1, k);
      var last := if Owner(forms, b) == j then [PartAt(forms, lines, b)] else [];
      assert multiset(last)[Child(k)] == if k == b && HasBlock(forms, b) && Owner(forms, b) == j then 1 else 0;
      assert PartsOf(forms, lines, j, 1, b) == PartsOf(forms, lines, j, 1, b - 1) + last;
    }
  }

  /** Exactly the `F#` headings with an id name a file: the one for their id, but for the reserved id. */
  lemma {:induction false} RefsMean(family: Family, forms: seq<Form>, n: nat, ref: Ref)
    requires n <= |forms|
    ensures ref in RefsOf(family, forms, n) <==>
      && 0 < ref.owner <= n && forms[ref.owner - 1].Head? && forms[ref.owner - 1].kind == Some(FAnchor) && forms[ref.owner - 1].address.Some?
      && var id := forms[ref.owner - 1].address.value;
         if family == Memory then ref.target == "MEMORY_" + id + ".md"
         else ref.target == "PURSUIT_" + id + ".md" && !SameIgnoringCase(id, "rules")
  {
    if n > 0 {
      RefsMean(family, forms, n - 1, ref);
      assert ref in RefAt(family, forms, n) <==> RefAt(family, forms, n) == [ref];
    }
  }

  predicate AreHeadings(refs: seq<Ref>, forms: seq<Form>, n: nat) {
    forall i :: 0 <= i < |refs| ==> 0 < refs[i].owner <= n && IsHead(forms, refs[i].owner)
  }

  predicate Ascend(refs: seq<Ref>) {
    forall i, j :: 0 <= i < j < |refs| ==> refs[i].owner < refs[j].owner
  }

  lemma {:induction false} RefsAreHeadings(family: Family, forms: seq<Form>, n: nat)
    requires n <= |forms|
    ensures AreHeadings(RefsOf(family, forms, n), forms, n) && Ascend(RefsOf(family, forms, n))
  {
    if n > 0 {
      RefsAreHeadings(family, forms, n - 1);
      assert AreHeadings(RefAt(family, forms, n), forms, n);
    }
  }

  lemma BlocksLook(forms: seq<Form>, lines: seq<string>, j: nat)
    requires |forms| == |lines|
    ensures j in BlocksOf(forms, lines) <==> HasBlock(forms, j)
    ensures HasBlock(forms, j) ==> j <= |lines|
    ensures HasBlock(forms, j) ==> BlocksOf(forms, lines)[j].parts == PartsOf(forms, lines, j, 1, |lines|)
    ensures HasBlock(forms, j) && j > 0 ==> BlocksOf(forms, lines)[j].parent == Owner(forms, j)
  {}

  lemma ParentLooks(forms: seq<Form>, j: nat)
    requires 0 < j <= |forms|
    ensures Owner(forms, j) < j && HasBlock(forms, Owner(forms, j))
  {
    OwnedInside(forms, j);
  }

  lemma BlockIsListedOnce(d: Doc, forms: seq<Form>, lines: seq<string>, j: nat)
    requires |forms| == |lines| && d.blocks == BlocksOf(forms, lines) && j in d.blocks && j > 0
    ensures j <= |lines| && d.blocks[j].parent < j && d.blocks[j].parent in d.blocks
    ensures multiset(d.blocks[d.blocks[j].parent].parts)[Child(j)] == 1
  {
    BlocksLook(forms, lines, j);
    ParentLooks(forms, j);
    BlocksLook(forms, lines, Owner(forms, j));
    PartsCount(forms, lines, Owner(forms, j), |lines|, j);
  }

  lemma ListedIsChild(d: Doc, forms: seq<Form>, lines: seq<string>, j: nat, k: nat)
    requires |forms| == |lines| && d.blocks == BlocksOf(forms, lines) && j in d.blocks && Child(k) in d.blocks[j].parts
    ensures k in d.blocks && k > 0 && d.blocks[k].parent == j
  {
    BlocksLook(forms, lines, j);
    PartsCount(forms, lines, j, |lines|, k);
    BlocksLook(forms, lines, k);
  }

  lemma TreeParents(d: Doc, forms: seq<Form>, lines: seq<string>)
    requires |forms| == |lines| && d.blocks == BlocksOf(forms, lines) && d.size == |lines|
    ensures HasRootBlock(d) && ParentsAreEarlier(d)
  {
    BlocksLook(forms, lines, 0);
    forall j | j in d.blocks ensures j <= d.size && (j > 0 ==> d.blocks[j].parent < j && d.blocks[j].parent in d.blocks) {
      BlocksLook(forms, lines, j);
      if j > 0 {
        BlockIsListedOnce(d, forms, lines, j);
      }
    }
  }

  lemma TreeListedOnce(d: Doc, forms: seq<Form>, lines: seq<string>)
    requires |forms| == |lines| && d.blocks == BlocksOf(forms, lines) && ParentsAreEarlier(d)
    ensures ListedOnce(d)
  {
    forall j | j in d.blocks && j > 0 ensures multiset(d.blocks[d.blocks[j].parent].parts)[Child(j)] == 1 {
      BlockIsListedOnce(d, forms, lines, j);
    }
  }

  lemma TreeLists(d: Doc, forms: seq<Form>, lines: seq<string>)
    requires |forms| == |lines| && d.blocks == BlocksOf(forms, lines)
    ensures ListsChildren(d)
  {
    forall j, k | j in d.blocks && Child(k) in d.blocks[j].parts ensures k in d.blocks && k > 0 && d.blocks[k].parent == j {
      ListedIsChild(d, forms, lines, j, k);
    }
  }

  lemma TreeRefs(d: Doc, family: Family, forms: seq<Form>, lines: seq<string>)
    requires |forms| == |lines| && d.blocks == BlocksOf(forms, lines) && d.refs == RefsOf(family, forms, |forms|)
    ensures RefsAscend(d)
  {
    RefsAreHeadings(family, forms, |forms|);
    forall i | 0 <= i < |d.refs| ensures 0 < d.refs[i].owner && d.refs[i].owner in d.blocks {
      assert IsHead(forms, d.refs[i].owner) && HasBlock(forms, d.refs[i].owner);
      BlocksLook(forms, lines, d.refs[i].owner);
    }
  }

  /** The parser's blocks form a tree: each is listed once, by its parent, which comes before it. */
  lemma ParsedIsTree(family: Family, lines: seq<string>)
    ensures IsTree(DocOf(family, lines))
  {
    var forms := Forms(family, lines);
    var d := DocOf(family, lines);
    TreeParents(d, forms, lines);
    TreeListedOnce(d, forms, lines);
    TreeLists(d, forms, lines);
    TreeRefs(d, family, forms, lines);
  }
}
