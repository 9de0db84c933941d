/**
 Loading a directory of documents whose headings may keep their detail in
 other documents: the order of loading, and the logical tree that attaching
 each detail document to its heading makes.
 */
module Loader {
  import opened Common
  import opened Documents

  type Files = map<Path, Doc>

  /** A block: its document and line; line 0 is the document's root. */
  datatype Key = Key(path: Path, line: nat)

  datatype LogicalPart = Words(text: string) | Sub(key: Key)

  datatype Problem = CyclicBacking(owner: Key) | AttachedTwice(owner: Key, child: Key)

  // ---------- the order of loading ----------

  /** A document, then the documents its headings name, each at its first mention. */
  function Visit(files: Files, p: Path, seen: seq<Path>): (r: seq<Path>)
    requires p in files
    ensures seen <= r
    decreases files.Keys - Elements(seen), 1, 0
  {
    if p in seen then seen
    else
      assert p in files.Keys - Elements(seen) && p !in files.Keys - Elements(seen + [p]);
      VisitAll(files, files[p].refs, seen + [p])
  }

  function VisitAll(files: Files, refs: seq<Ref>, seen: seq<Path>): (r: seq<Path>)
    ensures seen <= r
    decreases files.Keys - Elements(seen), 2, |refs|
  {
    if refs == [] then seen
    else
      var next := if refs[0].target in files then Visit(files, refs[0].target, seen) else seen;
      assert files.Keys - Elements(next) <= files.Keys - Elements(seen);
      VisitAll(files, refs[1..], next)
  }

  function VisitRoots(files: Files, roots: seq<Path>, seen: seq<Path>): (r: seq<Path>)
    ensures seen <= r
  {
    if roots == [] then seen
    else VisitRoots(files, roots[1..], if roots[0] in files then Visit(files, roots[0], seen) else seen)
  }

  predicate NoDup(xs: seq<Path>) {
    forall i, j :: 0 <= i < j < |xs| ==> xs[i] != xs[j]
  }

  /** Every existing file that a document of `now` beyond `seen` names is in `now`. */
  predicate ClosedBeyond(files: Files, seen: seq<Path>, now: seq<Path>) {
    forall p :: p in now && p !in seen ==> p in files && forall i :: 0 <= i < |files[p].refs| && files[p].refs[i].target in files ==> files[p].refs[i].target in now
  }

  lemma {:induction false} VisitLoads(files: Files, p: Path, seen: seq<Path>)
    requires p in files && NoDup(seen)
    ensures var r := Visit(files, p, seen); p in r && NoDup(r) && ClosedBeyond(files, seen, r)
    decreases files.Keys - Elements(seen), 1, 0
  {
    if p !in seen {
      assert p in files.Keys - Elements(seen) && p !in files.Keys - Elements(seen + [p]);
      VisitAllLoads(files, files[p].refs, seen + [p]);
      assert (seen + [p])[|seen|] == p;
    }
  }

  lemma {:induction false} VisitAllLoads(files: Files, refs: seq<Ref>, seen: seq<Path>)
    requires NoDup(seen)
    ensures var r := VisitAll(files, refs, seen);
            && NoDup(r) && ClosedBeyond(files, seen, r)
            && forall i :: 0 <= i < |refs| && refs[i].target in files ==> refs[i].target in r
    decreases files.Keys - Elements(seen), 2, |refs|
  {
    if refs != [] {
      var next := if refs[0].target in files then Visit(files, refs[0].target, seen) else seen;
      if refs[0].target in files {
        VisitLoads(files, refs[0].target, seen);
      }
      assert files.Keys - Elements(next) <= files.Keys - Elements(seen);
      VisitAllLoads(files, refs[1..], next);
      var r := VisitAll(files, refs, seen);
      forall i | 0 <= i < |refs| && refs[i].target in files ensures refs[i].target in r {
        assert i > 0 ==> refs[i] == refs[1..][i - 1];
      }
    }
  }
}
