/** The vector cache of embedding retrieval, and the choice of entries. A text stands for its hash. */
module EmbeddingSearch {
  import opened Common

  type Text = string
  type Vector = seq<int>

  /** The cache on disk, for one model and one memory root; it may hold anything. */
  datatype CacheFile = NoFile | CacheFile(model: string, root: string, vectors: map<Text, Vector>)

  /** What the embedding service and the normalization do. */
  datatype Service = Service(embed: Text -> Vector, normalize: Vector -> Option<Vector>)

  /** A fresh embedding is normalized, and normalizing it again changes nothing. */
  ghost predicate IsStable(s: Service) {
    forall t: Text :: s.normalize(s.embed(t)) == Some(s.embed(t))
  }

  /** What a reader of the file would take for `model` and `root`. */
  function Loaded(file: CacheFile, model: string, root: string): map<Text, Vector> {
    if file.CacheFile? && file.model == model && file.root == root then file.vectors else map[]
  }

  /** Entries that can be used are the vectors a fresh embedding would give. */
  ghost predicate IsCorrect(s: Service, cache: map<Text, Vector>) {
    forall t :: t in cache ==> s.normalize(cache[t]) == None || s.normalize(cache[t]) == Some(s.embed(t))
  }

  ghost predicate IsFresh(s: Service, vectors: map<Text, Vector>) {
    forall t :: t in vectors ==> vectors[t] == s.embed(t)
  }

  function Concat<T>(xss: seq<seq<T>>): seq<T> {
    if xss == [] then [] else Concat(xss[..|xss| - 1]) + xss[|xss| - 1]
  }

  /** Each text once, where it first occurs. */
  function Unique(texts: seq<Text>): (r: seq<Text>)
    ensures Distinct(r) && Elements(r) == Elements(texts)
  {
    if texts == [] then []
    else
      var n := |texts| - 1;
      var r := Unique(texts[..n]);
      assert Elements(texts) == Elements(texts[..n]) + {texts[n]} by {
        TakeOne(texts, n);
        TakeAll(texts);
      }
      if texts[n] in r then r else r + [texts[n]]
  }

  class EmbeddingRetriever {
    const service: Service
    const root: string
    var file: CacheFile
    /** The batches sent to the service. */
    var sent: seq<seq<Text>>

    constructor (service: Service, root: string, file: CacheFile)
      ensures this.service == service && this.root == root && this.file == file && sent == []
    {
      this.service, this.root, this.file, sent := service, root, file, [];
    }

    /** The usable entries of the cache for `texts`, and the texts that have none. */
    method FromCache(texts: seq<Text>, cache: map<Text, Vector>) returns (vectors: map<Text, Vector>, missing: seq<Text>)
      requires IsCorrect(service, cache) && Distinct(texts)
      ensures IsFresh(service, vectors) && Distinct(missing)
      ensures forall t :: t in texts ==> (t in missing <==> !(t in cache && service.normalize(cache[t]).Some?))
      ensures vectors.Keys + Elements(missing) == Elements(texts) && vectors.Keys !! Elements(missing) && vectors.Keys <= cache.Keys
    {
      vectors, missing := map[], [];
      var i := 0;
      while i < |texts|
        invariant 0 <= i <= |texts|
        invariant IsFresh(service, vectors) && Distinct(missing) && vectors.Keys <= cache.Keys
        invariant forall t :: t in texts[..i] ==> (t in missing <==> !(t in cache && service.normalize(cache[t]).Some?))
        invariant vectors.Keys + Elements(missing) == Elements(texts[..i]) && vectors.Keys !! Elements(missing)
      {
        var t := texts[i];
        TakeOne(texts, i);
        NotBefore(texts, i);
        assert t !in Elements(texts[..i]) && Elements(missing) <= Elements(texts[..i]);
        var value := if t in cache then service.normalize(cache[t]) else None;
        if value.Some? {
          vectors := vectors[t := value.value];
        } else {
          assert t !in Elements(missing);
          missing := missing + [t];
        }
        i := i + 1;
      }
      assert texts[..i] == texts;
    }

    /** Embed what is missing, no batch larger than the service takes. */
    method EmbedMissing(known: map<Text, Vector>, missing: seq<Text>, batch: nat) returns (vectors: map<Text, Vector>)
      requires batch > 0 && IsFresh(service, known) && sent == []
      modifies this`sent
      ensures vectors.Keys == known.Keys + Elements(missing) && IsFresh(service, vectors)
      ensures Concat(sent) == missing && forall i :: 0 <= i < |sent| ==> |sent[i]| <= batch
    {
      vectors := known;
      var offset := 0;
      while offset < |missing|
        invariant 0 <= offset <= |missing|
        invariant IsFresh(service, vectors) && vectors.Keys == known.Keys + Elements(missing[..offset])
        invariant Concat(sent) == missing[..offset] && forall i :: 0 <= i < |sent| ==> |sent[i]| <= batch
      {
        var end := if offset + batch < |missing| then offset + batch else |missing|;
        var keys := missing[offset..end];
        assert missing[..end] == missing[..offset] + keys;
        assert (sent + [keys])[..|sent|] == sent;
        sent := sent + [keys];
        var embed := service.embed;
        vectors := vectors + map t | t in keys :: embed(t);
        offset := end;
      }
      assert missing[..offset] == missing;
    }

    /**
     Every text gets the vector a fresh embedding would give, only missing
     texts are embedded, each once, and the file then holds exactly these texts.
     */
    method Vectors(texts: seq<Text>, model: string, batch: nat) returns (vectors: map<Text, Vector>)
      requires batch > 0 && IsStable(service) && IsCorrect(service, Loaded(file, model, root)) && sent == []
      modifies this
      ensures vectors.Keys == Elements(texts) && IsFresh(service, vectors)
      ensures Distinct(Concat(sent)) && Elements(Concat(sent)) <= Elements(texts) && forall i :: 0 <= i < |sent| ==> |sent[i]| <= batch
      ensures Loaded(file, model, root).Keys == Elements(texts)
      ensures IsCorrect(service, Loaded(file, model, root))
      ensures forall t :: t in texts ==> (t in Elements(Concat(sent)) <==>
        !(old(file).CacheFile? && old(file).model == model && old(file).root == root && t in old(file).vectors && service.normalize(old(file).vectors[t]).Some?))
      ensures texts != [] ==> file.CacheFile? && file.model == model && file.root == root && file.vectors.Keys == Elements(texts)
    {
      var cache := Loaded(file, model, root);
      var known, missing := FromCache(Unique(texts), cache);
      vectors := EmbedMissing(known, missing, batch);
      if missing != [] || cache.Keys != vectors.Keys {
        file := CacheFile(model, root, vectors);
      }
      assert texts != [] ==> texts[0] in vectors.Keys;
    }
  }

  // ---------- selection ----------

  datatype Candidate = Candidate(score: int, index: nat, passage: Text)

  /** The first passage with the best score. */
  function BestPassage(score: Text -> int, parts: seq<Text>): (r: Text)
    requires parts != []
    ensures r in parts
  {
    var last := parts[|parts| - 1];
    if |parts| == 1 then last
    else
      var best := BestPassage(score, parts[..|parts| - 1]);
      if score(last) > score(best) then last else best
  }

  lemma InPrefix(parts: seq<Text>, part: Text)
    requires part in parts && part != parts[|parts| - 1]
    ensures part in parts[..|parts| - 1]
  {
    var i :| 0 <= i < |parts| && parts[i] == part;
    assert parts[..|parts| - 1][i] == part;
  }

  lemma {:induction false} BestIsBest(score: Text -> int, parts: seq<Text>, part: Text)
    requires part in parts
    ensures score(part) <= score(BestPassage(score, parts))
    decreases |parts|
  {
    var n := |parts| - 1;
    if part != parts[n] {
      InPrefix(parts, part);
      BestIsBest(score, parts[..n], part);
    }
  }

  /** And the first with that score. */
  lemma {:induction false} BestIsFirst(score: Text -> int, parts: seq<Text>) returns (i: nat)
    requires parts != []
    ensures i < |parts| && parts[i] == BestPassage(score, parts)
    ensures forall j :: 0 <= j < i ==> score(parts[j]) < score(parts[i])
    ensures forall j :: i <= j < |parts| ==> score(parts[j]) <= score(parts[i])
    decreases |parts|
  {
    var n := |parts| - 1;
    if n == 0 {
      return 0;
    }
    i := BestIsFirst(score, parts[..n]);
    assert forall j :: 0 <= j < n ==> parts[j] == parts[..n][j];
    if score(parts[n]) > score(parts[i]) {
      i := n;
    }
  }

  /** The candidate of each entry. */
  function Candidates(score: Text -> int, passages: seq<seq<Text>>): (r: seq<Candidate>)
    requires forall i :: 0 <= i < |passages| ==> passages[i] != []
    ensures |r| == |passages|
  {
    seq(|passages|, i requires 0 <= i < |passages| => Candidate(score(BestPassage(score, passages[i])), i, BestPassage(score, passages[i])))
  }

  /** Better score first, then earlier entry. */
  predicate Before(a: Candidate, b: Candidate) {
    a.score > b.score || (a.score == b.score && a.index < b.index)
  }

  function Place(c: Candidate, cs: seq<Candidate>): seq<Candidate> {
    if cs == [] || Before(c, cs[0]) then [c] + cs else [cs[0]] + Place(c, cs[1..])
  }

  function Ranked(cs: seq<Candidate>): seq<Candidate> {
    if cs == [] then [] else Place(cs[0], Ranked(cs[1..]))
  }

  predicate IsRanked(cs: seq<Candidate>) {
    forall i, j :: 0 <= i < j < |cs| ==> Before(cs[i], cs[j])
  }

  predicate DistinctIndices(cs: seq<Candidate>) {
    forall i, j :: 0 <= i < j < |cs| ==> cs[i].index != cs[j].index
  }

  lemma {:induction false} PlaceMembers(c: Candidate, cs: seq<Candidate>)
    ensures multiset(Place(c, cs)) == multiset(cs) + multiset{c}
  {
    if cs != [] {
      assert cs == [cs[0]] + cs[1..];
      if !Before(c, cs[0]) {
        PlaceMembers(c, cs[1..]);
      }
    }
  }

  lemma {:induction false} PlaceRanks(c: Candidate, cs: seq<Candidate>)
    requires IsRanked(cs) && forall i :: 0 <= i < |cs| ==> cs[i].index != c.index
    ensures IsRanked(Place(c, cs))
  {
    if cs != [] && !Before(c, cs[0]) {
      PlaceRanks(c, cs[1..]);
      PlaceMembers(c, cs[1..]);
      var r := Place(c, cs[1..]);
      forall i | 0 <= i < |r| ensures Before(cs[0], r[i]) {
        assert r[i] in multiset(r);
        assert r[i] == c || r[i] in cs[1..];
      }
    }
  }

  lemma {:induction false} RankedIsSorted(cs: seq<Candidate>)
    requires DistinctIndices(cs)
    ensures IsRanked(Ranked(cs)) && multiset(Ranked(cs)) == multiset(cs)
  {
    if cs != [] {
      RankedIsSorted(cs[1..]);
      assert cs == [cs[0]] + cs[1..];
      var rest := Ranked(cs[1..]);
      forall i | 0 <= i < |rest| ensures rest[i].index != cs[0].index {
        assert rest[i] in multiset(rest);
        assert rest[i] in cs[1..];
      }
      PlaceMembers(cs[0], rest);
      PlaceRanks(cs[0], rest);
    }
  }

  predicate IsPermutation(order: seq<nat>, n: nat) {
    |order| == n && (forall i :: 0 <= i < n ==> order[i] < n) && forall i, j :: 0 <= i < j < n ==> order[i] != order[j]
  }

  function Min(a: nat, b: nat): nat {
    if a < b then a else b
  }

  /** The best candidates, in the reranker's order, as entries. */
  function Selected(ranked: seq<Candidate>, candidateCount: nat, order: seq<nat>, resultCount: nat): (r: seq<nat>)
    requires IsPermutation(order, Min(candidateCount, |ranked|))
    ensures |r| == Min(resultCount, |order|)
  {
    seq(Min(resultCount, |order|), i requires 0 <= i < Min(resultCount, |order|) => ranked[order[i]].index)
  }

  /** `k` is one of the `n` best entries by their best passages. */
  predicate IsAmongBest(ranked: seq<Candidate>, n: nat, k: nat) {
    exists i :: 0 <= i < n && i < |ranked| && ranked[i].index == k
  }

  /** Entry `k` is in the candidates, `other` is not: its best passage is no better. */
  lemma BestAreBetter(score: Text -> int, passages: seq<seq<Text>>, n: nat, k: nat, other: nat)
    requires forall i :: 0 <= i < |passages| ==> passages[i] != []
    requires var ranked := Ranked(Candidates(score, passages));
             k < |passages| && other < |passages| && IsAmongBest(ranked, n, k) && !IsAmongBest(ranked, n, other)
    ensures score(BestPassage(score, passages[other])) < score(BestPassage(score, passages[k]))
      || (score(BestPassage(score, passages[other])) == score(BestPassage(score, passages[k])) && k < other)
  {
    var cs := Candidates(score, passages);
    var ranked := Ranked(cs);
    RankedIsSorted(cs);
    var i :| 0 <= i < n && i < |ranked| && ranked[i].index == k;
    assert cs[other] in multiset(cs) && cs[other] in ranked;
    var j :| 0 <= j < |ranked| && ranked[j] == cs[other];
    assert ranked[i] in multiset(cs) && ranked[i] in cs;
    assert ranked[i] == cs[k];
  }

  /** The best passage of entry `a` scores higher than that of `b`, or as high and comes first. */
  predicate Beats(score: Text -> int, passages: seq<seq<Text>>, a: nat, b: nat)
    requires forall i :: 0 <= i < |passages| ==> passages[i] != []
    requires a < |passages| && b < |passages|
  {
    var x, y := score(BestPassage(score, passages[a])), score(BestPassage(score, passages[b]));
    x > y || (x == y && a < b)
  }

  /** How many entries beat entry `k`. */
  ghost function Standing(score: Text -> int, passages: seq<seq<Text>>, k: nat): nat
    requires forall i :: 0 <= i < |passages| ==> passages[i] != []
    requires k < |passages|
  {
    |set a | 0 <= a < |passages| && Beats(score, passages, a, k)|
  }

  function FirstIndices(ranked: seq<Candidate>, n: nat): set<nat>
    requires n <= |ranked|
  {
    set i | 0 <= i < n :: ranked[i].index
  }

  lemma {:induction false} FirstIndicesCount(ranked: seq<Candidate>, n: nat)
    requires n <= |ranked| && DistinctIndices(ranked)
    ensures |FirstIndices(ranked, n)| == n
  {
    if n > 0 {
      FirstIndicesCount(ranked, n - 1);
      assert FirstIndices(ranked, n) == FirstIndices(ranked, n - 1) + {ranked[n - 1].index};
    }
  }

  /** Exactly `n` entries beat the one at place `n` of the ranking. */
  lemma StandingIsPlace(score: Text -> int, passages: seq<seq<Text>>, n: nat)
    requires forall i :: 0 <= i < |passages| ==> passages[i] != []
    requires n < |passages| == |Ranked(Candidates(score, passages))|
    ensures var k := Ranked(Candidates(score, passages))[n].index;
            k < |passages| && Standing(score, passages, k) == n
  {
    var cs := Candidates(score, passages);
    var ranked := Ranked(cs);
    RankedIsSorted(cs);
    RankedIndicesDiffer(cs, ranked);
    RankedAreCandidates(cs, ranked);
    var k := ranked[n].index;
    FirstIndicesCount(ranked, n);
    var beating := set a | 0 <= a < |passages| && Beats(score, passages, a, k);
    forall a | 0 <= a < |passages| ensures a in beating <==> a in FirstIndices(ranked, n) {
      var i :| 0 <= i < |ranked| && ranked[i] == cs[a];
      BeforeInRanking(ranked, i, n);
      assert Before(cs[a], cs[k]) <==> Beats(score, passages, a, k);
    }
    assert beating == FirstIndices(ranked, n);
  }

  lemma BeforeInRanking(ranked: seq<Candidate>, i: nat, n: nat)
    requires IsRanked(ranked) && i < |ranked| && n < |ranked|
    ensures Before(ranked[i], ranked[n]) <==> i < n
    ensures (forall j, k :: 0 <= j < k < |ranked| ==> ranked[j].index != ranked[k].index) ==> (ranked[i].index in FirstIndices(ranked, n) <==> i < n)
  {}

  lemma RankedAreCandidates(cs: seq<Candidate>, ranked: seq<Candidate>)
    requires multiset(ranked) == multiset(cs) && forall i :: 0 <= i < |cs| ==> cs[i].index == i
    ensures forall i :: 0 <= i < |ranked| ==> ranked[i].index < |cs| && ranked[i] == cs[ranked[i].index]
    ensures forall a :: 0 <= a < |cs| ==> cs[a] in ranked
  {
    forall i | 0 <= i < |ranked| ensures ranked[i].index < |cs| && ranked[i] == cs[ranked[i].index] {
      assert ranked[i] in multiset(cs);
    }
    forall a | 0 <= a < |cs| ensures cs[a] in ranked {
      assert cs[a] in multiset(ranked);
    }
  }

  /** Embed, score, keep the best candidates, rerank them, cut. */
  method Select(score: Text -> int, passages: seq<seq<Text>>, candidateCount: nat, order: seq<nat>, resultCount: nat) returns (chosen: seq<nat>)
    requires forall i :: 0 <= i < |passages| ==> passages[i] != []
    requires IsPermutation(order, Min(candidateCount, |passages|))
    ensures |Ranked(Candidates(score, passages))| == |passages| && chosen == Selected(Ranked(Candidates(score, passages)), candidateCount, order, resultCount)
    ensures |chosen| == Min(resultCount, Min(candidateCount, |passages|))
    ensures forall i :: 0 <= i < |chosen| ==> chosen[i] < |passages| && Standing(score, passages, chosen[i]) == order[i]
    ensures forall i :: 0 <= i < |chosen| ==> chosen[i] < |passages| && IsAmongBest(Ranked(Candidates(score, passages)), candidateCount, chosen[i])
    ensures forall i, j :: 0 <= i < j < |chosen| ==> chosen[i] != chosen[j]
  {
    var candidates: seq<Candidate> := [];
    ghost var all := Candidates(score, passages);
    var i := 0;
    while i < |passages|
      invariant 0 <= i <= |passages|
      invariant candidates == all[..i]
    {
      var best := BestPassage(score, passages[i]);
      candidates := candidates + [Candidate(score(best), i, best)];
      i := i + 1;
    }
    assert all[..i] == all;
    RankedIsSorted(all);
    var ranked := Ranked(candidates);
    SameSize(ranked, all);
    chosen := Selected(ranked, candidateCount, order, resultCount);
    forall k | 0 <= k < |chosen| ensures chosen[k] < |passages| && IsAmongBest(ranked, candidateCount, chosen[k]) {
      assert ranked[order[k]] in multiset(all) && ranked[order[k]] in all;
    }
    RankedIndicesDiffer(all, ranked);
    forall k | 0 <= k < |chosen| ensures chosen[k] < |passages| && Standing(score, passages, chosen[k]) == order[k] {
      StandingIsPlace(score, passages, order[k]);
    }
  }

  lemma SameSize(a: seq<Candidate>, b: seq<Candidate>)
    requires multiset(a) == multiset(b)
    ensures |a| == |b|
  {
    assert |multiset(a)| == |a| && |multiset(b)| == |b|;
  }

  lemma RankedIndicesDiffer(all: seq<Candidate>, ranked: seq<Candidate>)
    requires IsRanked(ranked) && multiset(ranked) == multiset(all) && forall i :: 0 <= i < |all| ==> all[i].index == i
    ensures forall i, j :: 0 <= i < j < |ranked| ==> ranked[i].index != ranked[j].index
  {
    forall i, j | 0 <= i < j < |ranked| ensures ranked[i].index != ranked[j].index {
      assert ranked[i] in multiset(all) && ranked[j] in multiset(all);
      assert ranked[i] in all && ranked[j] in all;
    }
  }
}
