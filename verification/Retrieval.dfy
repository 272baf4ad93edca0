/** The local hybrid retrieval ranking (worker/internal/executor/executor.go), over exact reals. */
module Retrieval {
  import opened Text
  import opened Listings
  import opened Vectors
  import Sorting

  /** Metadata values are taken as they print. */
  datatype Doc = Doc(id: string, text: string, metadata: map<string, string>)

  datatype Hit = Hit(doc: Doc, vector: real, lexical: real, score: real)

  // ---------- filters ----------

  predicate Matches(metadata: map<string, string>, filters: map<string, string>) {
    forall k :: k in filters ==> k in metadata && EqualFold(Trim(metadata[k]), Trim(filters[k]))
  }

  function Matching(docs: seq<Doc>, filters: map<string, string>): (r: seq<Doc>)
    ensures |r| <= |docs|
  {
    if |docs| == 0 then []
    else
      var last := docs[|docs| - 1];
      Matching(docs[..|docs| - 1], filters) + if Matches(last.metadata, filters) then [last] else []
  }

  lemma {:induction false} MatchingMembers(docs: seq<Doc>, filters: map<string, string>, d: Doc)
    ensures d in Matching(docs, filters) <==> d in docs && Matches(d.metadata, filters)
  {
    if |docs| > 0 {
      MatchingMembers(docs[..|docs| - 1], filters, d);
      assert docs == docs[..|docs| - 1] + [docs[|docs| - 1]];
    }
  }

  lemma {:induction false} NoFilters(docs: seq<Doc>)
    ensures Matching(docs, map[]) == docs
  {
    if |docs| > 0 {
      NoFilters(docs[..|docs| - 1]);
      assert docs == docs[..|docs| - 1] + [docs[|docs| - 1]];
    }
  }

  method MatchesFilters(metadata: map<string, string>, filters: map<string, string>) returns (ok: bool)
    ensures ok == Matches(metadata, filters)
  {
    var rest := filters.Keys;
    while rest != {}
      invariant rest <= filters.Keys
      invariant forall k :: k in filters && k !in rest ==>
        k in metadata && EqualFold(Trim(metadata[k]), Trim(filters[k]))
      decreases rest
    {
      var k :| k in rest;
      if k !in metadata || !EqualFold(Trim(metadata[k]), Trim(filters[k])) {
        return false;
      }
      rest := rest - {k};
    }
    return true;
  }

  method FilterDocsByMetadata(docs: seq<Doc>, filters: map<string, string>) returns (out: seq<Doc>)
    ensures out == Matching(docs, filters)
  {
    if |filters| == 0 {
      NoFilters(docs);
      assert filters == map[];
      return docs;
    }
    out := [];
    for i := 0 to |docs|
      invariant out == Matching(docs[..i], filters)
    {
      assert docs[..i + 1][..i] == docs[..i];
      var ok := MatchesFilters(docs[i].metadata, filters);
      if ok {
        out := out + [docs[i]];
      }
    }
    assert docs[..|docs|] == docs;
  }

  // ---------- lexical score ----------

  function TokenSet(toks: seq<string>): set<string> { set t | t in toks }

  /** The share of common tokens among all distinct ones. */
  function Overlap(q: seq<string>, d: seq<string>): real {
    var union := TokenSet(q) + TokenSet(d);
    if |q| == 0 || |d| == 0 || |union| == 0 then 0.0
    else Over(|TokenSet(q) * TokenSet(d)| as real, |union| as real)
  }

  lemma OverRange(x: real, n: real)
    requires 0.0 <= x <= n && n > 0.0
    ensures 0.0 <= Over(x, n) <= 1.0
  {
  }

  lemma OverlapRange(q: seq<string>, d: seq<string>)
    ensures 0.0 <= Overlap(q, d) <= 1.0
  {
    var common, union := TokenSet(q) * TokenSet(d), TokenSet(q) + TokenSet(d);
    SubsetSize(common, union);
    if |union| > 0 {
      OverRange(|common| as real, |union| as real);
    }
  }

  method Distinct(toks: seq<string>) returns (seen: set<string>)
    ensures seen == TokenSet(toks)
  {
    seen := {};
    for i := 0 to |toks|
      invariant seen == TokenSet(toks[..i])
    {
      assert toks[..i + 1] == toks[..i] + [toks[i]];
      seen := seen + {toks[i]};
    }
    assert toks[..|toks|] == toks;
  }

  method TokenOverlapScore(q: seq<string>, d: seq<string>) returns (score: real)
    ensures score == Overlap(q, d)
  {
    if |q| == 0 || |d| == 0 {
      return 0.0;
    }
    var qs := Distinct(q);
    var ds := Distinct(d);
    var intersect: nat := 0;
    var rest := qs;
    ghost var done: set<string> := {};
    while rest != {}
      invariant done !! rest && done + rest == qs && intersect == |done * ds|
      decreases rest
    {
      var tok :| tok in rest;
      if tok in ds {
        assert (done + {tok}) * ds == done * ds + {tok};
        intersect := intersect + 1;
      } else {
        assert (done + {tok}) * ds == done * ds;
      }
      rest := rest - {tok};
      done := done + {tok};
    }
    assert done == qs;
    assert |qs + ds| == |qs| + |ds| - |qs * ds|;
    var denom := |qs| + |ds| - intersect;
    if denom <= 0 {
      return 0.0;
    }
    return Over(intersect as real, denom as real);
  }

  // ---------- scores ----------

  const DIM := 128

  function VectorScore(env: Env, query: string, d: Doc): real {
    Cosine(Embedding(env, query, DIM), Embedding(env, d.text, DIM))
  }

  function LexicalScore(query: string, d: Doc): real { Overlap(Tokenize(query), Tokenize(d.text)) }

  function HitOf(env: Env, query: string, d: Doc): Hit {
    Hit(d, VectorScore(env, query, d), LexicalScore(query, d),
        0.7 * VectorScore(env, query, d) + 0.3 * LexicalScore(query, d))
  }

  /** Vector, lexical and hybrid scores all lie between 0 and 1. */
  lemma ScoreRange(env: Env, query: string, d: Doc)
    requires Lawful(env)
    ensures var h := HitOf(env, query, d);
            0.0 <= h.vector <= 1.0 && 0.0 <= h.lexical <= 1.0 && 0.0 <= h.score <= 1.0
  {
    hide Embedding, Cosine, Overlap, Tokenize;
    CosineRange(env, query, d.text, DIM);
    OverlapRange(Tokenize(query), Tokenize(d.text));
  }

  function HitsOf(env: Env, query: string, docs: seq<Doc>): (hits: seq<Hit>)
    ensures |hits| == |docs|
  {
    seq(|docs|, i requires 0 <= i < |docs| => HitOf(env, query, docs[i]))
  }

  /** sort.Slice's less */
  predicate Better(a: Hit, b: Hit) { a.score > b.score }

  ghost predicate Ranked(hits: seq<Hit>) {
    forall i, j :: 0 <= i < j < |hits| ==> hits[i].score >= hits[j].score
  }

  function Wanted(topK: int, found: nat): nat {
    var k := if topK <= 0 then 5 else topK;
    if k > found then found else k
  }

  /** The best hits, best first; `rest` is what the ranking leaves out. */
  ghost predicate TopOf(out: seq<Hit>, rest: seq<Hit>, all: seq<Hit>, topK: int) {
    && |out| == Wanted(topK, |all|)
    && multiset(out) + multiset(rest) == multiset(all)
    && Ranked(out)
    && forall h, g :: h in out && g in rest ==> h.score >= g.score
  }

  lemma SortedRanked(hits: seq<Hit>)
    ensures multiset(Sorting.StableSort(hits, Better)) == multiset(hits)
    ensures Ranked(Sorting.StableSort(hits, Better))
  {
    Sorting.SortPermutes(hits, Better);
    Sorting.SortOrders(hits, Better);
    var sorted := Sorting.StableSort(hits, Better);
    forall i, j | 0 <= i < j < |sorted| ensures sorted[i].score >= sorted[j].score {
      assert !Better(sorted[j], sorted[i]);
    }
  }

  lemma TopOfRanked(sorted: seq<Hit>, all: seq<Hit>, topK: int)
    requires Ranked(sorted) && multiset(sorted) == multiset(all) && |sorted| == |all|
    ensures TopOf(sorted[..Wanted(topK, |all|)], sorted[Wanted(topK, |all|)..], all, topK)
  {
    var k := Wanted(topK, |all|);
    assert sorted == sorted[..k] + sorted[k..];
  }

  /** retrieveDocumentsLocalHybrid */
  method RetrieveLocalHybrid(env: Env, query: string, docs: seq<Doc>, filters: map<string, string>, topK: int)
    returns (out: seq<Hit>, ghost rest: seq<Hit>)
    requires Lawful(env)
    ensures Trim(query) == "" ==> out == []
    ensures Trim(query) != "" ==> TopOf(out, rest, HitsOf(env, Trim(query), Matching(docs, filters)), topK)
    ensures Trim(query) != "" ==>
      var found, k := |Matching(docs, filters)|, if topK > 0 then topK else 5; |out| == if k < found then k else found
  {
    hide Matching, Embedding, Cosine, Overlap, Tokenize, HitsOf, TopOf, Trim;
    rest := [];
    var q := Trim(query);
    if |docs| == 0 || q == "" {
      out := [];
      if q != "" {
        NothingFound(env, q, docs, filters, topK);
      }
      return;
    }
    var filtered := FilterDocsByMetadata(docs, filters);
    if |filtered| == 0 {
      out := [];
      NothingMatches(env, q, filtered, topK);
      return;
    }
    var hits := ScoreAll(env, q, filtered);
    var sorted := Sorting.StableSort(hits, Better);
    SortedRanked(hits);
    var k := if topK <= 0 then 5 else topK;
    k := if k > |sorted| then |sorted| else k;
    TopOfRanked(sorted, hits, topK);
    out := sorted[..k];
    rest := sorted[k..];
  }

  lemma NothingMatches(env: Env, q: string, filtered: seq<Doc>, topK: int)
    requires |filtered| == 0
    ensures TopOf([], [], HitsOf(env, q, filtered), topK)
  {
  }

  lemma NothingFound(env: Env, q: string, docs: seq<Doc>, filters: map<string, string>, topK: int)
    requires |docs| == 0
    ensures TopOf([], [], HitsOf(env, q, Matching(docs, filters)), topK)
  {
    NothingMatches(env, q, Matching(docs, filters), topK);
  }

  /** The scoring loop. */
  method ScoreAll(env: Env, q: string, filtered: seq<Doc>) returns (hits: seq<Hit>)
    requires Lawful(env)
    ensures hits == HitsOf(env, q, filtered)
  {
    hide Embedding, Cosine, Overlap, Tokenize;
    var qv := EmbedText(env, q, DIM);
    var qTokens := Tokenize(q);
    hits := [];
    for i := 0 to |filtered|
      invariant qv[..] == Embedding(env, q, DIM)
      invariant hits == HitsOf(env, q, filtered[..i])
    {
      var d := filtered[i];
      var dv := EmbedText(env, d.text, DIM);
      var vectorScore := CosineSimilarity(qv, dv);
      var lexicalScore := TokenOverlapScore(qTokens, Tokenize(d.text));
      hits := hits + [Hit(d, vectorScore, lexicalScore, 0.7 * vectorScore + 0.3 * lexicalScore)];
      assert hits == HitsOf(env, q, filtered[..i + 1]);
    }
    assert filtered[..|filtered|] == filtered;
  }

  /** What the caller may rely on for each document returned: it was given, passes the filters, and is scored in range;
      and no matching document left out scores higher. */
  lemma ReturnedMatch(env: Env, query: string, docs: seq<Doc>, filters: map<string, string>, topK: int,
                      out: seq<Hit>, rest: seq<Hit>, i: nat, omitted: Doc)
    requires Lawful(env) && TopOf(out, rest, HitsOf(env, query, Matching(docs, filters)), topK) && i < |out|
    ensures out[i].doc in docs && Matches(out[i].doc.metadata, filters) && out[i] == HitOf(env, query, out[i].doc)
    ensures 0.0 <= out[i].score <= 1.0
    ensures omitted in docs && Matches(omitted.metadata, filters) && HitOf(env, query, omitted) !in out
        ==> HitOf(env, query, omitted).score <= out[i].score
  {
    hide Matching, Matches, HitOf;
    var found := Matching(docs, filters);
    var all := HitsOf(env, query, found);
    assert out[i] in multiset(out) + multiset(rest);
    var k :| 0 <= k < |all| && out[i] == all[k];
    HitDoc(env, query, found[k]);
    MatchingMembers(docs, filters, found[k]);
    ScoreRange(env, query, found[k]);
    MatchingMembers(docs, filters, omitted);
    if omitted in found {
      var m :| 0 <= m < |found| && found[m] == omitted;
      assert all[m] == HitOf(env, query, omitted);
      assert all[m] in multiset(all);
      assert all[m] in multiset(out) + multiset(rest);
    }
  }

  lemma HitDoc(env: Env, query: string, d: Doc)
    ensures HitOf(env, query, d).doc == d
  {
  }
}
