/** What the retrieval scores mean: which words a text has, when two texts match, and how the two scores are weighed. */
module RetrievalLaws {
  import opened Text
  import opened Vectors
  import opened Retrieval

  // ---------- words ----------

  ghost predicate IsWord(s: string) { s != "" && forall i :: 0 <= i < |s| ==> IsWordChar(s[i]) }

  lemma {:induction false} FieldsOfWord(s: string, word: string)
    requires forall i :: 0 <= i < |s| ==> IsWordChar(s[i])
    ensures Fields(s, word) == if word + s == "" then [] else [word + s]
  {
    if |s| == 0 {
      assert word + s == word;
    } else {
      FieldsOfWord(s[1..], word + [s[0]]);
      assert word + [s[0]] + s[1..] == word + s;
    }
  }

  lemma {:induction false} FieldsSplit(a: string, c: char, b: string, word: string)
    requires !IsWordChar(c)
    ensures Fields(a + [c] + b, word) == Fields(a, word) + Fields(b, "")
  {
    var s := a + [c] + b;
    if |a| == 0 {
      assert s[0] == c && s[1..] == b;
    } else {
      assert s[0] == a[0] && s[1..] == a[1..] + [c] + b;
      FieldsSplit(a[1..], c, b, if IsWordChar(a[0]) then word + [a[0]] else "");
    }
  }

  /** The words of a text: a word is its own in lower case, and anything that is not a letter or digit parts the words before
      it from those after it. */
  lemma WordsOf(a: string, c: char, b: string)
    ensures IsWord(a) ==> Tokenize(a) == [Lower(a)]
    ensures Tokenize("") == []
    ensures !IsWordChar(c) ==> Tokenize(a + [c] + b) == Tokenize(a) + Tokenize(b)
  {
    hide LowerChar;
    CharCases(c);
    assert Lower("") == "";
    if IsWord(a) {
      forall i | 0 <= i < |a| ensures IsWordChar(Lower(a)[i]) { CharCases(a[i]); }
      FieldsOfWord(Lower(a), "");
      assert "" + Lower(a) == Lower(a);
    }
    if !IsWordChar(c) {
      assert Lower(a + [c] + b) == Lower(a) + [LowerChar(c)] + Lower(b);
      FieldsSplit(Lower(a), LowerChar(c), Lower(b), "");
    }
  }

  lemma CharCases(c: char)
    ensures IsWordChar(LowerChar(c)) <==> IsWordChar(c)
  {
  }

  // ---------- the lexical score ----------

  /** The overlap is the number of common words over the number of words in either text; it is 1 exactly for the same words,
      and 0 exactly for none in common. */
  lemma OverlapMeaning(q: seq<string>, d: seq<string>)
    requires q != [] && d != []
    ensures var common, all := set t | t in q && t in d, set t | t in q + d;
      && Overlap(q, d) * |all| as real == |common| as real
      && (Overlap(q, d) == 1.0 <==> forall t :: t in q <==> t in d)
      && (Overlap(q, d) == 0.0 <==> forall t :: t in q ==> t !in d)
      && Overlap(q, d) == Overlap(d, q)
  {
    var a, b := TokenSet(q), TokenSet(d);
    var common, all := set t | t in q && t in d, set t | t in q + d;
    assert a * b == common == b * a && a + b == all == b + a;
    assert q[0] in all;
    OverTimes(|common| as real, |all| as real);
    SameSize(common, all);
    assert common == all ==> forall t :: t in q <==> t in d by {
      assert forall t :: t in q ==> t in all;
      assert forall t :: t in d ==> t in all;
    }
    assert (forall t :: t in q ==> t !in d) <==> common == {} by {
      assert forall t :: t in common <==> t in q && t in d;
    }
  }

  lemma SameSize(a: set<string>, b: set<string>)
    requires a <= b
    ensures |a| == |b| <==> a == b
  {
    assert b == a + (b - a);
  }

  lemma OverTimes(x: real, n: real)
    requires n > 0.0
    ensures Over(x, n) * n == x
    ensures Over(x, n) == 1.0 <==> x == n
    ensures Over(x, n) == 0.0 <==> x == 0.0
  {
  }

  // ---------- the vector score ----------

  ghost predicate Shared(env: Env, x: seq<string>, y: seq<string>, dim: nat)
    requires dim > 0
  {
    exists s, t :: s in x && t in y && Slot(env, s, dim) == Slot(env, t, dim)
  }

  /** Texts match at all exactly if some word of one falls into the slot of a word of the other, so always if they share one. */
  lemma CosineMeaning(env: Env, x: string, y: string, dim: int)
    requires Lawful(env)
    ensures var c := Cosine(Embedding(env, x, dim), Embedding(env, y, dim));
      && (c > 0.0 <==> Shared(env, Tokenize(x), Tokenize(y), Dimension(dim)))
      && c == Cosine(Embedding(env, y, dim), Embedding(env, x, dim))
  {
    hide Tokenize, Normalized, Shares, Lawful, Slot, Shared;
    var d, s, t := Dimension(dim), Tokenize(x), Tokenize(y);
    var a, b := Embedding(env, x, dim), Embedding(env, y, dim);
    SharesNonNegative(env, s, d);
    SharesNonNegative(env, t, d);
    NormalizedUnit(env, Shares(env, s, d));
    NormalizedUnit(env, Shares(env, t, d));
    DotPositive(a, b);
    DotSymmetric(a, b);
    forall j | 0 <= j < d ensures (a[j] > 0.0 <==> Hit(env, s, d, j)) && (b[j] > 0.0 <==> Hit(env, t, d, j)) {
      EmbeddingHit(env, s, d, j);
      EmbeddingHit(env, t, d, j);
    }
    SharedSlot(env, s, t, d);
  }

  ghost predicate Hit(env: Env, toks: seq<string>, dim: nat, j: nat)
    requires dim > 0
  {
    exists t :: t in toks && Slot(env, t, dim) == j
  }

  lemma SharedSlot(env: Env, x: seq<string>, y: seq<string>, dim: nat)
    requires dim > 0
    ensures Shared(env, x, y, dim) <==> exists j: nat :: j < dim && Hit(env, x, dim, j) && Hit(env, y, dim, j)
  {
    hide Slot;
    if Shared(env, x, y, dim) {
      var s, t :| s in x && t in y && Slot(env, s, dim) == Slot(env, t, dim);
      assert Hit(env, x, dim, Slot(env, s, dim)) && Hit(env, y, dim, Slot(env, s, dim));
    }
  }

  lemma {:induction false} InSlotHit(env: Env, toks: seq<string>, dim: nat, j: nat)
    requires dim > 0
    ensures InSlot(env, toks, dim, j) > 0 <==> Hit(env, toks, dim, j)
  {
    hide Slot;
    if |toks| > 0 {
      var front, last := toks[..|toks| - 1], toks[|toks| - 1];
      InSlotHit(env, front, dim, j);
      assert toks == front + [last];
      if Hit(env, toks, dim, j) {
        var t :| t in toks && Slot(env, t, dim) == j;
        assert t in front || t == last;
      }
      if Hit(env, front, dim, j) {
        var t :| t in front && Slot(env, t, dim) == j;
        assert t in toks;
      }
    }
  }

  lemma EmbeddingHit(env: Env, toks: seq<string>, dim: nat, j: nat)
    requires Lawful(env) && dim > 0 && j < dim
    ensures Normalized(env, Shares(env, toks, dim))[j] > 0.0 <==> Hit(env, toks, dim, j)
  {
    hide Hit, Slot, SumSquares, Lawful;
    var v := Shares(env, toks, dim);
    InSlotHit(env, toks, dim, j);
    SharesNonNegative(env, toks, dim);
    if |toks| > 0 { OverSign(InSlot(env, toks, dim, j) as real, |toks| as real); }
    if SumSquares(v) != 0.0 {
      SqrtSquare(env, SumSquares(v));
      OverSign(v[j], env.sqrt(SumSquares(v)));
    }
  }

  lemma OverSign(x: real, n: real)
    requires n > 0.0
    ensures Over(x, n) > 0.0 <==> x > 0.0
  {
    var y := x / n;
    assert y * n == x;
    SameSign(y, n);
  }

  lemma SameSign(y: real, n: real)
    requires n > 0.0
    ensures y > 0.0 ==> y * n > 0.0
    ensures y <= 0.0 ==> y * n <= 0.0
  {
  }

  lemma {:induction false} DotSymmetric(a: seq<real>, b: seq<real>)
    requires |a| == |b|
    ensures Dot(a, b) == Dot(b, a)
  {
    if |a| > 0 { DotSymmetric(a[..|a| - 1], b[..|b| - 1]); }
  }

  lemma TimesSign(x: real, y: real)
    requires x >= 0.0 && y >= 0.0
    ensures Times(x, y) >= 0.0
    ensures Times(x, y) > 0.0 <==> x > 0.0 && y > 0.0
  {
  }

  lemma {:induction false} DotPositive(a: seq<real>, b: seq<real>)
    requires |a| == |b| && NonNegative(a) && NonNegative(b)
    ensures Dot(a, b) > 0.0 <==> exists j :: 0 <= j < |a| && a[j] > 0.0 && b[j] > 0.0
  {
    hide Times;
    if |a| > 0 {
      var n := |a| - 1;
      DotPositive(a[..n], b[..n]);
      DotNonNegative(a[..n], b[..n]);
      TimesSign(a[n], b[n]);
      assert forall j :: 0 <= j < n ==> a[..n][j] == a[j] && b[..n][j] == b[j];
    }
  }

  // ---------- the mix ----------

  /** Seven tenths of a score come from the vectors, over 128 slots, and three tenths from the words. */
  lemma MixedScore(env: Env, query: string, d: Doc)
    ensures var h := HitOf(env, query, d);
      && 10.0 * h.score == 7.0 * h.vector + 3.0 * h.lexical
      && h.vector == Cosine(Embedding(env, query, 128), Embedding(env, d.text, 128))
      && h.lexical == Overlap(Tokenize(query), Tokenize(d.text))
  {
    hide Embedding, Cosine, Overlap, Tokenize;
  }

  /** A document with the query's own words scores 1, and one scores 0 exactly if neither a slot nor a word is shared. */
  lemma ExtremeScores(env: Env, query: string, d: Doc)
    requires Lawful(env) && Tokenize(query) != []
    ensures Tokenize(d.text) == Tokenize(query) ==> HitOf(env, query, d).score == 1.0
    ensures HitOf(env, query, d).score == 0.0 <==> !Shared(env, Tokenize(query), Tokenize(d.text), 128)
  {
    hide Embedding, Cosine, Overlap, Tokenize, Lawful, Shared;
    MixedScore(env, query, d);
    ScoreRange(env, query, d);
    CosineMeaning(env, query, d.text, 128);
    if Tokenize(d.text) == Tokenize(query) { SameEmbedding(env, query, d.text, 128); }
    CosineOfSame(env, query, 128);
    WordShared(env, Tokenize(query), Tokenize(d.text), 128);
    if Tokenize(d.text) != [] { OverlapMeaning(Tokenize(query), Tokenize(d.text)); }
  }

  lemma SameEmbedding(env: Env, x: string, y: string, dim: int)
    requires Tokenize(x) == Tokenize(y)
    ensures Embedding(env, x, dim) == Embedding(env, y, dim)
  {
  }

  lemma WordShared(env: Env, x: seq<string>, y: seq<string>, dim: nat)
    requires dim > 0
    ensures Overlap(x, y) != 0.0 ==> Shared(env, x, y, dim)
  {
    hide Slot;
    if TokenSet(x) * TokenSet(y) != {} {
      var t :| t in TokenSet(x) * TokenSet(y);
      assert t in x && t in y && Slot(env, t, dim) == Slot(env, t, dim);
    } else {
      assert |TokenSet(x) * TokenSet(y)| == 0;
    }
  }

  /** What a returned document lacks in vector score against an omitted match it makes up for in words, at seven to three. */
  lemma OmittedNotBetter(env: Env, query: string, docs: seq<Doc>, filters: map<string, string>, topK: int,
                         out: seq<Hit>, rest: seq<Hit>, i: nat, omitted: Doc)
    requires Lawful(env) && TopOf(out, rest, HitsOf(env, query, Matching(docs, filters)), topK) && i < |out|
    requires omitted in docs && HitOf(env, query, omitted) !in out
    requires forall k :: k in filters ==> k in omitted.metadata && EqualFold(Trim(omitted.metadata[k]), Trim(filters[k]))
    ensures 7.0 * (Cosine(Embedding(env, query, 128), Embedding(env, omitted.text, 128)) - out[i].vector)
         <= 3.0 * (out[i].lexical - Overlap(Tokenize(query), Tokenize(omitted.text)))
  {
    hide Embedding, Cosine, Overlap, Tokenize, HitOf, TopOf, HitsOf, Matching, Lawful, Trim, EqualFold;
    ReturnedMatch(env, query, docs, filters, topK, out, rest, i, omitted);
    MixedScore(env, query, out[i].doc);
    MixedScore(env, query, omitted);
  }
}
