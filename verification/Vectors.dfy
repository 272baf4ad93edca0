/** Vectors of the local retrieval ranking (worker/internal/executor/executor.go), over exact reals.

    The token hash is any function, and the square root any function with a square root's law. */
module Vectors {
  import opened Text

  datatype Env = Env(hash: string -> nat, sqrt: real -> real)

  ghost predicate Lawful(env: Env) {
    forall x :: x > 0.0 ==> env.sqrt(x) > 0.0 && env.sqrt(x) * env.sqrt(x) == x
  }

  // ---------- tokens ----------

  predicate IsWordChar(c: char) { 'a' <= c <= 'z' || 'A' <= c <= 'Z' || IsDigit(c) }

  /** strings.FieldsFunc at non-word characters; `word` is the field begun. */
  function Fields(s: string, word: string): seq<string> {
    if |s| == 0 then (if word == "" then [] else [word])
    else if IsWordChar(s[0]) then Fields(s[1..], word + [s[0]])
    else (if word == "" then [] else [word]) + Fields(s[1..], "")
  }

  function Tokenize(text: string): seq<string> { Fields(Lower(text), "") }

  // ---------- norms and dot products ----------

  function Times(x: real, y: real): real { x * y }

  function SumSquares(v: seq<real>): (r: real)
    ensures r >= 0.0
  {
    if |v| == 0 then 0.0
    else
      SquareNonNegative(v[|v| - 1]);
      SumSquares(v[..|v| - 1]) + Times(v[|v| - 1], v[|v| - 1])
  }

  lemma SquareNonNegative(x: real)
    ensures Times(x, x) >= 0.0
  {
  }

  function Dot(a: seq<real>, b: seq<real>): real
    requires |a| == |b|
  {
    if |a| == 0 then 0.0
    else Dot(a[..|a| - 1], b[..|b| - 1]) + Times(a[|a| - 1], b[|b| - 1])
  }

  ghost predicate NonNegative(v: seq<real>) { forall i :: 0 <= i < |v| ==> v[i] >= 0.0 }

  lemma TwiceProduct(x: real, y: real)
    ensures 2.0 * Times(x, y) <= Times(x, x) + Times(y, y)
  {
    SquareNonNegative(x - y);
    assert (x - y) * (x - y) == x * x - 2.0 * (x * y) + y * y;
  }

  lemma ProductNonNegative(x: real, y: real)
    requires x >= 0.0 && y >= 0.0
    ensures Times(x, y) >= 0.0
  {
  }

  lemma {:induction false} DotBelow(a: seq<real>, b: seq<real>)
    requires |a| == |b|
    ensures 2.0 * Dot(a, b) <= SumSquares(a) + SumSquares(b)
  {
    hide Times;
    if |a| > 0 {
      DotBelow(a[..|a| - 1], b[..|b| - 1]);
      TwiceProduct(a[|a| - 1], b[|b| - 1]);
    }
  }

  lemma {:induction false} DotNonNegative(a: seq<real>, b: seq<real>)
    requires |a| == |b| && NonNegative(a) && NonNegative(b)
    ensures Dot(a, b) >= 0.0
  {
    hide Times;
    if |a| > 0 {
      DotNonNegative(a[..|a| - 1], b[..|b| - 1]);
      ProductNonNegative(a[|a| - 1], b[|b| - 1]);
    }
  }

  function Over(x: real, n: real): real
    requires n != 0.0
  {
    x / n
  }

  function Scaled(v: seq<real>, n: real): (r: seq<real>)
    requires n != 0.0
    ensures |r| == |v|
  {
    seq(|v|, i requires 0 <= i < |v| => Over(v[i], n))
  }

  function Normalized(env: Env, v: seq<real>): (r: seq<real>)
    ensures |r| == |v|
  {
    var n := env.sqrt(SumSquares(v));
    if SumSquares(v) == 0.0 || n == 0.0 then v else Scaled(v, n)
  }

  lemma QuotientSquare(x: real, n: real)
    requires n != 0.0
    ensures Times(Times(Over(x, n), Over(x, n)), Times(n, n)) == Times(x, x)
  {
    var q := x / n;
    assert q * n == x;
    assert (q * q) * (n * n) == (q * n) * (q * n);
  }

  lemma Distribute(a: real, b: real, c: real)
    ensures Times(a + b, c) == Times(a, c) + Times(b, c)
  {
  }

  lemma TimesZero(c: real)
    ensures Times(0.0, c) == 0.0
  {
  }

  lemma {:induction false} ScaledSquares(v: seq<real>, n: real)
    requires n != 0.0
    ensures Times(SumSquares(Scaled(v, n)), Times(n, n)) == SumSquares(v)
  {
    hide Times, Over;
    if |v| == 0 {
      TimesZero(Times(n, n));
    } else {
      var front, last := v[..|v| - 1], v[|v| - 1];
      ScaledSquares(front, n);
      assert Scaled(v, n)[..|v| - 1] == Scaled(front, n);
      QuotientSquare(last, n);
      Distribute(SumSquares(Scaled(front, n)), Times(Over(last, n), Over(last, n)), Times(n, n));
    }
  }

  lemma Cancel(s: real, n2: real)
    requires Times(s, n2) == n2 && n2 > 0.0
    ensures s == 1.0
  {
    assert (s - 1.0) * n2 == 0.0;
  }

  lemma OverNonNegative(x: real, n: real)
    requires x >= 0.0 && n > 0.0
    ensures Over(x, n) >= 0.0
  {
  }

  lemma SqrtSquare(env: Env, s: real)
    requires Lawful(env) && s > 0.0
    ensures env.sqrt(s) > 0.0 && Times(env.sqrt(s), env.sqrt(s)) == s
  {
  }

  /** A normalised vector has length 1, or is the zero vector it was; no entry turns negative. */
  lemma NormalizedUnit(env: Env, v: seq<real>)
    requires Lawful(env) && NonNegative(v)
    ensures NonNegative(Normalized(env, v))
    ensures SumSquares(Normalized(env, v)) == if SumSquares(v) == 0.0 then 0.0 else 1.0
  {
    hide Times, Over, SumSquares, Lawful;
    var s := SumSquares(v);
    if s != 0.0 {
      SqrtSquare(env, s);
      var n := env.sqrt(s);
      ScaledSquares(v, n);
      Cancel(SumSquares(Scaled(v, n)), s);
      forall i | 0 <= i < |v| ensures Scaled(v, n)[i] >= 0.0 {
        OverNonNegative(v[i], n);
      }
    }
  }

  function Cosine(a: seq<real>, b: seq<real>): real {
    if |a| == 0 || |a| != |b| then 0.0 else Dot(a, b)
  }

  // ---------- embedding ----------

  function Slot(env: Env, tok: string, dim: nat): (j: nat)
    requires dim > 0
    ensures j < dim
  {
    env.hash(tok) % dim
  }

  /** How many of the tokens fall into slot j. */
  function InSlot(env: Env, toks: seq<string>, dim: nat, j: nat): nat
    requires dim > 0
  {
    if |toks| == 0 then 0
    else InSlot(env, toks[..|toks| - 1], dim, j) + if Slot(env, toks[|toks| - 1], dim) == j then 1 else 0
  }

  function Share(n: nat, total: nat): real {
    if total == 0 then 0.0 else Over(n as real, total as real)
  }

  /** The share of the tokens that falls into each slot. */
  function Shares(env: Env, toks: seq<string>, dim: nat): (v: seq<real>)
    requires dim > 0
    ensures |v| == dim
  {
    seq(dim, j requires 0 <= j < dim => Share(InSlot(env, toks, dim, j), |toks|))
  }

  function Dimension(dim: int): nat { if dim <= 0 then 128 else dim }

  /** embedText: the shares, normalised. */
  function Embedding(env: Env, text: string, dim: int): seq<real> {
    Normalized(env, Shares(env, Tokenize(text), Dimension(dim)))
  }

  lemma SharesNonNegative(env: Env, toks: seq<string>, dim: nat)
    requires dim > 0
    ensures NonNegative(Shares(env, toks, dim))
  {
    forall j | 0 <= j < dim ensures Shares(env, toks, dim)[j] >= 0.0 {
      if |toks| > 0 {
        OverNonNegative(InSlot(env, toks, dim, j) as real, |toks| as real);
      }
    }
  }

  /** The cosine of two embeddings lies between 0 and 1. */
  lemma CosineRange(env: Env, x: string, y: string, dim: int)
    requires Lawful(env)
    ensures 0.0 <= Cosine(Embedding(env, x, dim), Embedding(env, y, dim)) <= 1.0
  {
    hide Shares, Tokenize, Normalized, SumSquares;
    var d := Dimension(dim);
    var p, q := Shares(env, Tokenize(x), d), Shares(env, Tokenize(y), d);
    SharesNonNegative(env, Tokenize(x), d);
    SharesNonNegative(env, Tokenize(y), d);
    NormalizedUnit(env, p);
    NormalizedUnit(env, q);
    DotBelow(Normalized(env, p), Normalized(env, q));
    DotNonNegative(Normalized(env, p), Normalized(env, q));
  }

  lemma SumSquaresPositive(v: seq<real>, i: nat)
    requires i < |v| && v[i] > 0.0
    ensures SumSquares(v) > 0.0
  {
    SquareNonNegative(v[|v| - 1]);
    if i < |v| - 1 {
      SumSquaresPositive(v[..|v| - 1], i);
    } else {
      TimesPositive(v[i]);
    }
  }

  lemma TimesPositive(x: real)
    requires x > 0.0
    ensures Times(x, x) > 0.0
  {
    var h, r := x * x, 1.0 / x;
    assert x * r == 1.0;
    assert h * r == x * (x * r) == x;
    assert h != 0.0;
    assert h >= 0.0;
  }

  lemma {:induction false} DotSelf(v: seq<real>)
    ensures Dot(v, v) == SumSquares(v)
  {
    if |v| > 0 {
      DotSelf(v[..|v| - 1]);
    }
  }

  lemma {:induction false} SumSquaresOfZeros(v: seq<real>)
    requires forall i :: 0 <= i < |v| ==> v[i] == 0.0
    ensures SumSquares(v) == 0.0
  {
    if |v| > 0 {
      SumSquaresOfZeros(v[..|v| - 1]);
      TimesZero(0.0);
    }
  }

  /** A text with words is at cosine 1 to itself; one without embeds to the zero vector. */
  lemma CosineOfSame(env: Env, x: string, dim: int)
    requires Lawful(env)
    ensures Cosine(Embedding(env, x, dim), Embedding(env, x, dim)) == if Tokenize(x) == [] then 0.0 else 1.0
  {
    hide Tokenize, Normalized, Times, SumSquares, Over;
    var toks, d := Tokenize(x), Dimension(dim);
    var v := Shares(env, toks, d);
    SharesNonNegative(env, toks, d);
    NormalizedUnit(env, v);
    DotSelf(Normalized(env, v));
    if |toks| == 0 {
      SumSquaresOfZeros(v);
    } else {
      var j := Slot(env, toks[|toks| - 1], d);
      assert InSlot(env, toks, d, j) >= 1;
      OverPositive(InSlot(env, toks, d, j) as real, |toks| as real);
      SumSquaresPositive(v, j);
    }
  }

  lemma OverPositive(x: real, n: real)
    requires x > 0.0 && n > 0.0
    ensures Over(x, n) > 0.0
  {
  }

  // ---------- the loops ----------

  function Count(toks: seq<string>, tok: string): nat {
    if |toks| == 0 then 0 else Count(toks[..|toks| - 1], tok) + if toks[|toks| - 1] == tok then 1 else 0
  }

  /** How many positions hold a token that is in `done` and falls into slot j. */
  function PartIn(env: Env, toks: seq<string>, done: set<string>, dim: nat, j: nat): nat
    requires dim > 0
  {
    if |toks| == 0 then 0
    else
      var last := toks[|toks| - 1];
      PartIn(env, toks[..|toks| - 1], done, dim, j) + if last in done && Slot(env, last, dim) == j then 1 else 0
  }

  lemma {:induction false} PartGrows(env: Env, toks: seq<string>, done: set<string>, dim: nat, j: nat, tok: string)
    requires dim > 0 && tok !in done
    ensures PartIn(env, toks, done + {tok}, dim, j)
         == PartIn(env, toks, done, dim, j) + if Slot(env, tok, dim) == j then Count(toks, tok) else 0
  {
    if |toks| > 0 {
      PartGrows(env, toks[..|toks| - 1], done, dim, j, tok);
    }
  }

  lemma {:induction false} PartOfAll(env: Env, toks: seq<string>, done: set<string>, dim: nat, j: nat)
    requires dim > 0 && forall i :: 0 <= i < |toks| ==> toks[i] in done
    ensures PartIn(env, toks, done, dim, j) == InSlot(env, toks, dim, j)
  {
    if |toks| > 0 {
      PartOfAll(env, toks[..|toks| - 1], done, dim, j);
    }
  }

  lemma {:induction false} PartOfNone(env: Env, toks: seq<string>, dim: nat, j: nat)
    requires dim > 0
    ensures PartIn(env, toks, {}, dim, j) == 0
  {
    if |toks| > 0 {
      PartOfNone(env, toks[..|toks| - 1], dim, j);
    }
  }

  lemma ShareAdds(m: nat, n: nat, total: nat)
    ensures Share(m, total) + Share(n, total) == Share(m + n, total)
  {
    if total > 0 {
      assert (m + n) as real == m as real + n as real;
    }
  }

  /** Each token's number of occurrences. */
  method TermFrequencies(toks: seq<string>) returns (tf: map<string, nat>)
    ensures forall t :: t in tf <==> t in toks
    ensures forall t :: t in tf ==> tf[t] == Count(toks, t)
  {
    tf := map[];
    for i := 0 to |toks|
      invariant forall t :: t in tf <==> t in toks[..i]
      invariant forall t :: (if t in tf then tf[t] else 0) == Count(toks[..i], t)
    {
      assert toks[..i + 1] == toks[..i] + [toks[i]];
      tf := tf[toks[i] := (if toks[i] in tf then tf[toks[i]] else 0) + 1];
    }
    assert toks[..|toks|] == toks;
  }

  /** The vector once the tokens in `done` have been added. */
  ghost predicate Added(env: Env, toks: seq<string>, done: set<string>, v: seq<real>)
    requires |toks| > 0
  {
    forall j :: 0 <= j < |v| ==> v[j] == Share(PartIn(env, toks, done, |v|, j), |toks|)
  }

  lemma AddedMore(env: Env, toks: seq<string>, done: set<string>, v: seq<real>, tok: string, v': seq<real>)
    requires |toks| > 0 && |v| > 0 && tok !in done && Added(env, toks, done, v)
    requires v' == v[Slot(env, tok, |v|) := v[Slot(env, tok, |v|)] + Share(Count(toks, tok), |toks|)]
    ensures Added(env, toks, done + {tok}, v')
  {
    hide PartIn, Count, Slot, Share;
    forall j | 0 <= j < |v| ensures v'[j] == Share(PartIn(env, toks, done + {tok}, |v|, j), |toks|) {
      PartGrows(env, toks, done, |v|, j, tok);
      ShareAdds(PartIn(env, toks, done, |v|, j), Count(toks, tok), |toks|);
    }
  }

  /** The weights of the distinct tokens, added slot by slot in whatever order the tokens come. */
  method AddWeights(env: Env, toks: seq<string>, v: array<real>)
    requires |toks| > 0 && v.Length > 0
    requires forall j :: 0 <= j < v.Length ==> v[j] == 0.0
    modifies v
    ensures v[..] == Shares(env, toks, v.Length)
  {
    hide Share, Count, PartIn;
    var tf := TermFrequencies(toks);
    var rest, total := tf.Keys, |toks|;
    ghost var done: set<string> := {};
    NothingAdded(env, toks, v[..]);
    while rest != {}
      invariant done !! rest && done + rest == tf.Keys
      invariant Added(env, toks, done, v[..])
      decreases rest
    {
      var tok :| tok in rest;
      ghost var was := v[..];
      var idx := Slot(env, tok, v.Length);
      v[idx] := v[idx] + Share(tf[tok], total);
      AddedMore(env, toks, done, was, tok, v[..]);
      rest := rest - {tok};
      done := done + {tok};
    }
    AllAdded(env, toks, done, v[..]);
  }

  lemma NothingAdded(env: Env, toks: seq<string>, v: seq<real>)
    requires |toks| > 0 && forall j :: 0 <= j < |v| ==> v[j] == 0.0
    ensures Added(env, toks, {}, v)
  {
    forall j | 0 <= j < |v| ensures v[j] == Share(PartIn(env, toks, {}, |v|, j), |toks|) {
      PartOfNone(env, toks, |v|, j);
    }
  }

  lemma AllAdded(env: Env, toks: seq<string>, done: set<string>, v: seq<real>)
    requires |toks| > 0 && |v| > 0 && Added(env, toks, done, v)
    requires forall i :: 0 <= i < |toks| ==> toks[i] in done
    ensures v == Shares(env, toks, |v|)
  {
    forall j | 0 <= j < |v| ensures v[j] == Shares(env, toks, |v|)[j] {
      PartOfAll(env, toks, done, |v|, j);
    }
  }

  /** embedText */
  method EmbedText(env: Env, text: string, dim: int) returns (vec: array<real>)
    requires Lawful(env)
    ensures fresh(vec) && vec[..] == Embedding(env, text, dim)
  {
    hide Tokenize;
    vec := new real[Dimension(dim)](_ => 0.0);
    var toks := Tokenize(text);
    if |toks| == 0 {
      SumSquaresOfZeros(vec[..]);
      assert vec[..] == Shares(env, toks, vec.Length);
      return;
    }
    AddWeights(env, toks, vec);
    NormalizeL2(env, vec);
  }

  method NormalizeL2(env: Env, v: array<real>)
    requires Lawful(env)
    modifies v
    ensures v[..] == Normalized(env, old(v[..]))
  {
    ghost var was := v[..];
    var sum := 0.0;
    for i := 0 to v.Length
      invariant v[..] == was && sum == SumSquares(was[..i])
    {
      assert was[..i + 1][..i] == was[..i];
      sum := sum + v[i] * v[i];
    }
    assert was[..v.Length] == was;
    if sum == 0.0 {
      return;
    }
    var n := env.sqrt(sum);
    for i := 0 to v.Length
      invariant forall k :: 0 <= k < i ==> v[k] == Over(was[k], n)
      invariant forall k :: i <= k < v.Length ==> v[k] == was[k]
    {
      v[i] := v[i] / n;
    }
    assert v[..] == Scaled(was, n);
  }

  method CosineSimilarity(a: array<real>, b: array<real>) returns (dot: real)
    ensures dot == Cosine(a[..], b[..])
  {
    if a.Length == 0 || a.Length != b.Length {
      return 0.0;
    }
    dot := 0.0;
    for i := 0 to a.Length
      invariant dot == Dot(a[..i], b[..i])
    {
      assert a[..i + 1][..i] == a[..i] && b[..i + 1][..i] == b[..i];
      dot := dot + a[i] * b[i];
    }
    assert a[..a.Length] == a[..] && b[..b.Length] == b[..];
  }
}
