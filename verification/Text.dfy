/** Text helpers that the scheduler's identifiers and wire formats are built from:
    decimal numerals, splitting at a separator, ASCII trimming and case folding. */
module Text {

  datatype Option<+T> = None | Some(value: T)

  // ---------- decimal numerals (strconv.Itoa, strconv.ParseInt) ----------

  const DIGITS: string := "0123456789"
  const INT64_MAX: int := 0x7fff_ffff_ffff_ffff

  predicate IsDigit(c: char) { '0' <= c <= '9' }

  function NatText(n: nat): (s: string)
    ensures |s| > 0
    ensures forall i :: 0 <= i < |s| ==> IsDigit(s[i])
  {
    if n < 10 then [DIGITS[n]] else NatText(n / 10) + [DIGITS[n % 10]]
  }

  function IntText(n: int): string {
    if n < 0 then "-" + NatText(-n) else NatText(n)
  }

  function ParseNat(s: string): Option<nat> {
    if |s| == 0 || !IsDigit(s[|s| - 1]) then None
    else
      var d := s[|s| - 1] as int - '0' as int;
      if |s| == 1 then Some(d)
      else
        match ParseNat(s[..|s| - 1])
        case None => None
        case Some(v) => Some(10 * v + d)
  }

  /** strconv.Atoi / strconv.ParseInt(s, 10, 64): an optional sign, then digits, in the int64 range. */
  function ParseInt(s: string): Option<int> {
    if |s| > 0 && (s[0] == '-' || s[0] == '+') then
      match ParseNat(s[1..])
      case None => None
      case Some(v) =>
        var abs: int := v;
        var n := if s[0] == '-' then -abs else abs;
        if n == -INT64_MAX - 1 || -INT64_MAX <= n <= INT64_MAX then Some(n) else None
    else
      match ParseNat(s)
      case None => None
      case Some(v) => if v <= INT64_MAX then Some(v) else None
  }

  lemma {:induction false} ParseNatText(n: nat)
    ensures ParseNat(NatText(n)) == Some(n)
  {
    if n >= 10 {
      ParseNatText(n / 10);
      var s := NatText(n);
      assert s[..|s| - 1] == NatText(n / 10);
    }
  }

  lemma NatTextInjective(m: nat, n: nat)
    requires NatText(m) == NatText(n)
    ensures m == n
  {
    ParseNatText(m);
    ParseNatText(n);
  }

  lemma ParseUnsigned(s: string, v: nat)
    requires |s| > 0 && IsDigit(s[0]) && ParseNat(s) == Some(v) && v <= INT64_MAX
    ensures ParseInt(s) == Some(v)
  {
  }

  lemma ParseNegative(s: string, v: int)
    requires 0 <= v <= INT64_MAX + 1 && ParseNat(s) == Some(v)
    ensures ParseInt("-" + s) == Some(-v)
  {
    assert ("-" + s)[1..] == s;
  }

  lemma ParseIntText(n: int)
    requires -INT64_MAX - 1 <= n <= INT64_MAX
    ensures ParseInt(IntText(n)) == Some(n)
  {
    if n < 0 {
      ParseNatText(-n);
      ParseNegative(NatText(-n), -n);
    } else {
      ParseNatText(n);
      ParseUnsigned(NatText(n), n);
    }
  }

  lemma IntTextInjective(m: int, n: int)
    requires IntText(m) == IntText(n)
    ensures m == n
  {
    assert IntText(m)[0] == '-' <==> m < 0;
    assert IntText(n)[0] == '-' <==> n < 0;
    if m < 0 {
      assert IntText(m)[1..] == NatText(-m) && IntText(n)[1..] == NatText(-n);
      NatTextInjective(-m, -n);
    } else {
      NatTextInjective(m, n);
    }
  }

  /** A numeral contains no character other than digits and '-'. */
  lemma IntTextChars(n: int)
    ensures |IntText(n)| > 0
    ensures forall c :: c in IntText(n) ==> IsDigit(c) || c == '-'
  {
  }

  // ---------- strings.Split ----------

  function Split(s: string, c: char): (parts: seq<string>)
    ensures |parts| > 0
  {
    if |s| == 0 then [""]
    else
      var rest := Split(s[1..], c);
      if s[0] == c then [""] + rest
      else [[s[0]] + rest[0]] + rest[1..]
  }

  lemma {:induction false} SplitAtom(s: string, c: char)
    requires c !in s
    ensures Split(s, c) == [s]
  {
    if |s| > 0 {
      SplitAtom(s[1..], c);
      assert [s[0]] + s[1..] == s;
    }
  }

  lemma {:induction false} SplitJoin(a: string, c: char, b: string)
    ensures Split(a + [c] + b, c) == Split(a, c) + Split(b, c)
  {
    hide Split;
    var s := a + [c] + b;
    SplitStep(s, c);
    if |a| == 0 {
      SplitNothing(c);
      assert a == "" && s[0] == c && s[1..] == b;
    } else {
      SplitStep(a, c);
      assert s[0] == a[0] && s[1..] == a[1..] + [c] + b;
      SplitJoin(a[1..], c, b);
    }
  }

  lemma SplitNothing(c: char)
    ensures Split("", c) == [""]
  {
  }

  lemma SplitStep(s: string, c: char)
    requires |s| > 0
    ensures s[0] == c ==> Split(s, c) == [""] + Split(s[1..], c)
    ensures s[0] != c ==> Split(s, c) == [[s[0]] + Split(s[1..], c)[0]] + Split(s[1..], c)[1..]
  {
  }

  lemma SameTail(a: string, b: string, tail: string)
    requires a + tail == b + tail
    ensures a == b
  {
    assert |a| == |b|;
    assert a == (a + tail)[..|a|] && b == (b + tail)[..|b|];
  }

  // ---------- strings.TrimSpace, strings.ToLower, strings.EqualFold (ASCII) ----------

  predicate IsSpace(c: char) {
    c == ' ' || c == '\t' || c == '\n' || c == '\r' || c == 11 as char || c == 12 as char
  }

  function TrimLeft(s: string): string {
    if |s| > 0 && IsSpace(s[0]) then TrimLeft(s[1..]) else s
  }

  function TrimRight(s: string): string {
    if |s| > 0 && IsSpace(s[|s| - 1]) then TrimRight(s[..|s| - 1]) else s
  }

  function Trim(s: string): string { TrimRight(TrimLeft(s)) }

  predicate AllSpace(s: string) { forall i :: 0 <= i < |s| ==> IsSpace(s[i]) }

  /** Neither end is a space. */
  predicate Tight(s: string) { |s| > 0 ==> !IsSpace(s[0]) && !IsSpace(s[|s| - 1]) }

  lemma {:induction false} TrimLeftCuts(s: string) returns (n: nat)
    ensures n <= |s| && TrimLeft(s) == s[n..] && AllSpace(s[..n]) && (n < |s| ==> !IsSpace(s[n]))
  {
    n := 0;
    if |s| > 0 && IsSpace(s[0]) {
      n := TrimLeftCuts(s[1..]);
      assert s[..n + 1] == [s[0]] + s[1..][..n] && s[n + 1..] == s[1..][n..];
      n := n + 1;
    }
  }

  lemma {:induction false} TrimRightCuts(s: string) returns (n: nat)
    ensures n <= |s| && TrimRight(s) == s[..n] && AllSpace(s[n..]) && (n > 0 ==> !IsSpace(s[n - 1]))
  {
    n := |s|;
    if |s| > 0 && IsSpace(s[|s| - 1]) {
      n := TrimRightCuts(s[..|s| - 1]);
      assert s[n..] == s[..|s| - 1][n..] + [s[|s| - 1]];
    }
  }

  /** Trimming cuts off spaces at both ends, and all of them. */
  lemma TrimCuts(s: string) returns (front: string, back: string)
    ensures s == front + Trim(s) + back && AllSpace(front) && AllSpace(back) && Tight(Trim(s))
  {
    hide IsSpace;
    var n := TrimLeftCuts(s);
    var left := TrimLeft(s);
    var m := TrimRightCuts(left);
    front, back := s[..n], left[m..];
  }

  lemma {:induction false} TightStays(s: string)
    requires Tight(s)
    ensures Trim(s) == s
  {
  }

  lemma LowerKeepsSpace(c: char)
    ensures IsSpace(LowerChar(c)) <==> IsSpace(c)
    ensures LowerChar(LowerChar(c)) == LowerChar(c)
  {
  }

  /** A lower-case trimmed text is its own lower-case trimmed text. */
  lemma FoldedStays(s: string)
    ensures Tight(Lower(Trim(s))) && Trim(Lower(Trim(s))) == Lower(Trim(s)) && Lower(Lower(Trim(s))) == Lower(Trim(s))
  {
    hide IsSpace, LowerChar;
    var front, back := TrimCuts(s);
    var t := Trim(s);
    forall i | 0 <= i < |t| ensures (IsSpace(Lower(t)[i]) <==> IsSpace(t[i])) && Lower(Lower(t))[i] == Lower(t)[i] {
      LowerKeepsSpace(t[i]);
    }
    TightStays(Lower(t));
  }

  function LowerChar(c: char): char {
    if 'A' <= c <= 'Z' then (c as int + 32) as char else c
  }

  function Lower(s: string): string {
    seq(|s|, i requires 0 <= i < |s| => LowerChar(s[i]))
  }

  predicate EqualFold(a: string, b: string) { Lower(a) == Lower(b) }

  /** contains() in the engine: membership up to surrounding space and case. */
  predicate ContainsFold(list: seq<string>, v: string) {
    exists i :: 0 <= i < |list| && EqualFold(Trim(list[i]), Trim(v))
  }

  predicate ParseBool(v: string) {
    var l := Lower(Trim(v));
    l == "1" || l == "true" || l == "yes"
  }

  /** m[k], with Go's zero value for a missing key. */
  function Get(m: map<string, string>, k: string): string {
    if k in m then m[k] else ""
  }
}
