/** Ranging over a map or a set in some order: listings, filters over them, and counts. */
module Listings {
  import opened Records

  /** A set in some order. */
  ghost function ListOf<T(!new)>(s: set<T>): (listing: seq<T>)
    ensures Lists(listing, s)
    decreases s
  {
    if s == {} then []
    else
      var x :| x in s;
      [x] + ListOf(s - {x})
  }

  lemma {:induction false} FilterJoin<T(!new)>(a: seq<T>, b: seq<T>, keep: T -> bool)
    ensures Filter(a + b, keep) == Filter(a, keep) + Filter(b, keep)
  {
    if |a| == 0 {
      assert a + b == b;
    } else {
      FilterJoin(a[1..], b, keep);
      assert (a + b)[1..] == a[1..] + b;
    }
  }

  lemma {:induction false} FilterAgree<T(!new)>(s: seq<T>, f: T -> bool, g: T -> bool)
    requires forall x :: x in s ==> f(x) == g(x)
    ensures Filter(s, f) == Filter(s, g)
  {
    if |s| > 0 {
      assert s == [s[0]] + s[1..];
      FilterAgree(s[1..], f, g);
    }
  }

  lemma FilterOne<T(!new)>(x: T, keep: T -> bool)
    ensures Filter([x], keep) == if keep(x) then [x] else []
  {
    assert [x][1..] == [];
  }

  lemma ListsNothing<T(!new)>()
    ensures Lists<T>([], {})
  {
  }

  lemma ListsMore<T(!new)>(seen: seq<T>, all: set<T>, left: set<T>, x: T)
    requires Lists(seen, all - left) && left <= all && x in left
    ensures x !in seen && Lists(seen + [x], all - (left - {x}))
  {
  }

  lemma ListsJoin<T(!new)>(seen: seq<T>, rest: seq<T>, all: set<T>, left: set<T>)
    requires Lists(seen, all - left) && Lists(rest, left) && left <= all
    ensures Lists(seen + rest, all)
    ensures left == {} ==> rest == []
  {
    assert |rest| > 0 ==> rest[0] in left;
    var joined := seen + rest;
    forall i, j | 0 <= i < j < |joined| ensures joined[i] != joined[j] {
      if i < |seen| <= j {
        assert joined[i] in seen && joined[j] in rest;
      }
    }
  }

  function Kept<T(!new)>(s: set<T>, keep: T -> bool): set<T> { set x | x in s && keep(x) }

  lemma KeptMore<T(!new)>(s: set<T>, x: T, keep: T -> bool)
    requires x !in s
    ensures |Kept(s + {x}, keep)| == |Kept(s, keep)| + if keep(x) then 1 else 0
  {
    if keep(x) {
      assert Kept(s + {x}, keep) == Kept(s, keep) + {x};
    } else {
      assert Kept(s + {x}, keep) == Kept(s, keep);
    }
  }

  lemma FilterPush<T(!new)>(listing: seq<T>, i: nat, keep: T -> bool)
    requires i < |listing|
    ensures Filter(listing[..i + 1], keep) == Filter(listing[..i], keep) + if keep(listing[i]) then [listing[i]] else []
  {
    assert listing[..i + 1] == listing[..i] + [listing[i]];
    FilterJoin(listing[..i], [listing[i]], keep);
    FilterOne(listing[i], keep);
  }

  /** Filtering a listing of a set keeps each element that passes once. */
  lemma {:induction false} FilterCounts<T(!new)>(listing: seq<T>, s: set<T>, keep: T -> bool)
    requires Lists(listing, s)
    ensures |Filter(listing, keep)| == |Kept(s, keep)|
  {
    if |listing| == 0 {
      assert forall x :: x in s ==> x in listing;
      assert s == {};
      assert Kept(s, keep) == {};
    } else {
      var first, rest := listing[0], listing[1..];
      assert listing == [first] + rest;
      ListsTail(listing, s);
      FilterCounts(rest, s - {first}, keep);
      KeptMore(s - {first}, first, keep);
      assert s - {first} + {first} == s;
    }
  }

  lemma ListsTail<T(!new)>(listing: seq<T>, s: set<T>)
    requires Lists(listing, s) && |listing| > 0
    ensures listing[0] in s && Lists(listing[1..], s - {listing[0]})
  {
    var first, rest := listing[0], listing[1..];
    forall x ensures x in rest <==> x in s - {first} {
      if x in rest {
        var i :| 0 <= i < |rest| && rest[i] == x;
        assert listing[i + 1] == x && x in listing;
      }
      if x in s - {first} {
        assert x in listing;
      }
    }
    forall i, j | 0 <= i < j < |rest| ensures rest[i] != rest[j] {
      assert listing[i + 1] != listing[j + 1];
    }
  }

  /** A filtered listing has no repetitions. */
  lemma {:induction false} FilterDistinct<T(!new)>(listing: seq<T>, s: set<T>, keep: T -> bool)
    requires Lists(listing, s)
    ensures Lists(Filter(listing, keep), Kept(s, keep))
  {
    if |listing| > 0 {
      ListsTail(listing, s);
      FilterDistinct(listing[1..], s - {listing[0]}, keep);
      assert listing[0] !in Filter(listing[1..], keep);
    }
  }

  lemma SubsetSize<T>(a: set<T>, b: set<T>)
    requires a <= b
    ensures |a| <= |b|
  {
    assert b == a + (b - a);
  }
}
