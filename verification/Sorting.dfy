/** A stable sort, and the facts about its result that the scheduler and the retrieval
    ranking rely on.  `before` plays the role of Go's less function. */
module Sorting {

  ghost predicate StrictWeak<T(!new)>(before: (T, T) -> bool) {
    && (forall a, b :: before(a, b) ==> !before(b, a))
    && (forall a, b, c :: !before(a, b) && !before(b, c) ==> !before(a, c))
  }

  /** No element is strictly before one that precedes it. */
  ghost predicate Ordered<T>(s: seq<T>, before: (T, T) -> bool) {
    forall i, j :: 0 <= i < j < |s| ==> !before(s[j], s[i])
  }

  /** Puts x in front of the first element that is not strictly before it. */
  function Insert<T>(x: T, s: seq<T>, before: (T, T) -> bool): (r: seq<T>)
    ensures |r| == |s| + 1
  {
    if |s| > 0 && before(s[0], x) then [s[0]] + Insert(x, s[1..], before)
    else [x] + s
  }

  function StableSort<T>(s: seq<T>, before: (T, T) -> bool): (r: seq<T>)
    ensures |r| == |s|
  {
    if |s| == 0 then []
    else Insert(s[0], StableSort(s[1..], before), before)
  }

  lemma {:induction false} InsertPermutes<T>(x: T, s: seq<T>, before: (T, T) -> bool)
    ensures multiset(Insert(x, s, before)) == multiset(s) + multiset{x}
  {
    if |s| > 0 && before(s[0], x) {
      InsertPermutes(x, s[1..], before);
      assert s == [s[0]] + s[1..];
    }
  }

  lemma {:induction false} SortPermutes<T>(s: seq<T>, before: (T, T) -> bool)
    ensures multiset(StableSort(s, before)) == multiset(s)
  {
    hide Insert;
    if |s| > 0 {
      SortPermutes(s[1..], before);
      InsertPermutes(s[0], StableSort(s[1..], before), before);
      assert s == [s[0]] + s[1..];
    }
  }

  lemma {:induction false} InsertMembers<T(!new)>(x: T, s: seq<T>, before: (T, T) -> bool)
    ensures forall y :: y in Insert(x, s, before) <==> y == x || y in s
  {
    if |s| > 0 && before(s[0], x) {
      InsertMembers(x, s[1..], before);
      assert s == [s[0]] + s[1..];
    }
  }

  lemma {:induction false} InsertOrders<T(!new)>(x: T, s: seq<T>, before: (T, T) -> bool)
    requires StrictWeak(before)
    requires Ordered(s, before)
    ensures Ordered(Insert(x, s, before), before)
  {
    if |s| > 0 && before(s[0], x) {
      var tail := Insert(x, s[1..], before);
      InsertOrders(x, s[1..], before);
      InsertMembers(x, s[1..], before);
      forall j | 0 <= j < |tail| ensures !before(tail[j], s[0]) {
        if tail[j] != x {
          assert tail[j] in s[1..];
        }
      }
    }
  }

  lemma {:induction false} SortOrders<T(!new)>(s: seq<T>, before: (T, T) -> bool)
    requires StrictWeak(before)
    ensures Ordered(StableSort(s, before), before)
  {
    if |s| > 0 {
      SortOrders(s[1..], before);
      InsertOrders(s[0], StableSort(s[1..], before), before);
    }
  }

  lemma {:induction false} SortMembers<T(!new)>(s: seq<T>, before: (T, T) -> bool)
    ensures forall x :: x in StableSort(s, before) <==> x in s
  {
    if |s| > 0 {
      SortMembers(s[1..], before);
      InsertMembers(s[0], StableSort(s[1..], before), before);
      assert s == [s[0]] + s[1..];
    }
  }
}
