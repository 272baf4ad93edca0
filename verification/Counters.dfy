/** Counting keys in a map, as the queue and the admin endpoint do when they match requests against dead letters. */
module Counters {
  import opened Records

  function Counted(counters: map<string, int>, key: string): int {
    if key in counters then counters[key] else 0
  }

  /** The counters hold exactly the stock. */
  ghost predicate Stocks(counters: map<string, int>, stock: multiset<string>) {
    forall k :: Counted(counters, k) == stock[k]
  }

  lemma NoStock()
    ensures Stocks(map[], multiset{})
  {
  }

  lemma StockAt(counters: map<string, int>, stock: multiset<string>, key: string)
    requires Stocks(counters, stock)
    ensures Counted(counters, key) == stock[key]
  {
  }

  lemma StockUp(counters: map<string, int>, stock: multiset<string>, key: string)
    requires Stocks(counters, stock)
    ensures Stocks(counters[key := Counted(counters, key) + 1], stock + multiset{key})
  {
    forall k ensures Counted(counters[key := Counted(counters, key) + 1], k) == (stock + multiset{key})[k] {
      assert Counted(counters, k) == stock[k];
    }
  }

  lemma StockDown(counters: map<string, int>, stock: multiset<string>, key: string)
    requires Stocks(counters, stock)
    ensures stock[key] > 0 ==> Stocks(counters[key := Counted(counters, key) - 1], stock - multiset{key})
    ensures stock[key] == 0 ==> Stocks(counters, stock - multiset{key})
  {
    if stock[key] > 0 {
      forall k ensures Counted(counters[key := Counted(counters, key) - 1], k) == (stock - multiset{key})[k] {
        assert Counted(counters, k) == stock[k];
      }
    } else {
      assert stock - multiset{key} == stock;
    }
  }

  lemma KeysPush(refs: seq<TaskRef>, i: nat)
    requires i < |refs|
    ensures multiset(Keys(refs[..i + 1])) == multiset(Keys(refs[..i])) + multiset{EncodeRef(refs[i])}
  {
    assert Keys(refs[..i + 1]) == Keys(refs[..i]) + [EncodeRef(refs[i])];
  }

  /** Counts how often each key occurs among the refs. */
  method CountKeys(refs: seq<TaskRef>) returns (counters: map<string, int>)
    ensures Stocks(counters, multiset(Keys(refs)))
  {
    hide Keys, Counted, Stocks;
    counters := map[];
    assert Keys(refs[..0]) == [];
    NoStock();
    for i := 0 to |refs|
      invariant Stocks(counters, multiset(Keys(refs[..i])))
    {
      KeysPush(refs, i);
      var k := EncodeRef(refs[i]);
      StockUp(counters, multiset(Keys(refs[..i])), k);
      counters := counters[k := Counted(counters, k) + 1];
    }
    assert refs[..|refs|] == refs;
  }
}
