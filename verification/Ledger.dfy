/** Multiset steps that the conservation proofs of both queues share. */
module Ledger {

  lemma Exchange<T>(a: multiset<T>, b: multiset<T>, c: multiset<T>)
    ensures a + (b + c) == b + (a + c)
  {
  }

  /** One operation keeps the books: what was put in equals what is held plus what was acked. */
  lemma LedgerStep<T(!new)>(put: multiset<T>, p: multiset<T>, held: multiset<T>, held': multiset<T>,
                            acked: multiset<T>, a: multiset<T>)
    requires put == held + acked && held' + a == held + p
    ensures put + p == held' + (acked + a)
  {
    forall x ensures (put + p)[x] == (held' + (acked + a))[x] {
      assert (held' + a)[x] == (held + p)[x];
    }
  }
}
