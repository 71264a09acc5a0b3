/** The stores by account: opened on demand, with double-checked locking. */
module AccountStores {

  import opened Options
  import opened DoubleChecked

  type Addr = string

  /** Stores are numbered as they are allocated. */
  type StoreRef = nat

  /** GetTxStore always has a store to put in, and one that no address has yet. */
  ghost predicate Allocates(r: Run<Addr, StoreRef>) {
    forall i :: 0 <= i < |r.labels| && i < |r.states| ==> FillIsNew(r.states[i], r.labels[i])
  }

  ghost predicate FillIsNew(s: State<Addr, StoreRef>, l: Label<Addr, StoreRef>) {
    l.Fill? ==> l.outcome.Some? && forall a <- s.cells :: s.cells[a] != l.outcome.value
  }

  /** No call of GetTxStore comes back without a store. */
  ghost predicate Served(s: State<Addr, StoreRef>, t: Tid) {
    t in s.threads && (s.threads[t].Settled? || s.threads[t].Returned?) ==> s.threads[t].got.Some?
  }

  ghost predicate Separate(s: State<Addr, StoreRef>) {
    (forall t :: Served(s, t)) && forall a <- s.cells, b <- s.cells :: a != b ==> s.cells[a] != s.cells[b]
  }

  /** Every call is given a store, the one store ever opened for its address, and no two addresses
      share a store. */
  lemma {:induction false} GetTxStoreIsConsistent(r: Run<Addr, StoreRef>, n: nat, t: Tid)
    requires IsRun(r) && Allocates(r) && n < |r.states|
    ensures Separate(r.states[n])
    ensures t in r.states[n].threads && r.states[n].threads[t].Returned? ==>
              var key := r.states[n].threads[t].key;
              && key in r.states[n].cells
              && r.states[n].threads[t].got == Some(r.states[n].cells[key])
              && FillsOf(r, n, key) == 1
  {
    RunKeepsInv(r, n);
    assert ThreadOk(r.states[n], t);
    if n > 0 {
      GetTxStoreIsConsistent(r, n - 1, t);
      assert StepAt(r, n - 1) && FillIsNew(r.states[n - 1], r.labels[n - 1]);
      forall u ensures Served(r.states[n], u) { assert Served(r.states[n - 1], u); }
    }
    assert Served(r.states[n], t);
    if t in r.states[n].threads { FilledOnce(r, n, r.states[n].threads[t].key); }
  }
}
