/** The transaction store as the object that the goroutines share.  Each method is one section
    under the store's lock; it is specified by the function of the same name in TxStoreSpec. */
module TxStores {

  import opened TxStoreSpec

  /** A transaction in flight.  The arguments of the contract call play no part here. */
  class TronTx {
    const from: Addr
    const id: Id
    var attempt: nat
    var outOfTimeErrors: nat
    var energyBumpTimes: nat
    var state: TxState

    constructor (from: Addr, id: Id)
      ensures Data() == Tx(from, id, 1, 0, 0, Pending)
    {
      this.from, this.id := from, id;
      attempt, outOfTimeErrors, energyBumpTimes, state := 1, 0, 0, Pending;
    }

    ghost function Data(): Tx
      reads this
    {
      Tx(from, id, attempt, outOfTimeErrors, energyBumpTimes, state)
    }
  }

  ghost function HeapOf(objects: set<TronTx>): (h: map<TronTx, Tx>)
    reads objects
    ensures h.Keys == objects
  {
    map t | t in objects :: t.Data()
  }

  /** The objects hold what h says. */
  ghost predicate HeapIs(objects: set<TronTx>, h: map<TronTx, Tx>)
    reads objects
  {
    forall x <- objects :: x in h && x.Data() == h[x]
  }

  lemma HeapIsHeapOf(objects: set<TronTx>, h: map<TronTx, Tx>)
    requires HeapIs(objects, h) && h.Keys == objects
    ensures HeapOf(objects) == h
  {}

  /** Every object a record points at. */
  ghost function ObjectsOf(c: Store<TronTx>): (objects: set<TronTx>)
    ensures forall id <- c.pending :: c.pending[id] in objects
    ensures forall id <- c.unconfirmed :: c.unconfirmed[id].tx in objects
    ensures forall id <- c.confirmed :: c.confirmed[id].tx in objects
    ensures forall id <- c.finished :: c.finished[id].tx in objects
  {
    (set id | id in c.pending :: c.pending[id])
    + (set id | id in c.unconfirmed :: c.unconfirmed[id].tx)
    + (set id | id in c.confirmed :: c.confirmed[id].tx)
    + (set id | id in c.finished :: c.finished[id].tx)
  }

  /** Every record of c points at one of the objects. */
  ghost predicate PointInto(c: Store<TronTx>, objects: set<TronTx>) {
    && (forall id <- c.pending :: c.pending[id] in objects)
    && (forall id <- c.unconfirmed :: c.unconfirmed[id].tx in objects)
    && (forall id <- c.confirmed :: c.confirmed[id].tx in objects)
    && (forall id <- c.finished :: c.finished[id].tx in objects)
  }

  lemma ObjectsOfAreIn(c: Store<TronTx>, objects: set<TronTx>)
    ensures ObjectsOf(c) <= objects <==> PointInto(c, objects)
  {}

  /** A call gives the store no object but its argument. */
  lemma CallAddsNoObject(c: Store<TronTx>, h: map<TronTx, Tx>, op: Op<TronTx>, objects: set<TronTx>)
    requires Allowed(c, h, op) && PointInto(c, objects) && (op.Enqueue? || op.Broadcast? ==> op.tx in objects)
    ensures PointInto(Apply(c, h, op).store, objects)
  {
    if op.Reap? { DeleteFinishedExact(c, op.ids); }
  }

  class TxStore {
    var hashToId: map<Hash, Id>
    var pendingTxs: map<Id, TronTx>
    var unconfirmedTxs: map<Id, Inflight<TronTx>>
    var confirmedTxs: map<Id, Inflight<TronTx>>
    var finishedTxs: map<Id, Finished<TronTx>>

    ghost function Contents(): Store<TronTx>
      reads this
    {
      Store(hashToId, pendingTxs, unconfirmedTxs, confirmedTxs, finishedTxs)
    }

    ghost function Objects(): set<TronTx>
      reads this
    {
      ObjectsOf(Contents())
    }

    /** The objects of the unconfirmed and the confirmed record of id. */
    ghost function InflightObjects(id: Id): set<TronTx>
      reads this
    {
      (if id in unconfirmedTxs then {unconfirmedTxs[id].tx} else {})
      + (if id in confirmedTxs then {confirmedTxs[id].tx} else {})
    }

    ghost predicate Valid()
      reads this, Objects()
    {
      TxStoreSpec.Valid(Contents(), HeapOf(Objects()))
    }

    constructor ()
      ensures Contents() == NewStore() && Valid()
    {
      hashToId, pendingTxs, unconfirmedTxs, confirmedTxs, finishedTxs := map[], map[], map[], map[], map[];
    }

    method OnPending(tx: TronTx, retry: bool) returns (out: Outcome)
      modifies this
      ensures var r := TxStoreSpec.OnPending(old(Contents()), old(HeapOf(Objects() + {tx})), tx, retry);
              out == r.out && Contents() == r.store
    {
      if retry {
        if tx.id !in unconfirmedTxs {
          return Panicked;
        }
        var pt := unconfirmedTxs[tx.id];
        if pt.hash !in hashToId {
          return Refused;
        }
        hashToId := hashToId - {pt.hash};
        unconfirmedTxs := unconfirmedTxs - {tx.id};
      }
      if tx.state != Pending {
        return Refused;
      }
      if tx.id in pendingTxs {
        return Refused;
      }
      pendingTxs := pendingTxs[tx.id := tx];
      return Done;
    }

    method OnBroadcasted(hash: Hash, expirationMs: int, tx: TronTx) returns (out: Outcome)
      modifies this, tx`state
      ensures var h := old(HeapOf(Objects() + {tx}));
              var r := TxStoreSpec.OnBroadcasted(old(Contents()), h, hash, expirationMs, tx);
              && out == r.out && Contents() == r.store
              && (forall x <- old(Objects() + {tx}) :: x in r.heap && x.Data() == r.heap[x])
    {
      if hash in hashToId {
        return Refused;
      }
      if tx.id !in pendingTxs {
        return Refused;
      }
      hashToId := hashToId[hash := tx.id];
      tx.state := Broadcasted;
      unconfirmedTxs := unconfirmedTxs[tx.id := Inflight(hash, expirationMs, tx)];
      pendingTxs := pendingTxs - {tx.id};
      return Done;
    }

    method OnConfirmed(id: Id) returns (out: Outcome)
      modifies this, InflightObjects(id)`state
      ensures var r := TxStoreSpec.OnConfirmed(old(Contents()), old(HeapOf(Objects())), id);
              && out == r.out && Contents() == r.store
              && (forall x <- old(Objects()) :: x in r.heap && x.Data() == r.heap[x])
    {
      if id !in unconfirmedTxs {
        return Refused;
      }
      var tx := unconfirmedTxs[id];
      if tx.tx.state != Broadcasted {
        return Refused;
      }
      unconfirmedTxs := unconfirmedTxs - {id};
      tx.tx.state := Confirmed;
      confirmedTxs := confirmedTxs[id := tx];
      return Done;
    }

    method OnErrored(id: Id, now: int) returns (out: Outcome)
      modifies this, InflightObjects(id)`state
      ensures var r := TxStoreSpec.OnErrored(old(Contents()), old(HeapOf(Objects())), id, now);
              && out == r.out && Contents() == r.store
              && (forall x <- old(Objects()) :: x in r.heap && x.Data() == r.heap[x])
    {
      if id in unconfirmedTxs {
        FailUnconfirmed(id, now);
        return Done;
      }
      if id in confirmedTxs {
        FailConfirmed(id, now);
        return Done;
      }
      return Refused;
    }

    /** The first branch of OnErrored. */
    method FailUnconfirmed(id: Id, now: int)
      requires id in unconfirmedTxs
      modifies this, unconfirmedTxs[id].tx`state
      ensures Contents() == Abandoned(old(Contents()), old(unconfirmedTxs[id]), id, now)
      ensures old(unconfirmedTxs[id]).tx.state == Errored
    {
      var pt := unconfirmedTxs[id];
      hashToId := hashToId - {pt.hash};
      unconfirmedTxs := unconfirmedTxs - {id};
      finishedTxs := finishedTxs[id := Finished(pt.hash, pt.tx, now)];
      pt.tx.state := Errored;
    }

    /** The second branch of OnErrored. */
    method FailConfirmed(id: Id, now: int)
      requires id !in unconfirmedTxs && id in confirmedTxs
      modifies this, InflightObjects(id)`state
      ensures var r := TxStoreSpec.OnErrored(old(Contents()), old(HeapOf(Objects())), id, now);
              && Contents() == r.store
              && (forall x <- old(Objects()) :: x in r.heap && x.Data() == r.heap[x])
    {
      var pt := confirmedTxs[id];
      confirmedTxs := confirmedTxs - {id};
      hashToId := hashToId - {pt.hash};
      finishedTxs := finishedTxs[id := Finished(pt.hash, pt.tx, now)];
      pt.tx.state := Errored;
    }

    method OnFatalError(id: Id, now: int) returns (out: Outcome)
      modifies this, InflightObjects(id)`state
      ensures var r := TxStoreSpec.OnFatalError(old(Contents()), old(HeapOf(Objects())), id, now);
              && out == r.out && Contents() == r.store
              && (forall x <- old(Objects()) :: x in r.heap && x.Data() == r.heap[x])
    {
      var pt;
      if id in unconfirmedTxs {
        pt := unconfirmedTxs[id];
        unconfirmedTxs := unconfirmedTxs - {id};
      } else if id in confirmedTxs {
        pt := confirmedTxs[id];
        confirmedTxs := confirmedTxs - {id};
      } else {
        return Refused;
      }
      pt.tx.state := FatallyErrored;
      finishedTxs := finishedTxs[id := Finished(pt.hash, pt.tx, now)];
      return Done;
    }

    method OnReorg(id: Id) returns (out: Outcome)
      modifies this, InflightObjects(id)`state
      ensures var r := TxStoreSpec.OnReorg(old(Contents()), old(HeapOf(Objects())), id);
              && out == r.out && Contents() == r.store
              && (forall x <- old(Objects()) :: x in r.heap && x.Data() == r.heap[x])
    {
      if id !in confirmedTxs {
        return Refused;
      }
      var pt := confirmedTxs[id];
      confirmedTxs := confirmedTxs - {id};
      hashToId := hashToId - {pt.hash};
      pt.tx.state := Pending;
      pendingTxs := pendingTxs[id := pt.tx];
      return Done;
    }

    method OnFinalized(id: Id, now: int) returns (out: Outcome)
      modifies this, InflightObjects(id)`state
      ensures var r := TxStoreSpec.OnFinalized(old(Contents()), old(HeapOf(Objects())), id, now);
              && out == r.out && Contents() == r.store
              && (forall x <- old(Objects()) :: x in r.heap && x.Data() == r.heap[x])
    {
      if id !in confirmedTxs {
        return Refused;
      }
      var pt := confirmedTxs[id];
      confirmedTxs := confirmedTxs - {id};
      pt.tx.state := Finalized;
      finishedTxs := finishedTxs[id := Finished(pt.hash, pt.tx, now)];
      return Done;
    }

    method DeleteFinishedTxs(ids: seq<Id>) returns (deletedCount: nat)
      modifies this
      ensures (Contents(), deletedCount) == DeleteFinished(old(Contents()), ids)
    {
      deletedCount := 0;
      for i := 0 to |ids|
        invariant (Contents(), deletedCount) == DeleteFinished(old(Contents()), ids[..i])
      {
        assert ids[..i + 1][..i] == ids[..i];
        if ids[i] in finishedTxs {
          var ft := finishedTxs[ids[i]];
          finishedTxs := finishedTxs - {ids[i]};
          hashToId := hashToId - {ft.hash};
          deletedCount := deletedCount + 1;
        }
      }
      assert ids[..|ids|] == ids;
    }

    method Has(id: Id) returns (has: bool)
      ensures has <==> Contents().Has(id)
      ensures Valid() && IdClosed(Contents(), HeapOf(Objects()), id) ==>
                (has <==> PhaseOf(Contents(), HeapOf(Objects()), id) != Unknown)
    {
      has := id in pendingTxs || id in unconfirmedTxs || id in confirmedTxs || id in finishedTxs;
    }

    method InflightCount() returns (n: nat)
      ensures n == |unconfirmedTxs|
      ensures Valid() ==> n == |Counted(Contents(), HeapOf(Objects()), false)|
    {
      n := |unconfirmedTxs|;
      if Valid() { CountsArePhases(Contents(), HeapOf(Objects()), false); }
    }

    method FinishedCount() returns (n: nat)
      ensures n == |finishedTxs|
      ensures Valid() ==> n == |Counted(Contents(), HeapOf(Objects()), true)|
    {
      n := |finishedTxs|;
      if Valid() { CountsArePhases(Contents(), HeapOf(Objects()), true); }
    }

    method GetStatus(id: Id) returns (state: TxState, found: bool)
      ensures (state, found) == TxStoreSpec.GetStatus(Contents(), HeapOf(Objects()), id)
    {
      if id in pendingTxs {
        return pendingTxs[id].state, true;
      }
      if id in unconfirmedTxs {
        return unconfirmedTxs[id].tx.state, true;
      }
      if id in confirmedTxs {
        return confirmedTxs[id].tx.state, true;
      }
      if id in finishedTxs {
        return finishedTxs[id].tx.state, true;
      }
      return Pending, false;
    }

    method GetUnconfirmed() returns (unconfirmed: seq<Inflight<TronTx>>)
      ensures IsSortedSnapshot(unconfirmed, unconfirmedTxs, ByExpiration)
      ensures forall i, j :: 0 <= i < j < |unconfirmed| ==> unconfirmed[i].expirationMs <= unconfirmed[j].expirationMs
    {
      unconfirmed := SortedValues(unconfirmedTxs, ByExpiration);
    }

    method GetConfirmed() returns (confirmed: seq<Inflight<TronTx>>)
      ensures IsSortedSnapshot(confirmed, confirmedTxs, ByExpiration)
      ensures forall i, j :: 0 <= i < j < |confirmed| ==> confirmed[i].expirationMs <= confirmed[j].expirationMs
    {
      confirmed := SortedValues(confirmedTxs, ByExpiration);
    }

    method GetFinished() returns (finished: seq<Finished<TronTx>>)
      ensures IsSortedSnapshot(finished, finishedTxs, ByRetention)
      ensures forall i, j :: 0 <= i < j < |finished| ==> finished[i].retentionTs <= finished[j].retentionTs
    {
      finished := SortedValues(finishedTxs, ByRetention);
    }
  }

  function ByExpiration<R>(e: Inflight<R>): int { e.expirationMs }

  function ByRetention<R>(f: Finished<R>): int { f.retentionTs }

  /** The values of a map in ascending order of the key: each is put behind those that do not
      exceed it. */
  method SortedValues<V>(m: map<Id, V>, key: V -> int) returns (values: seq<V>)
    ensures IsSortedSnapshot(values, m, key)
  {
    values := [];
    ghost var ids: seq<Id> := [];
    var rest := m.Keys;
    while rest != {}
      invariant rest <= m.Keys
      invariant SortedSnapshot(values, ids, m - rest, key)
      decreases rest
    {
      var id :| id in rest;
      var at := |values|;
      while at > 0 && key(values[at - 1]) > key(m[id])
        invariant 0 <= at <= |values|
        invariant forall j :: at <= j < |values| ==> key(m[id]) <= key(values[j])
      {
        at := at - 1;
      }
      InsertKeepsSnapshot(values, ids, m, rest, key, id, at);
      values := values[..at] + [m[id]] + values[at..];
      ids := ids[..at] + [id] + ids[at..];
      rest := rest - {id};
    }
    assert m - rest == m;
  }

  lemma InsertKeepsSnapshot<V>(values: seq<V>, ids: seq<Id>, m: map<Id, V>, rest: set<Id>, key: V -> int, id: Id,
    at: nat)
    requires rest <= m.Keys && id in rest && at <= |values|
    requires SortedSnapshot(values, ids, m - rest, key)
    requires forall j :: at <= j < |values| ==> key(m[id]) <= key(values[j])
    requires at == 0 || key(values[at - 1]) <= key(m[id])
    ensures SortedSnapshot(values[..at] + [m[id]] + values[at..], ids[..at] + [id] + ids[at..], m - (rest - {id}), key)
  {
    InsertEnumerates(ids, m, rest, id, at);
    InsertSorted(values, key, m[id], at);
    InsertLists(values, ids, m, rest, id, at);
  }

  lemma InsertLists<V>(values: seq<V>, ids: seq<Id>, m: map<Id, V>, rest: set<Id>, id: Id, at: nat)
    requires rest <= m.Keys && id in rest && at <= |values| && Lists(values, ids, m - rest)
    ensures Lists(values[..at] + [m[id]] + values[at..], ids[..at] + [id] + ids[at..], m - (rest - {id}))
  {
    var m' := m - (rest - {id});
    var ids' := ids[..at] + [id] + ids[at..];
    forall i | 0 <= i < |ids'| ensures ids'[i] in m' && (values[..at] + [m[id]] + values[at..])[i] == m'[ids'[i]] {
      if i < at { assert ids'[i] == ids[i]; } else if i > at { assert ids'[i] == ids[i - 1]; }
    }
  }

  lemma InsertSorted<V>(values: seq<V>, key: V -> int, v: V, at: nat)
    requires at <= |values| && SortedBy(values, key)
    requires forall j :: at <= j < |values| ==> key(v) <= key(values[j])
    requires at == 0 || key(values[at - 1]) <= key(v)
    ensures SortedBy(values[..at] + [v] + values[at..], key)
  {
    forall i | 0 <= i < at ensures key(values[i]) <= key(v) {
      assert key(values[i]) <= key(values[at - 1]);
    }
  }

  lemma InsertEnumerates<V>(ids: seq<Id>, m: map<Id, V>, rest: set<Id>, id: Id, at: nat)
    requires rest <= m.Keys && id in rest && at <= |ids| && Enumerates(ids, m - rest)
    ensures Enumerates(ids[..at] + [id] + ids[at..], m - (rest - {id}))
  {
    assert id !in ids;
    var ids' := ids[..at] + [id] + ids[at..];
    forall x ensures x in ids' <==> x in m - (rest - {id}) {
      assert ids == ids[..at] + ids[at..];
      assert x in ids' <==> x in ids || x == id;
    }
  }

  /** Whether a store is consistent does not depend on which further objects there are. */
  lemma ObjectsSuffice(s: TxStore, objects: set<TronTx>)
    requires s.Objects() <= objects
    ensures TxStoreSpec.Valid(s.Contents(), HeapOf(objects)) <==> s.Valid()
  {
    HeapsAgree(s.Contents(), s.Objects(), objects);
    HeapsAgree(s.Contents(), objects, s.Objects());
    if s.Valid() {
      ValidFrame(s.Contents(), HeapOf(s.Objects()), HeapOf(objects));
    } else if TxStoreSpec.Valid(s.Contents(), HeapOf(objects)) {
      ValidFrame(s.Contents(), HeapOf(objects), HeapOf(s.Objects()));
    }
  }

  lemma HeapsAgree(c: Store<TronTx>, a: set<TronTx>, b: set<TronTx>)
    requires ObjectsOf(c) <= a && ObjectsOf(c) <= b
    ensures SameRecords(c, HeapOf(a), HeapOf(b))
  {}

  /** A store whose contents and objects have become what an allowed call makes of a consistent
      store is consistent. */
  lemma CallKeepsValid(s: TxStore, contents: Store<TronTx>, h: map<TronTx, Tx>, op: Op<TronTx>, objects: set<TronTx>)
    requires TxStoreSpec.Valid(contents, h) && Allowed(contents, h, op)
    requires s.Contents() == Apply(contents, h, op).store
    requires HeapIs(objects, Apply(contents, h, op).heap) && h.Keys == objects
    requires PointInto(contents, objects) && (op.Enqueue? || op.Broadcast? ==> op.tx in objects)
    ensures s.Valid()
  {
    CallAddsNoObject(contents, h, op, objects);
    ObjectsOfAreIn(s.Contents(), objects);
    ApplyKeepsValid(contents, h, op);
    HeapIsHeapOf(objects, Apply(contents, h, op).heap);
    ObjectsSuffice(s, objects);
  }
}
