/** The sequential parts of the transaction manager that loop or write objects in place:
    maybeRetry, broadcastTx and checkReorged. */
module TxmLoops {

  import opened TxStoreSpec
  import opened TxStores
  import opened TxmLimits

  class TronTxm {
    var broadcastChan: seq<TronTx>
    const capacity: nat

    constructor (capacity: nat)
      ensures broadcastChan == [] && this.capacity == capacity
    {
      this.capacity := capacity;
      broadcastChan := [];
    }

    /** Retries the unconfirmed transaction rec, or files it as errored if its attempts are used
        up.  A retried object goes back to pending in place, with its counters raised, and the
        same object goes to the channel if there is room; the store stays consistent. */
    method MaybeRetry(rec: Inflight<TronTx>, bumpEnergy: bool, isOutOfTimeError: bool, txStore: TxStore, now: int)
      requires txStore.Valid()
      requires rec.tx.id in txStore.unconfirmedTxs && txStore.unconfirmedTxs[rec.tx.id] == rec
      modifies this`broadcastChan, txStore, rec.tx
      ensures txStore.Valid()
      ensures var t := old(rec.tx.Data());
              if t.attempt < 5 && t.outOfTime < 2 then
                && broadcastChan == old(broadcastChan) + (if |old(broadcastChan)| < capacity then [rec.tx] else [])
                && rec.tx.Data() == Tx(t.from, t.id, t.attempt + 1,
                                       if isOutOfTimeError then t.outOfTime + 1 else t.outOfTime,
                                       if bumpEnergy then t.bumps + 1 else t.bumps, Pending)
                && txStore.Contents() == Resubmitted(old(txStore.Contents()), rec, t.id)
                && txStore.pendingTxs == old(txStore.pendingTxs)[t.id := rec.tx]
                && txStore.unconfirmedTxs == old(txStore.unconfirmedTxs) - {t.id}
                && txStore.finishedTxs == old(txStore.finishedTxs)
              else
                && broadcastChan == old(broadcastChan)
                && rec.tx.Data() == t.(state := Errored)
                && txStore.Contents() == Abandoned(old(txStore.Contents()), rec, t.id, now)
                && txStore.pendingTxs == old(txStore.pendingTxs)
                && txStore.unconfirmedTxs == old(txStore.unconfirmedTxs) - {t.id}
                && txStore.finishedTxs == old(txStore.finishedTxs)[t.id := Finished(rec.hash, rec.tx, now)]
    {
      if rec.tx.attempt >= MAX_RETRY_ATTEMPTS || rec.tx.outOfTimeErrors >= MAX_OUT_OF_TIME {
        Abandon(rec, txStore, now);
      } else {
        Resubmit(rec, bumpEnergy, isOutOfTimeError, txStore);
        ghost var contents, h := txStore.Contents(), HeapOf(txStore.Objects());
        TrySend(rec.tx);
        assert txStore.Contents() == contents && HeapOf(txStore.Objects()) == h;
      }
    }

    /** The exit of maybeRetry for a transaction whose attempts are used up. */
    method Abandon(rec: Inflight<TronTx>, txStore: TxStore, now: int)
      requires txStore.Valid()
      requires rec.tx.id in txStore.unconfirmedTxs && txStore.unconfirmedTxs[rec.tx.id] == rec
      modifies txStore, rec.tx`state
      ensures txStore.Valid()
      ensures rec.tx.Data() == old(rec.tx.Data()).(state := Errored)
      ensures txStore.Contents() == Abandoned(old(txStore.Contents()), rec, rec.tx.id, now)
    {
      ghost var objects, contents, h := txStore.Objects(), txStore.Contents(), HeapOf(txStore.Objects());
      assert IdOk(contents, h, rec.tx.id);
      var _ := txStore.OnErrored(rec.tx.id, now);
      CallKeepsValid(txStore, contents, h, Op<TronTx>.Error(rec.tx.id, now), objects);
    }

    /** The non-blocking send: a full channel drops the transaction. */
    method TrySend(tx: TronTx)
      modifies `broadcastChan
      ensures broadcastChan == old(broadcastChan) + (if |old(broadcastChan)| < capacity then [tx] else [])
    {
      if |broadcastChan| < capacity {
        broadcastChan := broadcastChan + [tx];
      }
    }

    /** The second half of maybeRetry up to the send, for a transaction that has attempts left. */
    method Resubmit(rec: Inflight<TronTx>, bumpEnergy: bool, isOutOfTimeError: bool, txStore: TxStore)
      requires txStore.Valid()
      requires rec.tx.id in txStore.unconfirmedTxs && txStore.unconfirmedTxs[rec.tx.id] == rec
      modifies txStore, rec.tx
      ensures txStore.Valid()
      ensures rec.tx.Data() == Raised(old(rec.tx.Data()), bumpEnergy, isOutOfTimeError).(state := Pending)
      ensures txStore.Contents() == Resubmitted(old(txStore.Contents()), rec, rec.tx.id)
    {
      ghost var objects, contents, h := txStore.Objects(), txStore.Contents(), HeapOf(txStore.Objects());
      ghost var counted := h[rec.tx := Raised(h[rec.tx], bumpEnergy, isOutOfTimeError)];
      StillValid(contents, h, counted);
      RaiseAndMark(rec.tx, bumpEnergy, isOutOfTimeError);
      HeapIsHeapOf(objects, Mark(counted, rec.tx, Pending));
      FileAsPending(rec, txStore, contents, counted, objects);
    }

    method FileAsPending(rec: Inflight<TronTx>, txStore: TxStore,
                         ghost contents: Store<TronTx>, ghost counted: map<TronTx, Tx>, ghost objects: set<TronTx>)
      requires contents == txStore.Contents() && objects == txStore.Objects() && TxStoreSpec.Valid(contents, counted)
      requires rec.tx.id in contents.unconfirmed && contents.unconfirmed[rec.tx.id] == rec
      requires rec.tx in counted && HeapOf(objects) == Mark(counted, rec.tx, Pending)
      modifies txStore
      ensures txStore.Valid()
      ensures txStore.Contents() == Resubmitted(contents, rec, rec.tx.id)
    {
      assert IdOk(contents, counted, rec.tx.id);
      assert objects + {rec.tx} == objects;
      var _ := txStore.OnPending(rec.tx, true);
      RetriedIsValid(txStore, contents, counted, objects, rec.tx.id);
    }

    method RaiseAndMark(tx: TronTx, bumpEnergy: bool, isOutOfTimeError: bool)
      modifies tx
      ensures tx.Data() == Raised(old(tx.Data()), bumpEnergy, isOutOfTimeError).(state := Pending)
    {
      tx.attempt := tx.attempt + 1;
      if bumpEnergy {
        tx.energyBumpTimes := tx.energyBumpTimes + 1;
      }
      if isOutOfTimeError {
        tx.outOfTimeErrors := tx.outOfTimeErrors + 1;
      }
      tx.state := Pending;
    }
  }

  lemma RetriedIsValid(txStore: TxStore, contents: Store<TronTx>, h0: map<TronTx, Tx>, objects: set<TronTx>, id: Id)
    requires TxStoreSpec.Valid(contents, h0) && id in contents.unconfirmed && contents.unconfirmed[id].tx in h0
    requires HeapOf(objects) == Mark(h0, contents.unconfirmed[id].tx, Pending)
    requires txStore.Contents() == OnPending(contents, HeapOf(objects), contents.unconfirmed[id].tx, true).store
    requires txStore.Objects() <= objects
    ensures txStore.Valid()
  {
    OnRetryKeepsValid(contents, h0, id);
    ObjectsSuffice(txStore, objects);
  }

  lemma StillValid(contents: Store<TronTx>, h: map<TronTx, Tx>, h': map<TronTx, Tx>)
    requires TxStoreSpec.Valid(contents, h) && forall r <- h :: Kept(h, h', r)
    ensures TxStoreSpec.Valid(contents, h')
  {
    forall id <- contents.pending ensures Kept(h, h', contents.pending[id]) { assert IdOk(contents, h, id); }
    forall id <- contents.unconfirmed ensures Kept(h, h', contents.unconfirmed[id].tx) { assert IdOk(contents, h, id); }
    forall id <- contents.confirmed ensures Kept(h, h', contents.confirmed[id].tx) { assert IdOk(contents, h, id); }
    forall id <- contents.finished ensures Kept(h, h', contents.finished[id].tx) { assert IdOk(contents, h, id); }
    ValidFrame(contents, h, h');
  }

  // ---------------------------------------------------------------- broadcastTx

  /** What a call of BroadcastTransaction comes back with: success, a refusal with its code, or an
      error without a response body. */
  datatype Reply = Accepted | Rejected(code: string) | NoBody

  predicate Retryable(reply: Reply) {
    reply.Rejected? && (reply.code == "SERVER_BUSY" || reply.code == "BLOCK_UNSOLIDIFIED")
  }

  datatype BroadcastOutcome = Success | GaveUp | Failed(code: string) | NilDereference

  /** The i-th call answers replies(i) and takes took(i) ms; gap is the time from reading the clock
      to the first check of it.  At most 15 calls are made.  All but the last were answered with a
      code to be retried, and the outcome tells the last answer: success if it was accepted, the
      error if it was another refusal, and that time ran out if it, too, could have been retried.
      If the first check already finds the time over, no call is made and success is reported. */
  method BroadcastTx(replies: nat -> Reply, took: nat -> nat, gap: nat) returns (outcome: BroadcastOutcome, calls: nat)
    ensures calls <= 15
    ensures calls == 0 <==> gap >= 30_000
    ensures forall i: nat :: i < calls - 1 ==>
              replies(i) == Rejected("SERVER_BUSY") || replies(i) == Rejected("BLOCK_UNSOLIDIFIED")
    ensures outcome == if calls == 0 then Success
                       else match replies(calls - 1)
                            case Accepted => Success
                            case NoBody => NilDereference
                            case Rejected(code) =>
                              if code == "SERVER_BUSY" || code == "BLOCK_UNSOLIDIFIED" then GaveUp else Failed(code)
    ensures outcome.GaveUp? ==> gap + TotalTime(took, calls) >= 30_000
    ensures calls > 0 ==> gap + TotalTime(took, calls - 1) < 30_000
  {
    var elapsed := gap;
    var erred := false;
    calls := 0;
    while elapsed < MAX_BROADCAST_RETRY_DURATION
      invariant elapsed == gap + TotalTime(took, calls)
      invariant elapsed >= calls * BROADCAST_DELAY_DURATION && calls <= 15
      invariant erred <==> calls > 0
      invariant forall i: nat :: i < calls ==> Retryable(replies(i))
      invariant calls > 0 ==> gap + TotalTime(took, calls - 1) < MAX_BROADCAST_RETRY_DURATION
      decreases MAX_BROADCAST_RETRY_DURATION - elapsed
    {
      var reply := replies(calls);
      calls := calls + 1;
      match reply
      case Accepted => return Success, calls;
      case NoBody => return NilDereference, calls;
      case Rejected(code) =>
        erred := true;
        if code == "SERVER_BUSY" || code == "BLOCK_UNSOLIDIFIED" {
          elapsed := elapsed + took(calls - 1) + BROADCAST_DELAY_DURATION;
        } else {
          return Failed(code), calls;
        }
    }
    if erred {
      return GaveUp, calls;
    }
    return Success, calls;
  }

  /** The time n calls and the delays after them take. */
  ghost function TotalTime(took: nat -> nat, n: nat): (t: nat)
    ensures t >= n * 2_000
  {
    if n == 0 then 0 else TotalTime(took, n - 1) + took(n - 1) + 2_000
  }

  // ---------------------------------------------------------------- checkReorged

  /** found(k) tells whether the k-th lookup finds the transaction.  A reorg is reported exactly
      when the first lookup and all three retries fail. */
  method CheckReorged(found: nat -> bool) returns (reorged: bool, lookups: nat)
    ensures reorged <==> forall k: nat :: k < 4 ==> !found(k)
    ensures 1 <= lookups <= 4
    ensures forall k: nat :: k < lookups - 1 ==> !found(k)
    ensures !reorged ==> found(lookups - 1)
  {
    if found(0) {
      return false, 1;
    }
    lookups := 1;
    for retry := 0 to REORG_RETRY_COUNT
      invariant lookups == retry + 1
      invariant forall k: nat :: k < lookups ==> !found(k)
    {
      lookups := lookups + 1;
      if found(lookups - 1) {
        return false, lookups;
      }
    }
    return true, lookups;
  }
}
