/** What one account's transaction store does, as functions on values.  The type
    parameter R stands for a reference to a TronTx object; the heap gives the fields
    those objects hold, so that aliasing between the store, the channel and the
    goroutines stays visible. */
module TxStoreSpec {

  type Id = string
  type Addr = string
  type Hash = string

  datatype TxState = Pending | Errored | FatallyErrored | Broadcasted | Confirmed | Finalized

  /** The fields of a TronTx that the transaction manager reads or writes. */
  datatype Tx = Tx(from: Addr, id: Id, attempt: nat, outOfTime: nat, bumps: nat, state: TxState)

  datatype Inflight<R> = Inflight(hash: Hash, expirationMs: int, tx: R)

  datatype Finished<R> = Finished(hash: Hash, tx: R, retentionTs: int)

  datatype Store<R> = Store(
    hashToId: map<Hash, Id>,
    pending: map<Id, R>,
    unconfirmed: map<Id, Inflight<R>>,
    confirmed: map<Id, Inflight<R>>,
    finished: map<Id, Finished<R>>)
  {
    predicate Has(id: Id) {
      id in pending || id in unconfirmed || id in confirmed || id in finished
    }
  }

  /** How a store call ends: it runs to its end, it returns an error, or it
      dereferences a record that is not there. */
  datatype Outcome = Done | Refused | Panicked

  datatype Result<R> = Result(out: Outcome, store: Store<R>, heap: map<R, Tx>)

  ghost function NewStore<R>(): Store<R> {
    Store(map[], map[], map[], map[], map[])
  }

  ghost function Mark<R>(h: map<R, Tx>, r: R, state: TxState): (h': map<R, Tx>)
    requires r in h
    ensures h'.Keys == h.Keys
  {
    h[r := h[r].(state := state)]
  }

  /** The records of id point at objects of the heap. */
  ghost predicate IdClosed<R>(s: Store<R>, h: map<R, Tx>, id: Id) {
    && (id in s.pending ==> s.pending[id] in h)
    && (id in s.unconfirmed ==> s.unconfirmed[id].tx in h)
    && (id in s.confirmed ==> s.confirmed[id].tx in h)
    && (id in s.finished ==> s.finished[id].tx in h)
  }

  // ---------------------------------------------------------------- operations

  ghost function OnPending<R>(s: Store<R>, h: map<R, Tx>, tx: R, retry: bool): Result<R>
    requires tx in h
  {
    var id := h[tx].id;
    if retry && id !in s.unconfirmed then
      Result(Panicked, s, h)
    else if retry && s.unconfirmed[id].hash !in s.hashToId then
      Result(Refused, s, h)
    else
      var s1 := if retry
                then s.(hashToId := s.hashToId - {s.unconfirmed[id].hash}, unconfirmed := s.unconfirmed - {id})
                else s;
      if h[tx].state != Pending || id in s1.pending then Result(Refused, s1, h)
      else Result(Done, s1.(pending := s1.pending[id := tx]), h)
  }

  ghost function OnBroadcasted<R>(s: Store<R>, h: map<R, Tx>, hash: Hash, expirationMs: int, tx: R): Result<R>
    requires tx in h
  {
    var id := h[tx].id;
    if hash in s.hashToId || id !in s.pending then
      Result(Refused, s, h)
    else
      Result(Done,
             s.(hashToId := s.hashToId[hash := id],
                unconfirmed := s.unconfirmed[id := Inflight(hash, expirationMs, tx)],
                pending := s.pending - {id}),
             Mark(h, tx, Broadcasted))
  }

  ghost function OnConfirmed<R>(s: Store<R>, h: map<R, Tx>, id: Id): Result<R>
    requires IdClosed(s, h, id)
  {
    if id !in s.unconfirmed then Result(Refused, s, h)
    else
      var e := s.unconfirmed[id];
      if h[e.tx].state != Broadcasted then Result(Refused, s, h)
      else
        Result(Done,
               s.(unconfirmed := s.unconfirmed - {id}, confirmed := s.confirmed[id := e]),
               Mark(h, e.tx, Confirmed))
  }

  ghost function OnErrored<R>(s: Store<R>, h: map<R, Tx>, id: Id, now: int): Result<R>
    requires IdClosed(s, h, id)
  {
    if id in s.unconfirmed then
      var e := s.unconfirmed[id];
      Result(Done,
             s.(hashToId := s.hashToId - {e.hash}, unconfirmed := s.unconfirmed - {id},
                finished := s.finished[id := Finished(e.hash, e.tx, now)]),
             Mark(h, e.tx, Errored))
    else if id in s.confirmed then
      var e := s.confirmed[id];
      Result(Done,
             s.(hashToId := s.hashToId - {e.hash}, confirmed := s.confirmed - {id},
                finished := s.finished[id := Finished(e.hash, e.tx, now)]),
             Mark(h, e.tx, Errored))
    else Result(Refused, s, h)
  }

  ghost function OnFatalError<R>(s: Store<R>, h: map<R, Tx>, id: Id, now: int): Result<R>
    requires IdClosed(s, h, id)
  {
    if id in s.unconfirmed then
      var e := s.unconfirmed[id];
      Result(Done,
             s.(unconfirmed := s.unconfirmed - {id}, finished := s.finished[id := Finished(e.hash, e.tx, now)]),
             Mark(h, e.tx, FatallyErrored))
    else if id in s.confirmed then
      var e := s.confirmed[id];
      Result(Done,
             s.(confirmed := s.confirmed - {id}, finished := s.finished[id := Finished(e.hash, e.tx, now)]),
             Mark(h, e.tx, FatallyErrored))
    else Result(Refused, s, h)
  }

  ghost function OnReorg<R>(s: Store<R>, h: map<R, Tx>, id: Id): Result<R>
    requires IdClosed(s, h, id)
  {
    if id !in s.confirmed then Result(Refused, s, h)
    else
      var e := s.confirmed[id];
      Result(Done,
             s.(confirmed := s.confirmed - {id}, hashToId := s.hashToId - {e.hash},
                pending := s.pending[id := e.tx]),
             Mark(h, e.tx, Pending))
  }

  ghost function OnFinalized<R>(s: Store<R>, h: map<R, Tx>, id: Id, now: int): Result<R>
    requires IdClosed(s, h, id)
  {
    if id !in s.confirmed then Result(Refused, s, h)
    else
      var e := s.confirmed[id];
      Result(Done,
             s.(confirmed := s.confirmed - {id}, finished := s.finished[id := Finished(e.hash, e.tx, now)]),
             Mark(h, e.tx, Finalized))
  }

  /** The loop over the ids to delete, in order: the new store and the number deleted. */
  ghost function DeleteFinished<R>(s: Store<R>, ids: seq<Id>): (r: (Store<R>, nat)) {
    if ids == [] then (s, 0)
    else
      var (s1, n) := DeleteFinished(s, ids[..|ids| - 1]);
      var id := ids[|ids| - 1];
      if id in s1.finished
      then (s1.(finished := s1.finished - {id}, hashToId := s1.hashToId - {s1.finished[id].hash}), n + 1)
      else (s1, n)
  }

  /** (state, true) from the first map that knows the id. */
  ghost function GetStatus<R>(s: Store<R>, h: map<R, Tx>, id: Id): (TxState, bool)
    requires IdClosed(s, h, id)
  {
    if id in s.pending then (h[s.pending[id]].state, true)
    else if id in s.unconfirmed then (h[s.unconfirmed[id].tx].state, true)
    else if id in s.confirmed then (h[s.confirmed[id].tx].state, true)
    else if id in s.finished then (h[s.finished[id].tx].state, true)
    else (Pending, false)
  }

  // ---------------------------------------------------------------- what maybeRetry amounts to

  /** A store once the unconfirmed record rec of id is filed as errored. */
  ghost function Abandoned<R>(s: Store<R>, rec: Inflight<R>, id: Id, now: int): Store<R> {
    s.(hashToId := s.hashToId - {rec.hash}, unconfirmed := s.unconfirmed - {id},
       finished := s.finished[id := Finished(rec.hash, rec.tx, now)])
  }

  /** A store once the unconfirmed record rec of id is pending again. */
  ghost function Resubmitted<R>(s: Store<R>, rec: Inflight<R>, id: Id): Store<R> {
    s.(hashToId := s.hashToId - {rec.hash}, unconfirmed := s.unconfirmed - {id}, pending := s.pending[id := rec.tx])
  }

  /** The counters of an object with one more attempt. */
  ghost function Raised(t: Tx, bumpEnergy: bool, isOutOfTimeError: bool): Tx {
    t.(attempt := t.attempt + 1,
       bumps := t.bumps + (if bumpEnergy then 1 else 0),
       outOfTime := t.outOfTime + (if isOutOfTimeError then 1 else 0))
  }

  // ---------------------------------------------------------------- the invariant

  predicate Terminal(state: TxState) {
    state == Errored || state == FatallyErrored || state == Finalized
  }

  /** r is an object with this id and state. */
  ghost predicate Object<R>(h: map<R, Tx>, r: R, id: Id, state: TxState) {
    r in h && h[r].id == id && h[r].state == state
  }

  /** id is in at most one map, under an object that carries id and the state the map stands
      for; its hash is indexed exactly if the record was broadcast and did not end errored. */
  ghost predicate IdOk<R>(s: Store<R>, h: map<R, Tx>, id: Id) {
    && (id in s.pending ==>
          && id !in s.unconfirmed && id !in s.confirmed && id !in s.finished
          && Object(h, s.pending[id], id, Pending))
    && (id in s.unconfirmed ==>
          && id !in s.confirmed && id !in s.finished
          && Object(h, s.unconfirmed[id].tx, id, Broadcasted)
          && Indexed(s, s.unconfirmed[id].hash, id))
    && (id in s.confirmed ==>
          && id !in s.finished
          && Object(h, s.confirmed[id].tx, id, Confirmed)
          && Indexed(s, s.confirmed[id].hash, id))
    && (id in s.finished ==>
          && s.finished[id].tx in h
          && Object(h, s.finished[id].tx, id, h[s.finished[id].tx].state)
          && Terminal(h[s.finished[id].tx].state)
          && if h[s.finished[id].tx].state == Errored then s.finished[id].hash !in s.hashToId
             else Indexed(s, s.finished[id].hash, id))
  }

  ghost predicate Indexed<R>(s: Store<R>, hash: Hash, id: Id) {
    hash in s.hashToId && s.hashToId[hash] == id
  }

  /** The record of id is live under this hash: it was broadcast with it and did not end errored. */
  ghost predicate Owns<R>(s: Store<R>, h: map<R, Tx>, id: Id, hash: Hash) {
    || (id in s.unconfirmed && s.unconfirmed[id].hash == hash)
    || (id in s.confirmed && s.confirmed[id].hash == hash)
    || (id in s.finished && s.finished[id].hash == hash && s.finished[id].tx in h
        && h[s.finished[id].tx].state != Errored)
  }

  ghost predicate HashOk<R>(s: Store<R>, h: map<R, Tx>, hash: Hash) {
    hash in s.hashToId ==> Owns(s, h, s.hashToId[hash], hash)
  }

  ghost predicate Valid<R>(s: Store<R>, h: map<R, Tx>) {
    (forall id :: IdOk(s, h, id)) && (forall hash :: HashOk(s, h, hash))
  }

  /** The assumption on hashes: none repeats the hash of an errored record still kept, whose
      reaping would remove the hash from the index a second time. */
  ghost predicate HashFresh<R>(s: Store<R>, h: map<R, Tx>, hash: Hash) {
    forall id <- s.finished ::
      s.finished[id].tx in h && h[s.finished[id].tx].state == Errored ==> s.finished[id].hash != hash
  }

  // ---------------------------------------------------------------- each operation keeps it

  /** A first OnPending keeps the store consistent exactly when it is refused or the id is new. */
  lemma OnPendingKeepsValid<R>(s: Store<R>, h: map<R, Tx>, tx: R)
    requires Valid(s, h) && tx in h
    ensures Valid(OnPending(s, h, tx, false).store, h)
            <==> h[tx].state != Pending || h[tx].id in s.pending || !s.Has(h[tx].id)
  {
    var s' := OnPending(s, h, tx, false).store;
    if s' == s {
    } else if s.Has(h[tx].id) {
      assert !IdOk(s', h, h[tx].id);
    } else {
      forall id ensures IdOk(s', h, id) { assert IdOk(s, h, id); }
      forall hash ensures HashOk(s', h, hash) { assert HashOk(s, h, hash); }
    }
  }

  /** Two overlapping Enqueue calls for one id: both find it unknown, the first files its object
      and sees it broadcast, and then the second files another under the same id. */
  lemma OverlappingEnqueueLosesDisjointness(id: Id, hash: Hash, exp: int)
    ensures var h := map[0 := Tx("A", id, 1, 0, 0, Pending), 1 := Tx("A", id, 1, 0, 0, Pending)];
            var one := OnPending(NewStore<nat>(), h, 0, false);
            var two := OnBroadcasted(one.store, h, hash, exp, 0);
            var three := OnPending(two.store, two.heap, 1, false);
            && !NewStore<nat>().Has(id)
            && one.out == two.out == three.out == Done
            && id in three.store.pending && id in three.store.unconfirmed
            && !Valid(three.store, three.heap)
  {
    var h: map<nat, Tx> := map[0 := Tx("A", id, 1, 0, 0, Pending), 1 := Tx("A", id, 1, 0, 0, Pending)];
    var one := OnPending(NewStore<nat>(), h, 0, false);
    var two := OnBroadcasted(one.store, h, hash, exp, 0);
    assert !IdOk(OnPending(two.store, two.heap, 1, false).store, two.heap, id);
  }

  /** The retry comes with the object already marked Pending; h0 is the heap before the mark.
      It is carried out, and the store stays consistent. */
  lemma OnRetryKeepsValid<R>(s: Store<R>, h0: map<R, Tx>, id: Id)
    requires Valid(s, h0) && id in s.unconfirmed && s.unconfirmed[id].tx in h0
    ensures var tx := s.unconfirmed[id].tx;
            var h := Mark(h0, tx, Pending);
            var r := OnPending(s, h, tx, true);
            r.out == Done && r.heap == h && Valid(r.store, h)
  {
    assert IdOk(s, h0, id);
    var tx := s.unconfirmed[id].tx;
    var h := Mark(h0, tx, Pending);
    var s' := OnPending(s, h, tx, true).store;
    forall i ensures IdOk(s', h, i) { assert IdOk(s, h0, i); }
    forall hash ensures HashOk(s', h, hash) { assert HashOk(s, h0, hash); }
  }

  lemma OnBroadcastedKeepsValid<R>(s: Store<R>, h: map<R, Tx>, hash: Hash, exp: int, tx: R)
    requires Valid(s, h) && tx in h && h[tx].id in s.pending && s.pending[h[tx].id] == tx
    ensures var r := OnBroadcasted(s, h, hash, exp, tx);
            Valid(r.store, r.heap) <==> r.out == Refused || HashFresh(s, h, hash)
  {
    var r := OnBroadcasted(s, h, hash, exp, tx);
    if r.out == Done && HashFresh(s, h, hash) {
      forall i ensures IdOk(r.store, r.heap, i) { assert IdOk(s, h, i) && IdOk(s, h, h[tx].id); }
      forall x ensures HashOk(r.store, r.heap, x) { assert HashOk(s, h, x); assert IdOk(s, h, h[tx].id); }
    } else if r.out == Done {
      var i :| i in s.finished && s.finished[i].tx in h && h[s.finished[i].tx].state == Errored
               && s.finished[i].hash == hash;
      assert IdOk(s, h, i) && IdOk(s, h, h[tx].id);
      assert !IdOk(r.store, r.heap, i);
    }
  }

  /** What each call that moves a broadcast record does when the record is there. */
  lemma OnConfirmedKeepsValid<R>(s: Store<R>, h: map<R, Tx>, id: Id)
    requires Valid(s, h) && IdClosed(s, h, id)
    ensures var r := OnConfirmed(s, h, id);
            Valid(r.store, r.heap) && (r.out == Done <==> id in s.unconfirmed) && r.out != Panicked
  {
    var r := OnConfirmed(s, h, id);
    assert IdOk(s, h, id);
    forall i ensures IdOk(r.store, r.heap, i) { assert IdOk(s, h, i); }
    forall x ensures HashOk(r.store, r.heap, x) { assert HashOk(s, h, x); }
  }

  lemma OnErroredKeepsValid<R>(s: Store<R>, h: map<R, Tx>, id: Id, now: int)
    requires Valid(s, h) && IdClosed(s, h, id)
    ensures var r := OnErrored(s, h, id, now);
            Valid(r.store, r.heap) && (r.out == Done <==> id in s.unconfirmed || id in s.confirmed) && r.out != Panicked
  {
    var r := OnErrored(s, h, id, now);
    assert IdOk(s, h, id);
    forall i ensures IdOk(r.store, r.heap, i) { assert IdOk(s, h, i); }
    forall x ensures HashOk(r.store, r.heap, x) {
      assert HashOk(s, h, x);
      if x in s.hashToId { assert IdOk(s, h, s.hashToId[x]); }
    }
  }

  lemma OnFatalErrorKeepsValid<R>(s: Store<R>, h: map<R, Tx>, id: Id, now: int)
    requires Valid(s, h) && IdClosed(s, h, id)
    ensures var r := OnFatalError(s, h, id, now);
            Valid(r.store, r.heap) && (r.out == Done <==> id in s.unconfirmed || id in s.confirmed) && r.out != Panicked
  {
    var r := OnFatalError(s, h, id, now);
    assert IdOk(s, h, id);
    forall i ensures IdOk(r.store, r.heap, i) { assert IdOk(s, h, i); }
    forall x ensures HashOk(r.store, r.heap, x) { assert HashOk(s, h, x); }
  }

  lemma OnReorgKeepsValid<R>(s: Store<R>, h: map<R, Tx>, id: Id)
    requires Valid(s, h) && IdClosed(s, h, id)
    ensures var r := OnReorg(s, h, id);
            Valid(r.store, r.heap) && (r.out == Done <==> id in s.confirmed) && r.out != Panicked
  {
    var r := OnReorg(s, h, id);
    assert IdOk(s, h, id);
    forall i ensures IdOk(r.store, r.heap, i) { assert IdOk(s, h, i); }
    forall x ensures HashOk(r.store, r.heap, x) { assert HashOk(s, h, x); }
  }

  lemma OnFinalizedKeepsValid<R>(s: Store<R>, h: map<R, Tx>, id: Id, now: int)
    requires Valid(s, h) && IdClosed(s, h, id)
    ensures var r := OnFinalized(s, h, id, now);
            Valid(r.store, r.heap) && (r.out == Done <==> id in s.confirmed) && r.out != Panicked
  {
    var r := OnFinalized(s, h, id, now);
    assert IdOk(s, h, id);
    forall i ensures IdOk(r.store, r.heap, i) { assert IdOk(s, h, i); }
    forall x ensures HashOk(r.store, r.heap, x) { assert HashOk(s, h, x); }
  }

  // ---------------------------------------------------------------- reaping

  ghost function HashesOf<R>(s: Store<R>, ids: seq<Id>): set<Hash> {
    set id | id in ids && id in s.finished :: s.finished[id].hash
  }

  ghost function FinishedAmong<R>(s: Store<R>, ids: seq<Id>): set<Id> {
    set id | id in ids && id in s.finished
  }

  /** Deleting removes exactly the finished records named, with their index entries, and
      counts each of them once however often it is named. */
  lemma {:induction false} DeleteFinishedExact<R>(s: Store<R>, ids: seq<Id>)
    ensures var (s', n) := DeleteFinished(s, ids);
            && s' == s.(finished := s.finished - FinishedAmong(s, ids), hashToId := s.hashToId - HashesOf(s, ids))
            && n == |FinishedAmong(s, ids)|
  {
    if ids != [] {
      var front, id := ids[..|ids| - 1], ids[|ids| - 1];
      assert ids == front + [id];
      DeleteFinishedExact(s, front);
      AmongNext(s, front, id);
      DeleteNext(s, DeleteFinished(s, front).0, front, id);
    }
  }

  lemma DeleteNext<R>(s: Store<R>, s1: Store<R>, front: seq<Id>, id: Id)
    requires s1 == s.(finished := s.finished - FinishedAmong(s, front), hashToId := s.hashToId - HashesOf(s, front))
    ensures id in s1.finished <==> id in s.finished && id !in front
    ensures id in s1.finished ==>
              && s1.finished - {id} == s.finished - (FinishedAmong(s, front) + {id})
              && s1.hashToId - {s1.finished[id].hash} == s.hashToId - (HashesOf(s, front) + {s.finished[id].hash})
              && |FinishedAmong(s, front) + {id}| == |FinishedAmong(s, front)| + 1
  {
  }

  lemma AmongNext<R>(s: Store<R>, front: seq<Id>, id: Id)
    ensures FinishedAmong(s, front + [id])
            == FinishedAmong(s, front) + if id in s.finished && id !in front then {id} else {}
    ensures HashesOf(s, front + [id])
            == HashesOf(s, front) + if id in s.finished && id !in front then {s.finished[id].hash} else {}
  {
  }

  lemma DeleteFinishedKeepsValid<R>(s: Store<R>, h: map<R, Tx>, ids: seq<Id>)
    requires Valid(s, h)
    ensures Valid(DeleteFinished(s, ids).0, h)
    ensures forall hash <- s.hashToId :: s.hashToId[hash] !in FinishedAmong(s, ids) ==>
            hash in DeleteFinished(s, ids).0.hashToId
  {
    DeleteFinishedExact(s, ids);
    var s' := DeleteFinished(s, ids).0;
    forall hash <- s.hashToId | s.hashToId[hash] !in FinishedAmong(s, ids) ensures hash in s'.hashToId {
      forall id <- FinishedAmong(s, ids) ensures s.finished[id].hash != hash {
        assert IdOk(s, h, id) && HashOk(s, h, hash);
      }
    }
    forall i ensures IdOk(s', h, i) { assert IdOk(s, h, i); }
    forall x ensures HashOk(s', h, x) {
      assert HashOk(s, h, x);
      if x in s.hashToId { assert IdOk(s, h, s.hashToId[x]); }
    }
  }

  // ---------------------------------------------------------------- the lifecycle

  /** What a caller of the manager can tell about an id. */
  datatype Phase = Unknown | AtPending | AtUnconfirmed | AtConfirmed | Ended(state: TxState)

  ghost function PhaseOf<R>(s: Store<R>, h: map<R, Tx>, id: Id): Phase
    requires IdClosed(s, h, id)
  {
    if id in s.pending then AtPending
    else if id in s.unconfirmed then AtUnconfirmed
    else if id in s.confirmed then AtConfirmed
    else if id in s.finished then Ended(h[s.finished[id].tx].state)
    else Unknown
  }

  datatype Op<R> =
    | Enqueue(tx: R)
    | Retry(id: Id)
    | Broadcast(hash: Hash, expirationMs: int, tx: R)
    | Confirm(id: Id)
    | Error(id: Id, now: int)
    | Fatal(id: Id, now: int)
    | Reorg(id: Id)
    | Finalize(id: Id, now: int)
    | Reap(ids: seq<Id>)

  /** What the manager's goroutines see to before each call.  A retried object is marked
      Pending first, and is the one the store holds. */
  ghost predicate Allowed<R>(s: Store<R>, h: map<R, Tx>, op: Op<R>) {
    match op
    case Enqueue(tx) => tx in h && h[tx].state == Pending && !s.Has(h[tx].id)
    case Retry(id) => id in s.unconfirmed && IdClosed(s, h, id)
    case Broadcast(hash, _, tx) =>
      tx in h && h[tx].id in s.pending && s.pending[h[tx].id] == tx && HashFresh(s, h, hash)
    case Reap(_) => true
    case _ => IdClosed(s, h, op.id)
  }

  ghost function Apply<R>(s: Store<R>, h: map<R, Tx>, op: Op<R>): Result<R>
    requires Allowed(s, h, op)
  {
    match op
    case Enqueue(tx) => OnPending(s, h, tx, false)
    case Retry(id) => OnPending(s, Mark(h, s.unconfirmed[id].tx, Pending), s.unconfirmed[id].tx, true)
    case Broadcast(hash, exp, tx) => OnBroadcasted(s, h, hash, exp, tx)
    case Confirm(id) => OnConfirmed(s, h, id)
    case Error(id, now) => OnErrored(s, h, id, now)
    case Fatal(id, now) => OnFatalError(s, h, id, now)
    case Reorg(id) => OnReorg(s, h, id)
    case Finalize(id, now) => OnFinalized(s, h, id, now)
    case Reap(ids) => Result(Done, DeleteFinished(s, ids).0, h)
  }

  /** The edges of the lifecycle, each with the call that takes it. */
  ghost predicate Edge<R>(p: Phase, op: Op<R>, q: Phase) {
    match op
    case Enqueue(_) => p == Unknown && q == AtPending
    case Retry(_) => p == AtUnconfirmed && q == AtPending
    case Broadcast(_, _, _) => p == AtPending && q == AtUnconfirmed
    case Confirm(_) => p == AtUnconfirmed && q == AtConfirmed
    case Error(_, _) => (p == AtUnconfirmed || p == AtConfirmed) && q == Ended(Errored)
    case Fatal(_, _) => (p == AtUnconfirmed || p == AtConfirmed) && q == Ended(FatallyErrored)
    case Reorg(_) => p == AtConfirmed && q == AtPending
    case Finalize(_, _) => p == AtConfirmed && q == Ended(Finalized)
    case Reap(_) => p.Ended? && q == Unknown
  }

  /** The id a call is about. */
  ghost function OpId<R>(h: map<R, Tx>, op: Op<R>): Id
    requires !op.Reap?
    requires (op.Enqueue? || op.Broadcast?) ==> op.tx in h
  {
    if op.Enqueue? || op.Broadcast? then h[op.tx].id else op.id
  }

  lemma ApplyKeepsValid<R>(s: Store<R>, h: map<R, Tx>, op: Op<R>)
    requires Valid(s, h) && Allowed(s, h, op)
    ensures var r := Apply(s, h, op); Valid(r.store, r.heap)
  {
    match op
    case Enqueue(tx) => OnPendingKeepsValid(s, h, tx);
    case Retry(i) => OnRetryKeepsValid(s, h, i);
    case Broadcast(hash, exp, tx) => OnBroadcastedKeepsValid(s, h, hash, exp, tx);
    case Confirm(i) => OnConfirmedKeepsValid(s, h, i);
    case Error(i, now) => OnErroredKeepsValid(s, h, i, now);
    case Fatal(i, now) => OnFatalErrorKeepsValid(s, h, i, now);
    case Reorg(i) => OnReorgKeepsValid(s, h, i);
    case Finalize(i, now) => OnFinalizedKeepsValid(s, h, i, now);
    case Reap(ids) => DeleteFinishedKeepsValid(s, h, ids);
  }

  /** A call that is carried out moves the id it is about along its edge of the lifecycle, one
      that is refused changes nothing, and no other id moves; reaping takes the ids it is given
      out of the store as far as they have ended. */
  ghost predicate Moves<R>(s: Store<R>, h: map<R, Tx>, op: Op<R>, id: Id)
    requires Allowed(s, h, op)
  {
    var r := Apply(s, h, op);
    && r.out != Panicked
    && (r.out == Refused ==> r.store == s && r.heap == h)
    && IdClosed(s, h, id) && IdClosed(r.store, r.heap, id)
    && var p, q := PhaseOf(s, h, id), PhaseOf(r.store, r.heap, id);
       if op.Reap? then q == if id in op.ids && p.Ended? then Unknown else p
       else if id == OpId(h, op) && r.out == Done then Edge(p, op, q)
       else q == p
  }

  lemma ApplyFollowsLifecycle<R>(s: Store<R>, h: map<R, Tx>, op: Op<R>, id: Id)
    requires Valid(s, h) && Allowed(s, h, op)
    ensures Moves(s, h, op, id)
  {
    assert IdOk(s, h, id);
    if op.Reap? {
      DeleteFinishedExact(s, op.ids);
    } else {
      assert IdOk(s, h, OpId(h, op));
      if op.Enqueue? || op.Retry? || op.Broadcast? { MovesIn(s, h, op, id); }
      else if op.Error? || op.Fatal? { MovesToFailed(s, h, op, id); }
      else { MovesOn(s, h, op, id); }
    }
  }

  lemma MovesIn<R>(s: Store<R>, h: map<R, Tx>, op: Op<R>, id: Id)
    requires op.Enqueue? || op.Retry? || op.Broadcast?
    requires Allowed(s, h, op) && IdOk(s, h, id) && IdOk(s, h, OpId(h, op))
    ensures Moves(s, h, op, id)
  {}

  lemma MovesToFailed<R>(s: Store<R>, h: map<R, Tx>, op: Op<R>, id: Id)
    requires op.Error? || op.Fatal?
    requires Allowed(s, h, op) && IdOk(s, h, id) && IdOk(s, h, OpId(h, op))
    ensures Moves(s, h, op, id)
  {}

  lemma MovesOn<R>(s: Store<R>, h: map<R, Tx>, op: Op<R>, id: Id)
    requires op.Confirm? || op.Reorg? || op.Finalize?
    requires Allowed(s, h, op) && IdOk(s, h, id) && IdOk(s, h, OpId(h, op))
    ensures Moves(s, h, op, id)
  {}

  /** The records of id are the same in a and b. */
  ghost predicate SameId<R>(a: Store<R>, b: Store<R>, id: Id) {
    && (id in a.pending <==> id in b.pending) && (id in a.pending ==> a.pending[id] == b.pending[id])
    && (id in a.unconfirmed <==> id in b.unconfirmed)
    && (id in a.unconfirmed ==> a.unconfirmed[id] == b.unconfirmed[id])
    && (id in a.confirmed <==> id in b.confirmed) && (id in a.confirmed ==> a.confirmed[id] == b.confirmed[id])
    && (id in a.finished <==> id in b.finished) && (id in a.finished ==> a.finished[id] == b.finished[id])
  }

  /** A call leaves the records of all other ids as they are. */
  lemma CallTouchesOneId<R>(s: Store<R>, h: map<R, Tx>, op: Op<R>, id: Id)
    requires !op.Reap? && Allowed(s, h, op) && id != OpId(h, op) && IdOk(s, h, OpId(h, op))
    ensures SameId(s, Apply(s, h, op).store, id)
  {
    match op
    case Retry(_) =>
    case _ =>
  }

  /** The record of an id that was broadcast and has not ended. */
  ghost predicate HasInflight<R>(s: Store<R>, id: Id, e: Inflight<R>) {
    (id in s.unconfirmed && s.unconfirmed[id] == e) || (id in s.confirmed && s.confirmed[id] == e)
  }

  /** A call that is carried out files what it is given, or what was on record: hash, expiration and
      object stay together from the broadcast on, and the time of the end is that of the call. */
  lemma CallFilesRecord<R>(s: Store<R>, h: map<R, Tx>, op: Op<R>)
    requires Valid(s, h) && Allowed(s, h, op) && !op.Reap? && Apply(s, h, op).out == Done
    ensures var s', id := Apply(s, h, op).store, OpId(h, op);
            match op
            case Enqueue(tx) => id in s'.pending && s'.pending[id] == tx
            case Broadcast(hash, exp, tx) =>
              && id in s'.unconfirmed && s'.unconfirmed[id].tx == tx
              && s'.unconfirmed[id].hash == hash && s'.unconfirmed[id].expirationMs == exp
            case Confirm(_) => id in s.unconfirmed && id in s'.confirmed && s'.confirmed[id] == s.unconfirmed[id]
            case Retry(_) => id in s.unconfirmed && id in s'.pending && s'.pending[id] == s.unconfirmed[id].tx
            case Reorg(_) => id in s.confirmed && id in s'.pending && s'.pending[id] == s.confirmed[id].tx
            case _ =>
              && id in s'.finished && s'.finished[id].retentionTs == op.now
              && exists e :: HasInflight(s, id, e) && s'.finished[id].hash == e.hash && s'.finished[id].tx == e.tx
  {
    var id := OpId(h, op);
    assert IdOk(s, h, id);
    if op.Error? || op.Fatal? || op.Finalize? {
      assert HasInflight(s, id, if id in s.unconfirmed then s.unconfirmed[id] else s.confirmed[id]);
    }
  }

  // ---------------------------------------------------------------- sequences of calls

  /** Calls in the order they were made, each with the heap it found.  Between two calls the
      environment may allocate objects and change the counters of those it has. */
  datatype History<R> = Start | After(earlier: History<R>, found: map<R, Tx>, op: Op<R>)

  ghost predicate Reached<R(!new)>(s: Store<R>, h: map<R, Tx>, ops: History<R>)
    decreases ops
  {
    match ops
    case Start => s == NewStore()
    case After(earlier, found, op) =>
      exists s0: Store<R>, h0: map<R, Tx> :: Reached(s0, h0, earlier) && ReachedNext(s0, h0, found, op, s, h)
  }

  ghost predicate ReachedNext<R>(s0: Store<R>, h0: map<R, Tx>, h1: map<R, Tx>, op: Op<R>, s: Store<R>, h: map<R, Tx>) {
    && SameRecords(s0, h0, h1)
    && Allowed(s0, h1, op)
    && s == Apply(s0, h1, op).store
    && h == Apply(s0, h1, op).heap
  }

  /** h agrees with h0 on id and state of every object the store knows. */
  ghost predicate SameRecords<R>(s: Store<R>, h0: map<R, Tx>, h: map<R, Tx>) {
    && (forall id <- s.pending :: Kept(h0, h, s.pending[id]))
    && (forall id <- s.unconfirmed :: Kept(h0, h, s.unconfirmed[id].tx))
    && (forall id <- s.confirmed :: Kept(h0, h, s.confirmed[id].tx))
    && (forall id <- s.finished :: Kept(h0, h, s.finished[id].tx))
  }

  ghost predicate Kept<R>(h0: map<R, Tx>, h: map<R, Tx>, r: R) {
    r in h0 && r in h && h[r].id == h0[r].id && h[r].state == h0[r].state && h[r].from == h0[r].from
  }

  lemma ValidFrame<R>(s: Store<R>, h0: map<R, Tx>, h: map<R, Tx>)
    requires Valid(s, h0) && SameRecords(s, h0, h)
    ensures Valid(s, h)
  {
    forall i ensures IdOk(s, h, i) { assert IdOk(s, h0, i); }
    forall x ensures HashOk(s, h, x) {
      assert HashOk(s, h0, x);
      if x in s.hashToId { assert IdOk(s, h0, s.hashToId[x]); }
    }
  }

  lemma {:induction false} ReachedIsValid<R(!new)>(s: Store<R>, h: map<R, Tx>, ops: History<R>)
    requires Reached(s, h, ops)
    ensures Valid(s, h)
    decreases ops
  {
    if ops.After? {
      var s0: Store<R>, h0: map<R, Tx> :|
        Reached(s0, h0, ops.earlier) && ReachedNext(s0, h0, ops.found, ops.op, s, h);
      ReachedIsValid(s0, h0, ops.earlier);
      ValidFrame(s0, h0, ops.found);
      ApplyKeepsValid(s0, ops.found, ops.op);
    }
  }

  // ---------------------------------------------------------------- readers

  /** The readers answer from the phase alone: Has whether there is one, GetStatus its state. */
  lemma ReadersSeePhase<R>(s: Store<R>, h: map<R, Tx>, id: Id)
    requires Valid(s, h)
    ensures IdClosed(s, h, id)
    ensures var p := PhaseOf(s, h, id);
            && (s.Has(id) <==> p != Unknown)
            && GetStatus(s, h, id) == match p
                                      case Unknown => (Pending, false)
                                      case AtPending => (Pending, true)
                                      case AtUnconfirmed => (Broadcasted, true)
                                      case AtConfirmed => (Confirmed, true)
                                      case Ended(state) => (state, true)
  {
    assert IdOk(s, h, id);
  }

  /** id is unconfirmed or, if that is asked, has ended. */
  ghost predicate Counts<R>(s: Store<R>, h: map<R, Tx>, id: Id, ended: bool) {
    IdClosed(s, h, id) && if ended then PhaseOf(s, h, id).Ended? else PhaseOf(s, h, id) == AtUnconfirmed
  }

  ghost function Counted<R>(s: Store<R>, h: map<R, Tx>, ended: bool): set<Id> {
    set id | id in s.unconfirmed.Keys + s.finished.Keys && Counts(s, h, id, ended)
  }

  /** The counters count the ids of a phase, and only ids of a record are in one. */
  lemma CountsArePhases<R>(s: Store<R>, h: map<R, Tx>, ended: bool)
    requires Valid(s, h)
    ensures forall id :: Counts(s, h, id, ended) <==> id in Counted(s, h, ended)
    ensures |Counted(s, h, ended)| == if ended then |s.finished| else |s.unconfirmed|
  {
    var keys := if ended then s.finished.Keys else s.unconfirmed.Keys;
    forall id ensures id in keys <==> Counts(s, h, id, ended) { CountsItsPhase(s, h, id, ended); }
    assert keys == Counted(s, h, ended);
  }

  lemma CountsItsPhase<R>(s: Store<R>, h: map<R, Tx>, id: Id, ended: bool)
    requires Valid(s, h)
    ensures Counts(s, h, id, ended) <==> if ended then id in s.finished else id in s.unconfirmed
  {
    assert IdOk(s, h, id);
  }

  ghost function NotErrored<R>(s: Store<R>, h: map<R, Tx>): set<Id> {
    set id | id in s.finished && s.finished[id].tx in h && h[s.finished[id].tx].state != Errored
  }

  /** The live records, each with its hash. */
  ghost function LiveHashes<R>(s: Store<R>, h: map<R, Tx>): map<Id, Hash> {
    map id | id in s.unconfirmed.Keys + s.confirmed.Keys + NotErrored(s, h) ::
      if id in s.unconfirmed then s.unconfirmed[id].hash
      else if id in s.confirmed then s.confirmed[id].hash
      else s.finished[id].hash
  }

  lemma LiveHashesInvertIndex<R>(s: Store<R>, h: map<R, Tx>)
    requires Valid(s, h)
    ensures var live := LiveHashes(s, h);
            && (forall id <- live :: live[id] in s.hashToId && s.hashToId[live[id]] == id)
            && (forall x <- s.hashToId :: s.hashToId[x] in live && live[s.hashToId[x]] == x)
  {
    var live := LiveHashes(s, h);
    forall id <- live ensures live[id] in s.hashToId && s.hashToId[live[id]] == id { assert IdOk(s, h, id); }
    forall x <- s.hashToId ensures s.hashToId[x] in live && live[s.hashToId[x]] == x {
      assert HashOk(s, h, x);
      assert IdOk(s, h, s.hashToId[x]);
    }
  }

  lemma LiveKindsDisjoint<R>(s: Store<R>, h: map<R, Tx>, id: Id)
    requires Valid(s, h)
    ensures !(id in s.unconfirmed && id in s.confirmed)
    ensures !(id in s.unconfirmed && id in s.finished)
    ensures !(id in s.confirmed && id in s.finished)
  {
    assert IdOk(s, h, id);
  }

  lemma UnionSize(u: set<Id>, c: set<Id>, f: set<Id>)
    requires forall id :: !(id in u && id in c) && !(id in u && id in f) && !(id in c && id in f)
    ensures |u + c + f| == |u| + |c| + |f|
  {
    assert u !! c && (u + c) !! f;
  }

  lemma IndexMatchesLive<R>(s: Store<R>, h: map<R, Tx>)
    requires Valid(s, h)
    ensures |s.hashToId| == |LiveHashes(s, h)|
  {
    LiveHashesInvertIndex(s, h);
    InverseSize(s.hashToId, LiveHashes(s, h));
  }

  /** The index is the inverse of the live records: one hash for each unconfirmed, confirmed,
      finalized and fatally errored record, and nothing else. */
  lemma IndexSize<R>(s: Store<R>, h: map<R, Tx>)
    requires Valid(s, h)
    ensures |s.hashToId| == |s.unconfirmed| + |s.confirmed| + |NotErrored(s, h)|
  {
    IndexMatchesLive(s, h);
    LiveHashesSize(s, h);
  }

  lemma LiveHashesSize<R>(s: Store<R>, h: map<R, Tx>)
    requires Valid(s, h)
    ensures |LiveHashes(s, h)| == |s.unconfirmed| + |s.confirmed| + |NotErrored(s, h)|
  {
    forall id ensures
      && !(id in s.unconfirmed.Keys && id in s.confirmed.Keys)
      && !(id in s.unconfirmed.Keys && id in NotErrored(s, h))
      && !(id in s.confirmed.Keys && id in NotErrored(s, h))
    {
      LiveKindsDisjoint(s, h, id);
    }
    UnionSize(s.unconfirmed.Keys, s.confirmed.Keys, NotErrored(s, h));
    LiveHashesKeys(s, h);
  }

  lemma LiveHashesKeys<R>(s: Store<R>, h: map<R, Tx>)
    ensures LiveHashes(s, h).Keys == s.unconfirmed.Keys + s.confirmed.Keys + NotErrored(s, h)
  {}

  lemma {:induction false} InverseSize(m: map<Hash, Id>, live: map<Id, Hash>)
    requires forall id <- live :: live[id] in m && m[live[id]] == id
    requires forall x <- m :: m[x] in live && live[m[x]] == x
    ensures |m| == |live|
    decreases |m|
  {
    if m == map[] {
      forall id ensures id !in live {}
      assert live == map[];
    } else {
      var x :| x in m;
      InverseSize(m - {x}, live - {m[x]});
      assert |m| == |m - {x}| + 1;
      assert |live| == |live - {m[x]}| + 1;
    }
  }

  // ---------------------------------------------------------------- snapshots

  /** ids lists the keys of m, each once. */
  ghost predicate Enumerates<V>(ids: seq<Id>, m: map<Id, V>) {
    && (forall id :: id in ids <==> id in m)
    && (forall i, j :: 0 <= i < j < |ids| ==> ids[i] != ids[j])
  }

  /** q holds the values of m in the order of ids. */
  ghost predicate Lists<V>(q: seq<V>, ids: seq<Id>, m: map<Id, V>) {
    |q| == |ids| && (forall i :: 0 <= i < |q| ==> ids[i] in m && q[i] == m[ids[i]])
  }

  ghost predicate SortedBy<V>(q: seq<V>, key: V -> int) {
    forall i, j :: 0 <= i < j < |q| ==> key(q[i]) <= key(q[j])
  }

  /** The values of m in the order of ids, by ascending key. */
  ghost predicate SortedSnapshot<V>(q: seq<V>, ids: seq<Id>, m: map<Id, V>, key: V -> int) {
    Enumerates(ids, m) && Lists(q, ids, m) && SortedBy(q, key)
  }

  /** The values of m, that of each id once, by ascending key. */
  ghost predicate IsSortedSnapshot<V>(q: seq<V>, m: map<Id, V>, key: V -> int) {
    exists ids :: SortedSnapshot(q, ids, m, key)
  }
}
