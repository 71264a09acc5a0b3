/** What holds of the transaction manager in every state it can reach, and that each step keeps it. */
module ManagerInvariant {

  import opened Options
  import opened TxStoreSpec
  import opened TxmLimits
  import opened Manager

  // ---------------------------------------------------------------- the invariant

  /** Between maybeRetry's write of State and its call of OnPending the object of an unconfirmed
      record says Pending; this is the heap without that write. */
  ghost function Settled(s: State): map<Ref, Tx> {
    if s.confirm.Retrying? && s.confirm.stage == 4 && HasHead(s) && Head(s).tx in s.heap
    then Mark(s.heap, Head(s).tx, Broadcasted)
    else s.heap
  }

  /** The records of id point at objects sent from acc. */
  ghost predicate IdHome(store: Store<Ref>, h: map<Ref, Tx>, acc: Addr, id: Id) {
    && (id in store.pending ==> store.pending[id] in h && h[store.pending[id]].from == acc)
    && (id in store.unconfirmed ==> store.unconfirmed[id].tx in h && h[store.unconfirmed[id].tx].from == acc)
    && (id in store.confirmed ==> store.confirmed[id].tx in h && h[store.confirmed[id].tx].from == acc)
    && (id in store.finished ==> store.finished[id].tx in h && h[store.finished[id].tx].from == acc)
  }

  ghost predicate Homed(store: Store<Ref>, h: map<Ref, Tx>, acc: Addr) {
    forall id :: IdHome(store, h, acc, id)
  }

  ghost predicate StoreOk(s: State, acc: Addr) {
    acc in s.stores ==> Valid(s.stores[acc], Settled(s)) && Homed(s.stores[acc], s.heap, acc)
  }

  ghost predicate StoresOk(s: State) {
    forall acc :: StoreOk(s, acc)
  }

  /** r is the object that the pending map of its account holds for its id. */
  ghost predicate IsPending(s: State, r: Ref) {
    && r in s.heap
    && s.heap[r].from in s.stores
    && s.heap[r].id in s.stores[s.heap[r].from].pending
    && s.stores[s.heap[r].from].pending[s.heap[r].id] == r
  }

  /** The object the confirm loop is about to send to the channel. */
  ghost function Carried(s: State): Option<Ref> {
    if s.confirm.Resending? || s.confirm.Requeueing? then Some(s.confirm.tx) else None
  }

  /** The objects in the channel, in the broadcaster's hand and on the confirm loop's way to the
      channel are pending and all different. */
  ghost predicate TokensOk(s: State) {
    && (forall i :: 0 <= i < |s.channel| ==> IsPending(s, s.channel[i]))
    && (forall i, j :: 0 <= i < j < |s.channel| ==> s.channel[i] != s.channel[j])
    && (s.hand.Some? ==> IsPending(s, s.hand.value) && s.hand.value !in s.channel)
    && (Carried(s).Some? ==>
          IsPending(s, Carried(s).value) && Carried(s).value !in s.channel && Carried(s) != s.hand)
  }

  ghost function Tokens(s: State): set<Ref> {
    (set i | 0 <= i < |s.channel| :: s.channel[i])
    + (if s.hand.Some? then {s.hand.value} else {})
    + (if Carried(s).Some? then {Carried(s).value} else {})
  }

  ghost predicate CallerOk(s: State, acc: Addr, id: Id) {
    (acc, id) in s.callers ==>
      && acc in s.stores
      && match s.callers[(acc, id)]
         case Checked => !s.stores[acc].Has(id)
         case Inserted(r) =>
           && IsPending(s, r) && s.heap[r].from == acc && s.heap[r].id == id
           && r !in Tokens(s)
  }

  ghost predicate CallersOk(s: State) {
    forall acc, id :: CallerOk(s, acc, id)
  }

  /** Which map the confirm loop's snapshot was taken of. */
  ghost function Reading(c: ConfirmPc): Kind {
    match c
    case Snapping(kind, _) => kind
    case Choosing(kind) => kind
    case Finalizing(_) => ForFinality
    case Probing(_, _) => ForFinality
    case Requeueing(_, _) => ForFinality
    case _ => ForReceipts
  }

  /** The store still holds the record e of a snapshot. */
  ghost predicate Current(s: State, kind: Kind, acc: Addr, e: Inflight<Ref>) {
    && e.tx in s.heap
    && acc in s.stores
    && s.heap[e.tx].id in Inflights(s.stores[acc], kind)
    && Inflights(s.stores[acc], kind)[s.heap[e.tx].id] == e
  }

  ghost predicate ListOk(s: State, kind: Kind, acc: Addr, q: seq<Inflight<Ref>>) {
    && (forall i :: 0 <= i < |q| ==> Current(s, kind, acc, q[i]))
    && (forall i, j :: 0 <= i < j < |q| ==> q[i].tx != q[j].tx)
  }

  ghost predicate TodoOk(s: State) {
    forall acc <- s.todo :: acc in s.stores && ListOk(s, Reading(s.confirm), acc, s.todo[acc])
  }

  ghost predicate PcOk(s: State) {
    match s.confirm
    case Idle => s.todo == map[]
    case Snapping(_, left) => left <= s.stores.Keys
    case Choosing(_) => true
    case Examining(acc, _) => acc in s.todo
    case Retrying(acc, _, stage, bump, slow) =>
      && HasHead(s) && stage <= 4 && !(bump && slow)
      && (stage == 4 ==> Head(s).tx in s.heap && s.heap[Head(s).tx].state == Pending)
    case Resending(acc, _, _) => acc in s.todo
    case Finalizing(acc) => acc in s.todo
    case Probing(acc, misses) => HasHead(s) && misses <= 1 + REORG_RETRY_COUNT
    case Requeueing(acc, _) => acc in s.todo
    case Crashed => false
  }

  /** The bounds on an object's counters; in the middle of a retry the increments to come are
      already accounted for. */
  ghost predicate CountersOk(s: State, r: Ref) {
    r in s.heap ==>
      var t := s.heap[r];
      if s.confirm.Retrying? && HasHead(s) && Head(s).tx == r then
        var stage := s.confirm.stage;
        && 1 <= t.attempt && t.attempt + (if stage == 0 then 1 else 0) <= MAX_RETRY_ATTEMPTS
        && t.outOfTime + (if stage <= 2 then 1 else 0) <= MAX_OUT_OF_TIME
        && t.bumps + (if stage == 1 && s.confirm.bump then 1 else 0)
           + t.outOfTime + (if 1 <= stage <= 2 && s.confirm.slow then 1 else 0)
           <= t.attempt - 1
      else
        1 <= t.attempt <= MAX_RETRY_ATTEMPTS && t.outOfTime <= MAX_OUT_OF_TIME && t.bumps + t.outOfTime <= t.attempt - 1
  }

  ghost predicate AllCountersOk(s: State) {
    forall r :: CountersOk(s, r)
  }

  /** id is finished in the store of acc, and was before the cutoff. */
  ghost predicate Due(s: State, acc: Addr, id: Id, cutoff: int) {
    acc in s.stores && id in s.stores[acc].finished && s.stores[acc].finished[id].retentionTs < cutoff
  }

  ghost predicate PlanOk(s: State) {
    && s.plan.Keys <= s.stores.Keys
    && match s.reap
    case Resting => s.plan == map[]
    case Collecting(cutoff, left) =>
      left <= s.stores.Keys && left !! s.plan.Keys && forall acc <- s.plan, id <- s.plan[acc] :: Due(s, acc, id, cutoff)
    case Deleting(cutoff) => forall acc <- s.plan, id <- s.plan[acc] :: Due(s, acc, id, cutoff)
  }

  ghost predicate Inv(s: State) {
    StoresOk(s) && TokensOk(s) && CallersOk(s) && TodoOk(s) && PcOk(s) && AllCountersOk(s) && PlanOk(s)
  }

  lemma InitInv(s: State)
    requires Init(s)
    ensures Inv(s)
  {}

  lemma InvTyped(s: State)
    requires Inv(s)
    ensures Typed(s)
  {
    forall acc <- s.stores, id ensures IdClosed(s.stores[acc], s.heap, id) {
      assert StoreOk(s, acc) && IdHome(s.stores[acc], s.heap, acc, id);
    }
    forall acc <- s.todo, i | 0 <= i < |s.todo[acc]| ensures s.todo[acc][i].tx in s.heap {
      assert Current(s, Reading(s.confirm), acc, s.todo[acc][i]);
    }
  }

  // ---------------------------------------------------------------- framing

  ghost predicate SameKey(s: State, s': State, acc: Addr, id: Id) {
    acc in s.stores ==> acc in s'.stores && SameId(s.stores[acc], s'.stores[acc], id)
  }

  ghost predicate SameObject(s: State, s': State, r: Ref) {
    r in s.heap ==> r in s'.heap && s'.heap[r].from == s.heap[r].from && s'.heap[r].id == s.heap[r].id
  }

  ghost predicate SameState(s: State, s': State, r: Ref) {
    r in s.heap ==> r in s'.heap && Settled(s')[r].state == Settled(s)[r].state
  }

  /** From s to s' only the records of id in the store of acc change. */
  ghost predicate Frame(s: State, s': State, acc: Addr, id: Id) {
    && (forall a <- s.stores :: a in s'.stores)
    && (forall a, i :: (a, i) != (acc, id) ==> SameKey(s, s', a, i))
    && (forall r :: SameObject(s, s', r))
  }

  lemma PendingFrame(s: State, s': State, acc: Addr, id: Id, r: Ref)
    requires Frame(s, s', acc, id) && IsPending(s, r) && (s.heap[r].from, s.heap[r].id) != (acc, id)
    ensures IsPending(s', r)
  {
    assert SameObject(s, s', r);
    assert SameKey(s, s', s.heap[r].from, s.heap[r].id);
  }

  lemma CurrentFrame(s: State, s': State, acc: Addr, id: Id, kind: Kind, a: Addr, e: Inflight<Ref>)
    requires Frame(s, s', acc, id) && Current(s, kind, a, e) && (a, s.heap[e.tx].id) != (acc, id)
    ensures Current(s', kind, a, e)
  {
    assert SameObject(s, s', e.tx);
    assert SameKey(s, s', a, s.heap[e.tx].id);
  }

  /** The stores stay consistent if one is replaced by a consistent one and at most one object of
      that account changes. */
  lemma StoresFrame(s: State, s': State, acc: Addr, store: Store<Ref>, x: Ref)
    requires StoresOk(s) && s'.stores == s.stores[acc := store]
    requires Valid(store, Settled(s')) && Homed(store, s'.heap, acc)
    requires forall r :: SameObject(s, s', r)
    requires forall r :: r != x ==> SameState(s, s', r)
    requires x in s.heap ==> s.heap[x].from == acc
    ensures StoresOk(s')
  {
    forall a ensures StoreOk(s', a) {
      if a in s'.stores && a != acc {
        assert StoreOk(s, a);
        var st := s.stores[a];
        forall id ensures IdHome(st, s'.heap, a, id) { assert IdHome(st, s.heap, a, id); SameHome(s, s', st, a, id); }
        assert SameRecords(st, Settled(s), Settled(s')) by { SameRecordsElsewhere(s, s', st, a, acc, x); }
        ValidFrame(st, Settled(s), Settled(s'));
      }
    }
  }

  lemma SameHome(s: State, s': State, st: Store<Ref>, a: Addr, id: Id)
    requires IdHome(st, s.heap, a, id) && forall r :: SameObject(s, s', r)
    ensures IdHome(st, s'.heap, a, id)
  {
    if id in st.pending { assert SameObject(s, s', st.pending[id]); }
    if id in st.unconfirmed { assert SameObject(s, s', st.unconfirmed[id].tx); }
    if id in st.confirmed { assert SameObject(s, s', st.confirmed[id].tx); }
    if id in st.finished { assert SameObject(s, s', st.finished[id].tx); }
  }

  lemma SameRecordsElsewhere(s: State, s': State, st: Store<Ref>, a: Addr, acc: Addr, x: Ref)
    requires Homed(st, s.heap, a) && a != acc
    requires forall r :: SameObject(s, s', r)
    requires forall r :: r != x ==> SameState(s, s', r)
    requires x in s.heap ==> s.heap[x].from == acc
    ensures SameRecords(st, Settled(s), Settled(s'))
  {
    forall r <- s.heap | r != x ensures Kept(Settled(s), Settled(s'), r) {
      assert SameObject(s, s', r) && SameState(s, s', r);
    }
    forall id <- st.pending ensures Kept(Settled(s), Settled(s'), st.pending[id]) { assert IdHome(st, s.heap, a, id); }
    forall id <- st.unconfirmed ensures Kept(Settled(s), Settled(s'), st.unconfirmed[id].tx) {
      assert IdHome(st, s.heap, a, id);
    }
    forall id <- st.confirmed ensures Kept(Settled(s), Settled(s'), st.confirmed[id].tx) {
      assert IdHome(st, s.heap, a, id);
    }
    forall id <- st.finished ensures Kept(Settled(s), Settled(s'), st.finished[id].tx) {
      assert IdHome(st, s.heap, a, id);
    }
  }

  lemma AllPendingFrame(s: State, s': State, acc: Addr, id: Id)
    requires Frame(s, s', acc, id)
    ensures forall r :: IsPending(s, r) && (s.heap[r].from, s.heap[r].id) != (acc, id) ==> IsPending(s', r)
  {
    forall r | IsPending(s, r) && (s.heap[r].from, s.heap[r].id) != (acc, id) ensures IsPending(s', r) {
      PendingFrame(s, s', acc, id, r);
    }
  }

  /** A caller is not disturbed by what happens to another id. */
  lemma CallersFrame(s: State, s': State, acc: Addr, id: Id, x: Ref)
    requires Frame(s, s', acc, id) && CallersOk(s)
    requires forall a, i :: (a, i) != (acc, id) && (a, i) in s'.callers ==>
               (a, i) in s.callers && s'.callers[(a, i)] == s.callers[(a, i)]
    requires Tokens(s') <= Tokens(s) + {x}
    requires x in s'.heap && s'.heap[x].from == acc && s'.heap[x].id == id
    requires CallerOk(s', acc, id)
    ensures CallersOk(s')
  {
    forall a, i ensures CallerOk(s', a, i) {
      assert CallerOk(s, a, i);
      if (a, i) in s'.callers && (a, i) != (acc, id) {
        assert SameKey(s, s', a, i);
        if s.callers[(a, i)].Inserted? {
          var r := s.callers[(a, i)].tx;
          assert SameObject(s, s', r);
          PendingFrame(s, s', acc, id, r);
        }
      }
    }
  }

  /** q is a list of the confirm loop that does not mention id of acc. */
  lemma ListFrame(s: State, s': State, acc: Addr, id: Id, kind: Kind, a: Addr, q: seq<Inflight<Ref>>)
    requires Frame(s, s', acc, id) && ListOk(s, kind, a, q)
    requires forall i :: 0 <= i < |q| ==> q[i].tx in s.heap && (a, s.heap[q[i].tx].id) != (acc, id)
    ensures ListOk(s', kind, a, q)
  {
    forall i | 0 <= i < |q| ensures Current(s', kind, a, q[i]) { CurrentFrame(s, s', acc, id, kind, a, q[i]); }
  }

  /** A call on an id that the confirm loop does not have on its lists. */
  lemma TodoFrame(s: State, s': State, acc: Addr, id: Id)
    requires Frame(s, s', acc, id) && TodoOk(s) && s'.todo == s.todo && s'.confirm == s.confirm
    requires acc in s.stores ==> id !in Inflights(s.stores[acc], Reading(s.confirm))
    ensures TodoOk(s')
  {
    forall a <- s'.todo ensures a in s'.stores && ListOk(s', Reading(s'.confirm), a, s'.todo[a]) {
      var q := s.todo[a];
      forall i | 0 <= i < |q| ensures q[i].tx in s.heap && (a, s.heap[q[i].tx].id) != (acc, id) {
        assert Current(s, Reading(s.confirm), a, q[i]);
      }
      ListFrame(s, s', acc, id, Reading(s.confirm), a, q);
    }
  }

  /** A call on the record at the head of the confirm loop's list, which is taken off. */
  lemma PoppedTodoFrame(s: State, s': State)
    requires HasHead(s) && TodoOk(s) && s'.todo == Pop(s) && Head(s).tx in s.heap
    requires Frame(s, s', s.confirm.acc, s.heap[Head(s).tx].id)
    requires Reading(s'.confirm) == Reading(s.confirm)
    ensures TodoOk(s')
  {
    var acc, id, kind := s.confirm.acc, s.heap[Head(s).tx].id, Reading(s.confirm);
    forall a <- s'.todo ensures a in s'.stores && ListOk(s', kind, a, s'.todo[a]) {
      var q := s.todo[a];
      assert ListOk(s, kind, a, q) && a in s.stores;
      assert ListOk(s, kind, a, s'.todo[a]);
      forall i | 0 <= i < |s'.todo[a]|
        ensures s'.todo[a][i].tx in s.heap && (a, s.heap[s'.todo[a][i].tx].id) != (acc, id)
      {
        assert Current(s, kind, a, s'.todo[a][i]);
        if a == acc { assert s'.todo[a][i] == q[i + 1] && Current(s, kind, a, q[0]); }
      }
      ListFrame(s, s', acc, id, kind, a, s'.todo[a]);
    }
  }

  /** A call on an id that is not finished does not disturb the reaper. */
  lemma PlanFrame(s: State, s': State, acc: Addr, id: Id)
    requires Frame(s, s', acc, id) && PlanOk(s) && s'.reap == s.reap && s'.plan == s.plan
    requires acc in s.stores ==> id !in s.stores[acc].finished
    ensures PlanOk(s')
  {
    forall a, i, cutoff ensures Due(s, a, i, cutoff) ==> Due(s', a, i, cutoff) {
      assert (a, i) == (acc, id) || SameKey(s, s', a, i);
    }
  }
}
