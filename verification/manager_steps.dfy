/** Each step of the transaction manager keeps the invariant. */
module ManagerSteps {

  import opened Options
  import opened TxStoreSpec
  import opened Manager
  import opened ManagerInvariant

  lemma StepKeepsInv(s: State, l: Label)
    requires Inv(s) && Enabled(s, l)
    ensures Typed(s) && Inv(Next(s, l))
  {
    InvTyped(s);
    if OfConfirm(l) { ConfirmStepKeepsInv(s, l); }
    else if OfReap(l) { ReapStepKeepsInv(s, l); }
    else { OtherStepKeepsInv(s, l); }
  }

  /** The steps of the confirm goroutine. */
  predicate OfConfirm(l: Label) {
    || l.StartPass? || l.Snap? || l.EndSnap? || l.Choose? || l.Skip? || l.Leave? || l.EndPass?
    || l.Examine? || l.RetryStep? || l.Resend? || l.AskSolidity? || l.AskFull? || l.Reorganize? || l.Requeue?
  }

  /** The steps of the reap goroutine. */
  predicate OfReap(l: Label) {
    l.StartReap? || l.Collect? || l.EndCollect? || l.Delete? || l.EndReap?
  }

  lemma OtherStepKeepsInv(s: State, l: Label)
    requires Inv(s) && Enabled(s, l) && Typed(s) && !OfConfirm(l) && !OfReap(l)
    ensures Inv(Next(s, l))
  {
    if l.Tick? { TickKeepsInv(s, l.elapsed); }
    else if l.OpenStore? { OpenStoreKeepsInv(s, l.acc); }
    else if l.Begin? { BeginKeepsInv(s, l.acc, l.id); }
    else if l.Insert? { InsertKeepsInv(s, l.acc, l.id, l.tx); }
    else if l.Send? { SendKeepsInv(s, l); }
    else if l.Receive? { ReceiveKeepsInv(s); }
    else if l.GiveUp? { GiveUpKeepsInv(s); }
    else if l.Reject? { RejectKeepsInv(s); }
    else { PublishKeepsInv(s, l.hash, l.expirationMs); }
  }

  lemma ConfirmStepKeepsInv(s: State, l: Label)
    requires Inv(s) && Enabled(s, l) && Typed(s) && OfConfirm(l)
    ensures Inv(Next(s, l))
  {
    if l.Snap? { SnapKeepsInv(s, l.acc, l.ids); }
    else if l.Examine? { ExamineKeepsInv(s, l.answer); }
    else if l.RetryStep? { RetryStepKeepsInv(s); }
    else if l.Resend? || l.Requeue? { ResendKeepsInv(s, l); }
    else if l.AskSolidity? || l.AskFull? { AskKeepsInv(s, l); }
    else if l.Reorganize? { ReorganizeKeepsInv(s); }
    else { ConfirmControlKeepsInv(s, l); }
  }

  lemma ReapStepKeepsInv(s: State, l: Label)
    requires Inv(s) && Enabled(s, l) && Typed(s) && OfReap(l)
    ensures Inv(Next(s, l))
  {
    if l.Delete? { DeleteKeepsInv(s, l.acc); }
    else if l.Collect? { CollectKeepsInv(s, l.acc, l.ids); }
    else { ReapControlKeepsInv(s, l); }
  }

  // ---------------------------------------------------------------- steps that call no store

  lemma QuietStores(s: State, s': State)
    requires StoresOk(s) && s'.stores == s.stores && s'.heap == s.heap && Settled(s') == Settled(s)
    ensures StoresOk(s')
  {
    forall a ensures StoreOk(s', a) { assert StoreOk(s, a); }
  }

  lemma KeepPlan(s: State, s': State)
    requires PlanOk(s) && s'.stores == s.stores && s'.reap == s.reap && s'.plan == s.plan
    ensures PlanOk(s')
  {
    forall acc, id, cutoff ensures Due(s', acc, id, cutoff) == Due(s, acc, id, cutoff) {}
  }

  lemma QuietTokens(s: State, s': State)
    requires TokensOk(s) && CallersOk(s)
    requires s'.stores == s.stores && s'.heap == s.heap && s'.callers == s.callers
    requires s'.channel == s.channel && s'.hand == s.hand && Carried(s') == Carried(s)
    ensures TokensOk(s') && CallersOk(s')
  {
    forall acc, id ensures CallerOk(s', acc, id) { assert CallerOk(s, acc, id); }
  }

  /** Outside a retry the bounds speak of the counters alone. */
  lemma QuietCounters(s: State, s': State)
    requires AllCountersOk(s) && s'.heap == s.heap && !s.confirm.Retrying? && !s'.confirm.Retrying?
    ensures AllCountersOk(s')
  {
    forall r ensures CountersOk(s', r) { assert CountersOk(s, r); }
  }

  lemma TickKeepsInv(s: State, elapsed: nat)
    requires Inv(s)
    ensures Inv(s.(now := s.now + elapsed))
  {
    var s' := s.(now := s.now + elapsed);
    QuietStores(s, s');
    QuietTokens(s, s');
    forall r ensures CountersOk(s', r) { assert CountersOk(s, r); }
    QuietTodo(s, s');
    KeepPlan(s, s');
  }

  predicate ConfirmControl(l: Label) {
    l.StartPass? || l.EndSnap? || l.Choose? || l.Skip? || l.Leave? || l.EndPass?
  }

  lemma ConfirmControlEffect(s: State, l: Label)
    requires PcOk(s) && Enabled(s, l) && Typed(s) && ConfirmControl(l)
    ensures var s' := Next(s, l);
            && s' == s.(confirm := s'.confirm, todo := s'.todo)
            && s'.todo.Keys <= s.todo.Keys && (forall acc <- s'.todo :: s'.todo[acc] == s.todo[acc])
            && (s'.todo != map[] ==> Reading(s'.confirm) == Reading(s.confirm))
            && PcOk(s') && Carried(s') == Carried(s) == None && !s.confirm.Retrying? && !s'.confirm.Retrying?
  {}

  lemma ConfirmControlKeepsInv(s: State, l: Label)
    requires Inv(s) && Enabled(s, l) && Typed(s) && ConfirmControl(l)
    ensures Inv(Next(s, l))
  {
    ConfirmControlEffect(s, l);
    QuietConfirm(s, Next(s, l));
  }

  lemma QuietConfirm(s: State, s': State)
    requires Inv(s) && s' == s.(confirm := s'.confirm, todo := s'.todo)
    requires s'.todo.Keys <= s.todo.Keys && forall acc <- s'.todo :: s'.todo[acc] == s.todo[acc]
    requires s'.todo != map[] ==> Reading(s'.confirm) == Reading(s.confirm)
    requires PcOk(s') && Carried(s') == Carried(s) && !s.confirm.Retrying? && !s'.confirm.Retrying?
    ensures Inv(s')
  {
    QuietStores(s, s');
    QuietTokens(s, s');
    QuietCounters(s, s');
    QuietTodo(s, s');
    KeepPlan(s, s');
  }

  lemma ReapControlKeepsInv(s: State, l: Label)
    requires Inv(s) && Enabled(s, l) && Typed(s)
    requires l.StartReap? || l.EndCollect? || l.EndReap?
    ensures Inv(Next(s, l))
  {
    var s' := Next(s, l);
    QuietRest(s, s');
    ReapControlKeepsPlan(s, s', l);
  }

  /** All but the reaper's part, when a step changes only that. */
  lemma QuietRest(s: State, s': State)
    requires Inv(s) && s' == s.(reap := s'.reap, plan := s'.plan)
    ensures StoresOk(s') && TokensOk(s') && CallersOk(s') && TodoOk(s') && PcOk(s') && AllCountersOk(s')
  {
    QuietStores(s, s');
    QuietTokens(s, s');
    forall r ensures CountersOk(s', r) { assert CountersOk(s, r); }
    QuietTodo(s, s');
  }

  lemma ReapControlKeepsPlan(s: State, s': State, l: Label)
    requires PlanOk(s) && Enabled(s, l) && Typed(s) && s' == Next(s, l) && (l.StartReap? || l.EndCollect? || l.EndReap?)
    ensures PlanOk(s')
  {
    forall acc, id, cutoff ensures Due(s', acc, id, cutoff) == Due(s, acc, id, cutoff) {}
  }

  /** The work lists stay good when lists are dropped and the stores do not change. */
  lemma QuietTodo(s: State, s': State)
    requires TodoOk(s) && s'.stores == s.stores && s'.heap == s.heap
    requires s'.todo.Keys <= s.todo.Keys && forall acc <- s'.todo :: s'.todo[acc] == s.todo[acc]
    requires s'.todo != map[] ==> Reading(s'.confirm) == Reading(s.confirm)
    ensures TodoOk(s')
  {
    forall acc <- s'.todo ensures acc in s'.stores && ListOk(s', Reading(s'.confirm), acc, s'.todo[acc]) {
      SameList(s, s', Reading(s.confirm), acc, s.todo[acc]);
    }
  }

  lemma SameList(s: State, s': State, kind: Kind, acc: Addr, q: seq<Inflight<Ref>>)
    requires ListOk(s, kind, acc, q) && s'.stores == s.stores && s'.heap == s.heap
    ensures ListOk(s', kind, acc, q)
  {
    forall i | 0 <= i < |q| ensures Current(s', kind, acc, q[i]) { assert Current(s, kind, acc, q[i]); }
  }

  lemma BeginKeepsInv(s: State, acc: Addr, id: Id)
    requires Inv(s) && Enabled(s, Begin(acc, id)) && Typed(s)
    ensures Inv(Next(s, Begin(acc, id)))
  {
    var s' := Next(s, Begin(acc, id));
    QuietStores(s, s');
    forall a, i ensures CallerOk(s', a, i) { assert CallerOk(s, a, i); }
    forall r ensures CountersOk(s', r) { assert CountersOk(s, r); }
    QuietTodo(s, s');
    KeepPlan(s, s');
  }

  lemma SendEffect(s: State, l: Label)
    requires Enabled(s, l) && Typed(s) && l.Send?
    ensures Next(s, l) == s.(channel := Push(s, s.callers[(l.acc, l.id)].tx, l.sent),
                             callers := s.callers - {(l.acc, l.id)})
  {}

  lemma SentTokens(s: State, s': State, key: (Addr, Id), x: Ref, sent: bool)
    requires TokensOk(s) && CallersOk(s) && key in s.callers && s.callers[key] == Inserted(x)
    requires s' == s.(channel := Push(s, x, sent), callers := s.callers - {key})
    ensures TokensOk(s') && CallersOk(s')
  {
    assert CallerOk(s, key.0, key.1);
    forall a, i ensures CallerOk(s', a, i) { assert CallerOk(s, a, i); }
  }

  lemma SendKeepsInv(s: State, l: Label)
    requires Inv(s) && Enabled(s, l) && Typed(s) && l.Send?
    ensures Inv(Next(s, l))
  {
    var s' := Next(s, l);
    SendEffect(s, l);
    QuietStores(s, s');
    SentTokens(s, s', (l.acc, l.id), s.callers[(l.acc, l.id)].tx, l.sent);
    forall x ensures CountersOk(s', x) { assert CountersOk(s, x); }
    QuietTodo(s, s');
    KeepPlan(s, s');
  }

  lemma ReceiveKeepsInv(s: State)
    requires Inv(s) && Enabled(s, Receive) && Typed(s)
    ensures Inv(Next(s, Receive))
  {
    var s' := Next(s, Receive);
    QuietStores(s, s');
    forall a, i ensures CallerOk(s', a, i) { assert CallerOk(s, a, i); }
    forall x ensures CountersOk(s', x) { assert CountersOk(s, x); }
    QuietTodo(s, s');
    KeepPlan(s, s');
  }

  lemma GiveUpKeepsInv(s: State)
    requires Inv(s) && Enabled(s, GiveUp) && Typed(s)
    ensures Inv(s.(hand := None))
  {
    var s' := s.(hand := None);
    QuietStores(s, s');
    forall a, i ensures CallerOk(s', a, i) { assert CallerOk(s, a, i); }
    forall x ensures CountersOk(s', x) { assert CountersOk(s, x); }
    QuietTodo(s, s');
    KeepPlan(s, s');
  }

  lemma ResendEffect(s: State, l: Label)
    requires Enabled(s, l) && Typed(s) && (l.Resend? || l.Requeue?)
    ensures var c := s.confirm;
            Next(s, l) == s.(confirm := if l.Resend? then Examining(c.acc, c.ts) else Finalizing(c.acc),
                             channel := Push(s, c.tx, l.sent))
  {}

  lemma ResendKeepsInv(s: State, l: Label)
    requires Inv(s) && Enabled(s, l) && Typed(s) && (l.Resend? || l.Requeue?)
    ensures Inv(Next(s, l))
  {
    ResendEffect(s, l);
    ResentKeepsInv(s, Next(s, l), l.sent);
  }

  lemma ResentKeepsInv(s: State, s': State, sent: bool)
    requires Inv(s) && (s.confirm.Resending? || s.confirm.Requeueing?)
    requires var c := s.confirm;
             s' == s.(confirm := if c.Resending? then Examining(c.acc, c.ts) else Finalizing(c.acc),
                      channel := Push(s, c.tx, sent))
    ensures Inv(s')
  {
    QuietStores(s, s');
    forall a, i ensures CallerOk(s', a, i) { assert CallerOk(s, a, i); }
    forall x ensures CountersOk(s', x) { assert CountersOk(s, x); }
    QuietTodo(s, s');
    KeepPlan(s, s');
  }

  lemma SnapKeepsInv(s: State, acc: Addr, ids: seq<Id>)
    requires Inv(s) && Enabled(s, Snap(acc, ids)) && Typed(s)
    ensures Inv(Next(s, Snap(acc, ids)))
  {
    var s' := Next(s, Snap(acc, ids));
    QuietStores(s, s');
    forall a, i ensures CallerOk(s', a, i) { assert CallerOk(s, a, i); }
    forall x ensures CountersOk(s', x) { assert CountersOk(s, x); }
    KeepPlan(s, s');
    forall a <- s'.todo ensures a in s'.stores && ListOk(s', Reading(s'.confirm), a, s'.todo[a]) {
      if a == acc { SnapshotIsCurrent(s', s.confirm.kind, acc, ids); }
      else { SameList(s, s', Reading(s.confirm), a, s.todo[a]); }
    }
  }

  /** A snapshot just taken lists records the store holds, each once. */
  lemma SnapshotIsCurrent(s: State, kind: Kind, acc: Addr, ids: seq<Id>)
    requires StoresOk(s) && Settled(s) == s.heap && acc in s.stores && Enumerates(ids, Inflights(s.stores[acc], kind))
    ensures ListOk(s, kind, acc, Records(ids, Inflights(s.stores[acc], kind)))
  {
    var m := Inflights(s.stores[acc], kind);
    var q := Records(ids, m);
    assert StoreOk(s, acc);
    forall i | 0 <= i < |q| ensures Current(s, kind, acc, q[i]) && s.heap[q[i].tx].id == ids[i] {
      assert IdOk(s.stores[acc], s.heap, ids[i]);
    }
  }

  lemma CollectKeepsInv(s: State, acc: Addr, ids: seq<Id>)
    requires Inv(s) && Enabled(s, Collect(acc, ids)) && Typed(s)
    ensures Inv(Next(s, Collect(acc, ids)))
  {
    var s' := Next(s, Collect(acc, ids));
    QuietRest(s, s');
    CollectKeepsPlan(s, s', acc, ids);
  }

  lemma CollectKeepsPlan(s: State, s': State, acc: Addr, ids: seq<Id>)
    requires PlanOk(s) && Enabled(s, Collect(acc, ids)) && Typed(s) && s' == Next(s, Collect(acc, ids))
    ensures PlanOk(s')
  {
    var ids' := Expired(ids, s.stores[acc].finished, s.reap.cutoff);
    forall a <- s'.plan, id <- s'.plan[a] ensures Due(s', a, id, s.reap.cutoff) {
      if a == acc && ids' != [] { assert id in ids'; } else { assert Due(s, a, id, s.reap.cutoff); }
    }
  }

  lemma OpenStoreKeepsInv(s: State, acc: Addr)
    requires Inv(s) && Typed(s)
    ensures Inv(Next(s, OpenStore(acc)))
  {
    var s' := Next(s, OpenStore(acc));
    forall a ensures StoreOk(s', a) {
      assert StoreOk(s, a);
      if a == acc && acc !in s.stores { EmptyIsValid(s', acc); }
    }
    forall x ensures CountersOk(s', x) { assert CountersOk(s, x); }
    OpenedTokens(s, s', acc);
    OpenedTodo(s, s', acc);
  }

  lemma OpenedTokens(s: State, s': State, acc: Addr)
    requires TokensOk(s) && CallersOk(s) && s' == s.(stores := s.stores[acc := StoreOf(s, acc)])
    ensures TokensOk(s') && CallersOk(s')
  {
    forall r ensures IsPending(s, r) ==> IsPending(s', r) {}
    forall a, i ensures CallerOk(s', a, i) { assert CallerOk(s, a, i); }
  }

  lemma OpenedTodo(s: State, s': State, acc: Addr)
    requires TodoOk(s) && PcOk(s) && PlanOk(s) && s' == s.(stores := s.stores[acc := StoreOf(s, acc)])
    ensures TodoOk(s') && PcOk(s') && PlanOk(s')
  {
    forall a <- s'.todo ensures a in s'.stores && ListOk(s', Reading(s'.confirm), a, s'.todo[a]) {
      var q := s.todo[a];
      forall i | 0 <= i < |q| ensures Current(s', Reading(s.confirm), a, q[i]) {
        assert Current(s, Reading(s.confirm), a, q[i]);
      }
    }
    forall a, id, cutoff ensures Due(s, a, id, cutoff) ==> Due(s', a, id, cutoff) {}
  }

  lemma EmptyIsValid(s: State, acc: Addr)
    ensures Valid(NewStore(), Settled(s)) && Homed(NewStore(), s.heap, acc)
  {}

  // ---------------------------------------------------------------- steps that call a store

  /** A key is in one phase: it is pending, or the confirm loop may have it on a list, or the
      reaper may have it in its plan. */
  lemma PhasesExclude(s: State, acc: Addr, id: Id)
    requires StoresOk(s) && acc in s.stores
    ensures IdOk(s.stores[acc], Settled(s), id)
    ensures IdHome(s.stores[acc], s.heap, acc, id)
  {
    assert StoreOk(s, acc);
  }

  lemma InsertEffect(s: State, acc: Addr, id: Id, tx: Ref)
    requires Enabled(s, Insert(acc, id, tx)) && Typed(s) && acc in s.stores && !s.stores[acc].Has(id)
    ensures CallOf(s, Insert(acc, id, tx)).value.result.out == Done
    ensures Next(s, Insert(acc, id, tx))
            == s.(stores := s.stores[acc := s.stores[acc].(pending := s.stores[acc].pending[id := tx])],
                  heap := s.heap[tx := Tx(acc, id, 1, 0, 0, Pending)],
                  callers := s.callers[(acc, id) := Inserted(tx)])
  {}

  lemma InsertKeepsInv(s: State, acc: Addr, id: Id, tx: Ref)
    requires Inv(s) && Enabled(s, Insert(acc, id, tx)) && Typed(s)
    ensures CallOf(s, Insert(acc, id, tx)).value.result.out == Done
    ensures Inv(Next(s, Insert(acc, id, tx)))
  {
    var s' := Next(s, Insert(acc, id, tx));
    assert CallerOk(s, acc, id);
    InsertEffect(s, acc, id, tx);
    if HasHead(s) { HeadIsCurrent(s); }
    InsertStores(s, s', acc, id, tx);
    InsertRest(s, s', acc, id, tx);
  }

  lemma InsertRest(s: State, s': State, acc: Addr, id: Id, tx: Ref)
    requires TokensOk(s) && CallersOk(s) && TodoOk(s) && PcOk(s) && AllCountersOk(s) && PlanOk(s)
    requires acc in s.stores && !s.stores[acc].Has(id) && tx !in s.heap && Typed(s)
    requires s' == s.(stores := s.stores[acc := s.stores[acc].(pending := s.stores[acc].pending[id := tx])],
                      heap := s.heap[tx := Tx(acc, id, 1, 0, 0, Pending)],
                      callers := s.callers[(acc, id) := Inserted(tx)])
    ensures TokensOk(s') && CallersOk(s') && TodoOk(s') && PcOk(s') && AllCountersOk(s') && PlanOk(s')
  {
    assert Frame(s, s', acc, id);
    InsertTokens(s, s', acc, id, tx);
    CallersFrame(s, s', acc, id, tx);
    InsertCounters(s, s', tx);
    TodoFrame(s, s', acc, id);
    PlanFrame(s, s', acc, id);
  }

  lemma InsertCounters(s: State, s': State, tx: Ref)
    requires AllCountersOk(s) && PcOk(s) && tx !in s.heap && tx in s'.heap && s'.heap == s.heap[tx := s'.heap[tx]]
    requires s'.heap[tx].attempt == 1 && s'.heap[tx].outOfTime == s'.heap[tx].bumps == 0
    requires s'.confirm == s.confirm && s'.todo == s.todo && Typed(s) && s.stores.Keys <= s'.stores.Keys
    ensures AllCountersOk(s') && PcOk(s')
  {
    forall x ensures CountersOk(s', x) { assert CountersOk(s, x); }
  }

  lemma InsertTokens(s: State, s': State, acc: Addr, id: Id, tx: Ref)
    requires TokensOk(s) && Frame(s, s', acc, id) && acc in s.stores && id !in s.stores[acc].pending && tx !in s.heap
    requires s'.channel == s.channel && s'.hand == s.hand && s'.confirm == s.confirm
    requires s'.callers == s.callers[(acc, id) := Inserted(tx)]
    requires tx in s'.heap && s'.heap[tx].from == acc && s'.heap[tx].id == id && IsPending(s', tx)
    ensures TokensOk(s') && CallerOk(s', acc, id)
  {
    AllPendingFrame(s, s', acc, id);
  }

  lemma InsertStores(s: State, s': State, acc: Addr, id: Id, tx: Ref)
    requires StoresOk(s) && acc in s.stores && !s.stores[acc].Has(id) && tx !in s.heap
    requires HasHead(s) ==> Head(s).tx in s.heap
    requires s'.heap == s.heap[tx := Tx(acc, id, 1, 0, 0, Pending)]
    requires s'.stores == s.stores[acc := s.stores[acc].(pending := s.stores[acc].pending[id := tx])]
    requires s'.confirm == s.confirm && s'.todo == s.todo
    ensures StoresOk(s')
  {
    var store := s.stores[acc];
    var t := Tx(acc, id, 1, 0, 0, Pending);
    var h' := Settled(s)[tx := t];
    assert Settled(s') == h';
    assert StoreOk(s, acc);
    forall i ensures IdHome(s'.stores[acc], s'.heap, acc, i) { assert IdHome(store, s.heap, acc, i); }
    assert SameRecords(store, Settled(s), h') by {
      forall i ensures IdOk(store, Settled(s), i) {}
      StoreAgrees(store, Settled(s), h');
    }
    ValidFrame(store, Settled(s), h');
    OnPendingKeepsValid(store, h', tx);
    StoresFrame(s, s', acc, s'.stores[acc], tx);
  }

  lemma StoreAgrees(store: Store<Ref>, h: map<Ref, Tx>, h': map<Ref, Tx>)
    requires Valid(store, h) && forall r <- h :: Kept(h, h', r)
    ensures SameRecords(store, h, h')
  {
    forall id <- store.pending ensures Kept(h, h', store.pending[id]) { assert IdOk(store, h, id); }
    forall id <- store.unconfirmed ensures Kept(h, h', store.unconfirmed[id].tx) { assert IdOk(store, h, id); }
    forall id <- store.confirmed ensures Kept(h, h', store.confirmed[id].tx) { assert IdOk(store, h, id); }
    forall id <- store.finished ensures Kept(h, h', store.finished[id].tx) { assert IdOk(store, h, id); }
  }

  // -------- the broadcaster

  /** The broadcaster's OnFatalError finds a pending id, is refused, and changes nothing. */
  lemma RejectKeepsInv(s: State)
    requires Inv(s) && Enabled(s, Reject) && Typed(s)
    ensures CallOf(s, Reject).value.result.out == Refused
    ensures Next(s, Reject) == s.(hand := None)
    ensures Inv(Next(s, Reject))
  {
    var t := s.heap[s.hand.value];
    PhasesExclude(s, t.from, t.id);
    assert s.stores[t.from := s.stores[t.from]] == s.stores;
    GiveUpKeepsInv(s);
  }

  lemma PublishEffect(s: State, hash: Hash, exp: int)
    requires Enabled(s, Publish(hash, exp)) && Typed(s) && s.heap[s.hand.value].from in s.stores
    ensures var r := OnBroadcasted(s.stores[s.heap[s.hand.value].from], s.heap, hash, exp, s.hand.value);
            && CallOf(s, Publish(hash, exp)).value.result == r
            && Next(s, Publish(hash, exp))
               == s.(stores := s.stores[s.heap[s.hand.value].from := r.store], heap := r.heap, hand := None)
  {}

  lemma PublishKeepsInv(s: State, hash: Hash, exp: int)
    requires Inv(s) && Enabled(s, Publish(hash, exp)) && Typed(s)
    ensures CallOf(s, Publish(hash, exp)).value.result.out != Panicked
    ensures Inv(Next(s, Publish(hash, exp)))
  {
    var tx := s.hand.value;
    var acc, id := s.heap[tx].from, s.heap[tx].id;
    PublishEffect(s, hash, exp);
    if hash in s.stores[acc].hashToId {
      assert s.stores[acc := s.stores[acc]] == s.stores;
      GiveUpKeepsInv(s);
    } else {
      PhasesExclude(s, acc, id);
      PublishStores(s, Next(s, Publish(hash, exp)), hash, exp);
      PublishRest(s, Next(s, Publish(hash, exp)), hash, exp);
    }
  }

  lemma PublishRest(s: State, s': State, hash: Hash, exp: int)
    requires StoresOk(s) && TokensOk(s) && CallersOk(s) && TodoOk(s) && PcOk(s) && AllCountersOk(s) && PlanOk(s)
    requires s.hand.Some? && s.hand.value in s.heap && s.heap[s.hand.value].from in s.stores
    requires var r := OnBroadcasted(s.stores[s.heap[s.hand.value].from], s.heap, hash, exp, s.hand.value);
             r.out == Done && s' == s.(stores := s.stores[s.heap[s.hand.value].from := r.store], heap := r.heap,
                                      hand := None)
    requires var id := s.heap[s.hand.value].id; var store := s.stores[s.heap[s.hand.value].from];
             id !in store.unconfirmed && id !in store.confirmed && id !in store.finished
    ensures TokensOk(s') && CallersOk(s') && TodoOk(s') && PcOk(s') && AllCountersOk(s') && PlanOk(s')
  {
    var tx := s.hand.value;
    var acc, id := s.heap[tx].from, s.heap[tx].id;
    assert Frame(s, s', acc, id);
    PublishTokens(s, s', acc, id);
    CallersFrame(s, s', acc, id, tx);
    if HasHead(s) { HeadIsCurrent(s); }
    PublishPc(s, s');
    TodoFrame(s, s', acc, id);
    PlanFrame(s, s', acc, id);
  }

  lemma PublishPc(s: State, s': State)
    requires PcOk(s) && AllCountersOk(s) && s.hand.Some? && s.hand.value in s.heap
    requires s' == s.(stores := s'.stores, heap := Mark(s.heap, s.hand.value, Broadcasted), hand := None)
    requires s.stores.Keys <= s'.stores.Keys && (HasHead(s) ==> Head(s).tx != s.hand.value)
    ensures PcOk(s') && AllCountersOk(s')
  {
    forall x ensures CountersOk(s', x) { assert CountersOk(s, x); }
  }

  lemma PublishTokens(s: State, s': State, acc: Addr, id: Id)
    requires TokensOk(s) && CallersOk(s) && s.hand.Some? && Frame(s, s', acc, id)
    requires s.heap[s.hand.value].from == acc && s.heap[s.hand.value].id == id
    requires s'.channel == s.channel && s'.hand == None && s'.confirm == s.confirm && s'.callers == s.callers
    ensures TokensOk(s') && CallerOk(s', acc, id) && Tokens(s') <= Tokens(s)
  {
    AllPendingFrame(s, s', acc, id);
    assert CallerOk(s, acc, id);
  }

  lemma PublishStores(s: State, s': State, hash: Hash, exp: int)
    requires StoresOk(s) && TodoOk(s) && PcOk(s)
    requires s.hand.Some? && IsPending(s, s.hand.value)
    requires var acc := s.heap[s.hand.value].from;
             && HashFresh(s.stores[acc], s.heap, hash) && hash !in s.stores[acc].hashToId
             && var r := OnBroadcasted(s.stores[acc], s.heap, hash, exp, s.hand.value);
                s' == s.(stores := s.stores[acc := r.store], heap := r.heap, hand := None)
    ensures StoresOk(s')
  {
    var tx := s.hand.value;
    var acc, id := s.heap[tx].from, s.heap[tx].id;
    var store := s.stores[acc];
    assert StoreOk(s, acc);
    assert HashFresh(store, Settled(s), hash) by {
      forall i <- store.finished ensures store.finished[i].tx in s.heap { assert IdHome(store, s.heap, acc, i); }
    }
    OnBroadcastedKeepsValid(store, Settled(s), hash, exp, tx);
    var r := OnBroadcasted(store, Settled(s), hash, exp, tx);
    assert s'.stores == s.stores[acc := r.store];
    assert Settled(s') == r.heap;
    forall i ensures IdHome(r.store, s'.heap, acc, i) { assert IdHome(store, s.heap, acc, i); }
    StoresFrame(s, s', acc, r.store, tx);
  }

  // -------- the confirm loop

  /** The confirm loop moves the record at the head of its list and takes it off. */
  lemma HeadMoves(s: State, s': State)
    requires Inv(s) && HasHead(s) && Head(s).tx in s.heap && Carried(s) == None
    requires s' == s.(stores := s'.stores, heap := s'.heap, confirm := s'.confirm, todo := Pop(s))
    requires StoresOk(s') && PcOk(s') && Reading(s'.confirm) == Reading(s.confirm)
    requires Frame(s, s', s.confirm.acc, s.heap[Head(s).tx].id)
    requires Carried(s').Some? ==> Carried(s').value == Head(s).tx && IsPending(s', Head(s).tx)
    requires !s'.confirm.Retrying? && forall r :: CountersOk(s', r)
    ensures Inv(s')
  {
    var acc, tx := s.confirm.acc, Head(s).tx;
    var id := s.heap[tx].id;
    HeadIsCurrent(s);
    PhasesExclude(s, acc, id);
    assert SameObject(s, s', tx);
    HeadMovesTokens(s, s', acc, id, tx);
    CallersFrame(s, s', acc, id, tx);
    PoppedTodoFrame(s, s');
    PlanFrame(s, s', acc, id);
  }

  lemma HeadIsCurrent(s: State)
    requires StoresOk(s) && TodoOk(s) && HasHead(s)
    ensures Head(s).tx in s.heap && Current(s, Reading(s.confirm), s.confirm.acc, Head(s))
    ensures s.heap[Head(s).tx].from == s.confirm.acc
  {
    assert Current(s, Reading(s.confirm), s.confirm.acc, s.todo[s.confirm.acc][0]);
    PhasesExclude(s, s.confirm.acc, s.heap[Head(s).tx].id);
  }

  lemma HeadMovesTokens(s: State, s': State, acc: Addr, id: Id, tx: Ref)
    requires TokensOk(s) && CallersOk(s) && Frame(s, s', acc, id) && Carried(s) == None
    requires acc in s.stores && id !in s.stores[acc].pending && s.stores[acc].Has(id)
    requires tx in s.heap && s.heap[tx].from == acc && s.heap[tx].id == id
    requires s'.channel == s.channel && s'.hand == s.hand && s'.callers == s.callers
    requires Carried(s').Some? ==> Carried(s').value == tx && IsPending(s', tx)
    ensures TokensOk(s') && CallerOk(s', acc, id) && Tokens(s') <= Tokens(s) + {tx}
  {
    AllPendingFrame(s, s', acc, id);
    assert CallerOk(s, acc, id);
  }

  /** The store call of a step on the record at the head: it is carried out, marks the object,
      and leaves the store consistent and every other id alone. */
  ghost predicate IsHeadCall(s: State, s': State, r: Result<Ref>, state: TxState)
    requires HasHead(s) && Head(s).tx in s.heap
  {
    var acc, tx := s.confirm.acc, Head(s).tx;
    && acc in s.stores
    && s' == s.(stores := s.stores[acc := r.store], heap := r.heap, confirm := s'.confirm, todo := Pop(s))
    && r.heap == Mark(s.heap, tx, state) && Valid(r.store, r.heap)
    && (forall i :: i != s.heap[tx].id ==> SameId(s.stores[acc], r.store, i))
    && IdHome(r.store, r.heap, acc, s.heap[tx].id)
    && (s.confirm.Retrying? ==> s.confirm.stage == 4) && !s'.confirm.Retrying?
    && Reading(s'.confirm) == Reading(s.confirm)
    && Carried(s) == None
    && (Carried(s').Some? ==> Carried(s').value == tx && IsPending(s', tx))
  }

  lemma HeadCallKeepsInv(s: State, s': State, r: Result<Ref>, state: TxState)
    requires Inv(s) && HasHead(s) && Head(s).tx in s.heap && IsHeadCall(s, s', r, state) && PcOk(s')
    ensures Inv(s')
  {
    HeadCallFrame(s, s', r, state);
    HeadCallStores(s, s', r, state);
    HeadCallCounters(s, s', r, state);
    HeadMoves(s, s');
  }

  lemma HeadCallFrame(s: State, s': State, r: Result<Ref>, state: TxState)
    requires HasHead(s) && Head(s).tx in s.heap && IsHeadCall(s, s', r, state)
    ensures Frame(s, s', s.confirm.acc, s.heap[Head(s).tx].id)
  {
    var acc, id := s.confirm.acc, s.heap[Head(s).tx].id;
    forall a, i | (a, i) != (acc, id) ensures SameKey(s, s', a, i) {
      if a == acc { assert SameId(s.stores[acc], r.store, i); }
    }
  }

  lemma HeadCallStores(s: State, s': State, r: Result<Ref>, state: TxState)
    requires StoresOk(s) && TodoOk(s) && PcOk(s)
    requires HasHead(s) && Head(s).tx in s.heap && IsHeadCall(s, s', r, state)
    ensures StoresOk(s')
  {
    var acc, tx := s.confirm.acc, Head(s).tx;
    HeadIsCurrent(s);
    assert StoreOk(s, acc);
    forall i ensures IdHome(r.store, s'.heap, acc, i) {
      assert IdHome(s.stores[acc], s.heap, acc, i);
      if i != s.heap[tx].id { assert SameId(s.stores[acc], r.store, i); }
    }
    StoresFrame(s, s', acc, r.store, tx);
  }

  lemma HeadCallCounters(s: State, s': State, r: Result<Ref>, state: TxState)
    requires AllCountersOk(s) && HasHead(s) && Head(s).tx in s.heap && IsHeadCall(s, s', r, state)
    ensures AllCountersOk(s')
  {
    forall x ensures CountersOk(s', x) { assert CountersOk(s, x); }
  }

  lemma ExamineKeepsInv(s: State, answer: Answer)
    requires Inv(s) && Enabled(s, Examine(answer)) && Typed(s)
    ensures CallOf(s, Examine(answer)).Some? ==> CallOf(s, Examine(answer)).value.result.out == Done
    ensures Inv(Next(s, Examine(answer)))
  {
    var s' := Next(s, Examine(answer));
    HeadIsCurrent(s);
    if CallOf(s, Examine(answer)).Some? {
      var r := CallOf(s, Examine(answer)).value.result;
      ExamineIsHeadCall(s, s', answer);
      HeadCallKeepsInv(s, s', r, r.heap[Head(s).tx].state);
    } else {
      ExamineWithoutCall(s, s', answer);
    }
  }

  lemma ExamineWithoutCall(s: State, s': State, answer: Answer)
    requires Inv(s) && Enabled(s, Examine(answer)) && Typed(s) && s' == Next(s, Examine(answer))
    requires CallOf(s, Examine(answer)) == None
    ensures Inv(s')
  {
    WaitOrRetryEffect(s, answer);
    WaitOrRetryKeepsInv(s, s');
  }

  /** The record is left for the next pass, or a retry of an object that may be retried begins. */
  lemma WaitOrRetryEffect(s: State, answer: Answer)
    requires Enabled(s, Examine(answer)) && Typed(s) && CallOf(s, Examine(answer)) == None
    ensures var s', c := Next(s, Examine(answer)), s.confirm;
            || s' == s.(todo := Pop(s))
            || (exists bump, slow ::
                  && s' == s.(confirm := Retrying(c.acc, c.ts, 0, bump, slow)) && !(bump && slow)
                  && !Exhausted(s.heap[Head(s).tx]))
  {
    var d := Decide(Head(s).expirationMs, s.confirm.ts, answer);
    if d.MaybeRetry? {
      assert Next(s, Examine(answer)) == s.(confirm := Retrying(s.confirm.acc, s.confirm.ts, 0, d.bump, d.slow));
    }
  }

  lemma WaitOrRetryKeepsInv(s: State, s': State)
    requires Inv(s) && HasHead(s) && s.confirm.Examining? && Head(s).tx in s.heap
    requires s' == s.(confirm := s'.confirm, todo := s'.todo)
    requires || (s'.confirm == s.confirm && s'.todo == Pop(s))
             || (s'.todo == s.todo && s'.confirm.Retrying? && s'.confirm.acc == s.confirm.acc && s'.confirm.stage == 0
                 && !(s'.confirm.bump && s'.confirm.slow) && !Exhausted(s.heap[Head(s).tx]))
    ensures Inv(s')
  {
    QuietStores(s, s');
    QuietTokens(s, s');
    KeepPlan(s, s');
    forall r ensures CountersOk(s', r) { assert CountersOk(s, r); }
    TailTodo(s, s');
  }

  lemma TailTodo(s: State, s': State)
    requires TodoOk(s) && s'.stores == s.stores && s'.heap == s.heap && HasHead(s)
             && (s'.todo == s.todo || s'.todo == Pop(s))
    requires Reading(s'.confirm) == Reading(s.confirm)
    ensures TodoOk(s')
  {
    forall a <- s'.todo ensures a in s'.stores && ListOk(s', Reading(s'.confirm), a, s'.todo[a]) {
      assert ListOk(s, Reading(s.confirm), a, s'.todo[a]);
      SameList(s, s', Reading(s.confirm), a, s'.todo[a]);
    }
  }

  /** The op that a step applies to the store and heap of the record at the head. */
  ghost predicate AppliesOp(s: State, s': State, h: map<Ref, Tx>, op: Op<Ref>)
    requires HasHead(s) && Head(s).tx in s.heap
  {
    var acc := s.confirm.acc;
    && acc in s.stores && Allowed(s.stores[acc], h, op) && !op.Reap? && !op.Enqueue?
    && OpId(h, op) == s.heap[Head(s).tx].id
    && s' == s.(stores := s.stores[acc := Apply(s.stores[acc], h, op).store], heap := Apply(s.stores[acc], h, op).heap,
                confirm := s'.confirm, todo := Pop(s))
  }

  lemma OpIsHeadCall(s: State, s': State, h: map<Ref, Tx>, op: Op<Ref>, state: TxState)
    requires HasHead(s) && Head(s).tx in s.heap && AppliesOp(s, s', h, op)
    requires Valid(s.stores[s.confirm.acc], h) && IdHome(s.stores[s.confirm.acc], s.heap, s.confirm.acc, OpId(h, op))
    requires s'.heap == Mark(s.heap, Head(s).tx, state)
    requires (s.confirm.Retrying? ==> s.confirm.stage == 4) && !s'.confirm.Retrying?
    requires Reading(s'.confirm) == Reading(s.confirm) && Carried(s) == None
    requires Carried(s').Some? ==> Carried(s').value == Head(s).tx && IsPending(s', Head(s).tx)
    ensures IsHeadCall(s, s', Apply(s.stores[s.confirm.acc], h, op), state)
  {
    var acc := s.confirm.acc;
    var store, r := s.stores[acc], Apply(s.stores[acc], h, op);
    ApplyKeepsValid(store, h, op);
    assert IdOk(store, h, OpId(h, op));
    forall i | i != OpId(h, op) ensures SameId(store, r.store, i) { CallTouchesOneId(store, h, op, i); }
    assert r.heap == s'.heap;
    OpKeepsHome(store, s.heap, h, op, acc, Head(s).tx, state);
  }

  lemma OpKeepsHome(store: Store<Ref>, h0: map<Ref, Tx>, h: map<Ref, Tx>, op: Op<Ref>, acc: Addr, x: Ref,
    state: TxState)
    requires !op.Reap? && !op.Enqueue? && Allowed(store, h, op) && IdOk(store, h, OpId(h, op))
    requires IdHome(store, h0, acc, OpId(h, op))
    requires x in h0 && Apply(store, h, op).heap == Mark(h0, x, state)
    ensures IdHome(Apply(store, h, op).store, Apply(store, h, op).heap, acc, OpId(h, op))
  {
    match op
    case Retry(_) =>
    case _ =>
  }

  lemma ExamineEffect(s: State, answer: Answer, op: Op<Ref>)
    requires Enabled(s, Examine(answer)) && Typed(s) && CallOf(s, Examine(answer)).Some?
    requires s.confirm.acc in s.stores
    requires op == ExamineOp(s, answer) && Allowed(s.stores[s.confirm.acc], s.heap, op)
    ensures var r := Apply(s.stores[s.confirm.acc], s.heap, op);
            && CallOf(s, Examine(answer)).value.result == r
            && Next(s, Examine(answer)) == s.(stores := s.stores[s.confirm.acc := r.store], heap := r.heap,
                                            todo := Pop(s))
  {}

  ghost function ExamineOp(s: State, answer: Answer): Op<Ref>
    requires Enabled(s, Examine(answer)) && Typed(s)
  {
    var id := s.heap[Head(s).tx].id;
    match Decide(Head(s).expirationMs, s.confirm.ts, answer)
    case Accept => Op<Ref>.Confirm(id)
    case Condemn => Op<Ref>.Fatal(id, s.now)
    case _ => Op<Ref>.Error(id, s.now)
  }

  /** An unconfirmed record is confirmed, errored or fatally errored. */
  lemma ExamineIsHeadCall(s: State, s': State, answer: Answer)
    requires StoresOk(s) && TodoOk(s) && Enabled(s, Examine(answer)) && Typed(s) && s' == Next(s, Examine(answer))
    requires CallOf(s, Examine(answer)).Some?
    ensures var r := CallOf(s, Examine(answer)).value.result;
            && r.out == Done && Head(s).tx in r.heap && Head(s).tx in s.heap
            && IsHeadCall(s, s', r, r.heap[Head(s).tx].state)
  {
    var acc, id := s.confirm.acc, s.heap[Head(s).tx].id;
    HeadIsCurrent(s);
    PhasesExclude(s, acc, id);
    assert StoreOk(s, acc);
    var op := ExamineOp(s, answer);
    ExamineEffect(s, answer, op);
    OpIsHeadCall(s, s', s.heap, op, s'.heap[Head(s).tx].state);
  }

  lemma AskKeepsInv(s: State, l: Label)
    requires Inv(s) && Enabled(s, l) && Typed(s) && (l.AskSolidity? || l.AskFull?)
    ensures CallOf(s, l).Some? ==> CallOf(s, l).value.result.out == Done
    ensures Inv(Next(s, l))
  {
    var s' := Next(s, l);
    if l.found {
      HeadIsCurrent(s);
      AskIsHeadCall(s, s', l);
      HeadCallKeepsInv(s, s', CallOf(s, l).value.result, Finalized);
    } else {
      QuietStores(s, s');
      QuietTokens(s, s');
      QuietCounters(s, s');
      KeepPlan(s, s');
      TailTodo(s, s');
    }
  }

  lemma AskEffect(s: State, l: Label)
    requires Enabled(s, l) && Typed(s) && (l.AskSolidity? || l.AskFull?) && l.found && s.confirm.acc in s.stores
    requires IdClosed(s.stores[s.confirm.acc], s.heap, s.heap[Head(s).tx].id)
    ensures var r := OnFinalized(s.stores[s.confirm.acc], s.heap, s.heap[Head(s).tx].id, s.now);
            && CallOf(s, l).value.result == r
            && Next(s, l) == s.(stores := s.stores[s.confirm.acc := r.store], heap := r.heap, todo := Pop(s),
                                confirm := Finalizing(s.confirm.acc))
  {}

  lemma AskIsHeadCall(s: State, s': State, l: Label)
    requires StoresOk(s) && TodoOk(s) && Enabled(s, l) && Typed(s) && s' == Next(s, l)
    requires (l.AskSolidity? || l.AskFull?) && l.found
    ensures var r := CallOf(s, l).value.result;
            r.out == Done && Head(s).tx in s.heap && IsHeadCall(s, s', r, Finalized)
  {
    var acc, id := s.confirm.acc, s.heap[Head(s).tx].id;
    HeadIsCurrent(s);
    PhasesExclude(s, acc, id);
    assert StoreOk(s, acc);
    AskEffect(s, l);
    FinalizeIsHeadCall(s, s');
  }

  lemma FinalizeIsHeadCall(s: State, s': State)
    requires HasHead(s) && Head(s).tx in s.heap && !s.confirm.Retrying? && Reading(s.confirm) == ForFinality
    requires s.confirm.acc in s.stores && StoreOk(s, s.confirm.acc)
    requires var store, id := s.stores[s.confirm.acc], s.heap[Head(s).tx].id;
             && id in store.confirmed && store.confirmed[id] == Head(s)
             && IdClosed(store, s.heap, id)
             && var r := OnFinalized(store, s.heap, id, s.now);
                s' == s.(stores := s.stores[s.confirm.acc := r.store], heap := r.heap, todo := Pop(s),
                         confirm := Finalizing(s.confirm.acc))
    ensures var r := OnFinalized(s.stores[s.confirm.acc], s.heap, s.heap[Head(s).tx].id, s.now);
            r.out == Done && IsHeadCall(s, s', r, Finalized)
  {
    var acc, id := s.confirm.acc, s.heap[Head(s).tx].id;
    assert IdHome(s.stores[acc], s.heap, acc, id);
    OpIsHeadCall(s, s', s.heap, Op<Ref>.Finalize(id, s.now), Finalized);
  }

  lemma ReorganizeKeepsInv(s: State)
    requires Inv(s) && Enabled(s, Reorganize) && Typed(s)
    ensures CallOf(s, Reorganize).value.result.out == Done
    ensures Inv(Next(s, Reorganize))
  {
    HeadIsCurrent(s);
    ReorganizeIsHeadCall(s, Next(s, Reorganize));
    HeadCallKeepsInv(s, Next(s, Reorganize), CallOf(s, Reorganize).value.result, Pending);
  }

  lemma ReorganizeEffect(s: State)
    requires Enabled(s, Reorganize) && Typed(s) && s.confirm.acc in s.stores
    requires s.heap[Head(s).tx].id in s.stores[s.confirm.acc].confirmed
    requires IdClosed(s.stores[s.confirm.acc], s.heap, s.heap[Head(s).tx].id)
    ensures var r := OnReorg(s.stores[s.confirm.acc], s.heap, s.heap[Head(s).tx].id);
            && CallOf(s, Reorganize).value.result == r
            && Next(s, Reorganize) == s.(stores := s.stores[s.confirm.acc := r.store], heap := r.heap, todo := Pop(s),
                                         confirm := Requeueing(s.confirm.acc, Head(s).tx))
  {}

  lemma ReorganizeIsHeadCall(s: State, s': State)
    requires StoresOk(s) && TodoOk(s) && Enabled(s, Reorganize) && Typed(s) && s' == Next(s, Reorganize)
    ensures var r := CallOf(s, Reorganize).value.result;
            r.out == Done && Head(s).tx in s.heap && IsHeadCall(s, s', r, Pending)
  {
    var acc, id := s.confirm.acc, s.heap[Head(s).tx].id;
    HeadIsCurrent(s);
    assert StoreOk(s, acc);
    ReorganizeEffect(s);
    PhasesExclude(s, acc, id);
    OpIsHeadCall(s, s', s.heap, Op<Ref>.Reorg(id), Pending);
  }

  // -------- the steps of a retry

  lemma RetryStepKeepsInv(s: State)
    requires Inv(s) && Enabled(s, RetryStep) && Typed(s)
    ensures CallOf(s, RetryStep).Some? ==> CallOf(s, RetryStep).value.result.out == Done
    ensures Inv(Next(s, RetryStep))
  {
    if s.confirm.stage < 4 {
      RetryWriteEffect(s);
      RetryWriteKeepsInv(s, Next(s, RetryStep));
    } else {
      HeadIsCurrent(s);
      RetryIsHeadCall(s, Next(s, RetryStep));
      HeadCallKeepsInv(s, Next(s, RetryStep), CallOf(s, RetryStep).value.result, Pending);
    }
  }

  lemma RetryEffect(s: State)
    requires Enabled(s, RetryStep) && Typed(s) && s.confirm.acc in s.stores && s.confirm.stage == 4
    requires OnPending(s.stores[s.confirm.acc], s.heap, Head(s).tx, true).out == Done
    ensures var r := OnPending(s.stores[s.confirm.acc], s.heap, Head(s).tx, true);
            && CallOf(s, RetryStep).value.result == r
            && Next(s, RetryStep) == s.(stores := s.stores[s.confirm.acc := r.store], heap := r.heap, todo := Pop(s),
                                        confirm := Resending(s.confirm.acc, s.confirm.ts, Head(s).tx))
  {}

  lemma RetryIsHeadCall(s: State, s': State)
    requires StoresOk(s) && TodoOk(s) && PcOk(s) && Enabled(s, RetryStep) && Typed(s) && s' == Next(s, RetryStep)
    requires s.confirm.stage == 4
    ensures var r := CallOf(s, RetryStep).value.result;
            r.out == Done && Head(s).tx in s.heap && IsHeadCall(s, s', r, Pending)
  {
    var acc, tx := s.confirm.acc, Head(s).tx;
    HeadIsCurrent(s);
    PhasesExclude(s, acc, s.heap[tx].id);
    assert StoreOk(s, acc);
    RetryIsDone(s);
    RetryEffect(s);
    FiledIsHeadCall(s, s');
  }

  lemma RetryIsDone(s: State)
    requires s.confirm.Retrying? && s.confirm.stage == 4 && HasHead(s) && Head(s).tx in s.heap
    requires s.confirm.acc in s.stores && StoreOk(s, s.confirm.acc) && s.heap[Head(s).tx].state == Pending
    requires var store, id := s.stores[s.confirm.acc], s.heap[Head(s).tx].id;
             id in store.unconfirmed && store.unconfirmed[id] == Head(s)
    ensures var r := OnPending(s.stores[s.confirm.acc], s.heap, Head(s).tx, true); r.out == Done && r.heap == s.heap
  {
    var acc, tx := s.confirm.acc, Head(s).tx;
    assert Mark(Settled(s), tx, Pending) == s.heap;
    OnRetryKeepsValid(s.stores[acc], Settled(s), s.heap[tx].id);
  }

  lemma FiledIsHeadCall(s: State, s': State)
    requires s.confirm.Retrying? && s.confirm.stage == 4 && HasHead(s) && Head(s).tx in s.heap
    requires s.confirm.acc in s.stores && StoreOk(s, s.confirm.acc) && s.heap[Head(s).tx].state == Pending
    requires var store, id := s.stores[s.confirm.acc], s.heap[Head(s).tx].id;
             && id in store.unconfirmed && store.unconfirmed[id] == Head(s)
             && var r := OnPending(store, s.heap, Head(s).tx, true);
                s' == s.(stores := s.stores[s.confirm.acc := r.store], heap := r.heap, todo := Pop(s),
                         confirm := Resending(s.confirm.acc, s.confirm.ts, Head(s).tx))
    ensures var r := OnPending(s.stores[s.confirm.acc], s.heap, Head(s).tx, true);
            r.out == Done && IsHeadCall(s, s', r, Pending)
  {
    var acc, tx := s.confirm.acc, Head(s).tx;
    var id := s.heap[tx].id;
    RetryIsDone(s);
    assert IdHome(s.stores[acc], s.heap, acc, id);
    assert IdOk(s.stores[acc], Settled(s), id);
    assert Mark(Settled(s), tx, Pending) == s.heap;
    assert Mark(s.heap, tx, Pending) == s.heap;
    OpIsHeadCall(s, s', Settled(s), Retry(id), Pending);
  }

  lemma RetryWriteEffect(s: State)
    requires Enabled(s, RetryStep) && Typed(s) && s.confirm.stage < 4
    ensures var c, tx := s.confirm, Head(s).tx;
            Next(s, RetryStep) == s.(confirm := c.(stage := c.stage + 1),
                                     heap := s.heap[tx := RetryWrite(s.heap[tx], c.stage, c.bump, c.slow)])
  {}

  lemma RetryWriteKeepsInv(s: State, s': State)
    requires Inv(s) && s.confirm.Retrying? && HasHead(s) && Head(s).tx in s.heap && s.confirm.stage < 4
    requires var c, tx := s.confirm, Head(s).tx;
             s' == s.(confirm := c.(stage := c.stage + 1),
                      heap := s.heap[tx := RetryWrite(s.heap[tx], c.stage, c.bump, c.slow)])
    ensures Inv(s')
  {
    var acc, e := s.confirm.acc, Head(s);
    HeadIsCurrent(s);
    PhasesExclude(s, acc, s.heap[e.tx].id);
    forall r ensures SameObject(s, s', r) && SameState(s, s', r) {}
    RetryWriteStores(s, s');
    RetryWriteTokens(s, s');
    forall r ensures CountersOk(s', r) { assert CountersOk(s, r); }
    forall a <- s'.todo ensures a in s'.stores && ListOk(s', Reading(s'.confirm), a, s'.todo[a]) {
      RetryWriteList(s, s', a);
    }
    KeepPlan(s, s');
  }

  lemma RetryWriteList(s: State, s': State, a: Addr)
    requires TodoOk(s) && a in s.todo && Reading(s.confirm) == ForReceipts == Reading(s'.confirm)
    requires s'.stores == s.stores && s'.todo == s.todo && forall r :: SameObject(s, s', r)
    ensures a in s'.stores && ListOk(s', ForReceipts, a, s'.todo[a])
  {
    var q := s.todo[a];
    forall i | 0 <= i < |q| ensures Current(s', ForReceipts, a, q[i]) {
      assert Current(s, ForReceipts, a, q[i]);
      assert SameObject(s, s', q[i].tx);
    }
  }

  lemma RetryWriteStores(s: State, s': State)
    requires StoresOk(s) && s'.stores == s.stores
    requires forall r :: SameObject(s, s', r) && SameState(s, s', r)
    ensures StoresOk(s')
  {
    forall a ensures StoreOk(s', a) {
      assert StoreOk(s, a);
      if a in s.stores {
        forall r <- Settled(s) ensures Kept(Settled(s), Settled(s'), r) {
          assert SameObject(s, s', r) && SameState(s, s', r);
        }
        StoreAgrees(s.stores[a], Settled(s), Settled(s'));
        ValidFrame(s.stores[a], Settled(s), Settled(s'));
        forall id ensures IdHome(s.stores[a], s'.heap, a, id) {
          assert IdHome(s.stores[a], s.heap, a, id);
          SameHome(s, s', s.stores[a], a, id);
        }
      }
    }
  }

  lemma RetryWriteTokens(s: State, s': State)
    requires TokensOk(s) && CallersOk(s) && forall r :: SameObject(s, s', r)
    requires s'.stores == s.stores && s'.callers == s.callers && s'.channel == s.channel && s'.hand == s.hand
    requires Carried(s) == None && Carried(s') == None
    ensures TokensOk(s') && CallersOk(s')
  {
    forall r | IsPending(s, r) ensures IsPending(s', r) { assert SameObject(s, s', r); }
    forall a, i ensures CallerOk(s', a, i) {
      assert CallerOk(s, a, i);
      if (a, i) in s.callers && s.callers[(a, i)].Inserted? { assert SameObject(s, s', s.callers[(a, i)].tx); }
    }
  }

  /** Each call of the confirm loop on a store is one on the record at the head of its list, and is
      carried out. */
  lemma ConfirmCall(s: State, l: Label) returns (state: TxState)
    requires StoresOk(s) && TodoOk(s) && PcOk(s) && Enabled(s, l) && Typed(s) && CallOf(s, l).Some?
    requires l.Examine? || l.RetryStep? || l.AskSolidity? || l.AskFull? || l.Reorganize?
    ensures CallOf(s, l).value.result.out == Done && Head(s).tx in s.heap
    ensures IsHeadCall(s, Next(s, l), CallOf(s, l).value.result, state)
  {
    if l.Examine? {
      ExamineIsHeadCall(s, Next(s, l), l.answer);
      state := CallOf(s, l).value.result.heap[Head(s).tx].state;
    } else if l.RetryStep? {
      RetryIsHeadCall(s, Next(s, l));
      state := Pending;
    } else if l.Reorganize? {
      ReorganizeIsHeadCall(s, Next(s, l));
      state := Pending;
    } else {
      AskIsHeadCall(s, Next(s, l), l);
      state := Finalized;
    }
  }

  // -------- the reaper

  lemma DeleteKeepsInv(s: State, acc: Addr)
    requires Inv(s) && Enabled(s, Delete(acc)) && Typed(s)
    ensures Inv(Next(s, Delete(acc)))
  {
    var s' := Next(s, Delete(acc));
    var ids := s.plan[acc];
    DeleteFinishedExact(s.stores[acc], ids);
    DeleteStores(s, s', acc);
    DeleteRest(s, s', acc);
    forall a <- s'.plan, id <- s'.plan[a] ensures Due(s', a, id, s.reap.cutoff) { assert Due(s, a, id, s.reap.cutoff); }
  }

  lemma DeleteStores(s: State, s': State, acc: Addr)
    requires Inv(s) && Enabled(s, Delete(acc)) && Typed(s) && s' == Next(s, Delete(acc))
    ensures StoresOk(s')
  {
    assert StoreOk(s, acc);
    DeleteFinishedKeepsValid(s.stores[acc], Settled(s), s.plan[acc]);
    DeleteFinishedExact(s.stores[acc], s.plan[acc]);
    forall a ensures StoreOk(s', a) {
      assert StoreOk(s, a);
      if a == acc {
        forall i ensures IdHome(s'.stores[acc], s'.heap, acc, i) { assert IdHome(s.stores[acc], s.heap, acc, i); }
      }
    }
  }

  lemma DeleteRest(s: State, s': State, acc: Addr)
    requires Inv(s) && Enabled(s, Delete(acc)) && Typed(s) && s' == Next(s, Delete(acc))
    requires s'.stores[acc] == s.stores[acc].(finished := s'.stores[acc].finished, hashToId := s'.stores[acc].hashToId)
    requires s'.stores[acc].finished.Keys <= s.stores[acc].finished.Keys
    ensures TokensOk(s') && CallersOk(s') && TodoOk(s') && PcOk(s') && AllCountersOk(s')
  {
    forall r | IsPending(s, r) ensures IsPending(s', r) {}
    forall a, i ensures CallerOk(s', a, i) { assert CallerOk(s, a, i); }
    forall r ensures CountersOk(s', r) { assert CountersOk(s, r); }
    forall a <- s'.todo ensures a in s'.stores && ListOk(s', Reading(s'.confirm), a, s'.todo[a]) {
      var q, kind := s.todo[a], Reading(s.confirm);
      forall i | 0 <= i < |q| ensures Current(s', kind, a, q[i]) { assert Current(s, kind, a, q[i]); }
    }
  }
}
