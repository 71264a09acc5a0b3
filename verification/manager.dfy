/** The transaction manager as a transition system.  Enqueue callers and the broadcast, confirm
    and reap goroutines interleave; one step is one section under a store's lock, one write of a
    shared field, one channel operation or one answer of the chain.  What the environment chooses
    (answers, hashes, clock, map order, whether a buffered channel has room) is in the label. */
module Manager {

  import opened Options
  import opened TxStoreSpec
  import opened TxmLimits

  /** Objects are numbered as they are allocated. */
  type Ref = nat

  /** An Enqueue call that has found its id unknown, and then also filed its object. */
  datatype Caller = Checked | Inserted(tx: Ref)

  datatype Kind = ForReceipts | ForFinality

  datatype ConfirmPc =
    | Idle
    | Snapping(kind: Kind, left: set<Addr>)
    | Choosing(kind: Kind)
    | Examining(acc: Addr, ts: int)
    | Retrying(acc: Addr, ts: int, stage: nat, bump: bool, slow: bool)
    | Resending(acc: Addr, ts: int, tx: Ref)
    | Finalizing(acc: Addr)
    | Probing(acc: Addr, misses: nat)
    | Requeueing(acc: Addr, tx: Ref)
    | Crashed

  datatype ReapPc = Resting | Collecting(cutoff: int, left: set<Addr>) | Deleting(cutoff: int)

  datatype State = State(
    capacity: nat,
    retention: int,
    now: int,
    stores: map<Addr, Store<Ref>>,
    heap: map<Ref, Tx>,
    channel: seq<Ref>,
    callers: map<(Addr, Id), Caller>,
    hand: Option<Ref>,
    confirm: ConfirmPc,
    todo: map<Addr, seq<Inflight<Ref>>>,
    reap: ReapPc,
    plan: map<Addr, seq<Id>>)

  /** What a full node says about a hash. */
  datatype Answer = Missing | Receipt(result: string)

  datatype Label =
    | Tick(elapsed: nat)
    | OpenStore(acc: Addr)
    // Enqueue
    | Begin(acc: Addr, id: Id)
    | Insert(acc: Addr, id: Id, tx: Ref)
    | Send(acc: Addr, id: Id, sent: bool)
    // broadcastLoop
    | Receive
    | GiveUp
    | Reject
    | Publish(hash: Hash, expirationMs: int)
    // confirmLoop
    | StartPass
    | Snap(acc: Addr, ids: seq<Id>)
    | EndSnap
    | Choose(acc: Addr, ts: int)
    | Skip(acc: Addr)
    | Leave
    | EndPass
    | Examine(answer: Answer)
    | RetryStep
    | Resend(sent: bool)
    | AskSolidity(found: bool)
    | AskFull(found: bool)
    | Reorganize
    | Requeue(sent: bool)
    // reapLoop
    | StartReap
    | Collect(acc: Addr, ids: seq<Id>)
    | EndCollect
    | Delete(acc: Addr)
    | EndReap

  predicate Init(s: State) {
    && s.stores == map[] && s.heap == map[] && s.channel == [] && s.callers == map[] && s.hand == None
    && s.confirm == Idle && s.todo == map[] && s.reap == Resting && s.plan == map[]
  }

  // ---------------------------------------------------------------- the confirm loop's decisions

  datatype Decision = Wait | Accept | Condemn | MaybeRetry(bump: bool, slow: bool)

  const FATAL_RESULTS: set<string> := {
    "REVERT", "BAD_JUMP_DESTINATION", "OUT_OF_MEMORY", "STACK_TOO_SMALL", "STACK_TOO_LARGE",
    "ILLEGAL_OPERATION", "STACK_OVERFLOW", "JVM_STACK_OVER_FLOW", "TRANSFER_FAILED", "INVALID_CODE"}

  function Decide(expirationMs: int, ts: int, answer: Answer): Decision {
    match answer
    case Missing => if expirationMs < ts then MaybeRetry(false, false) else Wait
    case Receipt(result) =>
      if result == "SUCCESS" then Accept
      else if result == "OUT_OF_ENERGY" then MaybeRetry(true, false)
      else if result == "OUT_OF_TIME" then MaybeRetry(false, true)
      else if result in FATAL_RESULTS then Condemn
      else MaybeRetry(false, false)
  }

  predicate Exhausted(t: Tx) {
    t.attempt >= MAX_RETRY_ATTEMPTS || t.outOfTime >= MAX_OUT_OF_TIME
  }

  // ---------------------------------------------------------------- helpers

  /** GetTxStore: the store of an account, opened empty if there is none. */
  ghost function StoreOf(s: State, acc: Addr): Store<Ref> {
    if acc in s.stores then s.stores[acc] else NewStore()
  }

  /** The record the confirm loop has before it. */
  ghost predicate HasHead(s: State) {
    && (s.confirm.Examining? || s.confirm.Retrying? || s.confirm.Finalizing? || s.confirm.Probing?)
    && s.confirm.acc in s.todo && s.todo[s.confirm.acc] != []
  }

  ghost function Head(s: State): Inflight<Ref>
    requires HasHead(s)
  {
    s.todo[s.confirm.acc][0]
  }

  ghost function Pop(s: State): map<Addr, seq<Inflight<Ref>>>
    requires HasHead(s)
  {
    s.todo[s.confirm.acc := s.todo[s.confirm.acc][1..]]
  }

  /** A non-blocking send: it succeeds if the buffer has room or, without a buffer, if the
      broadcaster may be waiting. */
  ghost predicate CanSend(s: State, sent: bool) {
    if sent then |s.channel| < s.capacity || (s.capacity == 0 && s.channel == [] && s.hand == None)
    else |s.channel| >= s.capacity
  }

  ghost function Push(s: State, tx: Ref, sent: bool): seq<Ref> {
    if sent then s.channel + [tx] else s.channel
  }

  /** Every pointer the goroutines and stores hold is one to an object of the heap. */
  ghost predicate Typed(s: State) {
    && (forall acc <- s.stores, id :: IdClosed(s.stores[acc], s.heap, id))
    && (forall i :: 0 <= i < |s.channel| ==> s.channel[i] in s.heap)
    && (s.hand.Some? ==> s.hand.value in s.heap)
    && (forall acc <- s.todo, i :: 0 <= i < |s.todo[acc]| ==> s.todo[acc][i].tx in s.heap)
  }

  // ---------------------------------------------------------------- which steps can be taken

  ghost predicate Enabled(s: State, l: Label) {
    match l
    case Tick(_) => true
    case OpenStore(_) => true
    // Either the caller's id was looked up and not found, or it was generated and is new.  Calls
    // for one id of one account do not overlap.
    case Begin(acc, id) => acc in s.stores && !s.stores[acc].Has(id) && (acc, id) !in s.callers
    case Insert(acc, id, tx) => (acc, id) in s.callers && s.callers[(acc, id)] == Checked && tx !in s.heap
    case Send(acc, id, sent) => (acc, id) in s.callers && s.callers[(acc, id)].Inserted? && CanSend(s, sent)

    case Receive => s.hand == None && s.channel != []
    case GiveUp => s.hand.Some?
    case Reject => s.hand.Some?
    case Publish(hash, _) =>
      s.hand.Some? && s.hand.value in s.heap && HashFresh(StoreOf(s, s.heap[s.hand.value].from), s.heap, hash)

    case StartPass => s.confirm == Idle
    case Snap(acc, ids) =>
      s.confirm.Snapping? && acc in s.confirm.left && acc in s.stores
      && Enumerates(ids, Inflights(s.stores[acc], s.confirm.kind))
    case EndSnap => s.confirm.Snapping? && s.confirm.left == {}
    case Choose(acc, _) => s.confirm.Choosing? && acc in s.todo
    case Skip(acc) => s.confirm == Choosing(ForReceipts) && acc in s.todo
    case Leave =>
      (s.confirm.Examining? || s.confirm.Finalizing?) && s.confirm.acc in s.todo && s.todo[s.confirm.acc] == []
    case EndPass => s.confirm.Choosing? && s.todo == map[]
    case Examine(_) => s.confirm.Examining? && HasHead(s)
    case RetryStep => s.confirm.Retrying? && HasHead(s)
    case Resend(sent) => s.confirm.Resending? && CanSend(s, sent)
    case AskSolidity(_) => s.confirm.Finalizing? && HasHead(s)
    case AskFull(_) => s.confirm.Probing? && HasHead(s) && s.confirm.misses < 1 + REORG_RETRY_COUNT
    case Reorganize => s.confirm.Probing? && HasHead(s) && s.confirm.misses == 1 + REORG_RETRY_COUNT
    case Requeue(sent) => s.confirm.Requeueing? && CanSend(s, sent)

    case StartReap => s.reap == Resting
    case Collect(acc, ids) =>
      s.reap.Collecting? && acc in s.reap.left && acc in s.stores && Enumerates(ids, s.stores[acc].finished)
    case EndCollect => s.reap.Collecting? && s.reap.left == {}
    case Delete(acc) => s.reap.Deleting? && acc in s.plan
    case EndReap => s.reap.Deleting? && s.plan == map[]
  }

  ghost function Inflights(store: Store<Ref>, kind: Kind): map<Id, Inflight<Ref>> {
    if kind == ForReceipts then store.unconfirmed else store.confirmed
  }

  /** The records of a snapshot in the order of their ids. */
  ghost function Records<V>(ids: seq<Id>, m: map<Id, V>): (q: seq<V>)
    requires forall i :: 0 <= i < |ids| ==> ids[i] in m
    ensures Lists(q, ids, m)
  {
    seq(|ids|, i requires 0 <= i < |ids| => m[ids[i]])
  }

  /** The finished ids whose retention ended before the cutoff. */
  ghost function Expired(ids: seq<Id>, finished: map<Id, Finished<Ref>>, cutoff: int): (expired: seq<Id>)
    ensures forall id :: id in expired <==> id in ids && id in finished && finished[id].retentionTs < cutoff
  {
    if ids == [] then []
    else
      var rest := Expired(ids[1..], finished, cutoff);
      if ids[0] in finished && finished[ids[0]].retentionTs < cutoff then [ids[0]] + rest else rest
  }

  // ---------------------------------------------------------------- the store call of a step

  datatype Call = Call(acc: Addr, result: Result<Ref>)

  /** The call on a store that a step makes, if it makes one. */
  ghost function CallOf(s: State, l: Label): Option<Call>
    requires Typed(s) && Enabled(s, l)
  {
    match l
    case Insert(acc, id, tx) =>
      Some(Call(acc, OnPending(StoreOf(s, acc), s.heap[tx := Tx(acc, id, 1, 0, 0, Pending)], tx, false)))
    case Reject =>
      var t := s.heap[s.hand.value];
      Some(Call(t.from, OnFatalError(StoreOf(s, t.from), s.heap, t.id, s.now)))
    case Publish(hash, exp) =>
      var t := s.heap[s.hand.value];
      Some(Call(t.from, OnBroadcasted(StoreOf(s, t.from), s.heap, hash, exp, s.hand.value)))
    case Examine(answer) =>
      var acc, e := s.confirm.acc, Head(s);
      var t := s.heap[e.tx];
      (match Decide(e.expirationMs, s.confirm.ts, answer)
       case Wait => None
       case Accept => Some(Call(acc, OnConfirmed(StoreOf(s, acc), s.heap, t.id)))
       case Condemn => Some(Call(acc, OnFatalError(StoreOf(s, acc), s.heap, t.id, s.now)))
       case MaybeRetry(_, _) =>
         if Exhausted(t) then Some(Call(acc, OnErrored(StoreOf(s, acc), s.heap, t.id, s.now))) else None)
    case RetryStep =>
      if s.confirm.stage < 4 then None
      else Some(Call(s.confirm.acc, OnPending(StoreOf(s, s.confirm.acc), s.heap, Head(s).tx, true)))
    case AskSolidity(found) => if found then Some(FinalizeHead(s)) else None
    case AskFull(found) => if found then Some(FinalizeHead(s)) else None
    case Reorganize => Some(Call(s.confirm.acc, OnReorg(StoreOf(s, s.confirm.acc), s.heap, s.heap[Head(s).tx].id)))
    case Delete(acc) => Some(Call(acc, Result(Done, DeleteFinished(StoreOf(s, acc), s.plan[acc]).0, s.heap)))
    case _ => None
  }

  ghost function FinalizeHead(s: State): Call
    requires Typed(s) && HasHead(s)
  {
    Call(s.confirm.acc, OnFinalized(StoreOf(s, s.confirm.acc), s.heap, s.heap[Head(s).tx].id, s.now))
  }

  // ---------------------------------------------------------------- the effect of a step

  /** maybeRetry writes the counters and the state of the object one by one. */
  ghost function RetryWrite(t: Tx, stage: nat, bump: bool, slow: bool): Tx {
    if stage == 0 then t.(attempt := t.attempt + 1)
    else if stage == 1 then (if bump then t.(bumps := t.bumps + 1) else t)
    else if stage == 2 then (if slow then t.(outOfTime := t.outOfTime + 1) else t)
    else if stage == 3 then t.(state := Pending)
    else t
  }

  /** What a step does besides its call on a store. */
  ghost function Control(s: State, l: Label): State
    requires Typed(s) && Enabled(s, l)
  {
    match l
    case Tick(elapsed) => s.(now := s.now + elapsed)
    case OpenStore(acc) => s.(stores := s.stores[acc := StoreOf(s, acc)])

    case Begin(acc, id) => s.(callers := s.callers[(acc, id) := Checked])
    case Insert(acc, id, tx) => s.(callers := s.callers[(acc, id) := Inserted(tx)])
    case Send(acc, id, sent) =>
      s.(channel := Push(s, s.callers[(acc, id)].tx, sent), callers := s.callers - {(acc, id)})

    case Receive => s.(hand := Some(s.channel[0]), channel := s.channel[1..])
    case GiveUp => s.(hand := None)
    case Reject => s.(hand := None)
    case Publish(_, _) => s.(hand := None)

    case StartPass => s.(confirm := Snapping(ForReceipts, s.stores.Keys))
    case Snap(acc, ids) =>
      s.(confirm := s.confirm.(left := s.confirm.left - {acc}),
         todo := s.todo[acc := Records(ids, Inflights(s.stores[acc], s.confirm.kind))])
    case EndSnap => s.(confirm := Choosing(s.confirm.kind))
    case Choose(acc, ts) =>
      s.(confirm := if s.confirm.kind == ForReceipts then Examining(acc, ts) else Finalizing(acc))
    case Skip(acc) => s.(todo := s.todo - {acc})
    case Leave =>
      s.(todo := s.todo - {s.confirm.acc},
         confirm := Choosing(if s.confirm.Examining? then ForReceipts else ForFinality))
    case EndPass =>
      s.(confirm := if s.confirm.kind == ForReceipts then Snapping(ForFinality, s.stores.Keys) else Idle)
    case Examine(answer) =>
      var e := Head(s);
      var d := Decide(e.expirationMs, s.confirm.ts, answer);
      if d.MaybeRetry? && !Exhausted(s.heap[e.tx])
      then s.(confirm := Retrying(s.confirm.acc, s.confirm.ts, 0, d.bump, d.slow))
      else s.(todo := Pop(s))
    case RetryStep =>
      var c, tx := s.confirm, Head(s).tx;
      if c.stage < 4 then
        s.(confirm := c.(stage := c.stage + 1), heap := s.heap[tx := RetryWrite(s.heap[tx], c.stage, c.bump, c.slow)])
      else if CallOf(s, l).value.result.out == Panicked then s.(confirm := Crashed)
      else s.(confirm := Resending(c.acc, c.ts, tx), todo := Pop(s))
    case Resend(sent) =>
      s.(confirm := Examining(s.confirm.acc, s.confirm.ts), channel := Push(s, s.confirm.tx, sent))
    case AskSolidity(found) =>
      if found then s.(todo := Pop(s)) else s.(confirm := Probing(s.confirm.acc, 0))
    case AskFull(found) =>
      if found then s.(todo := Pop(s), confirm := Finalizing(s.confirm.acc))
      else s.(confirm := Probing(s.confirm.acc, s.confirm.misses + 1))
    case Reorganize =>
      s.(todo := Pop(s),
         confirm := if CallOf(s, l).value.result.out == Done then Requeueing(s.confirm.acc, Head(s).tx)
                    else Finalizing(s.confirm.acc))
    case Requeue(sent) =>
      s.(confirm := Finalizing(s.confirm.acc), channel := Push(s, s.confirm.tx, sent))

    case StartReap => s.(reap := Collecting(s.now - s.retention, s.stores.Keys))
    case Collect(acc, ids) =>
      var ids' := Expired(ids, s.stores[acc].finished, s.reap.cutoff);
      s.(reap := s.reap.(left := s.reap.left - {acc}), plan := if ids' == [] then s.plan else s.plan[acc := ids'])
    case EndCollect => s.(reap := Deleting(s.reap.cutoff))
    case Delete(acc) => s.(plan := s.plan - {acc})
    case EndReap => s.(reap := Resting)
  }

  ghost function Next(s: State, l: Label): State
    requires Typed(s) && Enabled(s, l)
  {
    match CallOf(s, l)
    case None => Control(s, l)
    case Some(c) => Control(s, l).(stores := s.stores[c.acc := c.result.store], heap := c.result.heap)
  }

  ghost predicate Step(s: State, l: Label, s': State) {
    Typed(s) && Enabled(s, l) && s' == Next(s, l)
  }
}
