/** Properties of whole runs of the transaction manager. */
module ManagerRuns {

  import opened Options
  import opened TxStoreSpec
  import opened TxmLimits
  import opened Manager
  import opened ManagerInvariant
  import opened ManagerSteps

  datatype Run = Run(states: seq<State>, labels: seq<Label>)

  ghost predicate StepAt(r: Run, i: int) {
    0 <= i < |r.labels| && i + 1 < |r.states| && Step(r.states[i], r.labels[i], r.states[i + 1])
  }

  ghost predicate IsRun(r: Run) {
    && |r.states| == |r.labels| + 1
    && Init(r.states[0])
    && (forall i :: 0 <= i < |r.labels| ==> StepAt(r, i))
  }

  lemma {:induction false} RunKeepsInv(r: Run, n: nat)
    requires IsRun(r) && n < |r.states|
    ensures Inv(r.states[n])
  {
    if n == 0 {
      InitInv(r.states[0]);
    } else {
      RunKeepsInv(r, n - 1);
      assert StepAt(r, n - 1);
      StepKeepsInv(r.states[n - 1], r.labels[n - 1]);
    }
  }

  // ---------------------------------------------------------------- calls from snapshots are enabled

  /** Whatever happened between the snapshot and the call, each call the confirm loop makes on a
      store is carried out: no error branch is taken and no missing record dereferenced.  Enqueue's
      call is carried out too.  The broadcaster's OnFatalError is always refused, so that a failed
      broadcast leaves all stores and objects as they were. */
  lemma CallsAreEnabled(r: Run, n: nat)
    requires IsRun(r) && StepAt(r, n) && CallOf(r.states[n], r.labels[n]).Some?
    ensures var s, l := r.states[n], r.labels[n];
            var out := CallOf(s, l).value.result.out;
            && out != Panicked
            && (OfConfirm(l) || l.Insert? || l.Delete? ==> out == Done)
            && (l.Reject? ==> out == Refused && r.states[n + 1] == s.(hand := None))
            && !r.states[n + 1].confirm.Crashed?
  {
    var s, l := r.states[n], r.labels[n];
    RunKeepsInv(r, n);
    RunKeepsInv(r, n + 1);
    StepKeepsInv(s, l);
    CallIsEnabled(s, l);
  }

  lemma CallIsEnabled(s: State, l: Label)
    requires Inv(s) && Enabled(s, l) && Typed(s) && CallOf(s, l).Some?
    ensures var out := CallOf(s, l).value.result.out;
            && out != Panicked
            && (OfConfirm(l) || l.Insert? || l.Delete? ==> out == Done)
            && (l.Reject? ==> out == Refused && Next(s, l) == s.(hand := None))
  {
    if l.Insert? { InsertKeepsInv(s, l.acc, l.id, l.tx); }
    else if l.Reject? { RejectKeepsInv(s); }
    else if l.Publish? { PublishKeepsInv(s, l.hash, l.expirationMs); }
    else if !l.Delete? { var state := ConfirmCall(s, l); }
  }

  // ---------------------------------------------------------------- nothing is in flight twice

  /** What is in flight to the broadcaster: the channel, then its hand. */
  ghost function InFlight(s: State): seq<Ref> {
    s.channel + (if s.hand.Some? then [s.hand.value] else [])
  }

  /** No id of an account is twice in the channel and the broadcaster's hand, and each one there
      is pending in its account's store as the same object. */
  lemma InFlightOnce(r: Run, n: nat)
    requires IsRun(r) && n < |r.states|
    ensures var s := r.states[n];
            && (forall x <- InFlight(s) :: IsPending(s, x))
            && (forall i, j :: 0 <= i < j < |InFlight(s)| ==>
                  InFlight(s)[i] in s.heap && InFlight(s)[j] in s.heap &&
                  (s.heap[InFlight(s)[i]].from, s.heap[InFlight(s)[i]].id)
                  != (s.heap[InFlight(s)[j]].from, s.heap[InFlight(s)[j]].id))
  {
    var s := r.states[n];
    RunKeepsInv(r, n);
    var q := InFlight(s);
    forall x <- q ensures IsPending(s, x) {}
    forall i, j | 0 <= i < j < |q|
      ensures q[i] in s.heap && q[j] in s.heap
              && (s.heap[q[i]].from, s.heap[q[i]].id) != (s.heap[q[j]].from, s.heap[q[j]].id)
    {
      assert q[i] != q[j] && IsPending(s, q[i]) && IsPending(s, q[j]);
    }
  }

  // ---------------------------------------------------------------- retries are bounded

  /** How far an object has come, by its state. */
  function Level(state: TxState): int {
    match state
    case Pending => -1
    case Broadcasted => 0
    case Confirmed => 1
    case _ => 2
  }

  /** An object's attempts that maybeRetry has handed to the store. */
  ghost function Attempts(s: State, x: Ref): int
    requires x in s.heap
  {
    s.heap[x].attempt - (if s.confirm.Retrying? && s.confirm.stage >= 1 && HasHead(s) && Head(s).tx == x then 1 else 0)
  }

  ghost function Rank(s: State, x: Ref): int {
    if x in s.heap && x in Settled(s) then 2 * Attempts(s, x) + Level(Settled(s)[x].state) else 0
  }

  /** The object of the store call a step makes, if the call is carried out. */
  ghost function Moved(s: State, l: Label): Option<Ref>
    requires Typed(s) && Enabled(s, l)
  {
    if CallOf(s, l).None? || CallOf(s, l).value.result.out != Done || l.Delete? then None
    else if l.Insert? then Some(l.tx)
    else if l.Reject? || l.Publish? then s.hand
    else Some(Head(s).tx)
  }

  /** Enqueued, or on the way to the channel after a retry or a reorg, or in the channel. */
  ghost predicate Waiting(s: State, x: Ref) {
    || x in s.channel
    || Carried(s) == Some(x)
    || (x in s.heap && (s.heap[x].from, s.heap[x].id) in s.callers
        && s.callers[(s.heap[x].from, s.heap[x].id)] == Inserted(x))
  }

  /** Dequeues the object may have had so far. */
  ghost function Used(s: State, x: Ref): int {
    if x in s.heap then Attempts(s, x) - (if Waiting(s, x) then 1 else 0) else 0
  }

  ghost function MovesOf(r: Run, n: nat, x: Ref): nat
    requires IsRun(r) && n <= |r.labels|
  {
    if n == 0 then 0
    else
      assert StepAt(r, n - 1);
      MovesOf(r, n - 1, x) + (if Moved(r.states[n - 1], r.labels[n - 1]) == Some(x) then 1 else 0)
  }

  ghost function ReorgsOf(r: Run, n: nat, x: Ref): nat
    requires IsRun(r) && n <= |r.labels|
  {
    if n == 0 then 0
    else
      assert StepAt(r, n - 1);
      ReorgsOf(r, n - 1, x)
      + (if r.labels[n - 1].Reorganize? && Moved(r.states[n - 1], r.labels[n - 1]) == Some(x) then 1 else 0)
  }

  ghost function DequeuesOf(r: Run, n: nat, x: Ref): nat
    requires IsRun(r) && n <= |r.labels|
  {
    if n == 0 then 0
    else
      assert StepAt(r, n - 1);
      DequeuesOf(r, n - 1, x)
      + (if r.labels[n - 1].Receive? && r.states[n - 1].channel[0] == x then 1 else 0)
  }

  /** What a step adds to the rank of x. */
  ghost function Gain(s: State, l: Label, x: Ref): int
    requires Typed(s) && Enabled(s, l)
  {
    if Moved(s, l) != Some(x) then 0
    else if l.Reorganize? then -2
    else if l.Examine? && x in Next(s, l).heap && Terminal(Next(s, l).heap[x].state) then 2
    else 1
  }

  /** A call that is carried out raises the rank of its object by one, or by two if it ends an
      unconfirmed one; a reorg lowers it by two; nothing else changes it. */
  lemma RankStep(s: State, l: Label, x: Ref)
    requires Inv(s) && Enabled(s, l) && Typed(s)
    ensures Rank(Next(s, l), x) == Rank(s, x) + Gain(s, l, x)
  {
    if CallOf(s, l) == None {
      RankQuiet(s, l, x);
    } else if OfConfirm(l) {
      RankHead(s, l, x);
    } else {
      RankOther(s, l, x);
    }
  }

  lemma RankQuiet(s: State, l: Label, x: Ref)
    requires Inv(s) && Enabled(s, l) && Typed(s) && CallOf(s, l) == None
    ensures Rank(Next(s, l), x) == Rank(s, x) && Gain(s, l, x) == 0
  {
    if l.RetryStep? { RankRetryWrite(s, x); }
    else if OfConfirm(l) { RankQuietConfirm(s, l, x); }
    else { OthersLeaveConfirm(s, l); }
  }

  lemma RankOther(s: State, l: Label, x: Ref)
    requires Inv(s) && Enabled(s, l) && Typed(s) && CallOf(s, l).Some? && !OfConfirm(l)
    ensures Rank(Next(s, l), x) == Rank(s, x) + Gain(s, l, x)
  {
    if l.Insert? {
      assert CallerOk(s, l.acc, l.id);
      InsertEffect(s, l.acc, l.id, l.tx);
      RankInsert(s, Next(s, l), l.tx, x);
    } else if l.Reject? {
      RejectKeepsInv(s);
    } else if l.Publish? {
      RankPublish(s, l.hash, l.expirationMs, x);
    } else {
      DeleteEffect(s, l.acc);
    }
  }

  /** Other goroutines do not touch the confirm loop's place in its lists, nor, short of their
      calls on a store, any object. */
  lemma OthersLeaveConfirm(s: State, l: Label)
    requires Enabled(s, l) && Typed(s) && !OfConfirm(l)
    ensures Next(s, l).confirm == s.confirm && Next(s, l).todo == s.todo
    ensures CallOf(s, l) == None ==> Next(s, l).heap == s.heap
  {}

  lemma RankQuietConfirm(s: State, l: Label, x: Ref)
    requires Enabled(s, l) && Typed(s) && CallOf(s, l) == None && OfConfirm(l) && !l.RetryStep?
    ensures Rank(Next(s, l), x) == Rank(s, x)
  {
    var s' := Next(s, l);
    assert s'.heap == s.heap;
    assert !s.confirm.Retrying? && (s'.confirm.Retrying? ==> s'.confirm.stage == 0);
  }

  lemma RankRetryWrite(s: State, x: Ref)
    requires Inv(s) && Enabled(s, RetryStep) && Typed(s) && CallOf(s, RetryStep) == None
    ensures Rank(Next(s, RetryStep), x) == Rank(s, x)
  {
    HeadIsCurrent(s);
    PhasesExclude(s, s.confirm.acc, s.heap[Head(s).tx].id);
  }

  lemma RankInsert(s: State, s': State, tx: Ref, x: Ref)
    requires tx !in s.heap && s'.confirm == s.confirm && s'.todo == s.todo && Typed(s)
    requires tx in s'.heap && s'.heap == s.heap[tx := s'.heap[tx]] && s'.heap[tx].attempt == 1
             && s'.heap[tx].state == Pending
    ensures Rank(s', x) == if x == tx then 1 else Rank(s, x)
    ensures Rank(s, tx) == 0
  {}

  lemma RankPublish(s: State, hash: Hash, exp: int, x: Ref)
    requires Inv(s) && Enabled(s, Publish(hash, exp)) && Typed(s)
    ensures Rank(Next(s, Publish(hash, exp)), x)
            == Rank(s, x) + (if Moved(s, Publish(hash, exp)) == Some(x) then 1 else 0)
  {
    PublishEffect(s, hash, exp);
    PhasesExclude(s, s.heap[s.hand.value].from, s.heap[s.hand.value].id);
    if HasHead(s) { HeadIsCurrent(s); }
    RankBroadcast(s, Next(s, Publish(hash, exp)), hash, exp, x);
  }

  lemma RankBroadcast(s: State, s': State, hash: Hash, exp: int, x: Ref)
    requires s.hand.Some? && IsPending(s, s.hand.value) && s.heap[s.hand.value].state == Pending
    requires HasHead(s) ==> Head(s).tx in s.heap && Head(s).tx != s.hand.value
    requires var r := OnBroadcasted(s.stores[s.heap[s.hand.value].from], s.heap, hash, exp, s.hand.value);
             s' == s.(stores := s.stores[s.heap[s.hand.value].from := r.store], heap := r.heap, hand := None)
    ensures var r := OnBroadcasted(s.stores[s.heap[s.hand.value].from], s.heap, hash, exp, s.hand.value);
            Rank(s', x) == Rank(s, x) + (if r.out == Done && x == s.hand.value then 1 else 0)
  {
    assert HasHead(s') <==> HasHead(s);
  }

  /** The step of a call on the head's object is one along the lifecycle. */
  lemma RankHead(s: State, l: Label, x: Ref)
    requires Inv(s) && Enabled(s, l) && Typed(s) && CallOf(s, l).Some?
    requires l.Examine? || l.RetryStep? || l.AskSolidity? || l.AskFull? || l.Reorganize?
    ensures Rank(Next(s, l), x) == Rank(s, x) + Gain(s, l, x)
  {
    var state := ConfirmCall(s, l);
    MovedByHead(s, l);
    if l.Examine? { RankExamine(s, l.answer, x); }
    else if l.RetryStep? { RankRetryCall(s, x); }
    else { RankOfConfirmed(s, l, x); }
  }

  lemma HeadState(s: State)
    requires StoresOk(s) && TodoOk(s) && HasHead(s)
    ensures Head(s).tx in s.heap && Head(s).tx in Settled(s)
    ensures Settled(s)[Head(s).tx].state == if Reading(s.confirm) == ForReceipts then Broadcasted else Confirmed
  {
    HeadIsCurrent(s);
    PhasesExclude(s, s.confirm.acc, s.heap[Head(s).tx].id);
  }

  lemma RankOfHeadCall(s: State, s': State, r: Result<Ref>, state: TxState, x: Ref)
    requires HasHead(s) && Head(s).tx in s.heap && IsHeadCall(s, s', r, state) && !s.confirm.Retrying?
    ensures Rank(s', x) == Rank(s, x) + (if x == Head(s).tx then Level(state) - Level(s.heap[x].state) else 0)
  {}

  lemma RankExamine(s: State, answer: Answer, x: Ref)
    requires StoresOk(s) && TodoOk(s) && Enabled(s, Examine(answer)) && Typed(s) && CallOf(s, Examine(answer)).Some?
    ensures var s' := Next(s, Examine(answer));
            && Head(s).tx in s.heap && Head(s).tx in s'.heap
            && Rank(s', x) == Rank(s, x) + (if x != Head(s).tx then 0 else if Terminal(s'.heap[x].state) then 2 else 1)
  {
    HeadState(s);
    ExamineIsHeadCall(s, Next(s, Examine(answer)), answer);
    var r := CallOf(s, Examine(answer)).value.result;
    var state := r.heap[Head(s).tx].state;
    assert state == Confirmed || Terminal(state);
    RankOfHeadCall(s, Next(s, Examine(answer)), r, state, x);
  }

  lemma RankOfConfirmed(s: State, l: Label, x: Ref)
    requires StoresOk(s) && TodoOk(s) && Enabled(s, l) && Typed(s) && CallOf(s, l).Some?
    requires l.AskSolidity? || l.AskFull? || l.Reorganize?
    ensures Rank(Next(s, l), x) == Rank(s, x) + (if x != Head(s).tx then 0 else if l.Reorganize? then -2 else 1)
  {
    HeadState(s);
    if l.Reorganize? {
      ReorganizeIsHeadCall(s, Next(s, l));
      RankOfHeadCall(s, Next(s, l), CallOf(s, l).value.result, Pending, x);
    } else {
      AskIsHeadCall(s, Next(s, l), l);
      RankOfHeadCall(s, Next(s, l), CallOf(s, l).value.result, Finalized, x);
    }
  }

  lemma RankRetryCall(s: State, x: Ref)
    requires StoresOk(s) && TodoOk(s) && PcOk(s) && Enabled(s, RetryStep) && Typed(s) && CallOf(s, RetryStep).Some?
    ensures Rank(Next(s, RetryStep), x) == Rank(s, x) + (if x == Head(s).tx then 1 else 0)
  {
    HeadState(s);
    RetryIsHeadCall(s, Next(s, RetryStep));
    assert Mark(s.heap, Head(s).tx, Pending) == s.heap;
  }

  /** An object has been dequeued no more often than it has attempts, short of the one it waits
      for; only a reorg sends it back without a new attempt. */
  lemma UsedStep(s: State, l: Label, x: Ref)
    requires Inv(s) && Enabled(s, l) && Typed(s)
    ensures Used(Next(s, l), x)
            >= Used(s, x) + (if l.Receive? && s.channel[0] == x then 1 else 0)
               - (if l.Reorganize? && Moved(s, l) == Some(x) then 1 else 0)
  {
    var s' := Next(s, l);
    if l.Insert? {
      assert CallerOk(s, l.acc, l.id);
      InsertEffect(s, l.acc, l.id, l.tx);
      UsedInsert(s, s', l.acc, l.id, l.tx, x);
    } else if x in s.heap {
      AttemptsStep(s, l, x);
      WaitingStep(s, l, x);
    } else {
      HeapGrowsByInsert(s, l, x);
    }
  }

  lemma UsedInsert(s: State, s': State, acc: Addr, id: Id, tx: Ref, x: Ref)
    requires tx !in s.heap && s'.confirm == s.confirm && s'.todo == s.todo && s'.channel == s.channel && Typed(s)
    requires s'.heap == s.heap[tx := Tx(acc, id, 1, 0, 0, Pending)]
             && s'.callers == s.callers[(acc, id) := Inserted(tx)]
    requires (acc, id) in s.callers && s.callers[(acc, id)] == Checked
    ensures Used(s', x) == if x == tx then 0 else Used(s, x)
    ensures Used(s, tx) == 0
  {}

  /** A step other than Insert allocates nothing; ids and senders never change, and an attempt is
      counted when maybeRetry's call is made. */
  lemma AttemptsStep(s: State, l: Label, x: Ref)
    requires Inv(s) && Enabled(s, l) && Typed(s) && !l.Insert? && x in s.heap
    ensures var s' := Next(s, l);
            && x in s'.heap && s'.heap[x].from == s.heap[x].from && s'.heap[x].id == s.heap[x].id
            && Attempts(s', x) == Attempts(s, x) + (if l.RetryStep? && Moved(s, l) == Some(x) then 1 else 0)
  {
    if CallOf(s, l) == None {
      if l.RetryStep? { HeadState(s); AttemptsRetryWrite(s, x); }
      else if OfConfirm(l) { AttemptsQuietConfirm(s, l, x); }
      else { OthersLeaveConfirm(s, l); }
    } else if l.Reject? {
      RejectKeepsInv(s);
    } else if l.Publish? {
      PublishEffect(s, l.hash, l.expirationMs);
    } else if l.Delete? {
      DeleteEffect(s, l.acc);
    } else {
      var state := ConfirmCall(s, l);
      AttemptsOfHeadCall(s, Next(s, l), CallOf(s, l).value.result, state, x);
      MovedByHead(s, l);
    }
  }

  lemma AttemptsOfHeadCall(s: State, s': State, r: Result<Ref>, state: TxState, x: Ref)
    requires HasHead(s) && Head(s).tx in s.heap && IsHeadCall(s, s', r, state) && x in s.heap
    ensures x in s'.heap && s'.heap[x].from == s.heap[x].from && s'.heap[x].id == s.heap[x].id
    ensures Attempts(s', x) == Attempts(s, x) + (if s.confirm.Retrying? && x == Head(s).tx then 1 else 0)
  {}

  lemma MovedByHead(s: State, l: Label)
    requires Enabled(s, l) && Typed(s) && CallOf(s, l).Some? && CallOf(s, l).value.result.out == Done
    requires l.Examine? || l.RetryStep? || l.AskSolidity? || l.AskFull? || l.Reorganize?
    ensures HasHead(s) && Moved(s, l) == Some(Head(s).tx) && (l.RetryStep? <==> s.confirm.Retrying?)
  {}

  lemma DeleteEffect(s: State, acc: Addr)
    requires Enabled(s, Delete(acc)) && Typed(s)
    ensures Next(s, Delete(acc))
            == s.(stores := s.stores[acc := DeleteFinished(StoreOf(s, acc), s.plan[acc]).0], plan := s.plan - {acc})
  {}

  lemma AttemptsRetryWrite(s: State, x: Ref)
    requires PcOk(s) && Enabled(s, RetryStep) && Typed(s) && CallOf(s, RetryStep) == None && x in s.heap
    ensures var s' := Next(s, RetryStep);
            x in s'.heap && s'.heap[x].from == s.heap[x].from && s'.heap[x].id == s.heap[x].id
            && Attempts(s', x) == Attempts(s, x)
  {}

  lemma AttemptsQuietConfirm(s: State, l: Label, x: Ref)
    requires Enabled(s, l) && Typed(s) && CallOf(s, l) == None && OfConfirm(l) && !l.RetryStep? && x in s.heap
    ensures Next(s, l).heap == s.heap && Attempts(Next(s, l), x) == Attempts(s, x)
  {
    var s' := Next(s, l);
    assert !s.confirm.Retrying? && (s'.confirm.Retrying? ==> s'.confirm.stage == 0);
  }

  lemma HeapGrowsByInsert(s: State, l: Label, x: Ref)
    requires Inv(s) && Enabled(s, l) && Typed(s) && !l.Insert? && x !in s.heap
    ensures x !in Next(s, l).heap && !(l.Receive? && s.channel[0] == x)
  {
    if CallOf(s, l) == None {
      HeapKeysWithoutCall(s, l);
    } else if l.Reject? {
      RejectKeepsInv(s);
    } else if l.Publish? {
      PublishEffect(s, l.hash, l.expirationMs);
    } else if l.Delete? {
      DeleteEffect(s, l.acc);
    } else {
      var state := ConfirmCall(s, l);
    }
  }

  lemma HeapKeysWithoutCall(s: State, l: Label)
    requires Enabled(s, l) && Typed(s) && CallOf(s, l) == None
    ensures Next(s, l).heap.Keys == s.heap.Keys
  {}

  /** An object starts to wait by a retry or a reorg, and stops when it is received. */
  lemma WaitingStep(s: State, l: Label, x: Ref)
    requires Inv(s) && Enabled(s, l) && Typed(s) && !l.Insert? && x in s.heap
    requires x in Next(s, l).heap && Next(s, l).heap[x].from == s.heap[x].from && Next(s, l).heap[x].id == s.heap[x].id
    ensures Waiting(Next(s, l), x) && !Waiting(s, x) ==> (l.RetryStep? || l.Reorganize?) && Moved(s, l) == Some(x)
    ensures l.Receive? && s.channel[0] == x ==> Waiting(s, x) && !Waiting(Next(s, l), x)
  {
    if l.Receive? {
      ReceiveEndsWaiting(s, x);
    } else if l.Send? || l.Begin? || l.Resend? || l.Requeue? {
      SendMovesWaiting(s, l, x);
    } else if l.RetryStep? || l.Reorganize? {
      CallStartsWaiting(s, l, x);
    } else if OfConfirm(l) {
      ConfirmLeavesWaiting(s, l);
    } else {
      OthersLeaveWaiting(s, l);
    }
  }

  lemma CallStartsWaiting(s: State, l: Label, x: Ref)
    requires StoresOk(s) && TodoOk(s) && PcOk(s) && Enabled(s, l) && Typed(s) && (l.RetryStep? || l.Reorganize?)
             && x in s.heap
    requires x in Next(s, l).heap && Next(s, l).heap[x].from == s.heap[x].from && Next(s, l).heap[x].id == s.heap[x].id
    ensures Waiting(Next(s, l), x) && !Waiting(s, x) ==> Moved(s, l) == Some(x)
  {
    if CallOf(s, l).Some? {
      var state := ConfirmCall(s, l);
      WaitingAfterHeadCall(s, Next(s, l), CallOf(s, l).value.result, state, x);
      MovedByHead(s, l);
    } else {
      RetryWriteLeavesWaiting(s);
    }
  }

  lemma WaitingAfterHeadCall(s: State, s': State, r: Result<Ref>, state: TxState, x: Ref)
    requires HasHead(s) && Head(s).tx in s.heap && IsHeadCall(s, s', r, state) && x in s.heap
    ensures Waiting(s', x) && !Waiting(s, x) ==> x == Head(s).tx
  {}

  lemma RetryWriteLeavesWaiting(s: State)
    requires Enabled(s, RetryStep) && Typed(s) && CallOf(s, RetryStep) == None
    ensures var s' := Next(s, RetryStep);
            s'.channel == s.channel && s'.callers == s.callers && Carried(s') == Carried(s)
  {}

  lemma ConfirmLeavesWaiting(s: State, l: Label)
    requires Enabled(s, l) && Typed(s) && OfConfirm(l) && !l.Resend? && !l.Requeue? && !l.RetryStep? && !l.Reorganize?
    ensures Next(s, l).channel == s.channel && Next(s, l).callers == s.callers && Carried(Next(s, l)) == Carried(s)
  {
    ConfirmControlLeavesWaiting(s, l);
  }

  lemma ConfirmControlLeavesWaiting(s: State, l: Label)
    requires Enabled(s, l) && Typed(s) && OfConfirm(l) && !l.Resend? && !l.Requeue? && !l.RetryStep? && !l.Reorganize?
    ensures var c := Control(s, l); c.channel == s.channel && c.callers == s.callers && Carried(c) == Carried(s)
  {
    if l.Examine? || l.AskSolidity? || l.AskFull? { AnswerLeavesWaiting(s, l); }
  }

  lemma AnswerLeavesWaiting(s: State, l: Label)
    requires Enabled(s, l) && Typed(s) && (l.Examine? || l.AskSolidity? || l.AskFull?)
    ensures var c := Control(s, l); c.channel == s.channel && c.callers == s.callers && Carried(c) == Carried(s)
  {}

  lemma OthersLeaveWaiting(s: State, l: Label)
    requires Enabled(s, l) && Typed(s) && !OfConfirm(l) && !l.Insert? && !l.Receive? && !l.Send? && !l.Begin?
    ensures Next(s, l).channel == s.channel && Next(s, l).callers == s.callers && Carried(Next(s, l)) == Carried(s)
  {}

  lemma SendMovesWaiting(s: State, l: Label, x: Ref)
    requires CallersOk(s) && Enabled(s, l) && Typed(s) && (l.Send? || l.Begin? || l.Resend? || l.Requeue?)
    ensures x in s.heap && Waiting(Next(s, l), x) ==> Waiting(s, x)
  {
    if l.Send? { assert CallerOk(s, l.acc, l.id); }
  }

  lemma ReceiveEndsWaiting(s: State, x: Ref)
    requires TokensOk(s) && CallersOk(s) && Enabled(s, Receive) && Typed(s) && x in s.heap
    ensures Waiting(Next(s, Receive), x) ==> Waiting(s, x)
    ensures s.channel[0] == x ==> Waiting(s, x) && !Waiting(Next(s, Receive), x)
  {
    assert CallerOk(s, s.heap[x].from, s.heap[x].id);
  }

  /** The moves of x up to n that ended it before it was confirmed. */
  ghost function FailuresOf(r: Run, n: nat, x: Ref): nat
    requires IsRun(r) && n <= |r.labels|
  {
    if n == 0 then 0
    else
      assert StepAt(r, n - 1);
      FailuresOf(r, n - 1, x) + (if Gain(r.states[n - 1], r.labels[n - 1], x) == 2 then 1 else 0)
  }

  /** The moves an object has made are known from its rank, its reorgs and whether it failed. */
  lemma {:induction false} RankCountsMoves(r: Run, n: nat, x: Ref)
    requires IsRun(r) && n <= |r.labels|
    ensures MovesOf(r, n, x) + FailuresOf(r, n, x) == Rank(r.states[n], x) + 3 * ReorgsOf(r, n, x)
  {
    if n > 0 {
      RankCountsMoves(r, n - 1, x);
      RunKeepsInv(r, n - 1);
      assert StepAt(r, n - 1);
      RankStep(r.states[n - 1], r.labels[n - 1], x);
    }
  }

  lemma {:induction false} UsedBoundsDequeues(r: Run, n: nat, x: Ref)
    requires IsRun(r) && n <= |r.labels|
    ensures DequeuesOf(r, n, x) <= Used(r.states[n], x) + ReorgsOf(r, n, x)
  {
    if n > 0 {
      UsedBoundsDequeues(r, n - 1, x);
      RunKeepsInv(r, n - 1);
      assert StepAt(r, n - 1);
      UsedStep(r.states[n - 1], r.labels[n - 1], x);
    }
  }

  lemma RankLimit(s: State, x: Ref)
    requires Inv(s)
    ensures Rank(s, x) <= 2 * MAX_RETRY_ATTEMPTS + 2 && Used(s, x) <= MAX_RETRY_ATTEMPTS
  {
    assert CountersOk(s, x);
  }

  /** A transaction that was reorged k times is dequeued for broadcast at most 5 + k times, and
      makes at most 12 + 3 k moves from being enqueued to being finished. */
  lemma RetriesAreBounded(r: Run, n: nat, x: Ref)
    requires IsRun(r) && n <= |r.labels|
    ensures DequeuesOf(r, n, x) <= 5 + ReorgsOf(r, n, x)
    ensures MovesOf(r, n, x) <= 12 + 3 * ReorgsOf(r, n, x)
  {
    RankCountsMoves(r, n, x);
    UsedBoundsDequeues(r, n, x);
    RunKeepsInv(r, n);
    RankLimit(r.states[n], x);
  }

  /** In every state, the middle of a retry included, the counters obey the limits of the retry policy. */
  lemma CountersAreBounded(r: Run, n: nat, x: Ref)
    requires IsRun(r) && n <= |r.labels| && x in r.states[n].heap
    ensures var t := r.states[n].heap[x];
            t.attempt <= 5 && t.outOfTime <= 2 && t.bumps + t.outOfTime <= t.attempt - 1
  {
    RunKeepsInv(r, n);
    assert CountersOk(r.states[n], x);
  }
}
