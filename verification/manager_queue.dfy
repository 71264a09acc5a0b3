/** Where the pending transactions are: none is lost on its way to the broadcaster but by a full
    channel or by the broadcaster itself.  And what the confirm loop makes of an answer. */
module ManagerQueue {

  import opened Options
  import opened TxStoreSpec
  import opened Manager
  import opened ManagerInvariant
  import opened ManagerSteps
  import opened ManagerRuns
  import opened ManagerLifecycle

  /** A send of x that the full channel refuses. */
  ghost predicate Dropped(s: State, l: Label, x: Ref) {
    && |s.channel| >= s.capacity
    && ((l.Send? && !l.sent && (l.acc, l.id) in s.callers && s.callers[(l.acc, l.id)] == Inserted(x))
        || ((l.Resend? || l.Requeue?) && !l.sent && Carried(s) == Some(x)))
  }

  /** The broadcaster lets go of x without having published it. */
  ghost predicate GivenUp(s: State, l: Label, x: Ref)
    requires Typed(s) && Enabled(s, l)
  {
    s.hand == Some(x) && (l.GiveUp? || l.Reject? || (l.Publish? && Moved(s, l) == None))
  }

  lemma ReceiveEffect(s: State, l: Label)
    requires Enabled(s, l) && Typed(s) && l.Receive?
    ensures Next(s, l) == s.(hand := Some(s.channel[0]), channel := s.channel[1..])
  {}

  lemma BeginEffect(s: State, l: Label)
    requires Enabled(s, l) && Typed(s) && l.Begin?
    ensures (l.acc, l.id) !in s.callers && Next(s, l) == s.(callers := s.callers[(l.acc, l.id) := Checked])
  {}

  ghost predicate Taken(s: State, l: Label, x: Ref) {
    l.Receive? && s.channel != [] && s.channel[0] == x
  }

  /** On the way to the channel or in it, an object stays until the broadcaster takes it or the
      full channel refuses it. */
  lemma WaitingEnds(s: State, l: Label, x: Ref)
    requires Inv(s) && Enabled(s, l) && Typed(s) && Waiting(s, x) && x in s.heap
    ensures Waiting(Next(s, l), x) || Taken(s, l, x) || Dropped(s, l, x)
  {
    if l.Insert? {
      assert CallerOk(s, l.acc, l.id);
      InsertEffect(s, l.acc, l.id, l.tx);
    } else {
      AttemptsStep(s, l, x);
      if l.RetryStep? || l.Reorganize? { HeadLeavesWaiting(s, l, x); }
      else if l.Receive? || l.Send? || l.Begin? || l.Resend? || l.Requeue? { QueueStep(s, l, x); }
      else if OfConfirm(l) { ConfirmLeavesWaiting(s, l); }
      else { OthersLeaveWaiting(s, l); }
    }
  }

  lemma QueueStep(s: State, l: Label, x: Ref)
    requires Enabled(s, l) && Typed(s) && Waiting(s, x) && x in s.heap
    requires l.Receive? || l.Send? || l.Begin? || l.Resend? || l.Requeue?
    ensures Waiting(Next(s, l), x) || Taken(s, l, x) || Dropped(s, l, x)
  {
    if l.Receive? { ReceiveEffect(s, l); }
    else if l.Send? { SendEffect(s, l); }
    else if l.Begin? { BeginEffect(s, l); }
    else { ResendEffect(s, l); }
  }

  lemma HeadLeavesWaiting(s: State, l: Label, x: Ref)
    requires StoresOk(s) && TodoOk(s) && PcOk(s) && Enabled(s, l) && Typed(s) && (l.RetryStep? || l.Reorganize?)
    requires x in s.heap && Waiting(s, x)
    requires x in Next(s, l).heap && Next(s, l).heap[x].from == s.heap[x].from && Next(s, l).heap[x].id == s.heap[x].id
    ensures Waiting(Next(s, l), x)
  {
    if CallOf(s, l).Some? { var state := ConfirmCall(s, l); } else { RetryWriteLeavesWaiting(s); }
  }

  lemma HandEnds(s: State, l: Label, x: Ref)
    requires Enabled(s, l) && Typed(s) && s.hand == Some(x)
    ensures Next(s, l).hand == Some(x) || GivenUp(s, l, x) || (l.Publish? && Moved(s, l) == Some(x))
  {}

  /** An object that a step makes pending is on its way to the channel. */
  lemma BecomesPending(s: State, l: Label, x: Ref)
    requires Inv(s) && Enabled(s, l) && Typed(s) && Inv(Next(s, l)) && !IsPending(s, x) && IsPending(Next(s, l), x)
    ensures Waiting(Next(s, l), x)
  {
    if l.Insert? {
      assert CallerOk(s, l.acc, l.id);
      InsertEffect(s, l.acc, l.id, l.tx);
      if x != l.tx { InsertKeepsOthersPending(s, Next(s, l), l.acc, l.id, l.tx, x); }
    } else {
      if x !in s.heap { HeapGrowsByInsert(s, l, x); } else { AttemptsStep(s, l, x); }
      if (l.Reorganize? || l.RetryStep?) && CallOf(s, l).Some? { HeadBecomesPending(s, l, x); }
      else { OthersWerePending(s, l, x); }
    }
  }

  lemma OthersWerePending(s: State, l: Label, x: Ref)
    requires Inv(s) && Enabled(s, l) && Typed(s) && Inv(Next(s, l)) && !l.Insert? && IsPending(Next(s, l), x)
    requires (l.Reorganize? || l.RetryStep?) ==> CallOf(s, l) == None
    requires x in s.heap && Next(s, l).heap[x].from == s.heap[x].from && Next(s, l).heap[x].id == s.heap[x].id
    ensures IsPending(s, x)
  {
    var acc, id := s.heap[x].from, s.heap[x].id;
    PhasesExclude(Next(s, l), acc, id);
    if CallOf(s, l) == None { PhaseWithoutCall(s, l, acc, id); } else { PhaseAfterOtherCall(s, l, acc, id); }
    WasPending(s, Next(s, l), x);
  }

  lemma PhaseAfterOtherCall(s: State, l: Label, acc: Addr, id: Id)
    requires Inv(s) && Enabled(s, l) && Typed(s) && !l.Insert? && !l.RetryStep? && !l.Reorganize?
    requires PhaseAt(Next(s, l), acc, id) == AtPending
    ensures PhaseAt(s, acc, id) == PhaseAt(Next(s, l), acc, id) && SameKey(s, Next(s, l), acc, id)
  {
    StepMovesPhase(s, l, acc, id);
  }

  lemma WasPending(s: State, s': State, x: Ref)
    requires StoresOk(s) && StoresOk(s') && IsPending(s', x) && x in s.heap
    requires s'.heap[x].from == s.heap[x].from && s'.heap[x].id == s.heap[x].id
    requires var acc, id := s.heap[x].from, s.heap[x].id;
             PhaseAt(s, acc, id) == PhaseAt(s', acc, id) && SameKey(s, s', acc, id)
    ensures IsPending(s, x)
  {
    var acc, id := s.heap[x].from, s.heap[x].id;
    PhasesExclude(s', acc, id);
    if acc in s.stores { PhasesExclude(s, acc, id); }
  }

  lemma InsertKeepsOthersPending(s: State, s': State, acc: Addr, id: Id, tx: Ref, x: Ref)
    requires tx !in s.heap && acc in s.stores && x != tx && IsPending(s', x)
    requires s' == s.(stores := s.stores[acc := s.stores[acc].(pending := s.stores[acc].pending[id := tx])],
                      heap := s.heap[tx := Tx(acc, id, 1, 0, 0, Pending)],
                      callers := s.callers[(acc, id) := Inserted(tx)])
    ensures IsPending(s, x)
  {}

  lemma HeadBecomesPending(s: State, l: Label, x: Ref)
    requires Inv(s) && Enabled(s, l) && Typed(s) && (l.Reorganize? || l.RetryStep?) && CallOf(s, l).Some?
    requires !IsPending(s, x) && IsPending(Next(s, l), x)
    ensures Carried(Next(s, l)) == Some(x)
  {
    var s' := Next(s, l);
    var state := ConfirmCall(s, l);
    HeadIsCurrent(s);
    var acc, id := s.confirm.acc, s.heap[Head(s).tx].id;
    HeadIsCarried(s, l);
    assert IsPending(s', Head(s).tx);
    if (s'.heap[x].from, s'.heap[x].id) != (acc, id) {
      if s'.heap[x].from == acc { assert SameId(s.stores[acc], s'.stores[acc], s'.heap[x].id); }
    }
  }

  lemma HeadIsCarried(s: State, l: Label)
    requires Enabled(s, l) && Typed(s) && (l.Reorganize? || l.RetryStep?) && CallOf(s, l).Some?
    requires CallOf(s, l).value.result.out == Done
    ensures HasHead(s) && Carried(Next(s, l)) == Some(Head(s).tx)
  {}

  /** Step k loses x on its way: the channel was full, or the broadcaster gave up. */
  ghost predicate LostAt(r: Run, k: nat, x: Ref) {
    && k < |r.labels| && k < |r.states| && Typed(r.states[k]) && Enabled(r.states[k], r.labels[k])
    && (Dropped(r.states[k], r.labels[k], x) || GivenUp(r.states[k], r.labels[k], x))
  }

  /** Every pending object is on the way to the channel, in the channel or in the broadcaster's
      hand, unless the run has a step that found the channel full when sending it, or in which the
      broadcaster gave it up. */
  lemma {:induction false} PendingIsAccountedFor(r: Run, n: nat, x: Ref)
    requires IsRun(r) && n < |r.states| && IsPending(r.states[n], x)
    ensures Waiting(r.states[n], x) || r.states[n].hand == Some(x) || exists k: nat :: k < n && LostAt(r, k, x)
  {
    if n > 0 {
      var s, l := r.states[n - 1], r.labels[n - 1];
      RunKeepsInv(r, n - 1);
      RunKeepsInv(r, n);
      assert StepAt(r, n - 1);
      if IsPending(s, x) {
        PendingIsAccountedFor(r, n - 1, x);
        if Waiting(s, x) {
          WaitingEnds(s, l, x);
          assert Dropped(s, l, x) ==> LostAt(r, n - 1, x);
          if l.Receive? { ReceiveEffect(s, l); }
        } else if s.hand == Some(x) {
          HandEnds(s, l, x);
          assert GivenUp(s, l, x) ==> LostAt(r, n - 1, x);
          if l.Publish? && Moved(s, l) == Some(x) { PublishedIsNotPending(s, l, x); }
        }
      } else {
        BecomesPending(s, l, x);
      }
    }
  }

  lemma PublishedIsNotPending(s: State, l: Label, x: Ref)
    requires Inv(s) && Enabled(s, l) && Typed(s) && l.Publish? && s.hand == Some(x) && Moved(s, l) == Some(x)
    ensures !IsPending(Next(s, l), x)
  {
    PublishEffect(s, l.hash, l.expirationMs);
  }

  // ---------------------------------------------------------------- the balance of the queue

  lemma DroppedWasWaiting(s: State, l: Label, x: Ref)
    requires Inv(s) && Enabled(s, l) && Typed(s) && Dropped(s, l, x)
    ensures x in s.heap && Waiting(s, x) && !Waiting(Next(s, l), x)
  {
    if l.Send? {
      assert CallerOk(s, l.acc, l.id);
      SendEffect(s, l);
    } else {
      ResendEffect(s, l);
      assert CallerOk(s, s.heap[x].from, s.heap[x].id);
    }
  }

  /** The confirm loop's own object is not waiting, and after a retry or a reorg it is. */
  lemma MovedStartsWaiting(s: State, l: Label, x: Ref)
    requires Inv(s) && Enabled(s, l) && Typed(s) && (l.RetryStep? || l.Reorganize?) && Moved(s, l) == Some(x)
    ensures !Waiting(s, x) && Waiting(Next(s, l), x)
  {
    var state := ConfirmCall(s, l);
    MovedByHead(s, l);
    HeadIsCarried(s, l);
    HeadIsNotWaiting(s);
  }

  lemma HeadIsNotWaiting(s: State)
    requires Inv(s) && HasHead(s)
    ensures !Waiting(s, Head(s).tx)
  {
    HeadIsCurrent(s);
    var x := Head(s).tx;
    PhasesExclude(s, s.heap[x].from, s.heap[x].id);
    assert CallerOk(s, s.heap[x].from, s.heap[x].id);
    assert !IsPending(s, x);
  }

  /** What an object has used of its attempts changes exactly by being taken or refused, and by a
      reorg, which gives one back. */
  lemma UsedChanges(s: State, l: Label, x: Ref)
    requires Inv(s) && Enabled(s, l) && Typed(s)
    ensures Used(Next(s, l), x)
            == Used(s, x) + (if Taken(s, l, x) then 1 else 0) + (if Dropped(s, l, x) then 1 else 0)
               - (if l.Reorganize? && Moved(s, l) == Some(x) then 1 else 0)
  {
    if Dropped(s, l, x) { DroppedWasWaiting(s, l, x); }
    if l.Insert? {
      assert CallerOk(s, l.acc, l.id);
      InsertEffect(s, l.acc, l.id, l.tx);
      UsedInsert(s, Next(s, l), l.acc, l.id, l.tx, x);
    } else if x in s.heap {
      AttemptsStep(s, l, x);
      WaitingStep(s, l, x);
      if Waiting(s, x) { WaitingEnds(s, l, x); }
      if (l.RetryStep? || l.Reorganize?) && Moved(s, l) == Some(x) { MovedStartsWaiting(s, l, x); }
    } else {
      HeapGrowsByInsert(s, l, x);
      MovedIsKnown(s, l, x);
    }
  }

  lemma MovedIsKnown(s: State, l: Label, x: Ref)
    requires Inv(s) && Enabled(s, l) && Typed(s)
    ensures l.Reorganize? && Moved(s, l) == Some(x) ==> x in s.heap
  {
    if l.Reorganize? { HeadIsCurrent(s); }
  }

  ghost function DropsOf(r: Run, n: nat, x: Ref): nat
    requires IsRun(r) && n <= |r.labels|
  {
    if n == 0 then 0
    else DropsOf(r, n - 1, x) + (if Dropped(r.states[n - 1], r.labels[n - 1], x) then 1 else 0)
  }

  /** Over a run every attempt and every reorg of an object is spent on one dequeue or one refusal
      by the full channel, but for the one it may be waiting with. */
  lemma {:induction false} QueueIsBalanced(r: Run, n: nat, x: Ref)
    requires IsRun(r) && n <= |r.labels|
    ensures DequeuesOf(r, n, x) + DropsOf(r, n, x) == Used(r.states[n], x) + ReorgsOf(r, n, x)
  {
    if n > 0 {
      QueueIsBalanced(r, n - 1, x);
      RunKeepsInv(r, n - 1);
      assert StepAt(r, n - 1);
      UsedChanges(r.states[n - 1], r.labels[n - 1], x);
    }
  }

  // ---------------------------------------------------------------- first in, first out

  /** The object that a step puts into the channel. */
  ghost function Put(s: State, l: Label): seq<Ref>
    requires Typed(s) && Enabled(s, l)
  {
    if l.Send? && l.sent then [s.callers[(l.acc, l.id)].tx]
    else if (l.Resend? || l.Requeue?) && l.sent then [s.confirm.tx]
    else []
  }

  lemma ChannelStep(s: State, l: Label)
    requires Enabled(s, l) && Typed(s)
    ensures if l.Receive? then [s.channel[0]] + Next(s, l).channel == s.channel && Put(s, l) == []
            else Next(s, l).channel == s.channel + Put(s, l)
    ensures Put(s, l) != [] ==> |s.channel| < s.capacity || (s.capacity == 0 && s.channel == [])
    ensures Next(s, l).capacity == s.capacity
  {
    if l.Receive? { ReceiveEffect(s, l); }
    else if l.Send? { SendEffect(s, l); }
    else if l.Resend? || l.Requeue? { ResendEffect(s, l); }
    else if l.Examine? { ExamineKeepsChannel(s, l); }
    else if l.RetryStep? || l.Reorganize? { CallKeepsChannel(s, l); }
    else { OthersKeepChannel(s, l); }
  }

  lemma ExamineKeepsChannel(s: State, l: Label)
    requires Enabled(s, l) && Typed(s) && l.Examine?
    ensures Control(s, l).channel == s.channel && Control(s, l).capacity == s.capacity
  {}

  lemma CallKeepsChannel(s: State, l: Label)
    requires Enabled(s, l) && Typed(s) && (l.RetryStep? || l.Reorganize?)
    ensures Control(s, l).channel == s.channel && Control(s, l).capacity == s.capacity
  {}

  lemma OthersKeepChannel(s: State, l: Label)
    requires Enabled(s, l) && Typed(s) && !l.Receive? && !l.Send? && !l.Resend? && !l.Requeue?
    requires !l.Examine? && !l.RetryStep? && !l.Reorganize?
    ensures Control(s, l).channel == s.channel && Control(s, l).capacity == s.capacity
  {}

  ghost function SentOf(r: Run, n: nat): seq<Ref>
    requires IsRun(r) && n <= |r.labels|
  {
    if n == 0 then []
    else
      assert StepAt(r, n - 1);
      SentOf(r, n - 1) + Put(r.states[n - 1], r.labels[n - 1])
  }

  ghost function ReceivedOf(r: Run, n: nat): seq<Ref>
    requires IsRun(r) && n <= |r.labels|
  {
    if n == 0 then []
    else
      assert StepAt(r, n - 1);
      ReceivedOf(r, n - 1) + if r.labels[n - 1].Receive? then [r.states[n - 1].channel[0]] else []
  }

  /** What was sent has been received, in the order of the sends, but for what is in the channel, which
      never holds more than it has room for, or one object on its way if it is unbuffered. */
  lemma {:induction false} FirstInFirstOut(r: Run, n: nat)
    requires IsRun(r) && n <= |r.labels|
    ensures SentOf(r, n) == ReceivedOf(r, n) + r.states[n].channel
    ensures |r.states[n].channel| <= if r.states[n].capacity == 0 then 1 else r.states[n].capacity
  {
    if n > 0 {
      FirstInFirstOut(r, n - 1);
      assert StepAt(r, n - 1);
      ChannelStep(r.states[n - 1], r.labels[n - 1]);
    }
  }

  // ---------------------------------------------------------------- what is lost stays lost

  /** Pending, but neither on the way to the channel nor in it nor in the broadcaster's hand. */
  ghost predicate Stuck(s: State, x: Ref) {
    IsPending(s, x) && !Waiting(s, x) && s.hand != Some(x)
  }

  lemma PublishLeavesOthers(s: State, l: Label, x: Ref)
    requires Inv(s) && Enabled(s, l) && Typed(s) && l.Publish? && IsPending(s, x) && s.hand != Some(x)
    ensures IsPending(Next(s, l), x)
  {
    PublishEffect(s, l.hash, l.expirationMs);
  }

  lemma StillPending(s: State, s': State, x: Ref)
    requires StoresOk(s) && StoresOk(s') && IsPending(s, x) && x in s'.heap
    requires s'.heap[x].from == s.heap[x].from && s'.heap[x].id == s.heap[x].id
    requires SameKey(s, s', s.heap[x].from, s.heap[x].id)
    ensures IsPending(s', x)
  {}

  /** Only the broadcaster's publishing takes an object out of the pending ones. */
  lemma PendingStays(s: State, l: Label, x: Ref)
    requires Inv(s) && Enabled(s, l) && Typed(s) && Inv(Next(s, l)) && IsPending(s, x) && s.hand != Some(x)
    ensures IsPending(Next(s, l), x)
  {
    var acc, id := s.heap[x].from, s.heap[x].id;
    PhasesExclude(s, acc, id);
    if l.Publish? {
      PublishLeavesOthers(s, l, x);
    } else if l.Insert? {
      assert CallerOk(s, l.acc, l.id);
      InsertEffect(s, l.acc, l.id, l.tx);
    } else {
      AttemptsStep(s, l, x);
      PendingKeyStays(s, l, acc, id);
      StillPending(s, Next(s, l), x);
    }
  }

  lemma PendingKeyStays(s: State, l: Label, acc: Addr, id: Id)
    requires Inv(s) && Enabled(s, l) && Typed(s) && !l.Publish? && PhaseAt(s, acc, id) == AtPending
    ensures SameKey(s, Next(s, l), acc, id)
  {
    StepMovesPhase(s, l, acc, id);
  }

  lemma HandStarts(s: State, l: Label, x: Ref)
    requires Enabled(s, l) && Typed(s) && s.hand != Some(x)
    ensures Next(s, l).hand == Some(x) <==> Taken(s, l, x)
  {
    if l.Examine? || l.RetryStep? || l.Reorganize? { AnswerKeepsHand(s, l); }
    else if OfConfirm(l) { ConfirmKeepsHand(s, l); }
    else if l.Receive? { ReceiveEffect(s, l); }
  }

  lemma AnswerKeepsHand(s: State, l: Label)
    requires Enabled(s, l) && Typed(s) && (l.Examine? || l.RetryStep? || l.Reorganize?)
    ensures Next(s, l).hand == s.hand
  {}

  lemma ConfirmKeepsHand(s: State, l: Label)
    requires Enabled(s, l) && Typed(s) && OfConfirm(l) && !(l.Examine? || l.RetryStep? || l.Reorganize?)
    ensures Next(s, l).hand == s.hand
  {}

  /** Nothing brings a stuck object back. */
  lemma StuckStays(s: State, l: Label, x: Ref)
    requires Inv(s) && Enabled(s, l) && Typed(s) && Inv(Next(s, l)) && Stuck(s, x)
    ensures Stuck(Next(s, l), x)
  {
    PendingStays(s, l, x);
    HandStarts(s, l, x);
    if l.Insert? {
      assert CallerOk(s, l.acc, l.id);
      InsertEffect(s, l.acc, l.id, l.tx);
    } else {
      AttemptsStep(s, l, x);
      WaitingStep(s, l, x);
      if l.RetryStep? || l.Reorganize? { MovedWasNotPending(s, l, x); }
    }
  }

  lemma MovedWasNotPending(s: State, l: Label, x: Ref)
    requires Inv(s) && Enabled(s, l) && Typed(s) && (l.RetryStep? || l.Reorganize?)
    ensures Moved(s, l) == Some(x) ==> !IsPending(s, x)
  {
    HeadIsCurrent(s);
    PhasesExclude(s, s.heap[Head(s).tx].from, s.heap[Head(s).tx].id);
  }

  /** What a step loses is stuck after it. */
  lemma LostIsStuck(s: State, l: Label, x: Ref)
    requires Inv(s) && Enabled(s, l) && Typed(s) && Inv(Next(s, l)) && (Dropped(s, l, x) || GivenUp(s, l, x))
    ensures Stuck(Next(s, l), x)
  {
    if Dropped(s, l, x) {
      DroppedWasWaiting(s, l, x);
      DroppedWasPending(s, l, x);
      PendingStays(s, l, x);
      HandStarts(s, l, x);
    } else {
      GivenUpStays(s, l, x);
    }
  }

  lemma DroppedWasPending(s: State, l: Label, x: Ref)
    requires Inv(s) && Enabled(s, l) && Typed(s) && Dropped(s, l, x)
    ensures IsPending(s, x) && s.hand != Some(x)
  {
    if l.Send? { assert CallerOk(s, l.acc, l.id); }
  }

  /** Giving up leaves everything but the hand as it was: the broadcaster's OnFatalError and a
      refused OnBroadcasted change nothing. */
  lemma GivenUpStays(s: State, l: Label, x: Ref)
    requires Inv(s) && Enabled(s, l) && Typed(s) && GivenUp(s, l, x)
    ensures Stuck(Next(s, l), x)
  {
    assert CallerOk(s, s.heap[x].from, s.heap[x].id);
    if l.Reject? {
      RejectKeepsInv(s);
    } else if l.Publish? {
      PublishEffect(s, l.hash, l.expirationMs);
      PublishKeepsInv(s, l.hash, l.expirationMs);
    }
  }

  lemma {:induction false} LostStaysStuck(r: Run, k: nat, n: nat, x: Ref)
    requires IsRun(r) && k < n < |r.states| && LostAt(r, k, x)
    ensures Stuck(r.states[n], x)
    decreases n
  {
    RunKeepsInv(r, n - 1);
    RunKeepsInv(r, n);
    assert StepAt(r, n - 1);
    if k == n - 1 {
      LostIsStuck(r.states[k], r.labels[k], x);
    } else {
      LostStaysStuck(r, k, n - 1, x);
      StuckStays(r.states[n - 1], r.labels[n - 1], x);
    }
  }

  /** An object that is lost stays pending and unqueued for good, and only such an object is: in a
      state of a run it is stuck if and only if an earlier step found the channel full when sending
      it, or had the broadcaster give it up. */
  lemma StuckIffLost(r: Run, n: nat, x: Ref)
    requires IsRun(r) && n < |r.states|
    ensures Stuck(r.states[n], x) <==> exists k: nat :: k < n && LostAt(r, k, x)
  {
    if Stuck(r.states[n], x) { PendingIsAccountedFor(r, n, x); }
    if k: nat :| k < n && LostAt(r, k, x) { LostStaysStuck(r, k, n, x); }
  }

  // ---------------------------------------------------------------- what an answer leads to

  /** The results of a receipt that no retry can change. */
  predicate IsFatal(result: string) {
    || result == "REVERT" || result == "BAD_JUMP_DESTINATION" || result == "OUT_OF_MEMORY"
    || result == "STACK_TOO_SMALL" || result == "STACK_TOO_LARGE" || result == "ILLEGAL_OPERATION"
    || result == "STACK_OVERFLOW" || result == "JVM_STACK_OVER_FLOW" || result == "TRANSFER_FAILED"
    || result == "INVALID_CODE"
  }

  /** How the confirm loop is to take an answer: success confirms, a fatal result ends the
      transaction, silence waits until the expiration, and everything else retries or, when the
      attempts are used up, ends it as errored. */
  ghost predicate Answered(s: State, s': State, answer: Answer)
    requires HasHead(s) && Head(s).tx in s.heap && s.confirm.Examining?
  {
    var acc, e := s.confirm.acc, Head(s);
    var t := s.heap[e.tx];
    var q := PhaseAt(s', acc, t.id);
    if answer == Receipt("SUCCESS") then q == AtConfirmed
    else if answer.Receipt? && IsFatal(answer.result) then q == Ended(FatallyErrored)
    else if answer == Missing && s.confirm.ts <= e.expirationMs then s' == s.(todo := Pop(s))
    else if t.attempt >= 5 || t.outOfTime >= 2 then q == Ended(Errored)
    else
      var bump, slow := answer == Receipt("OUT_OF_ENERGY"), answer == Receipt("OUT_OF_TIME");
      s' == s.(confirm := Retrying(acc, s.confirm.ts, 0, bump, slow))
  }

  lemma AnswerDecides(s: State, answer: Answer)
    requires Inv(s) && Enabled(s, Examine(answer)) && Typed(s)
    ensures Head(s).tx in s.heap && Answered(s, Next(s, Examine(answer)), answer)
  {
    HeadIsCurrent(s);
    if CallOf(s, Examine(answer)).Some? { CallDecides(s, answer); } else { NoCallDecides(s, answer); }
  }

  lemma CallDecides(s: State, answer: Answer)
    requires Inv(s) && Enabled(s, Examine(answer)) && Typed(s) && CallOf(s, Examine(answer)).Some?
             && Head(s).tx in s.heap
    ensures Answered(s, Next(s, Examine(answer)), answer)
  {
    var acc, id, l := s.confirm.acc, s.heap[Head(s).tx].id, Examine(answer);
    StepKeepsInv(s, l);
    ExamineOpApplies(s, answer);
    OpMovesHead(s, Next(s, l), ExamineOp(s, answer));
    OpOfAnswer(s, answer);
  }

  /** The op of an answer and what leads to it. */
  lemma OpOfAnswer(s: State, answer: Answer)
    requires Enabled(s, Examine(answer)) && Typed(s) && CallOf(s, Examine(answer)).Some?
    ensures var op := ExamineOp(s, answer);
            if answer == Receipt("SUCCESS") then op.Confirm?
            else if answer.Receipt? && IsFatal(answer.result) then op.Fatal?
            else op.Error? && (s.heap[Head(s).tx].attempt >= 5 || s.heap[Head(s).tx].outOfTime >= 2)
                 && !(answer == Missing && s.confirm.ts <= Head(s).expirationMs)
  {}

  lemma OpMovesHead(s: State, s': State, op: Op<Ref>)
    requires StoresOk(s) && StoresOk(s') && HasHead(s) && Head(s).tx in s.heap && s.confirm.Examining?
             && s'.confirm == s.confirm
    requires AppliesOp(s, s', s.heap, op) && Apply(s.stores[s.confirm.acc], s.heap, op).out == Done
    ensures var acc, id := s.confirm.acc, s.heap[Head(s).tx].id; Edge(PhaseAt(s, acc, id), op, PhaseAt(s', acc, id))
  {
    var acc, id := s.confirm.acc, s.heap[Head(s).tx].id;
    assert StoreOk(s, acc);
    ApplyFollowsLifecycle(s.stores[acc], s.heap, op, id);
    PhasesExclude(s, acc, id);
    PhasesExclude(s', acc, id);
  }

  lemma NoCallDecides(s: State, answer: Answer)
    requires Enabled(s, Examine(answer)) && Typed(s) && CallOf(s, Examine(answer)) == None && Head(s).tx in s.heap
    ensures Answered(s, Next(s, Examine(answer)), answer)
  {}
}
