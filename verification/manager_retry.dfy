/** The steps of maybeRetry, when no other goroutine interferes, do what the method of the same name
    does in one go. */
module ManagerRetry {

  import opened Options
  import opened TxStoreSpec
  import opened Manager
  import opened ManagerInvariant
  import opened ManagerSteps
  import opened ManagerLifecycle
  import opened ManagerQueue

  /** n retry steps of the confirm loop in a row take s to s'. */
  ghost predicate Undisturbed(s: State, n: nat, s': State)
    decreases n
  {
    if n == 0 then s' == s
    else Typed(s) && Enabled(s, RetryStep) && Undisturbed(Next(s, RetryStep), n - 1, s')
  }

  /** The object at the head with k of the four fields of a retry written. */
  ghost function Written(t: Tx, k: nat, bump: bool, slow: bool): Tx {
    if k == 0 then t else RetryWrite(Written(t, k - 1, bump, slow), k - 1, bump, slow)
  }

  ghost function AtStage(s: State, k: nat): State
    requires s.confirm.Retrying? && HasHead(s) && Head(s).tx in s.heap
  {
    var c, tx := s.confirm, Head(s).tx;
    s.(confirm := c.(stage := k), heap := s.heap[tx := Written(s.heap[tx], k, c.bump, c.slow)])
  }

  lemma {:induction false} OneMore(s: State, n: nat, m: State)
    requires Undisturbed(s, n, m) && Typed(m) && Enabled(m, RetryStep)
    ensures Undisturbed(s, n + 1, Next(m, RetryStep))
    decreases n
  {
    if n > 0 { OneMore(Next(s, RetryStep), n - 1, m); }
  }

  lemma {:induction false} WritesInTurn(s: State, k: nat)
    requires Inv(s) && s.confirm.Retrying? && s.confirm.stage == 0 && k <= 4
    ensures HasHead(s) && Head(s).tx in s.heap && Inv(AtStage(s, k)) && Undisturbed(s, k, AtStage(s, k))
  {
    HeadIsCurrent(s);
    if k == 0 {
      assert AtStage(s, 0) == s;
    } else {
      WritesInTurn(s, k - 1);
      NextWrite(s, k - 1);
    }
  }

  lemma NextWrite(s: State, k: nat)
    requires s.confirm.Retrying? && HasHead(s) && Head(s).tx in s.heap && k < 4
    requires Inv(AtStage(s, k)) && Undisturbed(s, k, AtStage(s, k))
    ensures Inv(AtStage(s, k + 1)) && Undisturbed(s, k + 1, AtStage(s, k + 1))
  {
    WriteStep(s, k);
    StepKeepsInv(AtStage(s, k), RetryStep);
    OneMore(s, k, AtStage(s, k));
  }

  lemma WriteStep(s: State, k: nat)
    requires s.confirm.Retrying? && HasHead(s) && Head(s).tx in s.heap && k < 4 && Inv(AtStage(s, k))
    ensures var m := AtStage(s, k);
            Typed(m) && Enabled(m, RetryStep) && Next(m, RetryStep) == AtStage(s, k + 1)
  {
    var c, tx, m := s.confirm, Head(s).tx, AtStage(s, k);
    InvTyped(m);
    RetryWriteEffect(m);
    var t := Written(s.heap[tx], k, c.bump, c.slow);
    assert m.heap[tx] == t;
    OverwriteTwice(s.heap, tx, t, RetryWrite(t, k, c.bump, c.slow));
  }

  lemma OverwriteTwice(h: map<Ref, Tx>, x: Ref, t: Tx, u: Tx)
    ensures h[x := t][x := u] == h[x := u]
  {}

  lemma WrittenIsRaised(t: Tx, bump: bool, slow: bool)
    ensures Written(t, 4, bump, slow) == Raised(t, bump, slow).(state := Pending)
  {
    assert Written(t, 1, bump, slow) == RetryWrite(t, 0, bump, slow);
    var two := Written(t, 2, bump, slow);
    assert two == RetryWrite(Written(t, 1, bump, slow), 1, bump, slow);
    assert Written(t, 3, bump, slow) == RetryWrite(two, 2, bump, slow);
  }

  /** The state after an undisturbed retry, before the send. */
  ghost function Retried(s: State): State
    requires s.confirm.Retrying? && HasHead(s) && Head(s).tx in s.heap && s.confirm.acc in s.stores
  {
    var c, e := s.confirm, Head(s);
    var t := s.heap[e.tx];
    s.(stores := s.stores[c.acc := Resubmitted(s.stores[c.acc], e, t.id)],
       heap := s.heap[e.tx := Raised(t, c.bump, c.slow).(state := Pending)],
       todo := Pop(s),
       confirm := Resending(c.acc, c.ts, e.tx))
  }

  lemma FiledStep(s: State)
    requires Inv(s) && s.confirm.Retrying? && s.confirm.stage == 4
    ensures Typed(s) && Enabled(s, RetryStep) && Head(s).tx in s.heap && s.confirm.acc in s.stores
    ensures var c, e := s.confirm, Head(s);
            Next(s, RetryStep) == s.(stores := s.stores[c.acc := Resubmitted(s.stores[c.acc], e, s.heap[e.tx].id)],
                                     todo := Pop(s), confirm := Resending(c.acc, c.ts, e.tx))
  {
    InvTyped(s);
    HeadIsCurrent(s);
    assert StoreOk(s, s.confirm.acc);
    RetryIsDone(s);
    RetryEffect(s);
  }

  lemma RetriedIsReached(s: State)
    requires Inv(s) && s.confirm.Retrying? && s.confirm.stage == 0
    requires HasHead(s) && Head(s).tx in s.heap && s.confirm.acc in s.stores
    ensures Undisturbed(s, 5, Retried(s)) && Inv(Retried(s))
  {
    WritesInTurn(s, 4);
    var s4 := AtStage(s, 4);
    FiledStep(s4);
    StepKeepsInv(s4, RetryStep);
    OneMore(s, 4, s4);
    LastStageIsRetried(s);
  }

  /** Five undisturbed steps of a retry raise the counters, mark the object and file it as pending,
      exactly as maybeRetry's method does, and the send that follows puts it at the end of a channel
      that has room. */
  lemma FiveStepsAreOneRetry(s: State)
    requires Inv(s) && s.confirm.Retrying? && s.confirm.stage == 0
    ensures HasHead(s) && Head(s).tx in s.heap && s.confirm.acc in s.stores
    ensures Undisturbed(s, 5, Retried(s)) && Typed(Retried(s))
    ensures s.capacity > 0 ==>
              forall sent :: Enabled(Retried(s), Resend(sent)) ==>
                Next(Retried(s), Resend(sent)).channel
                == s.channel + if |s.channel| < s.capacity then [Head(s).tx] else []
  {
    HeadIsCurrent(s);
    RetriedIsReached(s);
    InvTyped(Retried(s));
    if s.capacity > 0 { SendAfterRetry(Retried(s)); }
  }

  lemma LastStageIsRetried(s: State)
    requires s.confirm.Retrying? && HasHead(s) && Head(s).tx in s.heap && s.confirm.acc in s.stores
    ensures var s4, c, e := AtStage(s, 4), s.confirm, Head(s);
            && HasHead(s4) && Head(s4) == e && Pop(s4) == Pop(s) && e.tx in s4.heap
            && s4.(stores := s4.stores[c.acc := Resubmitted(s4.stores[c.acc], e, s4.heap[e.tx].id)],
                   todo := Pop(s4), confirm := Resending(c.acc, c.ts, e.tx)) == Retried(s)
  {
    WrittenIsRaised(s.heap[Head(s).tx], s.confirm.bump, s.confirm.slow);
  }

  lemma SendAfterRetry(s: State)
    requires s.confirm.Resending? && Typed(s) && s.capacity > 0
    ensures forall sent :: Enabled(s, Resend(sent)) ==>
              Next(s, Resend(sent)).channel == s.channel + if |s.channel| < s.capacity then [s.confirm.tx] else []
  {
    forall sent | Enabled(s, Resend(sent))
      ensures Next(s, Resend(sent)).channel == s.channel + if |s.channel| < s.capacity then [s.confirm.tx] else []
    {
      ResendEffect(s, Resend(sent));
    }
  }

  /** The answers that neither confirm a record nor condemn it nor leave it to the next pass. */
  predicate AsksForRetry(answer: Answer, ts: int, expirationMs: int) {
    if answer.Missing? then expirationMs < ts else answer.result != "SUCCESS" && !IsFatal(answer.result)
  }

  /** What a retry makes of an object: one more attempt, one more bump of its energy if bump, one more
      out-of-time error if slow. */
  ghost function Again(t: Tx, bump: bool, slow: bool): Tx {
    Tx(t.from, t.id, t.attempt + 1, if slow then t.outOfTime + 1 else t.outOfTime,
       if bump then t.bumps + 1 else t.bumps, Pending)
  }

  /** From s to s' the object x, and no other, is tried again: it is pending and on its way to the
      channel. */
  ghost predicate IsAgain(s: State, s': State, x: Ref, bump: bool, slow: bool) {
    x in s.heap && s'.heap == s.heap[x := Again(s.heap[x], bump, slow)] && IsPending(s', x) && Carried(s') == Some(x)
  }

  /** Such an answer has an object with fewer than five attempts and fewer than two out-of-time errors
      tried again, and ends any other as errored.  The retry, if nothing interferes, takes five steps,
      after which the object is pending and on its way to the channel, with one more attempt, one more
      bump exactly if it was out of energy, and one more out-of-time error exactly if it was that. */
  lemma RetriedOrErrored(s: State, answer: Answer) returns (s': State)
    requires Inv(s) && Enabled(s, Examine(answer)) && Typed(s)
    requires AsksForRetry(answer, s.confirm.ts, Head(s).expirationMs)
    ensures Head(s).tx in s.heap
    ensures var x := Head(s).tx;
            var t := s.heap[x];
            if t.attempt < 5 && t.outOfTime < 2 then
              && Undisturbed(Next(s, Examine(answer)), 5, s')
              && IsAgain(s, s', x, answer == Receipt("OUT_OF_ENERGY"), answer == Receipt("OUT_OF_TIME"))
            else PhaseAt(Next(s, Examine(answer)), s.confirm.acc, t.id) == Ended(Errored)
  {
    AnswerDecides(s, answer);
    s' := Next(s, Examine(answer));
    var t := s.heap[Head(s).tx];
    if t.attempt < 5 && t.outOfTime < 2 {
      StepKeepsInv(s, Examine(answer));
      s' := RetryAfter(s, s');
    }
  }

  lemma RetryAfter(s: State, s1: State) returns (s': State)
    requires HasHead(s) && s.confirm.Examining? && Inv(s1) && s1.confirm.Retrying? && s1.confirm.stage == 0
    requires s1 == s.(confirm := s1.confirm) && s1.confirm.acc == s.confirm.acc
    ensures Undisturbed(s1, 5, s') && IsAgain(s, s', Head(s).tx, s1.confirm.bump, s1.confirm.slow)
  {
    RetryRuns(s1);
    s' := Retried(s1);
  }

  lemma RetryRuns(s: State)
    requires Inv(s) && s.confirm.Retrying? && s.confirm.stage == 0
    ensures HasHead(s) && Head(s).tx in s.heap && s.confirm.acc in s.stores && Undisturbed(s, 5, Retried(s))
    ensures IsAgain(s, Retried(s), Head(s).tx, s.confirm.bump, s.confirm.slow)
  {
    HeadIsCurrent(s);
    RetriedIsReached(s);
    RetriedIsCarried(s);
  }

  lemma RetriedIsCarried(s: State)
    requires s.confirm.Retrying? && HasHead(s) && Head(s).tx in s.heap && s.confirm.acc in s.stores
    requires s.heap[Head(s).tx].from == s.confirm.acc
    ensures IsAgain(s, Retried(s), Head(s).tx, s.confirm.bump, s.confirm.slow)
  {}

  /** A record whose attempts are used up is filed as maybeRetry's method files it. */
  lemma ExhaustedIsAbandoned(s: State, answer: Answer)
    requires Inv(s) && Enabled(s, Examine(answer)) && Typed(s)
    requires Decide(Head(s).expirationMs, s.confirm.ts, answer).MaybeRetry? && Exhausted(s.heap[Head(s).tx])
    ensures var s', acc, e := Next(s, Examine(answer)), s.confirm.acc, Head(s);
            var t := s.heap[e.tx];
            && acc in s.stores
            && s'.stores == s.stores[acc := Abandoned(s.stores[acc], e, t.id, s.now)]
            && s'.heap == s.heap[e.tx := t.(state := Errored)]
            && s'.channel == s.channel
  {}
}
