/** Runs of the manager from the start: a transaction that is broadcast, and then reverted, or found by
    the full node alone, or tried as often as can be. */
module ManagerScenarios {

  import opened Options
  import opened TxStoreSpec
  import opened Manager
  import opened ManagerInvariant
  import opened ManagerSteps
  import opened ManagerRuns
  import opened ManagerLifecycle
  import opened ManagerQueue
  import opened ManagerRetry

  ghost predicate EndsIn(r: Run, s: State) {
    IsRun(r) && r.states[|r.states| - 1] == s
  }

  lemma Extend(r: Run, s: State, l: Label) returns (r': Run)
    requires EndsIn(r, s) && Enabled(s, l)
    ensures Inv(s) && Typed(s) && EndsIn(r', Next(s, l)) && Inv(Next(s, l))
    ensures r'.states == r.states + [Next(s, l)] && r'.labels == r.labels + [l]
  {
    EndsTyped(r, s);
    StepKeepsInv(s, l);
    r' := Run(r.states + [Next(s, l)], r.labels + [l]);
    forall i | 0 <= i < |r'.labels| ensures StepAt(r', i) {
      assert i < |r.labels| ==> StepAt(r, i);
    }
  }

  lemma EndsTyped(r: Run, s: State)
    requires EndsIn(r, s)
    ensures Inv(s) && Typed(s)
  {
    RunKeepsInv(r, |r.states| - 1);
    InvTyped(s);
  }

  /** No reorg, no hit on the solidity node, and no send that finds the channel full. */
  predicate Smooth(l: Label) {
    !l.Reorganize? && l != AskSolidity(true) && (l.Send? || l.Resend? || l.Requeue? ==> l.sent)
  }

  ghost predicate Smoothly(r: Run, s: State) {
    EndsIn(r, s) && forall k :: 0 <= k < |r.labels| ==> Smooth(r.labels[k])
  }

  lemma Go(r: Run, s: State, l: Label, s': State) returns (r': Run)
    requires Smoothly(r, s) && Typed(s) && Enabled(s, l) && Smooth(l) && s' == Next(s, l)
    ensures Smoothly(r', s') && r'.labels == r.labels + [l]
  {
    r' := Extend(r, s, l);
  }

  lemma OpenStoreEffect(s: State, acc: Addr)
    requires Typed(s)
    ensures Next(s, OpenStore(acc)) == s.(stores := s.stores[acc := StoreOf(s, acc)])
  {}

  // ---------------------------------------------------------------- a pass of the confirm loop

  lemma StartEffect(s: State)
    requires Typed(s) && s.confirm == Idle && s.stores.Keys == {"A"}
    ensures Enabled(s, StartPass) && Next(s, StartPass) == s.(confirm := Snapping(ForReceipts, {"A"}))
  {}

  lemma SnapEffect(s: State, ids: seq<Id>)
    requires Typed(s) && s.confirm.Snapping? && s.confirm.left == {"A"} && s.todo == map[] && "A" in s.stores
    requires Enumerates(ids, Inflights(s.stores["A"], s.confirm.kind))
    ensures Enabled(s, Snap("A", ids))
    ensures Next(s, Snap("A", ids)) == s.(confirm := Snapping(s.confirm.kind, {}),
                                          todo := map["A" := Records(ids, Inflights(s.stores["A"], s.confirm.kind))])
  {
    assert {"A"} - {"A"} == {};
  }

  lemma ChooseEffect(s: State, ts: int)
    requires Typed(s) && s.confirm.Choosing? && "A" in s.todo
    ensures Enabled(s, Choose("A", ts))
    ensures Next(s, Choose("A", ts))
            == s.(confirm := if s.confirm.kind == ForReceipts then Examining("A", ts) else Finalizing("A"))
  {}

  lemma EndSnapEffect(s: State)
    requires Typed(s) && s.confirm.Snapping? && s.confirm.left == {}
    ensures Enabled(s, EndSnap) && Next(s, EndSnap) == s.(confirm := Choosing(s.confirm.kind))
  {}

  lemma RunToSnap(r: Run, s: State, ids: seq<Id>) returns (r': Run)
    requires Smoothly(r, s) && s.confirm.Snapping? && s.confirm.left == {"A"} && s.todo == map[] && "A" in s.stores
    requires Enumerates(ids, Inflights(s.stores["A"], s.confirm.kind))
    ensures Smoothly(r', s.(confirm := Snapping(s.confirm.kind, {}),
                            todo := map["A" := Records(ids, Inflights(s.stores["A"], s.confirm.kind))]))
  {
    EndsTyped(r, s);
    SnapEffect(s, ids);
    r' := Go(r, s, Snap("A", ids), Next(s, Snap("A", ids)));
  }

  lemma RunToChoice(r: Run, s: State) returns (r': Run)
    requires Smoothly(r, s) && s.confirm.Snapping? && s.confirm.left == {}
    ensures Smoothly(r', s.(confirm := Choosing(s.confirm.kind)))
  {
    EndsTyped(r, s);
    EndSnapEffect(s);
    r' := Go(r, s, EndSnap, s.(confirm := Choosing(s.confirm.kind)));
  }

  lemma RunToChosen(r: Run, s: State, ts: int) returns (r': Run)
    requires Smoothly(r, s) && s.confirm.Choosing? && "A" in s.todo
    ensures Smoothly(r', s.(confirm := if s.confirm.kind == ForReceipts then Examining("A", ts) else Finalizing("A")))
  {
    EndsTyped(r, s);
    ChooseEffect(s, ts);
    r' := Go(r, s, Choose("A", ts), Next(s, Choose("A", ts)));
  }

  /** The snapshot of the one account there is, up to its list. */
  lemma RunToList(r: Run, s: State, ids: seq<Id>, ts: int) returns (r': Run)
    requires Smoothly(r, s) && s.confirm.Snapping? && s.confirm.left == {"A"} && s.todo == map[] && "A" in s.stores
    requires Enumerates(ids, Inflights(s.stores["A"], s.confirm.kind))
    ensures Smoothly(r', s.(confirm := if s.confirm.kind == ForReceipts then Examining("A", ts) else Finalizing("A"),
                            todo := map["A" := Records(ids, Inflights(s.stores["A"], s.confirm.kind))]))
  {
    r' := RunToSnap(r, s, ids);
    var s1 := s.(confirm := Snapping(s.confirm.kind, {}),
                 todo := map["A" := Records(ids, Inflights(s.stores["A"], s.confirm.kind))]);
    r' := RunToChoice(r', s1);
    r' := RunToChosen(r', s1.(confirm := Choosing(s.confirm.kind)), ts);
  }

  lemma RunToPass(r: Run, s: State) returns (r': Run)
    requires Smoothly(r, s) && s.confirm == Idle && s.stores.Keys == {"A"}
    ensures Smoothly(r', s.(confirm := Snapping(ForReceipts, {"A"})))
  {
    EndsTyped(r, s);
    StartEffect(s);
    r' := Go(r, s, StartPass, s.(confirm := Snapping(ForReceipts, {"A"})));
  }

  lemma LeaveEffect(s: State)
    requires Typed(s) && (s.confirm == Finalizing("A") || (s.confirm.Examining? && s.confirm.acc == "A"))
    requires s.todo == map["A" := []]
    ensures Enabled(s, Leave)
    ensures Next(s, Leave) == s.(todo := map[],
                                 confirm := Choosing(if s.confirm.Examining? then ForReceipts else ForFinality))
  {
    assert s.todo - {"A"} == map[];
  }

  lemma EndPassEffect(s: State)
    requires Typed(s) && s.confirm.Choosing? && s.todo == map[] && s.stores.Keys == {"A"}
    ensures Enabled(s, EndPass)
    ensures Next(s, EndPass)
            == s.(confirm := if s.confirm.kind == ForReceipts then Snapping(ForFinality, {"A"}) else Idle)
  {}

  lemma RunToLeave(r: Run, s: State) returns (r': Run)
    requires Smoothly(r, s) && (s.confirm == Finalizing("A") || (s.confirm.Examining? && s.confirm.acc == "A"))
    requires s.todo == map["A" := []]
    ensures Smoothly(r', s.(todo := map[],
                            confirm := Choosing(if s.confirm.Examining? then ForReceipts else ForFinality)))
  {
    EndsTyped(r, s);
    LeaveEffect(s);
    r' := Go(r, s, Leave, Next(s, Leave));
  }

  lemma RunToEnd(r: Run, s: State) returns (r': Run)
    requires Smoothly(r, s) && s.confirm.Choosing? && s.todo == map[] && s.stores.Keys == {"A"}
    ensures Smoothly(r', s.(confirm := if s.confirm.kind == ForReceipts then Snapping(ForFinality, {"A"}) else Idle))
  {
    EndsTyped(r, s);
    EndPassEffect(s);
    r' := Go(r, s, EndPass, Next(s, EndPass));
  }

  lemma RunToSecondPass(r: Run, s: State) returns (r': Run)
    requires Smoothly(r, s) && s.confirm.Examining? && s.confirm.acc == "A" && s.todo == map["A" := []]
    requires s.stores.Keys == {"A"}
    ensures Smoothly(r', s.(confirm := Snapping(ForFinality, {"A"}), todo := map[]))
  {
    r' := RunToLeave(r, s);
    r' := RunToEnd(r', s.(todo := map[], confirm := Choosing(ForReceipts)));
  }

  // ---------------------------------------------------------------- broadcast and looked up

  /** Every attempt has its own hash. */
  ghost function HashOf(a: nat): Hash {
    seq(a, _ => 'h')
  }

  ghost function Record(a: nat): Inflight<Ref> {
    Inflight(HashOf(a), 0, 0)
  }

  ghost function Fresh(): State {
    State(1, 0, 0, map[], map[], [], map[], None, Idle, map[], Resting, map[])
  }

  /** The transaction x of A at its a-th attempt. */
  ghost function Try(a: nat): Tx {
    Tx("A", "x", a, 0, 0, Pending)
  }

  ghost function Queued(a: nat): State {
    Fresh().(stores := map["A" := Store(map[], map["x" := 0], map[], map[], map[])],
             heap := map[0 := Try(a)], channel := [0])
  }

  ghost function InHand(a: nat): State {
    Queued(a).(channel := [], hand := Some(0))
  }

  /** Broadcast. */
  ghost function Published(a: nat): State {
    Fresh().(stores := map["A" := Store(map[HashOf(a) := "x"], map[], map["x" := Record(a)], map[], map[])],
             heap := map[0 := Try(a).(state := Broadcasted)])
  }

  /** Looked up by the confirm loop, ts being the time of the latest block. */
  ghost function LookedUp(a: nat, ts: int): State {
    Published(a).(confirm := Examining("A", ts), todo := map["A" := [Record(a)]])
  }

  lemma RunToBegin() returns (r: Run)
    ensures Smoothly(r, Fresh().(stores := map["A" := NewStore()], callers := map[("A", "x") := Checked]))
  {
    var s := Fresh();
    InitInv(s);
    r := Run([s], []);
    EndsTyped(r, s);
    OpenStoreEffect(s, "A");
    r := Go(r, s, OpenStore("A"), s.(stores := map["A" := NewStore()]));
    s := s.(stores := map["A" := NewStore()]);
    EndsTyped(r, s);
    BeginEffect(s, Begin("A", "x"));
    r := Go(r, s, Begin("A", "x"), s.(callers := map[("A", "x") := Checked]));
  }

  lemma RunToInsert() returns (r: Run)
    ensures Smoothly(r, Queued(1).(channel := [], callers := map[("A", "x") := Inserted(0)]))
  {
    r := RunToBegin();
    var s := Fresh().(stores := map["A" := NewStore()], callers := map[("A", "x") := Checked]);
    EndsTyped(r, s);
    InsertEffect(s, "A", "x", 0);
    r := Go(r, s, Insert("A", "x", 0), Queued(1).(channel := [], callers := map[("A", "x") := Inserted(0)]));
  }

  lemma RunToQueued() returns (r: Run)
    ensures Smoothly(r, Queued(1))
  {
    r := RunToInsert();
    var s := Queued(1).(channel := [], callers := map[("A", "x") := Inserted(0)]);
    EndsTyped(r, s);
    SendEffect(s, Send("A", "x", true));
    assert s.callers - {("A", "x")} == map[];
    r := Go(r, s, Send("A", "x", true), Queued(1));
  }

  lemma RunToHand(r: Run, a: nat) returns (r': Run)
    requires Smoothly(r, Queued(a))
    ensures Smoothly(r', InHand(a))
  {
    var s := Queued(a);
    EndsTyped(r, s);
    ReceiveEffect(s, Receive);
    r' := Go(r, s, Receive, InHand(a));
  }

  lemma RunToPublished(r: Run, a: nat) returns (r': Run)
    requires Smoothly(r, InHand(a))
    ensures Smoothly(r', Published(a))
  {
    var s := InHand(a);
    EndsTyped(r, s);
    PublishEffect(s, HashOf(a), 0);
    r' := Go(r, s, Publish(HashOf(a), 0), Published(a));
  }

  lemma RunToLookUp(r: Run, a: nat, ts: int) returns (r': Run)
    requires Smoothly(r, Published(a))
    ensures Smoothly(r', LookedUp(a, ts))
  {
    var s := Published(a);
    r' := RunToPass(r, s);
    assert Records(["x"], map["x" := Record(a)]) == [Record(a)];
    r' := RunToList(r', s.(confirm := Snapping(ForReceipts, {"A"})), ["x"], ts);
  }

  /** From the channel to the look at its receipt. */
  lemma RunToReceipt(r: Run, a: nat, ts: int) returns (r': Run)
    requires Smoothly(r, Queued(a))
    ensures Smoothly(r', LookedUp(a, ts))
  {
    r' := RunToHand(r, a);
    r' := RunToPublished(r', a);
    r' := RunToLookUp(r', a, ts);
  }

  lemma RunToReverted() returns (r: Run, s: State)
    ensures EndsIn(r, s) && PhaseAt(s, "A", "x") == Ended(FatallyErrored)
    ensures "B" !in s.stores && s.callers == map[]
  {
    r := RunToQueued();
    r := RunToReceipt(r, 1, 0);
    var s0, l := LookedUp(1, 0), Examine(Receipt("REVERT"));
    EndsTyped(r, s0);
    s := Next(s0, l);
    r := Extend(r, s0, l);
    AnswerDecides(s0, Receipt("REVERT"));
    ExamineLeavesOthers(s0, l);
  }

  lemma ExamineLeavesOthers(s: State, l: Label)
    requires Enabled(s, l) && Typed(s) && l.Examine? && s.confirm.acc in s.stores
    ensures Next(s, l).stores.Keys == s.stores.Keys && Next(s, l).callers == s.callers
  {}

  // ---------------------------------------------------------------- finalized without the solidity node

  /** Confirmed by a receipt. */
  ghost function Succeeded(): State {
    Fresh().(stores := map["A" := Store(map[HashOf(1) := "x"], map[], map[], map["x" := Record(1)], map[])],
             heap := map[0 := Try(1).(state := Confirmed)])
  }

  lemma SuccessStep(s: State, l: Label)
    requires s == LookedUp(1, 0) && l == Examine(Receipt("SUCCESS")) && Typed(s)
    ensures Enabled(s, l)
    ensures Next(s, l) == Succeeded().(confirm := Examining("A", 0), todo := map["A" := []])
  {
    assert Decide(0, 0, Receipt("SUCCESS")) == Accept;
    assert Next(s, l).stores["A"] == Succeeded().stores["A"];
  }

  lemma RunToSuccess() returns (r: Run)
    ensures Smoothly(r, Succeeded().(confirm := Examining("A", 0), todo := map["A" := []]))
  {
    r := RunToQueued();
    r := RunToReceipt(r, 1, 0);
    var s, l := LookedUp(1, 0), Examine(Receipt("SUCCESS"));
    EndsTyped(r, s);
    SuccessStep(s, l);
    r := Go(r, s, l, Succeeded().(confirm := Examining("A", 0), todo := map["A" := []]));
  }

  lemma RunToFinality() returns (r: Run)
    ensures Smoothly(r, Succeeded().(confirm := Finalizing("A"), todo := map["A" := [Record(1)]]))
  {
    r := RunToSuccess();
    r := RunToSecondPass(r, Succeeded().(confirm := Examining("A", 0), todo := map["A" := []]));
    assert Records(["x"], map["x" := Record(1)]) == [Record(1)];
    r := RunToList(r, Succeeded().(confirm := Snapping(ForFinality, {"A"})), ["x"], 0);
  }

  ghost function Missed(): State {
    Succeeded().(confirm := Probing("A", 0), todo := map["A" := [Record(1)]])
  }

  lemma MissedStep(s: State)
    requires s == Succeeded().(confirm := Finalizing("A"), todo := map["A" := [Record(1)]]) && Typed(s)
    ensures Enabled(s, AskSolidity(false)) && Next(s, AskSolidity(false)) == Missed()
  {}

  lemma RunToProbing() returns (r: Run)
    ensures Smoothly(r, Missed()) && r.labels != [] && r.labels[|r.labels| - 1] == AskSolidity(false)
  {
    r := RunToFinality();
    var s := Succeeded().(confirm := Finalizing("A"), todo := map["A" := [Record(1)]]);
    EndsTyped(r, s);
    MissedStep(s);
    r := Go(r, s, AskSolidity(false), Missed());
  }

  lemma FullNodeStep(s: State)
    requires s == Missed() && Inv(s) && Typed(s)
    ensures Enabled(s, AskFull(true))
    ensures Inv(Next(s, AskFull(true))) ==> PhaseAt(Next(s, AskFull(true)), "A", "x") == Ended(Finalized)
  {
    assert HasHead(s) && Head(s) == Record(1);
    if Inv(Next(s, AskFull(true))) {
      HeadIsCurrent(s);
      HeadChangesPhase(s, AskFull(true));
      PhasesExclude(s, "A", "x");
    }
  }

  lemma FoundByFullNode(r: Run, s: State) returns (r': Run, s': State)
    requires EndsIn(r, s) && s == Missed()
    ensures EndsIn(r', s') && PhaseAt(s', "A", "x") == Ended(Finalized)
    ensures r'.labels == r.labels + [AskFull(true)]
  {
    EndsTyped(r, s);
    FullNodeStep(s);
    s' := Next(s, AskFull(true));
    r' := Extend(r, s, AskFull(true));
  }

  /** A transaction ends as finalized although the only lookup on the solidity node, the last but
      one step, did not find it. */
  lemma FinalizedUnsolidified() returns (r: Run, s: State)
    ensures EndsIn(r, s) && PhaseAt(s, "A", "x") == Ended(Finalized)
    ensures forall k :: 0 <= k < |r.labels| ==> r.labels[k] != AskSolidity(true)
    ensures |r.labels| > 1 && r.labels[|r.labels| - 2] == AskSolidity(false)
  {
    var r0 := RunToProbing();
    assert forall k :: 0 <= k < |r0.labels| ==> Smooth(r0.labels[k]);
    r, s := FoundByFullNode(r0, Missed());
  }

  // ---------------------------------------------------------------- tried as often as can be

  lemma {:induction false} RunUndisturbed(r: Run, s: State, n: nat, s': State) returns (r': Run)
    requires Smoothly(r, s) && Undisturbed(s, n, s')
    ensures Smoothly(r', s')
    decreases n
  {
    r' := r;
    if n > 0 {
      r' := Go(r, s, RetryStep, Next(s, RetryStep));
      r' := RunUndisturbed(r', Next(s, RetryStep), n - 1, s');
    }
  }

  /** The receipt is missing and the transaction expired. */
  ghost function Overdue(a: nat): State {
    LookedUp(a, 1).(confirm := Retrying("A", 1, 0, false, false))
  }

  lemma MissingStep(s: State, a: nat)
    requires a < 5 && s == LookedUp(a, 1) && Typed(s)
    ensures Enabled(s, Examine(Missing)) && Next(s, Examine(Missing)) == Overdue(a)
  {
    assert HasHead(s) && Head(s) == Record(a);
    assert Decide(0, 1, Missing) == MaybeRetry(false, false);
  }

  lemma RunToExpired(r: Run, a: nat) returns (r': Run)
    requires a < 5 && Smoothly(r, Queued(a))
    ensures Smoothly(r', Overdue(a))
  {
    r' := RunToReceipt(r, a, 1);
    EndsTyped(r', LookedUp(a, 1));
    MissingStep(LookedUp(a, 1), a);
    r' := Go(r', LookedUp(a, 1), Examine(Missing), Overdue(a));
  }

  /** Pending again, and in the confirm loop's hand. */
  ghost function Returned(a: nat): State {
    Queued(a).(channel := [], confirm := Resending("A", 1, 0), todo := map["A" := []])
  }

  lemma RetriedAgain(a: nat)
    ensures var s := Overdue(a);
            HasHead(s) && Head(s).tx in s.heap && s.confirm.acc in s.stores && Retried(s) == Returned(a + 1)
  {
    var s := Overdue(a);
    assert HasHead(s) && Head(s) == Record(a);
    assert Retried(s).stores["A"] == Returned(a + 1).stores["A"];
  }

  lemma RunToAgain(r: Run, a: nat) returns (r': Run)
    requires a < 5 && Smoothly(r, Queued(a))
    ensures Smoothly(r', Returned(a + 1))
  {
    r' := RunToExpired(r, a);
    EndsTyped(r', Overdue(a));
    RetriedAgain(a);
    RetriedIsReached(Overdue(a));
    r' := RunUndisturbed(r', Overdue(a), 5, Returned(a + 1));
  }

  lemma RunToResent(r: Run, a: nat) returns (r': Run)
    requires Smoothly(r, Returned(a))
    ensures Smoothly(r', Queued(a).(confirm := Examining("A", 1), todo := map["A" := []]))
  {
    var s := Returned(a);
    EndsTyped(r, s);
    ResendEffect(s, Resend(true));
    r' := Go(r, s, Resend(true), Queued(a).(confirm := Examining("A", 1), todo := map["A" := []]));
  }

  /** The confirm loop comes round with nothing to do. */
  lemma RunToIdle(r: Run, a: nat) returns (r': Run)
    requires Smoothly(r, Queued(a).(confirm := Examining("A", 1), todo := map["A" := []]))
    ensures Smoothly(r', Queued(a))
  {
    var s := Queued(a);
    r' := RunToSecondPass(r, s.(confirm := Examining("A", 1), todo := map["A" := []]));
    assert Records([], Inflights(s.stores["A"], ForFinality)) == [];
    r' := RunToList(r', s.(confirm := Snapping(ForFinality, {"A"})), [], 0);
    r' := RunToLeave(r', s.(confirm := Finalizing("A"), todo := map["A" := []]));
    r' := RunToEnd(r', s.(confirm := Choosing(ForFinality)));
  }

  lemma {:induction false} RunToAttempt(a: nat) returns (r: Run)
    requires 1 <= a <= 5
    ensures Smoothly(r, Queued(a))
  {
    if a == 1 {
      r := RunToQueued();
    } else {
      r := RunToAttempt(a - 1);
      r := RunToAgain(r, a - 1);
      r := RunToResent(r, a);
      r := RunToIdle(r, a);
    }
  }

  lemma {:induction false} NoneLost(r: Run, s: State, n: nat, x: Ref)
    requires Smoothly(r, s) && n <= |r.labels|
    ensures DropsOf(r, n, x) == 0 && ReorgsOf(r, n, x) == 0
  {
    if n > 0 {
      NoneLost(r, s, n - 1, x);
      assert Smooth(r.labels[n - 1]);
    }
  }

  /** The bound on retries is met: a transaction that is dequeued five times without a reorg. */
  lemma FiveAttempts() returns (r: Run)
    ensures IsRun(r) && DequeuesOf(r, |r.labels|, 0) == 5 && ReorgsOf(r, |r.labels|, 0) == 0
  {
    r := RunToAttempt(5);
    r := RunToHand(r, 5);
    NoneLost(r, InHand(5), |r.labels|, 0);
    QueueIsBalanced(r, |r.labels|, 0);
    assert Used(InHand(5), 0) == 5;
  }
}
