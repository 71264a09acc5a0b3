/** What a transaction goes through over a run: which step can move it from which phase to which,
    and what it takes to leave the confirmed phase. */
module ManagerLifecycle {

  import opened Options
  import opened TxStoreSpec
  import opened Manager
  import opened ManagerInvariant
  import opened ManagerSteps
  import opened ManagerRuns

  // ---------------------------------------------------------------- phases

  ghost function PhaseAt(s: State, acc: Addr, id: Id): Phase {
    if acc in s.stores && IdClosed(s.stores[acc], Settled(s), id) then PhaseOf(s.stores[acc], Settled(s), id)
    else Unknown
  }

  /** The moves a step may make, and from where to where. */
  ghost predicate StepEdge(l: Label, p: Phase, q: Phase) {
    || (l.Insert? && p == Unknown && q == AtPending)
    || (l.Publish? && p == AtPending && q == AtUnconfirmed)
    || (l.RetryStep? && p == AtUnconfirmed && q == AtPending)
    || (l.Examine? && p == AtUnconfirmed && (q == AtConfirmed || q == Ended(Errored) || q == Ended(FatallyErrored)))
    || ((l.AskSolidity? || l.AskFull?) && l.found && p == AtConfirmed && q == Ended(Finalized))
    || (l.Reorganize? && p == AtConfirmed && q == AtPending)
  }

  /** The reaper takes id of acc out. */
  ghost predicate Deletes(s: State, l: Label, acc: Addr, id: Id) {
    l == Delete(acc) && acc in s.plan && id in s.plan[acc]
  }

  /** Each step leaves an id in its phase, with the same record, or moves it along
      an edge of the lifecycle; only the reaper takes it out of the store. */
  lemma StepMovesPhase(s: State, l: Label, acc: Addr, id: Id)
    requires Inv(s) && Enabled(s, l) && Typed(s)
    ensures var p, q := PhaseAt(s, acc, id), PhaseAt(Next(s, l), acc, id);
            if Deletes(s, l, acc, id) then p.Ended? && q == Unknown
            else (p == q && SameKey(s, Next(s, l), acc, id)) || StepEdge(l, p, q)
  {
    StepKeepsInv(s, l);
    if CallOf(s, l) == None { PhaseWithoutCall(s, l, acc, id); }
    else if l.Reject? { PhaseAfterReject(s, acc, id); }
    else if l.Delete? { PhaseAfterDelete(s, l.acc, acc, id); }
    else if l.Insert? { PhaseAfterInsert(s, l.acc, l.id, l.tx, acc, id); }
    else if l.Publish? { PhaseAfterPublish(s, l.hash, l.expirationMs, acc, id); }
    else { PhaseAfterHeadCall(s, l, acc, id); }
  }

  lemma PhaseAfterReject(s: State, acc: Addr, id: Id)
    requires Inv(s) && Enabled(s, Reject) && Typed(s)
    ensures PhaseAt(s, acc, id) == PhaseAt(Next(s, Reject), acc, id) && SameKey(s, Next(s, Reject), acc, id)
  {
    RejectKeepsInv(s);
  }

  lemma SamePhase(s: State, s': State, acc: Addr, id: Id)
    requires StoresOk(s)
    requires acc in s.stores ==> acc in s'.stores && SameId(s.stores[acc], s'.stores[acc], id)
    requires acc !in s.stores && acc in s'.stores ==> s'.stores[acc] == NewStore()
    requires acc in s.stores && id in s.stores[acc].finished ==> SameState(s, s', s.stores[acc].finished[id].tx)
    requires StoresOk(s')
    ensures PhaseAt(s, acc, id) == PhaseAt(s', acc, id) && SameKey(s, s', acc, id)
  {
    if acc in s.stores {
      PhasesExclude(s, acc, id);
      PhasesExclude(s', acc, id);
    }
  }

  lemma PhaseWithoutCall(s: State, l: Label, acc: Addr, id: Id)
    requires Inv(s) && Enabled(s, l) && Typed(s) && CallOf(s, l) == None && Inv(Next(s, l))
    ensures PhaseAt(s, acc, id) == PhaseAt(Next(s, l), acc, id) && SameKey(s, Next(s, l), acc, id)
  {
    var s' := Next(s, l);
    StoresWithoutCall(s, l, acc);
    forall x ensures SameState(s, s', x) { SettledWithoutCall(s, l, x); }
    SamePhase(s, s', acc, id);
  }

  lemma StoresWithoutCall(s: State, l: Label, acc: Addr)
    requires Enabled(s, l) && Typed(s) && CallOf(s, l) == None
    ensures var s' := Next(s, l);
            if acc in s.stores then acc in s'.stores && s'.stores[acc] == s.stores[acc]
            else acc in s'.stores ==> s'.stores[acc] == NewStore()
  {}

  lemma SettledWithoutCall(s: State, l: Label, x: Ref)
    requires Inv(s) && Enabled(s, l) && Typed(s) && CallOf(s, l) == None
    ensures SameState(s, Next(s, l), x)
  {
    if l.RetryStep? { HeadState(s); SettledRetryWrite(s, x); }
    else if OfConfirm(l) { SettledQuietConfirm(s, l); }
    else { OthersLeaveConfirm(s, l); }
  }

  lemma SettledRetryWrite(s: State, x: Ref)
    requires PcOk(s) && Enabled(s, RetryStep) && Typed(s) && CallOf(s, RetryStep) == None
    requires Settled(s)[Head(s).tx].state == Broadcasted
    ensures SameState(s, Next(s, RetryStep), x)
  {}

  lemma SettledQuietConfirm(s: State, l: Label)
    requires Enabled(s, l) && Typed(s) && CallOf(s, l) == None && OfConfirm(l) && !l.RetryStep?
    ensures Settled(Next(s, l)) == Settled(s)
  {
    var s' := Next(s, l);
    assert s'.heap == s.heap;
    assert !s.confirm.Retrying? && (s'.confirm.Retrying? ==> s'.confirm.stage == 0);
  }

  lemma PhaseAfterDelete(s: State, at: Addr, acc: Addr, id: Id)
    requires Inv(s) && Enabled(s, Delete(at)) && Typed(s) && Inv(Next(s, Delete(at)))
    ensures var p, q := PhaseAt(s, acc, id), PhaseAt(Next(s, Delete(at)), acc, id);
            if Deletes(s, Delete(at), acc, id) then p.Ended? && q == Unknown
            else p == q && SameKey(s, Next(s, Delete(at)), acc, id)
  {
    DeleteEffect(s, at);
    PhaseAfterRemoval(s, Next(s, Delete(at)), at, acc, id);
    if Deletes(s, Delete(at), acc, id) { assert Due(s, acc, id, s.reap.cutoff); }
  }

  lemma PhaseAfterRemoval(s: State, s': State, at: Addr, acc: Addr, id: Id)
    requires StoresOk(s) && StoresOk(s') && at in s.plan && at in s.stores
    requires s' == s.(stores := s.stores[at := DeleteFinished(s.stores[at], s.plan[at]).0], plan := s.plan - {at})
    ensures var p, q := PhaseAt(s, acc, id), PhaseAt(s', acc, id);
            if acc == at && id in s.plan[at] && id in s.stores[at].finished then p.Ended? && q == Unknown
            else p == q && SameKey(s, s', acc, id)
  {
    DeleteFinishedExact(s.stores[at], s.plan[at]);
    if acc in s.stores { PhasesExclude(s, acc, id); PhasesExclude(s', acc, id); }
    if !(acc == at && id in s.plan[at] && id in s.stores[at].finished) { SamePhase(s, s', acc, id); }
  }

  lemma PhaseAfterInsert(s: State, at: Addr, i: Id, tx: Ref, acc: Addr, id: Id)
    requires Inv(s) && Enabled(s, Insert(at, i, tx)) && Typed(s) && Inv(Next(s, Insert(at, i, tx)))
    ensures var s' := Next(s, Insert(at, i, tx));
            if (acc, id) == (at, i) then PhaseAt(s, acc, id) == Unknown && PhaseAt(s', acc, id) == AtPending
            else PhaseAt(s, acc, id) == PhaseAt(s', acc, id) && SameKey(s, s', acc, id)
  {
    var s' := Next(s, Insert(at, i, tx));
    assert CallerOk(s, at, i);
    InsertEffect(s, at, i, tx);
    if (acc, id) != (at, i) {
      SamePhase(s, s', acc, id);
    } else {
      PhasesExclude(s', acc, id);
    }
  }

  lemma PhaseAfterPublish(s: State, hash: Hash, exp: int, acc: Addr, id: Id)
    requires Inv(s) && Enabled(s, Publish(hash, exp)) && Typed(s) && Inv(Next(s, Publish(hash, exp)))
    ensures var p, q := PhaseAt(s, acc, id), PhaseAt(Next(s, Publish(hash, exp)), acc, id);
            (p == q && SameKey(s, Next(s, Publish(hash, exp)), acc, id)) || StepEdge(Publish(hash, exp), p, q)
  {
    PublishEffect(s, hash, exp);
    PhaseAfterBroadcast(s, Next(s, Publish(hash, exp)), hash, exp, acc, id);
  }

  lemma PhaseAfterBroadcast(s: State, s': State, hash: Hash, exp: int, acc: Addr, id: Id)
    requires StoresOk(s) && TodoOk(s) && StoresOk(s')
    requires s.hand.Some? && IsPending(s, s.hand.value)
    requires var r := OnBroadcasted(s.stores[s.heap[s.hand.value].from], s.heap, hash, exp, s.hand.value);
             s' == s.(stores := s.stores[s.heap[s.hand.value].from := r.store], heap := r.heap, hand := None)
    ensures var p, q := PhaseAt(s, acc, id), PhaseAt(s', acc, id);
            (p == q && SameKey(s, s', acc, id)) || (p == AtPending && q == AtUnconfirmed)
  {
    var tx := s.hand.value;
    PhasesExclude(s, s.heap[tx].from, s.heap[tx].id);
    if acc in s.stores {
      PhasesExclude(s, acc, id);
      PhasesExclude(s', acc, id);
    }
    if (acc, id) != (s.heap[tx].from, s.heap[tx].id) {
      if HasHead(s) { HeadIsCurrent(s); }
      SamePhase(s, s', acc, id);
    }
  }

  /** The call of a step on the head's object, as an operation of the store. */
  ghost function HeadOp(s: State, l: Label): Op<Ref>
    requires Enabled(s, l) && Typed(s) && CallOf(s, l).Some?
    requires l.Examine? || l.RetryStep? || l.AskSolidity? || l.AskFull? || l.Reorganize?
  {
    var id := s.heap[Head(s).tx].id;
    if l.Examine? then ExamineOp(s, l.answer)
    else if l.RetryStep? then Op<Ref>.Retry(id)
    else if l.Reorganize? then Op<Ref>.Reorg(id)
    else Op<Ref>.Finalize(id, s.now)
  }

  lemma HeadOpApplies(s: State, l: Label)
    requires StoresOk(s) && TodoOk(s) && PcOk(s) && Enabled(s, l) && Typed(s) && CallOf(s, l).Some?
    requires l.Examine? || l.RetryStep? || l.AskSolidity? || l.AskFull? || l.Reorganize?
    ensures Head(s).tx in s.heap && AppliesOp(s, Next(s, l), Settled(s), HeadOp(s, l))
    ensures Apply(s.stores[s.confirm.acc], Settled(s), HeadOp(s, l)).out == Done
    ensures Settled(Next(s, l)) == Next(s, l).heap && Head(s).tx in Settled(s)
  {
    HeadState(s);
    if l.Examine? { ExamineOpApplies(s, l.answer); }
    else if l.RetryStep? { RetryOpApplies(s); }
    else { ConfirmedOpApplies(s, l); }
  }

  lemma ExamineOpApplies(s: State, answer: Answer)
    requires StoresOk(s) && TodoOk(s) && Enabled(s, Examine(answer)) && Typed(s) && CallOf(s, Examine(answer)).Some?
    ensures Head(s).tx in s.heap && AppliesOp(s, Next(s, Examine(answer)), s.heap, ExamineOp(s, answer))
    ensures Apply(s.stores[s.confirm.acc], s.heap, ExamineOp(s, answer)).out == Done
    ensures !Next(s, Examine(answer)).confirm.Retrying?
  {
    HeadState(s);
    PhasesExclude(s, s.confirm.acc, s.heap[Head(s).tx].id);
    HeadIsCurrent(s);
    ExamineEffect(s, answer, ExamineOp(s, answer));
  }

  lemma ConfirmedOpApplies(s: State, l: Label)
    requires StoresOk(s) && TodoOk(s) && Enabled(s, l) && Typed(s) && CallOf(s, l).Some?
    requires l.AskSolidity? || l.AskFull? || l.Reorganize?
    ensures Head(s).tx in s.heap && AppliesOp(s, Next(s, l), s.heap, HeadOp(s, l))
    ensures Apply(s.stores[s.confirm.acc], s.heap, HeadOp(s, l)).out == Done
    ensures !Next(s, l).confirm.Retrying?
  {
    HeadState(s);
    PhasesExclude(s, s.confirm.acc, s.heap[Head(s).tx].id);
    HeadIsCurrent(s);
    if l.Reorganize? { ReorganizeEffect(s); } else { AskEffect(s, l); }
  }

  lemma RetryOpApplies(s: State)
    requires StoresOk(s) && TodoOk(s) && PcOk(s) && Enabled(s, RetryStep) && Typed(s) && CallOf(s, RetryStep).Some?
    ensures Head(s).tx in s.heap && AppliesOp(s, Next(s, RetryStep), Settled(s), Retry(s.heap[Head(s).tx].id))
    ensures Apply(s.stores[s.confirm.acc], Settled(s), Retry(s.heap[Head(s).tx].id)).out == Done
    ensures !Next(s, RetryStep).confirm.Retrying?
  {
    HeadIsCurrent(s);
    var acc, tx := s.confirm.acc, Head(s).tx;
    PhasesExclude(s, acc, s.heap[tx].id);
    assert StoreOk(s, acc);
    assert Mark(Settled(s), tx, Pending) == s.heap;
    OnRetryKeepsValid(s.stores[acc], Settled(s), s.heap[tx].id);
    RetryEffect(s);
  }

  lemma PhaseAfterHeadCall(s: State, l: Label, acc: Addr, id: Id)
    requires Inv(s) && Enabled(s, l) && Typed(s) && CallOf(s, l).Some? && Inv(Next(s, l))
    requires l.Examine? || l.RetryStep? || l.AskSolidity? || l.AskFull? || l.Reorganize?
    ensures var p, q := PhaseAt(s, acc, id), PhaseAt(Next(s, l), acc, id);
            (p == q && SameKey(s, Next(s, l), acc, id)) || StepEdge(l, p, q)
  {
    HeadOpApplies(s, l);
    if acc == s.confirm.acc && id == s.heap[Head(s).tx].id { HeadChangesPhase(s, l); }
    else { HeadLeavesPhase(s, l, acc, id); }
  }

  lemma HeadChangesPhase(s: State, l: Label)
    requires StoresOk(s) && TodoOk(s) && PcOk(s) && Enabled(s, l) && Typed(s) && CallOf(s, l).Some?
             && StoresOk(Next(s, l))
    requires l.Examine? || l.RetryStep? || l.AskSolidity? || l.AskFull? || l.Reorganize?
    ensures Head(s).tx in s.heap
    ensures var acc, id := s.confirm.acc, s.heap[Head(s).tx].id;
            StepEdge(l, PhaseAt(s, acc, id), PhaseAt(Next(s, l), acc, id))
  {
    HeadOpApplies(s, l);
    var acc, id, op := s.confirm.acc, s.heap[Head(s).tx].id, HeadOp(s, l);
    assert StoreOk(s, acc);
    ApplyFollowsLifecycle(s.stores[acc], Settled(s), op, id);
    PhasesExclude(s, acc, id);
    PhasesExclude(Next(s, l), acc, id);
    assert Edge(PhaseAt(s, acc, id), op, PhaseAt(Next(s, l), acc, id));
    HeadIsCurrent(s);
  }

  lemma HeadLeavesPhase(s: State, l: Label, acc: Addr, id: Id)
    requires StoresOk(s) && TodoOk(s) && PcOk(s) && Enabled(s, l) && Typed(s) && CallOf(s, l).Some?
             && StoresOk(Next(s, l))
    requires l.Examine? || l.RetryStep? || l.AskSolidity? || l.AskFull? || l.Reorganize?
    requires Head(s).tx in s.heap && (acc, id) != (s.confirm.acc, s.heap[Head(s).tx].id)
    ensures PhaseAt(s, acc, id) == PhaseAt(Next(s, l), acc, id) && SameKey(s, Next(s, l), acc, id)
  {
    HeadOpApplies(s, l);
    HeadIsCurrent(s);
    var at, op := s.confirm.acc, HeadOp(s, l);
    assert StoreOk(s, at);
    PhasesExclude(s, at, OpId(Settled(s), op));
    if acc == at { CallTouchesOneId(s.stores[at], Settled(s), op, id); }
    if acc in s.stores {
      PhasesExclude(s, acc, id);
      if id in s.stores[acc].finished { OthersStateSame(s, l, s.stores[acc].finished[id].tx); }
    }
    SamePhase(s, Next(s, l), acc, id);
  }

  lemma OthersStateSame(s: State, l: Label, x: Ref)
    requires StoresOk(s) && TodoOk(s) && PcOk(s) && Enabled(s, l) && Typed(s) && CallOf(s, l).Some?
    requires l.Examine? || l.RetryStep? || l.AskSolidity? || l.AskFull? || l.Reorganize?
    requires x != Head(s).tx
    ensures SameState(s, Next(s, l), x)
  {
    HeadOpApplies(s, l);
  }

  // ---------------------------------------------------------------- over a run

  /** In no step from i up to j does the reaper take id of acc out. */
  ghost predicate NotReaped(r: Run, i: nat, j: nat, acc: Addr, id: Id) {
    forall k :: i <= k < j && k < |r.labels| && k < |r.states| ==> !Deletes(r.states[k], r.labels[k], acc, id)
  }

  /** An id that is known stays known until it is reaped, and one that has ended keeps its record
      and its state. */
  lemma {:induction false} KnownUntilReaped(r: Run, i: nat, j: nat, acc: Addr, id: Id)
    requires IsRun(r) && i <= j < |r.states| && NotReaped(r, i, j, acc, id)
    requires PhaseAt(r.states[i], acc, id) != Unknown
    ensures PhaseAt(r.states[j], acc, id) != Unknown
    ensures PhaseAt(r.states[i], acc, id).Ended? ==>
              && PhaseAt(r.states[j], acc, id) == PhaseAt(r.states[i], acc, id)
              && SameKey(r.states[i], r.states[j], acc, id)
    decreases j
  {
    if i < j {
      KnownUntilReaped(r, i, j - 1, acc, id);
      RunKeepsInv(r, j - 1);
      assert StepAt(r, j - 1);
      StepMovesPhase(r.states[j - 1], r.labels[j - 1], acc, id);
      assert !Deletes(r.states[j - 1], r.labels[j - 1], acc, id);
      if PhaseAt(r.states[i], acc, id).Ended? { EndedHasRecord(r.states[j - 1], acc, id); }
    }
  }

  lemma EndedHasRecord(s: State, acc: Addr, id: Id)
    requires PhaseAt(s, acc, id).Ended?
    ensures acc in s.stores && id in s.stores[acc].finished
  {}

  // ---------------------------------------------------------------- leaving the confirmed phase

  /** The steps ks are the lookups of the record e by the confirm loop, one on the solidity node
      and the others on the full node, all of which failed, and the record stayed confirmed from
      the first of them to state n. */
  ghost predicate Misses(r: Run, n: nat, acc: Addr, e: Inflight<Ref>, ks: seq<nat>) {
    && n < |r.states| == |r.labels| + 1 && |ks| >= 1
    && (forall j :: 0 <= j < |ks| ==> ks[j] < n && LooksUp(r.states[ks[j]], acc, e))
    && (forall j, k :: 0 <= j < k < |ks| ==> ks[j] < ks[k])
    && r.labels[ks[0]] == AskSolidity(false)
    && (forall j :: 1 <= j < |ks| ==> r.labels[ks[j]] == AskFull(false))
    && (forall k :: ks[0] <= k <= n ==> Current(r.states[k], ForFinality, acc, e))
  }

  ghost predicate LooksUp(s: State, acc: Addr, e: Inflight<Ref>) {
    HasHead(s) && s.confirm.acc == acc && Head(s) == e
  }

  lemma MissesGoOn(r: Run, n: nat, acc: Addr, e: Inflight<Ref>, ks: seq<nat>)
    requires n > 0 && Misses(r, n - 1, acc, e, ks) && n < |r.states| && Current(r.states[n], ForFinality, acc, e)
    ensures Misses(r, n, acc, e, ks)
    ensures LooksUp(r.states[n - 1], acc, e) && r.labels[n - 1] == AskFull(false) ==> Misses(r, n, acc, e, ks + [n - 1])
  {}

  /** A record that is being probed has just failed its lookup on the solidity node, or was being
      probed the step before, which may have been one more lookup in vain. */
  lemma ProbedBefore(r: Run, n: nat)
    requires IsRun(r) && 0 < n < |r.states| && r.states[n].confirm.Probing?
    ensures HasHead(r.states[n]) && Current(r.states[n], ForFinality, r.states[n].confirm.acc, Head(r.states[n]))
    ensures var s, l, s' := r.states[n - 1], r.labels[n - 1], r.states[n];
            && LooksUp(s, s'.confirm.acc, Head(s'))
            && if l == AskSolidity(false)
               then s'.confirm.misses == 0 && Current(s, ForFinality, s'.confirm.acc, Head(s'))
               else s.confirm.Probing? && s'.confirm.misses == s.confirm.misses + (if l == AskFull(false) then 1 else 0)
  {
    RunKeepsInv(r, n);
    RunKeepsInv(r, n - 1);
    assert StepAt(r, n - 1);
    var s, l := r.states[n - 1], r.labels[n - 1];
    HeadIsCurrent(r.states[n]);
    if OfConfirm(l) {
      ProbingStep(s, l);
      HeadIsCurrent(s);
    } else {
      OthersLeaveConfirm(s, l);
    }
  }

  /** Whenever the confirm loop has counted m misses, it has made m + 1 lookups in vain. */
  lemma {:induction false} ProbingHasMissed(r: Run, n: nat) returns (ks: seq<nat>)
    requires IsRun(r) && n < |r.states| && r.states[n].confirm.Probing?
    ensures HasHead(r.states[n]) && |ks| == r.states[n].confirm.misses + 1
    ensures Misses(r, n, r.states[n].confirm.acc, Head(r.states[n]), ks)
    decreases n
  {
    ProbedBefore(r, n);
    var acc, e := r.states[n].confirm.acc, Head(r.states[n]);
    if r.labels[n - 1] == AskSolidity(false) {
      ks := [n - 1];
    } else {
      ks := ProbingHasMissed(r, n - 1);
      MissesGoOn(r, n, acc, e, ks);
      if r.labels[n - 1] == AskFull(false) { ks := ks + [n - 1]; }
    }
  }

  /** The confirm loop gets to probing a record by a failed lookup of that record. */
  lemma ProbingStep(s: State, l: Label)
    requires Enabled(s, l) && Typed(s) && OfConfirm(l) && Next(s, l).confirm.Probing?
    ensures (l == AskSolidity(false) && s.confirm.Finalizing? && Next(s, l).confirm.misses == 0)
            || (l == AskFull(false) && s.confirm.Probing? && Next(s, l).confirm.misses == s.confirm.misses + 1)
    ensures HasHead(s) && Next(s, l).todo == s.todo && Next(s, l).confirm.acc == s.confirm.acc
  {
    ProbingControl(s, l);
  }

  lemma ProbingControl(s: State, l: Label)
    requires Enabled(s, l) && Typed(s) && OfConfirm(l) && Control(s, l).confirm.Probing?
    ensures (l == AskSolidity(false) && s.confirm.Finalizing? && Control(s, l).confirm.misses == 0)
            || (l == AskFull(false) && s.confirm.Probing? && Control(s, l).confirm.misses == s.confirm.misses + 1)
    ensures HasHead(s) && Control(s, l).todo == s.todo && Control(s, l).confirm.acc == s.confirm.acc
  {
    if !l.AskSolidity? && !l.AskFull? {
      if l.Examine? || l.RetryStep? || l.Resend? { ReceiptsNotProbing(s, l); } else { OthersNotProbing(s, l); }
    }
  }

  lemma ReceiptsNotProbing(s: State, l: Label)
    requires Enabled(s, l) && Typed(s) && (l.Examine? || l.RetryStep? || l.Resend?)
    ensures !Control(s, l).confirm.Probing?
  {}

  lemma OthersNotProbing(s: State, l: Label)
    requires Enabled(s, l) && Typed(s) && OfConfirm(l)
    requires !l.Examine? && !l.RetryStep? && !l.Resend? && !l.AskSolidity? && !l.AskFull?
    ensures !Control(s, l).confirm.Probing?
  {}

  /** A confirmed record leaves the confirmed phase either by becoming finalized, when a node
      finds its transaction, or by a reorg, before which one lookup on the solidity node and four
      on the full node have failed, all of its current hash and since it was confirmed. */
  lemma LeavingConfirmed(r: Run, n: nat, acc: Addr, id: Id) returns (ks: seq<nat>)
    requires IsRun(r) && n < |r.labels|
    requires PhaseAt(r.states[n], acc, id) == AtConfirmed && PhaseAt(r.states[n + 1], acc, id) != AtConfirmed
    ensures acc in r.states[n].stores && id in r.states[n].stores[acc].confirmed
    ensures || (r.labels[n] in {AskSolidity(true), AskFull(true)}
                && PhaseAt(r.states[n + 1], acc, id) == Ended(Finalized))
            || (r.labels[n] == Reorganize && PhaseAt(r.states[n + 1], acc, id) == AtPending
                && |ks| == 5 && Misses(r, n, acc, r.states[n].stores[acc].confirmed[id], ks))
  {
    var s, l := r.states[n], r.labels[n];
    RunKeepsInv(r, n);
    RunKeepsInv(r, n + 1);
    assert StepAt(r, n);
    StepMovesPhase(s, l, acc, id);
    ks := [];
    if l.Reorganize? {
      ks := ProbingHasMissed(r, n);
      HeadIsCurrent(s);
      HeadOpApplies(s, l);
      if (acc, id) != (s.confirm.acc, s.heap[Head(s).tx].id) { HeadLeavesPhase(s, l, acc, id); }
    }
  }

  // ---------------------------------------------------------------- what finalized means

  /** Step k looks the record e up on the solidity node in vain, and e stays confirmed up to n. */
  ghost predicate MissedOnSolidity(r: Run, k: nat, n: nat, acc: Addr, e: Inflight<Ref>) {
    && k < n < |r.states| == |r.labels| + 1
    && r.labels[k] == AskSolidity(false) && LooksUp(r.states[k], acc, e)
    && forall j :: k <= j <= n ==> Current(r.states[j], ForFinality, acc, e)
  }

  /** While a probed record stays confirmed the confirm loop stays with it. */
  lemma ProbingLasts(s: State, l: Label, acc: Addr, e: Inflight<Ref>)
    requires Inv(s) && Enabled(s, l) && Typed(s) && Inv(Next(s, l)) && s.confirm.Probing? && LooksUp(s, acc, e)
    requires Current(Next(s, l), ForFinality, acc, e)
    ensures Next(s, l).confirm.Probing? && LooksUp(Next(s, l), acc, e)
  {
    if !OfConfirm(l) {
      OthersLeaveConfirm(s, l);
    } else if CallOf(s, l).Some? {
      HeadIsTaken(s, l);
      PhasesExclude(Next(s, l), acc, Next(s, l).heap[e.tx].id);
    } else {
      MissLeavesHead(s, l);
    }
  }

  /** A lookup that succeeds, or a reorg, ends the confirmed state of the head's object. */
  lemma HeadIsTaken(s: State, l: Label)
    requires Inv(s) && Enabled(s, l) && Typed(s) && s.confirm.Probing? && OfConfirm(l) && CallOf(s, l).Some?
    ensures HasHead(s) && Head(s).tx in Next(s, l).heap && Next(s, l).heap[Head(s).tx].state != Confirmed
    ensures Settled(Next(s, l)) == Next(s, l).heap
  {
    var state := ConfirmCall(s, l);
    HeadOpApplies(s, l);
    ConfirmedEnds(s, l);
  }

  lemma ConfirmedEnds(s: State, l: Label)
    requires Enabled(s, l) && Typed(s) && s.confirm.Probing? && OfConfirm(l) && CallOf(s, l).Some?
    requires HasHead(s) && Head(s).tx in s.heap && CallOf(s, l).value.result.out == Done
    requires Head(s).tx in Next(s, l).heap && Current(s, ForFinality, s.confirm.acc, Head(s))
    ensures Next(s, l).heap[Head(s).tx].state != Confirmed
  {}

  lemma MissLeavesHead(s: State, l: Label)
    requires Enabled(s, l) && Typed(s) && s.confirm.Probing? && OfConfirm(l) && CallOf(s, l) == None
    ensures Next(s, l).confirm.Probing? && HasHead(s) && Next(s, l).todo == s.todo
    ensures Next(s, l).confirm.acc == s.confirm.acc
  {}

  lemma {:induction false} ProbingSinceMiss(r: Run, k: nat, n: nat, acc: Addr, e: Inflight<Ref>)
    requires IsRun(r) && MissedOnSolidity(r, k, n, acc, e)
    ensures r.states[n].confirm.Probing? && LooksUp(r.states[n], acc, e)
    decreases n
  {
    RunKeepsInv(r, n - 1);
    RunKeepsInv(r, n);
    assert StepAt(r, n - 1);
    var s := r.states[n - 1];
    if k == n - 1 {
      MissStartsProbing(s);
    } else {
      assert MissedOnSolidity(r, k, n - 1, acc, e);
      ProbingSinceMiss(r, k, n - 1, acc, e);
      ProbingLasts(s, r.labels[n - 1], acc, e);
    }
  }

  lemma MissStartsProbing(s: State)
    requires Enabled(s, AskSolidity(false)) && Typed(s)
    ensures HasHead(s) && Next(s, AskSolidity(false)) == s.(confirm := Probing(s.confirm.acc, 0))
  {}

  /** The node that finalizes a record is the full node if and only if the solidity node was asked
      before, since the record was confirmed, and did not know its hash. */
  lemma FullNodeFinalizesUnsolidified(r: Run, n: nat, acc: Addr, id: Id)
    requires IsRun(r) && n < |r.labels|
    requires PhaseAt(r.states[n], acc, id) == AtConfirmed && PhaseAt(r.states[n + 1], acc, id) == Ended(Finalized)
    ensures acc in r.states[n].stores && id in r.states[n].stores[acc].confirmed
    ensures r.labels[n] in {AskSolidity(true), AskFull(true)}
    ensures (exists k: nat :: MissedOnSolidity(r, k, n, acc, r.states[n].stores[acc].confirmed[id]))
            <==> r.labels[n] == AskFull(true)
  {
    var s, l := r.states[n], r.labels[n];
    var _ := LeavingConfirmed(r, n, acc, id);
    RunKeepsInv(r, n);
    RunKeepsInv(r, n + 1);
    assert StepAt(r, n);
    var e := s.stores[acc].confirmed[id];
    if l == AskFull(true) {
      FinalizedWasHead(s, l, acc, id);
      var ks := ProbingHasMissed(r, n);
      assert MissedOnSolidity(r, ks[0], n, acc, e);
    } else if k: nat :| MissedOnSolidity(r, k, n, acc, e) {
      ProbingSinceMiss(r, k, n, acc, e);
      assert false;
    }
  }

  lemma FinalizedWasHead(s: State, l: Label, acc: Addr, id: Id)
    requires Inv(s) && Enabled(s, l) && Typed(s) && l == AskFull(true) && Inv(Next(s, l))
    requires PhaseAt(s, acc, id) == AtConfirmed && PhaseAt(Next(s, l), acc, id) != AtConfirmed
    ensures acc in s.stores && id in s.stores[acc].confirmed && LooksUp(s, acc, s.stores[acc].confirmed[id])
  {
    HeadIsCurrent(s);
    AskIsHeadCall(s, Next(s, l), l);
    if (acc, id) != (s.confirm.acc, s.heap[Head(s).tx].id) { HeadLeavesPhase(s, l, acc, id); }
  }

  // ---------------------------------------------------------------- back in the channel

  /** The object's last word: errored, fatally errored or finalized. */
  ghost predicate Over(s: State, x: Ref) {
    x in s.heap && Terminal(s.heap[x].state)
  }

  /** An object that has ended is not touched again, even after its record was reaped. */
  lemma OverStays(s: State, l: Label, x: Ref)
    requires Inv(s) && Enabled(s, l) && Typed(s) && Over(s, x)
    ensures Over(Next(s, l), x) && Next(s, l).heap[x].state == s.heap[x].state
  {
    if l.Insert? {
      assert CallerOk(s, l.acc, l.id);
      InsertEffect(s, l.acc, l.id, l.tx);
    } else if CallOf(s, l) == None {
      if l.RetryStep? { HeadState(s); }
      else if OfConfirm(l) { SettledQuietConfirm(s, l); HeapWithoutCall(s, l); }
      else { OthersLeaveConfirm(s, l); }
    } else if l.Reject? {
      RejectKeepsInv(s);
    } else if l.Publish? {
      PublishEffect(s, l.hash, l.expirationMs);
      PhasesExclude(s, s.heap[s.hand.value].from, s.heap[s.hand.value].id);
    } else if l.Delete? {
      DeleteEffect(s, l.acc);
    } else {
      HeadState(s);
      HeadOpApplies(s, l);
      OverIsNotHead(s, l, x);
    }
  }

  lemma HeapWithoutCall(s: State, l: Label)
    requires Enabled(s, l) && Typed(s) && CallOf(s, l) == None && OfConfirm(l) && !l.RetryStep?
    ensures Next(s, l).heap == s.heap
  {}

  lemma OverIsNotHead(s: State, l: Label, x: Ref)
    requires StoresOk(s) && TodoOk(s) && PcOk(s) && Enabled(s, l) && Typed(s) && CallOf(s, l).Some? && Over(s, x)
    requires l.Examine? || l.RetryStep? || l.AskSolidity? || l.AskFull? || l.Reorganize?
    ensures Over(Next(s, l), x) && Next(s, l).heap[x].state == s.heap[x].state
  {
    HeadState(s);
    HeadOpApplies(s, l);
  }

  lemma ConfirmedIsNotQueued(s: State, acc: Addr, id: Id)
    requires Inv(s) && acc in s.stores && id in s.stores[acc].confirmed
    ensures s.stores[acc].confirmed[id].tx !in s.channel
  {
    PhasesExclude(s, acc, id);
    var x := s.stores[acc].confirmed[id].tx;
    forall i | 0 <= i < |s.channel| ensures s.channel[i] != x {
      assert IsPending(s, s.channel[i]);
      PhasesExclude(s, s.heap[s.channel[i]].from, s.heap[s.channel[i]].id);
    }
  }

  lemma OverIsNotQueued(s: State, x: Ref)
    requires Inv(s) && Over(s, x)
    ensures x !in s.channel
  {
    forall i | 0 <= i < |s.channel| ensures s.channel[i] != x {
      assert IsPending(s, s.channel[i]);
      PhasesExclude(s, s.heap[s.channel[i]].from, s.heap[s.channel[i]].id);
    }
  }

  lemma {:induction false} OverForever(r: Run, i: nat, j: nat, x: Ref)
    requires IsRun(r) && i <= j < |r.states| && Over(r.states[i], x)
    ensures Over(r.states[j], x) && r.states[j].heap[x].state == r.states[i].heap[x].state
    decreases j
  {
    if i < j {
      OverForever(r, i, j - 1, x);
      RunKeepsInv(r, j - 1);
      assert StepAt(r, j - 1);
      OverStays(r.states[j - 1], r.labels[j - 1], x);
    }
  }

  lemma FinalizedIsOver(s: State, l: Label, acc: Addr, id: Id)
    requires Inv(s) && Enabled(s, l) && Typed(s) && l in {AskSolidity(true), AskFull(true)} && StoresOk(Next(s, l))
    requires PhaseAt(s, acc, id) == AtConfirmed && PhaseAt(Next(s, l), acc, id) != AtConfirmed
    ensures acc in s.stores && id in s.stores[acc].confirmed && Over(Next(s, l), s.stores[acc].confirmed[id].tx)
  {
    HeadIsCurrent(s);
    AskIsHeadCall(s, Next(s, l), l);
    if (acc, id) != (s.confirm.acc, s.heap[Head(s).tx].id) { HeadLeavesPhase(s, l, acc, id); }
  }

  lemma ConfirmedStep(r: Run, i: nat, acc: Addr, id: Id)
    requires IsRun(r) && i < |r.labels| && acc in r.states[i].stores && id in r.states[i].stores[acc].confirmed
    ensures Inv(r.states[i + 1]) && StepAt(r, i) && PhaseAt(r.states[i], acc, id) == AtConfirmed
    ensures PhaseAt(r.states[i + 1], acc, id) == AtConfirmed ==>
              && acc in r.states[i + 1].stores && id in r.states[i + 1].stores[acc].confirmed
              && r.states[i + 1].stores[acc].confirmed[id] == r.states[i].stores[acc].confirmed[id]
  {
    RunKeepsInv(r, i);
    RunKeepsInv(r, i + 1);
    assert StepAt(r, i);
    PhasesExclude(r.states[i], acc, id);
    StepMovesPhase(r.states[i], r.labels[i], acc, id);
  }

  /** Once confirmed, an object is in the channel again only if the run has a reorg of it after
      one failed lookup on the solidity node and four on the full node of its confirmed hash. */
  lemma {:induction false} BackInChannelAfterMisses(r: Run, i: nat, j: nat, acc: Addr, id: Id)
    returns (n: nat, ks: seq<nat>)
    requires IsRun(r) && i <= j < |r.states|
    requires acc in r.states[i].stores && id in r.states[i].stores[acc].confirmed
    requires r.states[i].stores[acc].confirmed[id].tx in r.states[j].channel
    ensures var e := r.states[i].stores[acc].confirmed[id];
            i <= n < j && r.labels[n] == Reorganize && |ks| == 5 && Misses(r, n, acc, e, ks)
    decreases j - i
  {
    var e := r.states[i].stores[acc].confirmed[id];
    RunKeepsInv(r, i);
    RunKeepsInv(r, j);
    ConfirmedIsNotQueued(r.states[i], acc, id);
    ConfirmedStep(r, i, acc, id);
    if PhaseAt(r.states[i + 1], acc, id) == AtConfirmed {
      n, ks := BackInChannelAfterMisses(r, i + 1, j, acc, id);
    } else {
      n := i;
      ks := LeavingConfirmed(r, i, acc, id);
      if !r.labels[i].Reorganize? {
        FinalizedIsOver(r.states[i], r.labels[i], acc, id);
        OverForever(r, i + 1, j, e.tx);
        OverIsNotQueued(r.states[j], e.tx);
      }
    }
  }
}
