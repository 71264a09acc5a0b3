/** What the records of a transaction hold over a run, and how long they are kept. */
module ManagerRecords {

  import opened Options
  import opened TxStoreSpec
  import opened Manager
  import opened ManagerInvariant
  import opened ManagerSteps
  import opened ManagerRuns
  import opened ManagerLifecycle
  import opened ManagerQueue

  /** The store of acc has the record e of id, unconfirmed or confirmed. */
  ghost predicate InFlightAs(s: State, acc: Addr, id: Id, e: Inflight<Ref>) {
    acc in s.stores && HasInflight(s.stores[acc], id, e)
  }

  ghost predicate EndedAs(s: State, acc: Addr, id: Id, f: Finished<Ref>) {
    acc in s.stores && id in s.stores[acc].finished && s.stores[acc].finished[id] == f
  }

  // ---------------------------------------------------------------- one step

  lemma SameKeyBackwards(s: State, s': State, acc: Addr, id: Id)
    requires acc in s.stores && SameKey(s, s', acc, id)
    ensures forall e :: InFlightAs(s', acc, id, e) ==> InFlightAs(s, acc, id, e)
    ensures forall f :: EndedAs(s', acc, id, f) ==> EndedAs(s, acc, id, f)
  {}

  lemma KnownHasStore(s: State, acc: Addr, id: Id)
    requires PhaseAt(s, acc, id) != Unknown
    ensures acc in s.stores
  {}

  /** The phase of a record in a state of the invariant. */
  lemma PhaseOfRecord(s: State, acc: Addr, id: Id)
    requires Inv(s) && acc in s.stores
    ensures (exists e :: InFlightAs(s, acc, id, e)) <==> PhaseAt(s, acc, id) in {AtUnconfirmed, AtConfirmed}
    ensures id in s.stores[acc].unconfirmed ==> PhaseAt(s, acc, id) == AtUnconfirmed
    ensures id in s.stores[acc].confirmed ==> PhaseAt(s, acc, id) == AtConfirmed
    ensures id in s.stores[acc].finished <==> PhaseAt(s, acc, id).Ended?
  {
    PhasesExclude(s, acc, id);
    if id in s.stores[acc].unconfirmed { assert InFlightAs(s, acc, id, s.stores[acc].unconfirmed[id]); }
    if id in s.stores[acc].confirmed { assert InFlightAs(s, acc, id, s.stores[acc].confirmed[id]); }
  }

  lemma PublishFiles(s: State, l: Label, acc: Addr, id: Id, e: Inflight<Ref>)
    requires Inv(s) && Enabled(s, l) && Typed(s) && l.Publish? && InFlightAs(Next(s, l), acc, id, e)
    ensures InFlightAs(s, acc, id, e) || (l == Publish(e.hash, e.expirationMs) && s.hand == Some(e.tx))
  {
    PublishEffect(s, l.hash, l.expirationMs);
  }

  /** The call of the confirm loop that takes a record on. */
  lemma HeadFiles(s: State, l: Label, acc: Addr, id: Id)
    requires Inv(s) && Enabled(s, l) && Typed(s) && Inv(Next(s, l)) && CallOf(s, l).Some?
    requires l.Examine? || l.AskSolidity? || l.AskFull?
    requires PhaseAt(s, acc, id) != PhaseAt(Next(s, l), acc, id)
    ensures forall e :: InFlightAs(Next(s, l), acc, id, e) ==> InFlightAs(s, acc, id, e)
    ensures forall f :: EndedAs(Next(s, l), acc, id, f) ==>
              f.retentionTs == s.now && exists e :: InFlightAs(s, acc, id, e) && f.hash == e.hash && f.tx == e.tx
  {
    HeadOpApplies(s, l);
    HeadIsCurrent(s);
    if (acc, id) != (s.confirm.acc, s.heap[Head(s).tx].id) {
      HeadLeavesPhase(s, l, acc, id);
    } else {
      assert StoreOk(s, acc);
      OpFiles(s, Next(s, l), HeadOp(s, l));
    }
  }

  lemma OpFiles(s: State, s': State, op: Op<Ref>)
    requires HasHead(s) && Head(s).tx in s.heap && AppliesOp(s, s', Settled(s), op)
    requires Valid(s.stores[s.confirm.acc], Settled(s)) && Apply(s.stores[s.confirm.acc], Settled(s), op).out == Done
    requires op.Confirm? || ((op.Error? || op.Fatal? || op.Finalize?) && op.now == s.now)
    ensures var acc, id := s.confirm.acc, s.heap[Head(s).tx].id;
            && (forall e :: InFlightAs(s', acc, id, e) ==> InFlightAs(s, acc, id, e))
            && (forall f :: EndedAs(s', acc, id, f) ==>
                  f.retentionTs == s.now && exists e :: InFlightAs(s, acc, id, e) && f.hash == e.hash && f.tx == e.tx)
  {
    var acc, id := s.confirm.acc, s.heap[Head(s).tx].id;
    CallFilesRecord(s.stores[acc], Settled(s), op);
    assert IdOk(s.stores[acc], Settled(s), id);
    assert IdOk(s'.stores[acc], s'.heap, id) by { ApplyKeepsValid(s.stores[acc], Settled(s), op); }
    forall f | EndedAs(s', acc, id, f)
      ensures f.retentionTs == s.now && exists e :: InFlightAs(s, acc, id, e) && f.hash == e.hash && f.tx == e.tx
    {
      if !op.Confirm? {
        var e :| HasInflight(s.stores[acc], id, e) && f.hash == e.hash && f.tx == e.tx;
        assert InFlightAs(s, acc, id, e);
      }
    }
  }

  /** After a step, a record in flight was there before, or has just been published. */
  lemma InflightStep(s: State, l: Label, acc: Addr, id: Id, e: Inflight<Ref>)
    requires Inv(s) && Enabled(s, l) && Typed(s) && InFlightAs(Next(s, l), acc, id, e)
    ensures InFlightAs(s, acc, id, e) || (l == Publish(e.hash, e.expirationMs) && s.hand == Some(e.tx))
  {
    if l.Publish? {
      PublishFiles(s, l, acc, id, e);
    } else {
      StepKeepsInv(s, l);
      PhaseOfRecord(Next(s, l), acc, id);
      InflightWas(s, l, acc, id, PhaseAt(Next(s, l), acc, id));
    }
  }

  lemma InflightWas(s: State, l: Label, acc: Addr, id: Id, q: Phase)
    requires Inv(s) && Enabled(s, l) && Typed(s) && Inv(Next(s, l)) && !l.Publish?
    requires q == PhaseAt(Next(s, l), acc, id) && (q == AtUnconfirmed || q == AtConfirmed)
    ensures forall e :: InFlightAs(Next(s, l), acc, id, e) ==> InFlightAs(s, acc, id, e)
  {
    StepMovesPhase(s, l, acc, id);
    if PhaseAt(s, acc, id) == q {
      KnownHasStore(s, acc, id);
      SameKeyBackwards(s, Next(s, l), acc, id);
    } else {
      ConfirmsHead(s, l, acc, id);
    }
  }

  lemma ConfirmsHead(s: State, l: Label, acc: Addr, id: Id)
    requires Inv(s) && Enabled(s, l) && Typed(s) && Inv(Next(s, l)) && l.Examine?
    requires PhaseAt(s, acc, id) != PhaseAt(Next(s, l), acc, id)
    ensures forall e :: InFlightAs(Next(s, l), acc, id, e) ==> InFlightAs(s, acc, id, e)
  {
    if CallOf(s, l) == None { PhaseWithoutCall(s, l, acc, id); } else { HeadFiles(s, l, acc, id); }
  }

  /** After a step, a finished record was there before, or has just been made of the one in flight. */
  lemma FinishedStep(s: State, l: Label, acc: Addr, id: Id, f: Finished<Ref>)
    requires Inv(s) && Enabled(s, l) && Typed(s) && EndedAs(Next(s, l), acc, id, f)
    ensures || EndedAs(s, acc, id, f)
            || (f.retentionTs == s.now && exists e :: InFlightAs(s, acc, id, e) && f.hash == e.hash && f.tx == e.tx)
  {
    StepKeepsInv(s, l);
    PhaseOfRecord(Next(s, l), acc, id);
    StepMovesPhase(s, l, acc, id);
    if PhaseAt(s, acc, id) == PhaseAt(Next(s, l), acc, id) {
      KnownHasStore(s, acc, id);
      SameKeyBackwards(s, Next(s, l), acc, id);
    } else if CallOf(s, l) == None {
      PhaseWithoutCall(s, l, acc, id);
    } else {
      HeadFiles(s, l, acc, id);
    }
  }

  // ---------------------------------------------------------------- over a run

  /** As long as a record is in flight it has the hash, the expiration and the object that the
      broadcaster published it with. */
  lemma {:induction false} InFlightAsPublished(r: Run, n: nat, acc: Addr, id: Id, e: Inflight<Ref>) returns (k: nat)
    requires IsRun(r) && n < |r.states| && InFlightAs(r.states[n], acc, id, e)
    ensures k < n && r.labels[k] == Publish(e.hash, e.expirationMs) && r.states[k].hand == Some(e.tx)
    ensures forall j :: k < j <= n ==> InFlightAs(r.states[j], acc, id, e)
  {
    RunKeepsInv(r, n - 1);
    assert StepAt(r, n - 1);
    InflightStep(r.states[n - 1], r.labels[n - 1], acc, id, e);
    if InFlightAs(r.states[n - 1], acc, id, e) { k := InFlightAsPublished(r, n - 1, acc, id, e); } else { k := n - 1; }
  }

  /** A finished record has the hash and the object of the record in flight that it was made of, and
      the time at which that ended. */
  lemma {:induction false} FinishedAsItEnded(r: Run, n: nat, acc: Addr, id: Id, f: Finished<Ref>)
    returns (k: nat, e: Inflight<Ref>)
    requires IsRun(r) && n < |r.states| && EndedAs(r.states[n], acc, id, f)
    ensures k < n && InFlightAs(r.states[k], acc, id, e) && f.hash == e.hash && f.tx == e.tx
    ensures f.retentionTs == r.states[k].now
    ensures forall j :: k < j <= n ==> EndedAs(r.states[j], acc, id, f)
  {
    RunKeepsInv(r, n - 1);
    assert StepAt(r, n - 1);
    FinishedStep(r.states[n - 1], r.labels[n - 1], acc, id, f);
    if EndedAs(r.states[n - 1], acc, id, f) {
      k, e := FinishedAsItEnded(r, n - 1, acc, id, f);
    } else {
      k := n - 1;
      e :| InFlightAs(r.states[k], acc, id, e) && f.hash == e.hash && f.tx == e.tx;
    }
  }

  /** When the full node does not know a hash, what the broadcaster published it with decides: up to
      that expiration the record is left alone, and from then on it is tried again or, if it was
      tried five times or ran out of time twice, ends as errored. */
  lemma SilenceDecides(r: Run, n: nat) returns (k: nat)
    requires IsRun(r) && n < |r.labels| && r.labels[n] == Examine(Missing)
    ensures HasHead(r.states[n]) && r.states[n].confirm.Examining? && Head(r.states[n]).tx in r.states[n].heap
    ensures var s, s', e := r.states[n], r.states[n + 1], Head(r.states[n]);
            var t := s.heap[e.tx];
            && k < n && r.labels[k].Publish? && r.labels[k].hash == e.hash && r.states[k].hand == Some(e.tx)
            && if s.confirm.ts <= r.labels[k].expirationMs then s' == s.(todo := Pop(s))
               else if t.attempt < 5 && t.outOfTime < 2 then s'.confirm.Retrying? && s'.todo == s.todo
               else PhaseAt(s', s.confirm.acc, t.id) == Ended(Errored)
  {
    var s := r.states[n];
    RunKeepsInv(r, n);
    assert StepAt(r, n);
    HeadIsCurrent(s);
    AnswerDecides(s, Missing);
    k := InFlightAsPublished(r, n, s.confirm.acc, s.heap[Head(s).tx].id, Head(s));
  }
}
