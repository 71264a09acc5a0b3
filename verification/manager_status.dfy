/** The status the manager reports to the outside. */
module ManagerStatus {

  import opened Options
  import opened TxStoreSpec
  import opened Manager
  import opened ManagerInvariant
  import opened ManagerSteps
  import opened ManagerRuns
  import opened ManagerLifecycle
  import opened ManagerQueue
  import opened ManagerScenarios

  datatype Status = NotFound | IsPending | IsUnconfirmed | IsFinalized | IsFailed | IsFatal

  /** GetStatusAll asks the account stores in an order of the runtime's choosing, each under its own
      lock: views[i] is the state in which accs[i] is asked. */
  ghost predicate Readable(views: seq<State>, accs: seq<Addr>) {
    |views| == |accs| && forall i :: 0 <= i < |accs| ==> Typed(views[i]) && accs[i] in views[i].stores
  }

  ghost function GetStatusAll(views: seq<State>, accs: seq<Addr>, id: Id): (TxState, bool)
    requires Readable(views, accs)
  {
    if accs == [] then (TxState.Pending, false)
    else
      var (state, found) := GetStatus(views[0].stores[accs[0]], views[0].heap, id);
      if found then (state, true) else GetStatusAll(views[1..], accs[1..], id)
  }

  ghost function GetTransactionStatus(views: seq<State>, accs: seq<Addr>, id: Id): Status
    requires Readable(views, accs)
  {
    var (state, found) := GetStatusAll(views, accs, id);
    if !found then NotFound
    else match state
      case Pending | Broadcasted => IsPending
      case Confirmed => IsUnconfirmed
      case Finalized => IsFinalized
      case Errored => IsFailed
      case FatallyErrored => IsFatal
  }

  function StatusOf(p: Phase): Status {
    match p
    case Unknown => NotFound
    case AtPending => IsPending
    case AtUnconfirmed => IsPending
    case AtConfirmed => IsUnconfirmed
    case Ended(state) => if state == Finalized then IsFinalized else if state == Errored then IsFailed else IsFatal
  }

  /** The store's answer is that of the phase; in the middle of a retry it already says Pending,
      which the outside cannot tell from Broadcasted. */
  lemma StoreSeesPhase(s: State, acc: Addr, id: Id)
    requires Inv(s) && Typed(s) && acc in s.stores
    ensures GetStatusAll([s], [acc], id).1 <==> PhaseAt(s, acc, id) != Unknown
    ensures GetTransactionStatus([s], [acc], id) == StatusOf(PhaseAt(s, acc, id))
  {
    PhasesExclude(s, acc, id);
    if s.confirm.Retrying? && s.confirm.stage == 4 {
      HeadState(s);
      HeadIsCurrent(s);
      PhasesExclude(s, s.confirm.acc, s.heap[Head(s).tx].id);
    }
  }

  /** What a client is told, by what the store has of the id. */
  lemma StatusOfRecord(s: State, acc: Addr, id: Id)
    requires Inv(s) && Typed(s) && acc in s.stores
    ensures var status, store := GetTransactionStatus([s], [acc], id), s.stores[acc];
            && IdClosed(store, s.heap, id)
            && (status == NotFound <==> !store.Has(id))
            && (status == IsPending <==> id in store.pending || id in store.unconfirmed)
            && (status == IsUnconfirmed <==> id in store.confirmed)
            && (status == IsFinalized <==> id in store.finished && s.heap[store.finished[id].tx].state == Finalized)
            && (status == IsFailed <==> id in store.finished && s.heap[store.finished[id].tx].state == Errored)
            && (status == IsFatal <==> id in store.finished && s.heap[store.finished[id].tx].state == FatallyErrored)
  {
    StoreSeesPhase(s, acc, id);
    PhasesExclude(s, acc, id);
    if id in s.stores[acc].finished { FinishedIsNotHead(s, acc, id); }
  }

  lemma FinishedIsNotHead(s: State, acc: Addr, id: Id)
    requires Inv(s) && acc in s.stores && id in s.stores[acc].finished && s.stores[acc].finished[id].tx in s.heap
    ensures s.heap[s.stores[acc].finished[id].tx] == Settled(s)[s.stores[acc].finished[id].tx]
  {
    PhasesExclude(s, acc, id);
    if HasHead(s) {
      HeadIsCurrent(s);
      PhasesExclude(s, s.confirm.acc, s.heap[Head(s).tx].id);
    }
  }

  ghost predicate Knows(s: State, acc: Addr, id: Id) {
    acc in s.stores && PhaseAt(s, acc, id) != Unknown
  }

  lemma FirstAccountAnswers(views: seq<State>, accs: seq<Addr>, id: Id)
    requires Readable(views, accs) && accs != [] && Inv(views[0])
    ensures Readable(views[1..], accs[1..])
    ensures GetTransactionStatus(views, accs, id)
            == if Knows(views[0], accs[0], id) then StatusOf(PhaseAt(views[0], accs[0], id))
               else GetTransactionStatus(views[1..], accs[1..], id)
  {
    StoreSeesPhase(views[0], accs[0], id);
    var one, p := GetStatusAll([views[0]], [accs[0]], id), GetStatusAll(views, accs, id);
    assert one.1 ==> p == one;
    assert !one.1 ==> p == GetStatusAll(views[1..], accs[1..], id);
  }

  /** The manager reports the phase that id had, when it was asked, in the first account that knew
      it then, and nothing if none did. */
  lemma {:induction false} FirstKnownAnswers(views: seq<State>, accs: seq<Addr>, id: Id) returns (k: nat)
    requires Readable(views, accs) && forall i :: 0 <= i < |views| ==> Inv(views[i])
    ensures k <= |accs| && (forall i :: 0 <= i < k ==> !Knows(views[i], accs[i], id))
    ensures k < |accs| ==> Knows(views[k], accs[k], id)
    ensures GetTransactionStatus(views, accs, id)
            == if k < |accs| then StatusOf(PhaseAt(views[k], accs[k], id)) else NotFound
  {
    k := 0;
    if accs != [] {
      FirstAccountAnswers(views, accs, id);
      if !Knows(views[0], accs[0], id) {
        k := FirstKnownAnswers(views[1..], accs[1..], id);
        k := k + 1;
      }
    }
  }

  // ---------------------------------------------------------------- while nothing moves

  /** An order in which the accounts may be asked: each once. */
  ghost predicate Order(s: State, accs: seq<Addr>) {
    Enumerates(accs, s.stores)
  }

  /** The status if all accounts are asked in one state. */
  ghost function StatusIn(s: State, accs: seq<Addr>, id: Id): Status
    requires Typed(s) && Order(s, accs)
  {
    GetTransactionStatus(seq(|accs|, _ => s), accs, id)
  }

  lemma FirstKnownIn(s: State, accs: seq<Addr>, id: Id) returns (k: nat)
    requires Inv(s) && Typed(s) && Order(s, accs)
    ensures k <= |accs| && (forall i :: 0 <= i < k ==> !Knows(s, accs[i], id)) && (k < |accs| ==> Knows(s, accs[k], id))
    ensures StatusIn(s, accs, id) == if k < |accs| then StatusOf(PhaseAt(s, accs[k], id)) else NotFound
  {
    k := FirstKnownAnswers(seq(|accs|, _ => s), accs, id);
  }

  lemma {:induction false} AnyOrder(left: set<Addr>) returns (accs: seq<Addr>)
    ensures forall a :: a in accs <==> a in left
    ensures forall i, j :: 0 <= i < j < |accs| ==> accs[i] != accs[j]
    decreases |left|
  {
    if left == {} {
      accs := [];
    } else {
      var a :| a in left;
      var rest := AnyOrder(left - {a});
      accs := [a] + rest;
    }
  }

  /** Every account that knows id can be the one that answers. */
  lemma OrderFrom(s: State, acc: Addr, id: Id) returns (accs: seq<Addr>)
    requires Inv(s) && Typed(s) && Knows(s, acc, id)
    ensures Order(s, accs) && StatusIn(s, accs, id) == StatusOf(PhaseAt(s, acc, id))
  {
    var rest := AnyOrder(s.stores.Keys - {acc});
    accs := [acc] + rest;
    var k := FirstKnownIn(s, accs, id);
  }

  /** The answer does not depend on the order if and only if all accounts that know id give it the
      same status. */
  lemma StatusIsUnambiguous(s: State, id: Id)
    requires Inv(s) && Typed(s)
    ensures (forall p, q :: Order(s, p) && Order(s, q) ==> StatusIn(s, p, id) == StatusIn(s, q, id))
            <==> (forall a, b :: Knows(s, a, id) && Knows(s, b, id) ==>
                    StatusOf(PhaseAt(s, a, id)) == StatusOf(PhaseAt(s, b, id)))
  {
    if forall a, b :: Knows(s, a, id) && Knows(s, b, id) ==>
         StatusOf(PhaseAt(s, a, id)) == StatusOf(PhaseAt(s, b, id)) {
      forall p, q | Order(s, p) && Order(s, q) ensures StatusIn(s, p, id) == StatusIn(s, q, id) {
        var k := FirstKnownIn(s, p, id);
        var l := FirstKnownIn(s, q, id);
        assert k < |p| ==> p[k] in q;
        assert l < |q| ==> q[l] in p;
      }
    } else {
      var a, b :| Knows(s, a, id) && Knows(s, b, id) && StatusOf(PhaseAt(s, a, id)) != StatusOf(PhaseAt(s, b, id));
      var p := OrderFrom(s, a, id);
      var q := OrderFrom(s, b, id);
    }
  }

  // ---------------------------------------------------------------- while other goroutines run

  /** A question that runs from state lo to state hi of a run and asks accs[i] in state at[i].  The
      lock on the accounts keeps new ones out as long as it takes. */
  ghost predicate Query(r: Run, lo: nat, hi: nat, accs: seq<Addr>, at: seq<nat>) {
    && IsRun(r) && lo <= hi < |r.states| && |at| == |accs|
    && (forall k :: lo <= k <= hi ==> Order(r.states[k], accs))
    && (forall i :: 0 <= i < |at| ==> lo <= at[i] <= hi)
    && (forall i, j :: 0 <= i <= j < |at| ==> at[i] <= at[j])
  }

  lemma StatesHold(r: Run)
    requires IsRun(r)
    ensures forall k :: 0 <= k < |r.states| ==> Inv(r.states[k]) && Typed(r.states[k])
  {
    forall k | 0 <= k < |r.states| ensures Inv(r.states[k]) && Typed(r.states[k]) {
      RunKeepsInv(r, k);
      InvTyped(r.states[k]);
    }
  }

  /** The states in which the accounts are asked. */
  ghost function Views(r: Run, at: seq<nat>): (views: seq<State>)
    requires forall i :: 0 <= i < |at| ==> at[i] < |r.states|
  {
    seq(|at|, i requires 0 <= i < |at| => r.states[at[i]])
  }

  lemma QueryIsReadable(r: Run, lo: nat, hi: nat, accs: seq<Addr>, at: seq<nat>)
    requires Query(r, lo, hi, accs, at)
    ensures Readable(Views(r, at), accs) && forall i :: 0 <= i < |accs| ==> Inv(Views(r, at)[i])
  {
    var views := Views(r, at);
    forall i: nat | i < |accs| ensures Inv(views[i]) && Typed(views[i]) && accs[i] in views[i].stores {
      RunKeepsInv(r, at[i]);
      InvTyped(r.states[at[i]]);
      assert Order(r.states[at[i]], accs) && accs[i] in accs;
    }
  }

  ghost function Reported(r: Run, lo: nat, hi: nat, accs: seq<Addr>, at: seq<nat>, id: Id): Status
    requires Query(r, lo, hi, accs, at)
  {
    QueryIsReadable(r, lo, hi, accs, at);
    GetTransactionStatus(Views(r, at), accs, id)
  }

  /** From state i to state j every account that knows id gives it this status. */
  ghost predicate AllSay(r: Run, i: nat, j: nat, id: Id, status: Status) {
    forall k, a :: i <= k <= j && k < |r.states| && Knows(r.states[k], a, id) ==>
                     StatusOf(PhaseAt(r.states[k], a, id)) == status
  }

  lemma QueryAnswer(r: Run, lo: nat, hi: nat, accs: seq<Addr>, at: seq<nat>, id: Id) returns (k: nat)
    requires Query(r, lo, hi, accs, at)
    ensures k <= |accs| && (forall i: nat :: i < k ==> !Knows(r.states[at[i]], accs[i], id))
    ensures k < |accs| ==> Knows(r.states[at[k]], accs[k], id)
    ensures Reported(r, lo, hi, accs, at, id)
            == if k < |accs| then StatusOf(PhaseAt(r.states[at[k]], accs[k], id)) else NotFound
  {
    QueryIsReadable(r, lo, hi, accs, at);
    var views := Views(r, at);
    k := FirstKnownAnswers(views, accs, id);
    forall i: nat | i < k ensures !Knows(r.states[at[i]], accs[i], id) { assert !Knows(views[i], accs[i], id); }
  }

  /** An id that an account knew before the question and that is not reaped is found, whatever moves
      meanwhile, with the status it has in an account and at a moment that the question came by. */
  lemma KnownIsFound(r: Run, lo: nat, hi: nat, accs: seq<Addr>, at: seq<nat>, acc: Addr, id: Id)
    returns (k: nat)
    requires Query(r, lo, hi, accs, at) && NotReaped(r, lo, hi, acc, id) && PhaseAt(r.states[lo], acc, id) != Unknown
    ensures k < |accs| && Knows(r.states[at[k]], accs[k], id)
    ensures Reported(r, lo, hi, accs, at, id) == StatusOf(PhaseAt(r.states[at[k]], accs[k], id))
  {
    k := QueryAnswer(r, lo, hi, accs, at, id);
    assert Order(r.states[lo], accs) && acc in accs;
    var i :| 0 <= i < |accs| && accs[i] == acc;
    KnownUntilReaped(r, lo, at[i], acc, id);
    assert Order(r.states[at[i]], accs);
  }

  ghost predicate OnlyKnower(s: State, acc: Addr, id: Id) {
    forall a :: Knows(s, a, id) ==> a == acc
  }

  lemma OnlyOneKnows(s: State, accs: seq<Addr>, acc: Addr, id: Id)
    requires Inv(s) && Typed(s) && Order(s, accs) && OnlyKnower(s, acc, id)
    ensures StatusIn(s, accs, id) == StatusOf(PhaseAt(s, acc, id))
  {
    var k := FirstKnownIn(s, accs, id);
    assert Knows(s, acc, id) ==> acc in accs;
  }

  lemma NoneKnew(r: Run, lo: nat, hi: nat, accs: seq<Addr>, at: seq<nat>, acc: Addr, id: Id) returns (m: nat)
    requires Query(r, lo, hi, accs, at) && forall i: nat :: i < |accs| ==> !Knows(r.states[at[i]], accs[i], id)
    ensures lo <= m <= hi && PhaseAt(r.states[m], acc, id) == Unknown
  {
    if i: nat :| i < |accs| && accs[i] == acc {
      m := at[i];
      assert !Knows(r.states[at[i]], accs[i], id);
    } else {
      m := lo;
      assert Order(r.states[lo], accs) && acc !in accs;
    }
  }

  lemma OneReports(r: Run, lo: nat, hi: nat, accs: seq<Addr>, at: seq<nat>, acc: Addr, id: Id)
    returns (m: nat)
    requires Query(r, lo, hi, accs, at)
    requires forall k: nat :: lo <= k <= hi ==> OnlyKnower(r.states[k], acc, id)
    ensures lo <= m <= hi && Reported(r, lo, hi, accs, at, id) == StatusOf(PhaseAt(r.states[m], acc, id))
  {
    var k := QueryAnswer(r, lo, hi, accs, at, id);
    if k < |accs| {
      m := at[k];
      assert OnlyKnower(r.states[m], acc, id);
    } else {
      m := NoneKnew(r, lo, hi, accs, at, acc, id);
    }
  }

  /** If only one account ever knows id, a question is answered as if all accounts had been asked in
      one of the states it ran through. */
  lemma OneMomentAnswers(r: Run, lo: nat, hi: nat, accs: seq<Addr>, at: seq<nat>, acc: Addr, id: Id)
    returns (m: nat)
    requires Query(r, lo, hi, accs, at)
    requires forall k: nat :: lo <= k <= hi ==> OnlyKnower(r.states[k], acc, id)
    ensures lo <= m <= hi && Typed(r.states[m])
    ensures forall p :: Order(r.states[m], p) ==>
              StatusIn(r.states[m], p, id) == Reported(r, lo, hi, accs, at, id)
  {
    m := OneReports(r, lo, hi, accs, at, acc, id);
    RunKeepsInv(r, m);
    InvTyped(r.states[m]);
    forall p | Order(r.states[m], p)
      ensures StatusIn(r.states[m], p, id) == Reported(r, lo, hi, accs, at, id)
    {
      OnlyOneKnows(r.states[m], p, acc, id);
    }
  }

  lemma AskedAtOnce(r: Run, k: nat, accs: seq<Addr>, id: Id)
    requires IsRun(r) && k < |r.states| && Order(r.states[k], accs)
    ensures Typed(r.states[k]) && Query(r, k, k, accs, seq(|accs|, _ => k))
    ensures Reported(r, k, k, accs, seq(|accs|, _ => k), id) == StatusIn(r.states[k], accs, id)
  {
    StatesHold(r);
    assert Views(r, seq(|accs|, _ => k)) == seq(|accs|, _ => r.states[k]);
  }

  /** What an account ends with stays its status until the reaper removes it; all questions in that
      time are answered with it if and only if no account that knows the id, too, gives it another
      status at some point. */
  lemma EndIsReportedUntilReaped(r: Run, i: nat, j: nat, acc: Addr, id: Id)
    requires IsRun(r) && i <= j < |r.states| && NotReaped(r, i, j, acc, id)
    requires PhaseAt(r.states[i], acc, id).Ended?
    ensures var status := StatusOf(PhaseAt(r.states[i], acc, id));
            && status in {IsFinalized, IsFailed, IsFatal}
            && PhaseAt(r.states[j], acc, id) == PhaseAt(r.states[i], acc, id)
            && ((forall lo: nat, hi: nat, accs: seq<Addr>, at: seq<nat> ::
                   i <= lo && hi <= j && Query(r, lo, hi, accs, at) ==>
                   Reported(r, lo, hi, accs, at, id) == status)
                <==> AllSay(r, i, j, id, status))
  {
    var status := StatusOf(PhaseAt(r.states[i], acc, id));
    EndedHasRecord(r.states[i], acc, id);
    KnownUntilReaped(r, i, j, acc, id);
    if AllSay(r, i, j, id, status) {
      forall lo: nat, hi: nat, accs: seq<Addr>, at: seq<nat> | i <= lo && hi <= j && Query(r, lo, hi, accs, at)
        ensures Reported(r, lo, hi, accs, at, id) == status
      {
        KnownUntilReaped(r, i, lo, acc, id);
        var k := KnownIsFound(r, lo, hi, accs, at, acc, id);
      }
    } else {
      var k: nat, a :| i <= k <= j && Knows(r.states[k], a, id) && StatusOf(PhaseAt(r.states[k], a, id)) != status;
      StatesHold(r);
      var accs := OrderFrom(r.states[k], a, id);
      AskedAtOnce(r, k, accs, id);
    }
  }

  // ---------------------------------------------------------------- one id under two accounts

  /** r' goes on from r, and the reaper does nothing in the meantime. */
  ghost predicate GoesOn(r: Run, r': Run) {
    && r.states <= r'.states && r.labels <= r'.labels
    && forall k :: |r.labels| <= k < |r'.labels| ==> !r'.labels[k].Delete?
  }

  lemma {:induction false} NewRef(refs: set<Ref>) returns (x: Ref)
    ensures forall y <- refs :: y < x
    decreases |refs|
  {
    if refs == {} {
      x := 0;
    } else {
      var one :| one in refs;
      x := NewRef(refs - {one});
      if x <= one { x := one + 1; }
      forall y <- refs ensures y < x { assert y == one || y in refs - {one}; }
    }
  }

  lemma OpenedForOther(s: State, other: Addr, acc: Addr, id: Id)
    requires Inv(s) && Typed(s) && !Knows(s, other, id) && Inv(Next(s, OpenStore(other)))
    ensures var s' := Next(s, OpenStore(other));
            && other in s'.stores && !s'.stores[other].Has(id) && s'.callers == s.callers
            && PhaseAt(s', acc, id) == PhaseAt(s, acc, id)
  {
    var s' := Next(s, OpenStore(other));
    PhaseWithoutCall(s, OpenStore(other), acc, id);
    PhaseWithoutCall(s, OpenStore(other), other, id);
    OpenStoreEffect(s, other);
    PhasesExclude(s', other, id);
  }

  lemma BegunForOther(s: State, other: Addr, acc: Addr, id: Id)
    requires Inv(s) && Typed(s) && Enabled(s, Begin(other, id)) && Inv(Next(s, Begin(other, id)))
    ensures var s' := Next(s, Begin(other, id));
            && (other, id) in s'.callers && s'.callers[(other, id)] == Checked
            && PhaseAt(s', acc, id) == PhaseAt(s, acc, id)
  {
    PhaseWithoutCall(s, Begin(other, id), acc, id);
    BeginEffect(s, Begin(other, id));
  }

  lemma OtherBegins(r: Run, s: State, acc: Addr, other: Addr, id: Id) returns (r': Run, s': State)
    requires EndsIn(r, s) && !Knows(s, other, id) && (other, id) !in s.callers
    ensures EndsIn(r', s') && GoesOn(r, r') && PhaseAt(s', acc, id) == PhaseAt(s, acc, id)
    ensures (other, id) in s'.callers && s'.callers[(other, id)] == Checked
  {
    r' := Extend(r, s, OpenStore(other));
    s' := Next(s, OpenStore(other));
    OpenedForOther(s, other, acc, id);
    r' := Extend(r', s', Begin(other, id));
    BegunForOther(s', other, acc, id);
    s' := Next(s', Begin(other, id));
  }

  /** Enqueue looks for an id in the account of the request only, so any run can go on with a
      request for an id that another account has already dealt with. */
  lemma SecondAccountEnqueues(r: Run, s: State, acc: Addr, other: Addr, id: Id) returns (r': Run, s': State)
    requires EndsIn(r, s) && acc != other && !Knows(s, other, id) && (other, id) !in s.callers
    ensures EndsIn(r', s') && GoesOn(r, r') && Inv(s')
    ensures PhaseAt(s', acc, id) == PhaseAt(s, acc, id) && PhaseAt(s', other, id) == AtPending
  {
    var s1: State;
    r', s1 := OtherBegins(r, s, acc, other, id);
    var x := NewRef(s1.heap.Keys);
    var l := Insert(other, id, x);
    r' := Extend(r', s1, l);
    PhaseAfterInsert(s1, other, id, x, acc, id);
    PhaseAfterInsert(s1, other, id, x, other, id);
    s' := Next(s1, l);
  }

  /** So the end of a transaction may be reported or not, as the order will have it: from any state
      in which an account has ended an id and another can take it up, the run can go on to one in
      which the same question gets both answers, although nothing was reaped. */
  lemma EndMayGoUnreported(r: Run, s: State, acc: Addr, other: Addr, id: Id)
    returns (r': Run, s': State, p: seq<Addr>, q: seq<Addr>)
    requires EndsIn(r, s) && PhaseAt(s, acc, id).Ended?
    requires acc != other && !Knows(s, other, id) && (other, id) !in s.callers
    ensures EndsIn(r', s') && GoesOn(r, r') && Typed(s')
    ensures Order(s', p) && StatusIn(s', p, id) == StatusOf(PhaseAt(s, acc, id))
    ensures Order(s', q) && StatusIn(s', q, id) == IsPending != StatusOf(PhaseAt(s, acc, id))
  {
    r', s' := SecondAccountEnqueues(r, s, acc, other, id);
    EndedHasRecord(s, acc, id);
    InvTyped(s');
    p := OrderFrom(s', acc, id);
    q := OrderFrom(s', other, id);
  }

  // ---------------------------------------------------------------- a run in which it happens

  /** A transaction that was reverted, and then its id enqueued for another account: the manager
      reports it as fatal in one order of the accounts and as pending in the other. */
  lemma RevertedMayReadPending() returns (r: Run, s: State, i: nat, p: seq<Addr>, q: seq<Addr>)
    ensures EndsIn(r, s) && Typed(s) && i < |r.states| && NotReaped(r, i, |r.states| - 1, "A", "x")
    ensures PhaseAt(r.states[i], "A", "x") == Ended(FatallyErrored)
    ensures Order(s, p) && StatusIn(s, p, "x") == IsFatal
    ensures Order(s, q) && StatusIn(s, q, "x") == IsPending
  {
    var r0, s0 := RunToReverted();
    i := |r0.states| - 1;
    r, s, p, q := EndMayGoUnreported(r0, s0, "A", "B", "x");
  }
}
