/** When the reaper removes a finished transaction, by the clock. */
module ManagerReaping {

  import opened Options
  import opened TxStoreSpec
  import opened Manager
  import opened ManagerInvariant
  import opened ManagerSteps
  import opened ManagerRuns
  import opened ManagerLifecycle
  import opened ManagerRecords

  // ---------------------------------------------------------------- the clock

  lemma ClockStep(s: State, l: Label)
    requires Enabled(s, l) && Typed(s)
    ensures Next(s, l).retention == s.retention && Next(s, l).now >= s.now
  {
    if l.Examine? || l.RetryStep? || l.Reorganize? { CallKeepsClock(s, l); }
    else if OfConfirm(l) { ConfirmKeepsClock(s, l); }
  }

  lemma CallKeepsClock(s: State, l: Label)
    requires Enabled(s, l) && Typed(s) && (l.Examine? || l.RetryStep? || l.Reorganize?)
    ensures Next(s, l).retention == s.retention && Next(s, l).now == s.now && Next(s, l).reap == s.reap
  {
    CallControlsClock(s, l);
  }

  lemma CallControlsClock(s: State, l: Label)
    requires Enabled(s, l) && Typed(s) && (l.Examine? || l.RetryStep? || l.Reorganize?)
    ensures var c := Control(s, l); c.retention == s.retention && c.now == s.now && c.reap == s.reap
  {
    if l.Examine? { ExamineControlsClock(s, l); }
  }

  lemma ExamineControlsClock(s: State, l: Label)
    requires Enabled(s, l) && Typed(s) && l.Examine?
    ensures var c := Control(s, l); c.retention == s.retention && c.now == s.now && c.reap == s.reap
  {}

  lemma ConfirmKeepsClock(s: State, l: Label)
    requires Enabled(s, l) && Typed(s) && OfConfirm(l) && !l.Examine? && !l.RetryStep? && !l.Reorganize?
    ensures Next(s, l).retention == s.retention && Next(s, l).now == s.now && Next(s, l).reap == s.reap
  {
    ConfirmControlsClock(s, l);
  }

  lemma ConfirmControlsClock(s: State, l: Label)
    requires Enabled(s, l) && Typed(s) && OfConfirm(l) && !l.Examine? && !l.RetryStep? && !l.Reorganize?
    ensures var c := Control(s, l); c.retention == s.retention && c.now == s.now && c.reap == s.reap
  {}

  lemma {:induction false} ClockRuns(r: Run, i: nat, n: nat)
    requires IsRun(r) && i <= n < |r.states|
    ensures r.states[n].retention == r.states[i].retention && r.states[n].now >= r.states[i].now
    decreases n
  {
    if i < n {
      ClockRuns(r, i, n - 1);
      assert StepAt(r, n - 1);
      ClockStep(r.states[n - 1], r.labels[n - 1]);
    }
  }

  // ---------------------------------------------------------------- a pass of the reaper

  /** The reaper is at work with what it was to remove at time now. */
  ghost predicate Working(s: State, cutoff: int) {
    !s.reap.Resting? && s.reap.cutoff == cutoff
  }

  lemma ReapStep(s: State, l: Label)
    requires Enabled(s, l) && Typed(s)
    ensures match l
            case StartReap => s.reap == Resting && Next(s, l).reap == Collecting(s.now - s.retention, s.stores.Keys)
            case Collect(acc, _) =>
              && s.reap.Collecting? && acc in s.reap.left
              && Next(s, l).reap == Collecting(s.reap.cutoff, s.reap.left - {acc})
            case EndCollect => s.reap.Collecting? && s.reap.left == {} && Next(s, l).reap == Deleting(s.reap.cutoff)
            case EndReap => s.reap.Deleting? && s.plan == map[] && Next(s, l).reap == Resting
            case _ => Next(s, l).reap == s.reap
  {
    if l.Examine? || l.RetryStep? || l.Reorganize? { CallKeepsClock(s, l); }
    else if OfConfirm(l) { ConfirmKeepsClock(s, l); }
  }

  /** At work, the reaper has started at some time, and works by that time and the retention period. */
  lemma {:induction false} WorkingSince(r: Run, n: nat) returns (k: nat)
    requires IsRun(r) && n < |r.states| && !r.states[n].reap.Resting?
    ensures k < n && r.labels[k] == StartReap && Working(r.states[n], r.states[k].now - r.states[k].retention)
    ensures forall j :: k < j < n ==> r.labels[j] != StartReap && r.labels[j] != EndReap
    decreases n
  {
    assert StepAt(r, n - 1);
    ReapStep(r.states[n - 1], r.labels[n - 1]);
    if r.labels[n - 1] == StartReap { k := n - 1; } else { k := WorkingSince(r, n - 1); }
  }

  /** Steps i to n are those of one pass. */
  ghost predicate InPass(r: Run, i: nat, n: nat) {
    IsRun(r) && i < n <= |r.labels| && r.labels[i] == StartReap && forall j :: i < j < n ==> r.labels[j] != EndReap
  }

  lemma {:induction false} PassWorks(r: Run, i: nat, n: nat)
    requires InPass(r, i, n)
    ensures Working(r.states[n], r.states[i].now - r.states[i].retention)
    ensures forall j :: i < j < n ==> r.labels[j] != StartReap
    decreases n
  {
    assert StepAt(r, n - 1);
    ReapStep(r.states[n - 1], r.labels[n - 1]);
    if i < n - 1 { PassWorks(r, i, n - 1); }
  }

  ghost predicate Left(s: State, acc: Addr) {
    s.reap.Collecting? && acc in s.reap.left
  }

  /** The account has been looked at when the pass no longer has it to do. */
  lemma {:induction false} CollectedInPass(r: Run, i: nat, n: nat, acc: Addr) returns (j: nat)
    requires InPass(r, i, n) && acc in r.states[i].stores && !Left(r.states[n], acc)
    ensures i < j < n && r.labels[j].Collect? && r.labels[j].acc == acc
    ensures forall k :: j < k < n ==> !(r.labels[k].Collect? && r.labels[k].acc == acc)
    decreases n
  {
    assert StepAt(r, n - 1);
    ReapStep(r.states[n - 1], r.labels[n - 1]);
    PassWorks(r, i, n);
    if r.labels[n - 1].Collect? && r.labels[n - 1].acc == acc {
      j := n - 1;
    } else {
      j := CollectedInPass(r, i, n - 1, acc);
    }
  }

  // ---------------------------------------------------------------- what a snapshot condemns

  /** The plan entry of an account stays until the reaper acts on it or takes a new snapshot. */
  lemma {:induction false} PlanStays(r: Run, i: nat, j: nat, acc: Addr)
    requires IsRun(r) && i <= j < |r.states|
    requires forall k :: i <= k < j ==>
               k < |r.labels| && r.labels[k] != Delete(acc) && !(r.labels[k].Collect? && r.labels[k].acc == acc)
    ensures acc in r.states[j].plan <==> acc in r.states[i].plan
    ensures acc in r.states[i].plan ==> r.states[j].plan[acc] == r.states[i].plan[acc]
    decreases j
  {
    if i < j {
      PlanStays(r, i, j - 1, acc);
      assert StepAt(r, j - 1);
      PlanStep(r.states[j - 1], r.labels[j - 1], acc);
    }
  }

  lemma PlanStep(s: State, l: Label, acc: Addr)
    requires Enabled(s, l) && Typed(s) && l != Delete(acc) && !(l.Collect? && l.acc == acc)
    ensures acc in Next(s, l).plan <==> acc in s.plan
    ensures acc in s.plan ==> Next(s, l).plan[acc] == s.plan[acc]
  {
    PlanControl(s, l, acc);
  }

  lemma PlanControl(s: State, l: Label, acc: Addr)
    requires Enabled(s, l) && Typed(s) && l != Delete(acc) && !(l.Collect? && l.acc == acc)
    ensures acc in Control(s, l).plan <==> acc in s.plan
    ensures acc in s.plan ==> Control(s, l).plan[acc] == s.plan[acc]
  {
    if l.Examine? || l.RetryStep? || l.Reorganize? { CallKeepsPlan(s, l); }
  }

  lemma CallKeepsPlan(s: State, l: Label)
    requires Enabled(s, l) && Typed(s) && (l.Examine? || l.RetryStep? || l.Reorganize?)
    ensures Control(s, l).plan == s.plan
  {}

  lemma CollectEffect(s: State, acc: Addr, ids: seq<Id>)
    requires PlanOk(s) && Enabled(s, Collect(acc, ids)) && Typed(s)
    ensures var ids', plan := Expired(ids, s.stores[acc].finished, s.reap.cutoff), Next(s, Collect(acc, ids)).plan;
            (acc in plan <==> ids' != []) && (acc in plan ==> plan[acc] == ids')
  {}

  lemma SnapshotRecordKept(r: Run, i: nat, n: nat, acc: Addr, id: Id)
    requires IsRun(r) && i < n < |r.labels| && r.labels[i].Collect?
    requires acc in r.states[i].stores && id in r.states[i].stores[acc].finished
    requires forall k :: i < k < n ==> r.labels[k] != Delete(acc)
    ensures acc in r.states[n].stores && id in r.states[n].stores[acc].finished
    ensures r.states[n].stores[acc].finished[id] == r.states[i].stores[acc].finished[id]
  {
    RunKeepsInv(r, i);
    PhasesExclude(r.states[i], acc, id);
    KnownUntilReaped(r, i, n, acc, id);
  }

  ghost function ExpiredIn(finished: map<Id, Finished<Ref>>, cutoff: int): set<Id> {
    set id | id in finished && finished[id].retentionTs < cutoff
  }

  /** From s to s' exactly the records due, which are those of f0, leave the store of acc together
      with their index entries, and each is counted once; every other record, index entry, object
      and store is as it was. */
  ghost predicate Removes(s: State, s': State, acc: Addr, f0: map<Id, Finished<Ref>>, due: set<Id>)
    requires forall id <- due :: id in f0
  {
    && acc in s.stores && acc in s.plan
    && var before := s.stores[acc];
       var after := before.(finished := before.finished - due,
                            hashToId := before.hashToId - (set id | id in due :: f0[id].hash));
       && (forall id <- due :: id in before.finished && before.finished[id] == f0[id])
       && s'.stores == s.stores[acc := after]
       && s'.heap == s.heap
       && DeleteFinished(before, s.plan[acc]).1 == |due|
       && (forall hash <- before.hashToId :: before.hashToId[hash] !in due ==> hash in after.hashToId)
  }

  /** The records that ended longer ago than the retention period. */
  ghost function OldIn(finished: map<Id, Finished<Ref>>, now: int, retention: int): set<Id> {
    set id | id in finished && now - finished[id].retentionTs > retention
  }

  /** Step i takes the reaper's snapshot of an account and step n acts on it.  Although other
      goroutines ran in between, the deletion removes exactly the records of the snapshot that were
      older than the retention period when the pass began, unchanged since. */
  lemma ReapingIsExact(r: Run, i: nat, n: nat, acc: Addr, ids: seq<Id>) returns (k: nat)
    requires IsRun(r) && i < n < |r.labels| && r.labels[i] == Collect(acc, ids) && r.labels[n] == Delete(acc)
    requires forall k :: i < k < n ==> r.labels[k] != Delete(acc) && !(r.labels[k].Collect? && r.labels[k].acc == acc)
    ensures acc in r.states[i].stores
    ensures k < i && r.labels[k] == StartReap && forall j :: k < j < i ==> r.labels[j] != StartReap
    ensures var f0, now := r.states[i].stores[acc].finished, r.states[k].now;
            Removes(r.states[n], r.states[n + 1], acc, f0, OldIn(f0, now, r.states[k].retention))
  {
    assert StepAt(r, i);
    k := WorkingSince(r, i);
    assert StepAt(r, n);
    RunKeepsInv(r, n);
    PlanIsOfSnapshot(r, i, n, acc, ids);
    var s, f0 := r.states[n], r.states[i].stores[acc].finished;
    var due := OldIn(f0, r.states[k].now, r.states[k].retention);
    assert due == ExpiredIn(f0, r.states[i].reap.cutoff);
    forall id <- due ensures acc in s.stores && id in s.stores[acc].finished && s.stores[acc].finished[id] == f0[id] {
      SnapshotRecordKept(r, i, n, acc, id);
    }
    DeleteIsExact(s, acc, f0, due);
  }

  lemma PlanIsOfSnapshot(r: Run, i: nat, n: nat, acc: Addr, ids: seq<Id>)
    requires IsRun(r) && i < n < |r.labels| && r.labels[i] == Collect(acc, ids) && r.labels[n] == Delete(acc)
    requires forall k :: i < k < n ==> r.labels[k] != Delete(acc) && !(r.labels[k].Collect? && r.labels[k].acc == acc)
    ensures acc in r.states[i].stores && r.states[i].reap.Collecting?
    ensures acc in r.states[n].plan && acc in r.states[n].stores
    ensures forall id :: id in r.states[n].plan[acc]
                         <==> id in ExpiredIn(r.states[i].stores[acc].finished, r.states[i].reap.cutoff)
  {
    assert StepAt(r, n);
    RunKeepsInv(r, n);
    PlanNeedsStore(r.states[n], acc);
    PlanStays(r, i + 1, n, acc);
    PlanOfCollect(r, i, acc, ids);
  }

  lemma PlanOfCollect(r: Run, i: nat, acc: Addr, ids: seq<Id>)
    requires IsRun(r) && i < |r.labels| && r.labels[i] == Collect(acc, ids)
    ensures acc in r.states[i].stores && r.states[i].reap.Collecting?
    ensures acc in r.states[i + 1].plan ==>
              forall id :: id in r.states[i + 1].plan[acc]
                           <==> id in ExpiredIn(r.states[i].stores[acc].finished, r.states[i].reap.cutoff)
  {
    assert StepAt(r, i);
    RunKeepsInv(r, i);
    CollectEffect(r.states[i], acc, ids);
  }

  lemma PlanNeedsStore(s: State, acc: Addr)
    requires Inv(s) && acc in s.plan
    ensures acc in s.stores
  {}

  lemma DeleteIsExact(s: State, acc: Addr, f0: map<Id, Finished<Ref>>, due: set<Id>)
    requires Inv(s) && Enabled(s, Delete(acc)) && Typed(s) && acc in s.stores
    requires forall id :: id in s.plan[acc] <==> id in due
    requires forall id <- due :: id in f0 && id in s.stores[acc].finished && s.stores[acc].finished[id] == f0[id]
    ensures Removes(s, Next(s, Delete(acc)), acc, f0, due)
  {
    var before := s.stores[acc];
    DeleteEffect(s, acc);
    DeleteFinishedExact(before, s.plan[acc]);
    assert FinishedAmong(before, s.plan[acc]) == due;
    assert HashesOf(before, s.plan[acc]) == (set id | id in due :: f0[id].hash);
    assert StoreOk(s, acc);
    DeleteFinishedKeepsValid(before, Settled(s), s.plan[acc]);
  }

  // ---------------------------------------------------------------- only what is old

  ghost predicate DeletedAt(r: Run, k: nat, acc: Addr, id: Id) {
    k < |r.labels| && k < |r.states| && Deletes(r.states[k], r.labels[k], acc, id)
  }

  lemma DeletedIsDue(s: State, acc: Addr, id: Id)
    requires Inv(s) && Enabled(s, Delete(acc)) && Deletes(s, Delete(acc), acc, id)
    ensures s.reap.Deleting? && acc in s.stores && id in s.stores[acc].finished
    ensures s.stores[acc].finished[id].retentionTs < s.reap.cutoff
  {
    assert Due(s, acc, id, s.reap.cutoff);
  }

  /** Whatever the reaper removes had ended longer ago than the retention period when it started. */
  lemma DeletedIsOld(r: Run, n: nat, acc: Addr, id: Id) returns (k: nat)
    requires IsRun(r) && DeletedAt(r, n, acc, id)
    ensures acc in r.states[n].stores && id in r.states[n].stores[acc].finished
    ensures k < n && r.labels[k] == StartReap
    ensures r.states[k].now - r.states[n].stores[acc].finished[id].retentionTs > r.states[k].retention
  {
    assert StepAt(r, n);
    RunKeepsInv(r, n);
    DeletedIsDue(r.states[n], acc, id);
    k := WorkingSince(r, n);
  }

  lemma KeptTillThen(r: Run, i: nat, n: nat, acc: Addr, id: Id)
    requires IsRun(r) && i <= n < |r.states| && NotReaped(r, i, n, acc, id)
    requires acc in r.states[i].stores && id in r.states[i].stores[acc].finished
    ensures acc in r.states[n].stores && id in r.states[n].stores[acc].finished
    ensures r.states[n].stores[acc].finished[id] == r.states[i].stores[acc].finished[id]
  {
    RunKeepsInv(r, i);
    PhaseOfRecord(r.states[i], acc, id);
    KnownUntilReaped(r, i, n, acc, id);
  }

  lemma YoungIsNotDeleted(r: Run, k: nat, n: nat, acc: Addr, id: Id)
    requires IsRun(r) && k <= n < |r.labels|
    requires acc in r.states[n].stores && id in r.states[n].stores[acc].finished
    requires r.states[n].stores[acc].finished[id].retentionTs == r.states[k].now
    requires r.states[n].now - r.states[k].now <= r.states[k].retention
    ensures !DeletedAt(r, n, acc, id)
  {
    if DeletedAt(r, n, acc, id) {
      var i := DeletedIsOld(r, n, acc, id);
      ClockRuns(r, i, n);
      ClockRuns(r, 0, i);
      ClockRuns(r, 0, k);
    }
  }

  lemma {:induction false} YoungIsNotReaped(r: Run, k: nat, n: nat, acc: Addr, id: Id, f: Finished<Ref>)
    requires IsRun(r) && k < n < |r.states|
    requires EndedAs(r.states[k + 1], acc, id, f) && f.retentionTs == r.states[k].now
    requires r.states[n].now - r.states[k].now <= r.states[k].retention
    ensures NotReaped(r, k + 1, n, acc, id)
    decreases n
  {
    if k + 1 < n {
      ClockRuns(r, n - 1, n);
      YoungIsNotReaped(r, k, n - 1, acc, id, f);
      KeptTillThen(r, k + 1, n - 1, acc, id);
      YoungIsNotDeleted(r, k, n - 1, acc, id);
    }
  }

  /** From the step that ends it, an id stays known, with the same record, for at least the retention
      period. */
  lemma KnownForRetention(r: Run, k: nat, n: nat, acc: Addr, id: Id) returns (f: Finished<Ref>)
    requires IsRun(r) && k < n < |r.states|
    requires !PhaseAt(r.states[k], acc, id).Ended? && PhaseAt(r.states[k + 1], acc, id).Ended?
    requires r.states[n].now - r.states[k].now <= r.states[k].retention
    ensures EndedAs(r.states[k + 1], acc, id, f) && EndedAs(r.states[n], acc, id, f)
    ensures PhaseAt(r.states[n], acc, id) == PhaseAt(r.states[k + 1], acc, id)
  {
    var s := r.states[k];
    EndedHasRecord(r.states[k + 1], acc, id);
    f := r.states[k + 1].stores[acc].finished[id];
    RunKeepsInv(r, k);
    assert StepAt(r, k);
    FinishedStep(s, r.labels[k], acc, id, f);
    if acc in s.stores { PhaseOfRecord(s, acc, id); }
    YoungIsNotReaped(r, k, n, acc, id, f);
    KeptTillThen(r, k + 1, n, acc, id);
    KnownUntilReaped(r, k + 1, n, acc, id);
  }

  // ---------------------------------------------------------------- all that is old

  lemma {:induction false} DeletedInPassIsOld(r: Run, i: nat, k: nat, acc: Addr, id: Id)
    requires InPass(r, i, k) && DeletedAt(r, k, acc, id)
    requires acc in r.states[i].stores && id in r.states[i].stores[acc].finished
    ensures r.states[i].now - r.states[i].stores[acc].finished[id].retentionTs > r.states[i].retention
    decreases k
  {
    if NotReaped(r, i, k, acc, id) {
      KeptTillThen(r, i, k, acc, id);
      assert StepAt(r, k);
      RunKeepsInv(r, k);
      DeletedIsDue(r.states[k], acc, id);
      PassWorks(r, i, k);
    } else {
      var j: nat :| i <= j < k && Deletes(r.states[j], r.labels[j], acc, id);
      DeletedInPassIsOld(r, i, j, acc, id);
    }
  }

  lemma {:induction false} FirstDelete(r: Run, j: nat, n: nat, acc: Addr) returns (m: nat)
    requires j < n <= |r.labels|
    ensures j < m <= n && (m < n ==> r.labels[m] == Delete(acc))
    ensures forall k :: j < k < m ==> r.labels[k] != Delete(acc)
    decreases n - j
  {
    m := n;
    if j + 1 < n {
      if r.labels[j + 1] == Delete(acc) { m := j + 1; } else { m := FirstDelete(r, j + 1, n, acc); }
    }
  }

  /** What a pass found old is on its plan until it is removed. */
  lemma PlannedInPass(r: Run, i: nat, j: nat, acc: Addr, id: Id)
    requires InPass(r, i, j) && j < |r.labels| && r.labels[j].Collect? && r.labels[j].acc == acc
    requires acc in r.states[j].stores && id in r.states[j].stores[acc].finished
    requires var age := r.states[i].now - r.states[j].stores[acc].finished[id].retentionTs; age > r.states[i].retention
    ensures acc in r.states[j + 1].plan && id in r.states[j + 1].plan[acc]
  {
    assert StepAt(r, j);
    RunKeepsInv(r, j);
    PassWorks(r, i, j);
    CollectEffect(r.states[j], acc, r.labels[j].ids);
  }

  /** A pass that comes to its end has removed exactly those of the records it found finished that
      had ended longer ago than the retention period when it started. */
  lemma PassRemovesTheOld(r: Run, i: nat, n: nat, acc: Addr, id: Id)
    requires InPass(r, i, n) && n < |r.labels| && r.labels[n] == EndReap
    requires acc in r.states[i].stores && id in r.states[i].stores[acc].finished
    ensures (exists k: nat :: i < k < n && DeletedAt(r, k, acc, id))
            <==> r.states[i].now - r.states[i].stores[acc].finished[id].retentionTs > r.states[i].retention
  {
    if k: nat :| i < k < n && DeletedAt(r, k, acc, id) {
      DeletedInPassIsOld(r, i, k, acc, id);
    } else if r.states[i].now - r.states[i].stores[acc].finished[id].retentionTs > r.states[i].retention {
      var k := OldIsRemoved(r, i, n, acc, id);
    }
  }

  lemma PlannedIsRemoved(r: Run, j: nat, n: nat, acc: Addr, id: Id) returns (k: nat)
    requires IsRun(r) && j < n < |r.labels| && r.states[n].plan == map[]
    requires acc in r.states[j + 1].plan && id in r.states[j + 1].plan[acc]
    requires forall k :: j < k < n ==> !(r.labels[k].Collect? && r.labels[k].acc == acc)
    ensures j < k < n && DeletedAt(r, k, acc, id)
  {
    k := FirstDelete(r, j, n, acc);
    PlanStays(r, j + 1, k, acc);
  }

  lemma OldIsRemoved(r: Run, i: nat, n: nat, acc: Addr, id: Id) returns (k: nat)
    requires InPass(r, i, n) && n < |r.labels| && r.labels[n] == EndReap
    requires acc in r.states[i].stores && id in r.states[i].stores[acc].finished
    requires r.states[i].now - r.states[i].stores[acc].finished[id].retentionTs > r.states[i].retention
    ensures i < k < n && DeletedAt(r, k, acc, id)
  {
    assert StepAt(r, n);
    ReapStep(r.states[n], EndReap);
    var j := CollectedInPass(r, i, n, acc);
    if NotReaped(r, i, j, acc, id) {
      KeptTillThen(r, i, j, acc, id);
      PlannedInPass(r, i, j, acc, id);
      k := PlannedIsRemoved(r, j, n, acc, id);
    } else {
      k :| i <= k < j && Deletes(r.states[k], r.labels[k], acc, id);
    }
  }
}
