/** Double-checked locking, as AccountStore.GetTxStore and validatedCombinedClient.validate do it:
    look under the read lock, and if nothing is there look again under the write lock before
    filling the cell.  Threads interleave between any two steps. */
module DoubleChecked {

  import opened Options

  type Tid = nat

  datatype Pc<K, V> =
    | Asking(key: K)
    | Reading(key: K)
    | Saw(key: K, seen: Option<V>)
    | Missed(key: K)
    | Writing(key: K)
    | Filling(key: K)
    | Settled(key: K, got: Option<V>)
    | Returned(key: K, got: Option<V>)

  /** The cells, the threads' places and the lock. */
  datatype State<K, V> = State(
    cells: map<K, V>,
    threads: map<Tid, Pc<K, V>>,
    readers: set<Tid>,
    writer: Option<Tid>)

  /** A fill is given a value, or it fails and leaves the cell as it is. */
  datatype Label<K, V> =
    | Call(t: Tid, key: K)
    | LockRead(t: Tid)
    | Look(t: Tid)
    | UnlockRead(t: Tid)
    | LockWrite(t: Tid)
    | LookAgain(t: Tid)
    | Fill(t: Tid, outcome: Option<V>)
    | UnlockWrite(t: Tid)

  ghost function Peek<K, V>(cells: map<K, V>, key: K): Option<V> {
    if key in cells then Some(cells[key]) else None
  }

  ghost predicate Init<K, V>(s: State<K, V>) {
    s == State(map[], map[], {}, None)
  }

  ghost predicate Enabled<K, V>(s: State<K, V>, l: Label<K, V>) {
    if l.Call? then l.t !in s.threads || s.threads[l.t].Returned?
    else
      l.t in s.threads
      && match l
         case LockRead(t) => s.threads[t].Asking? && s.writer == None
         case Look(t) => s.threads[t].Reading?
         case UnlockRead(t) => s.threads[t].Saw?
         case LockWrite(t) => s.threads[t].Missed? && s.writer == None && s.readers == {}
         case LookAgain(t) => s.threads[t].Writing?
         case Fill(t, _) => s.threads[t].Filling?
         case UnlockWrite(t) => s.threads[t].Settled?
         case Call(_, _) => true
  }

  ghost function Next<K, V>(s: State<K, V>, l: Label<K, V>): State<K, V>
    requires Enabled(s, l)
  {
    var t := l.t;
    match l
    case Call(_, key) => s.(threads := s.threads[t := Asking(key)])
    case LockRead(_) => s.(threads := s.threads[t := Reading(s.threads[t].key)], readers := s.readers + {t})
    case Look(_) => s.(threads := s.threads[t := Saw(s.threads[t].key, Peek(s.cells, s.threads[t].key))])
    case UnlockRead(_) =>
      var pc := s.threads[t];
      s.(threads := s.threads[t := if pc.seen.Some? then Returned(pc.key, pc.seen) else Missed(pc.key)],
         readers := s.readers - {t})
    case LockWrite(_) => s.(threads := s.threads[t := Writing(s.threads[t].key)], writer := Some(t))
    case LookAgain(_) =>
      var key := s.threads[t].key;
      s.(threads := s.threads[t := if key in s.cells then Settled(key, Some(s.cells[key])) else Filling(key)])
    case Fill(_, outcome) =>
      var key := s.threads[t].key;
      if outcome.None? then s.(threads := s.threads[t := Settled(key, None)])
      else s.(threads := s.threads[t := Settled(key, outcome)],
              cells := s.cells[key := outcome.value])
    case UnlockWrite(_) =>
      s.(threads := s.threads[t := Returned(s.threads[t].key, s.threads[t].got)], writer := None)
  }

  datatype Run<K, V> = Run(states: seq<State<K, V>>, labels: seq<Label<K, V>>)

  ghost predicate StepAt<K, V>(r: Run<K, V>, i: int) {
    && 0 <= i < |r.labels| && i + 1 < |r.states|
    && Enabled(r.states[i], r.labels[i]) && r.states[i + 1] == Next(r.states[i], r.labels[i])
  }

  ghost predicate IsRun<K, V>(r: Run<K, V>) {
    |r.states| == |r.labels| + 1 && Init(r.states[0]) && forall i :: 0 <= i < |r.labels| ==> StepAt(r, i)
  }

  // ---------------------------------------------------------------- the invariant

  /** Who holds the lock, and what a thread has seen of its cell still stands. */
  ghost predicate ThreadOk<K, V>(s: State<K, V>, t: Tid) {
    if t !in s.threads then t !in s.readers && s.writer != Some(t)
    else
      var pc := s.threads[t];
      && (t in s.readers <==> pc.Reading? || pc.Saw?)
      && (s.writer == Some(t) <==> pc.Writing? || pc.Filling? || pc.Settled?)
      && (pc.Saw? && pc.seen.Some? ==> Peek(s.cells, pc.key) == pc.seen)
      && (pc.Filling? ==> pc.key !in s.cells)
      && ((pc.Settled? || pc.Returned?) && pc.got.Some? ==> Peek(s.cells, pc.key) == pc.got)
  }

  ghost predicate Inv<K, V>(s: State<K, V>) {
    (s.writer.Some? ==> s.readers == {}) && (forall t :: ThreadOk(s, t))
  }

  lemma StepKeepsInv<K, V>(s: State<K, V>, l: Label<K, V>)
    requires Inv(s) && Enabled(s, l)
    ensures Inv(Next(s, l))
    ensures forall key <- s.cells :: key in Next(s, l).cells && Next(s, l).cells[key] == s.cells[key]
  {
    var s' := Next(s, l);
    assert ThreadOk(s, l.t);
    forall t ensures ThreadOk(s', t) { assert ThreadOk(s, t); }
  }

  lemma {:induction false} RunKeepsInv<K, V>(r: Run<K, V>, n: nat)
    requires IsRun(r) && n < |r.states|
    ensures Inv(r.states[n])
  {
    if n > 0 {
      RunKeepsInv(r, n - 1);
      assert StepAt(r, n - 1);
      StepKeepsInv(r.states[n - 1], r.labels[n - 1]);
    }
  }

  /** A cell that is filled keeps its value for ever. */
  lemma {:induction false} CellsNeverChange<K, V>(r: Run<K, V>, i: nat, j: nat, key: K)
    requires IsRun(r) && i <= j < |r.states| && key in r.states[i].cells
    ensures key in r.states[j].cells && r.states[j].cells[key] == r.states[i].cells[key]
    decreases j
  {
    if i < j {
      CellsNeverChange(r, i, j - 1, key);
      RunKeepsInv(r, j - 1);
      assert StepAt(r, j - 1);
      StepKeepsInv(r.states[j - 1], r.labels[j - 1]);
    }
  }

  /** All threads that are given a value for a key, at whatever points of the run, are given the
      same one. */
  lemma OneValuePerKey<K, V>(r: Run<K, V>, i: nat, t: Tid, j: nat, u: Tid)
    requires IsRun(r) && i <= j < |r.states|
    requires t in r.states[i].threads && r.states[i].threads[t].Returned? && r.states[i].threads[t].got.Some?
    requires u in r.states[j].threads && r.states[j].threads[u].Returned? && r.states[j].threads[u].got.Some?
    ensures r.states[i].threads[t].key == r.states[j].threads[u].key ==>
              r.states[i].threads[t].got == r.states[j].threads[u].got
  {
    RunKeepsInv(r, i);
    RunKeepsInv(r, j);
    assert ThreadOk(r.states[i], t) && ThreadOk(r.states[j], u);
    CellsNeverChange(r, i, j, r.states[i].threads[t].key);
  }

  ghost function FillsOf<K, V>(r: Run<K, V>, n: nat, key: K): nat
    requires n <= |r.labels| && IsRun(r)
  {
    if n == 0 then 0
    else
      assert StepAt(r, n - 1);
      FillsOf(r, n - 1, key)
      + (if r.labels[n - 1].Fill? && r.labels[n - 1].outcome.Some?
            && r.states[n - 1].threads[r.labels[n - 1].t].key == key
         then 1 else 0)
  }

  /** A run makes one fill of a key that has a value, and none of a key that has not. */
  lemma {:induction false} FilledOnce<K, V>(r: Run<K, V>, n: nat, key: K)
    requires IsRun(r) && n <= |r.labels|
    ensures FillsOf(r, n, key) == if key in r.states[n].cells then 1 else 0
  {
    if n > 0 {
      FilledOnce(r, n - 1, key);
      RunKeepsInv(r, n - 1);
      assert StepAt(r, n - 1);
      assert ThreadOk(r.states[n - 1], r.labels[n - 1].t);
    }
  }
}
