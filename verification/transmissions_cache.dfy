/** The cache of the latest transmission.  A poll that meets a transmission not yet in a block
    (timestamp zero, answer not) leaves the cached details as they are. */
module TransmissionsCache {

  import opened Options

  /** LatestTimestamp as seconds since 1970; a time.Time that was never set is before that. */
  type Seconds = int

  const UNSET_TIME: Seconds := -62_135_596_800

  datatype Details = Details(digest: string, epoch: nat, round: nat, answer: int, timestamp: Seconds)

  /** What one poll meets: a failed read, or details read, checkedAt and skipClock being the two
      readings of the clock that follow. */
  datatype Fetch = Failed | Read(details: Details, checkedAt: int, skipClock: int)

  datatype State = State(details: Details, skipped: nat, skipStart: Option<int>, lastChecked: Option<int>)

  predicate Skips(f: Fetch) {
    f.Read? && f.details.timestamp == 0 && f.details.answer != 0
  }

  predicate Accepts(f: Fetch) {
    f.Read? && !Skips(f)
  }

  const Empty := State(Details("", 0, 0, 0, UNSET_TIME), 0, None, None)

  function Step(s: State, f: Fetch): State {
    if f.Failed? then s
    else if Skips(f) then
      s.(lastChecked := Some(f.checkedAt), skipped := s.skipped + 1,
         skipStart := if s.skipped == 0 then Some(f.skipClock) else s.skipStart)
    else State(f.details, 0, None, Some(f.checkedAt))
  }

  /** The object that the poller updates and the readers read, each under its lock. */
  class Cache {
    var transmissionDetails: Details
    var consecutiveSkippedTransmissions: nat
    var skippedTransmissionStartTime: Option<int>
    var tdLastCheckedAt: Option<int>
    const ttl: int

    ghost function Contents(): State
      reads this
    {
      State(transmissionDetails, consecutiveSkippedTransmissions, skippedTransmissionStartTime, tdLastCheckedAt)
    }

    constructor (ttl: int)
      ensures Contents() == Empty && this.ttl == ttl
    {
      this.ttl := ttl;
      transmissionDetails := Details("", 0, 0, 0, UNSET_TIME);
      consecutiveSkippedTransmissions := 0;
      skippedTransmissionStartTime, tdLastCheckedAt := None, None;
    }

    method UpdateTransmission(f: Fetch) returns (ok: bool)
      modifies this
      ensures Contents() == Step(old(Contents()), f)
      ensures ok <==> f.Read?
    {
      if f.Failed? {
        return false;
      }
      tdLastCheckedAt := Some(f.checkedAt);
      if f.details.timestamp == 0 && f.details.answer != 0 {
        if consecutiveSkippedTransmissions == 0 {
          skippedTransmissionStartTime := Some(f.skipClock);
        }
        consecutiveSkippedTransmissions := consecutiveSkippedTransmissions + 1;
        return true;
      }
      skippedTransmissionStartTime := None;
      consecutiveSkippedTransmissions := 0;
      transmissionDetails := f.details;
      return true;
    }

    method LatestTransmissionDetails(now: int) returns (details: Details, isFresh: bool)
      ensures details == Contents().details
      ensures isFresh <==> Contents().lastChecked.Some? && now - Contents().lastChecked.value <= ttl
    {
      details := transmissionDetails;
      isFresh := tdLastCheckedAt.Some? && now - tdLastCheckedAt.value <= ttl;
    }

    /** Start and then every tick of the loop: one update per fetch. */
    method Poll(fetches: seq<Fetch>)
      modifies this
      ensures Contents() == After(old(Contents()), fetches)
    {
      for i := 0 to |fetches|
        invariant Contents() == After(old(Contents()), fetches[..i])
      {
        assert fetches[..i + 1][..i] == fetches[..i];
        var _ := UpdateTransmission(fetches[i]);
      }
      assert fetches[..|fetches|] == fetches;
    }
  }

  function After(s: State, history: seq<Fetch>): State {
    if history == [] then s else Step(After(s, history[..|history| - 1]), history[|history| - 1])
  }

  // ---------------------------------------------------------------- what the cache stands for

  /** k is the last index below n at which p holds. */
  ghost predicate Last(history: seq<Fetch>, n: nat, p: Fetch -> bool, k: nat) {
    && k < n <= |history| && p(history[k])
    && forall i :: k < i < n ==> !p(history[i])
  }

  ghost predicate Never(history: seq<Fetch>, p: Fetch -> bool) {
    forall i :: 0 <= i < |history| ==> !p(history[i])
  }

  ghost function Skipped(history: seq<Fetch>, from: nat): set<nat> {
    set i: nat | from <= i < |history| && Skips(history[i])
  }

  /** No observation from index from on was accepted, and the one before was. */
  ghost predicate LastAccepted(history: seq<Fetch>, from: nat) {
    if from == 0 then Never(history, Accepts) else Last(history, |history|, Accepts, from - 1)
  }

  /** The skips of a history are counted: all since the last accepted observation, and the time of
      the first of them is on record. */
  ghost predicate Counted(s: State, history: seq<Fetch>, from: nat) {
    && s.skipped == |Skipped(history, from)|
    && (s.skipStart.Some? <==> Skipped(history, from) != {})
    && forall i <- Skipped(history, from) ::
         (forall k <- Skipped(history, from) :: i <= k) ==> s.skipStart == Some(history[i].skipClock)
  }

  lemma SkippedNext(front: seq<Fetch>, f: Fetch, from: nat)
    requires from <= |front|
    ensures Skipped(front + [f], from) == Skipped(front, from) + (if Skips(f) then {|front|} else {})
  {
  }

  lemma CountedNext(s: State, front: seq<Fetch>, f: Fetch, from: nat)
    requires Counted(s, front, from) && from <= |front| && !Accepts(f)
    ensures Counted(Step(s, f), front + [f], from) && Step(s, f).details == s.details
  {
    SkippedNext(front, f, from);
    var history, s' := front + [f], Step(s, f);
    assert |front| !in Skipped(front, from);
    assert Skipped(front, from) == {} <==> s.skipped == 0;
    forall i <- Skipped(history, from) | forall k <- Skipped(history, from) :: i <= k
      ensures s'.skipStart == Some(history[i].skipClock)
    {
      if Skipped(front, from) != {} {
        var first := FirstOf(Skipped(front, from));
        assert first in Skipped(history, from) && i in Skipped(front, from) && history[i] == front[i];
        assert |Skipped(front, from)| > 0;
      }
    }
  }

  lemma {:induction false} FirstOf(s: set<nat>) returns (i: nat)
    requires s != {}
    ensures i in s && forall k <- s :: i <= k
    decreases |s|
  {
    var one :| one in s;
    i := one;
    if s != {one} {
      assert s - {one} != {};
      var least := FirstOf(s - {one});
      i := if least < one then least else one;
    }
    forall k <- s ensures i <= k { assert k == one || k in s - {one}; }
  }

  /** After any history the cache holds the last observation that was accepted, from which on the
      skip counter has counted every skipped one; the time of the first of these is on record. */
  lemma {:induction false} HoldsLastAccepted(history: seq<Fetch>) returns (from: nat)
    ensures from <= |history| && LastAccepted(history, from) && Counted(After(Empty, history), history, from)
    ensures After(Empty, history).details == if from == 0 then Empty.details else history[from - 1].details
  {
    if history == [] {
      from := 0;
      assert Skipped(history, 0) == {};
    } else {
      var front, f := history[..|history| - 1], history[|history| - 1];
      assert history == front + [f];
      from := HoldsLastAccepted(front);
      if Accepts(f) {
        from := |history|;
        assert Skipped(history, from) == {};
      } else {
        CountedNext(After(Empty, front), front, f, from);
      }
    }
  }

  /** No reader is ever given an answer other than zero with timestamp zero. */
  lemma {:induction false} NoUnminedAnswer(history: seq<Fetch>)
    ensures var d := After(Empty, history).details; d.timestamp == 0 ==> d.answer == 0
  {
    if history != [] {
      NoUnminedAnswer(history[..|history| - 1]);
    }
  }

  /** After any history, details that are read are taken unless their timestamp is zero and their
      answer is not, and then, and if the read fails, the details are those from before. */
  lemma TakenUnlessUnmined(history: seq<Fetch>, f: Fetch)
    ensures var before, after := After(Empty, history).details, After(Empty, history + [f]).details;
            match f
            case Failed => after == before
            case Read(d, _, _) => after == if d.timestamp == 0 && d.answer != 0 then before else d
  {
    assert (history + [f])[..|history|] == history;
  }

  predicate IsRead(f: Fetch) { f.Read? }

  /** The cache counts as fresh exactly if some fetch succeeded and the last to do so was within
      the time to live, whether or not it was skipped. */
  lemma {:induction false} FreshIffRecentRead(history: seq<Fetch>, now: int, ttl: int)
    ensures var checked := After(Empty, history).lastChecked;
            checked.Some? && now - checked.value <= ttl
            <==> exists k: nat :: Last(history, |history|, IsRead, k) && now - history[k].checkedAt <= ttl
    ensures After(Empty, history).lastChecked.None? ==> Never(history, IsRead)
  {
    var checked := After(Empty, history).lastChecked;
    if k: nat :| Last(history, |history|, IsRead, k) {
      CheckedAtLastRead(history, k);
      if k': nat :| Last(history, |history|, IsRead, k') && now - history[k'].checkedAt <= ttl { assert k' == k; }
    } else {
      NeverRead(history);
    }
  }

  lemma {:induction false} CheckedAtLastRead(history: seq<Fetch>, k: nat)
    requires Last(history, |history|, IsRead, k)
    ensures After(Empty, history).lastChecked == Some(history[k].checkedAt)
  {
    if k < |history| - 1 {
      assert !IsRead(history[|history| - 1]);
      CheckedAtLastRead(history[..|history| - 1], k);
    }
  }

  lemma {:induction false} NeverRead(history: seq<Fetch>)
    requires forall k: nat :: !Last(history, |history|, IsRead, k)
    ensures After(Empty, history).lastChecked == None && Never(history, IsRead)
  {
    if history != [] {
      var n := |history| - 1;
      var front := history[..n];
      assert !Last(history, |history|, IsRead, n);
      forall k: nat ensures !Last(front, n, IsRead, k) {
        if Last(front, n, IsRead, k) { assert Last(history, |history|, IsRead, k); }
      }
      NeverRead(front);
    }
  }
}
