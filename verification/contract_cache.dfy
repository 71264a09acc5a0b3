/** The cache of the contract's latest config.  A poll asks the chain for the latest block with a
    config, then for the config of that block if it is not the cached one, then for the height;
    the chain may grow between the questions. */
module ContractCache {

  import opened Options

  datatype Config = Config(digest: string, content: string)

  datatype Entry = Entry(block: nat, config: Config)

  const ZERO_DIGEST := ""
  const NO_CONFIG := Config(ZERO_DIGEST, "")

  /** All configs the contract is ever given, in order; what the chain shows is a prefix.  A block
      may be given more than one. */
  type History = h: seq<Entry> | Ordered(h) witness []

  predicate Ordered(h: seq<Entry>) {
    && (forall i :: 0 <= i < |h| ==> h[i].block > 0)
    && (forall i, j :: 0 <= i < j < |h| ==> h[i].block <= h[j].block)
  }

  /** The reader's latestConfigDetails when the first n configs are on the chain. */
  function LatestDetails(h: History, n: nat): (nat, string)
    requires n <= |h|
  {
    if n == 0 then (0, ZERO_DIGEST) else (h[n - 1].block, h[n - 1].config.digest)
  }

  /** One lookup of a block's config: how many configs were on the chain, and the events it did not
      see, by their place in the history.  The reader passes over a transaction whose details it
      cannot fetch and one sent to another contract; configs are taken to come in transactions of
      their own. */
  datatype Lookup = Lookup(at: nat, skipped: set<nat>)

  /** The places of the ConfigSet events that a lookup sees in a block. */
  function SeenIn(h: History, n: nat, block: nat, skipped: set<nat>): (seen: seq<nat>)
    requires n <= |h|
    ensures forall k <- seen :: k < n && h[k].block == block && k !in skipped
    decreases n
  {
    if n == 0 then []
    else SeenIn(h, n - 1, block, skipped) + if h[n - 1].block == block && n - 1 !in skipped then [n - 1] else []
  }

  /** The reader's config of a block, by its place: an error unless exactly one event is seen. */
  function ConfigAt(h: History, l: Lookup, block: nat): (found: Option<nat>)
    requires l.at <= |h|
    ensures found.Some? ==> found.value < l.at && h[found.value].block == block
  {
    var seen := SeenIn(h, l.at, block, l.skipped);
    if |seen| == 1 then assert seen[0] in seen; Some(seen[0]) else None
  }

  /** One poll: how many configs were on the chain when the details were asked for, the lookup of the
      config, and the height; None is a call that failed. */
  datatype Poll = Poll(atDetails: Option<nat>, lookup: Option<Lookup>, height: Option<nat>, now: int)

  datatype State = State(block: nat, config: Config, height: nat, lastChecked: Option<int>)

  const Empty := State(0, NO_CONFIG, 0, None)

  predicate Fits(h: History, p: Poll) {
    (p.atDetails.Some? ==> p.atDetails.value <= |h|) && (p.lookup.Some? ==> p.lookup.value.at <= |h|)
  }

  /** The poll finds everything it asks for. */
  predicate Succeeds(s: State, h: History, p: Poll)
    requires Fits(h, p)
  {
    && p.atDetails.Some? && p.height.Some?
    && var (block, digest) := LatestDetails(h, p.atDetails.value);
       (s.block == block && s.config.digest == digest)
       || (p.lookup.Some? && ConfigAt(h, p.lookup.value, block).Some?)
  }

  function Step(s: State, h: History, p: Poll): State
    requires Fits(h, p)
  {
    if !Succeeds(s, h, p) then s
    else
      var (block, digest) := LatestDetails(h, p.atDetails.value);
      if s.block == block && s.config.digest == digest
      then s.(height := p.height.value, lastChecked := Some(p.now))
      else State(block, h[ConfigAt(h, p.lookup.value, block).value].config, p.height.value, Some(p.now))
  }

  class Cache {
    var config: Config
    var configBlock: nat
    var blockHeight: nat
    var ccLastCheckedAt: Option<int>
    const ttl: int

    ghost function Contents(): State
      reads this
    {
      State(configBlock, config, blockHeight, ccLastCheckedAt)
    }

    constructor (ttl: int)
      ensures Contents() == Empty && this.ttl == ttl
    {
      this.ttl := ttl;
      config, configBlock, blockHeight, ccLastCheckedAt := NO_CONFIG, 0, 0, None;
    }

    method UpdateConfig(h: History, p: Poll) returns (ok: bool)
      requires Fits(h, p)
      modifies this
      ensures Contents() == Step(old(Contents()), h, p)
      ensures ok <==> Succeeds(old(Contents()), h, p)
    {
      if p.atDetails.None? {
        return false;
      }
      var (block, digest) := LatestDetails(h, p.atDetails.value);
      var isSame := configBlock == block && config.digest == digest;
      var newConfig := NO_CONFIG;
      if !isSame {
        if p.lookup.None? {
          return false;
        }
        var found := ConfigAt(h, p.lookup.value, block);
        if found.None? {
          return false;
        }
        newConfig := h[found.value].config;
      }
      if p.height.None? {
        return false;
      }
      ccLastCheckedAt := Some(p.now);
      blockHeight := p.height.value;
      if !isSame {
        config, configBlock := newConfig, block;
      }
      return true;
    }

    method LatestConfigDetails(now: int) returns (changedInBlock: nat, digest: string, isFresh: bool)
      ensures changedInBlock == Contents().block && digest == Contents().config.digest
      ensures isFresh <==> NotStale(Contents(), now, ttl)
    {
      changedInBlock, digest := configBlock, config.digest;
      isFresh := ccLastCheckedAt.Some? && now - ccLastCheckedAt.value <= ttl;
    }

    method LatestConfig(changedInBlock: nat, now: int) returns (latest: Config, isFresh: bool)
      ensures latest == Contents().config
      ensures isFresh <==> NotStale(Contents(), now, ttl)
    {
      latest := config;
      isFresh := ccLastCheckedAt.Some? && now - ccLastCheckedAt.value <= ttl;
    }

    method LatestBlockHeight(now: int) returns (height: nat, isFresh: bool)
      ensures height == Contents().height
      ensures isFresh <==> NotStale(Contents(), now, ttl)
    {
      height := blockHeight;
      isFresh := ccLastCheckedAt.Some? && now - ccLastCheckedAt.value <= ttl;
    }
  }

  predicate NotStale(s: State, now: int, ttl: int) {
    s.lastChecked.Some? && now - s.lastChecked.value <= ttl
  }

  function After(h: History, polls: seq<Poll>): State
    requires forall p <- polls :: Fits(h, p)
  {
    if polls == [] then Empty else Step(After(h, polls[..|polls| - 1]), h, polls[|polls| - 1])
  }

  predicate InOrder(p: Poll) {
    p.atDetails.Some? && p.lookup.Some? ==> p.atDetails.value <= p.lookup.value.at
  }

  /** The polls see a chain that only grows: time passes within a poll and from one to the next. */
  predicate Chronological(h: History, polls: seq<Poll>) {
    && (forall p <- polls :: Fits(h, p))
    && (forall p <- polls :: InOrder(p))
    && (forall i, j :: 0 <= i < j < |polls| && polls[i].atDetails.Some? && polls[j].atDetails.Some? ==>
          polls[i].atDetails.value <= polls[j].atDetails.value)
  }

  /** The cache holds nothing, or a block with one of the configs that the block was given. */
  predicate Holds(h: History, s: State, i: nat) {
    if i == 0 then s.block == 0 && s.config == NO_CONFIG
    else i <= |h| && s.block == h[i - 1].block && s.config == h[i - 1].config
  }

  /** The cache has the block and the digest of the details that are read when n configs are on the
      chain. */
  predicate Cached(h: History, s: State, n: nat)
    requires n <= |h|
  {
    (s.block, s.config.digest) == LatestDetails(h, n)
  }

  lemma {:induction false} NothingBeforeBlocks(h: History, n: nat, skipped: set<nat>)
    requires n <= |h|
    ensures SeenIn(h, n, 0, skipped) == []
  {
    if n > 0 { NothingBeforeBlocks(h, n - 1, skipped); }
  }

  /** A poll that succeeds leaves the block of the details.  If they were cached already nothing but
      height and time changes; if not, the config is that of the one event seen, and it is the one
      the digest in the details belongs to if and only if that event has the digest.  A poll that
      fails leaves everything as it was. */
  lemma StepTakesWhatIsSeen(h: History, s: State, p: Poll, i: nat) returns (j: nat)
    requires Fits(h, p) && Holds(h, s, i)
    ensures Holds(h, Step(s, h, p), j)
    ensures !Succeeds(s, h, p) ==> j == i && Step(s, h, p) == s
    ensures Succeeds(s, h, p) ==>
              var n, s' := p.atDetails.value, Step(s, h, p);
              && s'.block == LatestDetails(h, n).0 && s'.lastChecked == Some(p.now) && s'.height == p.height.value
              && if Cached(h, s, n) then j == i && s'.config == s.config
                 else 0 < j && n > 0 && ConfigAt(h, p.lookup.value, s'.block) == Some(j - 1)
                      && (Cached(h, s', n) <==> h[j - 1].config.digest == h[n - 1].config.digest)
  {
    j := i;
    if Succeeds(s, h, p) && !Cached(h, s, p.atDetails.value) {
      if p.atDetails.value == 0 { NothingBeforeBlocks(h, p.lookup.value.at, p.lookup.value.skipped); }
      j := ConfigAt(h, p.lookup.value, LatestDetails(h, p.atDetails.value).0).value + 1;
    }
  }

  /** After any polls, whatever their lookups passed over, the cache holds nothing, or a block that
      some poll was told of together with one of that block's configs. */
  lemma {:induction false} CacheIsConsistent(h: History, polls: seq<Poll>) returns (i: nat)
    requires forall p <- polls :: Fits(h, p)
    ensures Holds(h, After(h, polls), i)
    ensures i > 0 ==> exists k :: 0 <= k < |polls| && TellsOf(h, polls[k], After(h, polls).block)
  {
    if polls == [] {
      i := 0;
    } else {
      var front, last := polls[..|polls| - 1], polls[|polls| - 1];
      var i0 := CacheIsConsistent(h, front);
      i := StepTakesWhatIsSeen(h, After(h, front), last, i0);
      if Succeeds(After(h, front), h, last) && i > 0 {
        assert TellsOf(h, polls[|polls| - 1], After(h, polls).block);
      } else if i > 0 {
        var k :| 0 <= k < |front| && TellsOf(h, front[k], After(h, front).block);
        assert TellsOf(h, polls[k], After(h, polls).block);
      }
    }
  }

  predicate TellsOf(h: History, p: Poll, block: nat) {
    Fits(h, p) && p.atDetails.Some? && p.atDetails.value > 0 && LatestDetails(h, p.atDetails.value).0 == block
  }

  /** A further poll never takes the cached block back. */
  lemma BlockNeverGoesBack(h: History, polls: seq<Poll>, p: Poll)
    requires Chronological(h, polls + [p])
    ensures After(h, polls).block <= After(h, polls + [p]).block
  {
    var all := polls + [p];
    assert all[..|all| - 1] == polls;
    forall q <- polls ensures q in all {}
    var i := CacheIsConsistent(h, polls);
    assert p in all;
    var j := StepTakesWhatIsSeen(h, After(h, polls), p, i);
    if i > 0 && Succeeds(After(h, polls), h, p) {
      var k :| 0 <= k < |polls| && TellsOf(h, polls[k], After(h, polls).block);
      assert all[k] == polls[k] && all[|polls|] == p;
    }
  }

  /** Poll k is a success. */
  predicate SucceedsAt(h: History, polls: seq<Poll>, k: nat)
    requires forall p <- polls :: Fits(h, p)
  {
    k < |polls| && Succeeds(After(h, polls[..k]), h, polls[k])
  }

  predicate LastSuccess(h: History, polls: seq<Poll>, k: nat)
    requires forall p <- polls :: Fits(h, p)
  {
    SucceedsAt(h, polls, k) && forall i: nat :: k < i < |polls| ==> !SucceedsAt(h, polls, i)
  }

  lemma SuccessInFront(h: History, polls: seq<Poll>, k: nat)
    requires (forall p <- polls :: Fits(h, p)) && k < |polls| - 1
    ensures var front := polls[..|polls| - 1];
            (forall p <- front :: Fits(h, p)) && (SucceedsAt(h, front, k) <==> SucceedsAt(h, polls, k))
  {
    assert polls[..|polls| - 1][..k] == polls[..k];
  }

  lemma {:induction false} CheckedAtLastSuccess(h: History, polls: seq<Poll>) returns (k: nat)
    requires forall p <- polls :: Fits(h, p)
    ensures After(h, polls).lastChecked.Some? ==>
              LastSuccess(h, polls, k) && After(h, polls).lastChecked == Some(polls[k].now)
    ensures After(h, polls).lastChecked.None? ==> forall i: nat :: !SucceedsAt(h, polls, i)
  {
    k := 0;
    if polls != [] {
      var last := |polls| - 1;
      k := CheckedAtLastSuccess(h, polls[..last]);
      forall i: nat | i < last ensures SucceedsAt(h, polls[..last], i) <==> SucceedsAt(h, polls, i) {
        SuccessInFront(h, polls, i);
      }
      if SucceedsAt(h, polls, last) { k := last; }
    }
  }

  /** The readers count what they give as fresh if and only if some poll succeeded and the last to do
      so was within the time to live, whether or not it found anything new. */
  lemma FreshIffRecentSuccess(h: History, polls: seq<Poll>, now: int, ttl: int)
    requires forall p <- polls :: Fits(h, p)
    ensures NotStale(After(h, polls), now, ttl)
            <==> exists k: nat :: LastSuccess(h, polls, k) && now - polls[k].now <= ttl
  {
    var k := CheckedAtLastSuccess(h, polls);
    if i: nat :| LastSuccess(h, polls, i) && now - polls[i].now <= ttl { assert i == k; }
  }

  function QuietPoll(n: nat, skipped: set<nat>, height: nat, now: int): Poll {
    Poll(Some(n), Some(Lookup(n, skipped)), Some(height), now)
  }

  /** A digest covers the number of the config, so two configs of a block have two. */
  predicate DigestsDiffer(h: History) {
    forall i, j :: 0 <= i < j < |h| && h[i].block == h[j].block ==> h[i].config.digest != h[j].config.digest
  }

  lemma SameDigestSameEntry(h: History, i: nat, j: nat)
    requires DigestsDiffer(h) && i < |h| && j < |h| && h[i].block == h[j].block
    requires h[i].config.digest == h[j].config.digest
    ensures i == j
  {
    forall k, l | 0 <= k < l < |h| && h[k].block == h[l].block ensures h[k].config.digest != h[l].config.digest {}
  }

  /** A poll during which the chain stood still succeeds if and only if its lookup saw exactly one
      event in the latest block, or the cache has the details already.  It then answers as the chain
      does if and only if the event seen was the latest. */
  lemma QuietPollAgreesWithChain(h: History, polls: seq<Poll>, n: nat, skipped: set<nat>, height: nat, now: int)
    requires (forall p <- polls :: Fits(h, p)) && n <= |h| && DigestsDiffer(h)
    ensures var c, p := After(h, polls), QuietPoll(n, skipped, height, now);
            var s, seen := Step(c, h, p), SeenIn(h, n, LatestDetails(h, n).0, skipped);
            && (Succeeds(c, h, p) <==> |seen| == 1 || Cached(h, c, n))
            && (!Succeeds(c, h, p) ==> s == c)
            && (Succeeds(c, h, p) ==>
                  && s.height == height && s.lastChecked == Some(now)
                  && (Cached(h, s, n) <==> Cached(h, c, n) || seen == [n - 1])
                  && (n > 0 && Cached(h, s, n) ==> s.config == h[n - 1].config))
  {
    var c, p := After(h, polls), QuietPoll(n, skipped, height, now);
    var i := CacheIsConsistent(h, polls);
    var j := StepTakesWhatIsSeen(h, c, p, i);
    NothingBeforeBlocks(h, n, skipped);
    if n > 0 && Succeeds(c, h, p) && Cached(h, Step(c, h, p), n) {
      SameDigestSameEntry(h, j - 1, n - 1);
    }
  }

  lemma {:induction false} OneIsSeen(h: History, n: nat, k: nat, skipped: set<nat>)
    requires n <= |h| && k < |h| && k !in skipped
    requires forall i: nat :: i < n && i != k && h[i].block == h[k].block ==> i in skipped
    ensures SeenIn(h, n, h[k].block, skipped) == if k < n then [k] else []
  {
    if n > 0 { OneIsSeen(h, n - 1, k, skipped); }
  }

  /** The places of the block's other events. */
  function AllBut(h: History, k: nat): set<nat>
    requires k < |h|
  {
    set i: nat | i < |h| && i != k && h[i].block == h[k].block
  }

  /** A skipped transaction lets a poll succeed with the wrong config: if the latest block has
      another config and only that one is seen, the cache takes it, counts it as fresh, and answers
      with another digest than the details it was given. */
  lemma SkippedEventCachesWrongConfig(h: History, polls: seq<Poll>, n: nat, k: nat, height: nat, now: int, ttl: nat)
    requires (forall p <- polls :: Fits(h, p)) && k < n - 1 < |h| && h[k].block == h[n - 1].block && DigestsDiffer(h)
    requires !Cached(h, After(h, polls), n)
    ensures var c, p := After(h, polls), QuietPoll(n, AllBut(h, k), height, now);
            var s := Step(c, h, p);
            && Succeeds(c, h, p) && s.block == h[n - 1].block && s.config == h[k].config
            && NotStale(s, now, ttl) && !Cached(h, s, n)
  {
    OneIsSeen(h, n, k, AllBut(h, k));
    QuietPollAgreesWithChain(h, polls, n, AllBut(h, k), height, now);
  }

  // ---------------------------------------------------------------- lookups that skip nothing

  /** When n configs are on the chain the latest is the only one of its block. */
  predicate Alone(h: History, n: nat)
    requires 0 < n <= |h|
  {
    n == 1 || h[n - 2].block != h[n - 1].block
  }

  predicate SkipsNothing(p: Poll) {
    p.lookup.Some? ==> p.lookup.value.skipped == {}
  }

  lemma {:induction false} NoneSeenYet(h: History, n: nat, block: nat)
    requires n <= |h| && forall i :: 0 <= i < n ==> h[i].block != block
    ensures SeenIn(h, n, block, {}) == []
  {
    if n > 0 { NoneSeenYet(h, n - 1, block); }
  }

  lemma {:induction false} SeenOnlyGrows(h: History, m: nat, n: nat, block: nat)
    requires m <= n <= |h|
    ensures SeenIn(h, m, block, {}) <= SeenIn(h, n, block, {})
    decreases n
  {
    if m < n { SeenOnlyGrows(h, m, n - 1, block); }
  }

  /** Of the events of the block of entry i, a full lookup sees those before, the entry's, and then
      later ones. */
  lemma SeenAround(h: History, i: nat, n: nat)
    requires 0 < i <= n <= |h|
    ensures SeenIn(h, i - 1, h[i - 1].block, {}) + [i - 1] <= SeenIn(h, n, h[i - 1].block, {})
    ensures Alone(h, i) <==> SeenIn(h, i - 1, h[i - 1].block, {}) == []
  {
    SeenOnlyGrows(h, i, n, h[i - 1].block);
    if Alone(h, i) { NoneSeenYet(h, i - 1, h[i - 1].block); }
  }

  /** A full lookup that succeeds finds the first config of the block, and there is one before n. */
  lemma FoundIsFirst(h: History, i: nat, n: nat)
    requires 0 < i <= n <= |h| && ConfigAt(h, Lookup(n, {}), h[i - 1].block).Some?
    ensures ConfigAt(h, Lookup(n, {}), h[i - 1].block) == Some(i - 1) && Alone(h, i)
  {
    SeenAround(h, i, n);
    var before, all := SeenIn(h, i - 1, h[i - 1].block, {}), SeenIn(h, n, h[i - 1].block, {});
    assert (before + [i - 1])[|before|] == all[|before|];
  }

  /** Without skipped transactions the cache holds exactly the first config of its block. */
  lemma {:induction false} FullLookupsHoldFirst(h: History, polls: seq<Poll>) returns (i: nat)
    requires Chronological(h, polls) && DigestsDiffer(h) && forall p <- polls :: SkipsNothing(p)
    ensures Holds(h, After(h, polls), i) && (i > 0 ==> Alone(h, i))
  {
    i := 0;
    if polls != [] {
      var front, last := polls[..|polls| - 1], polls[|polls| - 1];
      var i0 := FullLookupsHoldFirst(h, front);
      i := StepTakesWhatIsSeen(h, After(h, front), last, i0);
      assert InOrder(last) && SkipsNothing(last);
      if Succeeds(After(h, front), h, last) && !Cached(h, After(h, front), last.atDetails.value) {
        FoundIsFirst(h, last.atDetails.value, last.lookup.value.at);
      }
    }
  }

  lemma AloneSeesOne(h: History, n: nat)
    requires 0 < n <= |h|
    ensures SeenIn(h, n, h[n - 1].block, {}) == [n - 1] <==> Alone(h, n)
    ensures |SeenIn(h, n, h[n - 1].block, {})| == 1 <==> Alone(h, n)
  {
    SeenAround(h, n, n);
  }

  /** As long as no lookup skips a transaction: once the latest block has a second config, every
      quiet poll fails, and the cache keeps what it had while the chain's own answer is another;
      with one config in it every quiet poll succeeds. */
  lemma SecondConfigOfBlockStallsCache(h: History, polls: seq<Poll>, n: nat, height: nat, now: int)
    requires Chronological(h, polls) && 0 < n <= |h| && DigestsDiffer(h) && forall p <- polls :: SkipsNothing(p)
    ensures var c, p := After(h, polls), QuietPoll(n, {}, height, now);
            && (Succeeds(c, h, p) <==> Alone(h, n))
            && (!Alone(h, n) ==> Step(c, h, p) == c && !Cached(h, c, n))
            && (Alone(h, n) ==> Cached(h, Step(c, h, p), n))
  {
    QuietPollAgreesWithChain(h, polls, n, {}, height, now);
    AloneSeesOne(h, n);
    var c := After(h, polls);
    var i := FullLookupsHoldFirst(h, polls);
    if Cached(h, c, n) { SameDigestSameEntry(h, i - 1, n - 1); }
  }
}
