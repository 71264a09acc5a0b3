/** What laying one chain configuration over another gives: fields that are set win, and nodes are
    merged by name. */
module ConfigOverlay {

  import opened Options

  datatype Node = Node(name: Option<string>, url: Option<string>, solidityUrl: Option<string>)

  datatype Chain = Chain(
    balancePollPeriod: Option<int>,
    broadcastChanSize: Option<nat>,
    confirmPollPeriod: Option<int>,
    ocr2CachePollPeriod: Option<int>,
    ocr2CacheTTL: Option<int>,
    retentionPeriod: Option<int>,
    reapInterval: Option<int>)

  datatype Config = Config(chainId: Option<string>, enabled: Option<bool>, chain: Chain, nodes: seq<Node>)

  function Or<T>(c: Option<T>, f: Option<T>): Option<T> {
    if f.Some? then f else c
  }

  function OverNode(n: Node, f: Node): Node {
    Node(Or(n.name, f.name), Or(n.url, f.url), Or(n.solidityUrl, f.solidityUrl))
  }

  function OverChain(c: Chain, f: Chain): Chain {
    Chain(Or(c.balancePollPeriod, f.balancePollPeriod),
          Or(c.broadcastChanSize, f.broadcastChanSize),
          Or(c.confirmPollPeriod, f.confirmPollPeriod),
          Or(c.ocr2CachePollPeriod, f.ocr2CachePollPeriod),
          Or(c.ocr2CacheTTL, f.ocr2CacheTTL),
          Or(c.retentionPeriod, f.retentionPeriod),
          Or(c.reapInterval, f.reapInterval))
  }

  /** The first node of that name, or the number of nodes. */
  function Find(ns: seq<Node>, name: string): (i: nat)
    ensures i <= |ns| && (i < |ns| ==> ns[i].name == Some(name))
    ensures forall j :: 0 <= j < i ==> ns[j].name != Some(name)
  {
    if ns == [] || ns[0].name == Some(name) then 0 else 1 + Find(ns[1..], name)
  }

  lemma FindIs(ns: seq<Node>, name: string, i: nat)
    requires i <= |ns| && (i < |ns| ==> ns[i].name == Some(name))
    requires forall j :: 0 <= j < i ==> ns[j].name != Some(name)
    ensures Find(ns, name) == i
  {
    var k := Find(ns, name);
    assert k < |ns| ==> ns[k].name == Some(name);
  }

  function MergeOne(ns: seq<Node>, f: Node): seq<Node> {
    if f.name.None? then ns + [f]
    else
      var i := Find(ns, f.name.value);
      if i == |ns| then ns + [f] else ns[i := OverNode(ns[i], f)]
  }

  function Merge(ns: seq<Node>, fs: seq<Node>): (r: seq<Node>)
    ensures |r| >= |ns|
  {
    if fs == [] then ns else MergeOne(Merge(ns, fs[..|fs| - 1]), fs[|fs| - 1])
  }

  function Overlay(c: Config, f: Config): Config {
    Config(Or(c.chainId, f.chainId), Or(c.enabled, f.enabled), OverChain(c.chain, f.chain), Merge(c.nodes, f.nodes))
  }

  predicate UniqueNames(ns: seq<Node>) {
    forall i, j :: 0 <= i < j < |ns| && ns[i].name.Some? ==> ns[i].name != ns[j].name
  }

  predicate Has(ns: seq<Node>, name: Option<string>) {
    name.Some? && Find(ns, name.value) < |ns|
  }

  lemma MergeAppend(ns: seq<Node>, fs: seq<Node>, f: Node)
    ensures Merge(ns, fs + [f]) == MergeOne(Merge(ns, fs), f)
  {
    assert (fs + [f])[..|fs|] == fs;
  }

  lemma {:induction false} MergeKeepsUnique(ns: seq<Node>, fs: seq<Node>)
    requires UniqueNames(ns)
    ensures UniqueNames(Merge(ns, fs))
  {
    if fs != [] { MergeKeepsUnique(ns, fs[..|fs| - 1]); }
  }

  lemma FindAppend(ns: seq<Node>, last: Node, name: string)
    ensures Find(ns + [last], name)
            == if Find(ns, name) < |ns| then Find(ns, name) else if last.name == Some(name) then |ns| else |ns| + 1
  {
    if Find(ns, name) < |ns| {
      FindIs(ns + [last], name, Find(ns, name));
    } else {
      FindIs(ns + [last], name, if last.name == Some(name) then |ns| else |ns| + 1);
    }
  }

  // ---------------------------------------------------------------- associativity

  datatype Field = Url | SolidityUrl

  function Get(n: Node, field: Field): Option<string> {
    if field == Url then n.url else n.solidityUrl
  }

  function Only(name: string, field: Field, value: string): Node {
    if field == Url then Node(Some(name), Some(value), None) else Node(Some(name), None, Some(value))
  }

  predicate SetsNothing(n: Node) {
    n.url.None? && n.solidityUrl.None?
  }

  /** A name that comes up again comes with no field set. */
  predicate Harmless(ns: seq<Node>) {
    forall i, j :: 0 <= i < j < |ns| && ns[i].name.Some? && ns[i].name == ns[j].name ==> SetsNothing(ns[j])
  }

  lemma {:induction false} MergeKeepsHarmless(ns: seq<Node>, fs: seq<Node>)
    requires Harmless(ns)
    ensures Harmless(Merge(ns, fs))
  {
    if fs != [] { MergeKeepsHarmless(ns, fs[..|fs| - 1]); }
  }

  /** Two writers of different nodes can change places when one of the nodes is there already. */
  lemma MergeOneCommutes(ns: seq<Node>, f: Node, g: Node)
    requires Has(ns, f.name) && f.name != g.name
    ensures MergeOne(MergeOne(ns, f), g) == MergeOne(MergeOne(ns, g), f)
  {
    var i := Find(ns, f.name.value);
    FindIs(MergeOne(ns, g), f.name.value, i);
    if g.name.Some? {
      FindIs(MergeOne(ns, f), g.name.value, Find(ns, g.name.value));
    }
  }

  lemma MergeOneTwice(ns: seq<Node>, g: Node, f: Node)
    requires f.name.Some? && g.name == f.name
    ensures MergeOne(MergeOne(ns, g), f) == MergeOne(ns, OverNode(g, f))
  {
    FindIs(MergeOne(ns, g), f.name.value, Find(ns, f.name.value));
  }

  lemma MergeOneOfNothing(ns: seq<Node>, g: Node)
    requires Has(ns, g.name) && SetsNothing(g)
    ensures MergeOne(ns, g) == ns
  {
    var i := Find(ns, g.name.value);
    assert OverNode(ns[i], g) == ns[i];
  }

  lemma MergeOneHas(ns: seq<Node>, f: Node, name: Option<string>)
    requires Has(ns, name) || (name.Some? && f.name == name)
    ensures Has(MergeOne(ns, f), name)
  {
    var i := Find(ns, name.value);
    assert MergeOne(ns, f)[i].name == name;
  }

  lemma {:induction false} MergeHas(ns: seq<Node>, fs: seq<Node>, name: Option<string>)
    requires Has(fs, name)
    ensures Has(Merge(ns, fs), name)
  {
    var front, last := fs[..|fs| - 1], fs[|fs| - 1];
    assert fs == front + [last];
    FindAppend(front, last, name.value);
    if Has(front, name) { MergeHas(ns, front, name); }
    MergeOneHas(Merge(ns, front), last, name);
  }

  /** Changing a node before the merge is changing it after. */
  lemma {:induction false} MergeOfUpdated(a: seq<Node>, m: seq<Node>, f: Node)
    requires Harmless(m) && Has(m, f.name)
    ensures Merge(a, MergeOne(m, f)) == MergeOne(Merge(a, m), f)
  {
    var front, last := m[..|m| - 1], m[|m| - 1];
    var i := Find(m, f.name.value);
    if i == |m| - 1 {
      assert MergeOne(m, f) == front + [OverNode(last, f)];
      MergeAppend(a, front, OverNode(last, f));
      MergeOneTwice(Merge(a, front), last, f);
    } else {
      FindIs(front, f.name.value, i);
      MergeOfUpdated(a, front, f);
      MergeHas(a, front, f.name);
      UpdatedBeforeLast(a, front, last, f);
      ReorderLast(Merge(a, front), f, last, m, i);
      assert m == front + [last];
      MergeAppend(a, front, last);
    }
  }

  lemma UpdatedBeforeLast(a: seq<Node>, front: seq<Node>, last: Node, f: Node)
    requires Has(front, f.name)
    ensures Merge(a, MergeOne(front + [last], f)) == MergeOne(Merge(a, MergeOne(front, f)), last)
  {
    FindAppend(front, last, f.name.value);
    assert MergeOne(front + [last], f) == MergeOne(front, f) + [last];
    MergeAppend(a, MergeOne(front, f), last);
  }

  lemma ReorderLast(ns: seq<Node>, f: Node, last: Node, m: seq<Node>, i: nat)
    requires Harmless(m) && i < |m| - 1 && m[i].name == f.name && m[|m| - 1] == last && Has(ns, f.name)
    ensures MergeOne(MergeOne(ns, f), last) == MergeOne(MergeOne(ns, last), f)
  {
    if last.name != f.name {
      MergeOneCommutes(ns, f, last);
    } else {
      MergeOneHas(ns, f, f.name);
      MergeOneOfNothing(MergeOne(ns, f), last);
      MergeOneOfNothing(ns, last);
    }
  }

  lemma {:induction false} HarmlessAssociates(a: seq<Node>, b: seq<Node>, c: seq<Node>)
    requires Harmless(b)
    ensures Merge(Merge(a, b), c) == Merge(a, Merge(b, c))
  {
    if c != [] {
      var front, f := c[..|c| - 1], c[|c| - 1];
      HarmlessAssociates(a, b, front);
      MergeKeepsHarmless(b, front);
      var m := Merge(b, front);
      if Has(m, f.name) {
        MergeOfUpdated(a, m, f);
      } else {
        MergeAppend(a, m, f);
      }
    }
  }

  /** The value the last node of that name to set the field gives it. */
  function LastOf(ns: seq<Node>, name: string, field: Field): Option<string> {
    if ns == [] then None
    else
      var n := ns[|ns| - 1];
      Or(LastOf(ns[..|ns| - 1], name, field), if n.name == Some(name) then Get(n, field) else None)
  }

  /** All that the list says of a name. */
  function Total(ns: seq<Node>, name: string): Node {
    Node(Some(name), LastOf(ns, name, Url), LastOf(ns, name, SolidityUrl))
  }

  lemma TotalAppend(ns: seq<Node>, n: Node, name: string)
    ensures Total(ns + [n], name) == if n.name == Some(name) then OverNode(Total(ns, name), n) else Total(ns, name)
  {
    assert (ns + [n])[..|ns|] == ns;
  }

  lemma {:induction false} TotalOfAbsent(ns: seq<Node>, name: string)
    requires !Has(ns, Some(name))
    ensures Total(ns, name) == Node(Some(name), None, None)
  {
    if ns != [] {
      var front, last := ns[..|ns| - 1], ns[|ns| - 1];
      assert ns == front + [last];
      FindAppend(front, last, name);
      TotalOfAbsent(front, name);
    }
  }

  lemma {:induction false} TotalHoldsFirst(ns: seq<Node>, i: nat, field: Field)
    requires i < |ns| && ns[i].name.Some? && Get(ns[i], field).Some?
    ensures LastOf(ns, ns[i].name.value, field).Some?
  {
    if i < |ns| - 1 { TotalHoldsFirst(ns[..|ns| - 1], i, field); }
  }

  /** One more node changes what a name has that is there already. */
  lemma TotalStep(m: seq<Node>, last: Node, name: string, t: Node)
    requires Has(m, Some(name)) && m[Find(m, name)] == t
    ensures var m' := MergeOne(m, last);
            Has(m', Some(name)) && m'[Find(m', name)] == if last.name == Some(name) then OverNode(t, last) else t
  {
    FindIs(MergeOne(m, last), name, Find(m, name));
  }

  lemma TotalStart(m: seq<Node>, last: Node, name: string)
    requires !Has(m, Some(name)) && last.name == Some(name)
    ensures var m' := MergeOne(m, last); Has(m', Some(name)) && m'[Find(m', name)] == last
  {
    FindIs(MergeOne(m, last), name, |m|);
  }

  /** Merged into nothing, a list leaves of each name all that it says of it. */
  lemma {:induction false} TotalIntoNothing(ns: seq<Node>, name: string)
    requires Has(ns, Some(name))
    ensures var m := Merge([], ns); Has(m, Some(name)) && m[Find(m, name)] == Total(ns, name)
  {
    var front, last := ns[..|ns| - 1], ns[|ns| - 1];
    assert ns == front + [last];
    FindAppend(front, last, name);
    TotalAppend(front, last, name);
    MergeAppend([], front, last);
    if Has(front, Some(name)) {
      TotalIntoNothing(front, name);
      TotalStep(Merge([], front), last, name, Total(front, name));
    } else {
      TotalOfAbsent(front, name);
      NothingHasNot(front, name);
      TotalStart(Merge([], front), last, name);
    }
  }

  lemma {:induction false} NothingHasNot(ns: seq<Node>, name: string)
    requires !Has(ns, Some(name))
    ensures !Has(Merge([], ns), Some(name))
  {
    if ns != [] {
      var front, last := ns[..|ns| - 1], ns[|ns| - 1];
      assert ns == front + [last];
      FindAppend(front, last, name);
      NothingHasNot(front, name);
      FindIs(MergeOne(Merge([], front), last), name, |MergeOne(Merge([], front), last)|);
    }
  }

  lemma {:induction false} LastOfUpdated(ns: seq<Node>, i: nat, n: Node, j: nat, field: Field)
    requires i < j < |ns| && ns[j].name.Some? && Get(ns[j], field).Some? && n.name == ns[i].name
    ensures var name := ns[j].name.value;
            LastOf(ns[i := n], name, field) == LastOf(ns, name, field) && LastOf(ns, name, field).Some?
  {
    var k := |ns| - 1;
    assert ns[i := n][..k] == ns[..k][i := n];
    if j < k { LastOfUpdated(ns[..k], i, n, j, field); }
  }

  /** What the list gives the name when it is laid over nothing. */
  ghost predicate Gives(ns: seq<Node>, name: string, field: Field, value: string) {
    Has(ns, Some(name)) && Get(ns[Find(ns, name)], field) == Some(value)
  }

  lemma LaterFileWins(b: seq<Node>, name: string, field: Field, value: string)
    requires Has(b, Some(name))
    ensures Gives(Merge(Merge([], b), [Only(name, field, value)]), name, field, value)
  {
    var m, f := Merge([], b), Only(name, field, value);
    TotalIntoNothing(b, name);
    MergeAppend(m, [], f);
    assert [] + [f] == [f];
    FindIs(MergeOne(m, f), name, Find(m, name));
  }

  lemma RepetitionWins(b: seq<Node>, j: nat, field: Field, f: Node)
    requires j < |b| && b[j].name.Some? && Find(b, b[j].name.value) < j && Get(b[j], field).Some? && f.name == b[j].name
    ensures var name := b[j].name.value;
            LastOf(b, name, field).Some? && Gives(Merge([], Merge(b, [f])), name, field, LastOf(b, name, field).value)
  {
    var name := b[j].name.value;
    var first, b' := Find(b, name), MergeOne(b, f);
    MergeAppend(b, [], f);
    assert [] + [f] == [f];
    LastOfUpdated(b, first, OverNode(b[first], f), j, field);
    FindIs(b', name, first);
    TotalIntoNothing(b', name);
  }

  /** Whenever the middle list names a node again with a field set, there is a later file of one
      node for which the order of merging matters: the repetition wins over it. */
  lemma RepeatedNamesBreakAssociativity(b: seq<Node>) returns (c: seq<Node>)
    requires !Harmless(b)
    ensures |c| == 1 && Merge(Merge([], b), c) != Merge([], Merge(b, c))
  {
    var i, j :| 0 <= i < j < |b| && b[i].name.Some? && b[i].name == b[j].name && !SetsNothing(b[j]);
    var field, name := if b[j].url.Some? then Url else SolidityUrl, b[j].name.value;
    TotalHoldsFirst(b, j, field);
    var value := LastOf(b, name, field).value;
    var f := Only(name, field, value + "/");
    c := [f];
    LaterFileWins(b, name, field, value + "/");
    RepetitionWins(b, j, field, f);
    assert value + "/" != value;
  }

  /** Merging is associative around a middle list if and only if no name in it comes up again with
      a field set. */
  lemma MergeIsAssociative(b: seq<Node>)
    ensures (forall a, c :: Merge(Merge(a, b), c) == Merge(a, Merge(b, c))) <==> Harmless(b)
  {
    if Harmless(b) {
      forall a, c ensures Merge(Merge(a, b), c) == Merge(a, Merge(b, c)) { HarmlessAssociates(a, b, c); }
    } else {
      var c := RepeatedNamesBreakAssociativity(b);
    }
  }

  // ---------------------------------------------------------------- node by node

  /** A node with all that the list says of its name laid over it. */
  function Laid(ns: seq<Node>, n: Node): (r: Node)
    ensures r.name == n.name
  {
    if n.name.None? then n else OverNode(n, Total(ns, n.name.value))
  }

  function AllLaid(ns: seq<Node>, q: seq<Node>): (r: seq<Node>)
    ensures |r| == |q| && forall i :: 0 <= i < |q| ==> r[i].name == q[i].name
  {
    seq(|q|, i requires 0 <= i < |q| => Laid(ns, q[i]))
  }

  /** What becomes of the nodes of a: the first of each name is laid over, the others stay. */
  function AllUpdated(a: seq<Node>, b: seq<Node>): (r: seq<Node>)
    ensures |r| == |a| && forall i :: 0 <= i < |a| ==> r[i].name == a[i].name
  {
    seq(|a|, i requires 0 <= i < |a| =>
      if a[i].name.Some? && Find(a, a[i].name.value) == i then Laid(b, a[i]) else a[i])
  }

  /** The nodes of b without a name, and the first of each name that a has not got. */
  function Fresh(a: seq<Node>, b: seq<Node>): seq<Node> {
    if b == [] then []
    else
      var front, last := b[..|b| - 1], b[|b| - 1];
      Fresh(a, front) + if Has(a, last.name) || Has(front, last.name) then [] else [last]
  }

  lemma LaidAppend(ns: seq<Node>, last: Node, n: Node)
    ensures Laid(ns + [last], n)
            == if n.name.Some? && n.name == last.name then OverNode(Laid(ns, n), last) else Laid(ns, n)
  {
    if n.name.Some? { TotalAppend(ns, last, n.name.value); }
  }

  lemma {:induction false} FreshFind(a: seq<Node>, b: seq<Node>, name: string)
    ensures Has(Fresh(a, b), Some(name)) <==> !Has(a, Some(name)) && Has(b, Some(name))
  {
    if b != [] {
      var front, last := b[..|b| - 1], b[|b| - 1];
      assert b == front + [last];
      FindAppend(front, last, name);
      FreshFind(a, front, name);
      FindAppend(Fresh(a, front), last, name);
      assert Fresh(a, front) + [] == Fresh(a, front);
    }
  }

  lemma {:induction false} FreshIsUnique(a: seq<Node>, b: seq<Node>)
    ensures UniqueNames(Fresh(a, b))
  {
    if b != [] {
      var front, last := b[..|b| - 1], b[|b| - 1];
      FreshIsUnique(a, front);
      if last.name.Some? {
        FreshFind(a, front, last.name.value);
        var q := Fresh(a, front);
        assert !Has(front, last.name) ==> forall i :: 0 <= i < |q| ==> q[i].name != last.name;
      }
    }
  }

  /** The first node of the name of n, if there is one, with n laid over it. */
  function LayOne(q: seq<Node>, n: Node): seq<Node> {
    if Has(q, n.name) then var k := Find(q, n.name.value); q[k := OverNode(q[k], n)] else q
  }

  lemma FindIn(ns: seq<Node>, ms: seq<Node>, name: string)
    requires |ns| == |ms| && forall i :: 0 <= i < |ns| ==> ns[i].name == ms[i].name
    ensures Find(ms, name) == Find(ns, name)
  {
    FindIs(ms, name, Find(ns, name));
  }

  /** One more node on the right changes the entry of its name, whichever that is. */
  lemma LaidNext(front: seq<Node>, last: Node, q: seq<Node>)
    requires UniqueNames(q)
    ensures AllLaid(front + [last], q) == LayOne(AllLaid(front, q), last)
  {
    if last.name.Some? { FindIn(q, AllLaid(front, q), last.name.value); }
    forall i | 0 <= i < |q| ensures AllLaid(front + [last], q)[i] == LayOne(AllLaid(front, q), last)[i] {
      LaidAppend(front, last, q[i]);
      if q[i].name.Some? && q[i].name == last.name { FindIs(q, last.name.value, i); }
    }
  }

  lemma UpdatedNext(a: seq<Node>, front: seq<Node>, last: Node)
    ensures AllUpdated(a, front + [last]) == LayOne(AllUpdated(a, front), last)
  {
    if last.name.Some? { FindIn(a, AllUpdated(a, front), last.name.value); }
    forall i | 0 <= i < |a| ensures AllUpdated(a, front + [last])[i] == LayOne(AllUpdated(a, front), last)[i] {
      LaidAppend(front, last, a[i]);
    }
  }

  lemma FindInBoth(u: seq<Node>, q: seq<Node>, name: string)
    ensures Find(u + q, name) == if Find(u, name) < |u| then Find(u, name) else |u| + Find(q, name)
  {
    FindIs(u + q, name, if Find(u, name) < |u| then Find(u, name) else |u| + Find(q, name));
  }

  lemma MergeOneInBoth(u: seq<Node>, q: seq<Node>, n: Node)
    requires n.name.Some? ==> !(Has(u, n.name) && Has(q, n.name))
    ensures MergeOne(u + q, n)
            == LayOne(u, n) + LayOne(q, n) + if Has(u, n.name) || Has(q, n.name) then [] else [n]
  {
    if n.name.Some? { FindInBoth(u, q, n.name.value); }
  }

  /** The merge, node by node: every node of a keeps its place, and the first of each name has all
      laid over it that b says of the name; the nodes that are new follow in the order of b, each
      with all that b says of it. */
  lemma {:induction false} MergeIsPointwise(a: seq<Node>, b: seq<Node>)
    ensures Merge(a, b) == AllUpdated(a, b) + AllLaid(b, Fresh(a, b))
  {
    if b == [] {
      NothingLaid(a);
    } else {
      var front, last := b[..|b| - 1], b[|b| - 1];
      assert b == front + [last];
      MergeIsPointwise(a, front);
      PointwiseNext(a, front, last);
    }
  }

  lemma NothingLaid(a: seq<Node>)
    ensures AllUpdated(a, []) == a && AllLaid([], Fresh(a, [])) == []
  {
  }

  lemma PointwiseNext(a: seq<Node>, front: seq<Node>, last: Node)
    requires Merge(a, front) == AllUpdated(a, front) + AllLaid(front, Fresh(a, front))
    ensures Merge(a, front + [last])
            == AllUpdated(a, front + [last]) + AllLaid(front + [last], Fresh(a, front + [last]))
  {
    var q := Fresh(a, front);
    FreshIsUnique(a, front);
    UpdatedNext(a, front, last);
    LaidNext(front, last, q);
    MergeAppend(a, front, last);
    FreshNext(a, front, last);
    if last.name.Some? {
      var name := last.name.value;
      FindIn(a, AllUpdated(a, front), name);
      FindIn(q, AllLaid(front, q), name);
      FreshFind(a, front, name);
    }
    MergeOneInBoth(AllUpdated(a, front), AllLaid(front, q), last);
  }

  /** A new node joins with what it says itself. */
  lemma FreshNext(a: seq<Node>, front: seq<Node>, last: Node)
    ensures AllLaid(front + [last], Fresh(a, front + [last]))
            == AllLaid(front + [last], Fresh(a, front))
               + if Has(a, last.name) || Has(front, last.name) then [] else [last]
  {
    assert (front + [last])[..|front|] == front;
    var q := Fresh(a, front);
    if Has(a, last.name) || Has(front, last.name) {
      assert Fresh(a, front + [last]) == q;
    } else {
      LaidAppend(front, last, last);
      if last.name.Some? { TotalOfAbsent(front, last.name.value); }
      assert AllLaid(front + [last], q + [last]) == AllLaid(front + [last], q) + [last];
    }
  }

  // ---------------------------------------------------------------- idempotence

  predicate AllNamed(ns: seq<Node>) {
    forall i :: 0 <= i < |ns| ==> ns[i].name.Some?
  }

  /** The first node of each name already has the values last given under the name. */
  predicate Settled(ns: seq<Node>) {
    forall i :: 0 <= i < |ns| && ns[i].name.Some? && Find(ns, ns[i].name.value) == i ==>
                  Total(ns, ns[i].name.value) == ns[i]
  }

  lemma {:induction false} FreshInItself(a: seq<Node>, b: seq<Node>)
    requires forall i :: 0 <= i < |b| && b[i].name.Some? ==> Has(a, b[i].name)
    ensures Fresh(a, b) == [] <==> AllNamed(b)
  {
    if b != [] { FreshInItself(a, b[..|b| - 1]); }
  }

  lemma LaidIsSettled(ns: seq<Node>, i: nat)
    requires i < |ns| && ns[i].name.Some?
    ensures Laid(ns, ns[i]) == Total(ns, ns[i].name.value)
  {
    if ns[i].url.Some? { TotalHoldsFirst(ns, i, Url); }
    if ns[i].solidityUrl.Some? { TotalHoldsFirst(ns, i, SolidityUrl); }
  }

  /** Merging a list into itself changes nothing if and only if every node has a name, and the first
      of each name already has the values last given under it. */
  lemma MergeIsIdempotent(a: seq<Node>)
    ensures Merge(a, a) == a <==> AllNamed(a) && Settled(a)
  {
    MergeIsPointwise(a, a);
    forall i | 0 <= i < |a| && a[i].name.Some?
      ensures Has(a, a[i].name) && Laid(a, a[i]) == Total(a, a[i].name.value)
    {
      LaidIsSettled(a, i);
    }
    FreshInItself(a, a);
    var u := AllUpdated(a, a);
    if Merge(a, a) == a {
      assert u == Merge(a, a)[..|a|];
      forall i | 0 <= i < |a| && a[i].name.Some? && Find(a, a[i].name.value) == i
        ensures Total(a, a[i].name.value) == a[i]
      {
        assert u[i] == a[i];
      }
    }
    if AllNamed(a) && Settled(a) {
      assert u == a;
    }
  }

  lemma LaidTwice(ns: seq<Node>, n: Node)
    ensures Laid(ns, Laid(ns, n)) == Laid(ns, n)
  {
  }

  /** The same file merged twice is the file merged once if and only if all its nodes have names. */
  lemma MergeTwice(a: seq<Node>, b: seq<Node>)
    ensures Merge(Merge(a, b), b) == Merge(a, b) <==> AllNamed(b)
  {
    var m := Merge(a, b);
    MergeIsPointwise(a, b);
    MergeIsPointwise(m, b);
    forall i | 0 <= i < |b| && b[i].name.Some? ensures Has(m, b[i].name) {
      MergeHas(a, b, b[i].name);
    }
    FreshInItself(m, b);
    UpdatedTwice(a, b, m);
  }

  lemma UpdatedTwice(a: seq<Node>, b: seq<Node>, m: seq<Node>)
    requires m == AllUpdated(a, b) + AllLaid(b, Fresh(a, b))
    ensures AllUpdated(m, b) == m
  {
    var q := Fresh(a, b);
    forall i | 0 <= i < |m| && m[i].name.Some? && Find(m, m[i].name.value) == i ensures Laid(b, m[i]) == m[i] {
      if i < |a| {
        forall j | 0 <= j < i ensures a[j].name != m[i].name { assert m[j].name == a[j].name; }
        FindIs(a, m[i].name.value, i);
        LaidTwice(b, a[i]);
      } else {
        LaidTwice(b, q[i - |a|]);
      }
    }
  }

  /** A list merged into nothing is itself if and only if it names no node twice. */
  lemma MergeIntoNothing(ns: seq<Node>)
    ensures Merge([], ns) == ns <==> UniqueNames(ns)
  {
    MergeKeepsUnique([], ns);
    if UniqueNames(ns) { UniqueIntoNothing(ns); }
  }

  lemma {:induction false} UniqueIntoNothing(ns: seq<Node>)
    requires UniqueNames(ns)
    ensures Merge([], ns) == ns
  {
    if ns != [] { UniqueIntoNothing(ns[..|ns| - 1]); }
  }

  // ---------------------------------------------------------------- whole configurations

  /** Laying configurations over each other is associative around a middle one if and only if no
      node name in it comes up again with a field set. */
  lemma OverlayIsAssociative(f: Config)
    ensures (forall c, g :: Overlay(Overlay(c, f), g) == Overlay(c, Overlay(f, g))) <==> Harmless(f.nodes)
  {
    MergeIsAssociative(f.nodes);
    if Harmless(f.nodes) {
      forall c: Config, g: Config ensures Overlay(Overlay(c, f), g) == Overlay(c, Overlay(f, g)) {
        HarmlessAssociates(c.nodes, f.nodes, g.nodes);
      }
    } else {
      var nodes := RepeatedNamesBreakAssociativity(f.nodes);
      var c, g := f.(nodes := []), f.(nodes := nodes);
      assert Overlay(Overlay(c, f), g).nodes != Overlay(c, Overlay(f, g)).nodes;
    }
  }

  lemma OverlayIsIdempotent(c: Config)
    ensures Overlay(c, c) == c <==> AllNamed(c.nodes) && Settled(c.nodes)
  {
    MergeIsIdempotent(c.nodes);
  }

  // ---------------------------------------------------------------- lists that share nodes

  /** The list of nodes and what each node object holds. */
  datatype Nodes<R> = Nodes(list: seq<R>, h: map<R, Node>)

  ghost predicate InHeap<R>(q: seq<R>, h: map<R, Node>) {
    forall i :: 0 <= i < |q| ==> q[i] in h
  }

  ghost function ValuesIn<R>(q: seq<R>, h: map<R, Node>): (vs: seq<Node>)
    requires InHeap(q, h)
    ensures |vs| == |q|
  {
    seq(|q|, i requires 0 <= i < |q| => h[q[i]])
  }

  /** One file node: its namesake is written over, or the object itself joins the list. */
  ghost function MergeRef<R>(ns: Nodes<R>, f: R): (r: Nodes<R>)
    requires InHeap(ns.list, ns.h) && f in ns.h
    ensures InHeap(r.list, r.h) && r.h.Keys == ns.h.Keys && (r.list == ns.list || r.list == ns.list + [f])
  {
    var value := ns.h[f];
    if value.name.None? then ns.(list := ns.list + [f])
    else
      var i := Find(ValuesIn(ns.list, ns.h), value.name.value);
      if i == |ns.list| then ns.(list := ns.list + [f])
      else ns.(h := ns.h[ns.list[i] := OverNode(ns.h[ns.list[i]], value)])
  }

  /** The file nodes in order, each with what it holds when its turn comes. */
  ghost function MergeRefs<R>(ns: Nodes<R>, fs: seq<R>): (r: Nodes<R>)
    requires InHeap(ns.list, ns.h) && InHeap(fs, ns.h)
    ensures InHeap(r.list, r.h) && r.h.Keys == ns.h.Keys
  {
    if fs == [] then ns else MergeRef(MergeRefs(ns, fs[..|fs| - 1]), fs[|fs| - 1])
  }

  ghost predicate Unshared<R>(q: seq<R>) {
    forall i, j :: 0 <= i < j < |q| ==> q[i] != q[j]
  }

  /** r is the list ns followed by some of the files, and no object is in it twice. */
  ghost predicate Collected<R>(ns: seq<R>, fs: seq<R>, r: seq<R>) {
    ns <= r && Unshared(r) && forall i :: 0 <= i < |r| ==> r[i] in ns || r[i] in fs
  }

  lemma MergeRefIsMergeOne<R>(ns: Nodes<R>, f: R)
    requires InHeap(ns.list, ns.h) && f in ns.h && Unshared(ns.list)
    ensures var r := MergeRef(ns, f); ValuesIn(r.list, r.h) == MergeOne(ValuesIn(ns.list, ns.h), ns.h[f])
    ensures forall x :: x in ns.h && x !in ns.list ==> MergeRef(ns, f).h[x] == ns.h[x]
  {
  }

  lemma UnsharedFront<R>(ns: seq<R>, fs: seq<R>)
    requires Unshared(ns + fs) && fs != []
    ensures var front, last := fs[..|fs| - 1], fs[|fs| - 1];
            Unshared(ns + front) && last !in ns && last !in front
  {
    var front, last := fs[..|fs| - 1], fs[|fs| - 1];
    var all := ns + fs;
    forall i | 0 <= i < |ns + front| ensures (ns + front)[i] == all[i] != last {
      assert all[|all| - 1] == last;
    }
    forall i | 0 <= i < |ns| ensures ns[i] != last { assert (ns + front)[i] == ns[i]; }
    forall i | 0 <= i < |front| ensures front[i] != last { assert (ns + front)[|ns| + i] == front[i]; }
  }

  /** Lists that share no object are merged as their values are; the old objects keep their places
      and files that do not join the list stay as they were. */
  lemma {:induction false} UnsharedNodesMerge<R>(ns: Nodes<R>, fs: seq<R>)
    requires InHeap(ns.list, ns.h) && InHeap(fs, ns.h) && Unshared(ns.list + fs)
    ensures var r := MergeRefs(ns, fs);
            && ValuesIn(r.list, r.h) == Merge(ValuesIn(ns.list, ns.h), ValuesIn(fs, ns.h))
            && Collected(ns.list, fs, r.list)
            && forall x :: x in ns.h && x !in r.list ==> r.h[x] == ns.h[x]
  {
    if fs == [] {
      forall i, j | 0 <= i < j < |ns.list| ensures ns.list[i] != ns.list[j] {
        assert (ns.list + fs)[i] == ns.list[i] && (ns.list + fs)[j] == ns.list[j];
      }
    } else {
      var front, last := fs[..|fs| - 1], fs[|fs| - 1];
      UnsharedFront(ns.list, fs);
      UnsharedNodesMerge(ns, front);
      var m := MergeRefs(ns, front);
      assert last !in m.list;
      MergeRefIsMergeOne(m, last);
      assert ValuesIn(fs, ns.h)[..|fs| - 1] == ValuesIn(front, ns.h);
      CollectedNext(ns.list, fs, m.list, MergeRef(m, last).list);
    }
  }

  lemma CollectedNext<R>(ns: seq<R>, fs: seq<R>, r: seq<R>, r': seq<R>)
    requires fs != [] && Collected(ns, fs[..|fs| - 1], r) && fs[|fs| - 1] !in r
    requires r' == r || r' == r + [fs[|fs| - 1]]
    ensures Collected(ns, fs, r')
  {
    forall i | 0 <= i < |r'| ensures r'[i] in ns || r'[i] in fs {
      assert i < |r| ==> r'[i] == r[i];
    }
  }

  /** Lists that share an object need not be: here the file names the list's own node again, after
      another of the same name, and the second time finds it already written over. */
  lemma SharedNodesMergeOtherwise<R>(n: R, g: R, name: string, url: string, other: string)
    requires n != g && url != other
    ensures var h := map[n := Node(Some(name), Some(url), None), g := Node(Some(name), Some(other), None)];
            var r := MergeRefs(Nodes([n], h), [g, n]);
            && ValuesIn(r.list, r.h) == [Node(Some(name), Some(other), None)]
            && Merge(ValuesIn([n], h), ValuesIn([g, n], h)) == [Node(Some(name), Some(url), None)]
  {
    var own, file := Node(Some(name), Some(url), None), Node(Some(name), Some(other), None);
    var h := map[n := own, g := file];
    assert [g, n][..1] == [g] && [g][..0] == [];
    assert MergeRefs(Nodes([n], h), [g]) == MergeRef(Nodes([n], h), g) == Nodes([n], h[n := file]);
    assert ValuesIn([n], h) == [own] && ValuesIn([g, n], h) == [file] + [own];
    LastWordWins(own, file);
  }

  lemma LastWordWins(own: Node, file: Node)
    requires own.name.Some? && own.name == file.name && own.url.Some? && own.solidityUrl == file.solidityUrl
    ensures Merge([own], [file] + [own]) == [own]
  {
    assert [file][..0] == [];
    var m := MergeOne([own], file);
    assert Merge([own], [file]) == m && |m| == 1 && m[0] == OverNode(own, file);
    MergeAppend([own], [file], own);
  }

  predicate Fills<T(==)>(r: Option<T>, c: Option<T>, d: Option<T>) {
    r == if c.Some? then c else d
  }

  predicate ChainFills(r: Chain, c: Chain, d: Chain) {
    && Fills(r.balancePollPeriod, c.balancePollPeriod, d.balancePollPeriod)
    && Fills(r.broadcastChanSize, c.broadcastChanSize, d.broadcastChanSize)
    && Fills(r.confirmPollPeriod, c.confirmPollPeriod, d.confirmPollPeriod)
    && Fills(r.ocr2CachePollPeriod, c.ocr2CachePollPeriod, d.ocr2CachePollPeriod)
    && Fills(r.ocr2CacheTTL, c.ocr2CacheTTL, d.ocr2CacheTTL)
    && Fills(r.retentionPeriod, c.retentionPeriod, d.retentionPeriod)
    && Fills(r.reapInterval, c.reapInterval, d.reapInterval)
  }

  /** SetDefaults lays the configuration over defaults, which have no nodes: what is set stays, what
      is not comes from the defaults, the nodes stay if and only if no name occurs twice, and doing
      it again changes nothing. */
  lemma DefaultsFillTheGaps(defaults: Config, c: Config)
    requires defaults.nodes == []
    ensures var r := Overlay(defaults, c);
            && Fills(r.chainId, c.chainId, defaults.chainId) && Fills(r.enabled, c.enabled, defaults.enabled)
            && ChainFills(r.chain, c.chain, defaults.chain)
            && (r.nodes == c.nodes <==> UniqueNames(c.nodes))
            && Overlay(defaults, r) == r
  {
    MergeIntoNothing(c.nodes);
    MergeKeepsUnique([], c.nodes);
    MergeIntoNothing(Merge([], c.nodes));
  }
}
