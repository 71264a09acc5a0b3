/** The configuration objects: node objects are shared by reference between lists. */
module TomlConfigs {

  import opened Options
  import opened ConfigOverlay

  class NodeConfig {
    var name: Option<string>
    var url: Option<string>
    var solidityUrl: Option<string>

    function Value(): Node
      reads this
    {
      Node(name, url, solidityUrl)
    }
  }

  function Values(ns: seq<NodeConfig>): (vs: seq<Node>)
    reads ns
    ensures |vs| == |ns| && forall i :: 0 <= i < |ns| ==> vs[i] == ns[i].Value()
  {
    seq(|ns|, i requires 0 <= i < |ns| reads ns => ns[i].Value())
  }

  ghost function HeapOf(objects: set<NodeConfig>): (h: map<NodeConfig, Node>)
    reads objects
    ensures h.Keys == objects
  {
    map n | n in objects :: n.Value()
  }

  ghost function Objects(q: seq<NodeConfig>): (objects: set<NodeConfig>)
    ensures forall i :: 0 <= i < |q| ==> q[i] in objects
  {
    set n | n in q
  }

  /** The objects hold what h says. */
  ghost predicate HeapIs(h: map<NodeConfig, Node>)
    reads h.Keys
  {
    forall n <- h :: n.Value() == h[n]
  }

  lemma ValuesAreIn(q: seq<NodeConfig>, h: map<NodeConfig, Node>)
    requires InHeap(q, h) && HeapIs(h)
    ensures Values(q) == ValuesIn(q, h)
  {
  }

  method SetFromNode(n: NodeConfig, f: NodeConfig)
    modifies n
    ensures n.Value() == OverNode(old(n.Value()), old(f.Value()))
  {
    if f.name.Some? { n.name := f.name; }
    if f.url.Some? { n.url := f.url; }
    if f.solidityUrl.Some? { n.solidityUrl := f.solidityUrl; }
  }

  method IndexByName(ns: seq<NodeConfig>, name: string) returns (i: nat)
    ensures i == Find(Values(ns), name)
  {
    i := 0;
    while i < |ns| && ns[i].name != Some(name)
      invariant i <= |ns| && forall j :: 0 <= j < i ==> ns[j].name != Some(name)
    {
      i := i + 1;
    }
    FindIs(Values(ns), name, i);
  }

  /** One file node: its namesake is written over in place, or the object itself joins the list. */
  method SetFromOne(ns: seq<NodeConfig>, f: NodeConfig, ghost h: map<NodeConfig, Node>) returns (r: seq<NodeConfig>)
    requires InHeap(ns, h) && f in h && HeapIs(h)
    modifies ns
    ensures var m := MergeRef(Nodes(ns, h), f); r == m.list && HeapIs(m.h)
  {
    r := ns;
    ValuesAreIn(ns, h);
    if f.name.None? {
      r := r + [f];
      return;
    }
    var i := IndexByName(ns, f.name.value);
    if i == |ns| {
      r := r + [f];
      return;
    }
    SetFromNode(ns[i], f);
  }

  /** What the loop computes for all lists, shared objects or not; for lists that share none, the
      merge of the values. */
  method SetNodesFrom(ns: seq<NodeConfig>, fs: seq<NodeConfig>) returns (r: seq<NodeConfig>)
    modifies ns, fs
    ensures var m := MergeRefs(Nodes(ns, old(HeapOf(Objects(ns + fs)))), fs); r == m.list && HeapIs(m.h)
    ensures Unshared(ns + fs) ==>
              Values(r) == Merge(old(Values(ns)), old(Values(fs))) && Collected(ns, fs, r)
  {
    r := ns;
    ghost var h := HeapOf(Objects(ns + fs));
    AllIn(ns, fs);
    ghost var before, files := Values(ns), Values(fs);
    ValuesAreIn(ns, h);
    ValuesAreIn(fs, h);
    for i := 0 to |fs|
      invariant r == MergeRefs(Nodes(ns, h), fs[..i]).list
      invariant HeapIs(MergeRefs(Nodes(ns, h), fs[..i]).h)
      invariant forall k :: 0 <= k < |r| ==> r[k] in ns || r[k] in fs
    {
      ghost var m := MergeRefs(Nodes(ns, h), fs[..i]);
      assert fs[..i + 1][..i] == fs[..i];
      r := SetFromOne(r, fs[i], m.h);
    }
    assert fs[..|fs|] == fs;
    ghost var m := MergeRefs(Nodes(ns, h), fs);
    ValuesAreIn(r, m.h);
    if Unshared(ns + fs) { UnsharedNodesMerge(Nodes(ns, h), fs); }
  }

  lemma AllIn(ns: seq<NodeConfig>, fs: seq<NodeConfig>)
    ensures forall i :: 0 <= i < |ns| ==> ns[i] in Objects(ns + fs)
    ensures forall i :: 0 <= i < |fs| ==> fs[i] in Objects(ns + fs)
  {
    forall i | 0 <= i < |ns| ensures ns[i] in Objects(ns + fs) { assert (ns + fs)[i] == ns[i]; }
    forall i | 0 <= i < |fs| ensures fs[i] in Objects(ns + fs) { assert (ns + fs)[|ns| + i] == fs[i]; }
  }

  class TomlConfig {
    var chainId: Option<string>
    var enabled: Option<bool>
    var chain: Chain
    var nodes: seq<NodeConfig>

    function Value(): Config
      reads this, nodes
    {
      Config(chainId, enabled, chain, Values(nodes))
    }

    /** The defaults: nothing is set but the chain fields, and there are no nodes. */
    constructor (defaults: Config)
      requires defaults.nodes == []
      ensures Value() == defaults && fresh(this)
    {
      chainId, enabled, chain, nodes := defaults.chainId, defaults.enabled, defaults.chain, [];
    }

    method SetFromChain(f: TomlConfig)
      modifies `chain
      ensures chain == OverChain(old(chain), old(f.chain))
    {
      if f.chain.balancePollPeriod.Some? { chain := chain.(balancePollPeriod := f.chain.balancePollPeriod); }
      if f.chain.broadcastChanSize.Some? { chain := chain.(broadcastChanSize := f.chain.broadcastChanSize); }
      if f.chain.confirmPollPeriod.Some? { chain := chain.(confirmPollPeriod := f.chain.confirmPollPeriod); }
      if f.chain.ocr2CachePollPeriod.Some? { chain := chain.(ocr2CachePollPeriod := f.chain.ocr2CachePollPeriod); }
      if f.chain.ocr2CacheTTL.Some? { chain := chain.(ocr2CacheTTL := f.chain.ocr2CacheTTL); }
      if f.chain.retentionPeriod.Some? { chain := chain.(retentionPeriod := f.chain.retentionPeriod); }
      if f.chain.reapInterval.Some? { chain := chain.(reapInterval := f.chain.reapInterval); }
    }

    method SetScalarsFrom(f: TomlConfig)
      modifies `chainId, `enabled, `chain
      ensures chainId == Or(old(chainId), old(f.chainId)) && enabled == Or(old(enabled), old(f.enabled))
      ensures chain == OverChain(old(chain), old(f.chain))
    {
      if f.chainId.Some? { chainId := f.chainId; }
      if f.enabled.Some? { enabled := f.enabled; }
      SetFromChain(f);
    }

    /** The list comes to hold what the file makes of it. */
    method SetNodeListFrom(f: TomlConfig)
      modifies `nodes, nodes, f.nodes
      ensures var m := MergeRefs(Nodes(old(nodes), old(HeapOf(Objects(nodes + f.nodes)))), old(f.nodes));
              nodes == m.list && HeapIs(m.h)
      ensures old(Unshared(nodes + f.nodes)) ==>
                Values(nodes) == Merge(old(Values(nodes)), old(Values(f.nodes)))
                && Collected(old(nodes), old(f.nodes), nodes)
    {
      nodes := SetNodesFrom(nodes, f.nodes);
    }

    /** Also for a configuration laid over itself, or over one it shares nodes with. */
    method SetFrom(f: TomlConfig)
      modifies this, nodes, f.nodes
      ensures chainId == Or(old(chainId), old(f.chainId)) && enabled == Or(old(enabled), old(f.enabled))
      ensures chain == OverChain(old(chain), old(f.chain))
      ensures var m := MergeRefs(Nodes(old(nodes), old(HeapOf(Objects(nodes + f.nodes)))), old(f.nodes));
              nodes == m.list && HeapIs(m.h)
      ensures old(Unshared(nodes + f.nodes)) ==>
                Value() == Overlay(old(Value()), old(f.Value())) && Collected(old(nodes), old(f.nodes), nodes)
    {
      ghost var h := HeapOf(Objects(nodes + f.nodes));
      SetScalarsFrom(f);
      assert HeapOf(Objects(nodes + f.nodes)) == h;
      assert Values(nodes) == old(Values(nodes)) && Values(f.nodes) == old(Values(f.nodes));
      SetNodeListFrom(f);
    }

    /** The struct copy: all fields, the list with its objects. */
    method Assign(c: TomlConfig)
      requires this != c
      modifies `chainId, `enabled, `chain, `nodes
      ensures chainId == c.chainId && enabled == c.enabled && chain == c.chain && nodes == c.nodes
      ensures Value() == old(c.Value())
    {
      ghost var values := Values(c.nodes);
      chainId, enabled, chain, nodes := c.chainId, c.enabled, c.chain, c.nodes;
      assert Values(nodes) == values;
    }

    /** A copy of the defaults with this configuration laid over it. */
    method OverDefaults(defaults: Config) returns (def: TomlConfig)
      requires defaults.nodes == []
      modifies nodes
      ensures fresh(def)
      ensures def.chainId == Or(defaults.chainId, old(chainId)) && def.enabled == Or(defaults.enabled, old(enabled))
      ensures def.chain == OverChain(defaults.chain, old(chain))
      ensures var m := MergeRefs(Nodes([], old(HeapOf(Objects(nodes)))), old(nodes)); def.nodes == m.list && HeapIs(m.h)
      ensures old(Unshared(nodes)) ==>
                def.Value() == Overlay(defaults, old(Value())) && Collected([], old(nodes), def.nodes)
    {
      ghost var h, v := HeapOf(Objects(nodes)), Value();
      def := new TomlConfig(defaults);
      assert def.nodes == [] && def.nodes + nodes == nodes;
      assert def.chainId == defaults.chainId && def.enabled == defaults.enabled && def.chain == defaults.chain;
      assert HeapOf(Objects(def.nodes + nodes)) == h && Value() == v;
      def.SetFrom(this);
    }

    method SetDefaults(defaults: Config)
      requires defaults.nodes == []
      modifies this, nodes
      ensures chainId == Or(defaults.chainId, old(chainId)) && enabled == Or(defaults.enabled, old(enabled))
      ensures chain == OverChain(defaults.chain, old(chain))
      ensures var m := MergeRefs(Nodes([], old(HeapOf(Objects(nodes)))), old(nodes)); nodes == m.list && HeapIs(m.h)
      ensures old(Unshared(nodes)) ==> Value() == Overlay(defaults, old(Value()))
    {
      var def := OverDefaults(defaults);
      ghost var m := MergeRefs(Nodes([], old(HeapOf(Objects(nodes)))), old(nodes));
      Assign(def);
      assert HeapIs(m.h);
    }
  }
}
