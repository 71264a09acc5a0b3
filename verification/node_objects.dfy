/** Node lists as lists of objects, which may be in both lists of a merge: what each object comes to
    hold, and when merging again changes nothing. */
module NodeObjects {

  import opened Options
  import opened ConfigOverlay

  /** x is the first object of its name in the list. */
  ghost predicate Leads<R>(list: seq<R>, h: map<R, Node>, x: R)
    requires InHeap(list, h) && x in h
  {
    h[x].name.Some?
    && var i := Find(ValuesIn(list, h), h[x].name.value);
       i < |list| && list[i] == x
  }

  /** What the objects of fs other than x say of the name of x, the last word first. */
  ghost function Said<R>(h: map<R, Node>, fs: seq<R>, x: R): (n: Node)
    requires InHeap(fs, h) && x in h
    ensures n.name.None? || n.name == h[x].name
  {
    if fs == [] then Node(None, None, None)
    else
      var said, last := Said(h, fs[..|fs| - 1], x), fs[|fs| - 1];
      if last != x && h[x].name.Some? && h[last].name == h[x].name then OverNode(said, h[last]) else said
  }

  ghost predicate Knows<R>(list: seq<R>, h: map<R, Node>, x: R)
    requires InHeap(list, h) && x in h
  {
    Has(ValuesIn(list, h), h[x].name)
  }

  /** What an object holds after fs was merged and the list is this one. */
  ghost function After<R>(list: seq<R>, h: map<R, Node>, fs: seq<R>, x: R): (n: Node)
    requires InHeap(list, h) && InHeap(fs, h) && x in h
    ensures n.name == h[x].name
  {
    if Leads(list, h, x) then OverNode(h[x], Said(h, fs, x)) else h[x]
  }

  lemma SaidAppend<R>(h: map<R, Node>, fs: seq<R>, last: R, x: R)
    requires InHeap(fs, h) && last in h && x in h
    ensures InHeap(fs + [last], h)
    ensures Said(h, fs + [last], x)
            == if last != x && h[x].name.Some? && h[last].name == h[x].name then OverNode(Said(h, fs, x), h[last])
               else Said(h, fs, x)
  {
    assert (fs + [last])[..|fs|] == fs;
  }

  lemma {:induction false} NothingSaid<R>(h: map<R, Node>, fs: seq<R>, x: R)
    requires InHeap(fs, h) && x in h && forall i :: 0 <= i < |fs| ==> h[fs[i]].name != h[x].name
    ensures Said(h, fs, x) == Node(None, None, None)
  {
    if fs != [] { NothingSaid(h, fs[..|fs| - 1], x); }
  }

  ghost predicate Holds<R>(list: seq<R>, h: map<R, Node>, fs: seq<R>, h': map<R, Node>)
    requires InHeap(list, h) && InHeap(fs, h)
  {
    h'.Keys == h.Keys && forall x <- h :: h'[x] == After(list, h, fs, x)
  }

  /** Names stay, so that the list is searched as it was at the start. */
  lemma MergeRefIn<R>(list: seq<R>, h: map<R, Node>, h': map<R, Node>, f: R)
    requires InHeap(list, h) && f in h && h'.Keys == h.Keys && forall x <- h :: h'[x].name == h[x].name
    ensures MergeRef(Nodes(list, h'), f)
            == if !Knows(list, h, f) then Nodes(list + [f], h')
               else var x := list[Find(ValuesIn(list, h), h[f].name.value)];
                    Nodes(list, h'[x := OverNode(h'[x], h'[f])])
  {
    if h[f].name.Some? { FindIn(ValuesIn(list, h), ValuesIn(list, h'), h[f].name.value); }
  }

  lemma KnownNext<R>(list: seq<R>, h: map<R, Node>, fs: seq<R>, h': map<R, Node>, last: R)
    requires InHeap(list, h) && InHeap(fs, h) && last in h && Holds(list, h, fs, h') && Knows(list, h, last)
    ensures InHeap(fs + [last], h)
    ensures var r := MergeRef(Nodes(list, h'), last); r.list == list && Holds(list, h, fs + [last], r.h)
  {
    MergeRefIn(list, h, h', last);
    var r := MergeRef(Nodes(list, h'), last);
    forall x <- h ensures r.h[x] == After(list, h, fs + [last], x) { SaidAppend(h, fs, last, x); }
  }

  lemma LeadsInAppended<R>(list: seq<R>, h: map<R, Node>, last: R, x: R)
    requires InHeap(list, h) && last in h && x in h && !Knows(list, h, last)
    ensures InHeap(list + [last], h)
    ensures Leads(list + [last], h, x) <==> Leads(list, h, x) || (x == last && h[x].name.Some?)
  {
    assert ValuesIn(list + [last], h) == ValuesIn(list, h) + [h[last]];
    if h[x].name.Some? { FindAppend(ValuesIn(list, h), h[last], h[x].name.value); }
  }

  lemma UnknownNext<R>(list: seq<R>, h: map<R, Node>, fs: seq<R>, h': map<R, Node>, last: R)
    requires InHeap(list, h) && InHeap(fs, h) && last in h && Holds(list, h, fs, h') && !Knows(list, h, last)
    requires forall i :: 0 <= i < |fs| && h[fs[i]].name.Some? ==> Knows(list, h, fs[i])
    ensures InHeap(fs + [last], h)
    ensures var r := MergeRef(Nodes(list, h'), last);
            r.list == list + [last] && Holds(list + [last], h, fs + [last], r.h)
  {
    MergeRefIn(list, h, h', last);
    var r := MergeRef(Nodes(list, h'), last);
    forall x <- h ensures r.h[x] == After(list + [last], h, fs + [last], x) {
      SaidAppend(h, fs, last, x);
      LeadsInAppended(list, h, last, x);
      if x == last && h[x].name.Some? { NothingSaid(h, fs, x); }
    }
  }

  lemma KnownInAppended<R>(list: seq<R>, h: map<R, Node>, last: R, x: R)
    requires InHeap(list, h) && last in h && x in h
    ensures InHeap(list + [last], h)
    ensures Knows(list + [last], h, x) <==> Knows(list, h, x) || (h[x].name.Some? && h[x].name == h[last].name)
  {
    assert ValuesIn(list + [last], h) == ValuesIn(list, h) + [h[last]];
    if h[x].name.Some? { FindAppend(ValuesIn(list, h), h[last], h[x].name.value); }
  }

  ghost predicate AllKnown<R>(list: seq<R>, h: map<R, Node>, fs: seq<R>)
    requires InHeap(list, h) && InHeap(fs, h)
  {
    forall i :: 0 <= i < |fs| ==> Knows(list, h, fs[i])
  }

  ghost predicate NamesKnown<R>(list: seq<R>, h: map<R, Node>, fs: seq<R>)
    requires InHeap(list, h) && InHeap(fs, h)
  {
    forall i :: 0 <= i < |fs| && h[fs[i]].name.Some? ==> Knows(list, h, fs[i])
  }

  ghost predicate Merged<R>(ns: Nodes<R>, fs: seq<R>, r: Nodes<R>)
    requires InHeap(ns.list, ns.h) && InHeap(fs, ns.h)
  {
    && InHeap(r.list, ns.h) && Holds(r.list, ns.h, fs, r.h) && NamesKnown(r.list, ns.h, fs) && ns.list <= r.list
    && (r.list == ns.list <==> AllKnown(ns.list, ns.h, fs))
  }

  lemma ListNext<R>(ns: Nodes<R>, front: seq<R>, last: R, list: seq<R>)
    requires InHeap(ns.list, ns.h) && InHeap(front, ns.h) && last in ns.h && InHeap(list, ns.h)
    requires NamesKnown(list, ns.h, front) && ns.list <= list && (list == ns.list <==> AllKnown(ns.list, ns.h, front))
    ensures var next := if Knows(list, ns.h, last) then list else list + [last];
            && InHeap(next, ns.h) && InHeap(front + [last], ns.h) && NamesKnown(next, ns.h, front + [last])
            && ns.list <= next && (next == ns.list <==> AllKnown(ns.list, ns.h, front + [last]))
  {
    var fs := front + [last];
    var next := if Knows(list, ns.h, last) then list else list + [last];
    forall i | 0 <= i < |fs| && ns.h[fs[i]].name.Some? ensures Knows(next, ns.h, fs[i]) {
      assert i < |front| ==> fs[i] == front[i];
      KnownInAppended(list, ns.h, last, fs[i]);
    }
    if AllKnown(ns.list, ns.h, fs) {
      forall i | 0 <= i < |front| ensures Knows(ns.list, ns.h, front[i]) { assert fs[i] == front[i]; }
      assert fs[|front|] == last;
    }
  }

  lemma MergedNext<R>(ns: Nodes<R>, front: seq<R>, last: R, m: Nodes<R>)
    requires InHeap(ns.list, ns.h) && InHeap(front, ns.h) && last in ns.h && Merged(ns, front, m)
    ensures InHeap(front + [last], ns.h) && Merged(ns, front + [last], MergeRef(m, last))
  {
    ListNext(ns, front, last, m.list);
    if Knows(m.list, ns.h, last) {
      KnownNext(m.list, ns.h, front, m.h, last);
    } else {
      UnknownNext(m.list, ns.h, front, m.h, last);
    }
  }

  /** For all lists, whatever they share: the first object of each name has all laid over it that the
      other objects of the file say of the name, and no other object changes; the list stays as it
      is if and only if it has a node for every node of the file. */
  lemma {:induction false} ObjectsMerge<R>(ns: Nodes<R>, fs: seq<R>)
    requires InHeap(ns.list, ns.h) && InHeap(fs, ns.h)
    ensures Merged(ns, fs, MergeRefs(ns, fs))
  {
    if fs != [] {
      var front, last := fs[..|fs| - 1], fs[|fs| - 1];
      ObjectsMerge(ns, front);
      var m := MergeRefs(ns, front);
      assert fs == front + [last];
      MergedNext(ns, front, last, m);
    }
  }

  // ---------------------------------------------------------------- once more

  lemma {:induction false} SaidAgain<R>(list: seq<R>, h: map<R, Node>, fs: seq<R>, h': map<R, Node>, gs: seq<R>, x: R)
    requires InHeap(list, h) && InHeap(fs, h) && InHeap(gs, h) && Holds(list, h, fs, h') && x in h && Leads(list, h, x)
    ensures Said(h', gs, x) == Said(h, gs, x)
  {
    if gs != [] { SaidAgain(list, h, fs, h', gs[..|gs| - 1], x); }
  }

  lemma NamesStay<R>(list: seq<R>, h: map<R, Node>, h': map<R, Node>, x: R)
    requires InHeap(list, h) && x in h && h'.Keys == h.Keys && forall y <- h :: h'[y].name == h[y].name
    ensures (Knows(list, h', x) <==> Knows(list, h, x)) && (Leads(list, h', x) <==> Leads(list, h, x))
  {
    if h[x].name.Some? { FindIn(ValuesIn(list, h), ValuesIn(list, h'), h[x].name.value); }
  }

  lemma AllKnownIffNamed<R>(list: seq<R>, h: map<R, Node>, fs: seq<R>)
    requires InHeap(list, h) && InHeap(fs, h) && NamesKnown(list, h, fs)
    ensures AllKnown(list, h, fs) <==> AllNamed(ValuesIn(fs, h))
  {
    var vs := ValuesIn(fs, h);
    if AllKnown(list, h, fs) {
      forall i | 0 <= i < |vs| ensures vs[i].name.Some? { assert Knows(list, h, fs[i]); }
    }
    if AllNamed(vs) {
      forall i | 0 <= i < |fs| ensures Knows(list, h, fs[i]) { assert vs[i].name.Some?; }
    }
  }

  lemma AllKnownAgain<R>(list: seq<R>, h: map<R, Node>, h': map<R, Node>, fs: seq<R>)
    requires InHeap(list, h) && InHeap(fs, h) && h'.Keys == h.Keys && forall y <- h :: h'[y].name == h[y].name
    ensures AllKnown(list, h', fs) <==> AllKnown(list, h, fs)
  {
    forall i | 0 <= i < |fs| ensures Knows(list, h', fs[i]) <==> Knows(list, h, fs[i]) {
      NamesStay(list, h, h', fs[i]);
    }
  }

  lemma HoldsAgain<R>(list: seq<R>, h: map<R, Node>, fs: seq<R>, h': map<R, Node>, h'': map<R, Node>)
    requires InHeap(list, h) && InHeap(fs, h) && Holds(list, h, fs, h') && Holds(list, h', fs, h'')
    ensures h'' == h'
  {
    forall x <- h ensures h''[x] == h'[x] {
      NamesStay(list, h, h', x);
      if Leads(list, h, x) { SaidAgain(list, h, fs, h', fs, x); }
    }
  }

  /** The same file merged twice is the file merged once if and only if all its nodes have names. */
  lemma FileTwice<R>(ns: Nodes<R>, fs: seq<R>)
    requires InHeap(ns.list, ns.h) && InHeap(fs, ns.h)
    ensures MergeRefs(MergeRefs(ns, fs), fs) == MergeRefs(ns, fs) <==> AllNamed(ValuesIn(fs, ns.h))
  {
    var r := MergeRefs(ns, fs);
    var r2 := MergeRefs(r, fs);
    ObjectsMerge(ns, fs);
    ObjectsMerge(r, fs);
    AllKnownIffNamed(r.list, ns.h, fs);
    AllKnownAgain(r.list, ns.h, r.h, fs);
    if r2.list == r.list { HoldsAgain(r.list, ns.h, fs, r.h, r2.h); }
  }

  /** The other nodes of each name say nothing last but what its first node says. */
  ghost predicate Agreed<R>(q: seq<R>, h: map<R, Node>)
    requires InHeap(q, h)
  {
    forall x <- h :: Leads(q, h, x) ==> OverNode(h[x], Said(h, q, x)) == h[x]
  }

  lemma HoldsIfAgreed<R>(q: seq<R>, h: map<R, Node>, h': map<R, Node>)
    requires InHeap(q, h) && Holds(q, h, q, h')
    ensures h' == h <==> Agreed(q, h)
  {
    if h' == h {
      forall x <- h | Leads(q, h, x) ensures OverNode(h[x], Said(h, q, x)) == h[x] {
        assert h'[x] == After(q, h, q, x);
      }
    }
    if Agreed(q, h) {
      forall x <- h ensures h'[x] == h[x] { assert h'[x] == After(q, h, q, x); }
    }
  }

  lemma OwnNamesKnown<R>(q: seq<R>, h: map<R, Node>)
    requires InHeap(q, h)
    ensures NamesKnown(q, h, q)
  {
    forall i | 0 <= i < |q| && h[q[i]].name.Some? ensures Knows(q, h, q[i]) {
      assert ValuesIn(q, h)[i] == h[q[i]];
    }
  }

  /** A list merged into itself, object by object, changes nothing if and only if every node has a
      name, and the other nodes of the name say nothing last but what its first node says. */
  lemma ListIntoItself<R>(q: seq<R>, h: map<R, Node>)
    requires InHeap(q, h)
    ensures MergeRefs(Nodes(q, h), q) == Nodes(q, h) <==> AllNamed(ValuesIn(q, h)) && Agreed(q, h)
  {
    var r := MergeRefs(Nodes(q, h), q);
    ObjectsMerge(Nodes(q, h), q);
    OwnNamesKnown(q, h);
    AllKnownIffNamed(q, h, q);
    if r.list == q { HoldsIfAgreed(q, h, r.h); }
  }

  lemma TotalOfLast<R>(front: seq<R>, last: R, h: map<R, Node>, name: string)
    requires InHeap(front, h) && last in h && h[last].name == Some(name) && !Has(ValuesIn(front, h), Some(name))
    ensures Total(ValuesIn(front, h) + [h[last]], name) == OverNode(h[last], Said(h, front, last))
  {
    var vs := ValuesIn(front, h);
    TotalAppend(vs, h[last], name);
    TotalOfAbsent(vs, name);
    forall k | 0 <= k < |front| ensures h[front[k]].name != Some(name) { assert vs[k].name != Some(name); }
    NothingSaid(h, front, last);
  }

  lemma {:induction false} TotalIsSaid<R>(fs: seq<R>, h: map<R, Node>, i: nat, name: string)
    requires InHeap(fs, h) && Unshared(fs) && i < |fs| && h[fs[i]].name == Some(name)
    requires Find(ValuesIn(fs, h), name) == i
    ensures Total(ValuesIn(fs, h), name) == OverNode(h[fs[i]], Said(h, fs, fs[i]))
  {
    var front, last := fs[..|fs| - 1], fs[|fs| - 1];
    assert fs == front + [last] && ValuesIn(fs, h) == ValuesIn(front, h) + [h[last]];
    FindAppend(ValuesIn(front, h), h[last], name);
    SaidAppend(h, front, last, fs[i]);
    if i < |front| {
      TotalIsSaid(front, h, i, name);
      TotalAppend(ValuesIn(front, h), h[last], name);
    } else {
      TotalOfLast(front, last, h, name);
    }
  }

  /** For a list without repeated objects these are the conditions on its values. */
  lemma AgreedIsSettled<R>(q: seq<R>, h: map<R, Node>)
    requires InHeap(q, h) && Unshared(q)
    ensures Agreed(q, h) <==> Settled(ValuesIn(q, h))
  {
    var vs := ValuesIn(q, h);
    forall i | 0 <= i < |q| && vs[i].name.Some? && Find(vs, vs[i].name.value) == i
      ensures Leads(q, h, q[i]) && Total(vs, vs[i].name.value) == OverNode(h[q[i]], Said(h, q, q[i]))
    {
      TotalIsSaid(q, h, i, vs[i].name.value);
    }
    if Agreed(q, h) {
      forall i | 0 <= i < |vs| && vs[i].name.Some? && Find(vs, vs[i].name.value) == i
        ensures Total(vs, vs[i].name.value) == vs[i]
      {
        assert Leads(q, h, q[i]);
      }
    }
    if Settled(vs) {
      forall x <- h | Leads(q, h, x) ensures OverNode(h[x], Said(h, q, x)) == h[x] {
        var i := Find(vs, h[x].name.value);
        assert vs[i].name.Some? && Total(vs, vs[i].name.value) == vs[i];
      }
    }
  }
}
