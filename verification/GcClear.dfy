/**
 Clearing weak tables (lgc.c, "clearbykeys" and "clearbyvalues").  Clearing empties entries and does
 nothing else; so all that marking has established survives it.
 */
module GcClear {
  import opened GcHeap
  import opened GcMark

  /** Whether a weak reference has lost its object; strings are values and never are lost. */
  ghost predicate Lost(b: Heap, nw: set<Ref>, v: Val)
  {
    v.Ptr? && v.r !in nw && !IsStr(b, v.r)
  }

  ghost function Kept(b: Heap, nw: set<Ref>, v: Val): Val
  {
    if Lost(b, nw, v) then Empty else v
  }

  /** Table 't' becomes 't'' when exactly the values that are lost are emptied. */
  ghost predicate ValuesCleared(b: Heap, nw: set<Ref>, t: Body, t': Body)
  {
    && t.Table? && t'.Table? && t'.mode == t.mode && t'.meta == t.meta
    && |t'.arr| == |t.arr| && (forall i :: 0 <= i < |t.arr| ==> t'.arr[i] == Kept(b, nw, t.arr[i]))
    && |t'.node| == |t.node|
    && (forall i :: 0 <= i < |t.node| ==> t'.node[i] == Entry(t.node[i].key, Kept(b, nw, t.node[i].val)))
  }

  /** Table 't' becomes 't'' when exactly the entries whose keys are lost are emptied. */
  ghost predicate KeysCleared(b: Heap, nw: set<Ref>, t: Body, t': Body)
  {
    && t.Table? && t'.Table? && t'.mode == t.mode && t'.meta == t.meta && t'.arr == t.arr
    && |t'.node| == |t.node|
    && (forall i :: 0 <= i < |t.node| ==>
          t'.node[i] == Entry(t.node[i].key, if Lost(b, nw, t.node[i].key) then Empty else t.node[i].val))
  }

  /** The table only lost entries. */
  ghost predicate TableShrinks(t: Body, t': Body)
  {
    && t.Table? && t'.Table? && t'.mode == t.mode && t'.meta == t.meta
    && |t'.arr| == |t.arr| && (forall i :: 0 <= i < |t.arr| ==> t'.arr[i] == t.arr[i] || t'.arr[i] == Empty)
    && |t'.node| == |t.node|
    && (forall i :: 0 <= i < |t.node| ==>
          t'.node[i].key == t.node[i].key && (t'.node[i].val == t.node[i].val || t'.node[i].val == Empty))
  }

  lemma ClearedShrinks(b: Heap, nw: set<Ref>, t: Body, t': Body)
    requires ValuesCleared(b, nw, t, t') || KeysCleared(b, nw, t, t')
    ensures TableShrinks(t, t')
  {
  }

  ghost predicate HeapShrinks(b: Heap, b': Heap)
  {
    b'.Keys == b.Keys && forall o :: o in b ==> b'[o] == b[o] || TableShrinks(b[o], b'[o])
  }

  /** No references appear in a table that shrinks, and the entries that remain are old entries. */
  lemma ShrinkParts(t: Body, t': Body)
    requires TableShrinks(t, t')
    ensures PtrsOf(t'.arr) <= PtrsOf(t.arr)
    ensures forall e :: e in t'.node && e.val != Empty ==> e in t.node
    ensures KeyRefs(t'.node) <= KeyRefs(t.node) && ValRefs(t'.node) <= ValRefs(t.node)
  {
    forall v | v in t'.arr && v != Empty ensures v in t.arr {
      var i :| 0 <= i < |t'.arr| && t'.arr[i] == v;
      assert v == t.arr[i];
    }
    forall e | e in t'.node && e.val != Empty ensures e in t.node {
      var i :| 0 <= i < |t'.node| && t'.node[i] == e;
      assert e == t.node[i];
    }
  }

  lemma ShrinkSame(b: Heap, b': Heap, o: Ref)
    requires HeapShrinks(b, b') && o in b
    ensures IsStr(b', o) == IsStr(b, o) && Refs(b', o) <= Refs(b, o) && CanBeGray(b', o) == CanBeGray(b, o)
    ensures !b[o].Table? ==> b'[o] == b[o] && Refs(b', o) == Refs(b, o)
    ensures b[o].Table? ==>
              && b'[o].Table? && b'[o].mode == b[o].mode && b'[o].meta == b[o].meta
              && PtrsOf(b'[o].arr) <= PtrsOf(b[o].arr) && KeyRefs(b'[o].node) <= KeyRefs(b[o].node)
              && ValRefs(b'[o].node) <= ValRefs(b[o].node)
              && (forall e :: e in b'[o].node && e.val != Empty ==> e in b[o].node)
  {
    if TableShrinks(b[o], b'[o]) {
      ShrinkParts(b[o], b'[o]);
    } else if b[o].OpenUpVal? && b[o].th in b {
      assert b'[b[o].th] == b[b[o].th] || TableShrinks(b[b[o].th], b'[b[o].th]);
    }
  }

  lemma ShrinkHolds(b: Heap, b': Heap, s: set<Ref>, o: Ref)
    requires HeapShrinks(b, b') && o in b && HoldsAt(b, s, o) && NoDangling(b)
    ensures HoldsAt(b', s, o)
  {
    ShrinkSame(b, b', o);
    if b[o].Table? {
      forall e | e in b'[o].node && KeyHolds(b', s, e) && e.val.Ptr? && b[o].mode == Ephemeron ensures e.val.r in s {
        assert KeyHolds(b, s, e);
      }
      forall r | r in Refs(b', o) && IsStr(b', r) ensures r in s {
        assert IsStr(b, r);
      }
    }
  }

  lemma ShrinkHeapOk(b: Heap, b': Heap, colored: set<Ref>, nw: set<Ref>, s: set<Ref>)
    requires HeapShrinks(b, b') && HeapOk(b, colored, nw, s)
    ensures HeapOk(b', colored, nw, s)
  {
    forall o | o in b' ensures MetaOk(b', o) && UpvalOk(b', o) && ThreadOk(b', o) && Refs(b', o) <= b'.Keys {
      ShrinkWf(b, b', o);
    }
    forall o | o in s && o in b' ensures HoldsAt(b', s, o) {
      ShrinkHolds(b, b', s, o);
    }
  }

  lemma ShrinkWf(b: Heap, b': Heap, o: Ref)
    requires HeapShrinks(b, b') && WfBody(b) && NoDangling(b) && o in b
    ensures MetaOk(b', o) && UpvalOk(b', o) && ThreadOk(b', o) && Refs(b', o) <= b'.Keys
  {
    assert MetaOk(b, o) && UpvalOk(b, o) && ThreadOk(b, o) && Refs(b, o) <= b.Keys;
    ShrinkSame(b, b', o);
    if b[o].Udata? && b[o].meta.Ptr? { ShrinkSame(b, b', b[o].meta.r); }
    if b[o].Table? && b[o].meta.Ptr? { ShrinkSame(b, b', b[o].meta.r); }
    if b[o].OpenUpVal? { ShrinkSame(b, b', b[o].th); }
    if b[o].Thread? {
      forall u | u in b'[o].open ensures u in b' && b'[u].OpenUpVal? && b'[u].th == o {
        ShrinkSame(b, b', u);
      }
    }
  }

  lemma ShrinkTables(b: Heap, b': Heap, nw: set<Ref>, l: seq<Ref>, d: Dest)
    requires HeapShrinks(b, b') && TablesIn(b, nw, l, d) && d != Nowhere
    ensures TablesIn(b', nw, l, d)
  {
    forall o | o in l ensures o in b' && b'[o].Table? && o in nw && MayLeave(b', nw, Atomic, o, d) {
      ShrinkSame(b, b', o);
    }
  }

  lemma ShrinkAllOk(b: Heap, b': Heap, nw: set<Ref>, x: Ctx)
    requires HeapShrinks(b, b') && AllOk(b, nw, x)
    ensures AllOk(b', nw, x)
  {
    forall o | o in nw ensures o in b' && OkAt(b', nw, x, o) {
      assert OkAt(b, nw, x, o);
      ShrinkSame(b, b', o);
    }
  }

  lemma ShrinkLists(b: Heap, b': Heap, nw: set<Ref>, gray: seq<Ref>, weak: seq<Ref>, allweak: seq<Ref>, eph: seq<Ref>)
    requires HeapShrinks(b, b') && ListsOk(b, nw, gray, weak, allweak, eph)
    ensures ListsOk(b', nw, gray, weak, allweak, eph)
  {
    ShrinkTables(b, b', nw, weak, ToWeak);
    ShrinkTables(b, b', nw, allweak, ToAllWeak);
    ShrinkTables(b, b', nw, eph, ToEphemeron);
    forall o | o in gray ensures CanBeGray(b', o) && o in nw {
      ShrinkSame(b, b', o);
    }
  }

  lemma ShrinkConverged(b: Heap, b': Heap, nw: set<Ref>, l: seq<Ref>)
    requires HeapShrinks(b, b') && Converged(b, nw, l) && NoDangling(b)
    ensures Converged(b', nw, l)
  {
    forall o | o in l ensures o in b' && b'[o].Table? && EphDone(b', nw, Elems(b'[o].node)) {
      assert EphDone(b, nw, Elems(b[o].node));
      ShrinkSame(b, b', o);
      forall e | e in Elems(b'[o].node) && KeyHolds(b', nw, e) ensures PtrSet(e.val) <= nw {
        assert e in b[o].node;
        assert KeyHolds(b, nw, e);
      }
    }
  }

  lemma ShrinkTrans(b: Heap, b': Heap, b'': Heap)
    requires HeapShrinks(b, b') && HeapShrinks(b', b'')
    ensures HeapShrinks(b, b'')
  {
    forall o | o in b ensures b''[o] == b[o] || TableShrinks(b[o], b''[o]) {
      assert b'[o] == b[o] || TableShrinks(b[o], b'[o]);
      assert b''[o] == b'[o] || TableShrinks(b'[o], b''[o]);
    }
  }

  lemma ShrinkOne(b: Heap, o: Ref, t': Body)
    requires o in b && TableShrinks(b[o], t')
    ensures HeapShrinks(b, b[o := t'])
  {
  }

  lemma ShrinkLinked(b: Heap, b': Heap, c: Colors, links: multiset<Ref>)
    requires HeapShrinks(b, b') && Linked(b, c, links, {}, false)
    ensures Linked(b', c, links, {}, false)
  {
    forall o | o in links ensures CanBeGray(b', o) {
      ShrinkSame(b, b', o);
    }
  }

  /** A table is replaced by one that only lost entries. */
  method StoreShrunk(g: Collector, o: Ref, t': Body, ghost s: set<Ref>)
    requires MarkInv(g, {}, {}, s) && o in g.body && TableShrinks(g.body[o], t') && g.gcstate == Atomic
    modifies g`body
    ensures MarkInv(g, {}, {}, s) && g.body == old(g.body)[o := t'] && HeapShrinks(old(g.body), g.body)
  {
    hide HeapOk, ListsOk, AllOk, HeapShrinks, Linked;
    ghost var b, nw, x := g.body, Marked(g.color), CtxOf(g, {}, {});
    ColorKeys(g, {}, {}, s);
    ShrinkOne(b, o, t');
    g.body := g.body[o := t'];
    assert b.Keys == g.body.Keys;
    ShrinkHeapOk(b, g.body, g.color.Keys, nw, s);
    ShrinkLists(b, g.body, nw, g.gray, g.weak, g.allweak, g.ephemeron);
    ShrinkAllOk(b, g.body, nw, x);
    ShrinkLinked(b, g.body, g.color, Links(g));
    assert CtxOf(g, {}, {}) == x;
  }

  /** The slots of a vector after clearing; string values get marked on the way. */
  method ClearSlots(g: Collector, vs: seq<Val>, ghost s: set<Ref>) returns (vs': seq<Val>)
    requires MarkInv(g, {}, {}, s) && PtrsOf(vs) <= g.body.Keys
    requires forall v :: v in vs && v.Ptr? && IsStr(g.body, v.r) ==> v.r in s
    modifies g`color, g`gray
    ensures MarkInv(g, {}, {}, s) && g.gray == old(g.gray) && old(Marked(g.color)) <= Marked(g.color)
    ensures OnlyStrings(g.body, old(Marked(g.color)), Marked(g.color)) && PtrsOf(vs') <= Marked(g.color)
    ensures |vs'| == |vs| && forall i :: 0 <= i < |vs| ==> vs'[i] == Kept(g.body, old(Marked(g.color)), vs[i])
  {
    hide MarkInv;
    vs' := [];
    while |vs'| < |vs|
      invariant MarkInv(g, {}, {}, s) && g.gray == old(g.gray) && old(Marked(g.color)) <= Marked(g.color)
      invariant OnlyStrings(g.body, old(Marked(g.color)), Marked(g.color)) && PtrsOf(vs') <= Marked(g.color)
      invariant |vs'| <= |vs| && forall i :: 0 <= i < |vs'| ==> vs'[i] == Kept(g.body, old(Marked(g.color)), vs[i])
    {
      var v := vs[|vs'|];
      assert PtrSet(v) <= PtrsOf(vs);
      var c := IsCleared(g, v, {}, {}, s);
      PtrsOfSplit(vs' + [if c then Empty else v], |vs'|);
      assert (vs' + [if c then Empty else v])[..|vs'|] == vs';
      vs' := vs' + [if c then Empty else v];
    }
  }

  /** The entries of a hash part after clearing the values that are lost. */
  method ClearValues(g: Collector, node: seq<Entry>, ghost s: set<Ref>) returns (node': seq<Entry>)
    requires MarkInv(g, {}, {}, s) && ValRefs(node) <= g.body.Keys
    requires forall r :: r in ValRefs(node) && IsStr(g.body, r) ==> r in s
    modifies g`color, g`gray
    ensures MarkInv(g, {}, {}, s) && g.gray == old(g.gray) && old(Marked(g.color)) <= Marked(g.color)
    ensures OnlyStrings(g.body, old(Marked(g.color)), Marked(g.color)) && ValRefs(node') <= Marked(g.color)
    ensures |node'| == |node|
    ensures forall i :: 0 <= i < |node| ==>
              node'[i] == Entry(node[i].key, Kept(g.body, old(Marked(g.color)), node[i].val))
  {
    hide MarkInv;
    node' := [];
    while |node'| < |node|
      invariant MarkInv(g, {}, {}, s) && g.gray == old(g.gray) && old(Marked(g.color)) <= Marked(g.color)
      invariant OnlyStrings(g.body, old(Marked(g.color)), Marked(g.color)) && ValRefs(node') <= Marked(g.color)
      invariant |node'| <= |node|
      invariant forall i :: 0 <= i < |node'| ==>
        node'[i] == Entry(node[i].key, Kept(g.body, old(Marked(g.color)), node[i].val))
    {
      var e := node[|node'|];
      assert PtrSet(e.val) <= ValRefs(node);
      var c := IsCleared(g, e.val, {}, {}, s);
      var e' := Entry(e.key, if c then Empty else e.val);
      EntrySplit(node' + [e'], |node'|);
      EntryEnds(node' + [e']);
      assert (node' + [e'])[..|node'|] == node';
      node' := node' + [e'];
    }
  }

  /** The entries of a hash part after clearing those whose keys are lost. */
  method ClearKeys(g: Collector, node: seq<Entry>, ghost s: set<Ref>) returns (node': seq<Entry>)
    requires MarkInv(g, {}, {}, s) && KeyRefs(node) <= g.body.Keys
    requires forall r :: r in KeyRefs(node) && IsStr(g.body, r) ==> r in s
    modifies g`color, g`gray
    ensures MarkInv(g, {}, {}, s) && g.gray == old(g.gray) && old(Marked(g.color)) <= Marked(g.color)
    ensures OnlyStrings(g.body, old(Marked(g.color)), Marked(g.color)) && KeyRefs(node') <= Marked(g.color)
    ensures |node'| == |node|
    ensures forall i :: 0 <= i < |node| ==>
              node'[i] == Entry(node[i].key,
                                if Lost(g.body, old(Marked(g.color)), node[i].key) then Empty else node[i].val)
  {
    hide MarkInv;
    node' := [];
    while |node'| < |node|
      invariant MarkInv(g, {}, {}, s) && g.gray == old(g.gray) && old(Marked(g.color)) <= Marked(g.color)
      invariant OnlyStrings(g.body, old(Marked(g.color)), Marked(g.color)) && KeyRefs(node') <= Marked(g.color)
      invariant |node'| <= |node|
      invariant forall i :: 0 <= i < |node'| ==>
        node'[i] == Entry(node[i].key, if Lost(g.body, old(Marked(g.color)), node[i].key) then Empty else node[i].val)
    {
      var e := node[|node'|];
      var e' := e;
      if e.val != Empty {
        assert PtrSet(e.key) <= KeyRefs(node);
        var c := IsCleared(g, e.key, {}, {}, s);
        e' := Entry(e.key, if c then Empty else e.val);
      }
      EntrySplit(node' + [e'], |node'|);
      EntryEnds(node' + [e']);
      assert (node' + [e'])[..|node'|] == node';
      node' := node' + [e'];
    }
  }

  /** What a table in a list of weak tables has besides its mark. */
  lemma WeakFacts(b: Heap, colored: set<Ref>, nw: set<Ref>, s: set<Ref>, o: Ref)
    requires HeapOk(b, colored, nw, s) && o in nw && o in b && b[o].Table?
    ensures PtrsOf(b[o].arr) + KeyRefs(b[o].node) + ValRefs(b[o].node) <= b.Keys
    ensures forall r :: r in PtrsOf(b[o].arr) + KeyRefs(b[o].node) + ValRefs(b[o].node) && IsStr(b, r) ==> r in s
  {
    assert HoldsAt(b, s, o);
    assert PtrsOf(b[o].arr) + KeyRefs(b[o].node) + ValRefs(b[o].node) <= Refs(b, o);
  }

  /** All the values of table 'o' are marked. */
  ghost predicate ValuesMarked(b: Heap, nw: set<Ref>, o: Ref)
  {
    o in b && b[o].Table? && PtrsOf(b[o].arr) + ValRefs(b[o].node) <= nw
  }

  ghost predicate KeysMarked(b: Heap, nw: set<Ref>, o: Ref)
  {
    o in b && b[o].Table? && KeyRefs(b[o].node) <= nw
  }

  /** clearbyvalues on one table. */
  method ClearTableValues(g: Collector, o: Ref, ghost s: set<Ref>)
    requires MarkInv(g, {}, {}, s) && o in Marked(g.color) && o in g.body && g.body[o].Table? && g.gcstate == Atomic
    modifies g`body, g`color, g`gray
    ensures MarkInv(g, {}, {}, s) && g.gray == old(g.gray) && old(Marked(g.color)) <= Marked(g.color)
    ensures OnlyStrings(old(g.body), old(Marked(g.color)), Marked(g.color))
    ensures o in g.body && g.body == old(g.body)[o := g.body[o]] && HeapShrinks(old(g.body), g.body)
    ensures ValuesCleared(old(g.body), old(Marked(g.color)), old(g.body[o]), g.body[o])
    ensures ValuesMarked(g.body, Marked(g.color), o)
  {
    hide *;
    ghost var b, nw := g.body, Marked(g.color);
    WeakTableFacts(g, s, o);
    var arr := ClearSlots(g, g.body[o].arr, s);
    ghost var nw' := Marked(g.color);
    SameKept(b, nw, nw');
    var node := ClearValues(g, g.body[o].node, s);
    var t' := Table(g.body[o].mode, g.body[o].meta, arr, node);
    FoldValues(b, nw, nw', b[o], t');
    ClearedShrinks(b, nw, b[o], t');
    StoreShrunk(g, o, t', s);
    StringsTrans(b, nw, nw', Marked(g.color));
    FoldValuesMarked(g.body, Marked(g.color), o);
  }

  lemma StringsTrans(b: Heap, nw: set<Ref>, nw': set<Ref>, nw'': set<Ref>)
    requires OnlyStrings(b, nw, nw') && OnlyStrings(b, nw', nw'')
    ensures OnlyStrings(b, nw, nw'')
  {
  }

  lemma FoldValuesMarked(b: Heap, nw: set<Ref>, o: Ref)
    requires o in b && b[o].Table? && PtrsOf(b[o].arr) <= nw && ValRefs(b[o].node) <= nw
    ensures ValuesMarked(b, nw, o)
  {
  }

  lemma FoldKeysMarked(b: Heap, nw: set<Ref>, o: Ref)
    requires o in b && b[o].Table? && KeyRefs(b[o].node) <= nw
    ensures KeysMarked(b, nw, o)
  {
  }

  lemma FoldKeys(b: Heap, nw: set<Ref>, t: Body, t': Body)
    requires t.Table? && t'.Table? && t'.mode == t.mode && t'.meta == t.meta && t'.arr == t.arr && |t'.node| == |t.node|
    requires forall i :: 0 <= i < |t.node| ==>
               t'.node[i] == Entry(t.node[i].key, if Lost(b, nw, t.node[i].key) then Empty else t.node[i].val)
    ensures KeysCleared(b, nw, t, t')
  {
  }

  lemma FoldValues(b: Heap, nw: set<Ref>, nw': set<Ref>, t: Body, t': Body)
    requires t.Table? && t'.Table? && t'.mode == t.mode && t'.meta == t.meta
    requires |t'.arr| == |t.arr| && |t'.node| == |t.node|
    requires forall v :: Lost(b, nw', v) == Lost(b, nw, v)
    requires forall i :: 0 <= i < |t.arr| ==> t'.arr[i] == Kept(b, nw, t.arr[i])
    requires forall i :: 0 <= i < |t.node| ==> t'.node[i] == Entry(t.node[i].key, Kept(b, nw', t.node[i].val))
    ensures ValuesCleared(b, nw, t, t')
  {
  }

  /** What a marked table has for the clearing methods. */
  lemma WeakTableFacts(g: Collector, s: set<Ref>, o: Ref)
    requires MarkInv(g, {}, {}, s) && o in Marked(g.color) && o in g.body && g.body[o].Table?
    ensures PtrsOf(g.body[o].arr) <= g.body.Keys && KeyRefs(g.body[o].node) <= g.body.Keys
    ensures ValRefs(g.body[o].node) <= g.body.Keys
    ensures forall v :: v in g.body[o].arr && v.Ptr? && IsStr(g.body, v.r) ==> v.r in s
    ensures forall r :: r in KeyRefs(g.body[o].node) && IsStr(g.body, r) ==> r in s
    ensures forall r :: r in ValRefs(g.body[o].node) && IsStr(g.body, r) ==> r in s
  {
    WeakFacts(g.body, g.color.Keys, Marked(g.color), s, o);
  }

  lemma SameKept(b: Heap, nw: set<Ref>, nw': set<Ref>)
    requires nw <= nw' && OnlyStrings(b, nw, nw')
    ensures forall v :: Lost(b, nw', v) == Lost(b, nw, v)
  {
  }

  /** clearbykeys on one table. */
  method ClearTableKeys(g: Collector, o: Ref, ghost s: set<Ref>)
    requires MarkInv(g, {}, {}, s) && o in Marked(g.color) && o in g.body && g.body[o].Table? && g.gcstate == Atomic
    modifies g`body, g`color, g`gray
    ensures MarkInv(g, {}, {}, s) && g.gray == old(g.gray) && old(Marked(g.color)) <= Marked(g.color)
    ensures OnlyStrings(old(g.body), old(Marked(g.color)), Marked(g.color))
    ensures o in g.body && g.body == old(g.body)[o := g.body[o]] && HeapShrinks(old(g.body), g.body)
    ensures KeysCleared(old(g.body), old(Marked(g.color)), old(g.body[o]), g.body[o])
    ensures KeysMarked(g.body, Marked(g.color), o)
  {
    hide *;
    ghost var b, nw := g.body, Marked(g.color);
    WeakTableFacts(g, s, o);
    var node := ClearKeys(g, g.body[o].node, s);
    var t' := g.body[o].(node := node);
    FoldKeys(b, nw, b[o], t');
    ClearedShrinks(b, nw, b[o], t');
    StoreShrunk(g, o, t', s);
    FoldKeysMarked(g.body, Marked(g.color), o);
  }

  /** The heap after clearing: the tables in 'done' lost exactly the entries that had to go. */
  ghost predicate HeapCleared(b: Heap, nw: set<Ref>, byKeys: bool, done: set<Ref>, b': Heap)
  {
    && b'.Keys == b.Keys
    && forall o :: o in b ==>
         if o in done then (if byKeys then KeysCleared(b, nw, b[o], b'[o]) else ValuesCleared(b, nw, b[o], b'[o]))
         else b'[o] == b[o]
  }

  /** One more table is cleared; clearing one twice changes nothing. */
  lemma ClearOneMore(b: Heap, nw: set<Ref>, byKeys: bool, done: set<Ref>, b': Heap, nw': set<Ref>, o: Ref, b'': Heap)
    requires HeapCleared(b, nw, byKeys, done, b') && o in b && HeapShrinks(b, b')
    requires nw <= nw' && OnlyStrings(b, nw, nw')
    requires b''.Keys == b'.Keys && b'' == b'[o := b''[o]]
    requires if byKeys then KeysCleared(b', nw', b'[o], b''[o]) else ValuesCleared(b', nw', b'[o], b''[o])
    ensures HeapCleared(b, nw, byKeys, done + {o}, b'')
  {
    SameKept(b, nw, nw');
    forall v ensures Lost(b', nw', v) == Lost(b, nw, v) {
      if v.Ptr? && v.r in b { ShrinkSame(b, b', v.r); }
    }
  }

  /** Marks and clearing keep the values and the keys of a table marked. */
  lemma MarkedPartsKept(b: Heap, b': Heap, nw: set<Ref>, nw': set<Ref>, o: Ref)
    requires HeapShrinks(b, b') && nw <= nw' && o in b
    ensures ValuesMarked(b, nw, o) ==> ValuesMarked(b', nw', o)
    ensures KeysMarked(b, nw, o) ==> KeysMarked(b', nw', o)
  {
    ShrinkSame(b, b', o);
  }

  ghost predicate AllValuesMarked(b: Heap, nw: set<Ref>, l: set<Ref>)
  {
    forall o :: o in l ==> ValuesMarked(b, nw, o)
  }

  ghost predicate AllKeysMarked(b: Heap, nw: set<Ref>, l: set<Ref>)
  {
    forall o :: o in l ==> KeysMarked(b, nw, o)
  }

  lemma AllMarkedKept(b: Heap, b': Heap, nw: set<Ref>, nw': set<Ref>, l: set<Ref>)
    requires HeapShrinks(b, b') && nw <= nw'
    ensures AllValuesMarked(b, nw, l) ==> AllValuesMarked(b', nw', l)
    ensures AllKeysMarked(b, nw, l) ==> AllKeysMarked(b', nw', l)
  {
    if AllValuesMarked(b, nw, l) {
      forall o | o in l ensures ValuesMarked(b', nw', o) { MarkedPartsKept(b, b', nw, nw', o); }
    }
    if AllKeysMarked(b, nw, l) {
      forall o | o in l ensures KeysMarked(b', nw', o) { MarkedPartsKept(b, b', nw, nw', o); }
    }
  }

  /** The tables of a list to be cleared. */
  ghost predicate MarkedTables(b: Heap, nw: set<Ref>, l: seq<Ref>)
  {
    forall o :: o in l ==> o in nw && o in b && b[o].Table?
  }

  /** clearbyvalues: removes the entries with unmarked values from the tables of 'l', and nothing else. */
  method ClearByValues(g: Collector, l: seq<Ref>, ghost s: set<Ref>)
    requires MarkInv(g, {}, {}, s) && MarkedTables(g.body, Marked(g.color), l) && g.gcstate == Atomic
    modifies g`body, g`color, g`gray
    ensures MarkInv(g, {}, {}, s) && g.gray == old(g.gray) && old(Marked(g.color)) <= Marked(g.color)
    ensures OnlyStrings(old(g.body), old(Marked(g.color)), Marked(g.color))
    ensures HeapCleared(old(g.body), old(Marked(g.color)), false, Elems(l), g.body) && HeapShrinks(old(g.body), g.body)
    ensures AllValuesMarked(g.body, Marked(g.color), Elems(l))
  {
    hide MarkInv, HeapShrinks, HeapCleared, ValuesMarked, ValuesCleared;
    ghost var b, nw := g.body, Marked(g.color);
    ClearNone(b, nw, false);
    assert Elems(l[..0]) == {};
    var i := 0;
    while i < |l|
      invariant 0 <= i <= |l| && MarkInv(g, {}, {}, s) && g.gray == old(g.gray) && nw <= Marked(g.color)
      invariant OnlyStrings(b, nw, Marked(g.color)) && HeapShrinks(b, g.body)
      invariant HeapCleared(b, nw, false, Elems(l[..i]), g.body)
      invariant AllValuesMarked(g.body, Marked(g.color), Elems(l[..i]))
    {
      ghost var b', nw' := g.body, Marked(g.color);
      var o := l[i];
      ShrinkTable(b, b', o);
      ClearTableValues(g, o, s);
      SameStrings(b, b', nw, nw', Marked(g.color));
      ClearOneMore(b, nw, false, Elems(l[..i]), b', nw', o, g.body);
      ShrinkTrans(b, b', g.body);
      AllMarkedKept(b', g.body, nw', Marked(g.color), Elems(l[..i]));
      assert Elems(l[..i + 1]) == Elems(l[..i]) + {o} by { assert l[..i + 1] == l[..i] + [o]; }
      i := i + 1;
    }
    assert l[..|l|] == l;
  }

  lemma ClearNone(b: Heap, nw: set<Ref>, byKeys: bool)
    ensures HeapCleared(b, nw, byKeys, {}, b) && HeapShrinks(b, b)
  {
  }

  lemma ShrinkTable(b: Heap, b': Heap, o: Ref)
    requires HeapShrinks(b, b') && o in b && b[o].Table?
    ensures o in b' && b'[o].Table?
  {
  }

  lemma SameStrings(b: Heap, b': Heap, nw: set<Ref>, nw': set<Ref>, nw'': set<Ref>)
    requires HeapShrinks(b, b') && OnlyStrings(b, nw, nw') && OnlyStrings(b', nw', nw'')
    ensures OnlyStrings(b, nw, nw'')
  {
    forall r | r in nw'' && r !in nw ensures IsStr(b, r) {
      if r !in nw' { ShrinkSame(b, b', r); }
    }
  }

  /** clearbykeys: removes the entries with unmarked keys from the tables of 'l', and nothing else. */
  method ClearByKeys(g: Collector, l: seq<Ref>, ghost s: set<Ref>)
    requires MarkInv(g, {}, {}, s) && MarkedTables(g.body, Marked(g.color), l) && g.gcstate == Atomic
    modifies g`body, g`color, g`gray
    ensures MarkInv(g, {}, {}, s) && g.gray == old(g.gray) && old(Marked(g.color)) <= Marked(g.color)
    ensures OnlyStrings(old(g.body), old(Marked(g.color)), Marked(g.color))
    ensures HeapCleared(old(g.body), old(Marked(g.color)), true, Elems(l), g.body) && HeapShrinks(old(g.body), g.body)
    ensures AllKeysMarked(g.body, Marked(g.color), Elems(l))
  {
    hide MarkInv, HeapShrinks, HeapCleared, KeysMarked, KeysCleared;
    ghost var b, nw := g.body, Marked(g.color);
    ClearNone(b, nw, true);
    assert Elems(l[..0]) == {};
    var i := 0;
    while i < |l|
      invariant 0 <= i <= |l| && MarkInv(g, {}, {}, s) && g.gray == old(g.gray) && nw <= Marked(g.color)
      invariant OnlyStrings(b, nw, Marked(g.color)) && HeapShrinks(b, g.body)
      invariant HeapCleared(b, nw, true, Elems(l[..i]), g.body)
      invariant AllKeysMarked(g.body, Marked(g.color), Elems(l[..i]))
    {
      ghost var b', nw' := g.body, Marked(g.color);
      var o := l[i];
      ShrinkTable(b, b', o);
      ClearTableKeys(g, o, s);
      SameStrings(b, b', nw, nw', Marked(g.color));
      ClearOneMore(b, nw, true, Elems(l[..i]), b', nw', o, g.body);
      ShrinkTrans(b, b', g.body);
      AllMarkedKept(b', g.body, nw', Marked(g.color), Elems(l[..i]));
      assert Elems(l[..i + 1]) == Elems(l[..i]) + {o} by { assert l[..i + 1] == l[..i] + [o]; }
      i := i + 1;
    }
    assert l[..|l|] == l;
  }
}
