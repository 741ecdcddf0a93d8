/**
 What the atomic step keeps, exactly (lgc.c, "atomic"): after the objects to be finalized were brought back to
 life, what is marked is what can be reached from the roots and from them in the heap as it was, although dead
 weak values were cleared in between.
 */
module GcExact {
  import opened GcHeap
  import opened GcMark
  import opened GcLive
  import opened GcClear

  /** Only tables with weak values changed, marked ones. */
  ghost predicate WeakChanged(b: Heap, nw: set<Ref>, b': Heap)
  {
    forall o :: o in b && o in b' && b'[o] != b[o] ==>
      o in nw && b[o].Table? && (b[o].mode == WeakValues || b[o].mode == AllWeak)
  }

  lemma WeakListChanged(b: Heap, nw: set<Ref>, weak: seq<Ref>, b1: Heap)
    requires TablesIn(b, nw, weak, ToWeak) && HeapCleared(b, nw, false, Elems(weak), b1)
    ensures WeakChanged(b, nw, b1)
  {
  }

  /** An ephemeron table in the list of all-weak tables has no dead values. */
  lemma AllWeakSame(b: Heap, nw: set<Ref>, nw1: set<Ref>, t: Body, t': Body)
    requires ValuesCleared(b, nw1, t, t') && t.Table? && PtrsOf(t.arr) + ValRefs(t.node) <= nw <= nw1
    ensures t' == t
  {
    forall i | 0 <= i < |t.arr| ensures t'.arr[i] == t.arr[i] {
      if t.arr[i].Ptr? { assert t.arr[i].r in PtrsOf(t.arr); }
    }
    forall i | 0 <= i < |t.node| ensures t'.node[i] == t.node[i] {
      if t.node[i].val.Ptr? { assert t.node[i].val.r in ValRefs(t.node); }
    }
    assert t'.arr == t.arr && t'.node == t.node;
  }

  lemma BothListsChanged(b: Heap, nw: set<Ref>, weak: seq<Ref>, b1: Heap, nw1: set<Ref>, allweak: seq<Ref>, b2: Heap)
    requires TablesIn(b, nw, weak, ToWeak) && TablesIn(b, nw, allweak, ToAllWeak) && nw <= nw1
    requires HeapCleared(b, nw, false, Elems(weak), b1) && HeapCleared(b1, nw1, false, Elems(allweak), b2)
    ensures WeakChanged(b, nw, b2)
  {
    WeakListChanged(b, nw, weak, b1);
    forall o | o in b && o in b2 && b2[o] != b[o]
      ensures o in nw && b[o].Table? && (b[o].mode == WeakValues || b[o].mode == AllWeak)
    {
      if o in allweak {
        assert MayLeave(b, nw, Atomic, o, ToAllWeak);
        if b1[o] == b[o] && b[o].mode == Ephemeron {
          AllWeakSame(b1, nw, nw1, b1[o], b2[o]);
          assert false;
        }
      }
    }
  }

  /** A heap with fewer entries asks for less. */
  lemma ShrunkHolds(b: Heap, b': Heap, s: set<Ref>, o: Ref)
    requires HeapShrinks(b, b') && o in b && HoldsAt(b, s, o)
    ensures HoldsAt(b', s, o)
  {
    ShrinkSame(b, b', o);
    forall r | r in Refs(b', o) && IsStr(b', r) ensures r in s {
      if r in b { ShrinkSame(b, b', r); }
    }
    if b[o].Table? && b[o].mode == Ephemeron {
      forall e | e in b'[o].node && KeyHolds(b', s, e) && e.val.Ptr? ensures e.val.r in s {
        if e.key.Ptr? && e.key.r in b { ShrinkSame(b, b', e.key.r); }
      }
    }
  }

  lemma ShrunkClosed(b: Heap, b': Heap, s: set<Ref>)
    requires HeapShrinks(b, b') && Closed(b, s)
    ensures Closed(b', s)
  {
    forall o | o in s && o in b' ensures HoldsAt(b', s, o) {
      ShrunkHolds(b, b', s, o);
    }
  }

  lemma LiveWithin(b: Heap, init: set<Ref>, s: set<Ref>)
    requires NoDangling(b) && init <= b.Keys && Closed(b, s) && init <= s
    ensures Live(b, init) <= s
  {
    LiveIsLeast(b, init);
  }

  lemma LiveClosed(b: Heap, init: set<Ref>)
    requires NoDangling(b) && init <= b.Keys
    ensures Closed(b, Live(b, init)) && init <= Live(b, init) <= b.Keys
  {
    LiveIsLeast(b, init);
  }

  lemma LiveTwice(b: Heap, init: set<Ref>, t: set<Ref>)
    requires NoDangling(b) && init + t <= b.Keys
    ensures Live(b, Live(b, init) + t) == Live(b, init + t) && Live(b, init) <= Live(b, init + t)
    ensures Live(b, init) + t <= b.Keys
  {
    hide *;
    LiveClosed(b, init);
    LiveClosed(b, init + t);
    LiveWithin(b, init, Live(b, init + t));
    LiveClosed(b, Live(b, init) + t);
    LiveWithin(b, Live(b, init) + t, Live(b, init + t));
    LiveWithin(b, init + t, Live(b, Live(b, init) + t));
  }

  /** The same reference in the smaller heap, up to strings. */
  lemma HoldsBack(b: Heap, b1: Heap, l: set<Ref>, o: Ref)
    requires HeapShrinks(b, b1) && o in b && b1[o] == b[o] && HoldsAt(b1, l, o)
    ensures HoldsAt(b, l + Strings(b), o)
  {
    var f := l + Strings(b);
    ShrinkSame(b, b1, o);
    assert Refs(b, o) == Refs(b1, o);
    if b[o].Table? && b[o].mode == Ephemeron {
      forall e | e in b[o].node && KeyHolds(b, f, e) && e.val.Ptr? ensures e.val.r in f {
        if e.key.Ptr? && e.key.r in b { ShrinkSame(b, b1, e.key.r); }
      }
    }
  }

  lemma HoldsWeak(b: Heap, s: set<Ref>, f: set<Ref>, o: Ref)
    requires o in b && b[o].Table? && (b[o].mode == WeakValues || b[o].mode == AllWeak) && HoldsAt(b, s, o) && s <= f
    ensures HoldsAt(b, f, o)
  {
  }

  /** What is alive in the smaller heap makes up a closed set of the other one, with the strings. */
  lemma BackClosed(b: Heap, b1: Heap, live: set<Ref>, l: set<Ref>)
    requires HeapShrinks(b, b1) && WeakChanged(b, live, b1) && Closed(b, live) && Closed(b1, l)
    requires live <= l + Strings(b)
    ensures Closed(b, l + Strings(b))
  {
    var f := l + Strings(b);
    forall o | o in f && o in b ensures HoldsAt(b, f, o) {
      if !IsStr(b, o) {
        if b1[o] == b[o] {
          HoldsBack(b, b1, l, o);
        } else {
          HoldsWeak(b, live, f, o);
        }
      }
    }
  }

  /**
   Between the two heaps only entries of weak tables whose values were not alive went: what the objects 't' bring
   back to life is the same in both, up to strings.
   */
  lemma SameRevived(b: Heap, b1: Heap, live: set<Ref>, nw: set<Ref>, t: set<Ref>)
    requires NoDangling(b) && NoDangling(b1) && HeapShrinks(b, b1) && WeakChanged(b, live, b1)
    requires Closed(b, live) && nw <= live <= b.Keys && t <= b.Keys
    requires forall r :: r in live && !IsStr(b, r) ==> r in nw
    ensures Live(b1, nw + t) <= Live(b, live + t)
    ensures forall r :: r in Live(b, live + t) && !IsStr(b, r) ==> r in Live(b1, nw + t)
  {
    var big, small := Live(b, live + t), Live(b1, nw + t);
    assert b1.Keys == b.Keys;
    assert live <= nw + Strings(b) && forall r :: r in Strings(b) <==> IsStr(b, r);
    hide *;
    LiveClosed(b, live + t);
    LiveClosed(b1, nw + t);
    ShrunkClosed(b, b1, big);
    LiveWithin(b1, nw + t, big);
    BackClosed(b, b1, live, small);
    LiveWithin(b, live + t, small + Strings(b));
  }
}
