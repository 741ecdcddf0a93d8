/**
 What the collector must keep.  'Live' is the least set of objects that holds the given ones and is
 closed under the references that keep objects alive, where an entry of an ephemeron table keeps its
 value only while its key is alive, and weak references keep nothing.
 */
module GcLive {
  import opened GcHeap
  import opened GcMark

  ghost predicate InAllClosed(b: Heap, init: set<Ref>, r: Ref)
  {
    forall s: set<Ref> :: Closed(b, s) && init <= s ==> r in s
  }

  ghost function Live(b: Heap, init: set<Ref>): set<Ref>
  {
    set r | r in b.Keys + init && InAllClosed(b, init, r)
  }

  lemma KeysClosed(b: Heap)
    requires NoDangling(b)
    ensures Closed(b, b.Keys)
  {
    forall o | o in b ensures HoldsAt(b, b.Keys, o) {
      assert Refs(b, o) <= b.Keys;
      if b[o].Table? {
        forall e | e in b[o].node && KeyHolds(b, b.Keys, e) && e.val.Ptr? ensures e.val.r in b.Keys {
          assert e.val.r in Refs(b, o);
        }
      }
    }
  }

  /** The value is in the set, if it is a reference at all. */
  ghost predicate Covers(s: set<Ref>, v: Val)
  {
    v.Ptr? ==> v.r in s
  }

  ghost predicate CoversAll(s: set<Ref>, vs: seq<Val>)
  {
    forall i :: 0 <= i < |vs| ==> Covers(s, vs[i])
  }

  /** A string is never weak. */
  ghost predicate CoversString(b: Heap, s: set<Ref>, v: Val)
  {
    v.Ptr? && IsStr(b, v.r) ==> v.r in s
  }

  /**
   What an entry of a table keeps alive: its key unless keys are weak, and its value unless values are weak; in an
   ephemeron table its value if the key is no weak reference or is alive.
   */
  ghost predicate EntryCovers(b: Heap, s: set<Ref>, mode: Mode, e: Entry)
  {
    e.val != Empty ==>
      && CoversString(b, s, e.key) && CoversString(b, s, e.val)
      && (mode == Strong || mode == WeakValues ==> Covers(s, e.key))
      && (mode == Strong ==> Covers(s, e.val))
      && (mode == Ephemeron && (!e.key.Ptr? || IsStr(b, e.key.r) || e.key.r in s) ==> Covers(s, e.val))
  }

  /** What an object keeps alive, slot by slot. */
  ghost predicate ObjectCovers(b: Heap, s: set<Ref>, o: Ref)
    requires o in b
  {
    match b[o]
    case Str => true
    case Table(mode, meta, arr, node) =>
      && Covers(s, meta)
      && (forall i :: 0 <= i < |arr| ==>
            CoversString(b, s, arr[i]) && (mode == Strong || mode == Ephemeron ==> Covers(s, arr[i])))
      && forall i :: 0 <= i < |node| ==> EntryCovers(b, s, mode, node[i])
    case Udata(meta, uvs) => Covers(s, meta) && CoversAll(s, uvs)
    case Block(refs) => CoversAll(s, refs)
    case Thread(stack, open) => CoversAll(s, stack) && forall i :: 0 <= i < |open| ==> open[i] in s
    case OpenUpVal(th, slot) =>
      th in b && b[th].Thread? && slot < |b[th].stack| ==> Covers(s, b[th].stack[slot])
    case ClosedUpVal(v) => Covers(s, v)
  }

  lemma PtrsIn(vs: seq<Val>, s: set<Ref>)
    ensures PtrsOf(vs) <= s <==> CoversAll(s, vs)
  {
    if PtrsOf(vs) <= s {
      forall i | 0 <= i < |vs| ensures Covers(s, vs[i]) {
        if vs[i].Ptr? { assert vs[i].r in PtrsOf(vs); }
      }
    }
  }

  lemma ElemsIn(l: seq<Ref>, s: set<Ref>)
    ensures Elems(l) <= s <==> forall i :: 0 <= i < |l| ==> l[i] in s
  {
    if Elems(l) <= s {
      forall i | 0 <= i < |l| ensures l[i] in s {
        assert l[i] in Elems(l);
      }
    }
  }

  /** The parts of a table that its mode says. */
  lemma TableHolds(b: Heap, s: set<Ref>, o: Ref)
    requires o in b && b[o].Table? && HoldsAt(b, s, o)
    ensures ObjectCovers(b, s, o)
  {
    var mode, meta, arr, node := b[o].mode, b[o].meta, b[o].arr, b[o].node;
    assert meta.Ptr? ==> meta.r in PtrSet(meta);
    forall i | 0 <= i < |arr|
      ensures CoversString(b, s, arr[i]) && (mode == Strong || mode == Ephemeron ==> Covers(s, arr[i]))
    {
      if arr[i].Ptr? { assert arr[i].r in PtrsOf(arr) && arr[i].r in Refs(b, o); }
    }
    forall i | 0 <= i < |node| ensures EntryCovers(b, s, mode, node[i]) {
      var e := node[i];
      assert e in node;
      if e.val != Empty && e.key.Ptr? { assert e.key.r in KeyRefs(node) && e.key.r in Refs(b, o); }
      if e.val.Ptr? { assert e.val.r in ValRefs(node) && e.val.r in Refs(b, o); }
      if mode == Ephemeron && e.val.Ptr? && KeyHolds(b, s, e) { assert e.val.r in s; }
    }
  }

  lemma TableCovered(b: Heap, s: set<Ref>, o: Ref)
    requires o in b && b[o].Table? && ObjectCovers(b, s, o)
    ensures HoldsAt(b, s, o)
  {
    var mode, arr, node := b[o].mode, b[o].arr, b[o].node;
    forall r | r in PtrsOf(arr) ensures (mode == Strong || mode == Ephemeron ==> r in s) && (IsStr(b, r) ==> r in s) {
      var v :| v in arr && v.Ptr? && v.r == r;
      var i :| 0 <= i < |arr| && arr[i] == v;
    }
    forall e | e in node ensures EntryCovers(b, s, mode, e) {
      var i :| 0 <= i < |node| && node[i] == e;
    }
  }

  /** The references that keep objects alive, as marking has them, are these. */
  lemma HoldsMeaning(b: Heap, s: set<Ref>, o: Ref)
    requires o in b
    ensures HoldsAt(b, s, o) <==> ObjectCovers(b, s, o)
  {
    match b[o]
    case Table(_, _, _, _) =>
      if HoldsAt(b, s, o) { TableHolds(b, s, o); }
      if ObjectCovers(b, s, o) { TableCovered(b, s, o); }
    case Udata(meta, uvs) => PtrsIn(uvs, s);
    case Block(refs) => PtrsIn(refs, s);
    case Thread(stack, open) =>
      PtrsIn(stack, s);
      ElemsIn(open, s);
    case _ =>
  }

  lemma {:induction false} HoldsInEvery(b: Heap, init: set<Ref>, o: Ref, s: set<Ref>)
    requires o in Live(b, init) && o in b && Closed(b, s) && init <= s
    ensures Live(b, init) <= s && HoldsAt(b, s, o)
  {
    assert forall r :: InAllClosed(b, init, r) ==> r in s;
  }

  /** A reference that every closed set must have is alive. */
  lemma ForcedIsLive(b: Heap, init: set<Ref>, r: Ref)
    requires r in b && forall s: set<Ref> :: Closed(b, s) && init <= s ==> r in s
    ensures r in Live(b, init)
  {
    assert InAllClosed(b, init, r);
  }

  lemma LiveRef(b: Heap, init: set<Ref>, o: Ref, part: set<Ref>, r: Ref)
    requires NoDangling(b) && o in Live(b, init) && o in b && r in part && part <= Refs(b, o)
    requires forall s: set<Ref> :: HoldsAt(b, s, o) ==> part <= s
    ensures r in Live(b, init)
  {
    forall s: set<Ref> | Closed(b, s) && init <= s ensures r in s {
      HoldsInEvery(b, init, o, s);
    }
    ForcedIsLive(b, init, r);
  }

  lemma LivePart(b: Heap, init: set<Ref>, o: Ref, part: set<Ref>)
    requires NoDangling(b) && o in Live(b, init) && o in b && part <= Refs(b, o)
    requires forall s: set<Ref> :: HoldsAt(b, s, o) ==> part <= s
    ensures part <= Live(b, init)
  {
    forall r | r in part ensures r in Live(b, init) {
      LiveRef(b, init, o, part, r);
    }
  }

  lemma LiveEntry(b: Heap, init: set<Ref>, o: Ref, e: Entry)
    requires NoDangling(b) && o in Live(b, init) && o in b && b[o].Table? && b[o].mode == Ephemeron
    requires e in b[o].node && e.val.Ptr? && KeyHolds(b, Live(b, init), e)
    ensures e.val.r in Live(b, init)
  {
    assert e.val.r in Refs(b, o);
    forall s: set<Ref> | Closed(b, s) && init <= s ensures e.val.r in s {
      HoldsInEvery(b, init, o, s);
      assert KeyHolds(b, s, e);
    }
    ForcedIsLive(b, init, e.val.r);
  }

  /** 'Live' is closed: closed sets are closed under intersection. */
  lemma LiveHolds(b: Heap, init: set<Ref>, o: Ref)
    requires NoDangling(b) && o in Live(b, init) && o in b
    ensures HoldsAt(b, Live(b, init), o)
  {
    ghost var live := Live(b, init);
    if b[o].Table? {
      LivePart(b, init, o, PtrSet(b[o].meta));
      if b[o].mode == Strong || b[o].mode == Ephemeron { LivePart(b, init, o, PtrsOf(b[o].arr)); }
      if b[o].mode == Strong || b[o].mode == WeakValues { LivePart(b, init, o, KeyRefs(b[o].node)); }
      if b[o].mode == Strong { LivePart(b, init, o, ValRefs(b[o].node)); }
      LivePart(b, init, o, set r | r in Refs(b, o) && IsStr(b, r));
      if b[o].mode == Ephemeron {
        forall e | e in b[o].node && KeyHolds(b, live, e) && e.val.Ptr? ensures e.val.r in live {
          LiveEntry(b, init, o, e);
        }
      }
    } else {
      LivePart(b, init, o, Refs(b, o));
    }
  }

  /** 'Live' is the least closed set with the given objects. */
  lemma LiveIsLeast(b: Heap, init: set<Ref>)
    requires NoDangling(b) && init <= b.Keys
    ensures Closed(b, Live(b, init)) && init <= Live(b, init) <= b.Keys
    ensures forall s: set<Ref> :: Closed(b, s) && init <= s ==> Live(b, init) <= s
  {
    forall o | o in Live(b, init) && o in b ensures HoldsAt(b, Live(b, init), o) {
      LiveHolds(b, init, o);
    }
  }

  ghost function Strings(b: Heap): set<Ref>
  {
    set r | r in b && b[r].Str?
  }

  /** A table that marking has left in a list of weak tables. */
  lemma WeakTableHolds(b: Heap, nw: set<Ref>, x: Ctx, eph: seq<Ref>, o: Ref)
    requires o in b && b[o].Table? && PtrSet(b[o].meta) <= nw && WeakOk(b, nw, x, o)
    requires x.eph == Elems(eph) && Converged(b, nw, eph)
    ensures HoldsAt(b, nw + Strings(b), o)
  {
    ghost var s := nw + Strings(b);
    if b[o].mode == Ephemeron {
      forall e | e in b[o].node && KeyHolds(b, s, e) && e.val.Ptr? ensures e.val.r in s {
        assert KeyHolds(b, nw, e);
        if o in x.eph {
          assert EphDone(b, nw, Elems(b[o].node));
          assert e in Elems(b[o].node);
        } else {
          assert e.val.r in ValRefs(b[o].node);
        }
      }
    }
  }

  /** When marking is over, the marked objects and the strings make up a closed set. */
  lemma MarkedIsClosed(b: Heap, nw: set<Ref>, x: Ctx, eph: seq<Ref>)
    requires AllOk(b, nw, x) && x.pend == {} && x.loose == {} && x.eph == Elems(eph) && Converged(b, nw, eph)
    ensures Closed(b, nw + Strings(b))
  {
    ghost var s := nw + Strings(b);
    forall o | o in s && o in b ensures HoldsAt(b, s, o) {
      if o in nw {
        assert OkAt(b, nw, x, o);
        if !(Refs(b, o) <= nw) {
          WeakTableHolds(b, nw, x, eph, o);
        } else if b[o].Table? {
          forall e | e in b[o].node && e.val.Ptr? && KeyHolds(b, s, e) ensures e.val.r in s {
            assert e.val.r in Refs(b, o);
          }
        }
      }
    }
  }

  /**
   Marking is exact: up to strings, which need no visit, the marked objects are the live ones,
   whatever the order of the lists and of the traversals.
   */
  lemma MarkedIsLive(b: Heap, nw: set<Ref>, x: Ctx, eph: seq<Ref>, init: set<Ref>)
    requires AllOk(b, nw, x) && x.pend == {} && x.loose == {} && x.eph == Elems(eph) && Converged(b, nw, eph)
    requires init <= nw <= Live(b, init)
    ensures forall r :: !IsStr(b, r) ==> (r in nw <==> r in Live(b, init))
  {
    MarkedIsClosed(b, nw, x, eph);
    forall r | r in Live(b, init) ensures r in nw + Strings(b) {
      assert InAllClosed(b, init, r);
    }
  }
}
