/**
 The second half of the atomic step (lgc.c, "atomic" and "separatetobefnz"): weak values are cleared,
 objects to be finalized are separated and brought back to life, weak keys are cleared, and the
 current white is flipped.  On return every reference of a marked object goes to a marked object.
 */
module GcFinish {
  import opened GcHeap
  import opened GcMark
  import opened GcAtomic
  import opened GcClear
  import opened GcLive
  import opened GcExact

  // ---- Separating the objects to be finalized ---------------------------------------------

  /** The elements of 'l' that are in 'keep', in the order of 'l'. */
  ghost function Only(l: seq<Ref>, keep: set<Ref>): seq<Ref>
  {
    if l == [] then []
    else Only(l[..|l| - 1], keep) + (if l[|l| - 1] in keep then [l[|l| - 1]] else [])
  }

  lemma {:induction false} OnlyElems(l: seq<Ref>, keep: set<Ref>)
    ensures Elems(Only(l, keep)) == Elems(l) * keep
  {
    if l != [] {
      var rest, last := l[..|l| - 1], l[|l| - 1];
      OnlyElems(rest, keep);
      assert l == rest + [last];
      ElemsAppend(rest, [last]);
      ElemsAppend(Only(rest, keep), if last in keep then [last] else []);
    }
  }

  lemma ElemsAppend<T>(a: seq<T>, b: seq<T>)
    ensures Elems(a + b) == Elems(a) + Elems(b)
  {
  }

  lemma OnlyStep(l: seq<Ref>, i: nat, keep: set<Ref>)
    requires i < |l|
    ensures Only(l[..i + 1], keep) == Only(l[..i], keep) + (if l[i] in keep then [l[i]] else [])
  {
    assert l[..i + 1][..i] == l[..i];
  }

  /** 'separatetobefnz' splits a list: nothing is lost, nothing is repeated, and the order is kept. */
  lemma {:induction false} OnlySplits(l: seq<Ref>, keep: set<Ref>)
    ensures multiset(l) == multiset(Only(l, keep)) + multiset(Only(l, Elems(l) - keep))
  {
    OnlySplitsFor(l, keep, Elems(l) - keep);
  }

  lemma {:induction false} OnlySplitsFor(l: seq<Ref>, keep: set<Ref>, drop: set<Ref>)
    requires Elems(l) <= keep + drop && keep !! drop
    ensures multiset(l) == multiset(Only(l, keep)) + multiset(Only(l, drop))
  {
    if l != [] {
      var l' := l[..|l| - 1];
      assert l == l' + [l[|l| - 1]];
      OnlySplitsFor(l', keep, drop);
    }
  }

  /** The objects that 'separatetobefnz' moves. */
  ghost function ToFinalize(c: Colors, l: seq<Ref>, all: bool): set<Ref>
  {
    if all then Elems(l) else Elems(l) - Marked(c)
  }

  /** separatetobefnz: moves the unmarked objects of 'finobj' (or all) to the end of 'tobefnz'. */
  method SeparateToBeFnz(g: Collector, all: bool)
    requires Elems(g.finobj) <= g.color.Keys
    modifies g`finobj, g`tobefnz
    ensures g.finobj == Only(old(g.finobj), Elems(old(g.finobj)) - ToFinalize(g.color, old(g.finobj), all))
    ensures g.tobefnz == old(g.tobefnz) + Only(old(g.finobj), ToFinalize(g.color, old(g.finobj), all))
  {
    hide Only;
    ghost var l := g.finobj;
    ghost var out := ToFinalize(g.color, l, all);
    ghost var j, moved := 0, [];
    var i := 0;
    OnlyNone(l, out);
    OnlyNone(l, Elems(l) - out);
    while i < |g.finobj|
      invariant 0 <= j <= |l| && 0 <= i <= |g.finobj|
      invariant g.finobj[..i] == Only(l[..j], Elems(l) - out) && g.finobj[i..] == l[j..]
      invariant moved == Only(l[..j], out) && g.tobefnz == old(g.tobefnz) + moved
      decreases |l| - j
    {
      ghost var f := g.finobj;
      var curr := g.finobj[i];
      assert curr == l[j] by { assert curr == f[i..][0]; }
      assert curr in Elems(l);
      OnlyStep(l, j, out);
      OnlyStep(l, j, Elems(l) - out);
      if !(g.color[curr].White? || all) {
        i := i + 1;
        assert f[..i] == f[..i - 1] + [curr];
      } else {
        g.finobj := g.finobj[..i] + g.finobj[i + 1..];
        g.tobefnz := g.tobefnz + [curr];
        moved := moved + [curr];
      }
      j := j + 1;
    }
    assert l[..j] == l;
  }

  lemma OnlyNone(l: seq<Ref>, keep: set<Ref>)
    ensures Only(l[..0], keep) == []
  {
  }

  // ---- What clearing may remove -------------------------------------------------------------

  /** An entry may go only if its value was lost to 'nv' or its key to 'nk'. */
  ghost predicate LossOk(b: Heap, nv: set<Ref>, nk: set<Ref>, t: Body, t': Body)
  {
    TableShrinks(t, t')
    && (forall i :: 0 <= i < |t.arr| ==> t'.arr[i] == t.arr[i] || Lost(b, nv, t.arr[i]))
    && (forall i :: 0 <= i < |t.node| ==>
          t'.node[i].val == t.node[i].val || Lost(b, nv, t.node[i].val) || Lost(b, nk, t.node[i].key))
  }

  ghost predicate OnlyLost(b: Heap, nv: set<Ref>, nk: set<Ref>, b': Heap)
  {
    b'.Keys == b.Keys && forall o :: o in b ==> b'[o] == b[o] || LossOk(b, nv, nk, b[o], b'[o])
  }

  lemma OnlyLostRefl(b: Heap, nv: set<Ref>, nk: set<Ref>)
    ensures OnlyLost(b, nv, nk, b)
  {
  }

  /** Clearing values against 'nw', after other losses. */
  lemma ValuesOnlyLost(b: Heap, nv: set<Ref>, nk: set<Ref>, b': Heap, nw: set<Ref>, done: set<Ref>, b'': Heap)
    requires OnlyLost(b, nv, nk, b') && HeapShrinks(b, b') && HeapCleared(b', nw, false, done, b'') && nv <= nw
    ensures OnlyLost(b, nv, nk, b'')
  {
    forall o | o in b ensures b''[o] == b[o] || LossOk(b, nv, nk, b[o], b''[o]) {
      assert b'[o] == b[o] || LossOk(b, nv, nk, b[o], b'[o]);
      if o in done {
        assert ValuesCleared(b', nw, b'[o], b''[o]);
        forall v | Lost(b', nw, v) ensures Lost(b, nv, v) {
          if v.r in b { ShrinkSame(b, b', v.r); }
        }
      }
    }
  }

  /** Clearing keys against 'nk', after other losses. */
  lemma KeysOnlyLost(b: Heap, nv: set<Ref>, nk: set<Ref>, b': Heap, nw: set<Ref>, done: set<Ref>, b'': Heap)
    requires OnlyLost(b, nv, nk, b') && HeapShrinks(b, b') && HeapCleared(b', nw, true, done, b'') && nk <= nw
    ensures OnlyLost(b, nv, nk, b'')
  {
    forall o | o in b ensures b''[o] == b[o] || LossOk(b, nv, nk, b[o], b''[o]) {
      assert b'[o] == b[o] || LossOk(b, nv, nk, b[o], b'[o]);
      if o in done {
        assert KeysCleared(b', nw, b'[o], b''[o]);
        forall v | Lost(b', nw, v) ensures Lost(b, nk, v) {
          if v.r in b { ShrinkSame(b, b', v.r); }
        }
      }
    }
  }

  lemma OnlyLostWeaken(b: Heap, nv: set<Ref>, nk: set<Ref>, nv': set<Ref>, nk': set<Ref>, b': Heap)
    requires OnlyLost(b, nv, nk, b')
    requires forall v :: Lost(b, nv, v) ==> Lost(b, nv', v)
    requires forall v :: Lost(b, nk, v) ==> Lost(b, nk', v)
    ensures OnlyLost(b, nv', nk', b')
  {
    forall o | o in b ensures b'[o] == b[o] || LossOk(b, nv', nk', b[o], b'[o]) {
      assert b'[o] == b[o] || LossOk(b, nv, nk, b[o], b'[o]);
    }
  }

  lemma ListTables(g: Collector, extra: set<Ref>, loose: set<Ref>, s: set<Ref>)
    requires MarkInv(g, extra, loose, s)
    ensures MarkedTables(g.body, Marked(g.color), g.weak) && MarkedTables(g.body, Marked(g.color), g.allweak)
    ensures MarkedTables(g.body, Marked(g.color), g.ephemeron)
    ensures Marked(g.color) <= g.body.Keys && NoDangling(g.body) && g.color.Keys == g.body.Keys
  {
  }

  lemma ListPlaces(g: Collector, extra: set<Ref>, loose: set<Ref>, s: set<Ref>)
    requires MarkInv(g, extra, loose, s)
    ensures TablesIn(g.body, Marked(g.color), g.weak, ToWeak)
    ensures TablesIn(g.body, Marked(g.color), g.allweak, ToAllWeak)
  {
  }

  lemma AllMarkedUnion(b: Heap, nw: set<Ref>, l: set<Ref>, l': set<Ref>)
    requires AllValuesMarked(b, nw, l) && AllValuesMarked(b, nw, l')
    ensures AllValuesMarked(b, nw, l + l')
  {
  }

  /** Clears values from all the weak tables known before checking finalizers. */
  method ClearDeadValues(g: Collector, ghost s: set<Ref>)
    requires MarkInv(g, {}, {}, s) && g.gray == [] && Converged(g.body, Marked(g.color), g.ephemeron)
    requires g.gcstate == Atomic
    modifies g`body, g`color, g`gray
    ensures MarkInv(g, {}, {}, s) && g.gray == [] && old(Marked(g.color)) <= Marked(g.color)
    ensures OnlyStrings(old(g.body), old(Marked(g.color)), Marked(g.color))
    ensures HeapShrinks(old(g.body), g.body) && Converged(g.body, Marked(g.color), g.ephemeron)
    ensures OnlyLost(old(g.body), old(Marked(g.color)), old(g.body.Keys), g.body)
    ensures AllValuesMarked(g.body, Marked(g.color), Elems(g.weak) + Elems(g.allweak))
    ensures WeakChanged(old(g.body), old(Marked(g.color)), g.body)
  {
    hide MarkInv, HeapShrinks, HeapCleared, Converged, OnlyLost, AllValuesMarked, MarkedTables, TablesIn, WeakChanged;
    ghost var b, nw := g.body, Marked(g.color);
    ListTables(g, {}, {}, s);
    ListPlaces(g, {}, {}, s);
    ClearByValues(g, g.weak, s);
    ghost var b1, nw1 := g.body, Marked(g.color);
    ListTables(g, {}, {}, s);
    ClearByValues(g, g.allweak, s);
    ListTables(g, {}, {}, s);
    OnlyLostRefl(b, nw, b.Keys);
    ClearNone(b, nw, false);
    ValuesOnlyLost(b, nw, b.Keys, b, nw, Elems(g.weak), b1);
    ValuesOnlyLost(b, nw, b.Keys, b1, nw1, Elems(g.allweak), g.body);
    BothListsChanged(b, nw, g.weak, b1, nw1, g.allweak, g.body);
    AllMarkedKept(b1, g.body, nw1, Marked(g.color), Elems(g.weak));
    AllMarkedUnion(g.body, Marked(g.color), Elems(g.weak), Elems(g.allweak));
    SameStrings(b, b1, nw, nw1, Marked(g.color));
    ShrinkTrans(b, b1, g.body);
    ConvergedGrows(b, nw, Marked(g.color), g.ephemeron);
    ShrinkConverged(b, g.body, Marked(g.color), g.ephemeron);
  }

  /** Changing the bound on what may be marked. */
  lemma MarkWithin(g: Collector, extra: set<Ref>, loose: set<Ref>, s: set<Ref>, s': set<Ref>)
    requires MarkInv(g, extra, loose, s) && Closed(g.body, s') && Marked(g.color) <= s'
    ensures MarkInv(g, extra, loose, s')
  {
    hide ListsOk, AllOk, Linked, WhitesOk, Closed;
  }

  lemma MarkAnything(g: Collector, extra: set<Ref>, loose: set<Ref>, s: set<Ref>)
    requires MarkInv(g, extra, loose, s)
    ensures MarkInv(g, extra, loose, g.body.Keys)
  {
    KeysClosed(g.body);
  }

  /** Marks all the objects to be finalized and what they refer to, and nothing else. */
  method Resurrect(g: Collector, ghost s: set<Ref>)
    requires MarkInv(g, {}, {}, s) && g.gray == [] && g.gcstate == Atomic && Elems(g.tobefnz) <= s
    requires Elems(g.tobefnz) <= g.body.Keys && TwupsMarked(g.body, Marked(g.color), g.twups)
    modifies g`color, g`gray, g`grayagain, g`weak, g`allweak, g`ephemeron, g`twups
    ensures MarkInv(g, {}, {}, s) && g.gray == [] && Elems(g.tobefnz) <= Marked(g.color)
    ensures g.grayagain == old(g.grayagain) && old(Marked(g.color)) <= Marked(g.color)
    ensures Suffix(old(g.weak), g.weak) && Suffix(old(g.allweak), g.allweak)
    ensures Converged(g.body, Marked(g.color), g.ephemeron) && TwupsMarked(g.body, Marked(g.color), g.twups)
  {
    hide MarkInv, Converged, Suffix, TwupsOk, TwupsMarked;
    ghost var nw, t := Marked(g.color), g.twups;
    MarkRefs(g, g.tobefnz, {}, {}, s);
    PropagateAll(g, {}, {}, s);
    TwupsStillMarked(g.body, nw, t, Marked(g.color), g.twups);
    ghost var nw', t', w, a := Marked(g.color), g.twups, g.weak, g.allweak;
    ConvergeEphemerons(g, {}, {}, s);
    TwupsStillMarked(g.body, nw', t', Marked(g.color), g.twups);
    SuffixTrans(old(g.weak), w, g.weak);
    SuffixTrans(old(g.allweak), a, g.allweak);
  }

  lemma SuffixElems<T>(a: seq<T>, b: seq<T>)
    requires Suffix(a, b)
    ensures Elems(b) == Elems(b[..|b| - |a|]) + Elems(a)
  {
    assert b == b[..|b| - |a|] + b[|b| - |a|..];
  }

  lemma MarkedPrefix(b: Heap, nw: set<Ref>, l: seq<Ref>, i: nat)
    requires MarkedTables(b, nw, l) && i <= |l|
    ensures MarkedTables(b, nw, l[..i])
  {
  }

  /** Clears weak keys: entries of ephemeron tables whose keys are not marked cannot be reached any more. */
  method ClearDeadKeys(g: Collector, ghost s: set<Ref>)
    requires MarkInv(g, {}, {}, s) && g.gray == [] && Converged(g.body, Marked(g.color), g.ephemeron)
    requires g.gcstate == Atomic
    modifies g`body, g`color, g`gray
    ensures MarkInv(g, {}, {}, s) && g.gray == [] && old(Marked(g.color)) <= Marked(g.color)
    ensures OnlyStrings(old(g.body), old(Marked(g.color)), Marked(g.color))
    ensures HeapShrinks(old(g.body), g.body) && Converged(g.body, Marked(g.color), g.ephemeron)
    ensures OnlyLost(old(g.body), old(g.body.Keys), old(Marked(g.color)), g.body)
    ensures AllKeysMarked(g.body, Marked(g.color), Elems(g.ephemeron) + Elems(g.allweak))
  {
    hide MarkInv, HeapShrinks, HeapCleared, Converged, OnlyLost, KeysMarked, MarkedTables;
    ghost var b, nw := g.body, Marked(g.color);
    ListTables(g, {}, {}, s);
    ClearByKeys(g, g.ephemeron, s);
    ghost var b1, nw1 := g.body, Marked(g.color);
    ListTables(g, {}, {}, s);
    ClearByKeys(g, g.allweak, s);
    ListTables(g, {}, {}, s);
    OnlyLostRefl(b, b.Keys, nw);
    ClearNone(b, nw, true);
    KeysOnlyLost(b, b.Keys, nw, b, nw, Elems(g.ephemeron), b1);
    KeysOnlyLost(b, b.Keys, nw, b1, nw1, Elems(g.allweak), g.body);
    AllMarkedKept(b1, g.body, nw1, Marked(g.color), Elems(g.ephemeron));
    SameStrings(b, b1, nw, nw1, Marked(g.color));
    ShrinkTrans(b, b1, g.body);
    ConvergedGrows(b, nw, Marked(g.color), g.ephemeron);
    ShrinkConverged(b, g.body, Marked(g.color), g.ephemeron);
  }

  /** Clears values from the tables that came into the lists because of resurrected objects. */
  method ClearResurrected(g: Collector, origweak: seq<Ref>, origall: seq<Ref>, ghost s: set<Ref>)
    requires MarkInv(g, {}, {}, s) && g.gray == [] && Converged(g.body, Marked(g.color), g.ephemeron)
    requires Suffix(origweak, g.weak) && Suffix(origall, g.allweak)
    requires AllValuesMarked(g.body, Marked(g.color), Elems(origweak) + Elems(origall))
    requires AllKeysMarked(g.body, Marked(g.color), Elems(g.ephemeron) + Elems(g.allweak))
    requires g.gcstate == Atomic
    modifies g`body, g`color, g`gray
    ensures MarkInv(g, {}, {}, s) && g.gray == [] && old(Marked(g.color)) <= Marked(g.color)
    ensures OnlyStrings(old(g.body), old(Marked(g.color)), Marked(g.color))
    ensures HeapShrinks(old(g.body), g.body) && Converged(g.body, Marked(g.color), g.ephemeron)
    ensures OnlyLost(old(g.body), old(Marked(g.color)), old(g.body.Keys), g.body)
    ensures AllValuesMarked(g.body, Marked(g.color), Elems(g.weak) + Elems(g.allweak))
    ensures AllKeysMarked(g.body, Marked(g.color), Elems(g.ephemeron) + Elems(g.allweak))
  {
    hide *;
    ghost var b, nw := g.body, Marked(g.color);
    SuffixElems(origweak, g.weak);
    SuffixElems(origall, g.allweak);
    SuffixLength(origweak, g.weak);
    SuffixLength(origall, g.allweak);
    var newweak, newall := g.weak[..|g.weak| - |origweak|], g.allweak[..|g.allweak| - |origall|];
    ListTables(g, {}, {}, s);
    MarkedPrefix(b, nw, g.weak, |newweak|);
    ClearByValues(g, newweak, s);
    ghost var b1, nw1 := g.body, Marked(g.color);
    ListTables(g, {}, {}, s);
    MarkedPrefix(b1, nw1, g.allweak, |newall|);
    ClearByValues(g, newall, s);
    ListTables(g, {}, {}, s);
    OnlyLostRefl(b, nw, b.Keys);
    ClearNone(b, nw, false);
    ValuesOnlyLost(b, nw, b.Keys, b, nw, Elems(newweak), b1);
    ValuesOnlyLost(b, nw, b.Keys, b1, nw1, Elems(newall), g.body);
    ghost var nw2 := Marked(g.color);
    AllMarkedKept(b1, g.body, nw1, nw2, Elems(newweak));
    SameStrings(b, b1, nw, nw1, nw2);
    ShrinkTrans(b, b1, g.body);
    AllMarkedKept(b, g.body, nw, nw2, Elems(origweak) + Elems(origall));
    AllMarkedKept(b, g.body, nw, nw2, Elems(g.ephemeron) + Elems(g.allweak));
    ConvergedGrows(b, nw, nw2, g.ephemeron);
    ShrinkConverged(b, g.body, nw2, g.ephemeron);
    AllMarkedUnion(g.body, nw2, Elems(newweak), Elems(newall));
    AllMarkedUnion(g.body, nw2, Elems(newweak) + Elems(newall), Elems(origweak) + Elems(origall));
    assert (Elems(newweak) + Elems(newall)) + (Elems(origweak) + Elems(origall)) == Elems(g.weak) + Elems(g.allweak);
  }

  lemma SuffixLength<T>(a: seq<T>, b: seq<T>)
    requires Suffix(a, b)
    ensures |a| <= |b|
  {
  }

  // ---- The whole atomic step ------------------------------------------------------------------

  /** All references of marked objects, weak ones included, go to marked objects. */
  ghost predicate AllMarked(b: Heap, nw: set<Ref>, tw: seq<Ref>)
  {
    forall o :: o in nw ==>
      o in b && Refs(b, o) <= nw && (b[o].Thread? && b[o].open != [] ==> o in tw)
  }

  /** After all the clearing no marked object has a reference to an unmarked one. */
  lemma NothingLeft(b: Heap, nw: set<Ref>, x: Ctx, weak: seq<Ref>, allweak: seq<Ref>, eph: seq<Ref>, tw: seq<Ref>)
    requires AllOk(b, nw, x) && x.pend == {} && x.loose == {} && x.tw == Elems(tw)
    requires x.weak == Elems(weak) && x.allweak == Elems(allweak) && x.eph == Elems(eph)
    requires Converged(b, nw, eph)
    requires AllValuesMarked(b, nw, Elems(weak) + Elems(allweak))
    requires AllKeysMarked(b, nw, Elems(eph) + Elems(allweak))
    ensures AllMarked(b, nw, tw)
  {
    forall o | o in nw ensures o in b && Refs(b, o) <= nw && (b[o].Thread? && b[o].open != [] ==> o in tw) {
      assert OkAt(b, nw, x, o);
      if !(Refs(b, o) <= nw) {
        WeakTableDone(b, nw, x, weak, allweak, eph, o);
      }
    }
  }

  lemma WeakTableDone(b: Heap, nw: set<Ref>, x: Ctx, weak: seq<Ref>, allweak: seq<Ref>, eph: seq<Ref>, o: Ref)
    requires o in b && b[o].Table? && PtrSet(b[o].meta) <= nw && WeakOk(b, nw, x, o)
    requires x.weak == Elems(weak) && x.allweak == Elems(allweak) && x.eph == Elems(eph)
    requires Converged(b, nw, eph)
    requires AllValuesMarked(b, nw, Elems(weak) + Elems(allweak))
    requires AllKeysMarked(b, nw, Elems(eph) + Elems(allweak))
    ensures Refs(b, o) <= nw
  {
    if b[o].mode != WeakValues { assert KeysMarked(b, nw, o); }
    if b[o].mode == WeakValues || o in x.allweak {
      assert ValuesMarked(b, nw, o);
    } else {
      assert EphDone(b, nw, Elems(b[o].node));
      forall e | e in b[o].node && e.val.Ptr? ensures e.val.r in nw {
        if e.key.Ptr? { assert e.key.r in KeyRefs(b[o].node); }
        assert KeyHolds(b, nw, e);
      }
    }
  }

  /** What a marked table with weak values may still refer to. */
  ghost predicate WeakValuesLive(b: Heap, tables: set<Ref>, live: set<Ref>)
  {
    forall o :: o in tables && o in b && b[o].Table? && (b[o].mode == WeakValues || b[o].mode == AllWeak) ==>
      forall r :: r in PtrsOf(b[o].arr) + ValRefs(b[o].node) ==> r in live || IsStr(b, r)
  }

  /** Right after its first half, 'atomic' leaves in weak tables only values that are alive. */
  lemma WeakValuesCleared(b: Heap, nw: set<Ref>, x: Ctx, weak: seq<Ref>, allweak: seq<Ref>, live: set<Ref>)
    requires AllOk(b, nw, x) && x.pend == {} && x.loose == {}
    requires x.weak == Elems(weak) && x.allweak == Elems(allweak)
    requires AllValuesMarked(b, nw, Elems(weak) + Elems(allweak))
    requires forall r :: !IsStr(b, r) ==> (r in nw <==> r in live)
    ensures WeakValuesLive(b, live, live)
  {
    forall o | o in live && o in b && b[o].Table? && (b[o].mode == WeakValues || b[o].mode == AllWeak)
      ensures PtrsOf(b[o].arr) + ValRefs(b[o].node) <= nw
    {
      assert !IsStr(b, o);
      assert OkAt(b, nw, x, o);
      if !(Refs(b, o) <= nw) {
        assert ValuesMarked(b, nw, o);
      }
    }
  }

  lemma WeakValuesShrink(b: Heap, b': Heap, tables: set<Ref>, live: set<Ref>)
    requires WeakValuesLive(b, tables, live) && HeapShrinks(b, b')
    ensures WeakValuesLive(b', tables, live)
  {
    forall o | o in tables && o in b' && b'[o].Table? && (b'[o].mode == WeakValues || b'[o].mode == AllWeak)
      ensures forall r :: r in PtrsOf(b'[o].arr) + ValRefs(b'[o].node) ==> r in live || IsStr(b', r)
    {
      ShrinkSame(b, b', o);
      forall r | r in PtrsOf(b'[o].arr) + ValRefs(b'[o].node) ensures r in live || IsStr(b', r) {
        if r in b { ShrinkSame(b, b', r); }
      }
    }
  }

  /** The first half of 'atomic' with what it achieves: exactly the live objects are marked, up to strings. */
  method MarkExactly(g: Collector, ghost init: set<Ref>)
    requires ReadyForAtomic(g, Live(g.body, init)) && init == Roots(g) + Marked(g.color)
    modifies g`gcstate, g`color, g`gray, g`grayagain, g`weak, g`allweak, g`ephemeron, g`twups
    ensures g.gcstate == Atomic && MarkInv(g, {}, {}, Live(g.body, init)) && g.gray == [] && g.grayagain == []
    ensures Converged(g.body, Marked(g.color), g.ephemeron) && Roots(g) <= Marked(g.color)
    ensures TwupsMarked(g.body, Marked(g.color), g.twups) && old(Marked(g.color)) <= Marked(g.color)
    ensures SameNonStrings(g.body, Marked(g.color), Live(g.body, init))
  {
    hide *;
    MarkLive(g, Live(g.body, init));
    MarkInvParts(g, {}, {}, Live(g.body, init));
    MarkedIsLive(g.body, Marked(g.color), CtxOf(g, {}, {}), g.ephemeron, init);
    FoldSame(g.body, Marked(g.color), Live(g.body, init));
  }

  lemma FoldSame(b: Heap, p: set<Ref>, q: set<Ref>)
    requires forall r :: !IsStr(b, r) ==> (r in p <==> r in q)
    ensures SameNonStrings(b, p, q)
  {
  }

  ghost predicate SameNonStrings(b: Heap, p: set<Ref>, q: set<Ref>)
  {
    forall r :: !IsStr(b, r) ==> (r in p <==> r in q)
  }

  lemma MarkInvParts(g: Collector, extra: set<Ref>, loose: set<Ref>, s: set<Ref>)
    requires MarkInv(g, extra, loose, s)
    ensures AllOk(g.body, Marked(g.color), CtxOf(g, extra, loose)) && Marked(g.color) <= s
    ensures CtxOf(g, extra, loose).loose == loose && CtxOf(g, extra, loose).eph == Elems(g.ephemeron)
    ensures CtxOf(g, extra, loose).weak == Elems(g.weak) && CtxOf(g, extra, loose).allweak == Elems(g.allweak)
    ensures g.gray == [] && extra == {} && g.gcstate == Atomic ==>
              CtxOf(g, extra, loose).pend == {} && CtxOf(g, extra, loose).tw == Elems(g.twups)
  {
    if g.gray == [] && extra == {} && g.gcstate == Atomic {
      assert Elems(g.gray) == {};
    }
  }

  /** The program's view of what the second half of 'atomic' does to the heap 'b' with 'live' objects. */
  ghost predicate HeapAfterAtomic(b: Heap, live: set<Ref>, b': Heap, nw: set<Ref>)
  {
    && HeapShrinks(b, b')
    && OnlyLost(b, live, nw, b')
    && WeakValuesLive(b', live, live)
  }

  /** Clearing dead values and separating the objects to be finalized. */
  method ClearAndSeparate(g: Collector, ghost live: set<Ref>)
    requires MarkInv(g, {}, {}, live) && g.gray == [] && g.gcstate == Atomic
    requires Converged(g.body, Marked(g.color), g.ephemeron) && SameNonStrings(g.body, Marked(g.color), live)
    requires Elems(g.finobj) <= g.body.Keys && forall o :: o in g.finobj ==> !IsStr(g.body, o)
    modifies g`body, g`color, g`gray, g`finobj, g`tobefnz
    ensures MarkInv(g, {}, {}, live) && g.gray == [] && Converged(g.body, Marked(g.color), g.ephemeron)
    ensures old(Marked(g.color)) <= Marked(g.color) && SameNonStrings(g.body, Marked(g.color), live)
    ensures HeapShrinks(old(g.body), g.body) && OnlyLost(old(g.body), live, old(g.body.Keys), g.body)
    ensures WeakValuesLive(g.body, live, live) && WeakChanged(old(g.body), old(Marked(g.color)), g.body)
    ensures AllValuesMarked(g.body, Marked(g.color), Elems(g.weak) + Elems(g.allweak))
    ensures g.finobj == Only(old(g.finobj), live)
    ensures g.tobefnz == old(g.tobefnz) + Only(old(g.finobj), Elems(old(g.finobj)) - live)
    ensures Elems(g.finobj) <= Marked(g.color)
  {
    hide *;
    ghost var b, nw := g.body, Marked(g.color);
    ClearDeadValues(g, live);
    ghost var nw1 := Marked(g.color);
    SameAfterStrings(b, g.body, nw, nw1, live);
    LostSame(b, nw, live);
    OnlyLostWeaken(b, nw, b.Keys, live, b.Keys, g.body);
    MarkInvParts(g, {}, {}, live);
    SameNonStringsAll(g.body, nw1, live);
    WeakValuesCleared(g.body, nw1, CtxOf(g, {}, {}), g.weak, g.allweak, live);
    ListTables(g, {}, {}, live);
    ghost var fin := g.finobj;
    SeparateToBeFnz(g, false);
    SeparatedLive(b, fin, nw, nw1, live, g.color);
  }

  lemma SameNonStringsAll(b: Heap, p: set<Ref>, q: set<Ref>)
    requires SameNonStrings(b, p, q)
    ensures forall r :: !IsStr(b, r) ==> (r in p <==> r in q)
  {
  }

  lemma SameAfterStrings(b: Heap, b': Heap, nw: set<Ref>, nw': set<Ref>, live: set<Ref>)
    requires SameNonStrings(b, nw, live) && nw <= nw' && OnlyStrings(b, nw, nw') && HeapShrinks(b, b')
    ensures SameNonStrings(b', nw', live) && SameNonStrings(b, nw', live) && b'.Keys == b.Keys
  {
    forall r | !IsStr(b', r) ensures r in nw' <==> r in live {
      if r in b { ShrinkSame(b, b', r); }
    }
  }

  lemma LostSame(b: Heap, nw: set<Ref>, live: set<Ref>)
    requires SameNonStrings(b, nw, live)
    ensures forall v :: Lost(b, nw, v) == Lost(b, live, v)
  {
  }

  lemma OnlyCong(l: seq<Ref>, keep: set<Ref>, keep': set<Ref>)
    requires forall o :: o in l ==> (o in keep <==> o in keep')
    ensures Only(l, keep) == Only(l, keep')
  {
  }

  lemma SeparatedLive(b: Heap, fin: seq<Ref>, nw: set<Ref>, nw1: set<Ref>, live: set<Ref>, c: Colors)
    requires SameNonStrings(b, nw1, live) && nw1 == Marked(c)
    requires forall o :: o in fin ==> !IsStr(b, o)
    ensures Only(fin, Elems(fin) - ToFinalize(c, fin, false)) == Only(fin, live)
    ensures Only(fin, ToFinalize(c, fin, false)) == Only(fin, Elems(fin) - live)
    ensures Elems(Only(fin, live)) <= nw1
  {
    OnlyCong(fin, Elems(fin) - ToFinalize(c, fin, false), live);
    OnlyCong(fin, ToFinalize(c, fin, false), Elems(fin) - live);
    OnlyElems(fin, live);
  }

  /** What is marked and the objects 't' need, up to strings, and no more than that is marked. */
  ghost predicate Revived(b: Heap, nw: set<Ref>, t: set<Ref>, nw': set<Ref>)
  {
    nw' <= Live(b, nw + t) && SameNonStrings(b, nw', Live(b, nw + t))
  }

  /** Marking the objects to be finalized is exact. */
  method ResurrectExactly(g: Collector, ghost live: set<Ref>, ghost all: set<Ref>)
    requires MarkInv(g, {}, {}, live) && g.gray == [] && g.gcstate == Atomic && NoDangling(g.body)
    requires Elems(g.tobefnz) <= g.body.Keys && TwupsMarked(g.body, Marked(g.color), g.twups)
    requires Marked(g.color) <= g.body.Keys && all == Live(g.body, Marked(g.color) + Elems(g.tobefnz))
    modifies g`color, g`gray, g`grayagain, g`weak, g`allweak, g`ephemeron, g`twups
    ensures MarkInv(g, {}, {}, all) && g.gray == [] && Elems(g.tobefnz) <= Marked(g.color)
    ensures g.grayagain == old(g.grayagain) && old(Marked(g.color)) <= Marked(g.color)
    ensures Suffix(old(g.weak), g.weak) && Suffix(old(g.allweak), g.allweak)
    ensures Converged(g.body, Marked(g.color), g.ephemeron) && TwupsMarked(g.body, Marked(g.color), g.twups)
    ensures Revived(g.body, old(Marked(g.color)), Elems(g.tobefnz), Marked(g.color))
  {
    hide *;
    ghost var nw, t := Marked(g.color), Elems(g.tobefnz);
    LiveClosed(g.body, nw + t);
    MarkWithin(g, {}, {}, live, all);
    Resurrect(g, all);
    MarkInvParts(g, {}, {}, all);
    MarkedIsLive(g.body, Marked(g.color), CtxOf(g, {}, {}), g.ephemeron, nw + t);
    FoldSame(g.body, Marked(g.color), all);
    FoldRevived(g.body, nw, t, Marked(g.color));
  }

  lemma FoldRevived(b: Heap, nw: set<Ref>, t: set<Ref>, nw': set<Ref>)
    requires nw' <= Live(b, nw + t) && SameNonStrings(b, nw', Live(b, nw + t))
    ensures Revived(b, nw, t, nw')
  {
  }

  lemma RevivedStrings(b: Heap, nw: set<Ref>, t: set<Ref>, nw1: set<Ref>, nw2: set<Ref>)
    requires Revived(b, nw, t, nw1) && nw1 <= nw2 <= Live(b, nw + t) && OnlyStrings(b, nw1, nw2)
    ensures Revived(b, nw, t, nw2)
  {
  }

  /** From the separation to the end of the clearing; 'live' is what was alive before resurrection. */
  method FinishMarking(g: Collector, ghost live: set<Ref>)
    requires MarkInv(g, {}, {}, live) && g.gray == [] && g.gcstate == Atomic
    requires Converged(g.body, Marked(g.color), g.ephemeron) && TwupsMarked(g.body, Marked(g.color), g.twups)
    requires AllValuesMarked(g.body, Marked(g.color), Elems(g.weak) + Elems(g.allweak))
    requires Elems(g.tobefnz) <= g.body.Keys
    modifies g`body, g`color, g`gray, g`grayagain, g`weak, g`allweak, g`ephemeron, g`twups
    ensures MarkInv(g, {}, {}, g.body.Keys) && g.gray == [] && g.grayagain == old(g.grayagain)
    ensures old(Marked(g.color)) <= Marked(g.color) && Elems(g.tobefnz) <= Marked(g.color)
    ensures HeapShrinks(old(g.body), g.body)
    ensures OnlyLost(old(g.body), old(Marked(g.color)), Marked(g.color), g.body)
    ensures AllMarked(g.body, Marked(g.color), g.twups) && TwupsMarked(g.body, Marked(g.color), g.twups)
    ensures Revived(old(g.body), old(Marked(g.color)), Elems(g.tobefnz), Marked(g.color))
  {
    hide *;
    var origweak, origall := g.weak, g.allweak;
    ghost var b, nw, t := g.body, Marked(g.color), Elems(g.tobefnz);
    ghost var all := Live(b, nw + t);
    ListTables(g, {}, {}, live);
    ResurrectExactly(g, live, all);
    ghost var nw1 := Marked(g.color);
    ClearNone(b, nw, false);
    AllMarkedKept(b, b, nw, nw1, Elems(origweak) + Elems(origall));
    ClearDeadKeys(g, all);
    ghost var b2, nw2 := g.body, Marked(g.color);
    AllMarkedKept(b, b2, nw1, nw2, Elems(origweak) + Elems(origall));
    ClearResurrected(g, origweak, origall, all);
    ghost var nw3 := Marked(g.color);
    MarkInvParts(g, {}, {}, all);
    SameStrings(b, b2, nw1, nw2, nw3);
    RevivedStrings(b, nw, t, nw1, nw3);
    ListTables(g, {}, {}, all);
    MarkAnything(g, {}, {}, all);
    NothingLeft(g.body, nw3, CtxOf(g, {}, {}), g.weak, g.allweak, g.ephemeron, g.twups);
    ShrinkTrans(b, b2, g.body);
    ShrunkKeys(b, g.body);
    LossTwice(b, nw, nw1, b2, nw2, g.body, nw3);
    TwupsShrink(b, b2, nw1, nw2, g.twups);
    TwupsShrink(b2, g.body, nw2, nw3, g.twups);
  }

  lemma ShrunkKeys(b: Heap, b': Heap)
    requires HeapShrinks(b, b')
    ensures b.Keys == b'.Keys
  {
  }

  lemma TwupsShrink(b: Heap, b': Heap, nw: set<Ref>, nw': set<Ref>, tw: seq<Ref>)
    requires TwupsMarked(b, nw, tw) && nw <= nw' && HeapShrinks(b, b')
    ensures TwupsMarked(b', nw', tw)
  {
    forall t | t in tw ensures t in nw' && t in b' && b'[t].Thread? {
      ShrinkSame(b, b', t);
    }
  }

  /** Losses of keys, and then of values, put together. */
  lemma LossTwice(b: Heap, nw: set<Ref>, nw1: set<Ref>, b2: Heap, nw2: set<Ref>, b3: Heap, nw3: set<Ref>)
    requires HeapShrinks(b, b2) && OnlyLost(b, b.Keys, nw1, b2) && OnlyStrings(b, nw1, nw2)
    requires OnlyLost(b2, nw2, b2.Keys, b3) && OnlyStrings(b2, nw2, nw3) && HeapShrinks(b2, b3)
    requires nw <= nw1 <= nw2 <= nw3 <= b.Keys
    ensures OnlyLost(b, nw, nw3, b3)
  {
    SameStrings(b, b2, nw1, nw2, nw3);
    SameKept(b, nw1, nw3);
    forall v | Lost(b2, nw2, v) ensures Lost(b, nw, v) {
      if v.r in b { ShrinkSame(b, b2, v.r); }
    }
    forall o | o in b ensures b3[o] == b[o] || LossOk(b, nw, nw3, b[o], b3[o]) {
      assert b2[o] == b[o] || LossOk(b, b.Keys, nw1, b[o], b2[o]);
      assert b3[o] == b2[o] || LossOk(b2, nw2, b2.Keys, b2[o], b3[o]);
      if b2[o] != b[o] && b3[o] != b2[o] {
        LossTwiceAt(b, nw, nw1, b2, nw2, nw3, b[o], b2[o], b3[o]);
      }
    }
  }

  lemma LossTwiceAt(b: Heap, nw: set<Ref>, nw1: set<Ref>, b2: Heap, nw2: set<Ref>, nw3: set<Ref>, t: Body, t2: Body,
          t3: Body)
    requires LossOk(b, b.Keys, nw1, t, t2) && LossOk(b2, nw2, b2.Keys, t2, t3) && nw <= nw3 <= b.Keys
    requires b2.Keys == b.Keys
    requires forall v :: Lost(b, nw3, v) == Lost(b, nw1, v)
    requires forall v :: Lost(b2, nw2, v) ==> Lost(b, nw, v)
    ensures LossOk(b, nw, nw3, t, t3)
  {
    forall v | Lost(b, b.Keys, v) ensures Lost(b, nw, v) {}
    forall v | Lost(b2, b2.Keys, v) ensures Lost(b, nw3, v) {}
  }

  lemma SubElems(a: seq<Ref>, b: seq<Ref>, s: set<Ref>)
    requires Elems(a) <= s && Elems(b) <= s
    ensures Elems(a + b) <= s
  {
  }

  /** The first half, and the clearing and separation after it; 'live' is what is alive. */
  method MarkAndSeparate(g: Collector, ghost init: set<Ref>, ghost live: set<Ref>)
    requires ReadyForAtomic(g, live) && init == Roots(g) + Marked(g.color) && live == Live(g.body, init)
    requires Elems(g.finobj) + Elems(g.tobefnz) <= g.body.Keys && forall o :: o in g.finobj ==> !IsStr(g.body, o)
    modifies g`body, g`gcstate, g`color, g`finobj, g`tobefnz
    modifies g`gray, g`grayagain, g`weak, g`allweak, g`ephemeron, g`twups
    ensures MarkInv(g, {}, {}, live) && g.gray == [] && g.grayagain == [] && g.gcstate == Atomic
    ensures Converged(g.body, Marked(g.color), g.ephemeron) && TwupsMarked(g.body, Marked(g.color), g.twups)
    ensures Separated(old(g.body), live, g.body, Marked(g.color)) && SameNonStrings(g.body, Marked(g.color), live)
    ensures AllValuesMarked(g.body, Marked(g.color), Elems(g.weak) + Elems(g.allweak))
    ensures g.finobj == Only(old(g.finobj), live)
    ensures g.tobefnz == old(g.tobefnz) + Only(old(g.finobj), Elems(old(g.finobj)) - live)
    ensures Elems(g.finobj) + Roots(g) <= Marked(g.color) && Elems(g.tobefnz) <= g.body.Keys
    ensures old(Marked(g.color)) <= Marked(g.color)
  {
    hide *;
    ghost var b, fin := g.body, g.finobj;
    ElemsUnion(g.finobj, g.tobefnz, b.Keys);
    MarkExactly(g, init);
    MarkInvParts(g, {}, {}, live);
    ghost var nw0 := Marked(g.color);
    ClearAndSeparate(g, live);
    ghost var b1, nw1 := g.body, Marked(g.color);
    MarkInvParts(g, {}, {}, live);
    ListTables(g, {}, {}, live);
    TwupsShrink(b, b1, nw0, nw1, g.twups);
    ShrunkKeys(b, b1);
    OnlyElems(fin, Elems(fin) - live);
    SubElems(old(g.tobefnz), Only(fin, Elems(fin) - live), b.Keys);
    FoldSeparated(b, live, b1, nw0, nw1);
  }

  /** What the clearing before resurrection may have done to the heap. */
  ghost predicate Separated(b: Heap, live: set<Ref>, b1: Heap, nw1: set<Ref>)
  {
    && HeapShrinks(b, b1) && OnlyLost(b, live, b.Keys, b1) && WeakValuesLive(b1, live, live)
    && WeakChanged(b, live, b1) && NoDangling(b1) && nw1 <= live
  }

  lemma FoldSeparated(b: Heap, live: set<Ref>, b1: Heap, nw0: set<Ref>, nw1: set<Ref>)
    requires HeapShrinks(b, b1) && OnlyLost(b, live, b.Keys, b1) && WeakValuesLive(b1, live, live)
    requires WeakChanged(b, nw0, b1) && nw0 <= live && NoDangling(b1) && nw1 <= live
    ensures Separated(b, live, b1, nw1)
  {
    hide HeapShrinks, OnlyLost, WeakValuesLive, NoDangling;
  }

  /** Both halves together. */
  lemma WholeAtomic(b: Heap, init: set<Ref>, b1: Heap, nw1: set<Ref>, b2: Heap, t: set<Ref>, nw2: set<Ref>)
    requires NoDangling(b) && init + t <= b.Keys
    requires Separated(b, Live(b, init), b1, nw1) && SameNonStrings(b1, nw1, Live(b, init))
    requires HeapShrinks(b1, b2) && OnlyLost(b1, nw1, nw2, b2) && Revived(b1, nw1, t, nw2)
    requires nw1 <= nw2 <= b2.Keys
    ensures HeapShrinks(b, b2) && HeapAfterAtomic(b, Live(b, init), b2, nw2) && LiveMarked(b, Live(b, init), nw2)
    ensures Revived(b, init, t, nw2)
  {
    var live := Live(b, init);
    hide Live, HeapShrinks, OnlyLost, WeakValuesLive, NoDangling, WeakChanged, SameNonStrings, Revived, LiveMarked;
    hide HeapAfterAtomic;
    ShrunkKeys(b, b1);
    ShrunkKeys(b1, b2);
    ShrinkTrans(b, b1, b2);
    WeakValuesShrink(b1, b2, live, live);
    OnlyLostTwice(b, live, b1, nw1, b2, nw2);
    FoldAfter(b, live, b2, nw2);
    LiveAreMarked(b, b1, live, nw1, nw2);
    RevivedBefore(b, init, b1, nw1, t, nw2);
  }

  /**
   atomic: from a marking that only lacks its end to a heap where every reference of a marked object
   goes to a marked object.  What goes to 'tobefnz' is what has a finalizer and is not alive; entries
   leave weak tables only because their values are not alive or their keys are not even resurrected.
   What is marked is, up to strings, what the roots and the objects to be finalized keep alive.
   */
  method AtomicStep(g: Collector, ghost init: set<Ref>)
    requires ReadyForAtomic(g, Live(g.body, init)) && init == Roots(g) + Marked(g.color)
    requires Elems(g.finobj) + Elems(g.tobefnz) <= g.body.Keys && forall o :: o in g.finobj ==> !IsStr(g.body, o)
    modifies g`body, g`gcstate, g`color, g`white, g`finobj, g`tobefnz
    modifies g`gray, g`grayagain, g`weak, g`allweak, g`ephemeron, g`twups
    ensures g.gcstate == Atomic && g.white == !old(g.white) && g.gray == [] && g.grayagain == []
    ensures WhitesOk(g.color, !g.white) && HeapOk(g.body, g.color.Keys, Marked(g.color), g.body.Keys)
    ensures AllMarked(g.body, Marked(g.color), g.twups) && TwupsMarked(g.body, Marked(g.color), g.twups)
    ensures Roots(g) + Elems(g.finobj) + Elems(g.tobefnz) <= Marked(g.color)
    ensures g.finobj == Only(old(g.finobj), Live(old(g.body), init))
    ensures g.tobefnz == old(g.tobefnz) + Only(old(g.finobj), Elems(old(g.finobj)) - Live(old(g.body), init))
    ensures HeapShrinks(old(g.body), g.body) && old(Marked(g.color)) <= Marked(g.color)
    ensures HeapAfterAtomic(old(g.body), Live(old(g.body), init), g.body, Marked(g.color))
    ensures LiveMarked(old(g.body), Live(old(g.body), init), Marked(g.color))
    ensures Revived(old(g.body), init, Elems(g.tobefnz), Marked(g.color))
  {
    hide *;
    ghost var b, live := g.body, Live(g.body, init);
    ReadyHeap(g, live, init);
    MarkAndSeparate(g, init, live);
    ghost var b1, nw1 := g.body, Marked(g.color);
    FinishMarking(g, live);
    MarkInvOpen(g, {}, {}, g.body.Keys);
    SeparatedKeys(b, live, b1, nw1);
    WholeAtomic(b, init, b1, nw1, g.body, Elems(g.tobefnz), Marked(g.color));
    g.white := !g.white;
  }

  lemma SeparatedKeys(b: Heap, live: set<Ref>, b1: Heap, nw1: set<Ref>)
    requires Separated(b, live, b1, nw1)
    ensures b1.Keys == b.Keys
  {
  }

  lemma ReadyHeap(g: Collector, live: set<Ref>, init: set<Ref>)
    requires ReadyForAtomic(g, live) && init == Roots(g) + Marked(g.color)
    ensures NoDangling(g.body) && init <= g.body.Keys
  {
    hide AllOk, ListsOk, Linked, WhitesOk, Closed;
  }

  /** The same seen from the heap before anything was cleared. */
  lemma RevivedBefore(b: Heap, init: set<Ref>, b1: Heap, nw1: set<Ref>, t: set<Ref>, nw: set<Ref>)
    requires NoDangling(b) && NoDangling(b1) && init + t <= b.Keys && HeapShrinks(b, b1)
    requires WeakChanged(b, Live(b, init), b1) && nw1 <= Live(b, init) && SameNonStrings(b1, nw1, Live(b, init))
    requires Revived(b1, nw1, t, nw)
    ensures Revived(b, init, t, nw)
  {
    var live := Live(b, init);
    LiveClosed(b, init);
    LiveTwice(b, init, t);
    forall r | r in live && !IsStr(b, r) ensures r in nw1 {
      ShrinkSame(b, b1, r);
    }
    hide Live, WeakChanged, HeapShrinks, NoDangling, Closed;
    SameRevived(b, b1, live, nw1, t);
    forall r | !IsStr(b, r) ensures r in nw <==> r in Live(b, init + t) {
      if r in b { ShrinkSame(b, b1, r); }
    }
  }

  /** All live objects but strings are marked; strings that are referenced are marked on the way. */
  ghost predicate LiveMarked(b: Heap, live: set<Ref>, nw: set<Ref>)
  {
    forall r :: r in live && !IsStr(b, r) ==> r in nw
  }

  lemma LiveAreMarked(b: Heap, b1: Heap, live: set<Ref>, nw1: set<Ref>, nw: set<Ref>)
    requires HeapShrinks(b, b1) && SameNonStrings(b1, nw1, live) && nw1 <= nw
    ensures LiveMarked(b, live, nw)
  {
    forall r | r in live && !IsStr(b, r) ensures r in nw {
      if r in b { ShrinkSame(b, b1, r); }
    }
  }

  lemma ElemsUnion(a: seq<Ref>, b: seq<Ref>, s: set<Ref>)
    requires Elems(a) + Elems(b) <= s
    ensures Elems(a) <= s && Elems(b) <= s
  {
  }

  lemma MarkInvOpen(g: Collector, extra: set<Ref>, loose: set<Ref>, s: set<Ref>)
    requires MarkInv(g, extra, loose, s)
    ensures HeapOk(g.body, g.color.Keys, Marked(g.color), s) && WhitesOk(g.color, g.white)
    ensures Marked(g.color) <= g.body.Keys
  {
  }

  lemma FoldAfter(b: Heap, live: set<Ref>, b': Heap, nw: set<Ref>)
    requires HeapShrinks(b, b') && OnlyLost(b, live, nw, b') && WeakValuesLive(b', live, live)
    ensures HeapAfterAtomic(b, live, b', nw)
  {
  }

  lemma OnlyLostTwice(b: Heap, live: set<Ref>, b1: Heap, nw1: set<Ref>, b2: Heap, nw2: set<Ref>)
    requires HeapShrinks(b, b1) && OnlyLost(b, live, b.Keys, b1) && SameNonStrings(b1, nw1, live)
    requires HeapShrinks(b1, b2) && OnlyLost(b1, nw1, nw2, b2) && nw2 <= b.Keys
    ensures OnlyLost(b, live, nw2, b2)
  {
    forall v | Lost(b1, nw1, v) ensures Lost(b, live, v) {
      if v.r in b { ShrinkSame(b, b1, v.r); }
    }
    forall v | Lost(b1, nw2, v) ensures Lost(b, nw2, v) {
      if v.r in b { ShrinkSame(b, b1, v.r); }
    }
    forall o | o in b ensures b2[o] == b[o] || LossOk(b, live, nw2, b[o], b2[o]) {
      assert b1[o] == b[o] || LossOk(b, live, b.Keys, b[o], b1[o]);
      assert b2[o] == b1[o] || LossOk(b1, nw1, nw2, b1[o], b2[o]);
      if b1[o] != b[o] && b2[o] != b1[o] {
        OnlyLostTwiceAt(b, live, b1, nw1, nw2, b[o], b1[o], b2[o]);
      }
    }
  }

  lemma OnlyLostTwiceAt(b: Heap, live: set<Ref>, b1: Heap, nw1: set<Ref>, nw2: set<Ref>, t: Body, t1: Body, t2: Body)
    requires LossOk(b, live, b.Keys, t, t1) && LossOk(b1, nw1, nw2, t1, t2) && nw2 <= b.Keys
    requires forall v :: Lost(b1, nw1, v) ==> Lost(b, live, v)
    requires forall v :: Lost(b1, nw2, v) ==> Lost(b, nw2, v)
    ensures LossOk(b, live, nw2, t, t2)
  {
    forall v | Lost(b, b.Keys, v) ensures Lost(b, nw2, v) {}
  }

  /** A list whose last object marked comes first stays so: finalizers run in the reverse order of marking. */
  lemma {:induction false} OnlyOrdered(l: seq<Ref>, keep: set<Ref>, stamp: map<Ref, nat>)
    requires forall o :: o in l ==> o in stamp
    requires forall i, j :: 0 <= i < j < |l| ==> stamp[l[i]] > stamp[l[j]]
    ensures forall o :: o in Only(l, keep) ==> o in l && o in keep
    ensures forall i, j :: 0 <= i < j < |Only(l, keep)| ==> stamp[Only(l, keep)[i]] > stamp[Only(l, keep)[j]]
  {
    if l != [] {
      var rest, last := l[..|l| - 1], l[|l| - 1];
      OnlyOrdered(rest, keep, stamp);
      forall o | o in Only(rest, keep) ensures stamp[o] > stamp[last] {
        var i :| 0 <= i < |rest| && rest[i] == o;
        assert l[i] == o;
      }
    }
  }
}
