/**
 The operations of the program on the heap, with their barriers (lgc.c, "luaC_barrier_",
 "luaC_barrierback_", "luaC_newobjdt", "luaC_fix"; lfunc.c; lstring.c).  Each keeps the invariant of
 the collector in whatever state the collector is.
 */
module GcMutator {
  import opened GcHeap
  import opened GcMark
  import opened GcAtomic
  import opened GcPhase

  // ---- Changes of bodies ---------------------------------------------------------------------

  /** A store keeps the kind of the object. */
  predicate SameKind(x: Body, y: Body)
  {
    || (x.Table? && y.Table?) || (x.Udata? && y.Udata? && (x.uvs == [] <==> y.uvs == []))
    || (x.Block? && y.Block?) || (x.ClosedUpVal? && y.ClosedUpVal?)
  }

  lemma StoreRefs(b: Heap, o: Ref, x: Body)
    requires o in b && SameKind(b[o], x)
    ensures forall p :: p in b && p != o ==> Refs(b[o := x], p) == Refs(b, p)
    ensures forall p :: CanBeGray(b[o := x], p) == CanBeGray(b, p) && NoGrayList(b[o := x], p) == NoGrayList(b, p)
  {
  }

  lemma StoreSound(b: Heap, o: Ref, x: Body, colored: set<Ref>, kept: set<Ref>)
    requires HeapSound(b, colored, kept) && o in kept && SameKind(b[o], x)
    requires Refs(b[o := x], o) <= kept && MetaOk(b[o := x], o)
    ensures HeapSound(b[o := x], colored, kept)
  {
    StoreRefs(b, o, x);
    forall p | p in b ensures UpvalOk(b[o := x], p) && ThreadOk(b[o := x], p) {
      assert UpvalOk(b, p) && ThreadOk(b, p);
    }
    forall p | p in kept && p != o ensures MetaOk(b[o := x], p) && Refs(b[o := x], p) <= kept {
      assert MetaOk(b, p);
    }
  }

  lemma StoreLinked(b: Heap, o: Ref, x: Body, c: Colors, links: multiset<Ref>, exact: bool)
    requires o in b && SameKind(b[o], x) && Linked(b, c, links, {}, exact)
    ensures Linked(b[o := x], c, links, {}, exact)
  {
    StoreRefs(b, o, x);
  }

  lemma StorePlaced(s: State, o: Ref, x: Body)
    requires o in s.body && SameKind(s.body[o], x) && Placed(s)
    ensures Placed(s.(body := s.body[o := x]))
  {
    assert s.body[o := x].Keys == s.body.Keys;
    assert s.(body := s.body[o := x]).Kept() == s.Kept();
    assert s.(body := s.body[o := x]).Roots() == s.Roots();
  }

  // ---- Changes of colors ---------------------------------------------------------------------

  /** Colors may change as long as no object comes to life or dies, and what is marked in 'fixedgc' stays so. */
  lemma PaintPlaced(s: State, s': State)
    requires Placed(s) && s'.Kept() == s.Kept() && s'.body == s.body && s'.lists == s.lists && s'.twups == s.twups
    requires s'.main == s.main && s'.current == s.current && s'.registry == s.registry && s'.mt == s.mt
    requires forall o :: o in s.lists.fixedgc && o in s.color && !s.color[o].White? ==>
        o in s'.color && !s'.color[o].White?
    ensures Placed(s')
  {
  }

  lemma KeptPaint(s: State, o: Ref, k: Color)
    requires o in s.Kept() && k != White(!s.white)
    ensures s.(color := s.color[o := k]).Kept() == s.Kept() && s.color[o := k].Keys == s.color.Keys
  {
  }

  /** Painting an object that is not white, or painting it white, does not undo the sweep. */
  lemma SweepPaint(st: GcState, c: Colors, w: bool, p: SweepPtr, l: Lists, o: Ref, k: Color)
    requires SweepOk(st, c, w, p, l) && o in c && (c[o] != White(w) || k == White(w))
    ensures SweepOk(st, c[o := k], w, p, l)
  {
    AllWhitePaint(c, w, l.allgc, o, k);
    AllWhitePaint(c, w, l.finobj, o, k);
    AllWhitePaint(c, w, l.tobefnz, o, k);
    SweepingPaint(c, w, l.allgc, p, o, k);
    SweepingPaint(c, w, l.finobj, p, o, k);
    SweepingPaint(c, w, l.tobefnz, p, o, k);
  }

  lemma AllWhitePaint(c: Colors, w: bool, l: seq<Ref>, o: Ref, k: Color)
    requires o in c && (c[o] != White(w) || k == White(w))
    ensures AllWhite(c, w, l) ==> AllWhite(c[o := k], w, l)
  {
  }

  lemma SweepingPaint(c: Colors, w: bool, l: seq<Ref>, p: SweepPtr, o: Ref, k: Color)
    requires o in c && (c[o] != White(w) || k == White(w))
    ensures Sweeping(c, w, l, p) ==> Sweeping(c[o := k], w, l, p)
  {
    if Sweeping(c, w, l, p) && p != NoLink {
      var i: nat :| SweptUpTo(c, w, l, p, i);
      AllWhitePaint(c, w, l[..i], o, k);
      assert SweptUpTo(c[o := k], w, l, p, i);
    } else {
      AllWhitePaint(c, w, l, o, k);
    }
  }

  // ---- Stores with a backward barrier ------------------------------------------------------------

  /** luaC_barrier and luaC_barrierback: whether a store of 'v' in 'o' needs a barrier. */
  predicate NeedsBarrier(c: Colors, o: Ref, v: Val)
    requires o in c && (v.Ptr? ==> v.r in c)
  {
    c[o] == Black && v.Ptr? && c[v.r].White?
  }

  /** What a store may bring into 'o': the references 'k' and 'v', and no others. */
  ghost predicate StoreOk(s: State, o: Ref, x: Body, k: Val, v: Val)
  {
    && o in s.Kept() && o in s.body && SameKind(s.body[o], x) && PtrSet(k) + PtrSet(v) <= s.Kept()
    && Refs(s.body[o := x], o) <= Refs(s.body, o) + PtrSet(k) + PtrSet(v)
    && MetaOk(s.body[o := x], o)
  }

  /** luaC_barrierback_: the black object goes gray again, in the list 'grayagain'. */
  ghost function Regrayed(s: State, o: Ref): State
  {
    s.(color := s.color[o := Gray], grays := s.grays.(grayagain := [o] + s.grays.grayagain))
  }

  lemma StoreKeeps(s: State, o: Ref, x: Body, k: Val, v: Val)
    requires HeapSound(s.body, s.color.Keys, s.Kept()) && Placed(s) && StoreOk(s, o, x, k, v)
    ensures var s' := s.(body := s.body[o := x]);
            s'.Kept() == s.Kept() && HeapSound(s'.body, s'.color.Keys, s'.Kept()) && Placed(s')
  {
    StoreSound(s.body, o, x, s.color.Keys, s.Kept());
    StorePlaced(s, o, x);
    assert s.(body := s.body[o := x]).Kept() == s.Kept();
  }

  /** A store whose barriers were not needed hides no white object behind a black one. */
  lemma StoreQuiet(s: State, o: Ref, x: Body, k: Val, v: Val)
    requires Inv(s) && StoreOk(s, o, x, k, v) && !NeedsBarrier(s.color, o, k) && !NeedsBarrier(s.color, o, v)
    ensures Inv(s.(body := s.body[o := x]))
  {
    hide HeapSound, Placed, HistoryOk, SweepOk, WhitesOk, Linked, BlackOk;
    StoreKeeps(s, o, x, k, v);
    if KeepInvariant(s.gcstate) {
      StoreLinked(s.body, o, x, s.color, s.Links(), true);
      StoreQuietBlack(s.body, s.color, o, x, k, v);
    }
  }

  lemma StoreQuietBlack(b: Heap, c: Colors, o: Ref, x: Body, k: Val, v: Val)
    requires o in b && o in c && SameKind(b[o], x) && BlackOk(b, c) && PtrSet(k) + PtrSet(v) <= c.Keys
    requires Refs(b[o := x], o) <= Refs(b, o) + PtrSet(k) + PtrSet(v)
    requires !NeedsBarrier(c, o, k) && !NeedsBarrier(c, o, v)
    ensures BlackOk(b[o := x], c)
  {
    StoreRefs(b, o, x);
  }

  /** The object 'o' apart, no black object points to a white one. */
  ghost predicate BlackOkBut(b: Heap, c: Colors, o: Ref)
  {
    forall p :: p in c && p in b && c[p] == Black && p != o ==> Refs(b, p) <= Marked(c)
  }

  lemma StoreBlackBut(b: Heap, c: Colors, o: Ref, x: Body)
    requires o in b && SameKind(b[o], x) && BlackOk(b, c)
    ensures BlackOkBut(b[o := x], c, o)
  {
    StoreRefs(b, o, x);
  }

  lemma GrayBlackOk(b: Heap, c: Colors, o: Ref)
    requires BlackOkBut(b, c, o) && o in c && !c[o].White?
    ensures BlackOk(b, c[o := Gray]) && Marked(c[o := Gray]) == Marked(c)
  {
    MarkedPut(c, o, Gray);
    assert Marked(c) + {o} == Marked(c);
  }

  lemma LinkedRegray(b: Heap, c: Colors, links: multiset<Ref>, o: Ref)
    requires Linked(b, c, links, {}, true) && o in c && c[o] == Black && CanBeGray(b, o)
    ensures Linked(b, c[o := Gray], links + multiset{o}, {}, true)
  {
    assert o !in links;
    LinkedAdd(b, c, links, {}, true, o);
  }

  lemma WhitesPaint(c: Colors, w: bool, o: Ref, k: Color)
    requires WhitesOk(c, w) && k != White(!w)
    ensures WhitesOk(c[o := k], w)
  {
  }

  lemma RegrayKeeps(s: State, o: Ref)
    requires Placed(s) && o in s.Kept() && s.color[o] == Black
    ensures Regrayed(s, o).Kept() == s.Kept() && Placed(Regrayed(s, o)) && Regrayed(s, o).color.Keys == s.color.Keys
  {
    KeptPaint(s, o, Gray);
    PaintPlaced(s, Regrayed(s, o));
  }

  lemma RegrayPhase(s: State, o: Ref, x: Body)
    requires PhaseOk(s) && o in s.color && o in s.body && s.color[o] == Black && CanBeGray(s.body, o)
    requires SameKind(s.body[o], x)
    ensures PhaseOk(Regrayed(s.(body := s.body[o := x]), o))
  {
    hide SweepOk, WhitesOk, Linked, BlackOk, BlackOkBut, CanBeGray;
    if KeepInvariant(s.gcstate) {
      LinkedRegray(s.body, s.color, s.Links(), o);
      LinksAgain(o, s.grays.gray, s.grays.grayagain, s.grays.weak, s.grays.allweak, s.grays.ephemeron);
      StoreLinked(s.body, o, x, s.color[o := Gray], s.Links() + multiset{o}, true);
      StoreBlackBut(s.body, s.color, o, x);
      GrayBlackOk(s.body[o := x], s.color, o);
      WhitesPaint(s.color, s.white, o, Gray);
    } else {
      SweepPaint(s.gcstate, s.color, s.white, s.sweepgc, s.lists, o, Gray);
    }
  }

  /** A store with its barrier: the object will be traversed again. */
  lemma StoreRegrayed(s: State, o: Ref, x: Body, k: Val, v: Val)
    requires Inv(s) && StoreOk(s, o, x, k, v) && s.color[o] == Black && CanBeGray(s.body, o)
    ensures Inv(Regrayed(s.(body := s.body[o := x]), o))
  {
    hide HeapSound, Placed, HistoryOk, PhaseOk, CanBeGray, SameKind;
    StoreKeeps(s, o, x, k, v);
    RegrayKeeps(s.(body := s.body[o := x]), o);
    RegrayPhase(s, o, x);
  }

  lemma StoreBackKeeps(s: State, o: Ref, x: Body, k: Val, v: Val)
    requires Inv(s) && StoreOk(s, o, x, k, v) && CanBeGray(s.body, o)
    ensures o in s.color && (k.Ptr? ==> k.r in s.color) && (v.Ptr? ==> v.r in s.color)
    ensures var s' := s.(body := s.body[o := x]);
            Inv(if NeedsBarrier(s.color, o, k) || NeedsBarrier(s.color, o, v) then Regrayed(s', o) else s')
  {
    if NeedsBarrier(s.color, o, k) || NeedsBarrier(s.color, o, v) {
      StoreRegrayed(s, o, x, k, v);
    } else {
      StoreQuiet(s, o, x, k, v);
    }
  }

  /**
   A store into a table or userdata with luaC_barrierback: entries, array slots, user values.
   'x' is the new body, which may have the new references 'k' and 'v'.
   */
  method StoreBack(g: Collector, o: Ref, x: Body, k: Val, v: Val)
    requires Inv(StateOf(g)) && StoreOk(StateOf(g), o, x, k, v) && CanBeGray(g.body, o)
    modifies g`body, g`color, g`grayagain
    ensures Inv(StateOf(g)) && g.body == old(g.body)[o := x]
  {
    hide *;
    StateHere(g);
    StoreBackKeeps(StateOf(g), o, x, k, v);
    var barrier := NeedsBarrier(g.color, o, k) || NeedsBarrier(g.color, o, v);
    PutBody(g, o, x);
    if barrier {
      BarrierBack(g, o);
    }
  }

  lemma StateHere(g: Collector)
    ensures StateOf(g).body == g.body && StateOf(g).color == g.color
  {
  }

  method PutBody(g: Collector, o: Ref, x: Body)
    modifies g`body
    ensures g.body == old(g.body)[o := x] && StateOf(g) == old(StateOf(g)).(body := old(StateOf(g)).body[o := x])
  {
    g.body := g.body[o := x];
  }

  /** luaC_barrierback_ */
  method BarrierBack(g: Collector, o: Ref)
    modifies g`color, g`grayagain
    ensures StateOf(g) == Regrayed(old(StateOf(g)), o)
  {
    g.color := g.color[o := Gray];
    g.grayagain := [o] + g.grayagain;
  }

  /** A change that brings no reference, such as a new mode of a table: there is no barrier. */
  method StoreNothing(g: Collector, o: Ref, x: Body)
    requires Inv(StateOf(g)) && StoreOk(StateOf(g), o, x, Plain, Plain)
    modifies g`body
    ensures Inv(StateOf(g)) && g.body == old(g.body)[o := x]
  {
    hide Inv, StoreOk, NeedsBarrier;
    NoReference(StateOf(g), o, x);
    StoreQuiet(StateOf(g), o, x, Plain, Plain);
    g.body := g.body[o := x];
  }

  lemma NoReference(s: State, o: Ref, x: Body)
    requires Inv(s) && StoreOk(s, o, x, Plain, Plain)
    ensures o in s.color && !NeedsBarrier(s.color, o, Plain)
  {
    hide HeapSound, Placed, PhaseOk, HistoryOk;
  }

  // ---- Stores with a forward barrier -------------------------------------------------------------

  /** With one black object left out, the marking invariant still holds. */
  lemma ToMarkInvBut(g: Collector, o: Ref)
    requires KeepInvariant(g.gcstate) && HeapSound(g.body, g.color.Keys, g.color.Keys)
    requires WhitesOk(g.color, g.white) && Linked(g.body, g.color, StateOf(g).Links(), {}, true)
    requires BlackOkBut(g.body, g.color, o) && o in g.color && g.color[o] == Black
    requires g.weak == [] && g.allweak == [] && g.ephemeron == []
    ensures MarkInv(g, {o}, g.body.Keys, g.body.Keys)
  {
    hide HeapOk, ListsOk, AllOk, WhitesOk, Linked, HeapSound, BlackOkBut, Elems, Marked;
    HeapWhole(g.body, g.color);
    ListsBlack(g.body, g.color, g.gray, g.grayagain);
    AllOkBut(g.body, g.color, g.gray, g.grayagain, CtxOf(g, {o}, g.body.Keys), o);
    LinkedBut(g.body, g.color, StateOf(g).Links(), o);
  }

  lemma LinkedBut(b: Heap, c: Colors, links: multiset<Ref>, o: Ref)
    requires Linked(b, c, links, {}, true) && o in c && c[o] == Black
    ensures Linked(b, c, links, {o}, true)
  {
  }

  lemma AllOkBut(b: Heap, c: Colors, gray: seq<Ref>, again: seq<Ref>, x: Ctx, o: Ref)
    requires Linked(b, c, multiset(gray) + multiset(again) + multiset([]) + multiset([]) + multiset([]), {}, true)
    requires BlackOkBut(b, c, o) && c.Keys == b.Keys
    requires x.pend == Elems(gray) + {o} + Elems(again) && x.loose == b.Keys && x.tw == b.Keys
    ensures AllOk(b, Marked(c), x)
  {
    LinksOf(gray, again);
  }

  /** Back to the whole invariant once the new reference is marked. */
  lemma FromMarkInvBut(g: Collector, o: Ref)
    requires MarkInv(g, {o}, g.body.Keys, g.body.Keys) && KeepInvariant(g.gcstate)
    requires o in g.body && !g.body[o].Thread? && Refs(g.body, o) <= Marked(g.color)
    requires g.weak == [] && g.allweak == [] && g.ephemeron == []
    requires g.mainthread in Marked(g.color) && g.sweepgc == NoLink
    ensures HeapSound(g.body, g.color.Keys, StateOf(g).Kept()) && Tricolor(StateOf(g))
  {
    DropExtra(g, o);
    FromMarkInv(g);
  }

  lemma DropExtra(g: Collector, o: Ref)
    requires MarkInv(g, {o}, g.body.Keys, g.body.Keys)
    requires o in g.body && !g.body[o].Thread? && Refs(g.body, o) <= Marked(g.color)
    ensures MarkInv(g, {}, g.body.Keys, g.body.Keys)
  {
    hide HeapOk, ListsOk, AllOk, WhitesOk, Linked;
    LeaveOk(g.body, g.color.Keys, Marked(g.color), g.body.Keys, g.gcstate,
            CtxOf(g, {o}, g.body.Keys), o, Nowhere, CtxOf(g, {}, g.body.Keys));
    LinkedLess(g.body, g.color, Links(g), {o}, g.gcstate != Atomic, {});
  }

  /** luaC_barrier_ while marking: marks the white object 'v' that the black object 'o' now points to. */
  method BarrierMark(g: Collector, o: Ref, v: Ref)
    requires KeepInvariant(g.gcstate) && HeapSound(g.body, g.color.Keys, StateOf(g).Kept())
    requires Placed(StateOf(g)) && HistoryOk(StateOf(g).lists, StateOf(g).history)
    requires WhitesOk(g.color, g.white) && Linked(g.body, g.color, StateOf(g).Links(), {}, true)
    requires BlackOkBut(g.body, g.color, o) && o in g.color && g.color[o] == Black && !g.body[o].Thread?
    requires g.weak == [] && g.allweak == [] && g.ephemeron == []
    requires g.mainthread in Marked(g.color) && g.sweepgc == NoLink
    requires v in g.color && g.color[v].White? && Refs(g.body, o) <= Marked(g.color) + {v}
    modifies g`color, g`gray
    ensures Inv(StateOf(g)) && StateOf(g).Kept() == old(StateOf(g).Kept()) && v in Marked(g.color)
  {
    hide HeapSound, Placed, HistoryOk, WhitesOk, Linked, BlackOkBut, MarkInv, Refs, Inv, Tricolor;
    ghost var s := StateOf(g);
    KeptAll(s);
    KeysOf(s.body, s.color.Keys, s.Kept());
    ToMarkInvBut(g, o);
    ReallyMark(g, v, {o}, g.body.Keys, g.body.Keys);
    FromMarkInvBut(g, o);
    MarkingKeeps(s, StateOf(g));
  }

  lemma MarkingKeeps(s: State, s': State)
    requires Placed(s) && HistoryOk(s.lists, s.history) && WhitesOk(s.color, s.white) && KeepInvariant(s.gcstate)
    requires s'.color.Keys == s.color.Keys && Marked(s.color) <= Marked(s'.color)
    requires s' == s.(color := s'.color, grays := s'.grays)
    requires HeapSound(s'.body, s'.color.Keys, s'.Kept()) && Tricolor(s')
    ensures Inv(s') && s'.Kept() == s.Kept()
  {
    KeptAll(s);
    KeptAll(s');
    MarkedPlaced(s, s');
  }

  lemma KeysOf(b: Heap, colored: set<Ref>, kept: set<Ref>)
    requires HeapSound(b, colored, kept)
    ensures colored == b.Keys
  {
  }

  /** Marking more objects changes no place. */
  lemma MarkedPlaced(s: State, s': State)
    requires Placed(s) && WhitesOk(s.color, s.white) && WhitesOk(s'.color, s'.white)
    requires s'.color.Keys == s.color.Keys && Marked(s.color) <= Marked(s'.color)
    requires s' == s.(color := s'.color, grays := s'.grays)
    ensures Placed(s')
  {
    KeptAll(s);
    KeptAll(s');
    assert s'.Roots() == s.Roots();
    forall o | o in s.color && !s.color[o].White? ensures o in s'.color && !s'.color[o].White? {
      assert o in Marked(s.color);
      assert o in Marked(s'.color);
    }
    PaintPlaced(s, s');
  }

  /** makewhite(g, o) */
  ghost function Whitened(s: State, o: Ref): State
  {
    s.(color := s.color[o := White(s.white)])
  }

  /** While sweeping, an object that is not fixed may be swept ahead of its turn. */
  lemma WhitenKeeps(s: State, o: Ref)
    requires HeapSound(s.body, s.color.Keys, s.Kept()) && Placed(s) && PhaseOk(s) && !KeepInvariant(s.gcstate)
    requires o in s.Kept() && o in s.body && !s.body[o].Str?
    ensures Whitened(s, o).Kept() == s.Kept() && PhaseOk(Whitened(s, o)) && Placed(Whitened(s, o))
    ensures HeapSound(s.body, Whitened(s, o).color.Keys, Whitened(s, o).Kept())
  {
    hide HeapSound, SweepOk;
    KeptPaint(s, o, White(s.white));
    PaintPlaced(s, Whitened(s, o));
    SweepPaint(s.gcstate, s.color, s.white, s.sweepgc, s.lists, o, White(s.white));
  }

  /** What holds between a store and its forward barrier, while marking. */
  lemma StoreForwardMark(s: State, o: Ref, x: Body, v: Val)
    requires Inv(s) && StoreOk(s, o, x, Plain, v) && KeepInvariant(s.gcstate) && NeedsBarrier(s.color, o, v)
    ensures var s' := s.(body := s.body[o := x]);
            && HeapSound(s'.body, s'.color.Keys, s'.Kept()) && Placed(s') && HistoryOk(s'.lists, s'.history)
            && WhitesOk(s.color, s.white) && Linked(s'.body, s'.color, s'.Links(), {}, true)
            && BlackOkBut(s'.body, s'.color, o) && Refs(s'.body, o) <= Marked(s'.color) + {v.r} && !x.Thread?
            && s.main in Marked(s.color) && s.sweepgc == NoLink
            && s.grays.weak == [] && s.grays.allweak == [] && s.grays.ephemeron == []
  {
    hide HeapSound, Placed, HistoryOk, Linked, WhitesOk, BlackOkBut;
    StoreKeeps(s, o, x, Plain, v);
    StoreLinked(s.body, o, x, s.color, s.Links(), true);
    StoreBlackBut(s.body, s.color, o, x);
  }

  lemma StoreForwardSweep(s: State, o: Ref, x: Body, v: Val)
    requires Inv(s) && StoreOk(s, o, x, Plain, v) && !KeepInvariant(s.gcstate)
    ensures Inv(Whitened(s.(body := s.body[o := x]), o))
  {
    hide HeapSound, Placed, HistoryOk, SweepOk;
    StoreKeeps(s, o, x, Plain, v);
    WhitenKeeps(s.(body := s.body[o := x]), o);
  }

  lemma StoreForwardNone(s: State, o: Ref, x: Body, v: Val)
    requires Inv(s) && StoreOk(s, o, x, Plain, v) && !NeedsBarrier(s.color, o, v)
    ensures Inv(s.(body := s.body[o := x]))
  {
    StoreQuiet(s, o, x, Plain, v);
  }

  lemma StoreColored(s: State, o: Ref, x: Body, k: Val, v: Val)
    requires Inv(s) && StoreOk(s, o, x, k, v)
    ensures o in s.color && o in s.body && (k.Ptr? ==> k.r in s.color) && (v.Ptr? ==> v.r in s.color)
  {
  }

  lemma BarrierNeeded(c: Colors, o: Ref, v: Val)
    requires o in c && (v.Ptr? ==> v.r in c) && NeedsBarrier(c, o, v)
    ensures v.Ptr? && c[o] == Black && c[v.r].White?
  {
  }

  lemma StoredKept(s: State, o: Ref, x: Body, v: Val)
    requires StoreOk(s, o, x, Plain, v)
    ensures o in s.Kept()
  {
  }

  /** Another white does not make an object dead. */
  lemma KeptHolder(s: State, t: State, o: Ref)
    requires o in s.Kept() && t.white == s.white
    requires t.color == s.color || t.color == s.color[o := White(s.white)]
    ensures o in t.Kept()
  {
  }

  /**
   A store with luaC_barrier: metatables, upvalues of closures, constants and parts of prototypes.
   While marking the barrier marks the new reference; while sweeping it sweeps the object itself.
   */
  method StoreForward(g: Collector, o: Ref, x: Body, v: Val)
    requires Inv(StateOf(g)) && StoreOk(StateOf(g), o, x, Plain, v)
    modifies g`body, g`color, g`gray
    ensures Inv(StateOf(g)) && g.body == old(g.body)[o := x] && o in StateOf(g).Kept()
  {
    hide Inv, StoreOk, NeedsBarrier, HeapSound, Placed, HistoryOk, Linked, WhitesOk, BlackOkBut, Refs, Marked, PhaseOk;
    ghost var s := StateOf(g);
    StoreColored(s, o, x, Plain, v);
    StoredKept(s, o, x, v);
    g.body := g.body[o := x];
    if NeedsBarrier(g.color, o, v) {
      BarrierNeeded(g.color, o, v);
      if KeepInvariant(g.gcstate) {
        StoreForwardMark(s, o, x, v);
        KeptHolder(s, StateOf(g), o);
        BarrierMark(g, o, v.r);
      } else {
        StoreForwardSweep(s, o, x, v);
        g.color := g.color[o := White(g.white)];
        KeptHolder(s, StateOf(g), o);
      }
    } else {
      StoreForwardNone(s, o, x, v);
      KeptHolder(s, StateOf(g), o);
    }
  }
}
