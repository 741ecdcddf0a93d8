/**
 The collection cycle (lgc.c, "restartcollection", "atomic", "singlestep", "fullinc"): every step
 of the collector keeps the invariant, and no step frees an object that the program may still use or
 that waits for its finalizer.
 */
module GcCycle {
  import opened GcHeap
  import opened GcMark
  import opened GcAtomic
  import opened GcLive
  import opened GcExact
  import opened GcClear
  import opened GcFinish
  import opened GcPhase
  import opened GcMutator
  import opened GcSweep
  import opened GcFinalize

  // ---- Starting a cycle --------------------------------------------------------------------------

  /** In the pause everything is white but the fixed strings. */
  lemma PauseColors(s: State, o: Ref)
    requires Inv(s) && s.gcstate == Pause && o in s.color
    ensures s.color[o] == White(s.white) || (o in s.body && s.body[o].Str? && !s.color[o].White?)
  {
    hide Inv;
    PauseLists(s);
    OnSomeList(s, o);
  }

  lemma PauseLists(s: State)
    requires Inv(s) && s.gcstate == Pause
    ensures FixedOk(s.body, s.color, s.lists.fixedgc) && AllWhite(s.color, s.white, s.lists.allgc)
    ensures AllWhite(s.color, s.white, s.lists.finobj) && AllWhite(s.color, s.white, s.lists.tobefnz)
  {
    hide HeapSound, HistoryOk, CanFinalize, TwupsSound, RootsSound, OneList, FixedOk, AllWhite, Tricolor;
  }

  lemma OnSomeList(s: State, o: Ref)
    requires Inv(s) && o in s.color
    ensures var l := s.lists;
            o in s.body && (o in l.allgc || o in l.finobj || o in l.tobefnz || o in l.fixedgc)
  {
    hide Tricolor, HistoryOk, CanFinalize, TwupsSound, RootsSound, FixedOk, PhaseOk;
    var l := s.lists;
    assert o in multiset(s.body.Keys);
    assert o in multiset(l.allgc) + multiset(l.finobj) + multiset(l.tobefnz) + multiset(l.fixedgc);
  }

  /** Nothing is black or gray but strings. */
  ghost predicate OnlyStringsMarked(b: Heap, c: Colors, w: bool)
  {
    forall o :: o in c ==> c[o] == White(w) || (o in b && b[o].Str? && !c[o].White?)
  }

  lemma PauseTricolor(s: State)
    requires Inv(s) && s.gcstate == Pause
    ensures OnlyStringsMarked(s.body, s.color, s.white)
  {
    hide Inv;
    forall o | o in s.color
      ensures s.color[o] == White(s.white) || (o in s.body && s.body[o].Str? && !s.color[o].White?)
    {
      PauseColors(s, o);
    }
  }

  lemma StringsTricolor(b: Heap, c: Colors, w: bool)
    requires OnlyStringsMarked(b, c, w)
    ensures WhitesOk(c, w) && BlackOk(b, c)
    ensures Linked(b, c, multiset([]) + multiset([]) + multiset([]) + multiset([]) + multiset([]), {}, true)
  {
    var none: multiset<Ref> := multiset{};
    assert multiset([]) + multiset([]) + multiset([]) + multiset([]) + multiset([]) == none;
  }

  lemma FoldEmpty(g: Collector)
    requires g.gcstate != Atomic && HeapSound(g.body, g.color.Keys, g.color.Keys)
    requires OnlyStringsMarked(g.body, g.color, g.white)
    requires g.gray == g.grayagain == g.weak == g.allweak == g.ephemeron == []
    ensures MarkInv(g, {}, g.body.Keys, g.body.Keys)
  {
    hide HeapSound, BlackOk, Linked, WhitesOk, OnlyStringsMarked, MarkInv;
    StringsTricolor(g.body, g.color, g.white);
    FoldMarkInv(g);
  }

  /** cleargraylists, with which the marking invariant begins to hold. */
  method ClearGrayLists(g: Collector)
    requires g.gcstate == Pause && HeapSound(g.body, g.color.Keys, g.color.Keys)
    requires OnlyStringsMarked(g.body, g.color, g.white)
    modifies g`gray, g`grayagain, g`weak, g`allweak, g`ephemeron
    ensures MarkInv(g, {}, g.body.Keys, g.body.Keys)
    ensures g.gray == g.grayagain == g.weak == g.allweak == g.ephemeron == []
  {
    hide *;
    g.gray, g.grayagain, g.weak, g.allweak, g.ephemeron := [], [], [], [], [];
    FoldEmpty(g);
  }

  lemma RootsInHeap(s: State)
    requires Inv(s) && s.gcstate == Pause
    ensures s.main in s.body && PtrSet(s.registry) <= s.body.Keys && PtrsOf(s.mt) <= s.body.Keys
    ensures Elems(s.lists.tobefnz) <= s.body.Keys && PtrSet(Ptr(s.main)) == {s.main}
  {
  }

  /** Only colors, gray lists and the state of the collector differ from 's'. */
  ghost predicate SameBut(g: Collector, s: State)
    reads g`body, g`white, g`sweepgc, g`twups, g`allgc, g`finobj, g`tobefnz, g`fixedgc, g`mainthread, g`current
    reads g`registry, g`mt, g`tofinalize, g`marks, g`calls, g`stamp, g`clock, g`batch, g`cycle, g`log
  {
    && g.body == s.body && g.white == s.white && g.sweepgc == s.sweepgc && g.twups == s.twups
    && Lists(g.allgc, g.finobj, g.tobefnz, g.fixedgc) == s.lists
    && g.mainthread == s.main && g.current == s.current && g.registry == s.registry && g.mt == s.mt
    && History(g.tofinalize, g.marks, g.calls, g.stamp, g.clock, g.batch, g.cycle, g.log) == s.history
  }

  /** What the mark phase keeps of the invariant, besides the marks. */
  lemma MarkedSince(s: State, g: Collector)
    requires Placed(s) && HistoryOk(s.lists, s.history) && WhitesOk(s.color, s.white)
    requires MarkInv(g, {}, g.body.Keys, g.body.Keys) && KeepInvariant(g.gcstate)
    requires g.weak == [] && g.allweak == [] && g.ephemeron == []
    requires g.mainthread in Marked(g.color) && g.sweepgc == NoLink
    requires SameBut(g, s)
    requires g.color.Keys == s.color.Keys && Marked(s.color) <= Marked(g.color)
    ensures Inv(StateOf(g)) && StateOf(g).Kept() == s.Kept()
  {
    hide HeapSound, Placed, HistoryOk, Tricolor, Linked, Marked;
    FromMarkInv(g);
    var s' := StateOf(g);
    MarkingState(s, s');
  }

  lemma MarkingState(s: State, s': State)
    requires Placed(s) && HistoryOk(s.lists, s.history) && WhitesOk(s.color, s.white)
    requires s' == s.(color := s'.color, grays := s'.grays, gcstate := s'.gcstate) && KeepInvariant(s'.gcstate)
    requires s'.color.Keys == s.color.Keys && Marked(s.color) <= Marked(s'.color)
    requires HeapSound(s'.body, s'.color.Keys, s'.Kept()) && Tricolor(s')
    ensures Inv(s') && s'.Kept() == s.Kept()
  {
    hide HeapSound, Placed, HistoryOk, Linked, BlackOk;
    var s1 := s.(gcstate := s'.gcstate);
    SameSweep(s, s'.gcstate, s.sweepgc);
    PlacedState(s, s1);
    MarkingKeeps(s1, s');
  }

  lemma PlacedState(s: State, s': State)
    requires Placed(s) && s' == s.(gcstate := s'.gcstate, sweepgc := s'.sweepgc, grays := s'.grays)
    ensures Placed(s') && s'.Kept() == s.Kept()
  {
    assert s'.Kept() == s.Kept() && s'.Roots() == s.Roots();
  }

  /** What a collection needs to begin. */
  lemma PauseReady(g: Collector)
    requires Inv(StateOf(g)) && g.gcstate == Pause
    ensures HeapSound(g.body, g.color.Keys, g.color.Keys) && OnlyStringsMarked(g.body, g.color, g.white)
    ensures g.mainthread in g.body && PtrSet(g.registry) <= g.body.Keys && PtrsOf(g.mt) <= g.body.Keys
    ensures Elems(g.tobefnz) <= g.body.Keys && PtrSet(Ptr(g.mainthread)) == {g.mainthread} && g.sweepgc == NoLink
    ensures SameBut(g, StateOf(g)) && g.color == StateOf(g).color
    ensures Placed(StateOf(g)) && HistoryOk(StateOf(g).lists, StateOf(g).history)
    ensures WhitesOk(StateOf(g).color, StateOf(g).white)
  {
    hide Inv, HeapSound, OnlyStringsMarked, Placed, HistoryOk, WhitesOk;
    PauseFacts(StateOf(g));
    RootsInHeap(StateOf(g));
  }

  /** What a collection marks first: the objects that keep others alive from the beginning. */
  ghost function StartRoots(s: State): set<Ref>
  {
    {s.main} + PtrSet(s.registry) + PtrsOf(s.mt) + Elems(s.lists.tobefnz)
  }

  /** The start of a collection: its roots are marked, and nothing that they do not keep alive. */
  ghost predicate Restarted(s: State, t: State)
  {
    && t == s.(gcstate := Propagate, color := t.color, grays := t.grays)
    && StartRoots(s) <= Marked(t.color) && Marked(s.color) <= Marked(t.color)
    && Marked(t.color) <= Live(s.body, StartRoots(s) + Marked(s.color))
  }

  /** restartcollection, and the state after it. */
  method RestartCollection(g: Collector)
    requires Inv(StateOf(g)) && g.gcstate == Pause
    modifies g`gcstate, g`color, g`gray, g`grayagain, g`weak, g`allweak, g`ephemeron
    ensures Inv(StateOf(g)) && g.gcstate == Propagate && StateOf(g).Kept() == old(StateOf(g).Kept())
    ensures Restarted(old(StateOf(g)), StateOf(g))
  {
    hide *;
    ghost var s := StateOf(g);
    PauseReady(g);
    ghost var up := Live(s.body, StartRoots(s) + Marked(s.color));
    StartWithin(g, s, up);
    ClearAndMark(g, s, up);
    PropagateKeeps();
    MarkedSince(s, g);
    RestartedIs(s, g, up);
  }

  lemma StartWithin(g: Collector, s: State, up: set<Ref>)
    requires s == StateOf(g) && HeapSound(g.body, g.color.Keys, g.color.Keys)
    requires g.mainthread in g.body && PtrSet(g.registry) <= g.body.Keys && PtrsOf(g.mt) <= g.body.Keys
    requires Elems(g.tobefnz) <= g.body.Keys && PtrSet(Ptr(g.mainthread)) == {g.mainthread}
    requires up == Live(s.body, StartRoots(s) + Marked(s.color))
    ensures Closed(g.body, up) && Marked(g.color) <= up && StartsIn(g, up)
  {
    hide Live, Closed;
    assert NoDangling(g.body) && Marked(g.color) <= g.body.Keys;
    hide HeapSound, NoDangling;
    assert StartRoots(s) == {g.mainthread} + PtrSet(g.registry) + PtrsOf(g.mt) + Elems(g.tobefnz);
    LiveClosed(s.body, StartRoots(s) + Marked(s.color));
  }

  /** The first marks stay in 'up'. */
  ghost predicate StartsIn(g: Collector, up: set<Ref>)
    reads g`mainthread, g`registry, g`mt, g`tobefnz
  {
    g.mainthread in up && PtrSet(g.registry) <= up && PtrsOf(g.mt) <= up && Elems(g.tobefnz) <= up
  }

  lemma RestartedIs(s: State, g: Collector, up: set<Ref>)
    requires SameBut(g, s) && g.gcstate == Propagate && StartsIn(g, Marked(g.color))
    requires Marked(s.color) <= Marked(g.color) <= up && up == Live(s.body, StartRoots(s) + Marked(s.color))
    ensures Restarted(s, StateOf(g))
  {
    hide Live, Marked;
  }

  lemma PropagateKeeps()
    ensures KeepInvariant(Propagate)
  {
  }

  lemma PauseFacts(s: State)
    requires Inv(s) && s.gcstate == Pause
    ensures Placed(s) && HistoryOk(s.lists, s.history) && WhitesOk(s.color, s.white) && s.sweepgc == NoLink
    ensures OnlyStringsMarked(s.body, s.color, s.white) && HeapSound(s.body, s.color.Keys, s.color.Keys)
  {
    PauseTricolor(s);
    StringsTricolor(s.body, s.color, s.white);
    KeptAll(s);
  }

  /** cleargraylists, the marks, and the new state. */
  method ClearAndMark(g: Collector, ghost s: State, ghost up: set<Ref>)
    requires SameBut(g, s) && g.gcstate == Pause && HeapSound(g.body, g.color.Keys, g.color.Keys)
    requires OnlyStringsMarked(g.body, g.color, g.white)
    requires g.mainthread in g.body && PtrSet(g.registry) <= g.body.Keys && PtrsOf(g.mt) <= g.body.Keys
    requires Elems(g.tobefnz) <= g.body.Keys && PtrSet(Ptr(g.mainthread)) == {g.mainthread}
    requires Closed(g.body, up) && Marked(g.color) <= up && StartsIn(g, up)
    modifies g`gcstate, g`color, g`gray, g`grayagain, g`weak, g`allweak, g`ephemeron
    ensures MarkInv(g, {}, g.body.Keys, g.body.Keys) && g.mainthread in Marked(g.color)
    ensures old(Marked(g.color)) <= Marked(g.color) <= up && StartsIn(g, Marked(g.color))
    ensures g.color.Keys == old(g.color.Keys)
    ensures g.gcstate == Propagate && g.weak == [] && g.allweak == [] && g.ephemeron == [] && SameBut(g, s)
  {
    hide *;
    ClearGrayLists(g);
    MarkRoots(g, up);
    SetPropagate(g);
  }

  /** The marks, which stay in 'up'. */
  method MarkRoots(g: Collector, ghost up: set<Ref>)
    requires MarkInv(g, {}, g.body.Keys, g.body.Keys) && Closed(g.body, up) && Marked(g.color) <= up && StartsIn(g, up)
    requires g.mainthread in g.body && PtrSet(g.registry) <= g.body.Keys && PtrsOf(g.mt) <= g.body.Keys
    requires Elems(g.tobefnz) <= g.body.Keys && PtrSet(Ptr(g.mainthread)) == {g.mainthread}
    modifies g`color, g`gray
    ensures MarkInv(g, {}, g.body.Keys, g.body.Keys) && g.mainthread in Marked(g.color)
    ensures old(Marked(g.color)) <= Marked(g.color) <= up && StartsIn(g, Marked(g.color))
    ensures g.color.Keys == old(g.color.Keys)
  {
    hide *;
    MarkWithin(g, {}, g.body.Keys, g.body.Keys, up);
    MarkStart(g, up);
    ColorKeys(g, {}, g.body.Keys, up);
    MarkAnything(g, {}, g.body.Keys, up);
    MainMarked(g);
  }

  lemma MainMarked(g: Collector)
    requires StartsIn(g, Marked(g.color))
    ensures g.mainthread in Marked(g.color)
  {
  }

  /** The marks that start a collection. */
  method MarkStart(g: Collector, ghost up: set<Ref>)
    requires MarkInv(g, {}, g.body.Keys, up) && StartsIn(g, up)
    requires g.mainthread in g.body && PtrSet(g.registry) <= g.body.Keys && PtrsOf(g.mt) <= g.body.Keys
    requires Elems(g.tobefnz) <= g.body.Keys && PtrSet(Ptr(g.mainthread)) == {g.mainthread}
    modifies g`color, g`gray
    ensures MarkInv(g, {}, g.body.Keys, up) && StartsIn(g, Marked(g.color))
    ensures old(Marked(g.color)) <= Marked(g.color) && g.color.Keys == old(g.color.Keys)
  {
    hide MarkInv, Marked, PtrSet, PtrsOf, Elems;
    ColorKeys(g, {}, g.body.Keys, up);
    MarkValue(g, Ptr(g.mainthread), {}, g.body.Keys, up);
    MarkValue(g, g.registry, {}, g.body.Keys, up);
    MarkAll(g, g.mt, {}, g.body.Keys, up);
    MarkRefs(g, g.tobefnz, {}, g.body.Keys, up);
    ColorKeys(g, {}, g.body.Keys, up);
  }

  method SetPropagate(g: Collector)
    requires MarkInv(g, {}, g.body.Keys, g.body.Keys) && g.gcstate == Pause
    modifies g`gcstate
    ensures MarkInv(g, {}, g.body.Keys, g.body.Keys) && g.gcstate == Propagate
  {
    hide HeapOk, ListsOk, AllOk, Linked, WhitesOk;
    ghost var x := CtxOf(g, {}, g.body.Keys);
    g.gcstate := Propagate;
    assert CtxOf(g, {}, g.body.Keys) == x;
  }

  // ---- Marking ---------------------------------------------------------------------------------------

  lemma MarkPhaseFacts(s: State)
    requires Inv(s) && KeepInvariant(s.gcstate)
    ensures Placed(s) && HistoryOk(s.lists, s.history) && WhitesOk(s.color, s.white) && s.sweepgc == NoLink
    ensures s.main in Marked(s.color) && s.grays.weak == [] && s.grays.allweak == [] && s.grays.ephemeron == []
    ensures HeapSound(s.body, s.color.Keys, s.color.Keys) && s.color.Keys == s.body.Keys == s.Kept()
  {
    KeptAll(s);
  }

  /**
   One object was traversed: only what the marked ones keep alive gets marked, and if nothing is, there is one object
   less to traverse.
   */
  ghost predicate Traversed(s: State, t: State)
  {
    && s.grays.gray != [] && t == s.(color := t.color, grays := t.grays) && t.color.Keys == s.color.Keys
    && Marked(s.color) <= Marked(t.color) <= Live(s.body, Marked(s.color))
    && (Marked(t.color) == Marked(s.color) ==> t.grays.gray == s.grays.gray[1..])
  }

  /** One step of the propagate phase. */
  method PropagateOne(g: Collector)
    requires Inv(StateOf(g)) && g.gcstate == Propagate && g.gray != []
    modifies g`color, g`gray, g`grayagain, g`weak, g`allweak, g`ephemeron, g`twups
    ensures Inv(StateOf(g)) && StateOf(g).Kept() == old(StateOf(g).Kept()) && Traversed(old(StateOf(g)), StateOf(g))
  {
    hide *;
    ghost var s := StateOf(g);
    PropagateReady(g);
    PropagateStep(g, s);
    PropagateKeeps();
    MarkedSince(s, g);
    TraversedIs(s, g);
  }

  lemma TraversedIs(s: State, g: Collector)
    requires SameBut(g, s) && g.gcstate == s.gcstate && s.grays.gray != [] && g.color.Keys == s.color.Keys
    requires Marked(s.color) <= Marked(g.color) <= Live(s.body, Marked(s.color))
    requires Marked(g.color) == Marked(s.color) ==> g.gray == s.grays.gray[1..]
    ensures Traversed(s, StateOf(g))
  {
    hide Live, Marked;
  }

  lemma MarkedClosed(g: Collector)
    requires MarkInv(g, {}, g.body.Keys, g.body.Keys)
    ensures Closed(g.body, Live(g.body, Marked(g.color))) && Marked(g.color) <= Live(g.body, Marked(g.color))
  {
    assert NoDangling(g.body) && Marked(g.color) <= g.body.Keys;
    hide MarkInv, Live, NoDangling, Closed;
    LiveClosed(g.body, Marked(g.color));
  }

  lemma PropagateReady(g: Collector)
    requires Inv(StateOf(g)) && g.gcstate == Propagate
    ensures MarkInv(g, {}, g.body.Keys, g.body.Keys) && g.color.Keys == g.body.Keys
    ensures SameBut(g, StateOf(g)) && g.color == StateOf(g).color && g.sweepgc == NoLink
    ensures g.gcstate == StateOf(g).gcstate && g.gray == StateOf(g).grays.gray && g.body == StateOf(g).body
    ensures Placed(StateOf(g)) && HistoryOk(StateOf(g).lists, StateOf(g).history)
    ensures WhitesOk(StateOf(g).color, StateOf(g).white)
    ensures g.mainthread in Marked(g.color) && g.weak == [] && g.allweak == [] && g.ephemeron == []
  {
    hide Inv, HeapSound, Placed, HistoryOk, WhitesOk, MarkInv, Marked;
    MarkPhaseFacts(StateOf(g));
    ToMarkInv(g);
  }

  method PropagateStep(g: Collector, ghost s: State)
    requires MarkInv(g, {}, g.body.Keys, g.body.Keys) && g.color.Keys == g.body.Keys && SameBut(g, s)
    requires g.gcstate == Propagate && g.gray != []
    modifies g`color, g`gray, g`grayagain, g`weak, g`allweak, g`ephemeron, g`twups
    ensures MarkInv(g, {}, g.body.Keys, g.body.Keys) && g.color.Keys == g.body.Keys && SameBut(g, s)
    ensures g.weak == old(g.weak) && g.allweak == old(g.allweak) && g.ephemeron == old(g.ephemeron)
    ensures old(Marked(g.color)) <= Marked(g.color) <= Live(g.body, old(Marked(g.color)))
    ensures Marked(g.color) == old(Marked(g.color)) ==> g.gray == old(g.gray[1..])
  {
    hide MarkInv, Marked, Live;
    TraverseWithin(g, Live(g.body, Marked(g.color)));
  }

  /** One object is traversed; nothing outside 'up' gets marked, which is what the marks keep alive. */
  method TraverseWithin(g: Collector, ghost up: set<Ref>)
    requires MarkInv(g, {}, g.body.Keys, g.body.Keys) && up == Live(g.body, Marked(g.color))
    requires g.gcstate == Propagate && g.gray != []
    modifies g`color, g`gray, g`grayagain, g`weak, g`allweak, g`ephemeron, g`twups
    ensures MarkInv(g, {}, g.body.Keys, g.body.Keys) && g.color.Keys == g.body.Keys && g.twups == old(g.twups)
    ensures g.weak == old(g.weak) && g.allweak == old(g.allweak) && g.ephemeron == old(g.ephemeron)
    ensures old(Marked(g.color)) <= Marked(g.color) <= up
    ensures Marked(g.color) == old(Marked(g.color)) ==> g.gray == old(g.gray[1..])
  {
    hide *;
    MarkedClosed(g);
    MarkWithin(g, {}, g.body.Keys, g.body.Keys, up);
    PropagateMark(g, {}, g.body.Keys, up);
    ColorKeys(g, {}, g.body.Keys, up);
    MarkAnything(g, {}, g.body.Keys, up);
  }

  /** The propagate phase is over. */
  lemma EnterAtomicKeeps(s: State)
    requires Inv(s) && s.gcstate == Propagate
    ensures Inv(s.(gcstate := EnterAtomic)) && s.(gcstate := EnterAtomic).Kept() == s.Kept()
  {
    hide HeapSound, HistoryOk, Linked, BlackOk, WhitesOk, OneList, CanFinalize, FixedOk, TwupsSound, RootsSound;
    SameSweep(s, EnterAtomic, s.sweepgc);
    assert s.(gcstate := EnterAtomic).Links() == s.Links();
  }

  // ---- The atomic step -------------------------------------------------------------------------------

  /** The invariant of the mark phase is what 'atomic' asks for. */
  lemma AtomicReady(g: Collector)
    requires Inv(StateOf(g)) && g.gcstate == EnterAtomic
    ensures ReadyForAtomic(g, Live(g.body, Roots(g) + Marked(g.color)))
    ensures Elems(g.finobj) + Elems(g.tobefnz) <= g.body.Keys && forall o :: o in g.finobj ==> !IsStr(g.body, o)
    ensures WhitesOk(g.color, g.white) && Roots(g) + Marked(g.color) <= g.body.Keys
  {
    hide *;
    BeforeAtomic(g);
    ToMarkInv(g);
    var init := Roots(g) + Marked(g.color);
    NoDanglingAll(g.body, g.color.Keys);
    LiveIsLeast(g.body, init);
    NarrowMarkInv(g, Live(g.body, init));
    FoldReady(g, Live(g.body, init));
  }

  lemma BeforeAtomic(g: Collector)
    requires Inv(StateOf(g)) && g.gcstate == EnterAtomic
    ensures KeepInvariant(g.gcstate) && HeapSound(g.body, g.color.Keys, g.color.Keys) && WhitesOk(g.color, g.white)
    ensures g.weak == [] && g.allweak == [] && g.ephemeron == [] && TwupsComplete(g.body, g.twups)
    ensures Roots(g) + Marked(g.color) <= g.body.Keys && g.mainthread in Marked(g.color)
    ensures Elems(g.finobj) + Elems(g.tobefnz) <= g.body.Keys && forall o :: o in g.finobj ==> !IsStr(g.body, o)
  {
    hide Linked, BlackOk, HeapSound, HistoryOk, OneList, FixedOk, KeepInvariant;
    KeepsMarks();
    MarkPhaseFacts(StateOf(g));
    assert Roots(g) == StateOf(g).Roots();
  }

  lemma KeepsMarks()
    ensures KeepInvariant(EnterAtomic)
  {
  }

  lemma FoldReady(g: Collector, s: set<Ref>)
    requires g.gcstate == EnterAtomic && MarkInv(g, {}, g.body.Keys, s) && TwupsComplete(g.body, g.twups)
    requires g.weak == [] && g.allweak == [] && g.ephemeron == []
    requires Roots(g) <= g.body.Keys && Roots(g) <= s && g.mainthread in Marked(g.color)
    ensures ReadyForAtomic(g, s)
  {
    hide MarkInv, TwupsComplete, Roots, Marked;
  }

  lemma NoDanglingAll(b: Heap, colored: set<Ref>)
    requires HeapSound(b, colored, colored)
    ensures NoDangling(b) && colored == b.Keys
  {
  }

  lemma NarrowMarkInv(g: Collector, s: set<Ref>)
    requires MarkInv(g, {}, g.body.Keys, g.body.Keys) && Closed(g.body, s) && Marked(g.color) <= s
    ensures MarkInv(g, {}, g.body.Keys, s)
  {
    hide ListsOk, AllOk, Linked, WhitesOk;
  }

  /** What 'atomic' leaves behind, seen from the state before it. */
  ghost predicate AfterAtomic(s: State, s': State, live: set<Ref>)
  {
    && s'.white == !s.white && WhitesOk(s'.color, s.white)
    && HeapOk(s'.body, s'.color.Keys, Marked(s'.color), s'.body.Keys) && HeapShrinks(s.body, s'.body)
    && AllMarked(s'.body, Marked(s'.color), s'.twups) && TwupsMarked(s'.body, Marked(s'.color), s'.twups)
    && s'.Roots() + Elems(s'.lists.finobj) + Elems(s'.lists.tobefnz) <= Marked(s'.color)
    && Marked(s.color) <= Marked(s'.color)
    && s'.lists == s.lists.(finobj := Only(s.lists.finobj, live),
                            tobefnz := s.lists.tobefnz + Only(s.lists.finobj, Elems(s.lists.finobj) - live))
    && s'.main == s.main && s'.current == s.current && s'.registry == s.registry && s'.mt == s.mt
    && s'.history == s.history
  }

  lemma KeptIsMarked(c: Colors, w: bool, s: State)
    requires WhitesOk(c, w) && s.color == c && s.white == !w
    ensures s.Kept() == Marked(c)
  {
  }

  lemma AtomicHeap(b: Heap, colored: set<Ref>, nw: set<Ref>, tw: seq<Ref>)
    requires HeapOk(b, colored, nw, b.Keys) && AllMarked(b, nw, tw)
    ensures HeapSound(b, colored, nw) && colored == b.Keys
  {
  }

  lemma AtomicLists(b: Heap, b': Heap, l: Lists, live: set<Ref>)
    requires OneList(b, l) && b'.Keys == b.Keys
    ensures OneList(b',
                    l.(finobj := Only(l.finobj, live), tobefnz := l.tobefnz + Only(l.finobj, Elems(l.finobj) - live)))
  {
    OnlySplits(l.finobj, live);
    assert multiset(l.tobefnz + Only(l.finobj, Elems(l.finobj) - live)) ==
             multiset(l.tobefnz) + multiset(Only(l.finobj, Elems(l.finobj) - live));
  }

  /** The objects in 'finobj' are looked at in this cycle; those in 'tobefnz' were separated in earlier ones. */
  ghost predicate Separating(l: Lists, h: History)
  {
    && (forall o :: o in l.finobj ==> o in h.stamp && CallOf(h, o).cycle == h.cycle)
    && (forall c :: c in h.log + Waiting(l.tobefnz, h) ==> c.cycle < h.cycle)
  }

  /** The next cycle begins to look at the objects in 'finobj'. */
  ghost function NextCycle(l: Lists, h: History): History
  {
    h.(cycle := h.cycle + 1,
       batch := map o | o in h.batch.Keys + Elems(l.finobj) :: if o in l.finobj then h.cycle + 1 else h.batch[o])
  }

  lemma NextCycleHistory(b: Heap, l: Lists, h: History)
    requires HistoryOk(l, h) && OneList(b, l)
    ensures HistoryOk(l, NextCycle(l, h)) && Separating(l, NextCycle(l, h))
  {
    var h', all := NextCycle(l, h), multiset(l.allgc) + multiset(l.finobj) + multiset(l.tobefnz) + multiset(l.fixedgc);
    forall o | o in l.tobefnz ensures o !in l.finobj {
      assert all[o] <= 1;
    }
    assert Waiting(l.tobefnz, h') == Waiting(l.tobefnz, h);
  }

  lemma NextCycleKeeps(s: State)
    requires Inv(s)
    ensures var s' := s.(history := NextCycle(s.lists, s.history));
            Inv(s') && s'.Kept() == s.Kept() && s'.Roots() == s.Roots() && Separating(s'.lists, s'.history)
  {
    hide HeapSound, HistoryOk, SweepOk, Linked, BlackOk, OneList, Separating, NextCycle;
    var s' := s.(history := NextCycle(s.lists, s.history));
    NextCycleHistory(s.body, s.lists, s.history);
    assert s'.Kept() == s.Kept() && s'.Roots() == s.Roots() && s'.Links() == s.Links();
  }

  method BeginCycle(g: Collector)
    requires Inv(StateOf(g))
    modifies g`batch, g`cycle
    ensures var s := old(StateOf(g)); StateOf(g) == s.(history := NextCycle(s.lists, s.history))
    ensures g.cycle == old(g.cycle) + 1
  {
    ghost var h := NextCycle(StateOf(g).lists, StateOf(g).history);
    g.batch, g.cycle := h.batch, h.cycle;
  }

  /** What a cycle separates comes after what was separated before, and is in the order of 'finobj'. */
  lemma SeparatedInTurn(l: Lists, h: History, dead: set<Ref>)
    requires InTurn(h.log + Waiting(l.tobefnz, h), h.cycle) && Separating(l, h) && Latest(l.finobj, h.stamp, h.clock)
    ensures InTurn(h.log + Waiting(l.tobefnz + Only(l.finobj, dead), h), h.cycle)
  {
    hide Only;
    var out := Only(l.finobj, dead);
    OnlyOrdered(l.finobj, dead, h.stamp);
    var before, separated := h.log + Waiting(l.tobefnz, h), Waiting(out, h);
    assert h.log + Waiting(l.tobefnz + out, h) == before + separated;
    forall i | 0 <= i < |separated| ensures separated[i].cycle == h.cycle && separated[i].stamp == h.stamp[out[i]] {
      assert out[i] in out;
    }
    forall i, j | 0 <= i < j < |before + separated|
      ensures (before + separated)[i].cycle < (before + separated)[j].cycle
              || ((before + separated)[i].cycle == (before + separated)[j].cycle
                  && (before + separated)[i].stamp > (before + separated)[j].stamp)
    {
      if i < |before| { assert before[i] in before; }
    }
  }

  lemma AtomicHistory(l: Lists, h: History, live: set<Ref>)
    requires HistoryOk(l, h) && Separating(l, h)
    ensures HistoryOk(l.(finobj := Only(l.finobj, live),
                         tobefnz := l.tobefnz + Only(l.finobj, Elems(l.finobj) - live)), h)
  {
    hide Only, Latest, InTurn, Waiting, Names, Separating;
    SeparatedInTurn(l, h, Elems(l.finobj) - live);
    var keep, out := Only(l.finobj, live), Only(l.finobj, Elems(l.finobj) - live);
    OnlySplits(l.finobj, live);
    OnlyElems(l.finobj, live);
    OnlyElems(l.finobj, Elems(l.finobj) - live);
    AtomicOrder(l.finobj, live, h);
    ElemsAppend(l.tobefnz, out);
    assert Elems(l.finobj) == Elems(keep) + Elems(out);
    assert multiset(l.tobefnz + out) == multiset(l.tobefnz) + multiset(out);
  }

  lemma AtomicOrder(l: seq<Ref>, live: set<Ref>, h: History)
    requires Latest(l, h.stamp, h.clock)
    ensures Latest(Only(l, live), h.stamp, h.clock)
  {
    OnlyOrdered(l, live, h.stamp);
  }

  /** Objects to be finalized keep their kinds. */
  lemma AtomicKinds(b: Heap, b': Heap, kept: set<Ref>, nw: set<Ref>, c: Colors, l: Lists, live: set<Ref>)
    requires CanFinalize(b, kept, l.finobj) && CanFinalize(b, kept, l.tobefnz) && HeapShrinks(b, b')
    requires Elems(Only(l.finobj, live)) <= nw && Elems(l.tobefnz + Only(l.finobj, Elems(l.finobj) - live)) <= nw
    ensures CanFinalize(b', nw, Only(l.finobj, live))
    ensures CanFinalize(b', nw, l.tobefnz + Only(l.finobj, Elems(l.finobj) - live))
  {
    OnlyElems(l.finobj, live);
    OnlyElems(l.finobj, Elems(l.finobj) - live);
    forall o | o in Only(l.finobj, live) || o in Only(l.finobj, Elems(l.finobj) - live) ensures o in l.finobj {
      assert o in Elems(Only(l.finobj, live)) || o in Elems(Only(l.finobj, Elems(l.finobj) - live));
    }
    forall o | o in l.finobj || o in l.tobefnz ensures b'[o].Table? || b'[o].Udata? {
      assert b'[o] == b[o] || TableShrinks(b[o], b'[o]);
    }
  }

  lemma AtomicFixed(b: Heap, b': Heap, c: Colors, c': Colors, l: seq<Ref>)
    requires FixedOk(b, c, l) && HeapShrinks(b, b') && Marked(c) <= Marked(c')
    ensures FixedOk(b', c', l)
  {
    forall o | o in l ensures o in b' && b'[o].Str? && o in c' && !c'[o].White? {
      assert o in Marked(c);
      assert b'[o] == b[o] || TableShrinks(b[o], b'[o]);
    }
  }

  lemma AtomicRoots(b: Heap, b': Heap, kept: set<Ref>, nw: set<Ref>, main: Ref, current: Ref, roots: set<Ref>)
    requires RootsSound(b, kept, main, current, roots) && HeapShrinks(b, b') && roots <= nw
    ensures RootsSound(b', nw, main, current, roots)
  {
    ShrinkSame(b, b', main);
    ShrinkSame(b, b', current);
  }

  lemma AtomicTwups(b: Heap, nw: set<Ref>, tw: seq<Ref>)
    requires AllMarked(b, nw, tw) && TwupsMarked(b, nw, tw)
    ensures TwupsSound(b, nw, tw)
  {
  }

  /** After 'atomic' the sweep may begin: what is kept is exactly what was marked. */
  lemma AtomicThenSweep(s: State, s': State, live: set<Ref>)
    requires Inv(s) && AfterAtomic(s, s', live) && Separating(s.lists, s.history)
    ensures SweepReady(s') && s'.Kept() == Marked(s'.color)
  {
    hide HeapSound, HeapOk, OneList, HistoryOk, CanFinalize, FixedOk, TwupsSound, TwupsMarked, RootsSound, AllMarked;
    hide HeapShrinks, WhitesOk, PhaseOk, Only, Separating;
    KeptIsMarked(s'.color, s.white, s');
    ShrunkKeys(s.body, s'.body);
    AtomicHeap(s'.body, s'.color.Keys, Marked(s'.color), s'.twups);
    AtomicLists(s.body, s'.body, s.lists, live);
    AtomicHistory(s.lists, s.history, live);
    AtomicKinds(s.body, s'.body, s.Kept(), Marked(s'.color), s'.color, s.lists, live);
    AtomicFixed(s.body, s'.body, s.color, s'.color, s.lists.fixedgc);
    assert s'.Roots() == s.Roots();
    AtomicRoots(s.body, s'.body, s.Kept(), Marked(s'.color), s.main, s.current, s.Roots());
    AtomicTwups(s'.body, Marked(s'.color), s'.twups);
  }

  /** The heap between 'atomic' and the sweep that follows it at once. */
  ghost predicate AtomicHeaps(b: Heap, live: set<Ref>, b': Heap, kept: set<Ref>)
  {
    exists b1: Heap :: HeapAfterAtomic(b, live, b1, kept) && Untouched(b1, b', kept)
  }

  /** Object lists, places and history, apart from what 'atomic' changes. */
  ghost predicate SamePlaces(g: Collector, s: State)
    reads g
  {
    && g.allgc == s.lists.allgc && g.fixedgc == s.lists.fixedgc && g.mainthread == s.main && g.current == s.current
    && g.registry == s.registry && g.mt == s.mt
    && History(g.tofinalize, g.marks, g.calls, g.stamp, g.clock, g.batch, g.cycle, g.log) == s.history
  }

  lemma StateAtomic(g: Collector)
    ensures var s := StateOf(g);
            && SamePlaces(g, s) && s.body == g.body && s.color == g.color && s.white == g.white
            && s.gcstate == g.gcstate
            && s.lists.finobj == g.finobj && s.lists.tobefnz == g.tobefnz && s.Roots() == Roots(g)
  {
    assert StateOf(g).Roots() == Roots(g);
  }

  lemma FoldAfterAtomic(g: Collector, s: State, live: set<Ref>)
    requires SamePlaces(g, s) && g.white == !s.white && WhitesOk(g.color, s.white)
    requires HeapOk(g.body, g.color.Keys, Marked(g.color), g.body.Keys) && HeapShrinks(s.body, g.body)
    requires AllMarked(g.body, Marked(g.color), g.twups) && TwupsMarked(g.body, Marked(g.color), g.twups)
    requires Roots(g) + Elems(g.finobj) + Elems(g.tobefnz) <= Marked(g.color) && Marked(s.color) <= Marked(g.color)
    requires g.finobj == Only(s.lists.finobj, live)
    requires g.tobefnz == s.lists.tobefnz + Only(s.lists.finobj, Elems(s.lists.finobj) - live)
    ensures AfterAtomic(s, StateOf(g), live)
  {
    hide HeapOk, WhitesOk, AllMarked, TwupsMarked, Only, HeapShrinks, Marked, Elems;
    assert StateOf(g).Roots() == Roots(g);
  }

  method AtomicFields(g: Collector, ghost s: State, ghost init: set<Ref>)
    requires SamePlaces(g, s) && g.finobj == s.lists.finobj && g.tobefnz == s.lists.tobefnz
    requires s.body == g.body && s.color == g.color && s.white == g.white
    requires ReadyForAtomic(g, Live(g.body, init)) && init == Roots(g) + Marked(g.color)
    requires Elems(g.finobj) + Elems(g.tobefnz) <= g.body.Keys && forall o :: o in g.finobj ==> !IsStr(g.body, o)
    modifies g`body, g`gcstate, g`color, g`white, g`finobj, g`tobefnz
    modifies g`gray, g`grayagain, g`weak, g`allweak, g`ephemeron, g`twups
    ensures SamePlaces(g, s) && AfterAtomic(s, StateOf(g), Live(s.body, init))
    ensures HeapAfterAtomic(s.body, Live(s.body, init), g.body, Marked(g.color))
    ensures LiveMarked(s.body, Live(s.body, init), Marked(g.color))
    ensures Revived(s.body, init, Elems(g.tobefnz), Marked(g.color))
  {
    hide ReadyForAtomic, Live, HeapOk, WhitesOk, AllMarked, TwupsMarked, Only, HeapShrinks, Marked, Elems;
    hide HeapAfterAtomic, LiveMarked, AfterAtomic, StateOf, Roots;
    AtomicStep(g, init);
    FoldAfterAtomic(g, s, Live(s.body, init));
  }

  /** 'atomic' with the state that it leaves. */
  method AtomicPhase(g: Collector, ghost s: State, ghost init: set<Ref>)
    requires Inv(s) && StateOf(g) == s && g.gcstate == EnterAtomic && init == Roots(g) + Marked(g.color)
    requires Separating(s.lists, s.history)
    modifies g`body, g`gcstate, g`color, g`white, g`finobj, g`tobefnz
    modifies g`gray, g`grayagain, g`weak, g`allweak, g`ephemeron, g`twups
    ensures AfterAtomic(s, StateOf(g), Live(s.body, init)) && SweepReady(StateOf(g))
    ensures HeapAfterAtomic(s.body, Live(s.body, init), g.body, StateOf(g).Kept())
    ensures LiveMarked(s.body, Live(s.body, init), StateOf(g).Kept())
    ensures Revived(s.body, init, Elems(g.tobefnz), StateOf(g).Kept())
  {
    hide *;
    AtomicReady(g);
    StateAtomic(g);
    AtomicFields(g, s, init);
    StateAtomic(g);
    AtomicThenSweep(s, StateOf(g), Live(s.body, init));
  }

  /** The atomic step of 'singlestep': 'atomic', and then 'entersweep'. */
  method AtomicAndSweep(g: Collector, ghost s: State, ghost init: set<Ref>)
    requires Inv(s) && StateOf(g) == s && g.gcstate == EnterAtomic && init == Roots(g) + Marked(g.color)
    requires Separating(s.lists, s.history)
    modifies g`body, g`gcstate, g`color, g`white, g`allgc, g`finobj, g`tobefnz, g`sweepgc
    modifies g`gray, g`grayagain, g`weak, g`allweak, g`ephemeron, g`twups
    ensures Inv(StateOf(g)) && g.gcstate == SwpAllGc
    ensures AtomicHeaps(s.body, Live(s.body, init), g.body, StateOf(g).Kept())
    ensures LiveMarked(s.body, Live(s.body, init), StateOf(g).Kept())
    ensures Revived(s.body, init, Elems(g.tobefnz), StateOf(g).Kept())
    ensures g.finobj == Only(s.lists.finobj, Live(s.body, init))
    ensures g.tobefnz == s.lists.tobefnz + Only(s.lists.finobj, Elems(s.lists.finobj) - Live(s.body, init))
  {
    hide *;
    AtomicPhase(g, s, init);
    ghost var b1 := g.body;
    AtomicListsAre(g, s, Live(s.body, init));
    EnterSweep(g);
    FoldHeaps(s.body, Live(s.body, init), b1, g.body, StateOf(g).Kept());
  }

  lemma AtomicListsAre(g: Collector, s: State, live: set<Ref>)
    requires AfterAtomic(s, StateOf(g), live)
    ensures g.finobj == Only(s.lists.finobj, live)
    ensures g.tobefnz == s.lists.tobefnz + Only(s.lists.finobj, Elems(s.lists.finobj) - live)
  {
  }

  lemma FoldHeaps(b: Heap, live: set<Ref>, b1: Heap, b': Heap, kept: set<Ref>)
    requires HeapAfterAtomic(b, live, b1, kept) && Untouched(b1, b', kept)
    ensures AtomicHeaps(b, live, b', kept)
  {
  }

  // ---- One step of the collector ---------------------------------------------------------------------

  /** What is kept is closed under the references that keep objects alive. */
  lemma LiveIsKept(s: State)
    requires Inv(s)
    ensures Live(s.body, s.Roots()) <= s.Kept()
  {
    forall o | o in s.Kept() && o in s.body ensures HoldsAt(s.body, s.Kept(), o) {
      KeptHolds(s.body, s.color.Keys, s.Kept(), o);
    }
    assert Closed(s.body, s.Kept());
    forall r | r in Live(s.body, s.Roots()) ensures r in s.Kept() {
      assert InAllClosed(s.body, s.Roots(), r);
    }
  }

  lemma KeptHolds(b: Heap, colored: set<Ref>, kept: set<Ref>, o: Ref)
    requires HeapSound(b, colored, kept) && o in kept && o in b
    ensures HoldsAt(b, kept, o)
  {
    assert Refs(b, o) <= kept;
    if b[o].Table? {
      forall e | e in b[o].node && KeyHolds(b, kept, e) && e.val.Ptr? ensures e.val.r in kept {
        assert e.val.r in Refs(b, o);
      }
    }
  }

  lemma LiveMono(b: Heap, init: set<Ref>, init': set<Ref>)
    requires init <= init' <= b.Keys
    ensures Live(b, init) <= Live(b, init')
  {
    forall r | r in Live(b, init) ensures r in Live(b, init') {
      assert InAllClosed(b, init, r);
      assert InAllClosed(b, init', r);
    }
  }

  /**
   No step frees an object that is strongly accessible from the roots, whether or not it was marked yet,
   or one that waits for its finalizer to be called.  (Strings that only a cleared entry of a weak table
   refers to are not among them.)
   */
  ghost predicate NothingLost(s: State, b': Heap)
  {
    && (forall r :: r in Live(s.body, s.Roots()) && !IsStr(s.body, r) ==> r in b')
    && (forall r :: r in s.lists.finobj || r in s.lists.tobefnz || r in s.lists.fixedgc ==> r in b')
  }

  /**
   A step of the collector may make body 'y' of the object 'r', which the program can get to: the same, but that
   an upvalue whose thread is gone is closed with its value, a weak table loses entries whose values or keys the
   program cannot get to, and the running thread gets the object to be finalized.
   */
  ghost predicate SameBody(s: State, r: Ref, y: Body)
    requires r in s.body
  {
    var live := Live(s.body, s.Roots());
    || y == s.body[r]
    || (s.body[r].OpenUpVal? && y == ClosedUpVal(Content(s.body, r)))
    || LossOk(s.body, live, live, s.body[r], y)
    || (r == s.current && s.body[r].Thread? && s.lists.tobefnz != []
        && y == s.body[r].(stack := s.body[r].stack + [Ptr(s.lists.tobefnz[0])]))
  }

  ghost predicate BodiesKept(s: State, b': Heap)
  {
    forall r :: r in Live(s.body, s.Roots()) && r in s.body && r in b' ==> SameBody(s, r, b'[r])
  }

  lemma BodiesSame(s: State)
    ensures BodiesKept(s, s.body)
  {
  }

  lemma BodiesSwept(s: State, b': Heap)
    requires Inv(s) && Untouched(s.body, b', s.Kept())
    ensures BodiesKept(s, b')
  {
    LiveIsKept(s);
    hide Inv, Live;
    forall r | r in Live(s.body, s.Roots()) && r in s.body && r in b' ensures SameBody(s, r, b'[r]) {
      assert SameObject(s.body, b', s.Kept(), r);
    }
  }

  lemma BodiesHanded(s: State, b': Heap)
    requires s.current in s.body && s.body[s.current].Thread? && s.lists.tobefnz != []
    requires var x := s.body[s.current]; b' == s.body[s.current := x.(stack := x.stack + [Ptr(s.lists.tobefnz[0])])]
    ensures BodiesKept(s, b')
  {
    hide Live;
  }

  /** What is lost to a set is lost to a smaller one. */
  lemma LossMono(b: Heap, nv: set<Ref>, nk: set<Ref>, live: set<Ref>, t: Body, t': Body)
    requires LossOk(b, nv, nk, t, t') && live <= nv && forall r :: r in live && !IsStr(b, r) ==> r in nk
    ensures LossOk(b, live, live, t, t')
  {
  }

  lemma BodiesAtomic(s: State, init: set<Ref>, kept: set<Ref>, b': Heap)
    requires s.Roots() <= init <= s.body.Keys
    requires AtomicHeaps(s.body, Live(s.body, init), b', kept) && LiveMarked(s.body, Live(s.body, init), kept)
    ensures BodiesKept(s, b')
  {
    var all, live := Live(s.body, init), Live(s.body, s.Roots());
    LiveMono(s.body, s.Roots(), init);
    var b1 :| HeapAfterAtomic(s.body, all, b1, kept) && Untouched(b1, b', kept);
    hide Live;
    forall r | r in live && r in s.body && r in b' ensures SameBody(s, r, b'[r]) {
      assert SameObject(b1, b', kept, r);
      ShrinkSame(s.body, b1, r);
      BodyAtomic(s.body, all, live, kept, b1, b', r);
    }
  }

  lemma BodyAtomic(b: Heap, all: set<Ref>, live: set<Ref>, kept: set<Ref>, b1: Heap, b': Heap, r: Ref)
    requires HeapAfterAtomic(b, all, b1, kept) && live <= all && LiveMarked(b, all, kept)
    requires r in live && r in b && r in b1 && r in b' && SameObject(b1, b', kept, r)
    ensures b'[r] == b[r] || (b[r].OpenUpVal? && b'[r] == ClosedUpVal(Content(b, r)))
            || LossOk(b, live, live, b[r], b'[r])
  {
    ShrinkSame(b, b1, r);
    if b[r].OpenUpVal? {
      if b[r].th in b { ShrinkSame(b, b1, b[r].th); }
    } else if b[r].Table? && b1[r] != b[r] {
      LossMono(b, all, kept, live, b[r], b1[r]);
    }
  }

  lemma KeptNotLost(s: State, b': Heap)
    requires Inv(s) && s.Kept() * s.body.Keys <= b'.Keys
    ensures NothingLost(s, b')
  {
    LiveIsKept(s);
    forall r | r in s.lists.finobj || r in s.lists.tobefnz || r in s.lists.fixedgc
      ensures r in s.Kept() && r in s.body
    {
    }
  }

  lemma AtomicNotLost(s: State, init: set<Ref>, kept: set<Ref>, s': State)
    requires Inv(s) && KeepInvariant(s.gcstate) && s.Roots() <= init <= s.body.Keys
    requires LiveMarked(s.body, Live(s.body, init), kept)
    requires Inv(s') && kept == s'.Kept()
    requires s'.lists.finobj == Only(s.lists.finobj, Live(s.body, init)) && s'.lists.fixedgc == s.lists.fixedgc
    requires s'.lists.tobefnz == s.lists.tobefnz + Only(s.lists.finobj, Elems(s.lists.finobj) - Live(s.body, init))
    ensures NothingLost(s, s'.body)
  {
    hide *;
    LiveMono(s.body, s.Roots(), init);
    KeptHere(s');
    SplitKept(s.lists.finobj, Live(s.body, init));
    forall r | r in s.lists.finobj || r in s.lists.tobefnz || r in s.lists.fixedgc ensures r in s'.body {
      ListedHere(s', r);
    }
    forall r | r in Live(s.body, s.Roots()) && !IsStr(s.body, r) ensures r in s'.body {
      MarkedHere(s.body, Live(s.body, init), kept, r);
    }
    FoldNotLost(s, s'.body);
  }

  lemma MarkedHere(b: Heap, live: set<Ref>, kept: set<Ref>, r: Ref)
    requires LiveMarked(b, live, kept) && r in live && !IsStr(b, r)
    ensures r in kept
  {
  }

  lemma KeptHere(s: State)
    requires Inv(s)
    ensures s.Kept() <= s.body.Keys
  {
    InvUpvals(s);
  }

  lemma ListedHere(s: State, r: Ref)
    requires Inv(s) && (r in s.lists.finobj || r in s.lists.tobefnz || r in s.lists.fixedgc)
    ensures r in s.body
  {
    hide HeapSound, PhaseOk, HistoryOk;
    var l := s.lists;
    assert multiset(l.finobj)[r] > 0 || multiset(l.tobefnz)[r] > 0 || multiset(l.fixedgc)[r] > 0;
    assert r in multiset(s.body.Keys);
  }

  /** Each object of 'fin' is in one of the two parts. */
  lemma SplitKept(fin: seq<Ref>, live: set<Ref>)
    ensures forall r :: r in fin ==> r in Only(fin, live) || r in Only(fin, Elems(fin) - live)
  {
    OnlyElems(fin, live);
    OnlyElems(fin, Elems(fin) - live);
    forall r | r in fin ensures r in Only(fin, live) || r in Only(fin, Elems(fin) - live) {
      assert r in Elems(Only(fin, live)) || r in Elems(Only(fin, Elems(fin) - live));
    }
  }

  lemma FoldNotLost(s: State, b': Heap)
    requires forall r :: r in Live(s.body, s.Roots()) && !IsStr(s.body, r) ==> r in b'
    requires forall r :: r in s.lists.finobj || r in s.lists.tobefnz || r in s.lists.fixedgc ==> r in b'
    ensures NothingLost(s, b')
  {
  }

  lemma InitFacts(g: Collector)
    requires Inv(StateOf(g)) && g.gcstate == EnterAtomic
    ensures KeepInvariant(StateOf(g).gcstate) && StateOf(g).Roots() == Roots(g)
    ensures Roots(g) + Marked(g.color) <= StateOf(g).body.Keys
  {
    AtomicReady(g);
  }

  /**
   The atomic step separates the objects that have finalizers and are not alive, after those that wait; and what is
   kept is, up to strings, what the roots, the marks and the separated objects keep alive.
   */
  ghost predicate AtomicDone(s: State, t: State)
  {
    var init := s.Roots() + Marked(s.color);
    && t.gcstate == SwpAllGc && t.lists.fixedgc == s.lists.fixedgc && t.history.log == s.history.log
    && t.lists.finobj == Only(s.lists.finobj, Live(s.body, init))
    && t.lists.tobefnz == s.lists.tobefnz + Dead(s.lists.finobj, Live(s.body, init))
    && Revived(s.body, init, Elems(t.lists.tobefnz), t.Kept()) && t.body.Keys <= s.body.Keys
  }

  lemma AtomicDoneIs(s: State, t: State, init: set<Ref>)
    requires init == s.Roots() + Marked(s.color) && t.gcstate == SwpAllGc && t.lists.fixedgc == s.lists.fixedgc
    requires t.history.log == s.history.log && t.lists.finobj == Only(s.lists.finobj, Live(s.body, init))
    requires t.lists.tobefnz == s.lists.tobefnz + Dead(s.lists.finobj, Live(s.body, init))
    requires Revived(s.body, init, Elems(t.lists.tobefnz), t.Kept())
    requires AtomicHeaps(s.body, Live(s.body, init), t.body, t.Kept())
    ensures AtomicDone(s, t)
  {
    hide Live, Marked, Only, Dead, Revived, Elems, WeakValuesLive, OnlyLost;
  }

  method AtomicInCycle(g: Collector)
    requires Inv(StateOf(g)) && g.gcstate == EnterAtomic && Separating(StateOf(g).lists, StateOf(g).history)
    modifies g`body, g`gcstate, g`color, g`white, g`allgc, g`finobj, g`tobefnz, g`sweepgc
    modifies g`gray, g`grayagain, g`weak, g`allweak, g`ephemeron, g`twups
    ensures Inv(StateOf(g)) && g.gcstate == SwpAllGc && NothingLost(old(StateOf(g)), g.body)
    ensures BodiesKept(old(StateOf(g)), g.body)
    ensures ghost var b, live := old(g.body), Live(old(g.body), old(Roots(g) + Marked(g.color)));
            AtomicHeaps(b, live, g.body, StateOf(g).Kept()) && g.tobefnz == old(g.tobefnz) + Dead(old(g.finobj), live)
    ensures AtomicDone(old(StateOf(g)), StateOf(g))
  {
    hide *;
    ghost var s, init := StateOf(g), Roots(g) + Marked(g.color);
    StateAtomic(g);
    InitFacts(g);
    AtomicAndSweep(g, s, init);
    StateAtomic(g);
    DeadIs(s.lists.finobj, Live(s.body, init));
    AtomicNotLost(s, init, StateOf(g).Kept(), StateOf(g));
    BodiesAtomic(s, init, StateOf(g).Kept(), g.body);
    SamePlacesIs(g, s);
    AtomicDoneIs(s, StateOf(g), init);
  }

  lemma SamePlacesIs(g: Collector, s: State)
    requires g.fixedgc == s.lists.fixedgc && g.log == s.history.log
    ensures StateOf(g).lists.fixedgc == s.lists.fixedgc && StateOf(g).history.log == s.history.log
  {
  }

  /** The objects of a list that are not alive, in its order. */
  ghost function Dead(l: seq<Ref>, live: set<Ref>): seq<Ref>
  {
    Only(l, Elems(l) - live)
  }

  lemma DeadIs(l: seq<Ref>, live: set<Ref>)
    ensures Dead(l, live) == Only(l, Elems(l) - live)
  {
  }

  /** The step from 'enteratomic'. */
  method AtomicStepSafe(g: Collector)
    requires Inv(StateOf(g)) && g.gcstate == EnterAtomic
    modifies g`body, g`gcstate, g`color, g`white, g`allgc, g`finobj, g`tobefnz, g`sweepgc, g`batch, g`cycle
    modifies g`gray, g`grayagain, g`weak, g`allweak, g`ephemeron, g`twups
    ensures Inv(StateOf(g)) && g.gcstate == SwpAllGc && NothingLost(old(StateOf(g)), g.body)
    ensures BodiesKept(old(StateOf(g)), g.body)
    ensures ghost var b, live := old(g.body), Live(old(g.body), old(Roots(g) + Marked(g.color)));
            AtomicHeaps(b, live, g.body, StateOf(g).Kept()) && g.tobefnz == old(g.tobefnz) + Dead(old(g.finobj), live)
    ensures g.cycle == old(g.cycle) + 1 && AtomicDone(old(StateOf(g)), StateOf(g))
  {
    hide *;
    ghost var s := StateOf(g);
    StateAtomic(g);
    NextCycleKeeps(s);
    BeginCycle(g);
    StateAtomic(g);
    CycleFields(s, StateOf(g));
    ghost var s' := StateOf(g);
    AtomicInCycle(g);
    SameLost(s, s', g.body);
    SameDone(s, s', StateOf(g));
  }

  lemma SameDone(s: State, s': State, t: State)
    requires AtomicDone(s', t) && s' == s.(history := NextCycle(s.lists, s.history))
    ensures AtomicDone(s, t)
  {
    hide Live, Marked, Only, Dead, Revived, Elems;
    assert s'.Roots() == s.Roots();
  }

  lemma CycleFields(s: State, s': State)
    requires s' == s.(history := NextCycle(s.lists, s.history)) && s'.Roots() == s.Roots()
    ensures s'.body == s.body && s'.lists == s.lists && s'.gcstate == s.gcstate && s'.color == s.color
    ensures s'.current == s.current
    ensures s'.history.cycle == s.history.cycle + 1
  {
  }

  lemma SameLost(s: State, s': State, b: Heap)
    requires NothingLost(s', b) && s'.body == s.body && s'.lists == s.lists && s'.Roots() == s.Roots()
    requires BodiesKept(s', b) && s'.current == s.current
    ensures NothingLost(s, b) && BodiesKept(s, b)
  {
  }

  lemma CallFinKeeps(s: State)
    requires Inv(s)
    ensures s.gcstate == SwpEnd ==> Inv(s.(gcstate := CallFin))
    ensures s.gcstate == CallFin ==> Inv(s.(gcstate := Pause))
  {
    hide HeapSound, HistoryOk, AllWhite, OneList, CanFinalize, FixedOk, TwupsSound, RootsSound;
    SameSweep(s, CallFin, s.sweepgc);
    SameSweep(s, Pause, s.sweepgc);
  }

  function NextGcState(st: GcState): GcState
  {
    match st
    case Propagate => EnterAtomic
    case SwpEnd => CallFin
    case CallFin => Pause
    case _ => st
  }

  /** The state after a phase that is over. */
  method NextState(g: Collector)
    requires Inv(StateOf(g)) && g.gcstate in {Propagate, SwpEnd, CallFin}
    modifies g`gcstate
    ensures Inv(StateOf(g)) && StateOf(g) == old(StateOf(g)).(gcstate := NextGcState(old(g.gcstate)))
  {
    hide Inv;
    match g.gcstate {
      case Propagate =>
        EnterAtomicKeeps(StateOf(g));
        g.gcstate := EnterAtomic;
      case SwpEnd =>
        CallFinKeeps(StateOf(g));
        g.gcstate := CallFin;
      case CallFin =>
        CallFinKeeps(StateOf(g));
        g.gcstate := Pause;
    }
  }

  lemma UntouchedKeys(b: Heap, b': Heap, kept: set<Ref>)
    requires Untouched(b, b', kept)
    ensures kept * b.Keys <= b'.Keys <= b.Keys
  {
  }

  /** What every step of the collector keeps. */
  ghost predicate Stepped(s: State, s': State)
  {
    && Inv(s') && NothingLost(s, s'.body) && BodiesKept(s, s'.body) && s'.history.marks == s.history.marks
    && s'.main == s.main && s'.current == s.current && s'.registry == s.registry && s'.mt == s.mt
  }

  lemma SteppedIf(s: State, g: Collector)
    requires Inv(s) && Inv(StateOf(g)) && s.Kept() * s.body.Keys <= g.body.Keys && g.marks == s.history.marks
    requires g.mainthread == s.main && g.current == s.current && g.registry == s.registry && g.mt == s.mt
    requires BodiesKept(s, g.body)
    ensures Stepped(s, StateOf(g))
  {
    hide Inv, NothingLost, BodiesKept;
    KeptNotLost(s, g.body);
  }

  /** A step while marking: one object is traversed, or with none left, or in a hurry, this phase is over. */
  ghost predicate MarkedOn(s: State, t: State, fast: bool)
  {
    if s.gcstate == Pause then Restarted(s, t)
    else if fast || s.grays.gray == [] then t == s.(gcstate := EnterAtomic)
    else Traversed(s, t)
  }

  method StepMark(g: Collector, fast: bool)
    requires Inv(StateOf(g)) && (g.gcstate == Pause || g.gcstate == Propagate)
    modifies g`gcstate, g`color, g`gray, g`grayagain, g`weak, g`allweak, g`ephemeron, g`twups
    ensures Stepped(old(StateOf(g)), StateOf(g)) && MarkedOn(old(StateOf(g)), StateOf(g), fast)
  {
    hide Inv, Stepped, BodiesKept, Restarted, Traversed;
    ghost var s := StateOf(g);
    if g.gcstate == Pause {
      RestartCollection(g);
    } else if fast || g.gray == [] {
      NextState(g);
    } else {
      PropagateOne(g);
    }
    SteppedSame(s, g);
  }

  /** A step that changes no object. */
  lemma SteppedSame(s: State, g: Collector)
    requires Inv(s) && Inv(StateOf(g)) && g.body == s.body && g.marks == s.history.marks
    requires g.mainthread == s.main && g.current == s.current && g.registry == s.registry && g.mt == s.mt
    ensures Stepped(s, StateOf(g))
  {
    hide Inv, NothingLost, BodiesKept, Stepped;
    BodiesSame(s);
    SteppedIf(s, g);
  }

  method StepAtomic(g: Collector)
    requires Inv(StateOf(g)) && g.gcstate == EnterAtomic
    modifies g`body, g`gcstate, g`color, g`white, g`allgc, g`finobj, g`tobefnz, g`sweepgc, g`batch, g`cycle
    modifies g`gray, g`grayagain, g`weak, g`allweak, g`ephemeron, g`twups
    ensures Stepped(old(StateOf(g)), StateOf(g)) && AtomicDone(old(StateOf(g)), StateOf(g))
  {
    hide *;
    ghost var s := StateOf(g);
    StateSweep(g);
    AtomicStepSafe(g);
    StateSweep(g);
    FoldStepped(s, StateOf(g));
  }

  lemma FoldStepped(s: State, t: State)
    requires Inv(t) && NothingLost(s, t.body) && BodiesKept(s, t.body) && t.history.marks == s.history.marks
    requires t.main == s.main && t.current == s.current && t.registry == s.registry && t.mt == s.mt
    ensures Stepped(s, t)
  {
    hide Inv, NothingLost, BodiesKept;
  }

  /**
   A sweep step: a part of the list, or in a hurry all of it, is swept; or, when there is nothing left to sweep in it,
   the next list comes.  What is kept stays so.
   */
  ghost predicate SweptOn(s: State, t: State, fast: bool)
  {
    && t.Kept() == s.Kept() && t.lists == s.lists.(allgc := t.lists.allgc) && t.history == s.history
    && t.body.Keys <= s.body.Keys
    && var left, left' := SweepLeft(s.gcstate, s.lists, s.sweepgc), SweepLeft(t.gcstate, t.lists, t.sweepgc);
       if s.sweepgc == NoLink then NextListFrom(s, t)
       else && t.gcstate == s.gcstate && (t.sweepgc == NoLink <==> left' == 0)
            && left' == if fast || left <= GCSWEEPMAX + 1 then 0 else left - GCSWEEPMAX
  }

  method StepSweep(g: Collector, fast: bool)
    requires Inv(StateOf(g)) && g.gcstate in {SwpAllGc, SwpFinObj, SwpToBeFnz}
    modifies g`body, g`gcstate, g`color, g`allgc, g`finobj, g`tobefnz, g`sweepgc, g`gray
    ensures Stepped(old(StateOf(g)), StateOf(g)) && SweptOn(old(StateOf(g)), StateOf(g), fast)
  {
    hide *;
    ghost var s := StateOf(g);
    StateSweep(g);
    SweepStep(g, fast);
    StateSweep(g);
    UntouchedKeys(s.body, g.body, s.Kept());
    BodiesSwept(s, g.body);
    SteppedIf(s, g);
    FoldSwept(s, StateOf(g), fast);
  }

  lemma StateSweep(g: Collector)
    ensures var s := StateOf(g);
            && s.body == g.body && s.gcstate == g.gcstate && s.sweepgc == g.sweepgc && s.registry == g.registry
            && s.mt == g.mt && s.main == g.mainthread && s.current == g.current
            && s.lists == Lists(g.allgc, g.finobj, g.tobefnz, g.fixedgc)
            && s.history == History(g.tofinalize, g.marks, g.calls, g.stamp, g.clock, g.batch, g.cycle, g.log)
    ensures LeftToSweep(g) == SweepLeft(g.gcstate, StateOf(g).lists, g.sweepgc)
    ensures InSweep(g.gcstate) <==> g.gcstate in {SwpAllGc, SwpFinObj, SwpToBeFnz}
  {
    hide Position;
  }

  lemma FoldSwept(s: State, t: State, fast: bool)
    requires t.Kept() == s.Kept() && t.lists == s.lists.(allgc := t.lists.allgc) && t.history == s.history
    requires t.body.Keys <= s.body.Keys && (s.sweepgc == NoLink ==> NextListFrom(s, t))
    requires var left, left' := SweepLeft(s.gcstate, s.lists, s.sweepgc), SweepLeft(t.gcstate, t.lists, t.sweepgc);
             s.sweepgc != NoLink ==>
               && t.gcstate == s.gcstate && (t.sweepgc == NoLink <==> left' == 0)
               && left' == if fast || left <= GCSWEEPMAX + 1 then 0 else left - GCSWEEPMAX
    ensures SweptOn(s, t, fast)
  {
    hide NextListFrom, SweepLeft;
  }

  /** The end of a collection: one object that waits is handed to its finalizer, or there is a pause. */
  ghost predicate FinishedOn(s: State, t: State, canCall: bool)
  {
    if s.gcstate == SwpEnd then t == s.(gcstate := CallFin)
    else if s.lists.tobefnz != [] && canCall then
      var o := s.lists.tobefnz[0];
      && t.gcstate == CallFin && t.lists.tobefnz == s.lists.tobefnz[1..] && t.lists.fixedgc == s.lists.fixedgc
      && t.history.log == s.history.log + [CallOf(s.history, o)] && t.body.Keys == s.body.Keys
    else t == s.(gcstate := Pause)
  }

  method StepFinish(g: Collector, canCall: bool)
    requires Inv(StateOf(g)) && (g.gcstate == SwpEnd || g.gcstate == CallFin)
    modifies g`gcstate, g`body, g`color, g`allgc, g`tobefnz, g`tofinalize, g`calls, g`log
    ensures Stepped(old(StateOf(g)), StateOf(g)) && FinishedOn(old(StateOf(g)), StateOf(g), canCall)
  {
    hide Inv, Stepped, BodiesKept;
    ghost var s := StateOf(g);
    if g.gcstate == CallFin && g.tobefnz != [] && canCall {
      var o := CallFinalizer(g);
      BodiesHanded(s, g.body);
      assert g.body.Keys == s.body.Keys;
    } else {
      NextState(g);
      BodiesSame(s);
    }
    SteppedIf(s, g);
  }

  /** What a step does in each state: every one gets the collection further. */
  ghost predicate Advances(s: State, t: State, fast: bool, canCall: bool)
  {
    match s.gcstate
    case Pause | Propagate => MarkedOn(s, t, fast)
    case EnterAtomic => AtomicDone(s, t)
    case SwpAllGc | SwpFinObj | SwpToBeFnz => SweptOn(s, t, fast)
    case SwpEnd | CallFin => FinishedOn(s, t, canCall)
    case Atomic => false
  }

  /**
   singlestep.  'fast' skips the propagate phase; 'canCall' tells whether a finalizer can be called now,
   that is, the collection is not an emergency one and there is stack for the call.
   */
  method SingleStep(g: Collector, fast: bool, canCall: bool)
    requires Inv(StateOf(g))
    modifies g
    ensures Inv(StateOf(g)) && Stepped(old(StateOf(g)), StateOf(g))
    ensures Advances(old(StateOf(g)), StateOf(g), fast, canCall)
  {
    hide *;
    ghost var s := StateOf(g);
    InvRunning(g);
    StateAtomic(g);
    match g.gcstate {
      case Pause | Propagate => StepMark(g, fast);
      case EnterAtomic => StepAtomic(g);
      case SwpAllGc | SwpFinObj | SwpToBeFnz => StepSweep(g, fast);
      case SwpEnd | CallFin => StepFinish(g, canCall);
      case Atomic =>
    }
    SteppedInv(s, StateOf(g));
    AdvancesIf(s, StateOf(g), fast, canCall);
  }

  lemma AdvancesIf(s: State, t: State, fast: bool, canCall: bool)
    requires s.gcstate in {Pause, Propagate} ==> MarkedOn(s, t, fast)
    requires s.gcstate == EnterAtomic ==> AtomicDone(s, t)
    requires s.gcstate in {SwpAllGc, SwpFinObj, SwpToBeFnz} ==> SweptOn(s, t, fast)
    requires s.gcstate in {SwpEnd, CallFin} ==> FinishedOn(s, t, canCall)
    requires s.gcstate != Atomic
    ensures Advances(s, t, fast, canCall)
  {
    hide MarkedOn, AtomicDone, SweptOn, FinishedOn;
  }

  lemma SteppedInv(s: State, s': State)
    requires Stepped(s, s')
    ensures Inv(s')
  {
    hide Inv;
  }

  lemma InvRunning(g: Collector)
    requires Inv(StateOf(g))
    ensures g.gcstate != Atomic
  {
  }

  lemma AbandonReady(s: State)
    requires Inv(s) && KeepInvariant(s.gcstate)
    ensures SweepReady(s) && s.Kept() == s.body.Keys
  {
    MarkPhaseFacts(s);
  }

  lemma UntouchedAll(b: Heap, b': Heap)
    requires Untouched(b, b', b.Keys) && forall o :: o in b ==> UpvalOk(b, o)
    ensures b' == b
  {
    forall p | p in b' ensures b'[p] == b[p] {
      assert SameObject(b, b', b.Keys, p) && UpvalOk(b, p);
    }
  }

  /** The start of fullinc: black objects are swept back to white; as the white did not change, nothing is freed. */
  method AbandonMarking(g: Collector)
    requires Inv(StateOf(g)) && KeepInvariant(g.gcstate)
    modifies g`gcstate, g`body, g`color, g`gray, g`allgc, g`sweepgc
    ensures Inv(StateOf(g)) && g.gcstate == SwpAllGc && g.body == old(g.body)
  {
    hide Inv, Untouched, HeapSound, UpvalOk, SweepReady, KeepInvariant;
    AbandonReady(StateOf(g));
    InvUpvals(StateOf(g));
    EnterSweep(g);
    UntouchedAll(old(g.body), g.body);
  }

  /** Each object is handed to its finalizer at most once for each time it was marked for finalization. */
  lemma FinalizedOnce(s: State, o: Ref)
    requires Inv(s)
    ensures s.history.calls[o] <= s.history.marks[o] <= s.history.calls[o] + 1
    ensures s.history.marks[o] == s.history.calls[o] + 1 <==> o in s.lists.finobj || o in s.lists.tobefnz
  {
    var l := s.lists;
    var all := multiset(l.allgc) + multiset(l.finobj) + multiset(l.tobefnz) + multiset(l.fixedgc);
    assert all[o] <= 1;
    assert s.history.marks[o] == s.history.calls[o] + multiset(l.finobj)[o] + multiset(l.tobefnz)[o];
  }

  /**
   Over a whole run: objects are handed to their finalizers cycle by cycle, and those that one cycle found
   dead in the reverse order of their marks for finalization; the objects that still wait will follow in that order.
   */
  lemma FinalizedInTurn(s: State)
    requires Inv(s)
    ensures s.history.calls == multiset(Names(s.history.log))
    ensures Names(Waiting(s.lists.tobefnz, s.history)) == s.lists.tobefnz
    ensures var cs := s.history.log + Waiting(s.lists.tobefnz, s.history);
            forall i, j :: 0 <= i < j < |cs| ==>
              cs[i].cycle <= cs[j].cycle && (cs[i].cycle == cs[j].cycle ==> cs[i].stamp > cs[j].stamp)
  {
    hide HeapSound, Placed, PhaseOk, Latest;
  }

  /** Once 'allgc' was swept nothing dead is left: the heap is what the last atomic step kept, and newer objects. */
  lemma NoDeadLeft(s: State)
    requires Inv(s) && s.gcstate != SwpAllGc
    ensures s.Kept() == s.body.Keys
  {
    InvUpvals(s);
    if KeepInvariant(s.gcstate) {
      KeptAll(s);
    } else {
      forall o | o in s.body ensures o in s.Kept() {
        InSomeList(s, o);
      }
    }
  }

  lemma InSomeList(s: State, o: Ref)
    requires Inv(s) && o in s.body
    ensures o in s.lists.allgc || o in s.lists.finobj || o in s.lists.tobefnz || o in s.lists.fixedgc
  {
    var l := s.lists;
    assert o in multiset(s.body.Keys);
    assert o in multiset(l.allgc) + multiset(l.finobj) + multiset(l.tobefnz) + multiset(l.fixedgc);
  }
}
