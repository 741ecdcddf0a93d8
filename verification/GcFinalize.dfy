/**
 Objects with finalizers (lgc.c, "luaC_checkfinalizer", "udata2finalize", "GCTM"): they move from
 'allgc' to 'finobj' when marked for finalization, to 'tobefnz' when they die, and back to 'allgc'
 when their finalizer is called.
 */
module GcFinalize {
  import opened GcHeap
  import opened GcMark
  import opened GcAtomic
  import opened GcPhase
  import opened GcMutator
  import opened GcAlloc
  import opened GcSweep

  // ---- Moving an object to 'finobj' ------------------------------------------------------------------

  /** An object without the bit and that may have a finalizer is in 'allgc'. */
  lemma InAllGc(s: State, o: Ref)
    requires Inv(s) && o in s.body && !s.body[o].Str? && o !in s.history.bit
    ensures o in s.lists.allgc && o !in s.lists.finobj && o !in s.lists.tobefnz
  {
    var l := s.lists;
    assert o in multiset(s.body.Keys);
    assert o in multiset(l.allgc) + multiset(l.finobj) + multiset(l.tobefnz) + multiset(l.fixedgc);
  }

  ghost function MarkedIn(h: History, o: Ref): History
  {
    h.(bit := h.bit + {o}, marks := h.marks + multiset{o}, stamp := h.stamp[o := h.clock], clock := h.clock + 1)
  }

  /** The object at index 'j' of 'allgc' moves to the head of 'finobj' and gets its bit. */
  ghost function Moved(s: State, j: nat): State
    requires j < |s.lists.allgc|
  {
    var o := s.lists.allgc[j];
    s.(lists := s.lists.(allgc := s.lists.allgc[..j] + s.lists.allgc[j + 1..], finobj := [o] + s.lists.finobj),
       history := MarkedIn(s.history, o))
  }

  lemma MovedList(b: Heap, l: Lists, j: nat)
    requires OneList(b, l) && j < |l.allgc|
    ensures OneList(b, l.(allgc := l.allgc[..j] + l.allgc[j + 1..], finobj := [l.allgc[j]] + l.finobj))
  {
    var o := l.allgc[j];
    assert l.allgc == l.allgc[..j] + [o] + l.allgc[j + 1..];
    assert multiset(l.allgc) == multiset(l.allgc[..j] + l.allgc[j + 1..]) + multiset{o};
    assert multiset([o] + l.finobj) == multiset{o} + multiset(l.finobj);
  }

  lemma MovedHistory(l: Lists, h: History, j: nat)
    requires HistoryOk(l, h) && j < |l.allgc| && l.allgc[j] !in l.finobj && l.allgc[j] !in l.tobefnz
    ensures HistoryOk(l.(allgc := l.allgc[..j] + l.allgc[j + 1..], finobj := [l.allgc[j]] + l.finobj),
                      MarkedIn(h, l.allgc[j]))
  {
    hide InTurn, Names, Latest, Waiting;
    var o := l.allgc[j];
    SameWaiting(l.tobefnz, h, o);
    NewestFirst(l.finobj, h.stamp, h.clock, o);
    assert multiset([o] + l.finobj) == multiset{o} + multiset(l.finobj);
    ElemsCons(o, l.finobj);
    assert h.marks + multiset{o} == h.calls + multiset([o] + l.finobj) + multiset(l.tobefnz);
  }

  lemma SameWaiting(l: seq<Ref>, h: History, o: Ref)
    requires o !in l
    ensures Waiting(l, MarkedIn(h, o)) == Waiting(l, h)
  {
  }

  lemma NewestFirst(l: seq<Ref>, stamp: map<Ref, nat>, clock: nat, o: Ref)
    requires Latest(l, stamp, clock) && o !in l
    ensures Latest([o] + l, stamp[o := clock], clock + 1)
  {
    var f, st := [o] + l, stamp[o := clock];
    forall a, z | 0 <= a < z < |f| ensures st[f[a]] > st[f[z]] {
      assert f[z] == l[z - 1] && f[z] in l;
      if a > 0 { assert f[a] == l[a - 1] && f[a] in l; }
    }
  }

  /** Removing an object that the sweep pointer does not point to. */
  lemma SweepingRemove(c: Colors, w: bool, l: seq<Ref>, p: SweepPtr, j: nat)
    requires Sweeping(c, w, l, p) && j < |l| && p != LinkOf(l[j])
    ensures Sweeping(c, w, l[..j] + l[j + 1..], p)
  {
    var l' := l[..j] + l[j + 1..];
    if p != NoLink {
      var i: nat :| SweptUpTo(c, w, l, p, i);
      if j < i {
        assert i >= 2 && l'[i - 2] == l[i - 1];
        assert l'[..i - 1] == l[..j] + l[j + 1..i];
        forall o | o in l'[..i - 1] ensures o in l[..i] {
        }
        assert SweptUpTo(c, w, l', p, i - 1);
      } else {
        assert l'[..i] == l[..i];
        assert SweptUpTo(c, w, l', p, i);
      }
    } else {
      forall o | o in l' ensures o in l {}
    }
  }

  lemma SweepingHead(c: Colors, w: bool, l: seq<Ref>, p: SweepPtr, o: Ref)
    requires Sweeping(c, w, l, p) && o in c && c[o] == White(w)
    ensures Sweeping(c, w, [o] + l, p)
  {
    if p != NoLink {
      var i: nat :| SweptUpTo(c, w, l, p, i);
      if i == 0 {
        assert SweptUpTo(c, w, [o] + l, p, 0);
      } else {
        assert ([o] + l)[..i + 1] == [o] + l[..i];
        assert SweptUpTo(c, w, [o] + l, p, i + 1);
      }
    }
  }

  lemma MovedSweep(s: State, j: nat)
    requires SweepOk(s.gcstate, s.color, s.white, s.sweepgc, s.lists) && j < |s.lists.allgc|
    requires s.lists.allgc[j] in s.color && s.color[s.lists.allgc[j]] == White(s.white)
    requires s.sweepgc != LinkOf(s.lists.allgc[j])
    ensures SweepOk(s.gcstate, s.color, s.white, s.sweepgc, Moved(s, j).lists)
  {
    var o, l := s.lists.allgc[j], s.lists;
    forall x | x in l.allgc[..j] + l.allgc[j + 1..] ensures x in l.allgc {}
    match s.gcstate
    case SwpAllGc => SweepingRemove(s.color, s.white, l.allgc, s.sweepgc, j);
    case SwpFinObj => SweepingHead(s.color, s.white, l.finobj, s.sweepgc, o);
    case SwpToBeFnz =>
    case _ =>
  }

  lemma MovedPlaced(s: State, j: nat)
    requires Placed(s) && j < |s.lists.allgc| && s.lists.allgc[j] in s.Kept() && s.lists.allgc[j] in s.body
    requires s.body[s.lists.allgc[j]].Table? || s.body[s.lists.allgc[j]].Udata?
    ensures Placed(Moved(s, j)) && Moved(s, j).Kept() == s.Kept()
  {
    hide OneList, TwupsSound, FixedOk, RootsSound;
    var s' := Moved(s, j);
    assert s'.Kept() == s.Kept() && s'.Roots() == s.Roots();
    MovedList(s.body, s.lists, j);
  }

  lemma MovedKeeps(s: State, j: nat)
    requires Inv(s) && j < |s.lists.allgc| && s.lists.allgc[j] in s.Kept() && s.lists.allgc[j] in s.body
    requires s.body[s.lists.allgc[j]].Table? || s.body[s.lists.allgc[j]].Udata?
    requires s.lists.allgc[j] !in s.lists.finobj && s.lists.allgc[j] !in s.lists.tobefnz
    requires s.sweepgc != LinkOf(s.lists.allgc[j])
    requires !KeepInvariant(s.gcstate) ==> s.color[s.lists.allgc[j]] == White(s.white)
    ensures Inv(Moved(s, j)) && Moved(s, j).Kept() == s.Kept()
  {
    hide HeapSound, Placed, HistoryOk, SweepOk, Linked, BlackOk;
    MovedPlaced(s, j);
    MovedHistory(s.lists, s.history, j);
    if KeepInvariant(s.gcstate) {
      assert Moved(s, j).Links() == s.Links();
    } else {
      MovedSweep(s, j);
    }
  }

  /** Outside the sweep phases and the marking ones all objects are white. */
  lemma RestWhite(s: State, o: Ref)
    requires Inv(s) && o in s.lists.allgc && !KeepInvariant(s.gcstate) && !IsSweepPhase(s.gcstate)
    ensures o in s.color && s.color[o] == White(s.white) && s.sweepgc == NoLink
  {
  }

  /** The sweep pointer is at an object of 'allgc' only while 'allgc' is being swept. */
  lemma PointerInList(s: State, o: Ref)
    requires Inv(s) && o in s.lists.allgc && s.sweepgc == LinkOf(o)
    ensures s.gcstate == SwpAllGc
  {
    hide *;
    var i: nat :| i < |s.lists.allgc| && s.lists.allgc[i] == o;
    InvSweeps(s);
    CurrentAllGc(s.lists);
    ListObject(s.body, s.lists, SwpAllGc, i);
    SweptList(s.gcstate, s.color, s.white, s.sweepgc, s.lists, o);
  }

  lemma CurrentAllGc(l: Lists)
    ensures Current(SwpAllGc, l) == l.allgc
  {
  }

  lemma InvSweeps(s: State)
    requires Inv(s)
    ensures OneList(s.body, s.lists)
    ensures s.sweepgc != NoLink ==> SweepOk(s.gcstate, s.color, s.white, s.sweepgc, s.lists)
  {
    hide HeapSound, HistoryOk, OneList, CanFinalize, TwupsSound, FixedOk, RootsSound, SweepOk, BlackOk, Linked;
    hide WhitesOk;
  }

  /** The sweep pointer is at an object of the list being swept. */
  lemma SweptList(st: GcState, c: Colors, w: bool, p: SweepPtr, l: Lists, o: Ref)
    requires SweepOk(st, c, w, p, l) && p == LinkOf(o)
    ensures st == SwpAllGc || (st == SwpFinObj && o in l.finobj) || (st == SwpToBeFnz && o in l.tobefnz)
  {
    hide AllWhite;
  }

  lemma WhitenInv(s: State, o: Ref)
    requires Inv(s) && IsSweepPhase(s.gcstate) && o in s.Kept() && o in s.body && !s.body[o].Str?
    ensures Inv(Whitened(s, o)) && Whitened(s, o).Kept() == s.Kept() && o in Whitened(s, o).color
  {
    WhitenKeeps(s, o);
  }

  lemma UntouchedAt(b: Heap, b': Heap, kept: set<Ref>, o: Ref)
    requires Untouched(b, b', kept) && o in kept && o in b && (b[o].Table? || b[o].Udata?)
    ensures o in b' && b'[o] == b[o]
  {
    assert SameObject(b, b', kept, o);
  }

  /** In a sweep phase the object is swept at once, and the sweep pointer steps off it. */
  method SweepObject(g: Collector, o: Ref)
    requires Inv(StateOf(g)) && IsSweepPhase(g.gcstate) && o in StateOf(g).Kept() && o in g.body
    requires (g.body[o].Table? || g.body[o].Udata?) && o !in g.tofinalize
    modifies g`body, g`color, g`gray, g`allgc, g`sweepgc
    ensures Inv(StateOf(g)) && StateOf(g).Kept() == old(StateOf(g).Kept())
    ensures Untouched(old(g.body), g.body, old(StateOf(g).Kept())) && o in g.body && g.body[o] == old(g.body[o])
    ensures o in g.color && g.color[o] == White(g.white) && g.sweepgc != LinkOf(o)
  {
    hide Inv, Untouched, HeapSound;
    ghost var kept := StateOf(g).Kept();
    UntouchedRefl(g.body, kept);
    InAllGc(StateOf(g), o);
    WhitenInv(StateOf(g), o);
    g.color := g.color[o := White(g.white)];
    if g.sweepgc == LinkOf(o) {
      PointerInList(StateOf(g), o);
      SweepToLive(g);
      UntouchedAt(old(g.body), g.body, kept, o);
      assert o in StateOf(g).Kept();
    }
  }

  lemma NotSwept(s: State, o: Ref)
    requires Inv(s) && !IsSweepPhase(s.gcstate) && o in s.body && !s.body[o].Str? && o !in s.history.bit
    ensures !KeepInvariant(s.gcstate) ==> o in s.color && s.color[o] == White(s.white)
    ensures s.sweepgc == NoLink
  {
    InAllGc(s, o);
    if !KeepInvariant(s.gcstate) { RestWhite(s, o); }
  }

  /** Searches 'allgc' for the object, removes it, and links it in 'finobj'. */
  method LinkFinobj(g: Collector, o: Ref)
    requires Inv(StateOf(g)) && o in StateOf(g).Kept() && o in g.body && (g.body[o].Table? || g.body[o].Udata?)
    requires o !in g.tofinalize && g.sweepgc != LinkOf(o)
    requires !KeepInvariant(g.gcstate) ==> o in g.color && g.color[o] == White(g.white)
    modifies g`allgc, g`finobj, g`tofinalize, g`marks, g`stamp, g`clock
    ensures Inv(StateOf(g)) && StateOf(g).Kept() == old(StateOf(g).Kept())
    ensures g.finobj == [o] + old(g.finobj) && g.marks == old(g.marks) + multiset{o} && o in g.tofinalize
  {
    hide Inv, Moved;
    InAllGc(StateOf(g), o);
    var j := IndexOf(g.allgc, o);
    MovedKeeps(StateOf(g), j);
    MovedIs(StateOf(g), j);
    MoveAt(g, j);
  }

  lemma MovedIs(s: State, j: nat)
    requires j < |s.lists.allgc|
    ensures Moved(s, j).lists.finobj == [s.lists.allgc[j]] + s.lists.finobj
    ensures Moved(s, j).history.marks == s.history.marks + multiset{s.lists.allgc[j]}
    ensures s.lists.allgc[j] in Moved(s, j).history.bit
  {
  }

  method MoveAt(g: Collector, j: nat)
    requires j < |g.allgc|
    modifies g`allgc, g`finobj, g`tofinalize, g`marks, g`stamp, g`clock
    ensures StateOf(g) == Moved(old(StateOf(g)), j)
  {
    var o := g.allgc[j];
    SetBit(g, o);
    g.allgc := g.allgc[..j] + g.allgc[j + 1..];
    g.finobj := [o] + g.finobj;
  }

  /** l_setbit(o->marked, FINALIZEDBIT) */
  method SetBit(g: Collector, o: Ref)
    modifies g`tofinalize, g`marks, g`stamp, g`clock
    ensures g.tofinalize == old(g.tofinalize) + {o} && g.marks == old(g.marks) + multiset{o}
    ensures g.stamp == old(g.stamp)[o := old(g.clock)] && g.clock == old(g.clock) + 1
  {
    g.tofinalize := g.tofinalize + {o};
    g.marks := g.marks + multiset{o};
    g.stamp := g.stamp[o := g.clock];
    g.clock := g.clock + 1;
  }

  /** luaC_checkfinalizer: 'hasgc' tells whether the metatable of 'o' has a finalizer. */
  method CheckFinalizer(g: Collector, o: Ref, hasgc: bool)
    requires Inv(StateOf(g)) && o in StateOf(g).Kept() && o in g.body && (g.body[o].Table? || g.body[o].Udata?)
    modifies g`body, g`color, g`gray, g`allgc, g`sweepgc, g`finobj, g`tofinalize, g`marks, g`stamp, g`clock
    ensures Inv(StateOf(g)) && StateOf(g).Kept() == old(StateOf(g).Kept())
    ensures Untouched(old(g.body), g.body, old(StateOf(g).Kept()))
    ensures if o in old(g.tofinalize) || !hasgc then StateOf(g) == old(StateOf(g))
            else g.finobj == [o] + old(g.finobj) && g.marks == old(g.marks) + multiset{o} && o in g.tofinalize
  {
    hide Inv, Untouched, HeapSound, IsSweepPhase, KeepInvariant;
    UntouchedRefl(g.body, StateOf(g).Kept());
    if o in g.tofinalize || !hasgc {
      return;
    }
    if IsSweepPhase(g.gcstate) {
      SweepObject(g, o);
    } else {
      NotSwept(StateOf(g), o);
    }
    LinkFinobj(g, o);
  }

  // ---- Calling finalizers ------------------------------------------------------------------------------

  /** The first object of 'tobefnz' goes back to 'allgc', a normal object again. */
  ghost function Handed(s: State): State
    requires s.lists.tobefnz != []
  {
    var o := s.lists.tobefnz[0];
    s.(lists := s.lists.(allgc := [o] + s.lists.allgc, tobefnz := s.lists.tobefnz[1..]),
       history := HandedIn(s.history, o))
  }

  ghost function HandedIn(h: History, o: Ref): History
  {
    h.(bit := h.bit - {o}, calls := h.calls + multiset{o}, log := h.log + [CallOf(h, o)])
  }

  lemma HandedList(b: Heap, l: Lists)
    requires OneList(b, l) && l.tobefnz != []
    ensures OneList(b, l.(allgc := [l.tobefnz[0]] + l.allgc, tobefnz := l.tobefnz[1..]))
    ensures l.tobefnz[0] !in l.tobefnz[1..] && l.tobefnz[0] !in l.finobj
  {
    var o := l.tobefnz[0];
    assert l.tobefnz == [o] + l.tobefnz[1..];
    assert multiset(l.tobefnz) == multiset{o} + multiset(l.tobefnz[1..]);
    assert multiset([o] + l.allgc) == multiset{o} + multiset(l.allgc);
    var all := multiset(l.allgc) + multiset(l.finobj) + multiset(l.tobefnz) + multiset(l.fixedgc);
    assert all[o] <= 1 && multiset(l.tobefnz)[o] == 1 + multiset(l.tobefnz[1..])[o];
  }

  lemma HandedHistory(b: Heap, l: Lists, h: History)
    requires HistoryOk(l, h) && l.tobefnz != [] && OneList(b, l)
    ensures var o := l.tobefnz[0];
            HistoryOk(l.(allgc := [o] + l.allgc, tobefnz := l.tobefnz[1..]), HandedIn(h, o))
  {
    hide InTurn;
    var o := l.tobefnz[0];
    var h' := HandedIn(h, o);
    assert Waiting(l.tobefnz[1..], h') == Waiting(l.tobefnz, h)[1..];
    assert h'.log + Waiting(l.tobefnz[1..], h') == h.log + Waiting(l.tobefnz, h);
    assert Names(h'.log) == Names(h.log) + [o];
    HandedList(b, l);
    assert l.tobefnz == [o] + l.tobefnz[1..];
    assert multiset(l.tobefnz) == multiset{o} + multiset(l.tobefnz[1..]);
    ElemsCons(o, l.tobefnz[1..]);
    assert h.bit - {o} == Elems(l.finobj) + Elems(l.tobefnz[1..]);
  }

  lemma HandedSweep(s: State)
    requires SweepOk(s.gcstate, s.color, s.white, s.sweepgc, s.lists) && s.lists.tobefnz != []
    requires s.gcstate != SwpToBeFnz
    requires s.lists.tobefnz[0] in s.color && s.color[s.lists.tobefnz[0]] == White(s.white)
    ensures SweepOk(s.gcstate, s.color, s.white, s.sweepgc, Handed(s).lists)
  {
    var l := s.lists;
    if s.gcstate == SwpAllGc {
      SweepingHead(s.color, s.white, l.allgc, s.sweepgc, l.tobefnz[0]);
    }
  }

  lemma HandedPlaced(s: State)
    requires Placed(s) && s.lists.tobefnz != []
    ensures Placed(Handed(s)) && Handed(s).Kept() == s.Kept()
  {
    hide OneList, TwupsSound, FixedOk, RootsSound;
    assert Handed(s).Kept() == s.Kept() && Handed(s).Roots() == s.Roots();
    HandedList(s.body, s.lists);
  }

  lemma HandedKeeps(s: State)
    requires Inv(s) && s.lists.tobefnz != [] && s.gcstate != SwpToBeFnz
    requires !KeepInvariant(s.gcstate) ==>
        s.lists.tobefnz[0] in s.color && s.color[s.lists.tobefnz[0]] == White(s.white)
    ensures Inv(Handed(s)) && Handed(s).Kept() == s.Kept()
    ensures s.lists.tobefnz[0] in s.Kept() && s.lists.tobefnz[0] in s.body
  {
    hide HeapSound, HistoryOk, SweepOk, Linked, BlackOk;
    HandedPlaced(s);
    HandedHistory(s.body, s.lists, s.history);
    if KeepInvariant(s.gcstate) {
      assert Handed(s).Links() == s.Links();
    } else {
      HandedSweep(s);
    }
  }

  lemma FirstToFinalize(s: State)
    requires Inv(s) && s.lists.tobefnz != []
    ensures var o := s.lists.tobefnz[0];
            && o in s.Kept() && o in s.body && (s.body[o].Table? || s.body[o].Udata?) && o in s.history.bit
            && o in s.color
            && (!KeepInvariant(s.gcstate) && !IsSweepPhase(s.gcstate) ==> s.color[o] == White(s.white))
  {
  }

  lemma HandedIs(s: State)
    requires s.lists.tobefnz != []
    ensures var o := s.lists.tobefnz[0]; var s' := Handed(s);
            && s'.lists.tobefnz == s.lists.tobefnz[1..] && s'.history.calls == s.history.calls + multiset{o}
            && o !in s'.history.bit && o in s'.lists.allgc && s'.body == s.body
            && s'.history.log == s.history.log + [CallOf(s.history, o)]
  {
  }

  /** Moves the object and resets its bit. */
  method HandOver(g: Collector)
    requires g.tobefnz != []
    modifies g`allgc, g`tobefnz, g`tofinalize, g`calls, g`log
    ensures StateOf(g) == Handed(old(StateOf(g)))
  {
    var o := g.tobefnz[0];
    g.tobefnz := g.tobefnz[1..];
    g.allgc := [o] + g.allgc;
    g.tofinalize := g.tofinalize - {o};
    g.calls := g.calls + multiset{o};
    g.log := g.log + [CallOf(StateOf(g).history, o)];
  }

  /** udata2finalize; it is never called while 'tobefnz' is being swept. */
  method Udata2Finalize(g: Collector) returns (o: Ref)
    requires Inv(StateOf(g)) && g.tobefnz != [] && g.gcstate != SwpToBeFnz
    modifies g`color, g`allgc, g`tobefnz, g`tofinalize, g`calls, g`log
    ensures Inv(StateOf(g)) && StateOf(g).Kept() == old(StateOf(g).Kept())
    ensures o == old(g.tobefnz[0]) && g.tobefnz == old(g.tobefnz[1..]) && g.calls == old(g.calls) + multiset{o}
    ensures g.log == old(g.log) + [CallOf(old(StateOf(g)).history, o)]
    ensures o !in g.tofinalize && o in g.allgc && o in StateOf(g).Kept() && o in g.body
  {
    hide Inv, IsSweepPhase, KeepInvariant, Handed;
    o := g.tobefnz[0];
    FirstToFinalize(StateOf(g));
    if IsSweepPhase(g.gcstate) {
      WhitenInv(StateOf(g), o);
      g.color := g.color[o := White(g.white)];
    }
    HandedKeeps(StateOf(g));
    HandedIs(StateOf(g));
    HandOver(g);
  }

  lemma StackPush(s: State, t: Ref, o: Ref)
    requires Inv(s) && t in s.Kept() && t in s.body && s.body[t].Thread? && o in s.Kept()
    ensures StackOk(s, t, s.body[t].stack + [Ptr(o)])
  {
    InvUpvals(s);
    assert Refs(s.body, t) <= s.Kept();
    var stack := s.body[t].stack + [Ptr(o)];
    forall u | u in s.body[t].open && u in s.body && s.body[u].OpenUpVal? ensures s.body[u].slot < |stack| {
      assert ThreadOk(s.body, t);
      assert UpvalOk(s.body, u);
    }
  }

  lemma CurrentIs(s: State)
    requires Inv(s)
    ensures s.current in s.Kept() && s.current in s.body && s.body[s.current].Thread?
  {
  }

  /** GCTM: the object goes to the stack of the running thread, as the argument of its finalizer. */
  method CallFinalizer(g: Collector) returns (o: Ref)
    requires Inv(StateOf(g)) && g.tobefnz != [] && g.gcstate != SwpToBeFnz
    modifies g`body, g`color, g`allgc, g`tobefnz, g`tofinalize, g`calls, g`log
    ensures Inv(StateOf(g)) && o == old(g.tobefnz[0]) && g.tobefnz == old(g.tobefnz[1..])
    ensures g.calls == old(g.calls) + multiset{o} && g.log == old(g.log) + [CallOf(old(StateOf(g)).history, o)]
    ensures g.current in old(g.body) && old(g.body[g.current]).Thread?
    ensures g.body ==
              old(g.body)[g.current := old(g.body[g.current]).(stack := old(g.body[g.current]).stack + [Ptr(o)])]
  {
    hide Inv, StackOk;
    o := Udata2Finalize(g);
    CurrentIs(StateOf(g));
    StackPush(StateOf(g), g.current, o);
    SetStack(g, g.current, g.body[g.current].stack + [Ptr(o)]);
  }
}
