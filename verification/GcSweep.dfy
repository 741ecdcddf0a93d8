/**
 Sweeping (lgc.c, "sweeplist", "sweeptolive", "entersweep", "sweepstep").  Only objects of 'allgc'
 can be dead; all others in the lists just get the current white.
 */
module GcSweep {
  import opened GcHeap
  import opened GcMark
  import opened GcAtomic
  import opened GcPhase
  import opened GcMutator
  import opened GcAlloc

  /** The list that is swept in a state. */
  function Current(st: GcState, l: Lists): seq<Ref>
  {
    match st
    case SwpAllGc => l.allgc
    case SwpFinObj => l.finobj
    case SwpToBeFnz => l.tobefnz
    case _ => []
  }

  predicate InSweep(st: GcState)
  {
    st == SwpAllGc || st == SwpFinObj || st == SwpToBeFnz
  }

  function IndexOf(l: seq<Ref>, r: Ref): (i: nat)
    ensures i <= |l| && (i < |l| ==> l[i] == r) && forall j :: 0 <= j < i ==> l[j] != r
  {
    if l == [] || l[0] == r then 0 else
      var i := IndexOf(l[1..], r);
      i + 1
  }

  /** How many objects lie before the pointer. */
  function Position(l: seq<Ref>, p: SweepPtr): nat
  {
    match p
    case NoLink => |l|
    case Head => 0
    case LinkOf(r) => IndexOf(l, r) + 1
  }

  lemma NoRepeats(b: Heap, l: Lists, st: GcState, i: nat, j: nat)
    requires OneList(b, l) && i < |Current(st, l)| && j < |Current(st, l)| && i != j
    ensures Current(st, l)[i] != Current(st, l)[j] && Current(st, l)[i] in b
    ensures Current(st, l)[i] !in l.fixedgc
  {
    var c := Current(st, l);
    var all := multiset(l.allgc) + multiset(l.finobj) + multiset(l.tobefnz) + multiset(l.fixedgc);
    assert all[c[i]] <= 1;
    assert c[i] in all;
    if c[i] == c[j] {
      TwiceIn(c, i, j);
      assert false;
    }
  }

  lemma TwiceIn(l: seq<Ref>, i: nat, j: nat)
    requires i < |l| && j < |l| && i != j && l[i] == l[j]
    ensures multiset(l)[l[i]] >= 2
  {
    var a, z := if i < j then i else j, if i < j then j else i;
    assert l == l[..a] + [l[a]] + l[a + 1..z] + [l[z]] + l[z + 1..];
  }

  lemma ListObject(b: Heap, l: Lists, st: GcState, i: nat)
    requires OneList(b, l) && i < |Current(st, l)|
    ensures Current(st, l)[i] in b && Current(st, l)[i] !in l.fixedgc
    ensures st == SwpAllGc ==> l.allgc[i] !in l.finobj && l.allgc[i] !in l.tobefnz
  {
    var o := Current(st, l)[i];
    var all := multiset(l.allgc) + multiset(l.finobj) + multiset(l.tobefnz) + multiset(l.fixedgc);
    assert o in all && all[o] <= 1 && o in Current(st, l);
  }

  lemma PositionIs(b: Heap, c: Colors, w: bool, l: Lists, st: GcState, p: SweepPtr, i: nat)
    requires OneList(b, l) && SweptUpTo(c, w, Current(st, l), p, i)
    ensures Position(Current(st, l), p) == i
  {
    var cur := Current(st, l);
    if i > 0 && IndexOf(cur, cur[i - 1]) != i - 1 {
      NoRepeats(b, l, st, IndexOf(cur, cur[i - 1]), i - 1);
    }
  }

  /** In a sweep state the invariant gives the position of the sweep. */
  lemma SweepPosition(s: State)
    requires Inv(s) && InSweep(s.gcstate) && s.sweepgc != NoLink
    ensures SweptUpTo(s.color, s.white, Current(s.gcstate, s.lists), s.sweepgc,
                      Position(Current(s.gcstate, s.lists), s.sweepgc))
  {
    var cur := Current(s.gcstate, s.lists);
    assert Sweeping(s.color, s.white, cur, s.sweepgc);
    var i: nat :| SweptUpTo(s.color, s.white, cur, s.sweepgc, i);
    PositionIs(s.body, s.color, s.white, s.lists, s.gcstate, s.sweepgc, i);
  }

  /** The next object is whitened and the sweep goes past it. */
  ghost function Passed(s: State, i: nat): State
    requires i < |Current(s.gcstate, s.lists)|
  {
    var o := Current(s.gcstate, s.lists)[i];
    s.(color := s.color[o := White(s.white)], sweepgc := LinkOf(o))
  }

  lemma PassedSweeps(c: Colors, w: bool, l: seq<Ref>, p: SweepPtr, i: nat)
    requires SweptUpTo(c, w, l, p, i) && i < |l| && l[i] in c
    ensures SweptUpTo(c[l[i] := White(w)], w, l, LinkOf(l[i]), i + 1)
  {
    AllWhitePaint(c, w, l[..i], l[i], White(w));
    assert l[..i + 1] == l[..i] + [l[i]];
  }

  lemma PassedKeeps(s: State, i: nat)
    requires Inv(s) && InSweep(s.gcstate) && i < |Current(s.gcstate, s.lists)|
    requires SweptUpTo(s.color, s.white, Current(s.gcstate, s.lists), s.sweepgc, i)
    requires Current(s.gcstate, s.lists)[i] in s.Kept()
    ensures Inv(Passed(s, i)) && Passed(s, i).Kept() == s.Kept()
    ensures SweptUpTo(Passed(s, i).color, s.white, Current(s.gcstate, s.lists), Passed(s, i).sweepgc, i + 1)
  {
    hide HeapSound, HistoryOk, OneList, AllWhite, SweptUpTo, CanFinalize, FixedOk, TwupsSound, RootsSound;
    var cur := Current(s.gcstate, s.lists);
    var o, s' := cur[i], Passed(s, i);
    ListObject(s.body, s.lists, s.gcstate, i);
    KeptPaint(s, o, White(s.white));
    assert s'.Kept() == s.Kept() && s'.Roots() == s.Roots();
    FixedPaint(s.body, s.color, s.lists.fixedgc, o, White(s.white));
    PassedSweeps(s.color, s.white, cur, s.sweepgc, i);
    AllWhitePaint(s.color, s.white, s.lists.allgc, o, White(s.white));
    AllWhitePaint(s.color, s.white, s.lists.finobj, o, White(s.white));
  }

  lemma FixedPaint(b: Heap, c: Colors, l: seq<Ref>, o: Ref, k: Color)
    requires FixedOk(b, c, l) && o !in l
    ensures FixedOk(b, c[o := k], l)
  {
  }

  // ---- Freeing a dead object -----------------------------------------------------------------------

  /** The heap without the dead object 'o'; an open upvalue is unlinked from its thread. */
  function Without(b: Heap, o: Ref): Heap
    requires o in b
  {
    if b[o].OpenUpVal? && b[o].th in b && b[b[o].th].Thread? then
      b[b[o].th := b[b[o].th].(open := Unlinked(b[b[o].th].open, o))] - {o}
    else
      b - {o}
  }

  /** A thread is freed only after its upvalues were closed. */
  ghost predicate CanFree(b: Heap, kept: set<Ref>, o: Ref)
  {
    o in b && o !in kept && (b[o].Thread? ==> b[o].open == [])
  }

  lemma WithoutThread(b: Heap, colored: set<Ref>, kept: set<Ref>, o: Ref)
    requires HeapSound(b, colored, kept) && CanFree(b, kept, o)
    ensures b[o].OpenUpVal? ==> b[o].th in b && b[b[o].th].Thread? && b[o].th !in kept && b[o].th != o
    ensures forall p :: p in b && b[p].OpenUpVal? ==> b[p].th != o
  {
    if b[o].OpenUpVal? {
      assert UpvalOk(b, o);
      assert b[o].th in kept ==> o in Refs(b, b[o].th);
    }
    forall p | p in b && b[p].OpenUpVal? ensures b[p].th != o {
      assert UpvalOk(b, p);
    }
  }

  lemma WithoutRefs(b: Heap, colored: set<Ref>, kept: set<Ref>, o: Ref, p: Ref)
    requires HeapSound(b, colored, kept) && CanFree(b, kept, o) && p in b && p != o
    ensures p in Without(b, o) && (p in kept ==> Refs(Without(b, o), p) == Refs(b, p) && Without(b, o)[p] == b[p])
    ensures UpvalOk(Without(b, o), p) && ThreadOk(Without(b, o), p) && (p in kept ==> MetaOk(Without(b, o), p))
    ensures !b[p].Thread? ==> Without(b, o)[p] == b[p]
  {
    WithoutThread(b, colored, kept, o);
    assert UpvalOk(b, p) && ThreadOk(b, p);
    if p in kept {
      assert MetaOk(b, p) && Refs(b, p) <= kept;
      if b[p].Table? && b[p].meta.Ptr? { assert b[p].meta.r in Refs(b, p); }
      if b[p].Udata? && b[p].meta.Ptr? { assert b[p].meta.r in Refs(b, p); }
    }
  }

  lemma WithoutSound(b: Heap, colored: set<Ref>, kept: set<Ref>, o: Ref)
    requires HeapSound(b, colored, kept) && CanFree(b, kept, o)
    ensures HeapSound(Without(b, o), colored - {o}, kept)
    ensures forall p :: p in kept ==> p in Without(b, o) && Without(b, o)[p] == b[p]
    ensures Without(b, o).Keys == b.Keys - {o}
  {
    WithoutThread(b, colored, kept, o);
    forall p | p in Without(b, o)
      ensures UpvalOk(Without(b, o), p) && ThreadOk(Without(b, o), p)
      ensures p in kept ==> MetaOk(Without(b, o), p) && Refs(Without(b, o), p) <= kept
    {
      WithoutRefs(b, colored, kept, o, p);
    }
    forall p | p in kept ensures p in Without(b, o) && Without(b, o)[p] == b[p] {
      WithoutRefs(b, colored, kept, o, p);
    }
  }

  /** The dead object at index 'i' of 'allgc' leaves the list and the heap. */
  ghost function Erased(s: State, i: nat): State
    requires i < |s.lists.allgc| && s.lists.allgc[i] in s.body
  {
    var o := s.lists.allgc[i];
    s.(body := Without(s.body, o), color := s.color - {o},
       lists := s.lists.(allgc := s.lists.allgc[..i] + s.lists.allgc[i + 1..]))
  }

  lemma ErasedList(b: Heap, l: Lists, i: nat, b': Heap)
    requires OneList(b, l) && i < |l.allgc| && b'.Keys == b.Keys - {l.allgc[i]}
    ensures OneList(b', l.(allgc := l.allgc[..i] + l.allgc[i + 1..]))
  {
    var o := l.allgc[i];
    assert l.allgc == l.allgc[..i] + [o] + l.allgc[i + 1..];
    assert multiset(l.allgc) == multiset(l.allgc[..i] + l.allgc[i + 1..]) + multiset{o};
    ListObject(b, l, SwpAllGc, i);
    assert multiset(b.Keys) == multiset(b'.Keys) + multiset{o};
    Cancel(multiset(l.allgc[..i] + l.allgc[i + 1..]), multiset(l.finobj) + multiset(l.tobefnz) + multiset(l.fixedgc),
           o, multiset(b'.Keys));
  }

  lemma Cancel(a: multiset<Ref>, z: multiset<Ref>, o: Ref, k: multiset<Ref>)
    requires (a + multiset{o}) + z == k + multiset{o}
    ensures a + z == k
  {
    assert (a + z) + multiset{o} == k + multiset{o};
    assert ((a + z) + multiset{o}) - multiset{o} == a + z;
    assert (k + multiset{o}) - multiset{o} == k;
  }

  lemma ErasedParts(b: Heap, b': Heap, c: Colors, o: Ref, kept: set<Ref>, l: Lists, tw: seq<Ref>, main: Ref,
          current: Ref, roots: set<Ref>)
    requires CanFinalize(b, kept, l.finobj) && CanFinalize(b, kept, l.tobefnz) && FixedOk(b, c, l.fixedgc)
    requires TwupsSound(b, kept, tw) && RootsSound(b, kept, main, current, roots) && o in c && c[o].White?
    requires forall p :: p in kept ==> p in b' && p in b && b'[p] == b[p]
    requires forall p :: p in c && !c[p].White? && p in b ==> p in kept
    ensures CanFinalize(b', kept, l.finobj) && CanFinalize(b', kept, l.tobefnz) && FixedOk(b', c - {o}, l.fixedgc)
    ensures TwupsSound(b', kept, tw) && RootsSound(b', kept, main, current, roots)
  {
  }

  lemma ErasedPlaced(s: State, i: nat)
    requires HeapSound(s.body, s.color.Keys, s.Kept()) && Placed(s) && i < |s.lists.allgc|
    requires CanFree(s.body, s.Kept(), s.lists.allgc[i])
    ensures Placed(Erased(s, i)) && Erased(s, i).Kept() == s.Kept()
    ensures HeapSound(Erased(s, i).body, Erased(s, i).color.Keys, s.Kept())
  {
    hide HeapSound, OneList, CanFinalize, FixedOk, TwupsSound, RootsSound, CanFree, Without;
    var o := s.lists.allgc[i];
    KeysOf(s.body, s.color.Keys, s.Kept());
    FreeIsDead(s.body, s.color, s.white, s.Kept(), o);
    var s' := Erased(s, i);
    WithoutSound(s.body, s.color.Keys, s.Kept(), o);
    assert s'.Kept() == s.Kept() && s'.Roots() == s.Roots();
    ErasedList(s.body, s.lists, i, s'.body);
    ErasedParts(s.body, s'.body, s.color, o, s.Kept(), s.lists, s.twups, s.main, s.current, s.Roots());
    assert s'.color.Keys == s.color.Keys - {o};
  }

  lemma FreeIsDead(b: Heap, c: Colors, w: bool, kept: set<Ref>, o: Ref)
    requires CanFree(b, kept, o) && c.Keys == b.Keys && kept == set p | p in c && c[p] != White(!w)
    ensures o in b && o in c && c[o] == White(!w)
  {
  }

  lemma AllWhiteErased(c: Colors, w: bool, l: seq<Ref>, o: Ref)
    requires AllWhite(c, w, l) && (o in c ==> c[o] != White(w))
    ensures AllWhite(c - {o}, w, l)
  {
  }

  lemma ErasedSweeps(c: Colors, w: bool, l: seq<Ref>, p: SweepPtr, i: nat)
    requires SweptUpTo(c, w, l, p, i) && i < |l| && l[i] in c && c[l[i]] != White(w)
    ensures SweptUpTo(c - {l[i]}, w, l[..i] + l[i + 1..], p, i)
  {
    AllWhiteErased(c, w, l[..i], l[i]);
    assert (l[..i] + l[i + 1..])[..i] == l[..i];
  }

  /** Freeing a dead object keeps the invariant, and takes nothing from what is kept. */
  lemma ErasedKeeps(s: State, i: nat)
    requires Inv(s) && s.gcstate == SwpAllGc && i < |s.lists.allgc|
    requires SweptUpTo(s.color, s.white, s.lists.allgc, s.sweepgc, i)
    requires CanFree(s.body, s.Kept(), s.lists.allgc[i])
    ensures Inv(Erased(s, i)) && Erased(s, i).Kept() == s.Kept()
    ensures SweptUpTo(Erased(s, i).color, s.white, Erased(s, i).lists.allgc, s.sweepgc, i)
    ensures forall p :: p in s.Kept() ==> p in Erased(s, i).body && Erased(s, i).body[p] == s.body[p]
  {
    hide HeapSound, Placed, CanFree, Without, SweptUpTo, AllWhite;
    var o := s.lists.allgc[i];
    KeysOf(s.body, s.color.Keys, s.Kept());
    FreeIsDead(s.body, s.color, s.white, s.Kept(), o);
    WithoutSound(s.body, s.color.Keys, s.Kept(), o);
    ErasedPlaced(s, i);
    ErasedSweeps(s.color, s.white, s.lists.allgc, s.sweepgc, i);
    ErasedHistory(s, i);
  }

  lemma ErasedHistory(s: State, i: nat)
    requires HistoryOk(s.lists, s.history) && i < |s.lists.allgc| && s.lists.allgc[i] in s.body
    ensures HistoryOk(Erased(s, i).lists, s.history)
  {
  }

  // ---- What sweeping does to the program -----------------------------------------------------------

  /** Object 'p' is as it was, but an open upvalue of a thread that is not kept may be closed, with its value. */
  ghost predicate SameObject(b: Heap, b': Heap, kept: set<Ref>, p: Ref)
    requires p in b && p in b'
  {
    || b'[p] == b[p]
    || (b[p].Thread? && b'[p].Thread? && b'[p].stack == b[p].stack && p !in kept)
    || (b[p].OpenUpVal? && b[p].th !in kept && b'[p] == ClosedUpVal(Content(b, p)))
  }

  /** Nothing that is kept changes for the program. */
  ghost predicate Untouched(b: Heap, b': Heap, kept: set<Ref>)
  {
    && b'.Keys <= b.Keys && kept * b.Keys <= b'.Keys
    && forall p :: p in b' ==> SameObject(b, b', kept, p)
  }

  lemma UntouchedRefl(b: Heap, kept: set<Ref>)
    ensures Untouched(b, b, kept)
  {
  }

  lemma UntouchedTrans(b: Heap, b': Heap, b'': Heap, kept: set<Ref>)
    requires Untouched(b, b', kept) && Untouched(b', b'', kept)
    requires forall o :: o in b' ==> UpvalOk(b', o)
    ensures Untouched(b, b'', kept)
  {
    forall p | p in b'' ensures SameObject(b, b'', kept, p) {
      assert SameObject(b, b', kept, p) && SameObject(b', b'', kept, p);
      if b'[p] == b[p] && b[p].OpenUpVal? {
        assert UpvalOk(b', p);
        assert SameObject(b, b', kept, b[p].th);
      }
    }
  }

  lemma CloseUntouched(b: Heap, t: Ref, u: Ref, kept: set<Ref>)
    requires CloseOk(b, t, u) && t !in kept
    ensures Untouched(b, CloseBody(b, t, u), kept)
  {
    var b' := CloseBody(b, t, u);
    forall p | p in b' ensures SameObject(b, b', kept, p) {
    }
  }

  lemma EraseUntouched(b: Heap, colored: set<Ref>, kept: set<Ref>, o: Ref)
    requires HeapSound(b, colored, kept) && CanFree(b, kept, o)
    ensures Untouched(b, Without(b, o), kept)
  {
    WithoutThread(b, colored, kept, o);
    var b' := Without(b, o);
    forall p | p in b' ensures SameObject(b, b', kept, p) {
    }
  }

  lemma UnlinkedShorter(l: seq<Ref>, u: Ref)
    requires u in l
    ensures |Unlinked(l, u)| < |l|
  {
    if l[0] != u {
      UnlinkedShorter(l[1..], u);
    } else {
      UnlinkedNoLonger(l[1..], u);
    }
  }

  lemma UnlinkedNoLonger(l: seq<Ref>, u: Ref)
    ensures |Unlinked(l, u)| <= |l|
  {
  }

  lemma CloseLess(b: Heap, t: Ref, u: Ref)
    requires CloseOk(b, t, u)
    ensures t in CloseBody(b, t, u) && CloseBody(b, t, u)[t].Thread?
    ensures |CloseBody(b, t, u)[t].open| < |b[t].open| && CloseBody(b, t, u).Keys == b.Keys
  {
    UnlinkedShorter(b[t].open, u);
  }

  lemma InvUpvals(s: State)
    requires Inv(s)
    ensures forall o :: o in s.body ==> UpvalOk(s.body, o)
    ensures HeapSound(s.body, s.color.Keys, s.Kept()) && s.color.Keys == s.body.Keys
  {
  }

  /** luaE_freethread closes all the upvalues of the thread. */
  method CloseThread(g: Collector, o: Ref)
    requires Inv(StateOf(g)) && o in g.body && g.body[o].Thread? && o !in StateOf(g).Kept() && !KeepInvariant(g.gcstate)
    modifies g`body, g`color, g`gray
    ensures Inv(StateOf(g)) && StateOf(g).Kept() == old(StateOf(g).Kept())
    ensures o in g.body && g.body[o].Thread? && g.body[o].open == [] && g.body.Keys == old(g.body.Keys)
    ensures Untouched(old(g.body), g.body, old(StateOf(g).Kept()))
    ensures WhitesStay(old(g.color), g.color, g.white)
  {
    hide Inv, Untouched, UpvalOk, CloseOk, CloseBody, WhitesStay, HeapSound, KeepInvariant;
    WhitesStayRefl(g.color, g.white);
    ghost var b, kept := g.body, StateOf(g).Kept();
    UntouchedRefl(b, kept);
    while g.body[o].open != []
      invariant Inv(StateOf(g)) && StateOf(g).Kept() == kept
      invariant o in g.body && g.body[o].Thread? && g.body.Keys == b.Keys
      invariant Untouched(b, g.body, kept) && WhitesStay(old(g.color), g.color, g.white)
      decreases |g.body[o].open|
    {
      ghost var b', c' := g.body, g.color;
      CloseFirst(g, o);
      UntouchedTrans(b, b', g.body, kept);
      WhitesStayTrans(old(g.color), c', g.color, g.white);
    }
  }

  /** Closes the first open upvalue of a dead thread. */
  method CloseFirst(g: Collector, o: Ref)
    requires Inv(StateOf(g)) && o in g.body && g.body[o].Thread? && o !in StateOf(g).Kept() && !KeepInvariant(g.gcstate)
    requires g.body[o].open != []
    modifies g`body, g`color, g`gray
    ensures Inv(StateOf(g)) && StateOf(g).Kept() == old(StateOf(g).Kept())
    ensures o in g.body && g.body[o].Thread? && |g.body[o].open| < |old(g.body[o].open)|
    ensures g.body.Keys == old(g.body.Keys)
    ensures Untouched(old(g.body), g.body, old(StateOf(g).Kept())) && WhitesStay(old(g.color), g.color, g.white)
    ensures forall p :: p in old(g.body) ==> UpvalOk(old(g.body), p)
  {
    hide Inv, Untouched, UpvalOk, CloseOk, CloseBody, WhitesStay, HeapSound, KeepInvariant;
    var u := g.body[o].open[0];
    InvUpvals(StateOf(g));
    CloseUpVal(g, o, u);
    CloseLess(old(g.body), o, u);
    CloseUntouched(old(g.body), o, u, old(StateOf(g).Kept()));
  }

  lemma DeadCanFree(s: State, o: Ref)
    requires Inv(s) && o in s.body && o !in s.Kept() && (s.body[o].Thread? ==> s.body[o].open == [])
    ensures CanFree(s.body, s.Kept(), o) && o in s.color
  {
  }

  lemma DeadNotKept(s: State, o: Ref)
    requires o in s.color && s.color[o] == White(!s.white)
    ensures o !in s.Kept()
  {
  }

  lemma ErasedPosition(s: State, i: nat)
    requires Inv(s) && s.gcstate == SwpAllGc && i < |s.lists.allgc|
    requires SweptUpTo(s.color, s.white, s.lists.allgc, s.sweepgc, i)
    requires CanFree(s.body, s.Kept(), s.lists.allgc[i])
    ensures Position(Erased(s, i).lists.allgc, s.sweepgc) == i
  {
    ErasedKeeps(s, i);
    var s' := Erased(s, i);
    PositionIs(s'.body, s'.color, s'.white, s'.lists, SwpAllGc, s'.sweepgc, i);
  }

  lemma FreeKeeps(s: State, i: nat, b: Heap)
    requires Inv(s) && s.gcstate == SwpAllGc && s.sweepgc != NoLink
    requires i == Position(s.lists.allgc, s.sweepgc) && i < |s.lists.allgc| && s.lists.allgc[i] !in s.Kept()
    requires s.lists.allgc[i] in s.body && (s.body[s.lists.allgc[i]].Thread? ==> s.body[s.lists.allgc[i]].open == [])
    requires Untouched(b, s.body, s.Kept()) && b.Keys == s.body.Keys
    ensures Inv(Erased(s, i)) && Erased(s, i).Kept() == s.Kept()
    ensures i == Position(Erased(s, i).lists.allgc, s.sweepgc)
    ensures Untouched(b, Erased(s, i).body, s.Kept()) && Erased(s, i).body.Keys == b.Keys - {s.lists.allgc[i]}
  {
    hide Inv, Untouched, SweptUpTo, CanFree, Without, Position, UpvalOk, HeapSound;
    var o := s.lists.allgc[i];
    InvUpvals(s);
    DeadCanFree(s, o);
    SweepPosition(s);
    ErasedKeeps(s, i);
    ErasedPosition(s, i);
    EraseUntouched(s.body, s.color.Keys, s.Kept(), o);
    UntouchedTrans(b, s.body, Without(s.body, o), s.Kept());
    WithoutSound(s.body, s.color.Keys, s.Kept(), o);
  }

  method Erase(g: Collector, i: nat)
    requires i < |g.allgc| && g.allgc[i] in g.body
    modifies g`body, g`color, g`allgc
    ensures StateOf(g) == Erased(old(StateOf(g)), i) && WhitesStay(old(g.color), g.color, g.white)
  {
    hide Without;
    g.body, g.color := Without(g.body, g.allgc[i]), g.color - {g.allgc[i]};
    g.allgc := g.allgc[..i] + g.allgc[i + 1..];
  }

  lemma ErasedIs(s: State, i: nat)
    requires i < |s.lists.allgc| && s.lists.allgc[i] in s.body
    ensures Erased(s, i).lists.allgc == s.lists.allgc[..i] + s.lists.allgc[i + 1..] && Erased(s, i).sweepgc == s.sweepgc
  {
  }

  /** freeobj and the removal from the list, for the object at index 'i' of 'allgc'. */
  method FreeObject(g: Collector, i: nat)
    requires Inv(StateOf(g)) && g.gcstate == SwpAllGc && g.sweepgc != NoLink
    requires i == Position(g.allgc, g.sweepgc) && i < |g.allgc| && g.allgc[i] in g.color
    requires g.color[g.allgc[i]] == White(!g.white)
    modifies g`body, g`color, g`gray, g`allgc
    ensures Inv(StateOf(g)) && StateOf(g).Kept() == old(StateOf(g).Kept())
    ensures g.allgc == old(g.allgc[..i] + g.allgc[i + 1..]) && i == Position(g.allgc, g.sweepgc)
    ensures Untouched(old(g.body), g.body, old(StateOf(g).Kept()))
    ensures g.body.Keys == old(g.body.Keys) - {old(g.allgc[i])}
    ensures WhitesStay(old(g.color), g.color, g.white)
  {
    hide Inv, Untouched, Position, Erased, WhitesStay;
    WhitesStayRefl(g.color, g.white);
    InvKeys(StateOf(g), g.allgc[i]);
    DeadNotKept(StateOf(g), g.allgc[i]);
    UntouchedRefl(g.body, StateOf(g).Kept());
    if g.body[g.allgc[i]].Thread? {
      CloseThread(g, g.allgc[i]);
    }
    FreeKeeps(StateOf(g), i, old(g.body));
    ErasedIs(StateOf(g), i);
    ghost var c' := g.color;
    Erase(g, i);
    WhitesStayTrans(old(g.color), c', g.color, g.white);
  }

  // ---- Sweeping a list -----------------------------------------------------------------------------

  function CurrentList(g: Collector): seq<Ref>
    reads g`gcstate, g`allgc, g`finobj, g`tobefnz, g`fixedgc
  {
    Current(g.gcstate, Lists(g.allgc, g.finobj, g.tobefnz, g.fixedgc))
  }

  /** Dead objects are only in 'allgc'. */
  lemma DeadInAllGc(s: State, i: nat)
    requires Inv(s) && InSweep(s.gcstate) && i < |Current(s.gcstate, s.lists)|
    ensures Current(s.gcstate, s.lists)[i] in s.color
    ensures s.color[Current(s.gcstate, s.lists)[i]] == White(!s.white) ==> s.gcstate == SwpAllGc
    ensures s.color[Current(s.gcstate, s.lists)[i]] != White(!s.white) ==> Current(s.gcstate, s.lists)[i] in s.Kept()
  {
    ListObject(s.body, s.lists, s.gcstate, i);
    KeysOf(s.body, s.color.Keys, s.Kept());
  }

  lemma PassedAt(s: State, i: nat)
    requires Inv(s) && InSweep(s.gcstate) && s.sweepgc != NoLink
    requires i == Position(Current(s.gcstate, s.lists), s.sweepgc)
    requires i < |Current(s.gcstate, s.lists)| && Current(s.gcstate, s.lists)[i] in s.Kept()
    ensures Inv(Passed(s, i)) && Passed(s, i).Kept() == s.Kept()
    ensures i + 1 == Position(Current(s.gcstate, s.lists), Passed(s, i).sweepgc)
    ensures Passed(s, i).sweepgc != s.sweepgc
  {
    SweepPosition(s);
    PassedKeeps(s, i);
    var s' := Passed(s, i);
    PositionIs(s'.body, s'.color, s'.white, s'.lists, s'.gcstate, s'.sweepgc, i + 1);
  }

  lemma SweepEnds(s: State)
    requires Inv(s) && InSweep(s.gcstate) && s.sweepgc != NoLink
    requires Position(Current(s.gcstate, s.lists), s.sweepgc) == |Current(s.gcstate, s.lists)|
    ensures Inv(s.(sweepgc := NoLink)) && s.(sweepgc := NoLink).Kept() == s.Kept()
  {
    hide HeapSound, OneList, CanFinalize, FixedOk, TwupsSound, RootsSound, HistoryOk;
    var cur := Current(s.gcstate, s.lists);
    SweepPosition(s);
    assert cur[..|cur|] == cur;
    assert s.(sweepgc := NoLink).Kept() == s.Kept() && s.(sweepgc := NoLink).Roots() == s.Roots();
  }

  lemma PositionBound(s: State)
    requires Inv(s) && InSweep(s.gcstate) && s.sweepgc != NoLink
    ensures Position(Current(s.gcstate, s.lists), s.sweepgc) <= |Current(s.gcstate, s.lists)|
  {
    SweepPosition(s);
  }

  /** One turn of the loop of sweeplist: frees the next object or goes past it. */
  method SweepOne(g: Collector, i: nat) returns (i': nat)
    requires Inv(StateOf(g)) && InSweep(g.gcstate) && g.sweepgc != NoLink
    requires i == Position(CurrentList(g), g.sweepgc) && i < |CurrentList(g)|
    modifies g`body, g`color, g`gray, g`allgc, g`sweepgc
    ensures Inv(StateOf(g)) && g.sweepgc != NoLink && StateOf(g).Kept() == old(StateOf(g).Kept())
    ensures i' == Position(CurrentList(g), g.sweepgc) <= |CurrentList(g)|
    ensures WhitesStay(old(g.color), g.color, g.white)
    ensures Untouched(old(g.body), g.body, old(StateOf(g).Kept()))
    ensures |CurrentList(g)| - i' == old(|CurrentList(g)|) - i - 1
    ensures (i' == i + 1 && g.sweepgc != old(g.sweepgc) && g.allgc == old(g.allgc))
            || (i' == i && g.sweepgc == old(g.sweepgc) && |g.allgc| < old(|g.allgc|))
    ensures g.allgc == old(g.allgc) || g.gcstate == SwpAllGc
  {
    hide Inv, Untouched, Position;
    ghost var s := StateOf(g);
    DeadInAllGc(s, i);
    var o := CurrentList(g)[i];
    if g.color[o] == White(!g.white) {
      FreeObject(g, i);
      i' := i;
    } else {
      PassedAt(s, i);
      UntouchedRefl(g.body, s.Kept());
      g.color := g.color[o := White(g.white)];
      g.sweepgc := LinkOf(o);
      i' := i + 1;
    }
    PositionBound(StateOf(g));
  }

  /** How much of the current list is left: nothing without a pointer, and otherwise also the end to be seen. */
  function SweepLeft(st: GcState, l: Lists, p: SweepPtr): int
  {
    if p == NoLink then 0 else 1 + |Current(st, l)| - Position(Current(st, l), p)
  }

  function LeftToSweep(g: Collector): int
    reads g`gcstate, g`allgc, g`finobj, g`tobefnz, g`fixedgc, g`sweepgc
  {
    SweepLeft(g.gcstate, Lists(g.allgc, g.finobj, g.tobefnz, g.fixedgc), g.sweepgc)
  }

  /** sweeplist: sweeps at most 'count' elements from the pointer on; at the end there is no pointer left. */
  method SweepList(g: Collector, count: nat)
    requires Inv(StateOf(g)) && InSweep(g.gcstate) && g.sweepgc != NoLink
    modifies g`body, g`color, g`gray, g`allgc, g`sweepgc
    ensures Inv(StateOf(g)) && StateOf(g).Kept() == old(StateOf(g).Kept())
    ensures WhitesStay(old(g.color), g.color, g.white)
    ensures Untouched(old(g.body), g.body, old(StateOf(g).Kept()))
    ensures count == 1 && g.sweepgc == old(g.sweepgc) ==> |g.allgc| < old(|g.allgc|)
    ensures |g.allgc| <= old(|g.allgc|)
    ensures LeftToSweep(g) == if old(LeftToSweep(g)) <= count + 1 then 0 else old(LeftToSweep(g)) - count
    ensures g.sweepgc == NoLink <==> LeftToSweep(g) == 0
  {
    hide Inv, Untouched, Position, UpvalOk, HeapSound, WhitesStay;
    WhitesStayRefl(g.color, g.white);
    ghost var kept := StateOf(g).Kept();
    UntouchedRefl(g.body, kept);
    var i := Position(CurrentList(g), g.sweepgc);
    PositionBound(StateOf(g));
    ghost var left := |CurrentList(g)| - i;
    var n := 0;
    while i < |CurrentList(g)| && n < count
      invariant Inv(StateOf(g)) && StateOf(g).Kept() == kept && g.sweepgc != NoLink
      invariant i == Position(CurrentList(g), g.sweepgc) <= |CurrentList(g)|
      invariant Untouched(old(g.body), g.body, kept) && WhitesStay(old(g.color), g.color, g.white)
      invariant |CurrentList(g)| - i == left - n
      invariant n <= count && (n == 0 ==> g.sweepgc == old(g.sweepgc) && g.allgc == old(g.allgc))
      invariant |g.allgc| <= old(|g.allgc|)
      invariant n == 1 && g.sweepgc == old(g.sweepgc) ==> |g.allgc| < old(|g.allgc|)
      decreases |CurrentList(g)| - i
    {
      ghost var b', c' := g.body, g.color;
      InvUpvals(StateOf(g));
      i := SweepOne(g, i);
      UntouchedTrans(old(g.body), b', g.body, kept);
      WhitesStayTrans(old(g.color), c', g.color, g.white);
      n := n + 1;
    }
    if i == |CurrentList(g)| {
      SweepEnds(StateOf(g));
      g.sweepgc := NoLink;
    }
  }

  /** sweeptolive: sweeps until the pointer moves, that is, past a live object or to the end of the list. */
  method SweepToLive(g: Collector)
    requires Inv(StateOf(g)) && InSweep(g.gcstate) && g.sweepgc != NoLink
    modifies g`body, g`color, g`gray, g`allgc, g`sweepgc
    ensures Inv(StateOf(g)) && StateOf(g).Kept() == old(StateOf(g).Kept())
    ensures WhitesStay(old(g.color), g.color, g.white)
    ensures Untouched(old(g.body), g.body, old(StateOf(g).Kept())) && g.sweepgc != old(g.sweepgc)
  {
    hide Inv, Untouched, UpvalOk, HeapSound, WhitesStay;
    WhitesStayRefl(g.color, g.white);
    ghost var kept := StateOf(g).Kept();
    var p := g.sweepgc;
    UntouchedRefl(g.body, kept);
    while true
      invariant Inv(StateOf(g)) && StateOf(g).Kept() == kept && g.sweepgc == p
      invariant Untouched(old(g.body), g.body, kept) && WhitesStay(old(g.color), g.color, g.white)
      decreases |g.allgc|
    {
      ghost var b', c' := g.body, g.color;
      InvUpvals(StateOf(g));
      SweepList(g, 1);
      UntouchedTrans(old(g.body), b', g.body, kept);
      WhitesStayTrans(old(g.color), c', g.color, g.white);
      if g.sweepgc != p {
        break;
      }
    }
  }

  /** The sweep may begin: everything but the state of the collector is in order. */
  ghost predicate SweepReady(s: State)
  {
    HeapSound(s.body, s.color.Keys, s.Kept()) && Placed(s) && HistoryOk(s.lists, s.history)
  }

  lemma SweepStart(s: State)
    requires SweepReady(s)
    ensures Inv(s.(gcstate := SwpAllGc, sweepgc := Head)) && s.(gcstate := SwpAllGc, sweepgc := Head).Kept() == s.Kept()
  {
    hide HeapSound, OneList, CanFinalize, FixedOk, TwupsSound, RootsSound, HistoryOk;
    var s' := s.(gcstate := SwpAllGc, sweepgc := Head);
    assert s'.Kept() == s.Kept() && s'.Roots() == s.Roots();
    assert SweptUpTo(s.color, s.white, s.lists.allgc, Head, 0);
  }

  /** entersweep: the pointer goes inside the list, so that objects created from now on need no sweep. */
  method EnterSweep(g: Collector)
    requires SweepReady(StateOf(g))
    modifies g`gcstate, g`body, g`color, g`gray, g`allgc, g`sweepgc
    ensures Inv(StateOf(g)) && StateOf(g).Kept() == old(StateOf(g).Kept()) && g.gcstate == SwpAllGc && g.sweepgc != Head
    ensures Untouched(old(g.body), g.body, old(StateOf(g).Kept()))
  {
    hide Inv, SweepReady, Untouched;
    SweepStart(StateOf(g));
    g.gcstate, g.sweepgc := SwpAllGc, Head;
    SweepToLive(g);
  }

  const GCSWEEPMAX: nat := 20

  /** The next sweep state with its list, when a list is finished. */
  lemma NextSweep(s: State)
    requires Inv(s) && InSweep(s.gcstate) && s.sweepgc == NoLink
    ensures s.gcstate == SwpAllGc ==> Inv(s.(gcstate := SwpFinObj, sweepgc := Head))
    ensures s.gcstate == SwpFinObj ==> Inv(s.(gcstate := SwpToBeFnz, sweepgc := Head))
    ensures s.gcstate == SwpToBeFnz ==> Inv(s.(gcstate := SwpEnd))
  {
    hide HeapSound, OneList, CanFinalize, FixedOk, TwupsSound, RootsSound, HistoryOk, AllWhite;
    SameSweep(s, SwpFinObj, Head);
    SameSweep(s, SwpToBeFnz, Head);
    SameSweep(s, SwpEnd, NoLink);
    SweptNone(s.color, s.white, s.lists.finobj);
    SweptNone(s.color, s.white, s.lists.tobefnz);
  }

  lemma SweptNone(c: Colors, w: bool, l: seq<Ref>)
    ensures SweptUpTo(c, w, l, Head, 0)
  {
  }

  lemma SameSweep(s: State, st: GcState, p: SweepPtr)
    ensures s.(gcstate := st, sweepgc := p).Kept() == s.Kept() && s.(gcstate := st, sweepgc := p).Roots() == s.Roots()
  {
  }

  /** sweepstep */
  method SweepStep(g: Collector, fast: bool)
    requires Inv(StateOf(g)) && InSweep(g.gcstate)
    modifies g`gcstate, g`body, g`color, g`gray, g`allgc, g`sweepgc
    ensures Inv(StateOf(g)) && StateOf(g).Kept() == old(StateOf(g).Kept()) && !KeepInvariant(g.gcstate)
    ensures Untouched(old(g.body), g.body, old(StateOf(g).Kept()))
    ensures old(g.sweepgc) == NoLink ==> NextListFrom(old(StateOf(g)), StateOf(g))
    ensures old(g.sweepgc) != NoLink ==>
              && g.gcstate == old(g.gcstate) && (g.sweepgc == NoLink <==> LeftToSweep(g) == 0)
              && LeftToSweep(g) ==
                 if fast || old(LeftToSweep(g)) <= GCSWEEPMAX + 1 then 0 else old(LeftToSweep(g)) - GCSWEEPMAX
  {
    hide Inv, Untouched, Position;
    if g.sweepgc != NoLink {
      SweepList(g, if fast then |CurrentList(g)| else GCSWEEPMAX);
    } else {
      UntouchedRefl(g.body, StateOf(g).Kept());
      NextList(g);
    }
  }

  /** The next list to sweep, from its head, and after the last one the end of the sweep. */
  ghost predicate NextListFrom(s: State, t: State)
  {
    match s.gcstate
    case SwpAllGc => t == s.(gcstate := SwpFinObj, sweepgc := Head)
    case SwpFinObj => t == s.(gcstate := SwpToBeFnz, sweepgc := Head)
    case SwpToBeFnz => t == s.(gcstate := SwpEnd)
    case _ => false
  }

  /** The next state, with the pointer at the head of its list. */
  method NextList(g: Collector)
    requires Inv(StateOf(g)) && InSweep(g.gcstate) && g.sweepgc == NoLink
    modifies g`gcstate, g`sweepgc
    ensures Inv(StateOf(g)) && StateOf(g).Kept() == old(StateOf(g).Kept()) && !KeepInvariant(g.gcstate)
    ensures NextListFrom(old(StateOf(g)), StateOf(g))
  {
    hide Inv;
    ghost var s := StateOf(g);
    NextSweep(s);
    match g.gcstate {
      case SwpAllGc => g.gcstate, g.sweepgc := SwpFinObj, Head;
      case SwpFinObj => g.gcstate, g.sweepgc := SwpToBeFnz, Head;
      case SwpToBeFnz => g.gcstate := SwpEnd;
    }
    SameSweep(s, g.gcstate, g.sweepgc);
  }
}
