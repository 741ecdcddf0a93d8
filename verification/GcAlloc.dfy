/**
 Creation of objects, stacks and upvalues, and the roots (lgc.c, "luaC_newobjdt", "luaC_fix";
 lfunc.c, "newupval", "luaF_closeupval"; lstring.c, "internshrstr").  Stacks and roots have no barriers.
 */
module GcAlloc {
  import opened GcHeap
  import opened GcMark
  import opened GcAtomic
  import opened GcPhase
  import opened GcMutator

  // ---- New objects ---------------------------------------------------------------------------

  lemma ExtendRefs(b: Heap, r: Ref, x: Body)
    requires r !in b && forall o :: o in b ==> UpvalOk(b, o)
    ensures forall p :: p in b ==> Refs(b[r := x], p) == Refs(b, p)
    ensures forall p :: p in b ==>
        CanBeGray(b[r := x], p) == CanBeGray(b, p) && NoGrayList(b[r := x], p) == NoGrayList(b, p)
  {
    forall p | p in b ensures Refs(b[r := x], p) == Refs(b, p) {
      assert UpvalOk(b, p);
    }
  }

  lemma ExtendSound(b: Heap, r: Ref, x: Body, colored: set<Ref>, kept: set<Ref>)
    requires HeapSound(b, colored, kept) && r !in b && !x.OpenUpVal? && (x.Thread? ==> x.open == [])
    requires Refs(b[r := x], r) <= kept + {r} && MetaOk(b[r := x], r)
    ensures HeapSound(b[r := x], colored + {r}, kept + {r})
  {
    ExtendRefs(b, r, x);
    forall p | p in b ensures UpvalOk(b[r := x], p) && ThreadOk(b[r := x], p) {
      assert UpvalOk(b, p) && ThreadOk(b, p);
    }
    forall p | p in kept ensures MetaOk(b[r := x], p) && Refs(b[r := x], p) <= kept + {r} {
      assert MetaOk(b, p);
    }
  }

  /** The object 'r' linked at the head of 'allgc'. */
  ghost function Created(s: State, r: Ref, x: Body): State
  {
    s.(body := s.body[r := x], color := s.color[r := White(s.white)], lists := s.lists.(allgc := [r] + s.lists.allgc))
  }

  lemma CreatedKept(s: State, r: Ref, x: Body)
    requires r !in s.color
    ensures Created(s, r, x).Kept() == s.Kept() + {r} && Marked(Created(s, r, x).color) == Marked(s.color)
    ensures Created(s, r, x).color.Keys == s.color.Keys + {r} && Created(s, r, x).Roots() == s.Roots()
  {
  }

  lemma CreatedList(s: State, r: Ref, x: Body)
    requires OneList(s.body, s.lists) && r !in s.body
    ensures OneList(Created(s, r, x).body, Created(s, r, x).lists)
  {
    var s' := Created(s, r, x);
    assert s'.body.Keys == s.body.Keys + {r};
    assert multiset(s'.lists.allgc) == multiset{r} + multiset(s.lists.allgc);
    assert multiset(s.body.Keys + {r}) == multiset(s.body.Keys) + multiset{r};
  }

  lemma CreatedPlaced(s: State, r: Ref, x: Body)
    requires Placed(s) && r !in s.body && r !in s.color && (x.Thread? ==> x.open == [])
    ensures Placed(Created(s, r, x))
  {
    hide OneList;
    CreatedKept(s, r, x);
    CreatedList(s, r, x);
  }

  lemma AllWhiteNew(c: Colors, w: bool, l: seq<Ref>, r: Ref)
    requires r !in c
    ensures AllWhite(c, w, l) ==> AllWhite(c[r := White(w)], w, l) && AllWhite(c[r := White(w)], w, [r] + l)
  {
  }

  /** A new white object at the head of a list being swept: the sweep has passed it, unless it has not begun. */
  lemma SweepingNew(c: Colors, w: bool, l: seq<Ref>, p: SweepPtr, r: Ref)
    requires r !in c && Sweeping(c, w, l, p)
    ensures Sweeping(c[r := White(w)], w, l, p) && Sweeping(c[r := White(w)], w, [r] + l, p)
  {
    var c' := c[r := White(w)];
    AllWhiteNew(c, w, l, r);
    if p != NoLink {
      var i: nat :| SweptUpTo(c, w, l, p, i);
      AllWhiteNew(c, w, l[..i], r);
      assert SweptUpTo(c', w, l, p, i);
      if i == 0 {
        assert SweptUpTo(c', w, [r] + l, p, 0);
      } else {
        assert ([r] + l)[..i + 1] == [r] + l[..i];
        assert SweptUpTo(c', w, [r] + l, p, i + 1);
      }
    }
  }

  lemma CreatedSweep(s: State, r: Ref, x: Body)
    requires SweepOk(s.gcstate, s.color, s.white, s.sweepgc, s.lists) && r !in s.color
    ensures var s' := Created(s, r, x); SweepOk(s.gcstate, s'.color, s.white, s.sweepgc, s'.lists)
  {
    hide Sweeping, AllWhite;
    AllWhiteNew(s.color, s.white, s.lists.allgc, r);
    AllWhiteNew(s.color, s.white, s.lists.finobj, r);
    AllWhiteNew(s.color, s.white, s.lists.tobefnz, r);
    match s.gcstate
    case SwpAllGc => SweepingNew(s.color, s.white, s.lists.allgc, s.sweepgc, r);
    case SwpFinObj => SweepingNew(s.color, s.white, s.lists.finobj, s.sweepgc, r);
    case SwpToBeFnz => SweepingNew(s.color, s.white, s.lists.tobefnz, s.sweepgc, r);
    case _ =>
  }

  lemma CreatedLinked(b: Heap, c: Colors, w: bool, links: multiset<Ref>, r: Ref, x: Body)
    requires Linked(b, c, links, {}, true) && r !in c && r !in b && (forall o :: o in b ==> UpvalOk(b, o))
    requires c.Keys == b.Keys
    ensures Linked(b[r := x], c[r := White(w)], links, {}, true)
  {
    ExtendRefs(b, r, x);
  }

  lemma CreatedBlack(b: Heap, c: Colors, w: bool, r: Ref, x: Body)
    requires BlackOk(b, c) && r !in c && r !in b && (forall o :: o in b ==> UpvalOk(b, o))
    ensures BlackOk(b[r := x], c[r := White(w)])
  {
    ExtendRefs(b, r, x);
    assert Marked(c) <= Marked(c[r := White(w)]);
  }

  lemma CreatedPhase(s: State, r: Ref, x: Body)
    requires HeapSound(s.body, s.color.Keys, s.Kept()) && PhaseOk(s) && r !in s.body
    ensures PhaseOk(Created(s, r, x))
  {
    hide SweepOk, Linked, BlackOk;
    if KeepInvariant(s.gcstate) {
      CreatedLinked(s.body, s.color, s.white, s.Links(), r, x);
      CreatedBlack(s.body, s.color, s.white, r, x);
      CreatedKept(s, r, x);
    } else {
      CreatedSweep(s, r, x);
    }
  }

  /** The references that a new object starts with must be to objects that the program has. */
  ghost predicate NewOk(s: State, r: Ref, x: Body)
  {
    && r !in s.body && !x.OpenUpVal? && (x.Thread? ==> x.open == [])
    && Refs(s.body[r := x], r) <= s.Kept() && MetaOk(s.body[r := x], r)
  }

  lemma CreatedKeeps(s: State, r: Ref, x: Body)
    requires Inv(s) && NewOk(s, r, x)
    ensures Inv(Created(s, r, x))
  {
    hide Placed, PhaseOk, HistoryOk, HeapSound;
    KeysOf(s.body, s.color.Keys, s.Kept());
    ExtendSound(s.body, r, x, s.color.Keys, s.Kept());
    CreatedKept(s, r, x);
    CreatedPlaced(s, r, x);
    CreatedPhase(s, r, x);
    CreatedHistory(s, r);
  }

  lemma CreatedHistory(s: State, r: Ref)
    requires HistoryOk(s.lists, s.history)
    ensures HistoryOk(s.lists.(allgc := [r] + s.lists.allgc), s.history)
  {
  }

  /** luaC_newobjdt: new objects have the current white, so they survive a sweep that is going on. */
  method NewObject(g: Collector, r: Ref, x: Body)
    requires Inv(StateOf(g)) && NewOk(StateOf(g), r, x)
    modifies g`body, g`color, g`allgc
    ensures Inv(StateOf(g)) && StateOf(g) == Created(old(StateOf(g)), r, x)
  {
    hide Inv, NewOk;
    CreatedKeeps(StateOf(g), r, x);
    SetBody(g, g.body[r := x]);
    LinkNew(g, r);
  }

  // ---- Upvalues and stacks ---------------------------------------------------------------------

  /** A new open upvalue 'u' for a slot of thread 't', with 'open' as the new list of open upvalues. */
  ghost predicate OpenOk(s: State, t: Ref, u: Ref, slot: nat, open: seq<Ref>)
  {
    && t in s.Kept() && t in s.body && s.body[t].Thread? && u !in s.body && slot < |s.body[t].stack|
    && Elems(open) == Elems(s.body[t].open) + {u}
  }

  function OpenBody(b: Heap, t: Ref, u: Ref, slot: nat, open: seq<Ref>): Heap
    requires t in b && b[t].Thread?
  {
    b[t := b[t].(open := open)][u := OpenUpVal(t, slot)]
  }

  ghost function Opened(s: State, t: Ref, u: Ref, slot: nat, open: seq<Ref>): State
    requires t in s.body && s.body[t].Thread?
  {
    s.(body := OpenBody(s.body, t, u, slot, open), color := s.color[u := White(s.white)],
       lists := s.lists.(allgc := [u] + s.lists.allgc), twups := if t in s.twups then s.twups else [t] + s.twups)
  }

  lemma OpenRefs(b: Heap, t: Ref, u: Ref, slot: nat, open: seq<Ref>)
    requires t in b && b[t].Thread? && u !in b && slot < |b[t].stack| && Elems(open) == Elems(b[t].open) + {u}
    requires forall o :: o in b ==> UpvalOk(b, o)
    ensures var b' := OpenBody(b, t, u, slot, open);
            && (forall p :: p in b && p != t ==> Refs(b', p) == Refs(b, p)) && Refs(b', t) == Refs(b, t) + {u}
            && Refs(b', u) <= Refs(b, t) && b'.Keys == b.Keys + {u}
            && (forall p :: p in b ==> CanBeGray(b', p) == CanBeGray(b, p) && NoGrayList(b', p) == NoGrayList(b, p))
  {
    var b' := OpenBody(b, t, u, slot, open);
    forall p | p in b && p != t ensures Refs(b', p) == Refs(b, p) {
      assert UpvalOk(b, p);
    }
    assert b[t].stack[slot] in b[t].stack;
  }

  lemma OpenedSound(b: Heap, t: Ref, u: Ref, slot: nat, open: seq<Ref>, colored: set<Ref>, kept: set<Ref>)
    requires HeapSound(b, colored, kept) && t in kept && b[t].Thread? && u !in b && slot < |b[t].stack|
    requires Elems(open) == Elems(b[t].open) + {u}
    ensures HeapSound(OpenBody(b, t, u, slot, open), colored + {u}, kept + {u})
  {
    var b' := OpenBody(b, t, u, slot, open);
    OpenRefs(b, t, u, slot, open);
    assert forall x :: x in open <==> x in b[t].open || x == u by {
      assert forall x :: x in Elems(open) <==> x in open;
    }
    forall p | p in b ensures UpvalOk(b', p) && ThreadOk(b', p) {
      assert UpvalOk(b, p) && ThreadOk(b, p);
    }
    forall p | p in kept ensures MetaOk(b', p) && Refs(b', p) <= kept + {u} {
      assert MetaOk(b, p);
    }
  }

  lemma OpenedParts(b: Heap, c: Colors, w: bool, kept: set<Ref>, l: Lists, t: Ref, u: Ref, slot: nat, open: seq<Ref>)
    requires t in b && b[t].Thread? && u !in b && c.Keys == b.Keys
    requires CanFinalize(b, kept, l.finobj) && CanFinalize(b, kept, l.tobefnz) && FixedOk(b, c, l.fixedgc)
    ensures CanFinalize(OpenBody(b, t, u, slot, open), kept + {u}, l.finobj)
    ensures CanFinalize(OpenBody(b, t, u, slot, open), kept + {u}, l.tobefnz)
    ensures FixedOk(OpenBody(b, t, u, slot, open), c[u := White(w)], l.fixedgc)
  {
  }

  lemma OpenedTwups(b: Heap, kept: set<Ref>, tw: seq<Ref>, t: Ref, u: Ref, slot: nat, open: seq<Ref>)
    requires t in b && b[t].Thread? && t in kept && u !in b && TwupsSound(b, kept, tw)
    ensures TwupsSound(OpenBody(b, t, u, slot, open), kept + {u}, if t in tw then tw else [t] + tw)
  {
  }

  lemma OpenedRoots(b: Heap, kept: set<Ref>, main: Ref, current: Ref, roots: set<Ref>, t: Ref, u: Ref, slot: nat,
          open: seq<Ref>)
    requires t in b && b[t].Thread? && u !in b && RootsSound(b, kept, main, current, roots)
    ensures RootsSound(OpenBody(b, t, u, slot, open), kept + {u}, main, current, roots)
  {
  }

  lemma OpenedPlaced(s: State, t: Ref, u: Ref, slot: nat, open: seq<Ref>)
    requires Placed(s) && OpenOk(s, t, u, slot, open) && s.color.Keys == s.body.Keys
    ensures Placed(Opened(s, t, u, slot, open)) && Opened(s, t, u, slot, open).Kept() == s.Kept() + {u}
  {
    hide OneList, TwupsSound, CanFinalize, FixedOk, RootsSound;
    var s' := Opened(s, t, u, slot, open);
    OpenedParts(s.body, s.color, s.white, s.Kept(), s.lists, t, u, slot, open);
    OpenedTwups(s.body, s.Kept(), s.twups, t, u, slot, open);
    OpenedRoots(s.body, s.Kept(), s.main, s.current, s.Roots(), t, u, slot, open);
    CreatedKept(s, u, OpenUpVal(t, slot));
    assert s'.Kept() == Created(s, u, OpenUpVal(t, slot)).Kept();
    assert s'.Roots() == s.Roots();
    CreatedList(s, u, OpenUpVal(t, slot));
    SameKeys(s'.body, Created(s, u, OpenUpVal(t, slot)).body, s'.lists);
  }

  lemma SameKeys(b: Heap, b': Heap, l: Lists)
    requires b.Keys == b'.Keys && OneList(b', l)
    ensures OneList(b, l)
  {
  }

  lemma OpenedLinked(b: Heap, c: Colors, w: bool, links: multiset<Ref>, t: Ref, u: Ref, slot: nat, open: seq<Ref>)
    requires Linked(b, c, links, {}, true) && BlackOk(b, c) && c.Keys == b.Keys
    requires (forall o :: o in b ==> UpvalOk(b, o))
    requires t in b && b[t].Thread? && u !in b && slot < |b[t].stack| && Elems(open) == Elems(b[t].open) + {u}
    ensures Linked(OpenBody(b, t, u, slot, open), c[u := White(w)], links, {}, true)
    ensures BlackOk(OpenBody(b, t, u, slot, open), c[u := White(w)])
  {
    hide *;
    OpenRefs(b, t, u, slot, open);
    OpenKinds(b, t, u, slot, open);
    ThreadNotBlack(b, c, links, t);
    KindsLinked(b, c, w, links, u, OpenBody(b, t, u, slot, open));
    RefsBlack(b, c, w, t, u, OpenBody(b, t, u, slot, open));
  }

  lemma ThreadNotBlack(b: Heap, c: Colors, links: multiset<Ref>, t: Ref)
    requires Linked(b, c, links, {}, true) && t in b && b[t].Thread? && t in c
    ensures c[t] != Black
  {
  }

  /** Objects of the same kinds, and a new white one. */
  lemma KindsLinked(b: Heap, c: Colors, w: bool, links: multiset<Ref>, u: Ref, b': Heap)
    requires Linked(b, c, links, {}, true) && c.Keys == b.Keys && u !in b && b'.Keys == b.Keys + {u}
    requires forall p :: p in b ==> CanBeGray(b', p) == CanBeGray(b, p) && NoGrayList(b', p) == NoGrayList(b, p)
    requires forall p :: p in b ==> b'[p].Thread? == b[p].Thread? && b'[p].OpenUpVal? == b[p].OpenUpVal?
    ensures Linked(b', c[u := White(w)], links, {}, true)
  {
    hide CanBeGray, NoGrayList;
  }

  lemma RefsBlack(b: Heap, c: Colors, w: bool, t: Ref, u: Ref, b': Heap)
    requires BlackOk(b, c) && c.Keys == b.Keys && u !in b && t in b && b'.Keys == b.Keys + {u} && c[t] != Black
    requires forall p :: p in b && p != t ==> Refs(b', p) == Refs(b, p)
    ensures BlackOk(b', c[u := White(w)])
  {
    hide Refs;
    assert Marked(c) <= Marked(c[u := White(w)]);
  }

  lemma OpenKinds(b: Heap, t: Ref, u: Ref, slot: nat, open: seq<Ref>)
    requires t in b && b[t].Thread? && u !in b
    ensures var b' := OpenBody(b, t, u, slot, open);
            forall p :: p in b ==> p in b' && b'[p].Thread? == b[p].Thread? && b'[p].OpenUpVal? == b[p].OpenUpVal?
  {
  }

  lemma OpenedKeeps(s: State, t: Ref, u: Ref, slot: nat, open: seq<Ref>)
    requires Inv(s) && OpenOk(s, t, u, slot, open)
    ensures Inv(Opened(s, t, u, slot, open))
  {
    hide Placed, HistoryOk, SweepOk, Linked, BlackOk, HeapSound;
    KeysOf(s.body, s.color.Keys, s.Kept());
    OpenedPlaced(s, t, u, slot, open);
    OpenedSound(s.body, t, u, slot, open, s.color.Keys, s.Kept());
    CreatedHistory(s, u);
    CreatedKept(s, u, OpenUpVal(t, slot));
    if KeepInvariant(s.gcstate) {
      UpvalsOk(s.body, s.color.Keys, s.Kept());
      OpenedLinked(s.body, s.color, s.white, s.Links(), t, u, slot, open);
      assert Opened(s, t, u, slot, open).Links() == s.Links();
    } else {
      CreatedSweep(s, u, OpenUpVal(t, slot));
    }
  }

  lemma UpvalsOk(b: Heap, colored: set<Ref>, kept: set<Ref>)
    requires HeapSound(b, colored, kept)
    ensures forall o :: o in b ==> UpvalOk(b, o) && ThreadOk(b, o)
  {
  }

  lemma OpenTwice(s: State, t: Ref, u: Ref, slot: nat, open: seq<Ref>)
    requires OpenOk(s, t, u, slot, open)
    ensures t in s.body && s.body[t].Thread?
  {
  }

  /** newupval: the upvalue goes to the list of its thread, and the thread to 'twups'. */
  method NewUpVal(g: Collector, t: Ref, u: Ref, slot: nat, open: seq<Ref>)
    requires Inv(StateOf(g)) && OpenOk(StateOf(g), t, u, slot, open)
    modifies g`body, g`color, g`allgc, g`twups
    ensures Inv(StateOf(g)) && t in old(g.body) && old(g.body[t]).Thread?
    ensures StateOf(g) == Opened(old(StateOf(g)), t, u, slot, open)
  {
    hide Inv, OpenOk, OpenBody;
    OpenedKeeps(StateOf(g), t, u, slot, open);
    OpenTwice(StateOf(g), t, u, slot, open);
    LinkOpen(g, t, u, slot, open);
  }

  method LinkOpen(g: Collector, t: Ref, u: Ref, slot: nat, open: seq<Ref>)
    requires t in g.body && g.body[t].Thread?
    modifies g`body, g`color, g`allgc, g`twups
    ensures StateOf(g) == Opened(old(StateOf(g)), t, u, slot, open)
  {
    hide OpenBody;
    LinkNew(g, u);
    if t !in g.twups {
      LinkTwups(g, t);
    }
    SetBody(g, OpenBody(g.body, t, u, slot, open));
  }

  method LinkNew(g: Collector, u: Ref)
    modifies g`color, g`allgc
    ensures var s := old(StateOf(g));
            StateOf(g) == s.(color := s.color[u := White(s.white)], lists := s.lists.(allgc := [u] + s.lists.allgc))
  {
    g.color := g.color[u := White(g.white)];
    g.allgc := [u] + g.allgc;
  }

  method LinkTwups(g: Collector, t: Ref)
    modifies g`twups
    ensures var s := old(StateOf(g)); StateOf(g) == s.(twups := [t] + s.twups)
  {
    g.twups := [t] + g.twups;
  }

  method SetBody(g: Collector, body: Heap)
    modifies g`body
    ensures StateOf(g) == old(StateOf(g)).(body := body)
  {
    g.body := body;
  }

  /** The stack of a thread changes: values come and go, and no barrier is called. */
  ghost predicate StackOk(s: State, t: Ref, stack: seq<Val>)
  {
    && t in s.Kept() && t in s.body && s.body[t].Thread? && PtrsOf(stack) <= s.Kept()
    && (forall u :: u in s.body[t].open && u in s.body && s.body[u].OpenUpVal? ==> s.body[u].slot < |stack|)
  }

  lemma StackRefs(b: Heap, t: Ref, stack: seq<Val>)
    requires t in b && b[t].Thread?
    ensures var b' := b[t := b[t].(stack := stack)];
            && (forall p :: p in b && p != t && !(b[p].OpenUpVal? && b[p].th == t) ==> Refs(b', p) == Refs(b, p))
            && Refs(b', t) == PtrsOf(stack) + Elems(b[t].open)
            && (forall p :: CanBeGray(b', p) == CanBeGray(b, p) && NoGrayList(b', p) == NoGrayList(b, p))
  {
  }

  lemma StackSound(b: Heap, t: Ref, stack: seq<Val>, colored: set<Ref>, kept: set<Ref>)
    requires HeapSound(b, colored, kept) && t in kept && b[t].Thread? && PtrsOf(stack) <= kept
    requires forall u :: u in b[t].open && u in b && b[u].OpenUpVal? ==> b[u].slot < |stack|
    ensures HeapSound(b[t := b[t].(stack := stack)], colored, kept)
  {
    var b' := b[t := b[t].(stack := stack)];
    StackRefs(b, t, stack);
    forall p | p in b ensures UpvalOk(b', p) && ThreadOk(b', p) {
      assert UpvalOk(b, p) && ThreadOk(b, p);
    }
    forall p | p in kept ensures MetaOk(b', p) && Refs(b', p) <= kept {
      assert MetaOk(b, p) && UpvalOk(b, p);
      if b[p].OpenUpVal? && b[p].th == t {
        assert stack[b[p].slot] in stack;
      }
    }
  }

  lemma StackLinked(b: Heap, c: Colors, links: multiset<Ref>, t: Ref, stack: seq<Val>)
    requires Linked(b, c, links, {}, true) && BlackOk(b, c) && t in b && t in c && b[t].Thread?
    ensures Linked(b[t := b[t].(stack := stack)], c, links, {}, true) && BlackOk(b[t := b[t].(stack := stack)], c)
  {
    StackRefs(b, t, stack);
    assert c[t] != Black;
  }

  lemma StackKeeps(s: State, t: Ref, stack: seq<Val>)
    requires Inv(s) && StackOk(s, t, stack)
    ensures Inv(s.(body := s.body[t := s.body[t].(stack := stack)]))
  {
    hide HistoryOk, SweepOk, Linked, BlackOk, HeapSound, OneList;
    var s' := s.(body := s.body[t := s.body[t].(stack := stack)]);
    StackSound(s.body, t, stack, s.color.Keys, s.Kept());
    assert s'.Kept() == s.Kept() && s'.Roots() == s.Roots();
    SameKeys(s'.body, s.body, s.lists);
    if KeepInvariant(s.gcstate) {
      StackLinked(s.body, s.color, s.Links(), t, stack);
      assert s'.Links() == s.Links();
    }
  }

  /** Assignments to the stack of a thread. */
  method SetStack(g: Collector, t: Ref, stack: seq<Val>)
    requires Inv(StateOf(g)) && StackOk(StateOf(g), t, stack)
    modifies g`body
    ensures Inv(StateOf(g)) && t in old(g.body) && old(g.body[t]).Thread?
    ensures g.body == old(g.body)[t := old(g.body[t]).(stack := stack)]
  {
    hide Inv;
    StackKeeps(StateOf(g), t, stack);
    g.body := g.body[t := g.body[t].(stack := stack)];
  }

  // ---- Closing upvalues ------------------------------------------------------------------------

  /** The list without an upvalue, in the same order (luaF_unlinkupval). */
  function Unlinked(l: seq<Ref>, u: Ref): (r: seq<Ref>)
    ensures forall x :: x in r <==> x in l && x != u
  {
    if l == [] then [] else if l[0] == u then Unlinked(l[1..], u) else [l[0]] + Unlinked(l[1..], u)
  }

  /** The upvalue gets its value, and its thread forgets it. */
  function CloseBody(b: Heap, t: Ref, u: Ref): Heap
    requires t in b && b[t].Thread? && u in b && b[u].OpenUpVal?
  {
    b[t := b[t].(open := Unlinked(b[t].open, u))][u := ClosedUpVal(Content(b, u))]
  }

  ghost predicate CloseOk(b: Heap, t: Ref, u: Ref)
  {
    t in b && b[t].Thread? && u in b[t].open && u in b && b[u].OpenUpVal? && b[u].th == t
  }

  lemma CloseRefs(b: Heap, t: Ref, u: Ref)
    requires CloseOk(b, t, u)
    ensures var b' := CloseBody(b, t, u);
            && b'.Keys == b.Keys && (forall p :: p in b && p != t ==> Refs(b', p) == Refs(b, p))
            && Refs(b', t) <= Refs(b, t)
            && (forall p :: CanBeGray(b', p) == CanBeGray(b, p))
            && (forall p :: p != u ==> NoGrayList(b', p) == NoGrayList(b, p))
  {
    var b' := CloseBody(b, t, u);
    forall p | p in b && p != t ensures Refs(b', p) == Refs(b, p) {
      if p != u && b[p].OpenUpVal? && b[p].th == t {
      }
    }
  }

  lemma CloseSound(b: Heap, t: Ref, u: Ref, colored: set<Ref>, kept: set<Ref>)
    requires HeapSound(b, colored, kept) && CloseOk(b, t, u)
    ensures HeapSound(CloseBody(b, t, u), colored, kept)
  {
    var b' := CloseBody(b, t, u);
    CloseRefs(b, t, u);
    forall p | p in b ensures UpvalOk(b', p) && ThreadOk(b', p) {
      assert UpvalOk(b, p) && ThreadOk(b, p);
    }
    forall p | p in kept ensures MetaOk(b', p) && Refs(b', p) <= kept {
      assert MetaOk(b, p);
    }
  }

  /** Closing, and painting the upvalue black if it is marked. */
  ghost function Closing(s: State, t: Ref, u: Ref): State
    requires CloseOk(s.body, t, u) && u in s.color
  {
    s.(body := CloseBody(s.body, t, u), color := if s.color[u].White? then s.color else s.color[u := Black])
  }

  lemma ClosingPlaced(s: State, t: Ref, u: Ref)
    requires Placed(s) && CloseOk(s.body, t, u) && u in s.color
    ensures Placed(Closing(s, t, u)) && Closing(s, t, u).Kept() == s.Kept()
    ensures Closing(s, t, u).color.Keys == s.color.Keys
  {
    hide OneList, TwupsSound, CanFinalize, FixedOk, RootsSound;
    var s' := Closing(s, t, u);
    assert s'.Kept() == s.Kept() && s'.Roots() == s.Roots();
    assert s'.body.Keys == s.body.Keys;
    SameKeys(s'.body, s.body, s.lists);
    ClosingParts(s.body, s.color, s'.color, s.Kept(), s.lists, t, u);
    ClosingTwups(s.body, s.Kept(), s.twups, t, u);
    ClosingRoots(s.body, s.Kept(), s.main, s.current, s.Roots(), t, u);
  }

  lemma ClosingParts(b: Heap, c: Colors, c': Colors, kept: set<Ref>, l: Lists, t: Ref, u: Ref)
    requires CloseOk(b, t, u) && (c' == c || c' == c[u := Black])
    requires CanFinalize(b, kept, l.finobj) && CanFinalize(b, kept, l.tobefnz) && FixedOk(b, c, l.fixedgc)
    ensures CanFinalize(CloseBody(b, t, u), kept, l.finobj) && CanFinalize(CloseBody(b, t, u), kept, l.tobefnz)
    ensures FixedOk(CloseBody(b, t, u), c', l.fixedgc)
  {
  }

  lemma ClosingTwups(b: Heap, kept: set<Ref>, tw: seq<Ref>, t: Ref, u: Ref)
    requires CloseOk(b, t, u) && TwupsSound(b, kept, tw)
    ensures TwupsSound(CloseBody(b, t, u), kept, tw)
  {
  }

  lemma ClosingRoots(b: Heap, kept: set<Ref>, main: Ref, current: Ref, roots: set<Ref>, t: Ref, u: Ref)
    requires CloseOk(b, t, u) && RootsSound(b, kept, main, current, roots)
    ensures RootsSound(CloseBody(b, t, u), kept, main, current, roots)
  {
  }

  lemma ClosingLinked(b: Heap, c: Colors, c': Colors, links: multiset<Ref>, t: Ref, u: Ref)
    requires Linked(b, c, links, {}, true) && BlackOk(b, c) && CloseOk(b, t, u) && u in c && c.Keys == b.Keys
    requires c' == if c[u].White? then c else c[u := Black]
    ensures Linked(CloseBody(b, t, u), c', links, {}, true) && BlackOkBut(CloseBody(b, t, u), c', u)
    ensures Marked(c') == Marked(c)
  {
    CloseRefs(b, t, u);
    ClosingMarks(c, c', u);
    ClosingLinks(b, CloseBody(b, t, u), c, c', links, t, u);
    ClosingBlack(b, CloseBody(b, t, u), c, c', t, u);
  }

  lemma ClosingMarks(c: Colors, c': Colors, u: Ref)
    requires u in c && c' == if c[u].White? then c else c[u := Black]
    ensures Marked(c') == Marked(c)
  {
    MarkedPut(c, u, Black);
    assert !c[u].White? ==> Marked(c) + {u} == Marked(c);
  }

  lemma CloseKinds(b: Heap, t: Ref, u: Ref)
    requires CloseOk(b, t, u)
    ensures var b' := CloseBody(b, t, u);
            && b'.Keys == b.Keys
            && (forall p :: p in b && p != u ==> b'[p].Thread? == b[p].Thread? && b'[p].OpenUpVal? == b[p].OpenUpVal?)
            && !b'[u].Thread? && !b'[u].OpenUpVal? && !CanBeGray(b, u)
  {
  }

  lemma ClosingLinks(b: Heap, b': Heap, c: Colors, c': Colors, links: multiset<Ref>, t: Ref, u: Ref)
    requires Linked(b, c, links, {}, true) && CloseOk(b, t, u) && u in c && b' == CloseBody(b, t, u)
    requires forall p :: CanBeGray(b', p) == CanBeGray(b, p)
    requires forall p :: p != u ==> NoGrayList(b', p) == NoGrayList(b, p)
    requires c' == if c[u].White? then c else c[u := Black]
    ensures Linked(b', c', links, {}, true)
  {
    hide CanBeGray, NoGrayList, CloseBody, CloseOk;
    CloseKinds(b, t, u);
    assert u !in links;
  }

  lemma ClosingBlack(b: Heap, b': Heap, c: Colors, c': Colors, t: Ref, u: Ref)
    requires BlackOk(b, c) && CloseOk(b, t, u) && u in c && b' == CloseBody(b, t, u) && Marked(c') == Marked(c)
    requires (forall p :: p in b && p != t ==> Refs(b', p) == Refs(b, p)) && Refs(b', t) <= Refs(b, t)
    requires c' == if c[u].White? then c else c[u := Black]
    ensures BlackOkBut(b', c', u)
  {
    hide Refs, Marked;
  }

  /** The state before the barrier of luaF_closeupval. */
  lemma ClosingPhase(s: State, t: Ref, u: Ref)
    requires PhaseOk(s) && CloseOk(s.body, t, u) && u in s.color && s.color.Keys == s.body.Keys
    ensures !KeepInvariant(s.gcstate) ==> PhaseOk(Closing(s, t, u))
    ensures var s' := Closing(s, t, u);
            KeepInvariant(s.gcstate) ==>
              && WhitesOk(s'.color, s.white) && Linked(s'.body, s'.color, s'.Links(), {}, true)
              && BlackOkBut(s'.body, s'.color, u)
              && s.main in Marked(s'.color) && s.sweepgc == NoLink
              && s.grays.weak == [] && s.grays.allweak == [] && s.grays.ephemeron == []
  {
    hide SweepOk, Linked, BlackOk, BlackOkBut, CloseOk, CloseBody;
    var s' := Closing(s, t, u);
    assert s'.Links() == s.Links();
    if KeepInvariant(s.gcstate) {
      ClosingLinked(s.body, s.color, s'.color, s.Links(), t, u);
      WhitesPaint(s.color, s.white, u, Black);
    } else if !s.color[u].White? {
      SweepPaint(s.gcstate, s.color, s.white, s.sweepgc, s.lists, u, Black);
    }
  }

  lemma ClosingKeeps(s: State, t: Ref, u: Ref)
    requires HeapSound(s.body, s.color.Keys, s.Kept()) && Placed(s) && CloseOk(s.body, t, u)
    ensures u in s.color && s.color.Keys == s.body.Keys
    ensures var s' := Closing(s, t, u); HeapSound(s'.body, s'.color.Keys, s'.Kept()) && Placed(s')
    ensures Content(s.body, u).Ptr? ==> Content(s.body, u).r in s.color || u !in s.Kept()
    ensures u in s.Kept() ==> PtrSet(Content(s.body, u)) <= s.Kept()
    ensures Refs(CloseBody(s.body, t, u), u) == PtrSet(Content(s.body, u))
  {
    hide HeapSound, Placed;
    KeysOf(s.body, s.color.Keys, s.Kept());
    ClosingPlaced(s, t, u);
    CloseSound(s.body, t, u, s.color.Keys, s.Kept());
    if u in s.Kept() { SoundRefs(s.body, s.color.Keys, s.Kept(), u); }
  }

  lemma SoundRefs(b: Heap, colored: set<Ref>, kept: set<Ref>, o: Ref)
    requires HeapSound(b, colored, kept) && o in kept
    ensures o in b && Refs(b, o) <= kept
  {
  }

  lemma CloseQuiet(b: Heap, c: Colors, u: Ref)
    requires BlackOkBut(b, c, u) && u in c && u in b && (c[u] == Black ==> Refs(b, u) <= Marked(c))
    ensures BlackOk(b, c)
  {
  }

  /** No barrier: the upvalue is not marked, or its value is. */
  lemma ClosedNoBarrier(s: State, t: Ref, u: Ref)
    requires Inv(s) && CloseOk(s.body, t, u) && u in s.color && s.color.Keys == s.body.Keys
    requires s.color[u].White? || !Content(s.body, u).Ptr?
             || (Content(s.body, u).r in s.color && !Closing(s, t, u).color[Content(s.body, u).r].White?)
    ensures Inv(Closing(s, t, u))
  {
    hide HeapSound, Placed, HistoryOk, SweepOk, WhitesOk, Linked, BlackOkBut, BlackOk;
    ClosingKeeps(s, t, u);
    ClosingPhase(s, t, u);
    var s' := Closing(s, t, u);
    if KeepInvariant(s.gcstate) {
      NotBlack(s, u);
      CloseQuiet(s'.body, s'.color, u);
    }
  }

  lemma NotBlack(s: State, u: Ref)
    requires KeepInvariant(s.gcstate) && PhaseOk(s) && u in s.body && s.body[u].OpenUpVal? && u in s.color
    ensures s.color[u] != Black
  {
  }

  /** With the barrier, while sweeping. */
  lemma ClosedSweep(s: State, t: Ref, u: Ref)
    requires Inv(s) && CloseOk(s.body, t, u) && u in s.Kept() && u in s.color && !KeepInvariant(s.gcstate)
    ensures Inv(Whitened(Closing(s, t, u), u)) && Whitened(Closing(s, t, u), u).Kept() == s.Kept()
  {
    hide HeapSound, Placed, HistoryOk, SweepOk, PhaseOk;
    ClosingKeeps(s, t, u);
    ClosingPhase(s, t, u);
    WhitenKeeps(Closing(s, t, u), u);
  }

  /** Before the barrier, while marking. */
  lemma ClosedMark(s: State, t: Ref, u: Ref)
    requires Inv(s) && CloseOk(s.body, t, u) && u in s.color && KeepInvariant(s.gcstate) && !s.color[u].White?
    requires Content(s.body, u).Ptr?
    ensures var s' := Closing(s, t, u);
            && HeapSound(s'.body, s'.color.Keys, s'.Kept()) && Placed(s') && HistoryOk(s'.lists, s'.history)
            && WhitesOk(s'.color, s.white) && Linked(s'.body, s'.color, s'.Links(), {}, true)
            && BlackOkBut(s'.body, s'.color, u) && s.main in Marked(s'.color) && s.sweepgc == NoLink
            && s.grays.weak == [] && s.grays.allweak == [] && s.grays.ephemeron == []
            && u in s'.body && !s'.body[u].Thread?
            && Refs(s'.body, u) <= Marked(s'.color) + {Content(s.body, u).r}
  {
    hide HeapSound, Placed, HistoryOk, SweepOk, WhitesOk, Linked, BlackOkBut, BlackOk;
    ClosingKeeps(s, t, u);
    ClosingPhase(s, t, u);
  }

  lemma CloseFacts(s: State, t: Ref, u: Ref)
    requires Inv(s) && t in s.body && s.body[t].Thread? && u in s.body[t].open
    ensures CloseOk(s.body, t, u) && u in s.color && s.color.Keys == s.body.Keys
    ensures Content(s.body, u).Ptr? ==> Content(s.body, u).r in s.color || u !in s.Kept()
    ensures u in s.color && !s.color[u].White? ==> u in s.Kept()
  {
    KeysOf(s.body, s.color.Keys, s.Kept());
    UpvalsOk(s.body, s.color.Keys, s.Kept());
    assert ThreadOk(s.body, t);
    ClosingKeeps(s, t, u);
  }

  /**
   luaF_closeupval for one upvalue: it keeps its value, now its own; if it was visited, that value goes
   through a barrier.
   */
  method CloseUpVal(g: Collector, t: Ref, u: Ref)
    requires Inv(StateOf(g)) && t in g.body && g.body[t].Thread? && u in g.body[t].open
    modifies g`body, g`color, g`gray
    ensures Inv(StateOf(g)) && CloseOk(old(g.body), t, u) && g.body == CloseBody(old(g.body), t, u)
    ensures StateOf(g).Kept() == old(StateOf(g).Kept())
    ensures !KeepInvariant(g.gcstate) ==> WhitesStay(old(g.color), g.color, g.white)
  {
    hide *;
    ghost var s := StateOf(g);
    StateNow(g);
    CloseFacts(s, t, u);
    CloseIs(s.body, t, u);
    ClosingSameKept(s, t, u);
    var v, white := Content(g.body, u), g.color[u].White?;
    PutClosed(g, t, u);
    ClosedFields(s, t, u);
    StateNow(g);
    if white {
      ClosedNoBarrier(s, t, u);
    } else {
      ValueBarrier(g, s, t, u, v);
    }
  }

  lemma StateNow(g: Collector)
    ensures StateOf(g).body == g.body && StateOf(g).color == g.color && StateOf(g).white == g.white
    ensures StateOf(g).gcstate == g.gcstate
  {
  }

  lemma ClosedFields(s: State, t: Ref, u: Ref)
    requires CloseOk(s.body, t, u) && u in s.color
    ensures var s' := Closing(s, t, u);
            && s'.body == CloseBody(s.body, t, u) && s'.white == s.white && s'.gcstate == s.gcstate
            && WhitesStay(s.color, s'.color, s.white)
  {
    hide CloseBody, CloseOk;
  }

  /** The barrier of luaF_closeupval, for an upvalue that is marked. */
  method ValueBarrier(g: Collector, ghost s: State, ghost t: Ref, u: Ref, v: Val)
    requires Inv(s) && CloseOk(s.body, t, u) && u in s.color && s.color.Keys == s.body.Keys
    requires !s.color[u].White? && u in s.Kept()
    requires StateOf(g) == Closing(s, t, u) && v == Content(s.body, u) && (v.Ptr? ==> v.r in s.color)
    modifies g`color, g`gray
    ensures Inv(StateOf(g)) && StateOf(g).Kept() == old(StateOf(g).Kept())
    ensures !KeepInvariant(g.gcstate) ==> WhitesStay(s.color, g.color, g.white)
  {
    hide Inv, NeedsBarrier, HeapSound, Placed, HistoryOk, Linked, WhitesOk, BlackOkBut, Refs, Marked, PhaseOk, CloseOk;
    hide CloseBody;
    ClosingSameKept(s, t, u);
    if v.Ptr? && g.color[v.r].White? {
      if KeepInvariant(g.gcstate) {
        ClosedMark(s, t, u);
        BarrierMark(g, u, v.r);
      } else {
        ClosedSweep(s, t, u);
        g.color := g.color[u := White(g.white)];
      }
    } else {
      ClosedNoBarrier(s, t, u);
    }
  }

  /** luaF_closeupval before its barrier. */
  method PutClosed(g: Collector, t: Ref, u: Ref)
    requires u in g.color && CloseOk(g.body, t, u)
    modifies g`body, g`color
    ensures StateOf(g) == Closing(old(StateOf(g)), t, u)
  {
    hide CloseBody;
    g.body := CloseBody(g.body, t, u);
    if !g.color[u].White? {
      g.color := g.color[u := Black];
    }
  }

  /** Objects that have the current white keep it, as long as they exist. */
  ghost predicate WhitesStay(c: Colors, c': Colors, w: bool)
  {
    && c'.Keys <= c.Keys
    && forall p :: p in c' && c[p] == White(w) ==> c'[p] == White(w)
  }

  lemma WhitesStayTrans(c: Colors, c': Colors, c'': Colors, w: bool)
    requires WhitesStay(c, c', w) && WhitesStay(c', c'', w)
    ensures WhitesStay(c, c'', w)
  {
  }

  lemma WhitesStayRefl(c: Colors, w: bool)
    ensures WhitesStay(c, c, w)
  {
  }

  lemma CloseIs(b: Heap, t: Ref, u: Ref)
    requires CloseOk(b, t, u)
    ensures t in b && b[t].Thread? && u in b && b[u].OpenUpVal?
  {
  }

  lemma ClosingSameKept(s: State, t: Ref, u: Ref)
    requires CloseOk(s.body, t, u) && u in s.color
    ensures Closing(s, t, u).Kept() == s.Kept()
  {
  }

  // ---- Roots and strings -------------------------------------------------------------------------

  lemma RootsKeep(s: State, current: Ref, registry: Val, mt: seq<Val>)
    requires Inv(s) && current in s.Kept() && current in s.body && s.body[current].Thread?
    requires PtrSet(registry) + PtrsOf(mt) <= s.Kept()
    ensures Inv(s.(current := current, registry := registry, mt := mt))
  {
    hide HeapSound, OneList, CanFinalize, FixedOk, TwupsSound, SweepOk, HistoryOk;
    var s' := s.(current := current, registry := registry, mt := mt);
    assert s'.Kept() == s.Kept() && s'.Links() == s.Links();
  }

  /** The registry, the global metatables, and the running thread change without barriers. */
  method SetRoots(g: Collector, current: Ref, registry: Val, mt: seq<Val>)
    requires Inv(StateOf(g)) && current in StateOf(g).Kept() && current in g.body && g.body[current].Thread?
    requires PtrSet(registry) + PtrsOf(mt) <= StateOf(g).Kept()
    modifies g`current, g`registry, g`mt
    ensures Inv(StateOf(g)) && g.current == current && g.registry == registry && g.mt == mt
  {
    hide Inv;
    RootsKeep(StateOf(g), current, registry, mt);
    g.current, g.registry, g.mt := current, registry, mt;
  }

  lemma ReviveParts(b: Heap, c: Colors, c': Colors, kept: set<Ref>, l: Lists, tw: seq<Ref>, r: Ref)
    requires IsStr(b, r) && r in c && c[r].White? && r in c' && c' == c[r := c'[r]]
    requires HeapSound(b, c.Keys, kept) && TwupsSound(b, kept, tw)
    requires CanFinalize(b, kept, l.finobj) && CanFinalize(b, kept, l.tobefnz) && FixedOk(b, c, l.fixedgc)
    ensures HeapSound(b, c'.Keys, kept + {r}) && TwupsSound(b, kept + {r}, tw)
    ensures CanFinalize(b, kept + {r}, l.finobj) && CanFinalize(b, kept + {r}, l.tobefnz) && FixedOk(b, c', l.fixedgc)
  {
    assert Refs(b, r) == {};
    forall o | o in kept + {r} ensures MetaOk(b, o) && Refs(b, o) <= kept + {r} {
    }
  }

  lemma ReviveRoots(b: Heap, kept: set<Ref>, main: Ref, current: Ref, roots: set<Ref>, r: Ref)
    requires RootsSound(b, kept, main, current, roots)
    ensures RootsSound(b, kept + {r}, main, current, roots)
  {
  }

  lemma ReviveKeeps(s: State, r: Ref)
    requires Inv(s) && IsStr(s.body, r) && r in s.color && s.color[r] == White(!s.white)
    ensures Inv(s.(color := s.color[r := White(s.white)]))
    ensures s.(color := s.color[r := White(s.white)]).Kept() == s.Kept() + {r}
  {
    hide OneList, SweepOk, HistoryOk, HeapSound, CanFinalize, FixedOk, TwupsSound, RootsSound, Linked, BlackOk;
    var s' := s.(color := s.color[r := White(s.white)]);
    assert s'.Kept() == s.Kept() + {r} && s'.Roots() == s.Roots();
    ReviveParts(s.body, s.color, s'.color, s.Kept(), s.lists, s.twups, r);
    ReviveRoots(s.body, s.Kept(), s.main, s.current, s.Roots(), r);
    if !KeepInvariant(s.gcstate) {
      SweepPaint(s.gcstate, s.color, s.white, s.sweepgc, s.lists, r, White(s.white));
    }
  }

  /** internshrstr finds a string in the string table: if it is dead but not collected yet, it is resurrected. */
  method FindString(g: Collector, r: Ref)
    requires Inv(StateOf(g)) && IsStr(g.body, r)
    modifies g`color
    ensures Inv(StateOf(g)) && StateOf(g).Kept() == old(StateOf(g).Kept()) + {r}
  {
    hide Inv, IsStr;
    InvKeys(StateOf(g), r);
    if g.color[r] == White(!g.white) {
      ReviveKeeps(StateOf(g), r);
      g.color := g.color[r := White(g.white)];
    }
  }

  lemma InvKeys(s: State, r: Ref)
    requires Inv(s)
    ensures s.color.Keys == s.body.Keys
    ensures IsStr(s.body, r) ==> r in s.color && (s.color[r] != White(!s.white) ==> s.Kept() + {r} == s.Kept())
  {
    KeysOf(s.body, s.color.Keys, s.Kept());
  }

  /** The first object of 'allgc' goes to 'fixedgc'. */
  ghost function Fixed(s: State): State
    requires s.lists.allgc != []
  {
    s.(color := s.color[s.lists.allgc[0] := Gray],
       lists := s.lists.(allgc := s.lists.allgc[1..], fixedgc := [s.lists.allgc[0]] + s.lists.fixedgc))
  }

  lemma FixKeeps(s: State)
    requires Inv(s) && s.gcstate == Pause && s.lists.allgc != [] && IsStr(s.body, s.lists.allgc[0])
    ensures Inv(Fixed(s)) && Fixed(s).Kept() == s.Kept()
  {
    hide HeapSound, TwupsSound, OneList, AllWhite, HistoryOk, FixedOk, RootsSound;
    var s' := Fixed(s);
    KeysOf(s.body, s.color.Keys, s.Kept());
    FixColors(s.body, s.color, s.white, s.lists);
    assert s'.Kept() == s.Kept();
    assert s'.Roots() == s.Roots();
    FixLists(s);
    FixHistory(s);
  }

  lemma FixHistory(s: State)
    requires HistoryOk(s.lists, s.history) && s.lists.allgc != []
    ensures HistoryOk(Fixed(s).lists, s.history)
  {
  }

  lemma FixLists(s: State)
    requires OneList(s.body, s.lists) && s.lists.allgc != []
    ensures OneList(s.body, Fixed(s).lists)
  {
    var o, l := s.lists.allgc[0], Fixed(s).lists;
    assert s.lists.allgc == [o] + s.lists.allgc[1..];
    assert multiset(s.lists.allgc) == multiset{o} + multiset(s.lists.allgc[1..]);
    assert multiset(l.fixedgc) == multiset{o} + multiset(s.lists.fixedgc);
  }

  lemma FixColors(b: Heap, c: Colors, w: bool, l: Lists)
    requires OneList(b, l) && l.allgc != [] && IsStr(b, l.allgc[0]) && FixedOk(b, c, l.fixedgc)
    requires AllWhite(c, w, l.allgc) && AllWhite(c, w, l.finobj) && AllWhite(c, w, l.tobefnz)
    ensures var o := l.allgc[0]; var c' := c[o := Gray];
            && o in c && c[o] == White(w) && c'.Keys == c.Keys
            && AllWhite(c', w, l.allgc[1..]) && AllWhite(c', w, l.finobj) && AllWhite(c', w, l.tobefnz)
            && FixedOk(b, c', [o] + l.fixedgc)
  {
    FixOthers(b, l);
  }

  /** The fixed string is in no other list, so nothing that must be white is painted. */
  lemma FixOthers(b: Heap, l: Lists)
    requires OneList(b, l) && l.allgc != []
    ensures var o := l.allgc[0]; o !in l.allgc[1..] && o !in l.finobj && o !in l.tobefnz
  {
    var o := l.allgc[0];
    assert l.allgc == [o] + l.allgc[1..];
    var all := multiset(l.allgc) + multiset(l.finobj) + multiset(l.tobefnz) + multiset(l.fixedgc);
    assert all[o] <= 1;
    assert multiset(l.allgc)[o] == 1 + multiset(l.allgc[1..])[o];
  }

  /** luaC_fix, which only runs while a state is being built, before any collection. */
  method Fix(g: Collector)
    requires Inv(StateOf(g)) && g.gcstate == Pause && g.allgc != [] && IsStr(g.body, g.allgc[0])
    modifies g`color, g`allgc, g`fixedgc
    ensures Inv(StateOf(g)) && g.fixedgc == [old(g.allgc[0])] + old(g.fixedgc) && g.allgc == old(g.allgc[1..])
  {
    hide Inv, IsStr;
    FixKeeps(StateOf(g));
    g.color := g.color[g.allgc[0] := Gray];
    g.fixedgc := [g.allgc[0]] + g.fixedgc;
    g.allgc := g.allgc[1..];
  }
}
