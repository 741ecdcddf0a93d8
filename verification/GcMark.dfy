/**
 Marking (lgc.c, "Mark functions" and "Traverse functions").  All of it keeps one invariant: a
 marked object is pending, or what it refers to is marked too, up to the references that a weak
 table may still lose.  At the same time nothing is marked outside any set that is closed under
 the references that keep objects alive, so what gets marked is no more than what must be.
 */
module GcMark {
  import opened GcHeap

  /**
   What "pending" and "in a weak list" mean at some point of a collection.  The open upvalues in
   'loose' may have got an unmarked value since they were marked: their stack slots have no barrier.
   The final traversal of a thread with open upvalues puts it in 'tw'.
   */
  datatype Ctx = Ctx(pend: set<Ref>, weak: set<Ref>, allweak: set<Ref>, eph: set<Ref>, loose: set<Ref>, tw: set<Ref>)

  /** The marked object 'o' needs no more work than its place in the lists of 'x' promises. */
  ghost predicate OkAt(b: Heap, nw: set<Ref>, x: Ctx, o: Ref)
    requires o in b
  {
    || o in x.pend
    || (Refs(b, o) <= nw && (b[o].Thread? && b[o].open != [] ==> o in x.tw))
    || (b[o].OpenUpVal? && (o in x.loose || b[o].th in x.pend))
    || (b[o].Table? && PtrSet(b[o].meta) <= nw && WeakOk(b, nw, x, o))
  }

  /** A weak table that was traversed: what is still unmarked will be looked at again or cleared. */
  ghost predicate WeakOk(b: Heap, nw: set<Ref>, x: Ctx, o: Ref)
    requires o in b && b[o].Table?
  {
    match b[o].mode
    case Strong => false
    case WeakValues => KeyRefs(b[o].node) <= nw && o in x.weak
    case Ephemeron =>
      PtrsOf(b[o].arr) <= nw && (o in x.eph || (ValRefs(b[o].node) <= nw && o in x.allweak))
    case AllWeak => o in x.allweak
  }

  /** The entry keeps its value alive when 's' is alive: its key is a value, a string, or in 's'. */
  ghost predicate KeyHolds(b: Heap, s: set<Ref>, e: Entry)
  {
    e.val != Empty && (!e.key.Ptr? || IsStr(b, e.key.r) || e.key.r in s)
  }

  /** The references of 'o' that keep objects of 's' alive; strings are never weak. */
  ghost predicate HoldsAt(b: Heap, s: set<Ref>, o: Ref)
    requires o in b
  {
    match b[o]
    case Table(mode, meta, arr, node) =>
      && PtrSet(meta) <= s
      && (mode == Strong || mode == Ephemeron ==> PtrsOf(arr) <= s)
      && (mode == Strong || mode == WeakValues ==> KeyRefs(node) <= s)
      && (mode == Strong ==> ValRefs(node) <= s)
      && (mode == Ephemeron ==> forall e :: e in node && KeyHolds(b, s, e) && e.val.Ptr? ==> e.val.r in s)
      && (forall r :: r in Refs(b, o) && IsStr(b, r) ==> r in s)
    case _ => Refs(b, o) <= s
  }

  /** 's' is closed under the references that keep objects alive. */
  ghost predicate Closed(b: Heap, s: set<Ref>)
  {
    forall o :: o in s && o in b ==> HoldsAt(b, s, o)
  }

  /** Gray objects are of the kinds that have a link for the gray lists. */
  predicate CanBeGray(b: Heap, o: Ref)
  {
    o in b && match b[o]
              case Table(_, _, _, _) => true
              case Block(_) => true
              case Thread(_, _) => true
              case Udata(_, uvs) => uvs != []
              case _ => false
  }

  ghost predicate NoDangling(b: Heap)
  {
    forall o :: o in b ==> Refs(b, o) <= b.Keys
  }

  ghost function CtxOf(g: Collector, extra: set<Ref>, loose: set<Ref>): Ctx
    reads g`body, g`gcstate, g`gray, g`grayagain, g`weak, g`allweak, g`ephemeron, g`twups
  {
    Ctx(Elems(g.gray) + extra + (if g.gcstate != Atomic then Elems(g.grayagain) else {}),
        Elems(g.weak), Elems(g.allweak), Elems(g.ephemeron), loose,
        if g.gcstate == Atomic then Elems(g.twups) else g.body.Keys)
  }

  ghost predicate AllOk(b: Heap, nw: set<Ref>, x: Ctx)
  {
    forall o :: o in nw ==> o in b && OkAt(b, nw, x, o)
  }

  /** Where a traversal leaves its object. */
  datatype Dest = Nowhere | ToGrayAgain | ToWeak | ToAllWeak | ToEphemeron

  /** The object may be left at 'd': it needs no more work than that place promises. */
  ghost predicate MayLeave(b: Heap, nw: set<Ref>, st: GcState, o: Ref, d: Dest)
    requires o in b
  {
    match d
    case Nowhere => Refs(b, o) <= nw
    case ToGrayAgain => st != Atomic
    case ToWeak => b[o].Table? && b[o].mode == WeakValues && PtrSet(b[o].meta) + KeyRefs(b[o].node) <= nw
    case ToEphemeron => b[o].Table? && b[o].mode == Ephemeron && PtrSet(b[o].meta) + PtrsOf(b[o].arr) <= nw
    case ToAllWeak =>
      && b[o].Table? && PtrSet(b[o].meta) <= nw
      && (b[o].mode == AllWeak || (b[o].mode == Ephemeron && PtrsOf(b[o].arr) + ValRefs(b[o].node) <= nw))
  }

  /** The tables in a list of weak tables are marked, and all that their list takes for granted is too. */
  ghost predicate TablesIn(b: Heap, nw: set<Ref>, l: seq<Ref>, d: Dest)
  {
    forall o :: o in l ==> o in b && b[o].Table? && o in nw && MayLeave(b, nw, Atomic, o, d)
  }

  /** The heap is closed, and nothing outside 's' is marked. */
  ghost predicate HeapOk(b: Heap, colored: set<Ref>, nw: set<Ref>, s: set<Ref>)
  {
    colored == b.Keys && WfBody(b) && NoDangling(b) && Closed(b, s) && nw <= s
  }

  /** Only marked objects of the right kinds are linked in gray lists. */
  ghost predicate ListsOk(b: Heap, nw: set<Ref>, gray: seq<Ref>, weak: seq<Ref>, allweak: seq<Ref>, eph: seq<Ref>)
  {
    && (forall o :: o in gray ==> CanBeGray(b, o) && o in nw)
    && TablesIn(b, nw, weak, ToWeak) && TablesIn(b, nw, allweak, ToAllWeak) && TablesIn(b, nw, eph, ToEphemeron)
  }

  /** No object is dead while marking goes on: all white objects have the current white. */
  ghost predicate WhitesOk(c: Colors, w: bool)
  {
    forall r :: r in c && c[r].White? ==> c[r].kind == w
  }

  /** Open upvalues stay gray out of any list, and so do fixed strings. */
  predicate NoGrayList(b: Heap, o: Ref)
  {
    o in b && (b[o].OpenUpVal? || b[o].Str?)
  }

  /** All the links of the gray lists; an object has only one link. */
  ghost function Links(g: Collector): multiset<Ref>
    reads g`gray, g`grayagain, g`weak, g`allweak, g`ephemeron
  {
    multiset(g.gray) + multiset(g.grayagain) + multiset(g.weak) + multiset(g.allweak) + multiset(g.ephemeron)
  }

  /**
   An object is in at most one gray list, only once, and only if it is marked.  Whenever the program
   can run ('exact'), an object is gray exactly when it is in a gray list, with the exceptions above;
   a thread is in a gray list as soon as it is marked, and open upvalues are never black, as there
   are no barriers for the stack.
   */
  ghost predicate Linked(b: Heap, c: Colors, links: multiset<Ref>, extra: set<Ref>, exact: bool)
  {
    && (forall o :: o in links ==> links[o] == 1 && CanBeGray(b, o) && o in c && !c[o].White? && o !in extra)
    && (forall o :: o in extra ==> o in c && !c[o].White?)
    && (exact ==>
          && (forall o :: o in links ==> c[o] == Gray)
          && (forall o :: o in c && c[o] == Gray ==> o in links || NoGrayList(b, o))
          && (forall o :: o in c && !c[o].White? && o in b && b[o].Thread? ==> o in links || o in extra)
          && (forall o :: o in c && c[o] == Black && o in b ==> !b[o].OpenUpVal?))
  }

  lemma LinkedPaint(b: Heap, c: Colors, links: multiset<Ref>, extra: set<Ref>, exact: bool, o: Ref, k: Color)
    requires Linked(b, c, links, extra, exact) && o in c && !k.White? && !CanBeGray(b, o)
    requires exact ==> o in b && if k == Gray then NoGrayList(b, o) else !b[o].OpenUpVal?
    ensures Linked(b, c[o := k], links, extra + {o}, exact) && Linked(b, c[o := k], links, extra, exact)
  {
  }

  lemma LinkedAdd(b: Heap, c: Colors, links: multiset<Ref>, extra: set<Ref>, exact: bool, o: Ref)
    requires Linked(b, c, links, extra, exact) && CanBeGray(b, o) && o in c && o !in links && o !in extra
    ensures Linked(b, c[o := Gray], links + multiset{o}, extra, exact)
  {
  }

  lemma LinkedTake(b: Heap, c: Colors, links: multiset<Ref>, extra: set<Ref>, exact: bool, o: Ref)
    requires Linked(b, c, links + multiset{o}, extra, exact) && o in c
    ensures Linked(b, c[o := Black], links, extra + {o}, exact) && o !in extra
  {
    var all := links + multiset{o};
    assert all[o] == links[o] + 1;
    assert forall x :: x in links ==> x in all && x != o;
  }

  lemma LinkedMove(b: Heap, c: Colors, links: multiset<Ref>, l: seq<Ref>, extra: set<Ref>)
    requires Linked(b, c, links + multiset(l), extra, false)
    ensures Linked(b, c, links, extra + Elems(l), false) && extra !! Elems(l) && Distinct(l)
  {
    var all := links + multiset(l);
    forall o | o in links ensures o in all && o !in l {
      assert all[o] == links[o] + multiset(l)[o];
    }
    forall o | o in l ensures o in all && multiset(l)[o] == 1 { assert all[o] == links[o] + multiset(l)[o]; }
  }

  /** No object is twice in 'l'. */
  ghost predicate Distinct(l: seq<Ref>)
  {
    forall o :: o in l ==> multiset(l)[o] == 1
  }

  lemma DistinctTail(l: seq<Ref>)
    requires Distinct(l) && l != []
    ensures Distinct(l[1..]) && l[0] !in l[1..]
  {
    assert l == [l[0]] + l[1..];
    forall o | o in l[1..] ensures multiset(l[1..])[o] == 1 {
      assert multiset(l)[o] == multiset([l[0]])[o] + multiset(l[1..])[o];
    }
    assert multiset(l)[l[0]] == 1 + multiset(l[1..])[l[0]];
  }

  lemma LinkedWhite(b: Heap, c: Colors, links: multiset<Ref>, extra: set<Ref>, exact: bool, o: Ref)
    requires Linked(b, c, links, extra, exact) && o !in Marked(c)
    ensures o !in links && o !in extra
  {
  }

  /** Object 'o', out of any list while it was traversed, goes to one. */
  lemma LinkedBack(b: Heap, c: Colors, links: multiset<Ref>, extra: set<Ref>, exact: bool, o: Ref)
    requires Linked(b, c, links, extra + {o}, exact) && CanBeGray(b, o) && o in c && o !in extra
    ensures Linked(b, c[o := Gray], links + multiset{o}, extra, exact)
  {
  }

  lemma LinkedBlack(b: Heap, c: Colors, links: multiset<Ref>, extra: set<Ref>, o: Ref)
    requires Linked(b, c, links, extra, false) && o in c
    ensures Linked(b, c[o := Black], links, extra, false)
  {
  }

  lemma LinkedLess(b: Heap, c: Colors, links: multiset<Ref>, extra: set<Ref>, exact: bool, extra': set<Ref>)
    requires Linked(b, c, links, extra, exact) && extra' <= extra
    requires exact ==> forall o :: o in extra && o in b && b[o].Thread? ==> o in extra'
    ensures Linked(b, c, links, extra', exact)
  {
  }

  lemma PendCons(o: Ref, l: seq<Ref>, extra: set<Ref>, again: set<Ref>)
    ensures Elems([o] + l) + extra + again == Elems(l) + extra + again + {o}
  {
  }

  /** The marking invariant; 'extra' are objects still to be traversed besides the gray list. */
  ghost predicate MarkInv(g: Collector, extra: set<Ref>, loose: set<Ref>, s: set<Ref>)
    reads g`body, g`color, g`white, g`gcstate, g`gray, g`grayagain, g`weak, g`allweak, g`ephemeron, g`twups
  {
    && WhitesOk(g.color, g.white) && Linked(g.body, g.color, Links(g), extra, g.gcstate != Atomic)
    && HeapOk(g.body, g.color.Keys, Marked(g.color), s)
    && ListsOk(g.body, Marked(g.color), g.gray, g.weak, g.allweak, g.ephemeron)
    && AllOk(g.body, Marked(g.color), CtxOf(g, extra, loose))
  }

  ghost predicate CtxLe(x: Ctx, y: Ctx)
  {
    && x.pend <= y.pend && x.weak <= y.weak && x.allweak <= y.allweak && x.eph <= y.eph
    && x.loose <= y.loose && x.tw <= y.tw
  }

  /** Marking more objects, or linking more of them, breaks nothing for those already marked. */
  lemma AllOkGrows(b: Heap, nw: set<Ref>, x: Ctx, nw': set<Ref>, x': Ctx)
    requires AllOk(b, nw, x) && nw <= nw' && CtxLe(x, x')
    requires forall o :: o in nw' && o !in nw ==> o in b && OkAt(b, nw', x', o)
    ensures AllOk(b, nw', x')
  {
    forall o | o in nw ensures OkAt(b, nw', x', o) {
      assert OkAt(b, nw, x, o);
    }
  }

  lemma MayLeaveGrows(b: Heap, nw: set<Ref>, nw': set<Ref>, l: seq<Ref>, d: Dest)
    requires TablesIn(b, nw, l, d) && nw <= nw'
    ensures TablesIn(b, nw', l, d)
  {
  }

  /** Marking a white object that then needs no more work than its place promises. */
  lemma MarkNew(b: Heap, colored: set<Ref>, nw: set<Ref>, s: set<Ref>, gray: seq<Ref>,
                weak: seq<Ref>, allweak: seq<Ref>, eph: seq<Ref>, x: Ctx, o: Ref, x': Ctx)
    requires HeapOk(b, colored, nw, s) && ListsOk(b, nw, gray, weak, allweak, eph) && AllOk(b, nw, x)
    requires o in b && o in s && CtxLe(x, x') && OkAt(b, nw + {o}, x', o)
    ensures HeapOk(b, colored, nw + {o}, s) && ListsOk(b, nw + {o}, gray, weak, allweak, eph)
    ensures CanBeGray(b, o) ==> ListsOk(b, nw + {o}, [o] + gray, weak, allweak, eph)
    ensures AllOk(b, nw + {o}, x')
  {
    MayLeaveGrows(b, nw, nw + {o}, weak, ToWeak);
    MayLeaveGrows(b, nw, nw + {o}, allweak, ToAllWeak);
    MayLeaveGrows(b, nw, nw + {o}, eph, ToEphemeron);
    AllOkGrows(b, nw, x, nw + {o}, x');
  }

  lemma MarkedPut(c: Colors, o: Ref, k: Color)
    requires !k.White?
    ensures Marked(c[o := k]) == Marked(c) + {o}
  {
  }

  /** set2black, nw2black and set2gray on object 'o', and linking it in the gray list. */
  method SetColor(g: Collector, o: Ref, k: Color)
    requires o in g.color && !k.White?
    modifies g`color
    ensures g.color == old(g.color)[o := k] && Marked(g.color) == old(Marked(g.color)) + {o}
    ensures g.color.Keys == old(g.color.Keys) && (old(WhitesOk(g.color, g.white)) ==> WhitesOk(g.color, g.white))
  {
    MarkedPut(g.color, o, k);
    g.color := g.color[o := k];
  }

  /** Object 'o' is no longer pending once it needs no more work itself. */
  lemma DropPending(b: Heap, nw: set<Ref>, x: Ctx, o: Ref, x': Ctx)
    requires WfBody(b) && AllOk(b, nw, x) && o in b
    requires x.pend - {o} <= x'.pend
    requires x.weak <= x'.weak && x.allweak <= x'.allweak && x.eph <= x'.eph && x.loose <= x'.loose && x.tw <= x'.tw
    requires o in nw ==> OkAt(b, nw, x', o)
    requires b[o].Thread? ==> Refs(b, o) <= nw || o in x'.pend
    ensures AllOk(b, nw, x')
  {
    forall p | p in nw && p != o ensures OkAt(b, nw, x', p) {
      assert OkAt(b, nw, x, p);
      if b[p].OpenUpVal? && b[p].th == o {
        assert UpvalOk(b, p);
        assert b[o].stack[b[p].slot] in b[o].stack;
      }
    }
  }

  /** Everything marked since 'nw' is a string. */
  ghost predicate OnlyStrings(b: Heap, nw: set<Ref>, nw': set<Ref>)
  {
    forall r :: r in nw' && r !in nw ==> IsStr(b, r)
  }

  ghost function Unmarked(g: Collector): set<Ref>
    reads g`body, g`color
  {
    g.body.Keys - Marked(g.color)
  }

  /** Rank of an object for the recursion of reallymarkobject, which is at most two levels deep. */
  ghost function Level(b: Heap, v: Val): nat
  {
    if v.Ptr? && v.r in b && b[v.r].Udata? then 1 else 0
  }

  lemma ValPtr(v: Val)
    ensures PtrSet(v) == if v.Ptr? then {v.r} else {}
  {
  }

  lemma MarkedIs(c: Colors)
    ensures forall r :: r in Marked(c) <==> r in c && !c[r].White?
  {
  }

  lemma StringsNone(b: Heap, nw: set<Ref>)
    ensures OnlyStrings(b, nw, nw)
  {
  }

  /** markvalue and markobjectN: marks what a slot refers to, if that is still white. */
  method MarkValue(g: Collector, v: Val, ghost extra: set<Ref>, ghost loose: set<Ref>, ghost s: set<Ref>)
    requires MarkInv(g, extra, loose, s) && PtrSet(v) <= g.body.Keys && PtrSet(v) <= s
    modifies g`color, g`gray
    ensures MarkInv(g, extra, loose, s) && PtrSet(v) <= Marked(g.color)
    ensures old(Marked(g.color)) <= Marked(g.color) && Elems(old(g.gray)) <= Elems(g.gray)
    ensures OnlyStrings(g.body, old(Marked(g.color)), Marked(g.color)) ==> g.gray == old(g.gray)
    decreases Unmarked(g), Level(g.body, v), 2
  {
    hide *;
    ColorKeys(g, extra, loose, s);
    ValPtr(v);
    MarkedIs(g.color);
    StringsNone(g.body, Marked(g.color));
    if v.Ptr? && g.color[v.r].White? {
      ReallyMark(g, v.r, extra, loose, s);
    }
  }

  /**
   reallymarkobject: strings and closed upvalues are visited here; open upvalues stay gray out of
   any list; a userdata without user values only has a metatable; everything else goes to the gray
   list to be traversed later.
   */
  method ReallyMark(g: Collector, o: Ref, ghost extra: set<Ref>, ghost loose: set<Ref>, ghost s: set<Ref>)
    requires MarkInv(g, extra, loose, s) && o in g.body && o in s && o !in Marked(g.color)
    modifies g`color, g`gray
    ensures MarkInv(g, extra, loose, s) && o in Marked(g.color)
    ensures old(Marked(g.color)) < Marked(g.color) && Elems(old(g.gray)) <= Elems(g.gray)
    ensures OnlyStrings(g.body, old(Marked(g.color)), Marked(g.color)) ==> g.gray == old(g.gray)
    decreases Unmarked(g), Level(g.body, Ptr(o)), 1
  {
    hide MarkInv;
    ColorKeys(g, extra, loose, s);
    WhiteRefs(g, extra, loose, s, o);
    match g.body[o]
    case Str =>
      MarkString(g, o, extra, loose, s);
    case OpenUpVal(_, _) =>
      MarkUpVal(g, o, Gray, extra, loose, s);
    case ClosedUpVal(_) =>
      MarkUpVal(g, o, Black, extra, loose, s);
    case Udata(meta, uvs) =>
      if uvs == [] {
        MarkValue(g, meta, extra, loose, s);
        PaintUdata(g, o, extra, loose, s);
      } else {
        LinkGray(g, o, extra, loose, s);
      }
    case _ =>
      LinkGray(g, o, extra, loose, s);
  }

  lemma WhiteRefs(g: Collector, extra: set<Ref>, loose: set<Ref>, s: set<Ref>, o: Ref)
    requires MarkInv(g, extra, loose, s) && o in g.body && o in s
    ensures HoldsAt(g.body, s, o) && Refs(g.body, o) <= g.body.Keys && MetaOk(g.body, o)
  {
  }

  /** set2black on a userdata without user values. */
  method PaintUdata(g: Collector, o: Ref, ghost extra: set<Ref>, ghost loose: set<Ref>, ghost s: set<Ref>)
    requires MarkInv(g, extra, loose, s) && o in g.body && o in s
    requires g.body[o].Udata? && g.body[o].uvs == [] && PtrSet(g.body[o].meta) <= Marked(g.color)
    modifies g`color
    ensures MarkInv(g, extra, loose, s) && Marked(g.color) == old(Marked(g.color)) + {o}
  {
    hide HeapOk, ListsOk, AllOk, Linked, WhitesOk;
    ghost var x := CtxOf(g, extra, loose);
    MarkNew(g.body, g.color.Keys, Marked(g.color), s, g.gray, g.weak, g.allweak, g.ephemeron, x, o, x);
    WhiteFacts(g.body, g.color.Keys, Marked(g.color), s, o);
    LinkedPaint(g.body, g.color, Links(g), extra, g.gcstate != Atomic, o, Black);
    SetColor(g, o, Black);
  }

  lemma WhiteFacts(b: Heap, colored: set<Ref>, nw: set<Ref>, s: set<Ref>, o: Ref)
    requires HeapOk(b, colored, nw, s) && o in b && o in s
    ensures colored == b.Keys && nw <= s && HoldsAt(b, s, o) && Refs(b, o) <= b.Keys && MetaOk(b, o)
    ensures b[o].OpenUpVal? || b[o].ClosedUpVal? ==> Refs(b, o) == PtrSet(Content(b, o)) <= s
  {
  }

  /** The visit of an upvalue: its color, and then its content. */
  method MarkUpVal(g: Collector, o: Ref, k: Color, ghost extra: set<Ref>, ghost loose: set<Ref>, ghost s: set<Ref>)
    requires MarkInv(g, extra, loose, s) && o in g.body && o in s && o !in Marked(g.color)
    requires (g.body[o].OpenUpVal? || g.body[o].ClosedUpVal?) && k == if g.body[o].OpenUpVal? then Gray else Black
    modifies g`color, g`gray
    ensures MarkInv(g, extra, loose, s) && o in Marked(g.color)
    ensures old(Marked(g.color)) < Marked(g.color) && Elems(old(g.gray)) <= Elems(g.gray)
    decreases Unmarked(g), Level(g.body, Ptr(o)), 0
  {
    hide HeapOk, ListsOk, AllOk, Linked;
    WhiteFacts(g.body, g.color.Keys, Marked(g.color), s, o);
    MarkNew(g.body, g.color.Keys, Marked(g.color), s, g.gray, g.weak, g.allweak, g.ephemeron,
            CtxOf(g, extra, loose), o, CtxOf(g, extra + {o}, loose));
    LinkedPaint(g.body, g.color, Links(g), extra, g.gcstate != Atomic, o, k);
    SetColor(g, o, k);
    MarkValue(g, Content(g.body, o), extra + {o}, loose, s);
    LinkedLess(g.body, g.color, Links(g), extra + {o}, g.gcstate != Atomic, extra);
    LeaveOk(g.body, g.color.Keys, Marked(g.color), s, g.gcstate,
            CtxOf(g, extra + {o}, loose), o, Nowhere, CtxOf(g, extra, loose));
  }

  /** linkobjgclist(o, g->gray) for an object found white. */
  method LinkGray(g: Collector, o: Ref, ghost extra: set<Ref>, ghost loose: set<Ref>, ghost s: set<Ref>)
    requires MarkInv(g, extra, loose, s) && o in g.body && o in s && o !in Marked(g.color)
    requires CanBeGray(g.body, o)
    modifies g`color, g`gray
    ensures MarkInv(g, extra, loose, s) && o in Marked(g.color)
    ensures old(Marked(g.color)) < Marked(g.color) && Elems(old(g.gray)) <= Elems(g.gray)
  {
    hide HeapOk, ListsOk, AllOk, Linked, WhitesOk, CanBeGray, Marked;
    ghost var x, links := CtxOf(g, extra, loose), Links(g);
    WhiteFacts(g.body, g.color.Keys, Marked(g.color), s, o);
    MarkNew(g.body, g.color.Keys, Marked(g.color), s, g.gray, g.weak, g.allweak, g.ephemeron,
            x, o, x.(pend := x.pend + {o}));
    LinkedWhite(g.body, g.color, links, extra, g.gcstate != Atomic, o);
    LinkedAdd(g.body, g.color, links, extra, g.gcstate != Atomic, o);
    SetColor(g, o, Gray);
    g.gray := [o] + g.gray;
    PendCons(o, old(g.gray), extra, if g.gcstate != Atomic then Elems(g.grayagain) else {});
    LinksGray(o, old(g.gray), g.grayagain, g.weak, g.allweak, g.ephemeron);
  }

  lemma LinksGray(o: Ref, gray: seq<Ref>, again: seq<Ref>, weak: seq<Ref>, allweak: seq<Ref>, eph: seq<Ref>)
    ensures multiset([o] + gray) + multiset(again) + multiset(weak) + multiset(allweak) + multiset(eph)
            == multiset(gray) + multiset(again) + multiset(weak) + multiset(allweak) + multiset(eph) + multiset{o}
  {
    assert multiset([o] + gray) == multiset{o} + multiset(gray);
  }

  lemma LinksAgain(o: Ref, gray: seq<Ref>, again: seq<Ref>, weak: seq<Ref>, allweak: seq<Ref>, eph: seq<Ref>)
    ensures multiset(gray) + multiset([o] + again) + multiset(weak) + multiset(allweak) + multiset(eph)
            == multiset(gray) + multiset(again) + multiset(weak) + multiset(allweak) + multiset(eph) + multiset{o}
  {
    assert multiset([o] + again) == multiset{o} + multiset(again);
  }

  lemma LinksWeak(o: Ref, gray: seq<Ref>, again: seq<Ref>, weak: seq<Ref>, allweak: seq<Ref>, eph: seq<Ref>)
    ensures multiset(gray) + multiset(again) + multiset([o] + weak) + multiset(allweak) + multiset(eph)
            == multiset(gray) + multiset(again) + multiset(weak) + multiset(allweak) + multiset(eph) + multiset{o}
  {
    assert multiset([o] + weak) == multiset{o} + multiset(weak);
  }

  lemma LinksAllWeak(o: Ref, gray: seq<Ref>, again: seq<Ref>, weak: seq<Ref>, allweak: seq<Ref>, eph: seq<Ref>)
    ensures multiset(gray) + multiset(again) + multiset(weak) + multiset([o] + allweak) + multiset(eph)
            == multiset(gray) + multiset(again) + multiset(weak) + multiset(allweak) + multiset(eph) + multiset{o}
  {
    assert multiset([o] + allweak) == multiset{o} + multiset(allweak);
  }

  lemma LinksEphemeron(o: Ref, gray: seq<Ref>, again: seq<Ref>, weak: seq<Ref>, allweak: seq<Ref>, eph: seq<Ref>)
    ensures multiset(gray) + multiset(again) + multiset(weak) + multiset(allweak) + multiset([o] + eph)
            == multiset(gray) + multiset(again) + multiset(weak) + multiset(allweak) + multiset(eph) + multiset{o}
  {
    assert multiset([o] + eph) == multiset{o} + multiset(eph);
  }

  // ---- Traversals ------------------------------------------------------------------------

  lemma PtrsOfSplit(vs: seq<Val>, i: nat)
    requires i < |vs|
    ensures PtrsOf(vs[..i + 1]) == PtrsOf(vs[..i]) + PtrSet(vs[i])
    ensures PtrsOf(vs[..0]) == {} && PtrsOf(vs[..|vs|]) == PtrsOf(vs)
  {
    assert vs[..i + 1] == vs[..i] + [vs[i]];
    assert vs[..|vs|] == vs;
  }

  /** Marks all the slots of a vector, in order. */
  method MarkAll(g: Collector, vs: seq<Val>, ghost extra: set<Ref>, ghost loose: set<Ref>, ghost s: set<Ref>)
    requires MarkInv(g, extra, loose, s) && PtrsOf(vs) <= g.body.Keys && PtrsOf(vs) <= s
    modifies g`color, g`gray
    ensures MarkInv(g, extra, loose, s) && PtrsOf(vs) <= Marked(g.color)
    ensures old(Marked(g.color)) <= Marked(g.color) && Elems(old(g.gray)) <= Elems(g.gray)
    ensures OnlyStrings(g.body, old(Marked(g.color)), Marked(g.color)) ==> g.gray == old(g.gray)
  {
    hide MarkInv;
    var i := 0;
    assert PtrsOf(vs[..0]) == {};
    while i < |vs|
      invariant 0 <= i <= |vs|
      invariant MarkInv(g, extra, loose, s) && PtrsOf(vs[..i]) <= Marked(g.color)
      invariant old(Marked(g.color)) <= Marked(g.color) && Elems(old(g.gray)) <= Elems(g.gray)
      invariant OnlyStrings(g.body, old(Marked(g.color)), Marked(g.color)) ==> g.gray == old(g.gray)
    {
      PtrsOfSplit(vs, i);
      assert PtrSet(vs[i]) <= PtrsOf(vs);
      MarkValue(g, vs[i], extra, loose, s);
      i := i + 1;
    }
    assert vs[..|vs|] == vs;
  }

  /** Leaving 'o' at 'd' completes its traversal. */
  lemma LeaveOk(b: Heap, colored: set<Ref>, nw: set<Ref>, s: set<Ref>, st: GcState, x: Ctx, o: Ref, d: Dest, x': Ctx)
    requires HeapOk(b, colored, nw, s) && AllOk(b, nw, x) && o in b && MayLeave(b, nw, st, o, d)
    requires x.pend - {o} <= x'.pend
    requires x.weak <= x'.weak && x.allweak <= x'.allweak && x.eph <= x'.eph && x.loose <= x'.loose && x.tw <= x'.tw
    requires match d
             case Nowhere => b[o].Thread? && b[o].open != [] ==> o in x'.tw
             case ToGrayAgain => st != Atomic ==> o in x'.pend
             case ToWeak => o in x'.weak
             case ToAllWeak => o in x'.allweak
             case ToEphemeron => o in x'.eph
    ensures AllOk(b, nw, x')
    ensures d == ToWeak || d == ToAllWeak || d == ToEphemeron ==> b[o].Table? && MayLeave(b, nw, Atomic, o, d)
  {
    DropPending(b, nw, x, o, x');
  }

  lemma ElemsCons<T>(o: T, s: seq<T>)
    ensures Elems([o] + s) == {o} + Elems(s)
  {
  }

  lemma TablesCons(b: Heap, nw: set<Ref>, o: Ref, l: seq<Ref>, d: Dest)
    requires TablesIn(b, nw, l, d) && o in b && b[o].Table? && o in nw && MayLeave(b, nw, Atomic, o, d)
    ensures TablesIn(b, nw, [o] + l, d)
  {
  }

  method LinkGrayAgain(g: Collector, o: Ref, ghost extra: set<Ref>, ghost loose: set<Ref>, ghost s: set<Ref>)
    requires MarkInv(g, extra + {o}, loose, s) && o in Marked(g.color) && o in g.body
    requires MayLeave(g.body, Marked(g.color), g.gcstate, o, ToGrayAgain)
    requires o !in extra && CanBeGray(g.body, o)
    modifies g`color, g`grayagain
    ensures MarkInv(g, extra, loose, s) && Marked(g.color) == old(Marked(g.color))
    ensures g.grayagain == [o] + old(g.grayagain)
  {
    hide AllOk, HeapOk, MayLeave, Linked, WhitesOk, TablesIn, CanBeGray;
    ghost var b, nw, x := g.body, Marked(g.color), CtxOf(g, extra + {o}, loose);
    assert nw + {o} == nw;
    LinkedBack(g.body, g.color, Links(g), extra, g.gcstate != Atomic, o);
    SetColor(g, o, Gray);
    g.grayagain := [o] + g.grayagain;
    LinksAgain(o, g.gray, old(g.grayagain), g.weak, g.allweak, g.ephemeron);
    ElemsCons(o, old(g.grayagain));
    LeaveOk(b, g.color.Keys, nw, s, g.gcstate, x, o, ToGrayAgain, CtxOf(g, extra, loose));
  }

  method LinkWeak(g: Collector, o: Ref, ghost extra: set<Ref>, ghost loose: set<Ref>, ghost s: set<Ref>)
    requires MarkInv(g, extra + {o}, loose, s) && o in Marked(g.color) && o in g.body
    requires MayLeave(g.body, Marked(g.color), g.gcstate, o, ToWeak)
    requires o !in extra && CanBeGray(g.body, o) && g.gcstate == Atomic
    modifies g`color, g`weak
    ensures MarkInv(g, extra, loose, s) && Marked(g.color) == old(Marked(g.color))
    ensures g.weak == [o] + old(g.weak)
  {
    hide AllOk, HeapOk, MayLeave, Linked, WhitesOk, TablesIn, CanBeGray;
    ghost var b, nw, x := g.body, Marked(g.color), CtxOf(g, extra + {o}, loose);
    assert nw + {o} == nw;
    LinkedBack(g.body, g.color, Links(g), extra, g.gcstate != Atomic, o);
    SetColor(g, o, Gray);
    g.weak := [o] + g.weak;
    LinksWeak(o, g.gray, g.grayagain, old(g.weak), g.allweak, g.ephemeron);
    ElemsCons(o, old(g.weak));
    LeaveOk(b, g.color.Keys, nw, s, g.gcstate, x, o, ToWeak, CtxOf(g, extra, loose));
    TablesCons(b, nw, o, old(g.weak), ToWeak);
  }

  method LinkAllWeak(g: Collector, o: Ref, ghost extra: set<Ref>, ghost loose: set<Ref>, ghost s: set<Ref>)
    requires MarkInv(g, extra + {o}, loose, s) && o in Marked(g.color) && o in g.body
    requires MayLeave(g.body, Marked(g.color), g.gcstate, o, ToAllWeak)
    requires o !in extra && CanBeGray(g.body, o) && g.gcstate == Atomic
    modifies g`color, g`allweak
    ensures MarkInv(g, extra, loose, s) && Marked(g.color) == old(Marked(g.color))
    ensures g.allweak == [o] + old(g.allweak)
  {
    hide AllOk, HeapOk, MayLeave, Linked, WhitesOk, TablesIn, CanBeGray;
    ghost var b, nw, x := g.body, Marked(g.color), CtxOf(g, extra + {o}, loose);
    assert nw + {o} == nw;
    LinkedBack(g.body, g.color, Links(g), extra, g.gcstate != Atomic, o);
    SetColor(g, o, Gray);
    g.allweak := [o] + g.allweak;
    LinksAllWeak(o, g.gray, g.grayagain, g.weak, old(g.allweak), g.ephemeron);
    ElemsCons(o, old(g.allweak));
    LeaveOk(b, g.color.Keys, nw, s, g.gcstate, x, o, ToAllWeak, CtxOf(g, extra, loose));
    TablesCons(b, nw, o, old(g.allweak), ToAllWeak);
  }

  method LinkEphemeron(g: Collector, o: Ref, ghost extra: set<Ref>, ghost loose: set<Ref>, ghost s: set<Ref>)
    requires MarkInv(g, extra + {o}, loose, s) && o in Marked(g.color) && o in g.body
    requires MayLeave(g.body, Marked(g.color), g.gcstate, o, ToEphemeron)
    requires o !in extra && CanBeGray(g.body, o) && g.gcstate == Atomic
    modifies g`color, g`ephemeron
    ensures MarkInv(g, extra, loose, s) && Marked(g.color) == old(Marked(g.color))
    ensures g.ephemeron == [o] + old(g.ephemeron)
  {
    hide AllOk, HeapOk, MayLeave, Linked, WhitesOk, TablesIn, CanBeGray;
    ghost var b, nw, x := g.body, Marked(g.color), CtxOf(g, extra + {o}, loose);
    assert nw + {o} == nw;
    LinkedBack(g.body, g.color, Links(g), extra, g.gcstate != Atomic, o);
    SetColor(g, o, Gray);
    g.ephemeron := [o] + g.ephemeron;
    LinksEphemeron(o, g.gray, g.grayagain, g.weak, g.allweak, old(g.ephemeron));
    ElemsCons(o, old(g.ephemeron));
    LeaveOk(b, g.color.Keys, nw, s, g.gcstate, x, o, ToEphemeron, CtxOf(g, extra, loose));
    TablesCons(b, nw, o, old(g.ephemeron), ToEphemeron);
  }

  /** The end of a traversal of 'o': linkgclist, or genlink, which does nothing in incremental mode. */
  method LinkTo(g: Collector, o: Ref, d: Dest, ghost extra: set<Ref>, ghost loose: set<Ref>, ghost s: set<Ref>)
    requires MarkInv(g, extra + {o}, loose, s) && o in Marked(g.color) && o in g.body
    requires MayLeave(g.body, Marked(g.color), g.gcstate, o, d)
    requires o !in extra && CanBeGray(g.body, o) && (d != Nowhere && d != ToGrayAgain ==> g.gcstate == Atomic)
    requires g.body[o].Thread? && d == Nowhere ==> g.gcstate == Atomic && (g.body[o].open != [] ==> o in g.twups)
    modifies g`color, g`grayagain, g`weak, g`allweak, g`ephemeron
    ensures MarkInv(g, extra, loose, s) && Marked(g.color) == old(Marked(g.color))
    ensures d != ToGrayAgain ==> g.grayagain == old(g.grayagain)
    ensures Elems(old(g.grayagain)) <= Elems(g.grayagain)
    ensures g.weak == if d == ToWeak then [o] + old(g.weak) else old(g.weak)
    ensures g.allweak == if d == ToAllWeak then [o] + old(g.allweak) else old(g.allweak)
    ensures g.ephemeron == if d == ToEphemeron then [o] + old(g.ephemeron) else old(g.ephemeron)
  {
    hide AllOk, HeapOk, MayLeave, ListsOk, Linked;
    match d
    case Nowhere =>
      LeaveOk(g.body, g.color.Keys, Marked(g.color), s, g.gcstate, CtxOf(g, extra + {o}, loose), o, d,
              CtxOf(g, extra, loose));
      LinkedLess(g.body, g.color, Links(g), extra + {o}, g.gcstate != Atomic, extra);
    case ToGrayAgain =>
      LinkGrayAgain(g, o, extra, loose, s);
    case ToWeak =>
      LinkWeak(g, o, extra, loose, s);
    case ToAllWeak =>
      LinkAllWeak(g, o, extra, loose, s);
    case ToEphemeron =>
      LinkEphemeron(g, o, extra, loose, s);
  }

  /** A list that only grows at its front. */
  ghost predicate Suffix<T>(a: seq<T>, b: seq<T>)
  {
    |a| <= |b| && b[|b| - |a|..] == a
  }

  /** iscleared: whether a slot refers to a white object; strings are values, so they get marked. */
  method IsCleared(g: Collector, v: Val, ghost extra: set<Ref>, ghost loose: set<Ref>, ghost s: set<Ref>)
    returns (r: bool)
    requires MarkInv(g, extra, loose, s) && PtrSet(v) <= g.body.Keys
    requires v.Ptr? && IsStr(g.body, v.r) ==> v.r in s
    modifies g`color, g`gray
    ensures MarkInv(g, extra, loose, s) && g.gray == old(g.gray)
    ensures old(Marked(g.color)) <= Marked(g.color)
    ensures OnlyStrings(g.body, old(Marked(g.color)), Marked(g.color))
    ensures r ==> v.Ptr? && v.r !in Marked(g.color) && !IsStr(g.body, v.r)
    ensures !r ==> PtrSet(v) <= Marked(g.color)
  {
    hide MarkInv, Links;
    ColorKeys(g, extra, loose, s);
    if !v.Ptr? {
      return false;
    } else if g.body[v.r].Str? {
      if g.color[v.r].White? {
        MarkString(g, v.r, extra, loose, s);
      }
      return false;
    } else {
      return g.color[v.r].White?;
    }
  }

  /** reallymarkobject on a string: nothing to visit. */
  method MarkString(g: Collector, o: Ref, ghost extra: set<Ref>, ghost loose: set<Ref>, ghost s: set<Ref>)
    requires MarkInv(g, extra, loose, s) && IsStr(g.body, o) && o in s && o !in Marked(g.color)
    modifies g`color
    ensures MarkInv(g, extra, loose, s)
    ensures Marked(g.color) == old(Marked(g.color)) + {o}
  {
    hide HeapOk, ListsOk, AllOk, Linked;
    ghost var x := CtxOf(g, extra, loose);
    WhiteFacts(g.body, g.color.Keys, Marked(g.color), s, o);
    MarkNew(g.body, g.color.Keys, Marked(g.color), s, g.gray, g.weak, g.allweak, g.ephemeron, x, o, x);
    LinkedPaint(g.body, g.color, Links(g), extra, g.gcstate != Atomic, o, Black);
    SetColor(g, o, Black);
  }

  lemma SuffixCons<T>(o: T, a: seq<T>)
    ensures Suffix(a, a) && Suffix(a, [o] + a)
  {
  }

  lemma EntrySplit(node: seq<Entry>, i: nat)
    requires i < |node|
    ensures KeyRefs(node[..i + 1]) == KeyRefs(node[..i]) + (if node[i].val != Empty then PtrSet(node[i].key) else {})
    ensures ValRefs(node[..i + 1]) == ValRefs(node[..i]) + PtrSet(node[i].val)
    ensures KeyRefs(node[..i + 1]) <= KeyRefs(node) && ValRefs(node[..i + 1]) <= ValRefs(node)
  {
    assert node[..i + 1] == node[..i] + [node[i]];
  }

  lemma EntryEnds(node: seq<Entry>)
    ensures KeyRefs(node[..0]) == {} && ValRefs(node[..0]) == {} && node[..|node|] == node
  {
  }

  /** What is known about a marked object. */
  lemma MarkedFacts(b: Heap, colored: set<Ref>, nw: set<Ref>, s: set<Ref>, o: Ref)
    requires HeapOk(b, colored, nw, s) && o in nw && o in b
    ensures colored == b.Keys && o in s && HoldsAt(b, s, o) && Refs(b, o) <= b.Keys
  {
  }

  /** Marks keys and values of all the entries of a table. */
  method MarkEntries(g: Collector, node: seq<Entry>, ghost extra: set<Ref>, ghost loose: set<Ref>, ghost s: set<Ref>)
    requires MarkInv(g, extra, loose, s)
    requires KeyRefs(node) + ValRefs(node) <= g.body.Keys && KeyRefs(node) + ValRefs(node) <= s
    modifies g`color, g`gray
    ensures MarkInv(g, extra, loose, s) && KeyRefs(node) + ValRefs(node) <= Marked(g.color)
    ensures old(Marked(g.color)) <= Marked(g.color)
    ensures OnlyStrings(g.body, old(Marked(g.color)), Marked(g.color)) ==> g.gray == old(g.gray)
  {
    hide MarkInv;
    var i := 0;
    EntryEnds(node);
    while i < |node|
      invariant 0 <= i <= |node|
      invariant MarkInv(g, extra, loose, s)
      invariant KeyRefs(node[..i]) + ValRefs(node[..i]) <= Marked(g.color)
      invariant old(Marked(g.color)) <= Marked(g.color)
      invariant OnlyStrings(g.body, old(Marked(g.color)), Marked(g.color)) ==> g.gray == old(g.gray)
    {
      EntrySplit(node, i);
      if node[i].val != Empty {
        MarkValue(g, node[i].key, extra, loose, s);
        MarkValue(g, node[i].val, extra, loose, s);
      }
      i := i + 1;
    }
  }

  /** traversestrongtable: marks the array, and keys and values of all entries. */
  method TraverseStrongTable(g: Collector, o: Ref, ghost extra: set<Ref>, ghost loose: set<Ref>, ghost s: set<Ref>)
    requires MarkInv(g, extra + {o}, loose, s) && o in Marked(g.color) && o in g.body
    requires g.body[o].Table? && g.body[o].mode == Strong && PtrSet(g.body[o].meta) <= Marked(g.color)
    requires o !in extra
    modifies g`color, g`gray, g`grayagain, g`weak, g`allweak, g`ephemeron
    ensures MarkInv(g, extra, loose, s) && g.grayagain == old(g.grayagain)
    ensures g.weak == old(g.weak) && g.allweak == old(g.allweak) && g.ephemeron == old(g.ephemeron)
    ensures old(Marked(g.color)) <= Marked(g.color)
    ensures OnlyStrings(g.body, old(Marked(g.color)), Marked(g.color)) ==> g.gray == old(g.gray)
  {
    hide MarkInv;
    MarkInvFacts(g, extra + {o}, loose, s, o);
    MarkAll(g, g.body[o].arr, extra + {o}, loose, s);
    MarkEntries(g, g.body[o].node, extra + {o}, loose, s);
    LinkTo(g, o, Nowhere, extra, loose, s);
  }

  lemma MarkInvFacts(g: Collector, extra: set<Ref>, loose: set<Ref>, s: set<Ref>, o: Ref)
    requires MarkInv(g, extra, loose, s) && o in Marked(g.color)
    ensures o in g.body && o in s && HoldsAt(g.body, s, o) && Refs(g.body, o) <= g.body.Keys
    ensures g.color.Keys == g.body.Keys
  {
  }

  /** traverseweakvalue: keys are strong; the table is cleared later if it may have white values. */
  method TraverseWeakValue(g: Collector, o: Ref, ghost extra: set<Ref>, ghost loose: set<Ref>, ghost s: set<Ref>)
    requires MarkInv(g, extra + {o}, loose, s) && o in Marked(g.color) && o in g.body
    requires g.body[o].Table? && g.body[o].mode == WeakValues && PtrSet(g.body[o].meta) <= Marked(g.color)
    requires o !in extra && g.gcstate in {Propagate, Atomic}
    modifies g`color, g`gray, g`grayagain, g`weak, g`allweak, g`ephemeron
    ensures MarkInv(g, extra, loose, s) && (g.gcstate != Propagate ==> g.grayagain == old(g.grayagain))
    ensures g.gcstate == Propagate ==> g.weak == old(g.weak)
    ensures g.allweak == old(g.allweak) && g.ephemeron == old(g.ephemeron) && Suffix(old(g.weak), g.weak)
    ensures old(Marked(g.color)) <= Marked(g.color)
    ensures OnlyStrings(g.body, old(Marked(g.color)), Marked(g.color)) ==> g.gray == old(g.gray)
  {
    hide MarkInv, HoldsAt, Elems;
    ghost var b := g.body;
    MarkInvFacts(g, extra + {o}, loose, s, o);
    var node := g.body[o].node;
    var hasclears := |g.body[o].arr| > 0;
    var i := 0;
    EntryEnds(node);
    while i < |node|
      invariant 0 <= i <= |node|
      invariant MarkInv(g, extra + {o}, loose, s)
      modifies g`color, g`gray
      invariant KeyRefs(node[..i]) <= Marked(g.color)
      invariant !hasclears ==> ValRefs(node[..i]) <= Marked(g.color) && b[o].arr == []
      invariant old(Marked(g.color)) <= Marked(g.color)
      invariant OnlyStrings(g.body, old(Marked(g.color)), Marked(g.color)) ==> g.gray == old(g.gray)
    {
      EntrySplit(node, i);
      if node[i].val != Empty {
        MarkValue(g, node[i].key, extra + {o}, loose, s);
        if !hasclears {
          hasclears := IsCleared(g, node[i].val, extra + {o}, loose, s);
        }
      }
      i := i + 1;
    }
    var d := if g.gcstate == Propagate then ToGrayAgain else if hasclears then ToWeak else Nowhere;
    LinkTo(g, o, d, extra, loose, s);
  }

  /** traversearray: marks the array part and tells whether that marked anything. */
  method TraverseArray(g: Collector, vs: seq<Val>, ghost extra: set<Ref>, ghost loose: set<Ref>, ghost s: set<Ref>)
    returns (marked: bool)
    requires MarkInv(g, extra, loose, s) && PtrsOf(vs) <= g.body.Keys && PtrsOf(vs) <= s
    requires g.color.Keys == g.body.Keys
    modifies g`color, g`gray
    ensures MarkInv(g, extra, loose, s) && PtrsOf(vs) <= Marked(g.color)
    ensures old(Marked(g.color)) <= Marked(g.color) && g.color.Keys == g.body.Keys
    ensures marked ==> old(Marked(g.color)) < Marked(g.color)
    ensures !marked ==> Marked(g.color) == old(Marked(g.color)) && g.gray == old(g.gray)
    ensures OnlyStrings(g.body, old(Marked(g.color)), Marked(g.color)) ==> g.gray == old(g.gray)
  {
    hide MarkInv;
    marked := false;
    var i := 0;
    assert PtrsOf(vs[..0]) == {};
    while i < |vs|
      invariant 0 <= i <= |vs| && g.color.Keys == g.body.Keys
      invariant MarkInv(g, extra, loose, s) && PtrsOf(vs[..i]) <= Marked(g.color)
      invariant old(Marked(g.color)) <= Marked(g.color)
      invariant marked ==> old(Marked(g.color)) < Marked(g.color)
      invariant !marked ==> Marked(g.color) == old(Marked(g.color)) && g.gray == old(g.gray)
      invariant OnlyStrings(g.body, old(Marked(g.color)), Marked(g.color)) ==> g.gray == old(g.gray)
    {
      PtrsOfSplit(vs, i);
      assert PtrSet(vs[i]) <= PtrsOf(vs);
      if vs[i].Ptr? && g.color[vs[i].r].White? {
        marked := true;
        MarkValue(g, vs[i], extra, loose, s);
        ColorKeys(g, extra, loose, s);
      }
      i := i + 1;
    }
    assert vs[..|vs|] == vs;
  }

  lemma ColorKeys(g: Collector, extra: set<Ref>, loose: set<Ref>, s: set<Ref>)
    requires MarkInv(g, extra, loose, s)
    ensures g.color.Keys == g.body.Keys && Marked(g.color) <= s
  {
  }

  /** Every value that a key of the ephemeron table 'o' keeps alive is marked. */
  ghost predicate EphDone(b: Heap, nw: set<Ref>, node: set<Entry>)
  {
    forall e :: e in node && KeyHolds(b, nw, e) ==> PtrSet(e.val) <= nw
  }

  /** Progress of traverseephemeron over the entries 'done'. */
  ghost predicate EphInv(b: Heap, nw0: set<Ref>, nw: set<Ref>, done: set<Entry>, hasclears: bool, hasww: bool,
          marked: bool)
  {
    && nw0 <= nw
    && (!hasclears ==> forall e :: e in done && e.val != Empty ==> PtrSet(e.key) <= nw)
    && (!hasww ==> forall e :: e in done ==> PtrSet(e.val) <= nw)
    && (!marked ==> EphDone(b, nw, done) && OnlyStrings(b, nw0, nw))
    && (marked ==> nw0 < nw)
  }

  lemma EphInvGrows(b: Heap, nw0: set<Ref>, nw: set<Ref>, nw': set<Ref>, done: set<Entry>,
                    hasclears: bool, hasww: bool, marked: bool)
    requires EphInv(b, nw0, nw, done, hasclears, hasww, marked) && nw <= nw'
    requires marked || OnlyStrings(b, nw, nw')
    ensures EphInv(b, nw0, nw', done, hasclears, hasww, marked)
  {
  }

  lemma EphSkip(b: Heap, nw0: set<Ref>, nw: set<Ref>, done: set<Entry>, hasclears: bool, hasww: bool, marked: bool,
          e: Entry)
    requires EphInv(b, nw0, nw, done, hasclears, hasww, marked)
    requires e.val == Empty || (PtrSet(e.key) <= nw && PtrSet(e.val) <= nw)
    ensures EphInv(b, nw0, nw, done + {e}, hasclears, hasww, marked)
  {
  }

  lemma EphCleared(b: Heap, nw0: set<Ref>, nw: set<Ref>, done: set<Entry>, hasclears: bool, hasww: bool, marked: bool,
          e: Entry)
    requires EphInv(b, nw0, nw, done, hasclears, hasww, marked)
    requires e.key.Ptr? && e.key.r !in nw && !IsStr(b, e.key.r)
    ensures EphInv(b, nw0, nw, done + {e}, true, hasww || !(PtrSet(e.val) <= nw), marked)
  {
  }

  lemma EphMarked(b: Heap, nw0: set<Ref>, nw: set<Ref>, nw': set<Ref>, done: set<Entry>, hasclears: bool, hasww: bool,
          marked: bool, e: Entry)
    requires EphInv(b, nw0, nw, done, hasclears, hasww, marked) && nw <= nw'
    requires PtrSet(e.key) <= nw' && PtrSet(e.val) <= nw' && !(PtrSet(e.val) <= nw)
    ensures EphInv(b, nw0, nw', done + {e}, hasclears, hasww, true)
  {
    assert nw0 <= nw < nw';
  }

  /** The step of traverseephemeron for one entry. */
  method TraverseEntry(g: Collector, o: Ref, e: Entry, hasclears: bool, hasww: bool, marked: bool,
                       ghost nw0: set<Ref>, ghost done: set<Entry>,
                       ghost extra: set<Ref>, ghost loose: set<Ref>, ghost s: set<Ref>)
    returns (hasclears': bool, hasww': bool, marked': bool)
    requires MarkInv(g, extra, loose, s) && o in Marked(g.color) && o in g.body
    requires g.body[o].Table? && g.body[o].mode == Ephemeron && e in g.body[o].node
    requires EphInv(g.body, nw0, Marked(g.color), done, hasclears, hasww, marked)
    modifies g`color, g`gray
    ensures MarkInv(g, extra, loose, s)
    ensures EphInv(g.body, nw0, Marked(g.color), done + {e}, hasclears', hasww', marked')
    ensures old(Marked(g.color)) <= Marked(g.color)
    ensures OnlyStrings(g.body, old(Marked(g.color)), Marked(g.color)) ==> g.gray == old(g.gray)
  {
    hide MarkInv, EphInv;
    MarkInvFacts(g, extra, loose, s, o);
    ColorKeys(g, extra, loose, s);
    hasclears', hasww', marked' := hasclears, hasww, marked;
    if e.val == Empty {
      EphSkip(g.body, nw0, Marked(g.color), done, hasclears, hasww, marked, e);
      return;
    }
    EntryRefs(g.body, o, e);
    var cleared := IsCleared(g, e.key, extra, loose, s);
    ColorKeys(g, extra, loose, s);
    EphInvGrows(g.body, nw0, old(Marked(g.color)), Marked(g.color), done, hasclears, hasww, marked);
    if cleared {
      EphCleared(g.body, nw0, Marked(g.color), done, hasclears, hasww, marked, e);
      hasclears' := true;
      if e.val.Ptr? && g.color[e.val.r].White? {
        hasww' := true;
      }
    } else if e.val.Ptr? && g.color[e.val.r].White? {
      ghost var nw := Marked(g.color);
      MarkValue(g, e.val, extra, loose, s);
      EphMarked(g.body, nw0, nw, Marked(g.color), done, hasclears, hasww, marked, e);
      marked' := true;
    } else {
      EphSkip(g.body, nw0, Marked(g.color), done, hasclears, hasww, marked, e);
    }
  }

  lemma EntryRefs(b: Heap, o: Ref, e: Entry)
    requires o in b && b[o].Table? && e in b[o].node && e.val != Empty
    ensures PtrSet(e.key) <= Refs(b, o) && PtrSet(e.val) <= Refs(b, o)
  {
  }

  /** The entries seen after 'i' steps of a traversal that may go backwards. */
  ghost function Seen(node: seq<Entry>, inv: bool, i: nat): set<Entry>
    requires i <= |node|
  {
    if inv then Elems(node[|node| - i..]) else Elems(node[..i])
  }

  lemma SeenStep(node: seq<Entry>, inv: bool, i: nat)
    requires i < |node|
    ensures Seen(node, inv, i + 1) == Seen(node, inv, i) + {node[if inv then |node| - 1 - i else i]}
  {
    if inv {
      assert node[|node| - (i + 1)..] == [node[|node| - 1 - i]] + node[|node| - i..];
    } else {
      assert node[..i + 1] == node[..i] + [node[i]];
    }
  }

  lemma SeenEnds(node: seq<Entry>, inv: bool)
    ensures Seen(node, inv, 0) == {} && Seen(node, inv, |node|) == Elems(node)
  {
    assert node[..|node|] == node && node[0..] == node;
  }

  /** After a whole traversal the table can be left where the flags say. */
  lemma EphLeave(b: Heap, nw0: set<Ref>, nw: set<Ref>, o: Ref, hasclears: bool, hasww: bool, marked: bool)
    requires o in b && b[o].Table? && b[o].mode == Ephemeron && PtrSet(b[o].meta) + PtrsOf(b[o].arr) <= nw
    requires EphInv(b, nw0, nw, Elems(b[o].node), hasclears, hasww, marked)
    ensures MayLeave(b, nw, Atomic, o, if hasww then ToEphemeron else if hasclears then ToAllWeak else Nowhere)
    ensures !marked ==> EphDone(b, nw, Elems(b[o].node))
  {
  }

  /**
   traverseephemeron: marks the values whose keys are marked.  The table waits for convergence while
   it has white keys with white values, and for clearing while it has white keys.
   */
  method TraverseEphemeron(g: Collector, o: Ref, inv: bool, ghost extra: set<Ref>, ghost loose: set<Ref>,
          ghost s: set<Ref>)
    returns (marked: bool)
    requires MarkInv(g, extra + {o}, loose, s) && o in Marked(g.color) && o in g.body
    requires g.body[o].Table? && g.body[o].mode == Ephemeron && PtrSet(g.body[o].meta) <= Marked(g.color)
    requires o !in extra && g.gcstate in {Propagate, Atomic}
    modifies g`color, g`gray, g`grayagain, g`weak, g`allweak, g`ephemeron
    ensures MarkInv(g, extra, loose, s)
    ensures g.gcstate != Propagate ==> g.grayagain == old(g.grayagain)
    ensures g.gcstate == Propagate ==> g.allweak == old(g.allweak) && g.ephemeron == old(g.ephemeron)
    ensures g.weak == old(g.weak)
    ensures g.allweak == old(g.allweak) || g.allweak == [o] + old(g.allweak)
    ensures g.ephemeron == old(g.ephemeron) || g.ephemeron == [o] + old(g.ephemeron)
    ensures old(Marked(g.color)) <= Marked(g.color)
    ensures marked ==> old(Marked(g.color)) < Marked(g.color)
    ensures !marked ==> EphDone(g.body, Marked(g.color), Elems(g.body[o].node))
    ensures !marked ==> OnlyStrings(g.body, old(Marked(g.color)), Marked(g.color))
    ensures OnlyStrings(g.body, old(Marked(g.color)), Marked(g.color)) ==> g.gray == old(g.gray)
  {
    hide MarkInv, EphInv, EphDone, Elems, Seen;
    ghost var b, nw0 := g.body, Marked(g.color);
    MarkInvFacts(g, extra + {o}, loose, s, o);
    var node := g.body[o].node;
    var hasclears, hasww := false, false;
    marked := TraverseArray(g, g.body[o].arr, extra + {o}, loose, s);
    EphStart(b, nw0, Marked(g.color), marked);
    SeenEnds(node, inv);
    var i := 0;
    while i < |node|
      invariant 0 <= i <= |node|
      invariant MarkInv(g, extra + {o}, loose, s)
      invariant EphInv(b, nw0, Marked(g.color), Seen(node, inv, i), hasclears, hasww, marked)
      invariant PtrsOf(b[o].arr) <= Marked(g.color) && nw0 <= Marked(g.color)
      modifies g`color, g`gray
      invariant OnlyStrings(g.body, nw0, Marked(g.color)) ==> g.gray == old(g.gray)
    {
      SeenStep(node, inv, i);
      var e := if inv then node[|node| - 1 - i] else node[i];
      hasclears, hasww, marked := TraverseEntry(g, o, e, hasclears, hasww, marked, nw0, Seen(node, inv, i),
                                                extra + {o}, loose, s);
      i := i + 1;
    }
    EphLeave(b, nw0, Marked(g.color), o, hasclears, hasww, marked);
    EphInvMarked(b, nw0, Marked(g.color), Elems(node), hasclears, hasww, marked);
    var d := if g.gcstate == Propagate then ToGrayAgain
             else if hasww then ToEphemeron else if hasclears then ToAllWeak else Nowhere;
    LinkTo(g, o, d, extra, loose, s);
  }

  lemma EphStart(b: Heap, nw0: set<Ref>, nw: set<Ref>, marked: bool)
    requires nw0 <= nw && (marked ==> nw0 < nw) && (!marked ==> nw == nw0)
    ensures EphInv(b, nw0, nw, {}, false, false, marked)
  {
  }

  lemma EphInvMarked(b: Heap, nw0: set<Ref>, nw: set<Ref>, done: set<Entry>, hasclears: bool, hasww: bool, marked: bool)
    requires EphInv(b, nw0, nw, done, hasclears, hasww, marked)
    ensures nw0 <= nw && (marked ==> nw0 < nw) && (!marked ==> OnlyStrings(b, nw0, nw))
  {
  }

  /** traversetable: the metatable, and then the references that the mode of the table asks for. */
  method TraverseTable(g: Collector, o: Ref, ghost extra: set<Ref>, ghost loose: set<Ref>, ghost s: set<Ref>)
    requires MarkInv(g, extra + {o}, loose, s) && o in Marked(g.color) && o in g.body && g.body[o].Table?
    requires o !in extra && g.gcstate in {Propagate, Atomic}
    modifies g`color, g`gray, g`grayagain, g`weak, g`allweak, g`ephemeron
    ensures MarkInv(g, extra, loose, s)
    ensures g.gcstate != Propagate ==> g.grayagain == old(g.grayagain)
    ensures g.gcstate == Propagate ==>
              g.weak == old(g.weak) && g.allweak == old(g.allweak) && g.ephemeron == old(g.ephemeron)
    ensures Suffix(old(g.weak), g.weak) && Suffix(old(g.allweak), g.allweak) && Suffix(old(g.ephemeron), g.ephemeron)
    ensures old(Marked(g.color)) <= Marked(g.color)
    ensures OnlyStrings(g.body, old(Marked(g.color)), Marked(g.color)) ==> g.gray == old(g.gray)
  {
    hide MarkInv;
    MarkInvFacts(g, extra + {o}, loose, s, o);
    MarkValue(g, g.body[o].meta, extra + {o}, loose, s);
    SuffixCons(o, g.weak); SuffixCons(o, g.allweak); SuffixCons(o, g.ephemeron);
    hide Suffix;
    match g.body[o].mode
    case Strong =>
      TraverseStrongTable(g, o, extra, loose, s);
    case WeakValues =>
      TraverseWeakValue(g, o, extra, loose, s);
    case Ephemeron =>
      var _ := TraverseEphemeron(g, o, false, extra, loose, s);
    case AllWeak =>
      LinkTo(g, o, if g.gcstate == Propagate then ToGrayAgain else ToAllWeak, extra, loose, s);
  }

  /** markobject over a list of objects. */
  method MarkRefs(g: Collector, rs: seq<Ref>, ghost extra: set<Ref>, ghost loose: set<Ref>, ghost s: set<Ref>)
    requires MarkInv(g, extra, loose, s) && Elems(rs) <= g.body.Keys && Elems(rs) <= s
    modifies g`color, g`gray
    ensures MarkInv(g, extra, loose, s) && Elems(rs) <= Marked(g.color)
    ensures old(Marked(g.color)) <= Marked(g.color) && Elems(old(g.gray)) <= Elems(g.gray)
    ensures OnlyStrings(g.body, old(Marked(g.color)), Marked(g.color)) ==> g.gray == old(g.gray)
  {
    hide MarkInv;
    var i := 0;
    while i < |rs|
      invariant 0 <= i <= |rs|
      invariant MarkInv(g, extra, loose, s) && Elems(rs[..i]) <= Marked(g.color)
      invariant old(Marked(g.color)) <= Marked(g.color) && Elems(old(g.gray)) <= Elems(g.gray)
      invariant OnlyStrings(g.body, old(Marked(g.color)), Marked(g.color)) ==> g.gray == old(g.gray)
    {
      assert rs[i] in Elems(rs) && rs[..i + 1] == rs[..i] + [rs[i]];
      assert PtrSet(Ptr(rs[i])) == {rs[i]};
      MarkValue(g, Ptr(rs[i]), extra, loose, s);
      i := i + 1;
    }
    assert rs[..|rs|] == rs;
  }

  /** traverseudata, traverseLclosure, traverseCclosure and traverseproto. */
  method TraverseStrong(g: Collector, o: Ref, meta: Val, vs: seq<Val>,
                        ghost extra: set<Ref>, ghost loose: set<Ref>, ghost s: set<Ref>)
    requires MarkInv(g, extra + {o}, loose, s) && o in Marked(g.color) && o in g.body
    requires g.body[o].Udata? || g.body[o].Block?
    requires Refs(g.body, o) == PtrSet(meta) + PtrsOf(vs)
    requires o !in extra && CanBeGray(g.body, o)
    modifies g`color, g`gray, g`grayagain, g`weak, g`allweak, g`ephemeron
    ensures MarkInv(g, extra, loose, s) && g.grayagain == old(g.grayagain)
    ensures g.weak == old(g.weak) && g.allweak == old(g.allweak) && g.ephemeron == old(g.ephemeron)
    ensures old(Marked(g.color)) <= Marked(g.color)
    ensures OnlyStrings(g.body, old(Marked(g.color)), Marked(g.color)) ==> g.gray == old(g.gray)
  {
    hide MarkInv;
    MarkInvFacts(g, extra + {o}, loose, s, o);
    MarkValue(g, meta, extra + {o}, loose, s);
    MarkAll(g, vs, extra + {o}, loose, s);
    LinkTo(g, o, Nowhere, extra, loose, s);
  }

  /** Links a thread back in 'twups'. */
  method LinkTwups(g: Collector, o: Ref, ghost extra: set<Ref>, ghost loose: set<Ref>, ghost s: set<Ref>)
    requires MarkInv(g, extra, loose, s)
    modifies g`twups
    ensures MarkInv(g, extra, loose, s) && g.twups == [o] + old(g.twups)
  {
    hide HeapOk, ListsOk, Linked;
    ghost var x := CtxOf(g, extra, loose);
    ElemsCons(o, g.twups);
    g.twups := [o] + g.twups;
    AllOkGrows(g.body, Marked(g.color), x, Marked(g.color), CtxOf(g, extra, loose));
  }

  /**
   traversethread: threads have no barriers, so in the propagate phase they stay in 'grayagain';
   the final traversal puts a thread with open upvalues back in 'twups'.
   */
  method TraverseThread(g: Collector, o: Ref, ghost extra: set<Ref>, ghost loose: set<Ref>, ghost s: set<Ref>)
    requires MarkInv(g, extra + {o}, loose, s) && o in Marked(g.color) && o in g.body && g.body[o].Thread?
    requires o !in extra && g.gcstate in {Propagate, Atomic}
    modifies g`color, g`gray, g`grayagain, g`weak, g`allweak, g`ephemeron, g`twups
    ensures MarkInv(g, extra, loose, s)
    ensures g.gcstate != Propagate ==> g.grayagain == old(g.grayagain)
    ensures g.weak == old(g.weak) && g.allweak == old(g.allweak) && g.ephemeron == old(g.ephemeron)
    ensures old(Marked(g.color)) <= Marked(g.color)
    ensures OnlyStrings(g.body, old(Marked(g.color)), Marked(g.color)) ==> g.gray == old(g.gray)
    ensures g.twups == old(g.twups) || (g.twups == [o] + old(g.twups) && g.body[o].open != [])
    ensures g.gcstate == Propagate ==> g.twups == old(g.twups)
    ensures g.gcstate == Atomic && g.body[o].open != [] ==> o in g.twups
  {
    hide MarkInv;
    ghost var ex := if g.gcstate == Propagate then extra else extra + {o};
    MarkInvFacts(g, extra + {o}, loose, s, o);
    if g.gcstate == Propagate {
      LinkTo(g, o, ToGrayAgain, extra, loose, s);
    }
    MarkAll(g, g.body[o].stack, ex, loose, s);
    MarkRefs(g, g.body[o].open, ex, loose, s);
    if g.gcstate == Atomic && o !in g.twups && g.body[o].open != [] {
      LinkTwups(g, o, ex, loose, s);
    }
    if g.gcstate != Propagate {
      LinkTo(g, o, Nowhere, extra, loose, s);
    }
  }

  lemma SuffixRefl<T>(a: seq<T>)
    ensures Suffix(a, a)
  {
  }

  lemma SuffixTrans<T>(a: seq<T>, b: seq<T>, c: seq<T>)
    requires Suffix(a, b) && Suffix(b, c)
    ensures Suffix(a, c)
  {
    assert c[|c| - |a|..] == c[|c| - |b|..][|b| - |a|..];
  }

  /** propagatemark: traverses one gray object, turning it black. */
  method PropagateMark(g: Collector, ghost extra: set<Ref>, ghost loose: set<Ref>, ghost s: set<Ref>)
    requires MarkInv(g, extra, loose, s) && g.gray != [] && g.gcstate in {Propagate, Atomic}
    modifies g`color, g`gray, g`grayagain, g`weak, g`allweak, g`ephemeron, g`twups
    ensures MarkInv(g, extra, loose, s)
    ensures g.gcstate != Propagate ==> g.grayagain == old(g.grayagain)
    ensures g.gcstate == Propagate ==>
              && g.weak == old(g.weak) && g.allweak == old(g.allweak) && g.ephemeron == old(g.ephemeron)
              && g.twups == old(g.twups)
    ensures Suffix(old(g.weak), g.weak) && Suffix(old(g.allweak), g.allweak) && Suffix(old(g.ephemeron), g.ephemeron)
    ensures old(Marked(g.color)) <= Marked(g.color)
    ensures Marked(g.color) == old(Marked(g.color)) ==> g.gray == old(g.gray[1..])
    ensures TwupsOk(g.body, Marked(g.color), old(g.twups), g.twups)
  {
    hide MarkInv;
    var o := g.gray[0];
    TakeGray(g, extra, loose, s);
    MarkInvFacts(g, extra + {o}, loose, s, o);
    match g.body[o] {
    case Table(_, _, _, _) =>
      TraverseTable(g, o, extra, loose, s);
    case Udata(meta, uvs) =>
      TraverseStrong(g, o, meta, uvs, extra, loose, s);
    case Block(refs) =>
      PlainIsEmpty();
      TraverseStrong(g, o, Plain, refs, extra, loose, s);
    case Thread(_, _) =>
      TraverseThread(g, o, extra, loose, s);
    }
  }

  lemma PlainIsEmpty()
    ensures PtrSet(Plain) == {}
  {
  }

  /** 'twups' only gains marked threads with open upvalues. */
  ghost predicate TwupsOk(b: Heap, nw: set<Ref>, before: seq<Ref>, after: seq<Ref>)
  {
    && Elems(before) <= Elems(after)
    && forall t :: t in after ==> t in before || (t in b && b[t].Thread? && b[t].open != [] && t in nw)
  }

  lemma TwupsRefl(b: Heap, nw: set<Ref>, t: seq<Ref>)
    ensures TwupsOk(b, nw, t, t)
  {
  }

  lemma TwupsTrans(b: Heap, nw: set<Ref>, nw': set<Ref>, t: seq<Ref>, t': seq<Ref>, t'': seq<Ref>)
    requires TwupsOk(b, nw, t, t') && TwupsOk(b, nw', t', t'') && nw <= nw'
    ensures TwupsOk(b, nw', t, t'')
  {
  }

  lemma MarkedColored(c: Colors)
    ensures Marked(c) <= c.Keys
  {
  }

  /** Takes the first gray object out of its list and paints it black. */
  method TakeGray(g: Collector, ghost extra: set<Ref>, ghost loose: set<Ref>, ghost s: set<Ref>)
    requires MarkInv(g, extra, loose, s) && g.gray != []
    modifies g`color, g`gray
    ensures MarkInv(g, extra + {old(g.gray[0])}, loose, s)
    ensures Marked(g.color) == old(Marked(g.color)) && g.gray == old(g.gray[1..])
    ensures old(g.gray[0]) in Marked(g.color) && CanBeGray(g.body, old(g.gray[0])) && old(g.gray[0]) !in extra
  {
    hide HeapOk, AllOk, TablesIn, Linked;
    ghost var b, nw, x := g.body, Marked(g.color), CtxOf(g, extra, loose);
    var o := g.gray[0];
    assert o in g.gray;
    assert nw + {o} == nw;
    MarkedColored(g.color);
    assert g.gray == [o] + g.gray[1..];
    LinksGray(o, g.gray[1..], g.grayagain, g.weak, g.allweak, g.ephemeron);
    ghost var links := multiset(g.gray[1..]) + multiset(g.grayagain) + multiset(g.weak)
                       + multiset(g.allweak) + multiset(g.ephemeron);
    LinkedTake(g.body, g.color, links, extra, g.gcstate != Atomic, o);
    SetColor(g, o, Black);
    g.gray := g.gray[1..];
    AllOkGrows(b, nw, x, nw, CtxOf(g, extra + {o}, loose));
  }

  /** propagateall: traverses until nothing is gray. */
  method PropagateAll(g: Collector, ghost extra: set<Ref>, ghost loose: set<Ref>, ghost s: set<Ref>)
    requires MarkInv(g, extra, loose, s) && g.gcstate == Atomic
    modifies g`color, g`gray, g`grayagain, g`weak, g`allweak, g`ephemeron, g`twups
    ensures MarkInv(g, extra, loose, s) && g.gray == []
    ensures g.grayagain == old(g.grayagain)
    ensures Suffix(old(g.weak), g.weak) && Suffix(old(g.allweak), g.allweak) && Suffix(old(g.ephemeron), g.ephemeron)
    ensures old(Marked(g.color)) <= Marked(g.color)
    ensures TwupsOk(g.body, Marked(g.color), old(g.twups), g.twups)
    ensures old(g.gray) == [] ==>
              && Marked(g.color) == old(Marked(g.color)) && g.weak == old(g.weak) && g.allweak == old(g.allweak)
              && g.ephemeron == old(g.ephemeron)
  {
    hide MarkInv, Suffix, TwupsOk;
    SuffixRefl(g.weak); SuffixRefl(g.allweak); SuffixRefl(g.ephemeron);
    TwupsRefl(g.body, Marked(g.color), g.twups);
    while g.gray != []
      invariant MarkInv(g, extra, loose, s)
      invariant g.grayagain == old(g.grayagain)
      invariant Suffix(old(g.weak), g.weak) && Suffix(old(g.allweak), g.allweak)
      invariant Suffix(old(g.ephemeron), g.ephemeron)
      invariant old(Marked(g.color)) <= Marked(g.color)
      invariant TwupsOk(g.body, Marked(g.color), old(g.twups), g.twups)
      invariant old(g.gray) == [] ==>
        g.gray == [] && Marked(g.color) == old(Marked(g.color)) &&
        g.weak == old(g.weak) && g.allweak == old(g.allweak) && g.ephemeron == old(g.ephemeron)
      decreases Unmarked(g), |g.gray|
    {
      ghost var nw, w, a, e, t := Marked(g.color), g.weak, g.allweak, g.ephemeron, g.twups;
      PropagateMark(g, extra, loose, s);
      SuffixTrans(old(g.weak), w, g.weak); SuffixTrans(old(g.allweak), a, g.allweak); SuffixTrans(old(g.ephemeron), e,
              g.ephemeron);
      TwupsTrans(g.body, nw, Marked(g.color), old(g.twups), t, g.twups);
      UnmarkedSub(g, extra, loose, s);
      if Marked(g.color) != nw {
        UnmarkedLess(g.body.Keys, nw, Marked(g.color));
      }
    }
  }

  lemma UnmarkedSub(g: Collector, extra: set<Ref>, loose: set<Ref>, s: set<Ref>)
    requires MarkInv(g, extra, loose, s)
    ensures Marked(g.color) <= g.body.Keys
  {
  }

  lemma UnmarkedLess(all: set<Ref>, nw: set<Ref>, nw': set<Ref>)
    requires nw <= nw' <= all && nw != nw'
    ensures all - nw' < all - nw
  {
    var r :| r in nw' && r !in nw;
    assert r in all - nw;
  }

  // ---- Convergence of ephemeron tables -----------------------------------------------------

  /** Every table of 'l' is done: no marked key keeps an unmarked value. */
  ghost predicate Converged(b: Heap, nw: set<Ref>, l: seq<Ref>)
  {
    forall o :: o in l ==> o in b && b[o].Table? && EphDone(b, nw, Elems(b[o].node))
  }

  /** Marking only strings cannot undo convergence: strings never are weak keys. */
  lemma ConvergedGrows(b: Heap, nw: set<Ref>, nw': set<Ref>, l: seq<Ref>)
    requires Converged(b, nw, l) && nw <= nw' && OnlyStrings(b, nw, nw')
    ensures Converged(b, nw', l)
  {
    forall o | o in l ensures EphDone(b, nw', Elems(b[o].node)) {
      assert EphDone(b, nw, Elems(b[o].node));
      assert forall e :: KeyHolds(b, nw', e) ==> KeyHolds(b, nw, e);
    }
  }

  /** Takes the whole ephemeron list, whose tables become pending. */
  method TakeEphemerons(g: Collector, ghost extra: set<Ref>, ghost loose: set<Ref>, ghost s: set<Ref>)
    returns (next: seq<Ref>)
    requires MarkInv(g, extra, loose, s) && g.gcstate == Atomic
    modifies g`ephemeron
    ensures MarkInv(g, extra + Elems(next), loose, s) && g.ephemeron == [] && next == old(g.ephemeron)
    ensures TablesIn(g.body, Marked(g.color), next, ToEphemeron) && Distinct(next) && extra !! Elems(next)
  {
    next := g.ephemeron;
    ghost var b, nw, x := g.body, Marked(g.color), CtxOf(g, extra, loose);
    ghost var links := multiset(g.gray) + multiset(g.grayagain) + multiset(g.weak) + multiset(g.allweak);
    assert Links(g) == links + multiset(next);
    LinkedMove(b, g.color, links, next, extra);
    g.ephemeron := [];
    assert Links(g) == links;
    EphToPending(b, nw, x, CtxOf(g, extra + Elems(next), loose));
  }

  lemma EphToPending(b: Heap, nw: set<Ref>, x: Ctx, x': Ctx)
    requires AllOk(b, nw, x) && x.pend + x.eph <= x'.pend
    requires x.weak <= x'.weak && x.allweak <= x'.allweak && x.loose <= x'.loose && x.tw <= x'.tw
    ensures AllOk(b, nw, x')
  {
    forall o | o in nw ensures OkAt(b, nw, x', o) {
      assert OkAt(b, nw, x, o);
    }
  }

  /** nw2black */
  method PaintBlack(g: Collector, o: Ref, ghost extra: set<Ref>, ghost loose: set<Ref>, ghost s: set<Ref>)
    requires MarkInv(g, extra, loose, s) && o in Marked(g.color) && g.gcstate == Atomic
    modifies g`color
    ensures MarkInv(g, extra, loose, s) && Marked(g.color) == old(Marked(g.color))
  {
    hide HeapOk, ListsOk, AllOk, Linked;
    assert Marked(g.color) + {o} == Marked(g.color);
    LinkedBlack(g.body, g.color, Links(g), extra, o);
    SetColor(g, o, Black);
  }

  /** One table of a pass of convergeephemerons, with the propagation that it may cause. */
  method ConvergeTable(g: Collector, w: Ref, dir: bool, ghost extra: set<Ref>, ghost loose: set<Ref>, ghost s: set<Ref>)
    returns (changed: bool)
    requires MarkInv(g, extra + {w}, loose, s) && g.gcstate == Atomic && g.gray == []
    requires TablesIn(g.body, Marked(g.color), [w], ToEphemeron)
    requires w !in extra
    modifies g`color, g`gray, g`grayagain, g`weak, g`allweak, g`ephemeron, g`twups
    ensures MarkInv(g, extra, loose, s) && g.gray == [] && g.grayagain == old(g.grayagain)
    ensures Suffix(old(g.weak), g.weak) && Suffix(old(g.allweak), g.allweak)
    ensures old(Marked(g.color)) <= Marked(g.color)
    ensures TwupsOk(g.body, Marked(g.color), old(g.twups), g.twups)
    ensures changed ==> old(Marked(g.color)) < Marked(g.color)
    ensures !changed ==>
              && OnlyStrings(g.body, old(Marked(g.color)), Marked(g.color))
              && (old(Converged(g.body, Marked(g.color), g.ephemeron)) ==>
                    Converged(g.body, Marked(g.color), g.ephemeron))
  {
    hide MarkInv, Suffix, TwupsOk, EphDone;
    assert w in [w];
    ghost var nw0 := Marked(g.color);
    PaintBlack(g, w, extra + {w}, loose, s);
    ghost var e0 := g.ephemeron;
    SuffixRefl(g.weak); SuffixCons(w, g.allweak); TwupsRefl(g.body, Marked(g.color), g.twups);
    changed := TraverseEphemeron(g, w, dir, extra, loose, s);
    if changed {
      ghost var a, nw := g.allweak, Marked(g.color);
      PropagateAll(g, extra, loose, s);
      SuffixTrans(old(g.allweak), a, g.allweak);
    } else {
      TwupsRefl(g.body, Marked(g.color), g.twups);
      if old(Converged(g.body, Marked(g.color), g.ephemeron)) {
        ConvergedGrows(g.body, nw0, Marked(g.color), e0);
      }
    }
  }

  /**
   convergeephemerons: repeats until a whole pass over the ephemeron tables marks nothing.  Whatever
   the order of the list and the direction of the traversals, no marked key then keeps an unmarked value.
   */
  method ConvergeEphemerons(g: Collector, ghost extra: set<Ref>, ghost loose: set<Ref>, ghost s: set<Ref>)
    requires MarkInv(g, extra, loose, s) && g.gcstate == Atomic && g.gray == []
    modifies g`color, g`gray, g`grayagain, g`weak, g`allweak, g`ephemeron, g`twups
    ensures MarkInv(g, extra, loose, s) && g.gray == [] && g.grayagain == old(g.grayagain)
    ensures Converged(g.body, Marked(g.color), g.ephemeron)
    ensures Suffix(old(g.weak), g.weak) && Suffix(old(g.allweak), g.allweak)
    ensures old(Marked(g.color)) <= Marked(g.color)
    ensures TwupsOk(g.body, Marked(g.color), old(g.twups), g.twups)
  {
    hide MarkInv, Suffix, TwupsOk, Converged;
    var dir := false;
    var changed := true;
    SuffixRefl(g.weak); SuffixRefl(g.allweak); TwupsRefl(g.body, Marked(g.color), g.twups);
    while changed
      invariant MarkInv(g, extra, loose, s) && g.gray == [] && g.grayagain == old(g.grayagain)
      invariant !changed ==> Converged(g.body, Marked(g.color), g.ephemeron)
      invariant Suffix(old(g.weak), g.weak) && Suffix(old(g.allweak), g.allweak)
      invariant old(Marked(g.color)) <= Marked(g.color)
      invariant TwupsOk(g.body, Marked(g.color), old(g.twups), g.twups)
      decreases Unmarked(g), changed
    {
      ghost var nw, w, a, t := Marked(g.color), g.weak, g.allweak, g.twups;
      changed := ConvergePass(g, dir, extra, loose, s);
      SuffixTrans(old(g.weak), w, g.weak); SuffixTrans(old(g.allweak), a, g.allweak);
      TwupsTrans(g.body, nw, Marked(g.color), old(g.twups), t, g.twups);
      UnmarkedSub(g, extra, loose, s);
      if Marked(g.color) != nw {
        UnmarkedLess(g.body.Keys, nw, Marked(g.color));
      }
      dir := !dir;
    }
  }

  /** One pass of convergeephemerons over the list as it was at its start. */
  method ConvergePass(g: Collector, dir: bool, ghost extra: set<Ref>, ghost loose: set<Ref>, ghost s: set<Ref>)
    returns (changed: bool)
    requires MarkInv(g, extra, loose, s) && g.gcstate == Atomic && g.gray == []
    modifies g`color, g`gray, g`grayagain, g`weak, g`allweak, g`ephemeron, g`twups
    ensures MarkInv(g, extra, loose, s) && g.gray == [] && g.grayagain == old(g.grayagain)
    ensures Suffix(old(g.weak), g.weak) && Suffix(old(g.allweak), g.allweak)
    ensures old(Marked(g.color)) <= Marked(g.color)
    ensures TwupsOk(g.body, Marked(g.color), old(g.twups), g.twups)
    ensures changed ==> old(Marked(g.color)) < Marked(g.color)
    ensures !changed ==> Converged(g.body, Marked(g.color), g.ephemeron)
  {
    hide MarkInv, Suffix, TwupsOk, TablesIn, Distinct;
    SuffixRefl(g.weak); SuffixRefl(g.allweak); TwupsRefl(g.body, Marked(g.color), g.twups);
    var next := TakeEphemerons(g, extra, loose, s);
    changed := false;
    hide Converged;
    while next != []
      invariant MarkInv(g, extra + Elems(next), loose, s) && g.gray == [] && g.grayagain == old(g.grayagain)
      invariant TablesIn(g.body, Marked(g.color), next, ToEphemeron) && Distinct(next) && extra !! Elems(next)
      invariant Suffix(old(g.weak), g.weak) && Suffix(old(g.allweak), g.allweak)
      invariant old(Marked(g.color)) <= Marked(g.color)
      invariant TwupsOk(g.body, Marked(g.color), old(g.twups), g.twups)
      invariant changed ==> old(Marked(g.color)) < Marked(g.color)
      invariant !changed ==> Converged(g.body, Marked(g.color), g.ephemeron)
      decreases |next|
    {
      ghost var nw, w, a, t := Marked(g.color), g.weak, g.allweak, g.twups;
      var o := next[0];
      TablesSplit(g.body, nw, next, ToEphemeron);
      DistinctTail(next);
      assert extra + Elems(next) == extra + Elems(next[1..]) + {o};
      next := next[1..];
      var c := ConvergeTable(g, o, dir, extra + Elems(next), loose, s);
      MayLeaveGrows(g.body, nw, Marked(g.color), next, ToEphemeron);
      SuffixTrans(old(g.weak), w, g.weak); SuffixTrans(old(g.allweak), a, g.allweak);
      TwupsTrans(g.body, nw, Marked(g.color), old(g.twups), t, g.twups);
      changed := changed || c;
    }
    assert extra + Elems(next) == extra;
  }

  lemma TablesSplit(b: Heap, nw: set<Ref>, l: seq<Ref>, d: Dest)
    requires TablesIn(b, nw, l, d) && l != []
    ensures TablesIn(b, nw, [l[0]], d) && TablesIn(b, nw, l[1..], d)
    ensures Elems(l) == Elems(l[1..]) + {l[0]}
  {
    assert l == [l[0]] + l[1..];
  }
}
