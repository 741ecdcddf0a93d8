/**
 The atomic step of a collection (lgc.c, "atomic"): it finishes marking, clears weak tables,
 and separates the objects to be finalized, with the program stopped.
 */
module GcAtomic {
  import opened GcHeap
  import opened GcMark

  // ---- Open upvalues of threads that may be dead ------------------------------------------

  /** Every thread with open upvalues is listed, and only threads are. */
  ghost predicate TwupsComplete(b: Heap, tw: seq<Ref>)
  {
    && (forall t :: t in b && b[t].Thread? && b[t].open != [] ==> t in tw)
    && (forall t :: t in tw ==> t in b && b[t].Thread?)
  }

  /** The upvalues of 'us' that belong to threads in 'ts'. */
  ghost function OfThreads(b: Heap, us: set<Ref>, ts: set<Ref>): set<Ref>
  {
    set u | u in us && u in b && b[u].OpenUpVal? && b[u].th in ts
  }

  /** With every such thread listed, all open upvalues already marked are the loose ones. */
  lemma LooseStart(b: Heap, nw: set<Ref>, x: Ctx, tw: seq<Ref>, x': Ctx)
    requires WfBody(b) && AllOk(b, nw, x) && TwupsComplete(b, tw)
    requires x'.loose == OfThreads(b, nw, Elems(tw))
    requires x.pend <= x'.pend && x.weak <= x'.weak && x.allweak <= x'.allweak && x.eph <= x'.eph && x.tw <= x'.tw
    ensures AllOk(b, nw, x')
  {
    forall o | o in nw ensures o in b && OkAt(b, nw, x', o) {
      assert OkAt(b, nw, x, o);
      if b[o].OpenUpVal? { assert UpvalOk(b, o); }
    }
  }

  /** A thread that is kept: its upvalues are covered by its own traversal. */
  lemma LooseKeep(b: Heap, nw: set<Ref>, x: Ctx, t: Ref, x': Ctx)
    requires WfBody(b) && AllOk(b, nw, x) && t in nw && t in b && b[t].Thread?
    requires forall u :: u in x.loose && u !in x'.loose && u in b && b[u].OpenUpVal? ==> b[u].th == t
    requires x.pend <= x'.pend && x.weak <= x'.weak && x.allweak <= x'.allweak && x.eph <= x'.eph && x.tw <= x'.tw
    ensures AllOk(b, nw, x')
  {
    assert OkAt(b, nw, x, t);
    forall o | o in nw ensures o in b && OkAt(b, nw, x', o) {
      assert OkAt(b, nw, x, o);
      if b[o].OpenUpVal? && b[o].th == t {
        assert UpvalOk(b, o);
        assert b[t].stack[b[o].slot] in b[t].stack;
      }
    }
  }

  /** A thread leaves the list: it is not marked or has no open upvalues. */
  lemma LooseDrop(b: Heap, nw: set<Ref>, x: Ctx, t: Ref, x': Ctx)
    requires AllOk(b, nw, x) && t in b && b[t].Thread? && (t !in nw || b[t].open == [])
    requires x.tw - {t} <= x'.tw && x.loose <= x'.loose
    requires x.pend <= x'.pend && x.weak <= x'.weak && x.allweak <= x'.allweak && x.eph <= x'.eph
    ensures AllOk(b, nw, x')
  {
    forall o | o in nw ensures o in b && OkAt(b, nw, x', o) {
      assert OkAt(b, nw, x, o);
    }
  }

  /** Upvalue 'u' is not loose any more once its value is marked. */
  lemma LooseVisited(b: Heap, nw: set<Ref>, x: Ctx, u: Ref, x': Ctx)
    requires AllOk(b, nw, x) && u in b && (u in nw ==> b[u].OpenUpVal? && Refs(b, u) <= nw)
    requires x.loose - {u} <= x'.loose
    requires x.pend <= x'.pend && x.weak <= x'.weak && x.allweak <= x'.allweak && x.eph <= x'.eph && x.tw <= x'.tw
    ensures AllOk(b, nw, x')
  {
    forall o | o in nw ensures o in b && OkAt(b, nw, x', o) {
      assert OkAt(b, nw, x, o);
    }
  }

  /** The inner loop of remarkupvals: marks the values of the visited upvalues of thread 't'. */
  method RemarkThread(g: Collector, t: Ref, ghost extra: set<Ref>, ghost loose: set<Ref>, ghost s: set<Ref>)
    requires MarkInv(g, extra, loose, s) && t in g.body && g.body[t].Thread? && loose <= Marked(g.color)
    modifies g`color, g`gray
    ensures MarkInv(g, extra, loose - Elems(g.body[t].open), s)
    ensures old(Marked(g.color)) <= Marked(g.color)
  {
    hide *;
    var open := g.body[t].open;
    var i := 0;
    LooseSplit(loose, open, 0);
    TrueSub(Marked(g.color));
    while i < |open|
      invariant 0 <= i <= |open|
      invariant MarkInv(g, extra, loose - Elems(open[..i]), s)
      invariant old(Marked(g.color)) <= Marked(g.color)
    {
      ghost var before := loose - Elems(open[..i]);
      var uv := open[i];
      OpenUpValFacts(g, extra, before, s, t, uv);
      MarkedIs(g.color);
      if !g.color[uv].White? {
        MarkedUpValFacts(g, extra, before, s, uv);
        MarkValue(g, Content(g.body, uv), extra, before, s);
      }
      LooseSplit(loose, open, i);
      LooseVisitedInv(g, extra, before, s, uv);
      i := i + 1;
    }
    LooseSplit(loose, open, i);
  }

  lemma TrueSub(s: set<Ref>)
    ensures s <= s
  {
  }

  lemma LooseSplit(loose: set<Ref>, open: seq<Ref>, i: nat)
    requires i <= |open|
    ensures loose - Elems(open[..0]) == loose && loose - Elems(open[..|open|]) == loose - Elems(open)
    ensures i < |open| ==> loose - Elems(open[..i]) - {open[i]} == loose - Elems(open[..i + 1])
  {
    assert open[..|open|] == open;
    if i < |open| { assert open[..i + 1] == open[..i] + [open[i]]; }
  }

  lemma OpenUpValFacts(g: Collector, extra: set<Ref>, loose: set<Ref>, s: set<Ref>, t: Ref, uv: Ref)
    requires MarkInv(g, extra, loose, s) && t in g.body && g.body[t].Thread? && uv in g.body[t].open
    ensures uv in g.body && g.body[uv].OpenUpVal? && uv in g.color
  {
    OpenFacts(g.body, g.color.Keys, Marked(g.color), s, t, uv);
  }

  lemma MarkedUpValFacts(g: Collector, extra: set<Ref>, loose: set<Ref>, s: set<Ref>, uv: Ref)
    requires MarkInv(g, extra, loose, s) && uv in Marked(g.color) && uv in g.body && g.body[uv].OpenUpVal?
    ensures Refs(g.body, uv) == PtrSet(Content(g.body, uv))
    ensures PtrSet(Content(g.body, uv)) <= g.body.Keys && PtrSet(Content(g.body, uv)) <= s
  {
    MarkedFacts(g.body, g.color.Keys, Marked(g.color), s, uv);
    WhiteFacts(g.body, g.color.Keys, Marked(g.color), s, uv);
  }

  lemma LooseVisitedInv(g: Collector, extra: set<Ref>, loose: set<Ref>, s: set<Ref>, uv: Ref)
    requires MarkInv(g, extra, loose, s) && uv in g.body && g.body[uv].OpenUpVal?
    requires uv in Marked(g.color) ==> Refs(g.body, uv) <= Marked(g.color)
    ensures MarkInv(g, extra, loose - {uv}, s)
  {
    LooseVisited(g.body, Marked(g.color), CtxOf(g, extra, loose), uv, CtxOf(g, extra, loose - {uv}));
  }

  lemma OpenFacts(b: Heap, colored: set<Ref>, nw: set<Ref>, s: set<Ref>, t: Ref, uv: Ref)
    requires HeapOk(b, colored, nw, s) && t in b && b[t].Thread? && uv in b[t].open
    ensures uv in b && b[uv].OpenUpVal? && b[uv].th == t && colored == b.Keys
  {
    assert ThreadOk(b, t);
  }

  /** One thread of remarkupvals; 'keep' and 'rest' are the parts of 'twups' already seen and still to see. */
  method RemarkOne(g: Collector, keep: seq<Ref>, rest: seq<Ref>, ghost us: set<Ref>, ghost extra: set<Ref>,
          ghost s: set<Ref>)
    returns (keep': seq<Ref>)
    requires MarkInv(g, extra, OfThreads(g.body, us, Elems(rest)), s) && g.gcstate == Atomic && rest != []
    requires g.twups == keep + rest && us <= Marked(g.color)
    requires forall t :: t in rest ==> t in g.body && g.body[t].Thread?
    requires TwupsMarked(g.body, Marked(g.color), keep)
    modifies g`color, g`gray, g`twups
    ensures MarkInv(g, extra, OfThreads(g.body, us, Elems(rest[1..])), s)
    ensures g.twups == keep' + rest[1..] && old(Marked(g.color)) <= Marked(g.color)
    ensures TwupsMarked(g.body, Marked(g.color), keep') && keep <= keep'
    ensures !WithOpen(g.body, rest[0]) || rest[0] !in old(Marked(g.color)) || rest[0] in keep'
  {
    hide HeapOk, ListsOk, AllOk, Linked, WhitesOk;
    ghost var b, ls := g.body, OfThreads(g.body, us, Elems(rest));
    var t := rest[0];
    ghost var ls' := OfThreads(g.body, us, Elems(rest[1..]));
    assert Elems(rest) == {t} + Elems(rest[1..]);
    ColorsAll(b, g.color.Keys, Marked(g.color), s);
    if !g.color[t].White? && g.body[t].open != [] {
      keep' := keep + [t];
      assert keep' + rest[1..] == keep + rest;
      LooseKeep(b, Marked(g.color), CtxOf(g, extra, ls), t, CtxOf(g, extra, ls'));
    } else {
      keep' := keep;
      ghost var x := CtxOf(g, extra, ls);
      g.twups := keep + rest[1..];
      assert Elems(keep + rest) - {t} <= Elems(keep + rest[1..]);
      LooseDrop(b, Marked(g.color), x, t, CtxOf(g, extra, ls));
      RemarkThread(g, t, extra, ls, s);
      LooseRest(b, g.color.Keys, Marked(g.color), s, us, t, rest);
      AllOkLoose(b, Marked(g.color), CtxOf(g, extra, ls - Elems(g.body[t].open)), CtxOf(g, extra, ls'));
    }
  }

  lemma ColorsAll(b: Heap, colored: set<Ref>, nw: set<Ref>, s: set<Ref>)
    requires HeapOk(b, colored, nw, s)
    ensures colored == b.Keys && WfBody(b) && nw <= s
  {
  }

  lemma LooseRest(b: Heap, colored: set<Ref>, nw: set<Ref>, s: set<Ref>, us: set<Ref>, t: Ref, rest: seq<Ref>)
    requires HeapOk(b, colored, nw, s) && rest != [] && t == rest[0] && t in b && b[t].Thread?
    ensures OfThreads(b, us, Elems(rest)) - Elems(b[t].open) <= OfThreads(b, us, Elems(rest[1..]))
  {
    forall u | u in OfThreads(b, us, Elems(rest)) && u !in Elems(b[t].open)
      ensures u in OfThreads(b, us, Elems(rest[1..]))
    {
      assert UpvalOk(b, u);
      assert rest == [t] + rest[1..];
    }
  }

  lemma AllOkLoose(b: Heap, nw: set<Ref>, x: Ctx, x': Ctx)
    requires AllOk(b, nw, x) && x.loose <= x'.loose && x.(loose := {}) == x'.(loose := {})
    ensures AllOk(b, nw, x')
  {
    AllOkGrows(b, nw, x, nw, x');
  }

  /** A thread with open upvalues. */
  ghost predicate WithOpen(b: Heap, t: Ref)
  {
    t in b && b[t].Thread? && b[t].open != []
  }

  /**
   remarkupvals: threads that are not marked leave 'twups', and the values of their visited open
   upvalues are marked.  After it no open upvalue has an unmarked value that only a dead thread holds.
   */
  method RemarkUpvals(g: Collector, ghost extra: set<Ref>, ghost s: set<Ref>)
    requires MarkInv(g, extra, g.body.Keys, s) && g.gcstate == Atomic && TwupsComplete(g.body, g.twups)
    modifies g`color, g`gray, g`twups
    ensures MarkInv(g, extra, {}, s) && old(Marked(g.color)) <= Marked(g.color)
    ensures TwupsMarked(g.body, Marked(g.color), g.twups)
    ensures forall t :: t in old(g.twups) && t in old(Marked(g.color)) && WithOpen(g.body, t) ==> t in g.twups
  {
    hide HeapOk, ListsOk, AllOk, Linked, WhitesOk, WithOpen, TwupsMarked, SeenUp;
    ghost var us := Marked(g.color);
    ColorsAll(g.body, g.color.Keys, us, s);
    var keep, rest := [], g.twups;
    SeenNone(g.body, us, g.twups, Marked(g.color));
    LooseStart(g.body, us, CtxOf(g, extra, g.body.Keys), rest, CtxOf(g, extra, OfThreads(g.body, us, Elems(rest))));
    while rest != []
      invariant MarkInv(g, extra, OfThreads(g.body, us, Elems(rest)), s)
      invariant g.twups == keep + rest && us <= Marked(g.color)
      invariant forall t :: t in rest ==> t in g.body && g.body[t].Thread?
      invariant TwupsMarked(g.body, Marked(g.color), keep) && SeenUp(g.body, us, old(g.twups), keep, rest)
      decreases |rest|
    {
      ghost var k, c := keep, g.color;
      keep := RemarkOne(g, keep, rest, us, extra, s);
      SeenStep(g.body, us, c, old(g.twups), k, rest, keep);
      rest := rest[1..];
    }
    assert OfThreads(g.body, us, Elems(rest)) == {} && keep + rest == keep;
    SeenAll(g.body, us, old(g.twups), keep);
  }

  /** The threads of 'tw' that were marked before and have open upvalues are in 'keep', or yet to be seen. */
  ghost predicate SeenUp(b: Heap, us: set<Ref>, tw: seq<Ref>, keep: seq<Ref>, rest: seq<Ref>)
  {
    forall t :: t in tw && t in us && WithOpen(b, t) ==> t in keep || t in rest
  }

  lemma SeenNone(b: Heap, us: set<Ref>, tw: seq<Ref>, nw: set<Ref>)
    ensures SeenUp(b, us, tw, [], tw) && TwupsMarked(b, nw, [])
  {
  }

  lemma SeenAll(b: Heap, us: set<Ref>, tw: seq<Ref>, keep: seq<Ref>)
    requires SeenUp(b, us, tw, keep, [])
    ensures forall t :: t in tw && t in us && WithOpen(b, t) ==> t in keep
  {
  }

  lemma SeenStep(b: Heap, us: set<Ref>, c: Colors, tw: seq<Ref>, keep: seq<Ref>, rest: seq<Ref>, keep': seq<Ref>)
    requires SeenUp(b, us, tw, keep, rest) && rest != [] && keep <= keep' && us <= Marked(c)
    requires !WithOpen(b, rest[0]) || rest[0] !in Marked(c) || rest[0] in keep'
    ensures SeenUp(b, us, tw, keep', rest[1..])
  {
    assert rest == [rest[0]] + rest[1..];
    hide WithOpen, Marked;
  }

  // ---- Marking everything that is strongly accessible -----------------------------------------

  ghost function Roots(g: Collector): set<Ref>
    reads g`mainthread, g`current, g`registry, g`mt
  {
    {g.mainthread, g.current} + PtrSet(g.registry) + PtrsOf(g.mt)
  }

  /** The collector is about to start the atomic step: nothing is pending but the two gray lists. */
  ghost predicate ReadyForAtomic(g: Collector, s: set<Ref>)
    reads g`body, g`color, g`white, g`gcstate, g`gray, g`grayagain, g`weak, g`allweak, g`ephemeron, g`twups
    reads g`mainthread, g`current, g`registry, g`mt
  {
    && g.gcstate == EnterAtomic
    && MarkInv(g, {}, g.body.Keys, s)
    && g.weak == [] && g.allweak == [] && g.ephemeron == []
    && TwupsComplete(g.body, g.twups)
    && Roots(g) <= g.body.Keys && Roots(g) <= s && g.mainthread in Marked(g.color)
  }

  /** A saved gray list holds marked objects that can be traversed. */
  ghost predicate GraySaved(b: Heap, nw: set<Ref>, l: seq<Ref>)
  {
    forall o :: o in l ==> CanBeGray(b, o) && o in nw
  }

  /** Entering the atomic state with the saved 'grayagain' list still pending. */
  method BeginAtomic(g: Collector, ghost s: set<Ref>) returns (saved: seq<Ref>)
    requires ReadyForAtomic(g, s)
    modifies g`gcstate, g`grayagain
    ensures g.gcstate == Atomic && g.grayagain == [] && saved == old(g.grayagain)
    ensures MarkInv(g, Elems(saved), g.body.Keys, s) && GraySaved(g.body, Marked(g.color), saved)
    ensures Distinct(saved)
    ensures TwupsComplete(g.body, g.twups) && g.mainthread in Marked(g.color)
    ensures Roots(g) <= g.body.Keys && Roots(g) <= s
  {
    hide AllOk, HeapOk, ListsOk, TwupsComplete, WhitesOk, GraySaved, Linked, CanBeGray, Marked;
    ghost var b, nw, x := g.body, Marked(g.color), CtxOf(g, {}, g.body.Keys);
    saved := g.grayagain;
    LinkedSaved(b, g.color, g.gray, saved);
    g.grayagain := [];
    g.gcstate := Atomic;
    assert {} + Elems(saved) == Elems(saved);
    TwupsTakeOver(b, nw, x, CtxOf(g, Elems(saved), g.body.Keys), g.twups);
  }

  lemma LinkedSaved(b: Heap, c: Colors, gray: seq<Ref>, saved: seq<Ref>)
    requires Linked(b, c, multiset(gray) + multiset(saved) + multiset([]) + multiset([]) + multiset([]), {}, true)
    ensures Linked(b, c, multiset(gray) + multiset([]) + multiset([]) + multiset([]) + multiset([]), {} + Elems(saved),
                   false)
    ensures Distinct(saved) && GraySaved(b, Marked(c), saved)
  {
    var all := multiset(gray) + multiset(saved) + multiset([]) + multiset([]) + multiset([]);
    assert all == multiset(gray) + multiset(saved);
    assert multiset(gray) + multiset([]) + multiset([]) + multiset([]) + multiset([]) == multiset(gray);
    assert forall o :: o in saved ==> o in all;
    LinkedInexact(b, c, all, {});
    LinkedMove(b, c, multiset(gray), saved, {});
  }

  lemma LinkedInexact(b: Heap, c: Colors, links: multiset<Ref>, extra: set<Ref>)
    requires Linked(b, c, links, extra, true)
    ensures Linked(b, c, links, extra, false)
  {
  }

  /** In the atomic state a thread with open upvalues must be in 'twups'; those that have any are. */
  lemma TwupsTakeOver(b: Heap, nw: set<Ref>, x: Ctx, x': Ctx, tw: seq<Ref>)
    requires AllOk(b, nw, x) && TwupsComplete(b, tw) && x'.tw == Elems(tw) && x.pend <= x'.pend
    requires x.weak == x'.weak && x.allweak == x'.allweak && x.eph == x'.eph && x.loose == x'.loose
    ensures AllOk(b, nw, x')
  {
    forall o | o in nw ensures o in b && OkAt(b, nw, x', o) {
      assert OkAt(b, nw, x, o);
    }
  }

  /** Marks the running thread, the registry and the global metatables. */
  method MarkRoots(g: Collector, ghost extra: set<Ref>, ghost loose: set<Ref>, ghost s: set<Ref>)
    requires MarkInv(g, extra, loose, s) && Roots(g) <= g.body.Keys && Roots(g) <= s
    modifies g`color, g`gray
    ensures MarkInv(g, extra, loose, s) && Roots(g) <= Marked(g.color) + {g.mainthread}
    ensures old(Marked(g.color)) <= Marked(g.color)
  {
    hide MarkInv;
    assert PtrSet(Ptr(g.current)) == {g.current};
    MarkValue(g, Ptr(g.current), extra, loose, s);
    MarkValue(g, g.registry, extra, loose, s);
    MarkAll(g, g.mt, extra, loose, s);
  }

  /** g->gray = grayagain */
  method ReviveGrayAgain(g: Collector, saved: seq<Ref>, ghost loose: set<Ref>, ghost s: set<Ref>)
    requires MarkInv(g, Elems(saved), loose, s) && g.gray == [] && g.gcstate == Atomic
    requires GraySaved(g.body, Marked(g.color), saved) && Distinct(saved)
    modifies g`gray
    ensures MarkInv(g, {}, loose, s) && g.gray == saved
  {
    hide HeapOk, Linked, WhitesOk, TablesIn;
    ghost var x := CtxOf(g, Elems(saved), loose);
    LinkedRevive(g.body, g.color, g.grayagain, g.weak, g.allweak, g.ephemeron, saved);
    g.gray := saved;
    AllOkGrows(g.body, Marked(g.color), x, Marked(g.color), CtxOf(g, {}, loose));
  }

  lemma LinkedRevive(b: Heap, c: Colors, again: seq<Ref>, weak: seq<Ref>, allweak: seq<Ref>, eph: seq<Ref>,
          saved: seq<Ref>)
    requires Linked(b, c, multiset([]) + multiset(again) + multiset(weak) + multiset(allweak) + multiset(eph),
                    Elems(saved), false)
    requires Distinct(saved) && GraySaved(b, Marked(c), saved)
    ensures Linked(b, c, multiset(saved) + multiset(again) + multiset(weak) + multiset(allweak) + multiset(eph), {},
                   false)
  {
    var links := multiset([]) + multiset(again) + multiset(weak) + multiset(allweak) + multiset(eph);
    assert multiset(saved) + multiset(again) + multiset(weak) + multiset(allweak) + multiset(eph)
           == links + multiset(saved);
    forall o | o in links + multiset(saved)
      ensures (links + multiset(saved))[o] == 1 && CanBeGray(b, o) && o in c && !c[o].White?
    {
      assert o in links ==> o !in Elems(saved);
    }
  }

  lemma TwupsStillComplete(b: Heap, nw: set<Ref>, t: seq<Ref>, t': seq<Ref>)
    requires TwupsComplete(b, t) && TwupsOk(b, nw, t, t')
    ensures TwupsComplete(b, t')
  {
    assert forall x :: x in t ==> x in Elems(t);
  }

  /** All the threads in 'twups' are marked and have open upvalues. */
  ghost predicate TwupsMarked(b: Heap, nw: set<Ref>, tw: seq<Ref>)
  {
    forall t :: t in tw ==> t in nw && t in b && b[t].Thread? && b[t].open != []
  }

  lemma TwupsStillMarked(b: Heap, nw: set<Ref>, t: seq<Ref>, nw': set<Ref>, t': seq<Ref>)
    requires TwupsMarked(b, nw, t) && nw <= nw' && TwupsOk(b, nw', t, t')
    ensures TwupsMarked(b, nw', t')
  {
  }

  /** The part of 'atomic' up to 'remarkupvals', with the saved list pending. */
  method MarkWithSaved(g: Collector, saved: seq<Ref>, ghost s: set<Ref>)
    requires MarkInv(g, Elems(saved), g.body.Keys, s) && g.gcstate == Atomic && g.grayagain == []
    requires TwupsComplete(g.body, g.twups) && Roots(g) <= g.body.Keys && Roots(g) <= s
    modifies g`color, g`gray, g`grayagain, g`weak, g`allweak, g`ephemeron, g`twups
    ensures MarkInv(g, Elems(saved), {}, s) && g.gray == [] && g.grayagain == []
    ensures Roots(g) <= Marked(g.color) + {g.mainthread} && old(Marked(g.color)) <= Marked(g.color)
    ensures TwupsMarked(g.body, Marked(g.color), g.twups)
  {
    hide *;
    MarkRoots(g, Elems(saved), g.body.Keys, s);
    PropagateAll(g, Elems(saved), g.body.Keys, s);
    TwupsStillComplete(g.body, Marked(g.color), old(g.twups), g.twups);
    RemarkUpvals(g, Elems(saved), s);
    ghost var nw, t := Marked(g.color), g.twups;
    PropagateAll(g, Elems(saved), {}, s);
    TwupsStillMarked(g.body, nw, t, Marked(g.color), g.twups);
  }

  lemma SavedStill(b: Heap, nw: set<Ref>, nw': set<Ref>, l: seq<Ref>)
    requires GraySaved(b, nw, l) && nw <= nw'
    ensures GraySaved(b, nw', l)
  {
  }

  /** The rest of the marking of strongly accessible objects: the saved list, and then ephemerons. */
  method MarkAgain(g: Collector, saved: seq<Ref>, ghost s: set<Ref>)
    requires MarkInv(g, Elems(saved), {}, s) && g.gcstate == Atomic && g.gray == [] && g.grayagain == []
    requires GraySaved(g.body, Marked(g.color), saved) && Distinct(saved)
    requires TwupsMarked(g.body, Marked(g.color), g.twups)
    modifies g`color, g`gray, g`grayagain, g`weak, g`allweak, g`ephemeron, g`twups
    ensures MarkInv(g, {}, {}, s) && g.gray == [] && g.grayagain == []
    ensures Converged(g.body, Marked(g.color), g.ephemeron)
    ensures old(Marked(g.color)) <= Marked(g.color)
    ensures TwupsMarked(g.body, Marked(g.color), g.twups)
  {
    hide *;
    ghost var nw, t := Marked(g.color), g.twups;
    ReviveGrayAgain(g, saved, {}, s);
    PropagateAll(g, {}, {}, s);
    TwupsStillMarked(g.body, nw, t, Marked(g.color), g.twups);
    ghost var nw', t' := Marked(g.color), g.twups;
    ConvergeEphemerons(g, {}, {}, s);
    TwupsStillMarked(g.body, nw', t', Marked(g.color), g.twups);
  }

  /**
   The first half of 'atomic': on return all strongly accessible objects are marked, and weak tables
   wait in their lists.
   */
  method MarkLive(g: Collector, ghost s: set<Ref>)
    requires ReadyForAtomic(g, s)
    modifies g`gcstate, g`color, g`gray, g`grayagain, g`weak, g`allweak, g`ephemeron, g`twups
    ensures g.gcstate == Atomic && MarkInv(g, {}, {}, s) && g.gray == [] && g.grayagain == []
    ensures Converged(g.body, Marked(g.color), g.ephemeron)
    ensures Roots(g) <= Marked(g.color) && old(Marked(g.color)) <= Marked(g.color)
    ensures TwupsMarked(g.body, Marked(g.color), g.twups)
  {
    hide *;
    var saved := BeginAtomic(g, s);
    ghost var nw := Marked(g.color);
    MarkWithSaved(g, saved, s);
    SavedStill(g.body, nw, Marked(g.color), saved);
    MarkAgain(g, saved, s);
  }
}
