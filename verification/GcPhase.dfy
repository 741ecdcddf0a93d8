/**
 What holds of the collector whenever the program runs, in each state of a collection.
 Dead objects have the white of the previous cycle; everything else is kept.
 */
module GcPhase {
  import opened GcHeap
  import opened GcMark
  import opened GcLive

  /** Objects that are kept refer only to objects that are kept, by strong and weak references alike. */
  ghost predicate HeapSound(b: Heap, colored: set<Ref>, kept: set<Ref>)
  {
    && colored == b.Keys && kept <= colored
    && (forall o :: o in b ==> UpvalOk(b, o) && ThreadOk(b, o))
    && (forall o :: o in kept ==> MetaOk(b, o) && Refs(b, o) <= kept)
  }

  /** The object lists, each with its head first. */
  datatype Lists = Lists(allgc: seq<Ref>, finobj: seq<Ref>, tobefnz: seq<Ref>, fixedgc: seq<Ref>)

  /** The lists of gray objects. */
  datatype Grays = Grays(gray: seq<Ref>, grayagain: seq<Ref>, weak: seq<Ref>, allweak: seq<Ref>, ephemeron: seq<Ref>)

  /** Marks for finalization: the bit, how often and when it was set, and how often it was reset to call a finalizer. */
  datatype History = History(bit: set<Ref>, marks: multiset<Ref>, calls: multiset<Ref>, stamp: map<Ref, nat>,
                             clock: nat,
                             batch: map<Ref, nat>, cycle: nat, log: seq<Call>)

  /** The whole state of a collector, as a value. */
  datatype State = State(
    body: Heap, color: Colors, white: bool, gcstate: GcState, sweepgc: SweepPtr, lists: Lists, grays: Grays,
    twups: seq<Ref>, main: Ref, current: Ref, registry: Val, mt: seq<Val>, history: History)
  {
    ghost function Kept(): set<Ref>
    {
      set o | o in color && color[o] != White(!white)
    }

    ghost function Roots(): set<Ref>
    {
      {main, current} + PtrSet(registry) + PtrsOf(mt)
    }

    ghost function Links(): multiset<Ref>
    {
      multiset(grays.gray) + multiset(grays.grayagain) + multiset(grays.weak) + multiset(grays.allweak)
      + multiset(grays.ephemeron)
    }
  }

  ghost function StateOf(g: Collector): State
    reads g
  {
    State(g.body, g.color, g.white, g.gcstate, g.sweepgc, Lists(g.allgc, g.finobj, g.tobefnz, g.fixedgc),
          Grays(g.gray, g.grayagain, g.weak, g.allweak, g.ephemeron),
          g.twups, g.mainthread, g.current, g.registry, g.mt,
          History(g.tofinalize, g.marks, g.calls, g.stamp, g.clock, g.batch, g.cycle, g.log))
  }

  /** Every object is in exactly one list, only once. */
  ghost predicate OneList(b: Heap, l: Lists)
  {
    multiset(l.allgc) + multiset(l.finobj) + multiset(l.tobefnz) + multiset(l.fixedgc) == multiset(b.Keys)
  }

  /** Only tables and userdata get finalizers, and no object waiting for its finalizer is dead. */
  ghost predicate CanFinalize(b: Heap, kept: set<Ref>, l: seq<Ref>)
  {
    forall o :: o in l ==> o in kept && o in b && (b[o].Table? || b[o].Udata?)
  }

  /** Fixed objects are strings, and marked forever. */
  ghost predicate FixedOk(b: Heap, c: Colors, l: seq<Ref>)
  {
    forall o :: o in l ==> o in b && b[o].Str? && o in c && !c[o].White?
  }

  /** All threads that are kept and have open upvalues are in 'twups', and nothing else is. */
  ghost predicate TwupsSound(b: Heap, kept: set<Ref>, tw: seq<Ref>)
  {
    && (forall t :: t in kept && t in b && b[t].Thread? && b[t].open != [] ==> t in tw)
    && (forall t :: t in tw ==> t in kept && t in b && b[t].Thread?)
  }

  ghost predicate RootsSound(b: Heap, kept: set<Ref>, main: Ref, current: Ref, roots: set<Ref>)
  {
    && roots <= kept && {main, current} <= roots
    && main in b && b[main].Thread? && current in b && b[current].Thread?
  }

  /** All objects of 'l' have the current white. */
  ghost predicate AllWhite(c: Colors, w: bool, l: seq<Ref>)
  {
    forall o :: o in l ==> o in c && c[o] == White(w)
  }

  /** How many objects of 'l' the sweep has passed, when its pointer is 'p'. */
  ghost predicate SweptUpTo(c: Colors, w: bool, l: seq<Ref>, p: SweepPtr, i: nat)
  {
    && i <= |l| && AllWhite(c, w, l[..i])
    && p == if i == 0 then Head else LinkOf(l[i - 1])
  }

  /** The sweep pointer points into the list being swept, and what it has passed is white; no pointer means the end. */
  ghost predicate Sweeping(c: Colors, w: bool, l: seq<Ref>, p: SweepPtr)
  {
    if p == NoLink then AllWhite(c, w, l) else exists i :: SweptUpTo(c, w, l, p, i)
  }

  ghost predicate SweepOk(st: GcState, c: Colors, w: bool, p: SweepPtr, l: Lists)
  {
    match st
    case SwpAllGc => Sweeping(c, w, l.allgc, p)
    case SwpFinObj => AllWhite(c, w, l.allgc) && Sweeping(c, w, l.finobj, p)
    case SwpToBeFnz => AllWhite(c, w, l.allgc) && AllWhite(c, w, l.finobj) && Sweeping(c, w, l.tobefnz, p)
    case _ => AllWhite(c, w, l.allgc) && AllWhite(c, w, l.finobj) && AllWhite(c, w, l.tobefnz) && p == NoLink
  }

  /** keepinvariant(g), for the states in which the program runs. */
  predicate KeepInvariant(st: GcState)
  {
    st == Propagate || st == EnterAtomic
  }

  /** issweepphase(g) */
  predicate IsSweepPhase(st: GcState)
  {
    st == SwpAllGc || st == SwpFinObj || st == SwpToBeFnz || st == SwpEnd
  }

  /** A black object never points to a white one. */
  ghost predicate BlackOk(b: Heap, c: Colors)
  {
    forall o :: o in c && o in b && c[o] == Black ==> Refs(b, o) <= Marked(c)
  }

  /** The main invariant, kept while marking: nothing is dead, and gray objects wait in the gray lists. */
  ghost predicate Tricolor(s: State)
  {
    && WhitesOk(s.color, s.white)
    && Linked(s.body, s.color, s.Links(), {}, true)
    && BlackOk(s.body, s.color)
    && s.grays.weak == [] && s.grays.allweak == [] && s.grays.ephemeron == []
    && s.main in Marked(s.color) && s.sweepgc == NoLink
  }

  /** Each object is marked for finalization once more than it was handed to a finalizer, as long as it waits. */
  ghost predicate HistoryOk(l: Lists, h: History)
  {
    && h.marks == h.calls + multiset(l.finobj) + multiset(l.tobefnz)
    && h.bit == Elems(l.finobj) + Elems(l.tobefnz)
    && Latest(l.finobj, h.stamp, h.clock)
    && h.calls == multiset(Names(h.log)) && InTurn(h.log + Waiting(l.tobefnz, h), h.cycle)
  }

  ghost function Names(log: seq<Call>): seq<Ref>
  {
    seq(|log|, i requires 0 <= i < |log| => log[i].o)
  }

  /** The call that an object is to get. */
  ghost function CallOf(h: History, o: Ref): Call
  {
    Call(o, if o in h.stamp then h.stamp[o] else 0, if o in h.batch then h.batch[o] else 0)
  }

  ghost function Waiting(l: seq<Ref>, h: History): seq<Call>
  {
    seq(|l|, i requires 0 <= i < |l| => CallOf(h, l[i]))
  }

  /** Calls go cycle by cycle, and the other way around than the marks in each cycle. */
  ghost predicate InTurn(cs: seq<Call>, cycle: nat)
  {
    && (forall i :: 0 <= i < |cs| ==> cs[i].cycle <= cycle)
    && (forall i, j :: 0 <= i < j < |cs| ==>
          cs[i].cycle < cs[j].cycle || (cs[i].cycle == cs[j].cycle && cs[i].stamp > cs[j].stamp))
  }

  /** The list 'finobj' has the last object marked first. */
  ghost predicate Latest(l: seq<Ref>, stamp: map<Ref, nat>, clock: nat)
  {
    && (forall o :: o in l ==> o in stamp && stamp[o] < clock)
    && (forall i, j :: 0 <= i < j < |l| ==> stamp[l[i]] > stamp[l[j]])
  }

  /** The places of objects: in the lists, in 'twups', and among the roots. */
  ghost predicate Placed(s: State)
  {
    && OneList(s.body, s.lists)
    && CanFinalize(s.body, s.Kept(), s.lists.finobj) && CanFinalize(s.body, s.Kept(), s.lists.tobefnz)
    && FixedOk(s.body, s.color, s.lists.fixedgc)
    && TwupsSound(s.body, s.Kept(), s.twups)
    && RootsSound(s.body, s.Kept(), s.main, s.current, s.Roots())
  }

  ghost predicate PhaseOk(s: State)
  {
    && s.gcstate != Atomic
    && (if KeepInvariant(s.gcstate) then Tricolor(s) else SweepOk(s.gcstate, s.color, s.white, s.sweepgc, s.lists))
  }

  /** The invariant of the incremental collector, between any two steps of the program or of the collector. */
  ghost predicate Inv(s: State)
  {
    HeapSound(s.body, s.color.Keys, s.Kept()) && Placed(s) && PhaseOk(s) && HistoryOk(s.lists, s.history)
  }

  /** Between the steps of the collector the whole heap is in the marking invariant. */
  lemma KeptAll(s: State)
    requires WhitesOk(s.color, s.white)
    ensures s.Kept() == s.color.Keys
  {
  }

  lemma FoldMarkInv(g: Collector)
    requires g.gcstate != Atomic && HeapSound(g.body, g.color.Keys, g.color.Keys) && WhitesOk(g.color, g.white)
    requires Linked(g.body, g.color, StateOf(g).Links(), {}, true) && BlackOk(g.body, g.color)
    requires g.weak == [] && g.allweak == [] && g.ephemeron == []
    ensures MarkInv(g, {}, g.body.Keys, g.body.Keys)
  {
    hide HeapOk, ListsOk, AllOk, WhitesOk, Linked, HeapSound, BlackOk, Elems, Marked;
    HeapWhole(g.body, g.color);
    ListsBlack(g.body, g.color, g.gray, g.grayagain);
    AllOkBlack(g.body, g.color, g.gray, g.grayagain, CtxOf(g, {}, g.body.Keys));
  }

  lemma ToMarkInv(g: Collector)
    requires Inv(StateOf(g)) && KeepInvariant(g.gcstate)
    ensures MarkInv(g, {}, g.body.Keys, g.body.Keys)
  {
    hide Placed, HistoryOk, HeapSound, Linked, BlackOk, WhitesOk, MarkInv;
    KeptAll(StateOf(g));
    FoldMarkInv(g);
  }

  lemma HeapWhole(b: Heap, c: Colors)
    requires HeapSound(b, c.Keys, c.Keys)
    ensures HeapOk(b, c.Keys, Marked(c), b.Keys) && c.Keys == b.Keys
  {
    KeysClosed(b);
  }

  lemma ListsBlack(b: Heap, c: Colors, gray: seq<Ref>, again: seq<Ref>)
    requires Linked(b, c, multiset(gray) + multiset(again) + multiset([]) + multiset([]) + multiset([]), {}, true)
    ensures ListsOk(b, Marked(c), gray, [], [], [])
  {
    LinksOf(gray, again);
  }

  lemma AllOkBlack(b: Heap, c: Colors, gray: seq<Ref>, again: seq<Ref>, x: Ctx)
    requires Linked(b, c, multiset(gray) + multiset(again) + multiset([]) + multiset([]) + multiset([]), {}, true)
    requires BlackOk(b, c) && c.Keys == b.Keys
    requires x.pend == Elems(gray) + {} + Elems(again) && x.loose == b.Keys && x.tw == b.Keys
    ensures AllOk(b, Marked(c), x)
  {
    LinksOf(gray, again);
  }

  lemma LinksOf(gray: seq<Ref>, again: seq<Ref>)
    ensures forall o :: o in multiset(gray) + multiset(again) + multiset([]) + multiset([]) + multiset([]) <==>
              o in gray || o in again
  {
  }

  lemma HeapParts(b: Heap, c: Colors)
    requires HeapOk(b, c.Keys, Marked(c), b.Keys)
    ensures HeapSound(b, c.Keys, c.Keys)
  {
  }

  lemma BlackFromAllOk(b: Heap, c: Colors, gray: seq<Ref>, again: seq<Ref>, x: Ctx)
    requires Linked(b, c, multiset(gray) + multiset(again) + multiset([]) + multiset([]) + multiset([]), {}, true)
    requires AllOk(b, Marked(c), x) && x.weak == x.allweak == x.eph == Elems<Ref>([])
    requires x.pend == Elems(gray) + {} + Elems(again)
    ensures BlackOk(b, c)
  {
    hide Refs, CanBeGray, NoGrayList;
    LinksOf(gray, again);
    assert x.weak == {} && x.allweak == {} && x.eph == {};
    forall o | o in c && o in b && c[o] == Black ensures Refs(b, o) <= Marked(c) {
      assert o !in x.pend;
      assert OkAt(b, Marked(c), x, o);
    }
  }

  lemma FromMarkInv(g: Collector)
    requires MarkInv(g, {}, g.body.Keys, g.body.Keys) && KeepInvariant(g.gcstate)
    requires g.weak == [] && g.allweak == [] && g.ephemeron == []
    requires g.mainthread in Marked(g.color) && g.sweepgc == NoLink
    ensures HeapSound(g.body, g.color.Keys, StateOf(g).Kept()) && Tricolor(StateOf(g))
  {
    hide HeapOk, ListsOk, AllOk, WhitesOk, Linked, HeapSound, BlackOk, Elems, Marked;
    KeptAll(StateOf(g));
    HeapParts(g.body, g.color);
    BlackFromAllOk(g.body, g.color, g.gray, g.grayagain, CtxOf(g, {}, g.body.Keys));
  }

  // ---- Reachability -------------------------------------------------------------------------

  /** 's' is closed under all references. */
  ghost predicate ClosedAll(b: Heap, s: set<Ref>)
  {
    forall o :: o in s && o in b ==> Refs(b, o) <= s
  }

  /** The program can get to 'r' from 'roots', following any references, weak ones included. */
  ghost predicate CanReach(b: Heap, roots: set<Ref>, r: Ref)
  {
    forall s: set<Ref> :: ClosedAll(b, s) && roots <= s ==> r in s
  }

  /** What the program can get to, counting the objects that still wait for their finalizers. */
  ghost predicate Reachable(s: State, r: Ref)
  {
    CanReach(s.body, s.Roots() + Elems(s.lists.tobefnz), r)
  }

  /** Nothing that the program can get to is dead: whatever is reachable is kept. */
  lemma ReachableIsKept(s: State, r: Ref)
    requires Inv(s) && Reachable(s, r)
    ensures r in s.body && r in s.Kept()
  {
    assert ClosedAll(s.body, s.Kept());
    assert s.Roots() + Elems(s.lists.tobefnz) <= s.Kept();
  }

  /** Whatever the program can read from an object that is kept is an object of the heap, and kept. */
  ghost predicate Readable(s: State, v: Val)
  {
    v.Ptr? ==> v.r in s.body && v.r in s.Kept()
  }

  lemma ReadsKept(s: State, o: Ref)
    requires Inv(s) && o in s.Kept()
    ensures o in s.body
    ensures match s.body[o]
            case Str => true
            case Table(_, meta, arr, node) =>
              && Readable(s, meta) && (forall i :: 0 <= i < |arr| ==> Readable(s, arr[i]))
              && forall i :: 0 <= i < |node| && node[i].val != Empty ==>
                   Readable(s, node[i].key) && Readable(s, node[i].val)
            case Udata(meta, uvs) => Readable(s, meta) && forall i :: 0 <= i < |uvs| ==> Readable(s, uvs[i])
            case Block(refs) => forall i :: 0 <= i < |refs| ==> Readable(s, refs[i])
            case Thread(stack, _) => forall i :: 0 <= i < |stack| ==> Readable(s, stack[i])
            case OpenUpVal(th, slot) =>
              th in s.body && s.body[th].Thread? && slot < |s.body[th].stack| && Readable(s, s.body[th].stack[slot])
            case ClosedUpVal(v) => Readable(s, v)
  {
    assert HeapSound(s.body, s.color.Keys, s.Kept());
    hide Inv;
    assert UpvalOk(s.body, o) && Refs(s.body, o) <= s.Kept() && s.Kept() <= s.body.Keys;
    hide HeapSound;
    match s.body[o]
    case Table(_, meta, arr, node) =>
      ReadsAll(s, arr);
      forall i | 0 <= i < |node| && node[i].val != Empty ensures Readable(s, node[i].key) && Readable(s, node[i].val) {
        assert node[i] in node;
        if node[i].key.Ptr? { assert node[i].key.r in KeyRefs(node); }
        if node[i].val.Ptr? { assert node[i].val.r in ValRefs(node); }
      }
    case Udata(_, uvs) => ReadsAll(s, uvs);
    case Block(refs) => ReadsAll(s, refs);
    case Thread(stack, _) => ReadsAll(s, stack);
    case _ =>
  }

  lemma ReadsAll(s: State, vs: seq<Val>)
    requires s.Kept() <= s.body.Keys
    ensures PtrsOf(vs) <= s.Kept() ==> forall i :: 0 <= i < |vs| ==> Readable(s, vs[i])
  {
    forall i | 0 <= i < |vs| && vs[i].Ptr? ensures vs[i].r in PtrsOf(vs) {
    }
  }
}
