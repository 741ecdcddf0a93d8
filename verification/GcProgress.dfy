/**
 Whole collections (lgc.c, "singlestep", "luaC_runtilstate", "fullinc"): steps of the collector, one after the
 other, come back to the pause, and a collection from pause to pause leaves exactly what is alive and what it
 brought back to life, and hands over everything that it separated.
 */
module GcProgress {
  import opened GcHeap
  import opened GcMark
  import opened GcLive
  import opened GcExact
  import opened GcFinish
  import opened GcPhase
  import opened GcSweep
  import opened GcCycle

  // ---- Every step makes progress -----------------------------------------------------------------------

  /** How many states are left up to the end of the collection; a pause is before the first one. */
  function Rank(st: GcState): nat
  {
    match st
    case Pause => 8
    case Propagate => 7
    case EnterAtomic => 6
    case SwpAllGc => 5
    case SwpFinObj => 4
    case SwpToBeFnz => 3
    case SwpEnd => 2
    case CallFin => 1
    case Atomic => 0
  }

  /** The state that follows when the work of a state is done. */
  function After(st: GcState): GcState
  {
    match st
    case Pause => Propagate
    case Propagate => EnterAtomic
    case EnterAtomic => SwpAllGc
    case SwpAllGc => SwpFinObj
    case SwpFinObj => SwpToBeFnz
    case SwpToBeFnz => SwpEnd
    case SwpEnd => CallFin
    case CallFin => Pause
    case Atomic => Atomic
  }

  ghost function Unmarked(s: State): set<Ref>
  {
    s.color.Keys - Marked(s.color)
  }

  function Abs(n: int): nat
  {
    if n < 0 then 0 else n
  }

  /** The work left in a state: objects to mark, elements to sweep, or finalizers to call. */
  ghost function Work(s: State): nat
  {
    match s.gcstate
    case Propagate => |Unmarked(s)|
    case SwpAllGc | SwpFinObj | SwpToBeFnz => Abs(SweepLeft(s.gcstate, s.lists, s.sweepgc))
    case CallFin => |s.lists.tobefnz|
    case _ => 0
  }

  /** While marking, also the objects to traverse. */
  ghost function ToVisit(s: State): nat
  {
    if s.gcstate == Propagate then |s.grays.gray| else 0
  }

  /** In the same state there is less work. */
  ghost predicate LessWork(t: State, s: State)
  {
    t.gcstate == s.gcstate && (Work(t) < Work(s) || (Work(t) == Work(s) && ToVisit(t) < ToVisit(s)))
  }

  lemma LessToMark(s: State, t: State)
    requires s.gcstate == Propagate && Traversed(s, t)
    ensures LessWork(t, s)
  {
    assert Unmarked(t) <= Unmarked(s);
    if Marked(t.color) != Marked(s.color) {
      var o :| o in Marked(t.color) && o !in Marked(s.color);
      assert o in Unmarked(s) && o !in Unmarked(t);
      SmallerSet(Unmarked(t), Unmarked(s), o);
    }
  }

  lemma SmallerSet(a: set<Ref>, b: set<Ref>, o: Ref)
    requires a <= b && o in b && o !in a
    ensures |a| < |b|
  {
    assert a + {o} <= b;
    assert b == (a + {o}) + (b - (a + {o}));
  }

  lemma LessToSweep(s: State, t: State, fast: bool)
    requires Inv(s) && InSweep(s.gcstate) && s.sweepgc != NoLink && SweptOn(s, t, fast)
    ensures LessWork(t, s)
  {
    PositionBound(s);
    hide Inv, Position;
  }

  /** Each step goes to the next state, or stays in the same one with less work left. */
  lemma EachStepAdvances(s: State, t: State, fast: bool, canCall: bool)
    requires Inv(s) && Advances(s, t, fast, canCall)
    ensures s.gcstate != Atomic && (t.gcstate == After(s.gcstate) || LessWork(t, s))
  {
    hide Inv, LessWork, AtomicDone, Restarted, Traversed, SweepLeft;
    match s.gcstate
    case Pause =>
      RestartedState(s, t);
    case Propagate =>
      if !fast && s.grays.gray != [] { LessToMark(s, t); }
    case EnterAtomic =>
      AtomicDoneState(s, t);
    case SwpAllGc | SwpFinObj | SwpToBeFnz =>
      if s.sweepgc != NoLink { LessToSweep(s, t, fast); }
    case SwpEnd =>
    case CallFin =>
      if s.lists.tobefnz != [] && canCall { LessToCall(s, t); }
    case Atomic =>
  }

  lemma RestartedState(s: State, t: State)
    requires Restarted(s, t)
    ensures t.gcstate == Propagate
  {
  }

  lemma AtomicDoneState(s: State, t: State)
    requires AtomicDone(s, t)
    ensures t.gcstate == SwpAllGc
  {
  }

  lemma LessToCall(s: State, t: State)
    requires s.gcstate == CallFin == t.gcstate && s.lists.tobefnz != [] && t.lists.tobefnz == s.lists.tobefnz[1..]
    ensures LessWork(t, s)
  {
  }

  /** The states of the collector when only the collector runs; each step may be in a hurry, or be able to call. */
  ghost predicate Running(trace: nat -> State, fast: nat -> bool, canCall: nat -> bool)
  {
    forall i: nat :: Inv(trace(i)) && Advances(trace(i), trace(i + 1), fast(i), canCall(i))
  }

  /** From any state, enough steps come to a pause. */
  lemma {:induction false} ComesBack(trace: nat -> State, fast: nat -> bool, canCall: nat -> bool, i: nat)
    returns (n: nat)
    requires Running(trace, fast, canCall)
    ensures n > i && trace(n).gcstate == Pause && forall k: nat :: i < k < n ==> trace(k).gcstate != Pause
    decreases Rank(trace(i).gcstate), Work(trace(i)), ToVisit(trace(i))
  {
    hide Inv, Advances, Work, ToVisit;
    EachStepAdvances(trace(i), trace(i + 1), fast(i), canCall(i));
    if trace(i + 1).gcstate == Pause {
      n := i + 1;
    } else {
      n := ComesBack(trace, fast, canCall, i + 1);
    }
  }

  // ---- What a collection leaves ------------------------------------------------------------------------

  /** What is alive when a collection starts in the pause 'p': also fixed objects, and those waiting to be finalized. */
  ghost function Alive(p: State): set<Ref>
  {
    Live(p.body, Lasting(p) + Elems(p.lists.tobefnz))
  }

  ghost function Lasting(p: State): set<Ref>
  {
    p.Roots() + Elems(p.lists.fixedgc)
  }

  /** What waits for finalizers after the collection has looked at it all. */
  ghost function Queued(p: State): seq<Ref>
  {
    p.lists.tobefnz + Dead(p.lists.finobj, Alive(p))
  }

  /** What a collection keeps: also what the objects to be finalized bring back to life. */
  ghost function ToKeep(p: State): set<Ref>
  {
    Live(p.body, Lasting(p) + Elems(Queued(p)))
  }

  /** The same objects, up to strings, of which there are no more. */
  ghost predicate Exactly(p: State, kept: set<Ref>)
  {
    kept <= ToKeep(p) && SameNonStrings(p.body, kept, ToKeep(p))
  }

  /** After a collection exactly those objects are left, and everything separated was handed over or waits. */
  ghost predicate Complete(p: State, q: State)
  {
    Exactly(p, q.body.Keys) && Names(q.history.log) + q.lists.tobefnz == Names(p.history.log) + Queued(p)
  }

  /** A state of the collection that started in the pause 'p'. */
  ghost predicate InCycle(p: State, s: State)
  {
    match s.gcstate
    case Propagate | EnterAtomic =>
      && s.body == p.body && s.lists == p.lists && s.Roots() == p.Roots() && s.history == p.history
      && StartRoots(p) <= Marked(s.color) <= Alive(p)
    case SwpAllGc | SwpFinObj | SwpToBeFnz | SwpEnd =>
      s.lists.tobefnz == Queued(p) && s.history.log == p.history.log && Exactly(p, s.Kept())
    case CallFin | Pause => Complete(p, s)
    case Atomic => false
  }

  lemma FixedMarked(s: State)
    requires Inv(s)
    ensures Elems(s.lists.fixedgc) <= Marked(s.color)
  {
  }

  /** In a pause nothing else is marked. */
  lemma OnlyFixedMarked(p: State)
    requires Inv(p) && p.gcstate == Pause
    ensures Marked(p.color) <= Elems(p.lists.fixedgc)
  {
    forall o | o in Marked(p.color) ensures o in p.lists.fixedgc {
      InSomeList(p, o);
    }
  }

  lemma PauseHeap(p: State)
    requires Inv(p) && p.gcstate == Pause
    ensures NoDangling(p.body) && Lasting(p) + Elems(p.lists.tobefnz) + Elems(Queued(p)) <= p.body.Keys
  {
    PauseFacts(p);
    NoDanglingAll(p.body, p.color.Keys);
    InPlaces(p);
    DeadIs(p.lists.finobj, Alive(p));
    OnlyElems(p.lists.finobj, Elems(p.lists.finobj) - Alive(p));
    hide *;
    ElemsAppend(p.lists.tobefnz, Dead(p.lists.finobj, Alive(p)));
    QueuedIs(p);
  }

  lemma QueuedIs(p: State)
    ensures Queued(p) == p.lists.tobefnz + Dead(p.lists.finobj, Alive(p))
    ensures Lasting(p) == p.Roots() + Elems(p.lists.fixedgc)
  {
  }

  lemma InPlaces(p: State)
    requires Inv(p)
    ensures p.Roots() + Elems(p.lists.fixedgc) + Elems(p.lists.tobefnz) + Elems(p.lists.finobj) <= p.body.Keys
  {
    hide HeapSound, PhaseOk, HistoryOk;
    forall r | r in p.lists.finobj || r in p.lists.tobefnz || r in p.lists.fixedgc ensures r in p.body {
      ListedHere(p, r);
    }
    KeptHere(p);
  }

  lemma LiveGrows(b: Heap, init: set<Ref>, more: set<Ref>)
    requires NoDangling(b) && init <= more <= b.Keys
    ensures Live(b, init) <= Live(b, more)
  {
    LiveClosed(b, more);
    LiveWithin(b, init, Live(b, more));
  }

  /** What is between a set and what it keeps alive keeps the same alive. */
  lemma LiveBetween(b: Heap, init: set<Ref>, mid: set<Ref>, more: set<Ref>)
    requires NoDangling(b) && init + more <= b.Keys && init <= mid <= Live(b, init)
    ensures mid + more <= b.Keys && Live(b, mid + more) == Live(b, init + more)
  {
    hide *;
    LiveClosed(b, init);
    LiveGrows(b, init, init + more);
    LiveClosed(b, init + more);
    LiveWithin(b, mid + more, Live(b, init + more));
    LiveGrows(b, init + more, mid + more);
  }

  lemma CycleStarts(p: State, t: State)
    requires Inv(p) && p.gcstate == Pause && Restarted(p, t)
    ensures InCycle(p, t)
  {
    PauseHeap(p);
    OnlyFixedMarked(p);
    assert t.Roots() == p.Roots();
    assert StartRoots(p) + Marked(p.color) <= Lasting(p) + Elems(p.lists.tobefnz);
    hide Live, Inv, NoDangling, Marked, Elems, Queued;
    LiveGrows(p.body, StartRoots(p) + Marked(p.color), Lasting(p) + Elems(p.lists.tobefnz));
  }

  lemma CycleMarks(p: State, s: State, t: State)
    requires Inv(p) && p.gcstate == Pause && InCycle(p, s) && s.gcstate == Propagate
    requires Traversed(s, t) || t == s.(gcstate := EnterAtomic)
    ensures InCycle(p, t)
  {
    PauseHeap(p);
    assert t.Roots() == s.Roots();
    hide Live, Inv, NoDangling, Marked, Elems, Queued;
    LiveClosed(p.body, Lasting(p) + Elems(p.lists.tobefnz));
    if Traversed(s, t) {
      LiveWithin(p.body, Marked(s.color), Alive(p));
    }
  }

  lemma InitBetween(roots: set<Ref>, fixed: set<Ref>, wait: set<Ref>, start: set<Ref>, marked: set<Ref>,
          alive: set<Ref>, t: set<Ref>)
    requires wait <= start <= marked <= alive && fixed <= marked && (roots + fixed) + wait <= alive && wait <= t
    ensures (roots + fixed) + wait <= roots + marked <= alive
    ensures ((roots + fixed) + wait) + t == (roots + fixed) + t
  {
  }

  lemma QueuedMore(p: State)
    ensures Elems(p.lists.tobefnz) <= Elems(Queued(p)) && Elems(p.lists.tobefnz) <= StartRoots(p)
  {
    ElemsAppend(p.lists.tobefnz, Dead(p.lists.finobj, Alive(p)));
  }

  lemma CycleMarked(p: State, s: State)
    requires InCycle(p, s) && s.gcstate == EnterAtomic
    ensures s.Roots() == p.Roots() && s.lists.fixedgc == p.lists.fixedgc && s.body == p.body
    ensures StartRoots(p) <= Marked(s.color) <= Alive(p)
  {
  }

  lemma AliveIs(p: State)
    ensures Alive(p) == Live(p.body, (p.Roots() + Elems(p.lists.fixedgc)) + Elems(p.lists.tobefnz))
    ensures ToKeep(p) == Live(p.body, (p.Roots() + Elems(p.lists.fixedgc)) + Elems(Queued(p)))
  {
  }

  /** The roots and the marks at the atomic step keep alive what was alive at the start. */
  lemma CycleInit(p: State, s: State)
    requires Inv(p) && p.gcstate == Pause && InCycle(p, s) && s.gcstate == EnterAtomic && Inv(s)
    ensures var init := s.Roots() + Marked(s.color); var t := Elems(Queued(p));
            && Live(s.body, init) == Alive(p) && Live(s.body, init + t) == ToKeep(p)
  {
    hide *;
    var roots, fixed, wait := p.Roots(), Elems(p.lists.fixedgc), Elems(p.lists.tobefnz);
    var init, first, t := roots + Marked(s.color), (roots + fixed) + wait, Elems(Queued(p));
    PauseHeap(p);
    FixedMarked(s);
    CycleMarked(p, s);
    QueuedMore(p);
    QueuedIs(p);
    AliveIs(p);
    LiveClosed(p.body, first);
    InitBetween(roots, fixed, wait, StartRoots(p), Marked(s.color), Alive(p), t);
    LiveBetween(p.body, first, init, {});
    assert init + {} == init && first + {} == first;
    LiveBetween(p.body, first, init, t);
  }

  lemma CycleAtomic(p: State, s: State, t: State)
    requires Inv(p) && p.gcstate == Pause && InCycle(p, s) && s.gcstate == EnterAtomic && Inv(s) && AtomicDone(s, t)
    ensures InCycle(p, t)
  {
    hide *;
    CycleInit(p, s);
    BeforeAtomic(p, s);
    QueuedIs(p);
    AtomicDoneFields(s, t, s.Roots() + Marked(s.color));
    RevivedExactly(p, s.Roots() + Marked(s.color), t.Kept());
    FoldSwept(p, t);
  }

  lemma BeforeAtomic(p: State, s: State)
    requires InCycle(p, s) && s.gcstate == EnterAtomic
    ensures s.body == p.body && s.lists == p.lists && s.history == p.history
  {
  }

  lemma AtomicDoneFields(s: State, t: State, init: set<Ref>)
    requires AtomicDone(s, t) && init == s.Roots() + Marked(s.color)
    ensures t.gcstate == SwpAllGc && t.history.log == s.history.log
    ensures t.lists.tobefnz == s.lists.tobefnz + Dead(s.lists.finobj, Live(s.body, init))
    ensures Revived(s.body, init, Elems(t.lists.tobefnz), t.Kept())
  {
    hide Live, Dead, Revived, Elems, Marked, Only;
  }

  lemma RevivedExactly(p: State, init: set<Ref>, kept: set<Ref>)
    requires Revived(p.body, init, Elems(Queued(p)), kept) && Live(p.body, init + Elems(Queued(p))) == ToKeep(p)
    ensures Exactly(p, kept)
  {
    hide Live, Queued, Elems, ToKeep;
  }

  lemma FoldSwept(p: State, t: State)
    requires t.gcstate == SwpAllGc && t.lists.tobefnz == Queued(p) && t.history.log == p.history.log
    requires Exactly(p, t.Kept())
    ensures InCycle(p, t)
  {
    hide Exactly, Queued;
  }

  lemma CycleSweeps(p: State, s: State, t: State, fast: bool)
    requires InCycle(p, s) && InSweep(s.gcstate) && SweptOn(s, t, fast)
    ensures InCycle(p, t)
  {
    hide Exactly, Queued, Position;
  }

  lemma CycleSwept(p: State, s: State, t: State)
    requires InCycle(p, s) && s.gcstate == SwpEnd && Inv(s) && t == s.(gcstate := CallFin)
    ensures InCycle(p, t)
  {
    hide *;
    NoDeadLeft(s);
    SweptFacts(p, s);
    FoldComplete(p, t);
  }

  lemma SweptFacts(p: State, s: State)
    requires InCycle(p, s) && s.gcstate == SwpEnd
    ensures s.lists.tobefnz == Queued(p) && s.history.log == p.history.log && Exactly(p, s.Kept())
  {
    hide Exactly, Queued;
  }

  lemma FoldComplete(p: State, t: State)
    requires t.lists.tobefnz == Queued(p) && t.history.log == p.history.log && Exactly(p, t.body.Keys)
    requires t.gcstate == CallFin
    ensures InCycle(p, t)
  {
    hide Exactly, Queued, Names;
  }

  lemma CycleCalls(p: State, s: State, t: State, o: Ref)
    requires InCycle(p, s) && s.gcstate == CallFin == t.gcstate && t.body.Keys == s.body.Keys
    requires s.lists.tobefnz == [o] + t.lists.tobefnz
    requires t.history.log == s.history.log + [CallOf(s.history, o)]
    ensures InCycle(p, t)
  {
    hide Exactly, Queued, Names;
    NamesMore(s.history.log, CallOf(s.history, o));
    assert Names(t.history.log) + t.lists.tobefnz == Names(s.history.log) + s.lists.tobefnz;
  }

  lemma CyclePauses(p: State, s: State, t: State)
    requires InCycle(p, s) && s.gcstate == CallFin && t == s.(gcstate := Pause)
    ensures InCycle(p, t)
  {
    hide Exactly, Queued, Names;
  }

  lemma CycleEnds(p: State, s: State, t: State, canCall: bool)
    requires InCycle(p, s) && (s.gcstate == SwpEnd || s.gcstate == CallFin) && Inv(s) && FinishedOn(s, t, canCall)
    ensures InCycle(p, t)
    ensures t.gcstate == Pause && canCall ==> t.lists.tobefnz == []
  {
    hide InCycle, Inv;
    if s.gcstate == SwpEnd {
      CycleSwept(p, s, t);
    } else if s.lists.tobefnz != [] && canCall {
      CycleCalls(p, s, t, s.lists.tobefnz[0]);
    } else {
      CyclePauses(p, s, t);
    }
  }

  lemma NamesMore(log: seq<Call>, c: Call)
    ensures Names(log + [c]) == Names(log) + [c.o]
  {
  }

  /** A step of the collection, in all states but the pause. */
  lemma CycleStep(p: State, s: State, t: State, fast: bool, canCall: bool)
    requires Inv(p) && p.gcstate == Pause && InCycle(p, s) && s.gcstate != Pause && Inv(s)
    requires Advances(s, t, fast, canCall)
    ensures InCycle(p, t) && (t.gcstate == Pause && canCall ==> t.lists.tobefnz == [])
  {
    hide Inv, InCycle, AtomicDone, Traversed, SweptOn, FinishedOn;
    match s.gcstate
    case Propagate =>
      CycleMarks(p, s, t);
      if Traversed(s, t) { TraversedState(s, t); }
    case EnterAtomic =>
      AtomicDoneState(s, t);
      CycleAtomic(p, s, t);
    case SwpAllGc | SwpFinObj | SwpToBeFnz =>
      SweptState(s, t, fast);
      CycleSweeps(p, s, t, fast);
    case SwpEnd | CallFin =>
      CycleEnds(p, s, t, canCall);
    case Atomic =>
  }

  lemma TraversedState(s: State, t: State)
    requires Traversed(s, t)
    ensures t.gcstate == s.gcstate
  {
  }

  lemma SweptState(s: State, t: State, fast: bool)
    requires InSweep(s.gcstate) && SweptOn(s, t, fast)
    ensures t.gcstate != Pause
  {
  }

  /**
   From pause to pause: what is left is, up to strings, exactly what was alive at the start or was brought back to life
   for its finalizer, and what was separated was handed over in order; nothing waits if the last step could call.
   */
  lemma {:induction false} CycleIsComplete(trace: nat -> State, fast: nat -> bool, canCall: nat -> bool, i: nat, n: nat)
    requires Running(trace, fast, canCall) && i < n && trace(i).gcstate == Pause == trace(n).gcstate
    requires forall k: nat :: i < k < n ==> trace(k).gcstate != Pause
    ensures Complete(trace(i), trace(n)) && (canCall(n - 1) ==> trace(n).lists.tobefnz == [])
  {
    hide Inv, Advances, InCycle;
    InCycleUpTo(trace, fast, canCall, i, n);
    EndIsComplete(trace(i), trace(n));
  }

  lemma EndIsComplete(p: State, q: State)
    requires InCycle(p, q) && q.gcstate == Pause
    ensures Complete(p, q)
  {
  }

  lemma {:induction false} InCycleUpTo(trace: nat -> State, fast: nat -> bool, canCall: nat -> bool, i: nat, k: nat)
    requires Running(trace, fast, canCall) && i < k && trace(i).gcstate == Pause
    requires forall j: nat :: i < j < k ==> trace(j).gcstate != Pause
    ensures InCycle(trace(i), trace(k))
    ensures trace(k).gcstate == Pause && canCall(k - 1) ==> trace(k).lists.tobefnz == []
    decreases k
  {
    hide Inv, InCycle, Restarted;
    if k == i + 1 {
      CycleStarts(trace(i), trace(k));
      RestartedState(trace(i), trace(k));
    } else {
      InCycleUpTo(trace, fast, canCall, i, k - 1);
      CycleStep(trace(i), trace(k - 1), trace(k - 1 + 1), fast(k - 1), canCall(k - 1));
    }
  }

  // ---- Running the collector ---------------------------------------------------------------------------

  /** How many states there are from one to another, in the order of a collection. */
  function Distance(st: GcState, target: GcState): nat
  {
    (8 + Rank(st) - Rank(target)) % 8
  }

  lemma DistanceLess(st: GcState, target: GcState)
    requires st != target && st != Atomic && target != Atomic
    ensures Distance(After(st), target) < Distance(st, target)
    ensures st != Pause ==> After(st) == Pause || Rank(After(st)) == Rank(st) - 1
  {
  }

  /** The collector creates no objects and changes no roots. */
  ghost predicate NoMore(s: State, t: State)
  {
    t.body.Keys <= s.body.Keys && t.Roots() == s.Roots()
  }

  lemma NoMoreStep(s: State, t: State, fast: bool, canCall: bool)
    requires Stepped(s, t) && Advances(s, t, fast, canCall)
    ensures NoMore(s, t)
  {
    hide NothingLost, BodiesKept, Inv;
    assert t.Roots() == s.Roots();
    hide Stepped, SweepLeft, Position, Live, Revived, Exactly;
  }

  /** The collection from the pause 'p' starts or is under way, and does not end before the target. */
  ghost predicate OnTheWay(p: State, s: State, target: GcState)
  {
    && Inv(p) && p.gcstate == Pause
    && (s == p || (InCycle(p, s) && (s.gcstate == target || Before(s.gcstate, target))))
  }

  predicate Before(st: GcState, target: GcState)
  {
    st != Pause && (target == Pause || Rank(target) <= Rank(st))
  }

  lemma WayGoesOn(p: State, s: State, t: State, target: GcState, fast: bool, canCall: bool)
    requires OnTheWay(p, s, target) && s.gcstate != target && Inv(s) && Advances(s, t, fast, canCall)
    requires target != Atomic
    ensures OnTheWay(p, t, target) && InCycle(p, t)
    ensures t.gcstate == Pause && canCall ==> t.lists.tobefnz == []
  {
    hide Inv, InCycle, Work, ToVisit, Restarted, AtomicDone, Traversed, SweptOn, FinishedOn;
    if s == p {
      CycleStarts(p, t);
      RestartedState(p, t);
    } else {
      CycleStep(p, s, t, fast, canCall);
      EachStepAdvances(s, t, fast, canCall);
      DistanceLess(s.gcstate, target);
    }
  }

  /** One step on the way to the target, with less to do after it. */
  method StepTowards(g: Collector, target: GcState, fast: bool, canCall: bool)
    requires Inv(StateOf(g)) && target != Atomic && g.gcstate != target
    modifies g
    ensures Inv(StateOf(g)) && Advances(old(StateOf(g)), StateOf(g), fast, canCall)
    ensures NoMore(old(StateOf(g)), StateOf(g))
    ensures Distance(g.gcstate, target) < old(Distance(g.gcstate, target)) || LessWork(StateOf(g), old(StateOf(g)))
  {
    hide *;
    ghost var s := StateOf(g);
    StateAtomic(g);
    SingleStep(g, fast, canCall);
    StateAtomic(g);
    NoMoreStep(s, StateOf(g), fast, canCall);
    EachStepAdvances(s, StateOf(g), fast, canCall);
    if s.gcstate != Atomic { DistanceLess(s.gcstate, target); }
  }

  lemma NoMoreTrans(s: State, t: State, u: State)
    requires NoMore(s, t) && NoMore(t, u)
    ensures NoMore(s, u)
  {
  }

  /**
   luaC_runtilstate: every step gets nearer to the target, so it is reached.  If the collection that started in 'p' is
   under way, it gets on, and when it ends nothing is left to be finalized, if finalizers can be called.
   */
  method RunTilState(g: Collector, target: GcState, fast: bool, canCall: bool, ghost p: State)
    requires Inv(StateOf(g)) && target != Atomic
    modifies g
    ensures Inv(StateOf(g)) && g.gcstate == target && NoMore(old(StateOf(g)), StateOf(g))
    ensures old(g.gcstate) == target ==> StateOf(g) == old(StateOf(g))
    ensures old(g.gcstate) != target && OnTheWay(p, old(StateOf(g)), target) ==>
              InCycle(p, StateOf(g)) && (target == Pause && canCall ==> g.tobefnz == [])
  {
    hide *;
    ghost var s0, moved := StateOf(g), false;
    ghost var way := OnTheWay(p, s0, target);
    NoMoreRefl(s0);
    StateAtomic(g);
    while g.gcstate != target
      invariant Inv(StateOf(g)) && NoMore(s0, StateOf(g)) && (!moved ==> StateOf(g) == s0)
      invariant if moved then old(g.gcstate) != target else g.gcstate == old(g.gcstate)
      invariant way ==> OnTheWay(p, StateOf(g), target)
      invariant way && moved ==> InCycle(p, StateOf(g)) && (g.gcstate == Pause && canCall ==> g.tobefnz == [])
      decreases Distance(g.gcstate, target), Work(StateOf(g)), ToVisit(StateOf(g))
    {
      ghost var s := StateOf(g);
      StateAtomic(g);
      StepTowards(g, target, fast, canCall);
      StateAtomic(g);
      NoMoreTrans(s0, s, StateOf(g));
      if way { WayGoesOn(p, s, StateOf(g), target, fast, canCall); }
      if LessWork(StateOf(g), s) { LessIs(StateOf(g), s); }
      moved := true;
    }
  }

  lemma LessIs(t: State, s: State)
    requires LessWork(t, s)
    ensures t.gcstate == s.gcstate && (Work(t) < Work(s) || (Work(t) == Work(s) && ToVisit(t) < ToVisit(s)))
  {
  }

  lemma NoMoreRefl(s: State)
    ensures NoMore(s, s)
  {
  }

  /** The start of fullinc: the marks of a collection under way are swept away, and the sweep ends. */
  method ToPause(g: Collector, canCall: bool)
    requires Inv(StateOf(g))
    modifies g
    ensures Inv(StateOf(g)) && g.gcstate == Pause && NoMore(old(StateOf(g)), StateOf(g))
    ensures old(g.gcstate) == Pause ==> StateOf(g) == old(StateOf(g))
  {
    hide *;
    ghost var s := StateOf(g);
    StateAtomic(g);
    NoMoreRefl(s);
    if g.gcstate == Propagate || g.gcstate == EnterAtomic {
      Keeping(g.gcstate);
      AbandonMarking(g);
      SameHeap(s, g);
    }
    ghost var s1 := StateOf(g);
    RunTilState(g, Pause, true, canCall, s1);
    NoMoreTrans(s, s1, StateOf(g));
  }

  lemma Keeping(st: GcState)
    requires st == Propagate || st == EnterAtomic
    ensures KeepInvariant(st)
  {
  }

  lemma SameHeap(s: State, g: Collector)
    requires g.body == s.body && g.mainthread == s.main && g.current == s.current && g.registry == s.registry
    requires g.mt == s.mt
    ensures NoMore(s, StateOf(g))
  {
    assert StateOf(g).Roots() == s.Roots();
  }

  /**
   fullinc: after it exactly what was alive in the pause 'p' is left, with what was brought back to life to be
   finalized, and, when finalizers can be called, all objects that were not alive and had one were handed over.
   */
  method FullInc(g: Collector, canCall: bool) returns (ghost p: State)
    requires Inv(StateOf(g))
    modifies g
    ensures Inv(StateOf(g)) && g.gcstate == Pause && Inv(p) && p.gcstate == Pause
    ensures NoMore(old(StateOf(g)), p) && (old(g.gcstate) == Pause ==> p == old(StateOf(g)))
    ensures Complete(p, StateOf(g)) && (canCall ==> g.tobefnz == [])
  {
    hide *;
    ToPause(g, canCall);
    p := StateOf(g);
    StateAtomic(g);
    PauseOnTheWay(p, CallFin);
    RunTilState(g, CallFin, true, canCall, p);
    StateAtomic(g);
    CallsOnTheWay(p, StateOf(g));
    RunTilState(g, Pause, true, canCall, p);
    StateAtomic(g);
    EndIsComplete(p, StateOf(g));
  }

  lemma PauseOnTheWay(p: State, target: GcState)
    requires Inv(p) && p.gcstate == Pause
    ensures OnTheWay(p, p, target)
  {
    hide Inv;
  }

  lemma CallsOnTheWay(p: State, s: State)
    requires Inv(p) && p.gcstate == Pause && InCycle(p, s) && s.gcstate == CallFin
    ensures OnTheWay(p, s, Pause)
  {
    hide Inv, InCycle;
  }
}
