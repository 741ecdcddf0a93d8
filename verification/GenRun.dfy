/** Whole runs in generational mode: the program's operations and minor collections in any order. */
module GenRun {
  import opened GenHeap
  import opened GenMutator
  import opened GenCycle
  import opened GenMinor

  datatype Op =
    | Create(o: Ref, x: Obj)
    | Write(o: Ref, drop: set<Ref>, v: Ptr, forward: bool)
    | SetThread(o: Ref, refs: set<Ref>)
    | SetRoots(refs: set<Ref>)
    | Collect

  /** luaC_newobj, for an object that refers to existing ones */
  function Created(s: State, o: Ref, x: Obj): State
  {
    s.(body := s.body[o := x], color := s.color[o := White], age := s.age[o := New],
       lists := s.lists.(all := [o] + s.lists.all))
  }

  /** The stack of a thread has no barriers. */
  function ThreadSet(s: State, o: Ref, refs: set<Ref>): State
  {
    s.(body := s.body[o := Thread(refs)])
  }

  /** What the program can do: it has references to existing objects only. */
  predicate Can(s: State, op: Op)
  {
    match op
    case Create(o, x) => o !in s.body && RefsOf(x) <= s.body.Keys
    case Write(o, drop, v, forward) => Writable(s, o, v, forward)
    case SetThread(o, refs) => IsThread(s.body, o) && refs <= s.body.Keys
    case SetRoots(refs) => refs <= s.body.Keys
    case Collect => true
  }

  /** The operation leaves a young object marked. */
  predicate Exposing(s: State, op: Op)
  {
    op.Write? && Exposes(s, op.o, op.v, op.forward)
  }

  // ---- New objects, threads and roots ----------------------------------------------------------------

  lemma CreatedElems(b: Heap, l: seq<Ref>, o: Ref, x: Obj)
    requires Once(l) && Elems(l) == b.Keys && o !in b
    ensures o !in l && Once([o] + l) && Elems([o] + l) == b[o := x].Keys
  {
    assert o in l <==> o in Elems(l);
    assert Elems([o] + l) == {o} + Elems(l);
  }

  lemma CreatedParts(a: Ages, l: Lists, o: Ref)
    requires l.reallyold <= l.old1 <= l.survival <= |l.all| && PartsOk(a, l) && o !in l.all
    ensures PartsOk(a[o := New], l.(all := [o] + l.all))
  {
    var l' := [o] + l.all;
    var n, a' := |l.all|, a[o := New];
    LaterPart(o, l.all, n - l.survival);
    LaterPart(o, l.all, n - l.old1);
    LaterPart(o, l.all, n - l.reallyold);
    assert |l'| - l.survival == n - l.survival + 1 && |l'| - l.old1 == n - l.old1 + 1;
    assert forall r :: r != o ==> AgeOf(a', r) == AgeOf(a, r);
    hide AgeOf, IsOld;
  }

  lemma LaterPart(o: Ref, l: seq<Ref>, i: nat)
    requires i <= |l|
    ensures ([o] + l)[i + 1..] == l[i..] && forall r :: r in l[i..] ==> r in l
  {
  }

  lemma CreatedFirst(a: Ages, l: Lists, o: Ref)
    requires l.reallyold <= |l.all| && FirstOk(a, l) && o !in l.all
    ensures FirstOk(a[o := New], l.(all := [o] + l.all))
  {
    var l', a' := [o] + l.all, a[o := New];
    assert l'[1..] == l.all;
    forall r | r in l.all ensures AgeOf(a', r) == AgeOf(a, r) {
    }
    if l.firstold1.To? {
      var k := Place(l.all, l.firstold1.r);
      assert k < |l.all| && l.firstold1.r in l.all && Place(l', l.firstold1.r) == k + 1;
      forall i | 0 <= i < k + 1 ensures !AgeOf(a', l'[i]).Old1? {
        if i > 0 { assert l'[i] == l.all[i - 1]; }
      }
    }
  }

  lemma CreatedLists(s: State, o: Ref, x: Obj)
    requires Shape(s) && o !in s.body
    ensures var t := Created(s, o, x); ListOk(t.body, t.age, t.lists)
  {
    var l := s.lists;
    assert ListOk(s.body, s.age, l);
    hide Shape, PartsOk, FirstOk, Once, Elems;
    CreatedElems(s.body, l.all, o, x);
    CreatedParts(s.age, l, o);
    CreatedFirst(s.age, l, o);
  }

  lemma CreatedAt(s: State, o: Ref, x: Obj, r: Ref)
    requires Shape(s) && o !in s.body
    ensures var t := Created(s, o, x);
            && (r in t.body ==> r in t.color && ColorAt(t.body, t.color, t.age, t.gray, t.again, r))
            && (r in t.again ==> InAgain(t.body, t.color, t.age, r))
            && (r in t.gray ==> InGray(t.body, t.color, t.age, r) && r !in t.again)
  {
    hide Shape, Once, Marked, Refs, AgesAt;
    ShapeAt(s, r);
    ShapeAt(s, o);
  }

  lemma CreatedRefsAt(s: State, o: Ref, x: Obj, r: Ref)
    requires Shape(s) && o !in s.body && r in s.body
    ensures var t := Created(s, o, x);
            && Refs(t.body, r) == Refs(s.body, r) <= s.body.Keys
            && (AgesAt(s.body, s.age, r) ==> AgesAt(t.body, t.age, r))
            && forall y :: !OldToNew(s.body, s.age, r, y) ==> !OldToNew(t.body, t.age, r, y)
  {
    hide Shape;
    ShapeFields(s);
    ShapeAt(s, r);
    hide AgeFits;
  }

  lemma CreatedColors(s: State, o: Ref, x: Obj)
    requires Shape(s) && o !in s.body
    ensures var t := Created(s, o, x);
            GraysOk(t.body, t.color, t.age, t.gray, t.again) && ColorsOk(t.body, t.color, t.age, t.gray, t.again)
  {
    var t := Created(s, o, x);
    assert Once(t.gray) && Once(t.again) && t.body.Keys == t.color.Keys;
    hide *;
    forall r
      ensures r in t.body ==> r in t.color && ColorAt(t.body, t.color, t.age, t.gray, t.again, r)
      ensures r in t.again ==> InAgain(t.body, t.color, t.age, r)
      ensures r in t.gray ==> InGray(t.body, t.color, t.age, r) && r !in t.again
    {
      CreatedAt(s, o, x, r);
    }
    ColorsAre(t.body, t.color, t.age, t.gray, t.again);
  }

  lemma CreatedRefs(s: State, o: Ref, x: Obj)
    requires Shape(s) && o !in s.body && RefsOf(x) <= s.body.Keys
    ensures var t := Created(s, o, x);
            && RootsOk(t.body, t.color, t.age, t.main, t.roots) && Closed(t.body, t.body.Keys)
            && (AgesOk(s.body, s.age) ==> AgesOk(t.body, t.age))
            && (NoOldToNew(s.body, s.age) ==> NoOldToNew(t.body, t.age))
  {
    var t := Created(s, o, x);
    assert RootsOk(t.body, t.color, t.age, t.main, t.roots);
    assert Refs(t.body, o) == RefsOf(x) && AgesAt(t.body, t.age, o) && forall y :: !OldToNew(t.body, t.age, o, y);
    hide Shape, AgesAt, Refs, OldToNew, RootsOk;
    forall r | r in t.body
      ensures Refs(t.body, r) <= t.body.Keys
      ensures AgesOk(s.body, s.age) ==> AgesAt(t.body, t.age, r)
      ensures NoOldToNew(s.body, s.age) ==> forall y :: !OldToNew(t.body, t.age, r, y)
    {
      if r != o { CreatedRefsAt(s, o, x, r); }
    }
    NewFold(t.body, t.age);
  }

  lemma NewFold(b: Heap, a: Ages)
    ensures (forall o :: o in b ==> forall r :: !OldToNew(b, a, o, r)) ==> NoOldToNew(b, a)
  {
    if forall o :: o in b ==> forall r :: !OldToNew(b, a, o, r) {
      forall o, r ensures !OldToNew(b, a, o, r) {
      }
    }
  }

  lemma CreatedTricolor(s: State, o: Ref, x: Obj)
    requires Traced(s) && o !in s.body
    ensures var t := Created(s, o, x); Tricolor(t.body, t.color, t.age, t.gray, t.again)
  {
    var t := Created(s, o, x);
    assert Tricolor(s.body, s.color, s.age, s.gray, s.again) && s.color.Keys == s.body.Keys;
    hide Traced;
    assert Marked(t.color) == Marked(s.color);
  }

  lemma CreatedTraced(s: State, o: Ref, x: Obj)
    requires Traced(s) && o !in s.body && RefsOf(x) <= s.body.Keys
    ensures var t := Created(s, o, x);
            && Traced(t) && (AgesOk(s.body, s.age) ==> AgesOk(t.body, t.age))
            && (NoOldToNew(s.body, s.age) ==> NoOldToNew(t.body, t.age))
  {
    TracedShape(s);
    hide *;
    CreatedLists(s, o, x);
    CreatedColors(s, o, x);
    CreatedRefs(s, o, x);
    CreatedTricolor(s, o, x);
    MutFold(Created(s, o, x));
  }

  /** A thread that is marked is listed, or of age OLD1: the next collection traverses it anyway. */
  lemma ThreadSetTraced(s: State, o: Ref, refs: set<Ref>)
    requires Traced(s) && IsThread(s.body, o) && refs <= s.body.Keys
    ensures var t := ThreadSet(s, o, refs);
            && Traced(t) && (AgesOk(s.body, s.age) ==> AgesOk(t.body, t.age))
            && (NoOldToNew(s.body, s.age) ==> NoOldToNew(t.body, t.age))
  {
    var b := s.body[o := Thread(refs)];
    KindsKept(s.body, b, s.color, s.age, s.gray, s.again);
    ListSame(s.body, b, s.age, s.lists);
    ThreadRefs(s, o, refs);
    ThreadAges(s, o, refs);
    hide *;
    MutFold(s.(body := b));
  }

  lemma ThreadRefs(s: State, o: Ref, refs: set<Ref>)
    requires Traced(s) && IsThread(s.body, o) && refs <= s.body.Keys
    ensures var b := s.body[o := Thread(refs)];
            && RootsOk(b, s.color, s.age, s.main, s.roots) && Closed(b, b.Keys)
            && Tricolor(b, s.color, s.age, s.gray, s.again)
  {
    var b := s.body[o := Thread(refs)];
    assert ColorAt(s.body, s.color, s.age, s.gray, s.again, o);
    assert Closed(s.body, s.body.Keys) && Tricolor(s.body, s.color, s.age, s.gray, s.again);
    assert RootsOk(b, s.color, s.age, s.main, s.roots);
    hide Traced;
    forall r | r in b && r != o ensures Refs(b, r) == Refs(s.body, r) {
    }
  }

  lemma ThreadAges(s: State, o: Ref, refs: set<Ref>)
    requires IsThread(s.body, o)
    ensures var b := s.body[o := Thread(refs)];
            && (AgesOk(s.body, s.age) ==> AgesOk(b, s.age)) && (NoOldToNew(s.body, s.age) ==> NoOldToNew(b, s.age))
  {
    var b := s.body[o := Thread(refs)];
    forall r, y
      ensures r in b && r in s.body && AgesAt(s.body, s.age, r) ==> AgesAt(b, s.age, r)
      ensures OldToNew(b, s.age, r, y) ==> OldToNew(s.body, s.age, r, y)
    {
    }
  }

  /** The state after an operation that is not a collection. */
  function After(s: State, op: Op): State
    requires Can(s, op) && !op.Collect?
  {
    match op
    case Create(o, x) => Created(s, o, x)
    case Write(o, drop, v, forward) => Store(s, o, drop, v, forward)
    case SetThread(o, refs) => ThreadSet(s, o, refs)
    case SetRoots(refs) => s.(roots := refs)
  }

  /** No barrier sees what the operation stores. */
  predicate Missing(s: State, op: Op)
  {
    op.Write? && Misses(s, op.o, op.v)
  }

  /**
   Whatever the program does, the next collection is safe.  The invariant is kept if and only if no barrier
   misses the store, and none does while no young object is marked.
   */
  lemma AfterKeeps(s: State, op: Op)
    requires Traced(s) && Can(s, op) && !op.Collect?
    ensures Traced(After(s, op)) && (Inv(s) ==> (Inv(After(s, op)) <==> !Missing(s, op)))
    ensures YoungWhite(s.color, s.age) ==>
              var t := After(s, op);
              !Missing(s, op) && (YoungWhite(t.color, t.age) <==> !Exposing(s, op))
    ensures YoungWhite(s.color, s.age) && AgesOk(s.body, s.age) ==> AgesOk(After(s, op).body, After(s, op).age)
  {
    hide Traced, Shape, AgesOk, NoOldToNew, Store;
    TracedShape(s);
    match op
    case Create(o, x) =>
      CreatedTraced(s, o, x);
    case Write(o, drop, v, forward) =>
      StoreKeeps(s, o, drop, v, forward);
      if YoungWhite(s.color, s.age) {
        AllSafe(s, o, v);
        StoreExposes(s, o, drop, v, forward);
      }
    case SetThread(o, refs) =>
      ThreadSetTraced(s, o, refs);
    case SetRoots(refs) =>
      RootsSet(s, refs);
  }

  lemma RootsSet(s: State, refs: set<Ref>)
    requires Traced(s) && refs <= s.body.Keys
    ensures Traced(s.(roots := refs))
  {
  }

  method CreateObject(g: Collector, o: Ref, x: Obj)
    requires o !in g.body
    modifies g`body, g`color, g`age, g`all
    ensures StateOf(g) == Created(old(StateOf(g)), o, x)
  {
    g.body, g.color, g.age, g.all := g.body[o := x], g.color[o := White], g.age[o := New], [o] + g.all;
  }

  /** 't' is the state after operation 'op' in state 's'. */
  ghost predicate Next(s: State, op: Op, t: State)
  {
    && Can(s, op)
    && if op.Collect? then Collected(s, Kept(s), t) && Base(t) && YoungWhite(t.color, t.age) else t == After(s, op)
  }

  /** An operation of the program. */
  method Mutate(g: Collector, op: Op)
    requires Can(StateOf(g), op) && !op.Collect?
    modifies g
    ensures StateOf(g) == After(old(StateOf(g)), op)
  {
    hide Store, Created;
    match op
    case Create(o, x) => CreateObject(g, o, x);
    case Write(o, drop, v, forward) => StoreObject(g, o, drop, v, forward);
    case SetThread(o, refs) => g.body := g.body[o := Thread(refs)];
    case SetRoots(refs) => g.roots := refs;
  }

  lemma NextAfter(s: State, op: Op)
    requires Can(s, op) && !op.Collect?
    ensures Next(s, op, After(s, op))
  {
  }

  lemma NextCollect(s: State, t: State)
    requires Base(t) && YoungWhite(t.color, t.age) && Collected(s, Kept(s), t)
    ensures Next(s, Collect, t)
  {
  }

  /** One operation; it needs a heap without references to freed objects. */
  method Step(g: Collector, op: Op)
    requires Shape(StateOf(g)) && Can(StateOf(g), op)
    modifies g
    ensures Next(old(StateOf(g)), op, StateOf(g))
  {
    hide *;
    ghost var s := StateOf(g);
    if op.Collect? {
      YoungCollection(g);
      StateFields(g);
      NextCollect(s, StateOf(g));
    } else {
      Mutate(g, op);
      NextAfter(s, op);
    }
  }

  /** What one operation does to the invariant. */
  lemma NextKeeps(s: State, op: Op, t: State)
    requires Traced(s) && Next(s, op, t)
    ensures op.Collect? ==> Shape(t) && (Traced(t) <==> NoKeptToNew(s, Kept(s)))
    ensures !op.Collect? ==> Traced(t)
    ensures Inv(s) && !Missing(s, op) ==> Inv(t)
  {
    hide Traced, Collected, Base, NoKeptToNew, NoOldToNew, After;
    if op.Collect? {
      StaysTraced(s, t);
      if Inv(s) {
        InvStays(s, t);
      }
    } else {
      AfterKeeps(s, op);
    }
  }

  // ---- Runs --------------------------------------------------------------------------------------------

  /** The states of a run, with the operations between them. */
  ghost predicate IsRun(trace: seq<State>, ops: seq<Op>)
  {
    && |trace| == |ops| + 1
    && forall i :: 0 <= i < |ops| ==> Shape(trace[i]) && Next(trace[i], ops[i], trace[i + 1])
  }

  lemma RunGrows(trace: seq<State>, ops: seq<Op>, done: nat, t: State)
    requires done < |ops| && IsRun(trace, ops[..done]) && Shape(trace[done]) && Next(trace[done], ops[done], t)
    ensures IsRun(trace + [t], ops[..done + 1])
  {
    hide Next, Shape;
    assert ops[..done + 1] == ops[..done] + [ops[done]];
    var trace' := trace + [t];
    forall i | 0 <= i < done + 1 ensures Shape(trace'[i]) && Next(trace'[i], ops[..done + 1][i], trace'[i + 1]) {
      if i < done {
        assert Next(trace[i], ops[..done][i], trace[i + 1]);
      }
    }
  }

  /** The first 'done' operations of a run miss no store. */
  ghost predicate NoneMissed(trace: seq<State>, ops: seq<Op>, done: nat)
    requires done <= |trace| && done <= |ops|
  {
    forall i :: 0 <= i < done ==> !Missing(trace[i], ops[i])
  }

  /** A run of the first 'done' operations from 's' to 't', in which no store was missed. */
  ghost predicate CleanRun(trace: seq<State>, ops: seq<Op>, done: nat, s: State, t: State)
  {
    && done <= |ops| && IsRun(trace, ops[..done]) && trace[0] == s && trace[done] == t && Inv(t)
    && NoneMissed(trace, ops, done)
  }

  lemma CleanStart(ops: seq<Op>, s: State)
    requires Inv(s)
    ensures CleanRun([s], ops, 0, s, s)
  {
  }

  lemma NoneMissedGrows(trace: seq<State>, ops: seq<Op>, done: nat, t: State)
    requires done < |ops| && |trace| == done + 1 && NoneMissed(trace, ops, done) && !Missing(trace[done], ops[done])
    ensures NoneMissed(trace + [t], ops, done + 1)
  {
    hide Missing;
    assert forall i :: 0 <= i <= done ==> (trace + [t])[i] == trace[i];
  }

  lemma CleanGrows(trace: seq<State>, ops: seq<Op>, done: nat, s: State, t: State, t2: State)
    requires CleanRun(trace, ops, done, s, t) && done < |ops| && Next(t, ops[done], t2) && !Missing(t, ops[done])
    ensures CleanRun(trace + [t2], ops, done + 1, s, t2)
  {
    InvParts(t);
    assert |trace| == done + 1;
    hide Inv, Traced, Shape, Next, Missing, IsRun, NoneMissed;
    NextKeeps(t, ops[done], t2);
    RunGrows(trace, ops, done, t2);
    NoneMissedGrows(trace, ops, done, t2);
  }

  /**
   A run of the program: with all references to existing objects, it goes on until the end or until an
   operation that it cannot do, or a store that no barrier sees.
   */
  method Run(g: Collector, ops: seq<Op>) returns (done: nat, ghost trace: seq<State>)
    requires Inv(StateOf(g))
    modifies g
    ensures CleanRun(trace, ops, done, old(StateOf(g)), StateOf(g))
    ensures done < |ops| ==> !Can(StateOf(g), ops[done]) || Missing(StateOf(g), ops[done])
  {
    hide *;
    done := 0;
    trace := [StateOf(g)];
    CleanStart(ops, StateOf(g));
    while done < |ops|
      invariant done <= |ops| && Inv(StateOf(g)) && CleanRun(trace, ops, done, old(StateOf(g)), StateOf(g))
    {
      if !Can(StateOf(g), ops[done]) || Missing(StateOf(g), ops[done]) {
        return;
      }
      ghost var t := StateOf(g);
      InvParts(t);
      Step(g, ops[done]);
      NextKeeps(t, ops[done], StateOf(g));
      CleanGrows(trace, ops, done, old(StateOf(g)), t, StateOf(g));
      trace := trace + [StateOf(g)];
      done := done + 1;
    }
  }

  lemma InvParts(s: State)
    requires Inv(s)
    ensures Traced(s) && Shape(s)
  {
  }

  /** After 'k' operations: the invariant holds until a barrier misses a store, and the next collection is safe. */
  ghost predicate SafeUntil(trace: seq<State>, ops: seq<Op>, k: nat)
  {
    && IsRun(trace, ops) && k <= |ops| && Inv(trace[0])
    && forall i, j :: 0 <= i < j < k && Missing(trace[i], ops[i]) ==> !ops[j].Collect?
  }

  lemma {:induction false} RunKeeps(trace: seq<State>, ops: seq<Op>, k: nat)
    requires SafeUntil(trace, ops, k)
    ensures Traced(trace[k]) && ((forall i :: 0 <= i < k ==> !Missing(trace[i], ops[i])) ==> Inv(trace[k]))
  {
    if k == 0 {
      InvParts(trace[0]);
    } else {
      hide Inv, Traced, Next, Missing;
      RunKeeps(trace, ops, k - 1);
      var s, op := trace[k - 1], ops[k - 1];
      assert Next(s, op, trace[k - 1 + 1]);
      NextKeeps(s, op, trace[k]);
      NotMissing(s, op);
      if Inv(trace[k]) { InvParts(trace[k]); }
    }
  }

  /**
   Exactly: all collections of a run are safe if and only if none of them, but the last one, finds a kept object
   that is settled and refers to a new one.
   */
  lemma {:induction false} RunTraced(trace: seq<State>, ops: seq<Op>, k: nat)
    requires IsRun(trace, ops) && k <= |ops| && Traced(trace[0])
    ensures (forall i :: 0 <= i <= k ==> Traced(trace[i])) <==>
              forall i :: 0 <= i < k && ops[i].Collect? ==> NoKeptToNew(trace[i], Kept(trace[i]))
  {
    hide Traced, Shape, Next, NoKeptToNew, Kept;
    if k > 0 {
      RunTraced(trace, ops, k - 1);
      assert Next(trace[k - 1], ops[k - 1], trace[k - 1 + 1]);
      if Traced(trace[k - 1]) { NextTraced(trace[k - 1], ops[k - 1], trace[k]); }
    }
  }

  lemma NextTraced(s: State, op: Op, t: State)
    requires Traced(s) && Next(s, op, t)
    ensures Traced(t) <==> (op.Collect? ==> NoKeptToNew(s, Kept(s)))
  {
    hide *;
    NextKeeps(s, op, t);
  }

  lemma NotMissing(s: State, op: Op)
    ensures op.Collect? ==> !Missing(s, op)
  {
  }

  /**
   In a run, a collection before which no store was missed, or none but since the collection before it, neither
   frees nor changes an object that can be reached, and leaves no reference to a freed object.
   */
  lemma RunSafety(trace: seq<State>, ops: seq<Op>, k: nat)
    requires SafeUntil(trace, ops, k) && k < |ops| && ops[k].Collect?
    ensures var s, t := trace[k], trace[k + 1];
            && Shape(t)
            && forall o :: o in Reach(s.body, s.roots + {s.main}) ==>
                 o in s.body && o in t.body && t.body[o] == s.body[o]
  {
    RunKeeps(trace, ops, k);
    var s, t := trace[k], trace[k + 1];
    assert Next(s, ops[k], t);
    hide Inv, Traced, Collected, Kept, Base, NoKeptToNew;
    NextKeeps(s, ops[k], t);
    NothingLost(s, t);
  }

  /**
   In a run that never leaves a young object marked, no store is missed, whatever comes next, and the ages are
   those of lgc.h all along.
   */
  lemma {:induction false} CalmRun(trace: seq<State>, ops: seq<Op>, k: nat)
    requires IsRun(trace, ops) && k <= |ops| && Inv(trace[0]) && YoungWhite(trace[0].color, trace[0].age)
    requires forall i :: 0 <= i < k ==> !Exposing(trace[i], ops[i])
    ensures var t := trace[k];
            && Inv(t) && YoungWhite(t.color, t.age) && (forall op :: Can(t, op) ==> !Missing(t, op))
            && (AgesOk(trace[0].body, trace[0].age) ==> AgesOk(t.body, t.age))
  {
    var t := trace[k];
    if k > 0 {
      CalmRun(trace, ops, k - 1);
      var s, op := trace[k - 1], ops[k - 1];
      assert Next(s, op, trace[k - 1 + 1]);
      CalmNext(s, op, t);
    }
    hide Inv;
    forall op | Can(t, op) ensures !Missing(t, op) {
      if op.Write? { AllSafe(t, op.o, op.v); }
    }
  }

  lemma CalmNext(s: State, op: Op, t: State)
    requires Inv(s) && YoungWhite(s.color, s.age) && Next(s, op, t) && !Exposing(s, op) && !Missing(s, op)
    ensures Inv(t) && YoungWhite(t.color, t.age) && (AgesOk(s.body, s.age) ==> AgesOk(t.body, t.age))
  {
    InvParts(s);
    hide Inv, Traced, Shape, Collected, Base, NoKeptToNew, NoOldToNew, AgesOk, YoungWhite;
    NextKeeps(s, op, t);
    if op.Collect? {
      if AgesOk(s.body, s.age) {
        KeptIs(s);
        KeptReach(s);
        CollectedAges(s, Kept(s), t);
      }
    } else {
      AfterKeeps(s, op);
    }
  }
}
