/**
 Runs of a program with the incremental collector: any sequence of operations of the program and of
 steps of the collector, in any order.
 */
module GcRun {
  import opened GcHeap
  import opened GcMark
  import opened GcAtomic
  import opened GcPhase
  import opened GcMutator
  import opened GcAlloc
  import opened GcSweep
  import opened GcFinalize
  import opened GcCycle

  /** The operations; references in them are to objects that the program has. */
  datatype Op =
    | New(r: Ref, x: Body)
    | SetArray(o: Ref, i: nat, v: Val)
    | SetEntry(o: Ref, i: nat, k: Val, v: Val)
    | SetMode(o: Ref, mode: Mode)
    | SetMetatable(o: Ref, m: Val, hasgc: bool)
    | SetUserValue(o: Ref, i: nat, v: Val)
    | SetBlock(o: Ref, i: nat, v: Val)
    | SetUpValue(o: Ref, v: Val)
    | SetSlot(o: Ref, i: nat, v: Val)
    | Capture(o: Ref, u: Ref, slot: nat, pos: nat)
    | CloseUp(o: Ref, u: Ref)
    | SetRegistry(v: Val)
    | SetGlobals(mt: seq<Val>)
    | Resume(o: Ref)
    | Intern(r: Ref)
    | FixString
    | Collect(fast: bool, canCall: bool)
    | StartFull

  predicate Alive(c: Colors, w: bool, o: Ref)
  {
    o in c && c[o] != White(!w)
  }

  predicate AliveVal(c: Colors, w: bool, v: Val)
  {
    v.Ptr? ==> Alive(c, w, v.r)
  }

  predicate AllAlive(c: Colors, w: bool, vs: seq<Val>)
  {
    forall i :: 0 <= i < |vs| ==> AliveVal(c, w, vs[i])
  }

  lemma AliveKept(s: State, o: Ref)
    ensures Alive(s.color, s.white, o) <==> o in s.Kept()
  {
  }

  lemma AliveVals(s: State, v: Val)
    ensures AliveVal(s.color, s.white, v) <==> PtrSet(v) <= s.Kept()
  {
  }

  lemma AllAliveKept(s: State, vs: seq<Val>)
    requires AllAlive(s.color, s.white, vs)
    ensures PtrsOf(vs) <= s.Kept()
  {
    forall r | r in PtrsOf(vs) ensures r in s.Kept() {
      var v :| v in vs && v.Ptr? && v.r == r;
      var i :| 0 <= i < |vs| && vs[i] == v;
      assert AliveVal(s.color, s.white, vs[i]);
    }
  }

  // ---- New objects -------------------------------------------------------------------------------

  /** How objects look when they are created. */
  predicate Fresh(c: Colors, w: bool, x: Body)
  {
    match x
    case Str => true
    case Table(mode, meta, arr, node) => mode == Strong && meta == Plain && node == [] && forall v :: v in arr ==>
      !v.Ptr?
    case Udata(meta, uvs) => meta == Plain && forall v :: v in uvs ==> !v.Ptr?
    case Block(refs) => AllAlive(c, w, refs)
    case Thread(stack, open) => stack == [] && open == []
    case OpenUpVal(_, _) => false
    case ClosedUpVal(v) => AliveVal(c, w, v)
  }

  lemma FreshOk(s: State, r: Ref, x: Body)
    requires r !in s.body && Fresh(s.color, s.white, x)
    ensures NewOk(s, r, x)
  {
    match x
    case Block(refs) => AllAliveKept(s, refs);
    case ClosedUpVal(v) => AliveVals(s, v);
    case _ =>
  }

  // ---- Stores ------------------------------------------------------------------------------------

  lemma UpdatePtrs(vs: seq<Val>, i: nat, v: Val)
    requires i < |vs|
    ensures PtrsOf(vs[i := v]) <= PtrsOf(vs) + PtrSet(v)
  {
    forall r | r in PtrsOf(vs[i := v]) ensures r in PtrsOf(vs) + PtrSet(v) {
      var x :| x in vs[i := v] && x.Ptr? && x.r == r;
      var j :| 0 <= j < |vs| && vs[i := v][j] == x;
      assert j != i ==> vs[j] == x && x in vs;
    }
  }

  lemma StoreVals(s: State, o: Ref, k: Val, v: Val)
    requires Inv(s) && Alive(s.color, s.white, o) && AliveVal(s.color, s.white, k) && AliveVal(s.color, s.white, v)
    ensures o in s.Kept() && o in s.body && o in s.color && PtrSet(k) + PtrSet(v) <= s.Kept() && MetaOk(s.body, o)
  {
    AliveVals(s, k);
    AliveVals(s, v);
  }

  lemma ArrayOk(s: State, o: Ref, i: nat, v: Val)
    requires Inv(s) && Alive(s.color, s.white, o) && AliveVal(s.color, s.white, v)
    requires o in s.body && s.body[o].Table? && i < |s.body[o].arr|
    ensures StoreOk(s, o, s.body[o].(arr := s.body[o].arr[i := v]), Plain, v) && CanBeGray(s.body, o)
  {
    hide Inv, Alive, AliveVal;
    StoreVals(s, o, Plain, v);
    UpdatePtrs(s.body[o].arr, i, v);
  }

  /** An entry of the hash part is overwritten, or one more is added when 'i' is the size of the part. */
  lemma EntryOk(s: State, o: Ref, node: seq<Entry>, k: Val, v: Val)
    requires Inv(s) && Alive(s.color, s.white, o) && AliveVal(s.color, s.white, k) && AliveVal(s.color, s.white, v)
    requires o in s.body && s.body[o].Table?
    requires forall e :: e in node ==> e in s.body[o].node || e == Entry(k, v)
    ensures StoreOk(s, o, s.body[o].(node := node), k, v) && CanBeGray(s.body, o)
  {
    hide Inv, Alive, AliveVal;
    StoreVals(s, o, k, v);
    assert KeyRefs(node) <= KeyRefs(s.body[o].node) + PtrSet(k);
    assert ValRefs(node) <= ValRefs(s.body[o].node) + PtrSet(v);
  }

  lemma ModeOk(s: State, o: Ref, mode: Mode)
    requires Inv(s) && Alive(s.color, s.white, o) && o in s.body && s.body[o].Table?
    ensures StoreOk(s, o, s.body[o].(mode := mode), Plain, Plain) && CanBeGray(s.body, o)
  {
    hide Inv, Alive;
    StoreVals(s, o, Plain, Plain);
  }

  lemma UserValueOk(s: State, o: Ref, i: nat, v: Val)
    requires Inv(s) && Alive(s.color, s.white, o) && AliveVal(s.color, s.white, v)
    requires o in s.body && s.body[o].Udata? && i < |s.body[o].uvs|
    ensures StoreOk(s, o, s.body[o].(uvs := s.body[o].uvs[i := v]), Plain, v) && CanBeGray(s.body, o)
  {
    hide Inv, Alive, AliveVal;
    StoreVals(s, o, Plain, v);
    UpdatePtrs(s.body[o].uvs, i, v);
  }

  lemma BlockOk(s: State, o: Ref, i: nat, v: Val)
    requires Inv(s) && Alive(s.color, s.white, o) && AliveVal(s.color, s.white, v)
    requires o in s.body && s.body[o].Block? && i < |s.body[o].refs|
    ensures StoreOk(s, o, s.body[o].(refs := s.body[o].refs[i := v]), Plain, v)
  {
    hide Inv, Alive, AliveVal;
    StoreVals(s, o, Plain, v);
    UpdatePtrs(s.body[o].refs, i, v);
  }

  lemma UpValueOk(s: State, o: Ref, v: Val)
    requires Inv(s) && Alive(s.color, s.white, o) && AliveVal(s.color, s.white, v)
    requires o in s.body && s.body[o].ClosedUpVal?
    ensures StoreOk(s, o, ClosedUpVal(v), Plain, v)
  {
    hide Inv, Alive, AliveVal;
    StoreVals(s, o, Plain, v);
  }

  /** A metatable is a table. */
  predicate IsMeta(b: Heap, m: Val)
  {
    m.Ptr? ==> m.r in b && b[m.r].Table?
  }

  lemma TableMetaOk(s: State, o: Ref, m: Val)
    requires Inv(s) && Alive(s.color, s.white, o) && AliveVal(s.color, s.white, m) && IsMeta(s.body, m)
    requires o in s.body && s.body[o].Table?
    ensures StoreOk(s, o, Table(s.body[o].mode, m, s.body[o].arr, s.body[o].node), Plain, m)
  {
    hide Inv, Alive, AliveVal;
    StoreVals(s, o, Plain, m);
  }

  lemma UdataMetaOk(s: State, o: Ref, m: Val)
    requires Inv(s) && Alive(s.color, s.white, o) && AliveVal(s.color, s.white, m) && IsMeta(s.body, m)
    requires o in s.body && s.body[o].Udata?
    ensures StoreOk(s, o, Udata(m, s.body[o].uvs), Plain, m)
  {
    hide Inv, Alive, AliveVal;
    StoreVals(s, o, Plain, m);
  }

  // ---- What the operations do ------------------------------------------------------------------------

  /** The program has the object. */
  ghost predicate Has(s: State, o: Ref)
  {
    o in s.body && Alive(s.color, s.white, o)
  }

  ghost predicate HasVal(s: State, v: Val)
  {
    AliveVal(s.color, s.white, v)
  }

  ghost function WithEntry(node: seq<Entry>, i: nat, e: Entry): seq<Entry>
    requires i <= |node|
  {
    if i < |node| then node[i := e] else node + [e]
  }

  ghost function WithSlot(b: Heap, t: Ref, i: nat, v: Val): Heap
  {
    if t in b && b[t].Thread? && i <= |b[t].stack| then
      var stack := b[t].stack;
      b[t := b[t].(stack := if i < |stack| then stack[i := v] else stack + [v])]
    else b
  }

  ghost function WithMeta(x: Body, m: Val): Body
  {
    if x.Table? then Table(x.mode, m, x.arr, x.node) else if x.Udata? then Udata(m, x.uvs) else x
  }

  /** The bodies after an operation, metatables apart; one that asks for something impossible does nothing. */
  ghost function Bodies(s: State, op: Op): Heap
  {
    match op
    case New(r, x) => if r !in s.body && Fresh(s.color, s.white, x) then s.body[r := x] else s.body
    case SetArray(o, i, v) =>
      if Has(s, o) && HasVal(s, v) && s.body[o].Table? && i < |s.body[o].arr|
      then s.body[o := s.body[o].(arr := s.body[o].arr[i := v])] else s.body
    case SetEntry(o, i, k, v) =>
      if Has(s, o) && HasVal(s, k) && HasVal(s, v) && s.body[o].Table? && i <= |s.body[o].node|
      then s.body[o := s.body[o].(node := WithEntry(s.body[o].node, i, Entry(k, v)))] else s.body
    case SetMode(o, mode) =>
      if Has(s, o) && s.body[o].Table? then s.body[o := s.body[o].(mode := mode)] else s.body
    case SetUserValue(o, i, v) =>
      if Has(s, o) && HasVal(s, v) && s.body[o].Udata? && i < |s.body[o].uvs|
      then s.body[o := s.body[o].(uvs := s.body[o].uvs[i := v])] else s.body
    case SetBlock(o, i, v) =>
      if Has(s, o) && HasVal(s, v) && s.body[o].Block? && i < |s.body[o].refs|
      then s.body[o := s.body[o].(refs := s.body[o].refs[i := v])] else s.body
    case SetUpValue(o, v) =>
      if !Has(s, o) || !HasVal(s, v) then s.body
      else if s.body[o].ClosedUpVal? then s.body[o := ClosedUpVal(v)]
      else if s.body[o].OpenUpVal? && Alive(s.color, s.white, s.body[o].th)
      then WithSlot(s.body, s.body[o].th, s.body[o].slot, v) else s.body
    case SetSlot(t, i, v) => if Has(s, t) && HasVal(s, v) then WithSlot(s.body, t, i, v) else s.body
    case Capture(t, u, slot, pos) =>
      if Has(s, t) && s.body[t].Thread? && u !in s.body && slot < |s.body[t].stack|
         && pos <= |s.body[t].open|
      then OpenBody(s.body, t, u, slot, s.body[t].open[..pos] + [u] + s.body[t].open[pos..]) else s.body
    case CloseUp(t, u) => if CloseOk(s.body, t, u) then CloseBody(s.body, t, u) else s.body
    case _ => s.body
  }

  /** An object gets its metatable, and is marked for finalization if that has a finalizer and it was not yet. */
  ghost predicate MetaSet(s: State, o: Ref, m: Val, hasgc: bool, t: State)
  {
    if Has(s, o) && HasVal(s, m) && IsMeta(s.body, m) && (s.body[o].Table? || s.body[o].Udata?) then
      MetaPut(s, o, m, hasgc, t)
    else t == s
  }

  ghost predicate MetaPut(s: State, o: Ref, m: Val, hasgc: bool, t: State)
    requires o in s.body
  {
    && o in t.body && t.body[o] == WithMeta(s.body[o], m)
    && t.history.marks == s.history.marks
                          + (if m.Ptr? && hasgc && o !in s.history.bit then multiset{o} else multiset{})
  }

  ghost predicate MetaAllowed(s: State, o: Ref, m: Val)
  {
    && Alive(s.color, s.white, o) && AliveVal(s.color, s.white, m) && IsMeta(s.body, m) && o in s.body
    && (s.body[o].Table? || s.body[o].Udata?)
  }

  ghost predicate RootsSet(s: State, current: Ref, registry: Val, mt: seq<Val>, t: State)
  {
    if Alive(s.color, s.white, current) && current in s.body && s.body[current].Thread?
       && AliveVal(s.color, s.white, registry) && AllAlive(s.color, s.white, mt)
    then t.current == current && t.registry == registry && t.mt == mt
    else t == s
  }

  /** What the operation does, for the program. */
  ghost predicate Performs(s: State, op: Op, t: State)
  {
    match op
    case SetMetatable(o, m, hasgc) => MetaSet(s, o, m, hasgc, t)
    case SetRegistry(v) => t.body == s.body && RootsSet(s, s.current, v, s.mt, t)
    case SetGlobals(mt) => t.body == s.body && RootsSet(s, s.current, s.registry, mt, t)
    case Resume(o) => t.body == s.body && RootsSet(s, o, s.registry, s.mt, t)
    case Collect(fast, canCall) => Stepped(s, t) && Advances(s, t, fast, canCall)
    case _ => t.body == Bodies(s, op)
  }

  // ---- The operations, each applied only to objects that are not dead ------------------------------

  method DoNew(g: Collector, r: Ref, x: Body)
    requires Inv(StateOf(g))
    modifies g`body, g`color, g`allgc
    ensures Inv(StateOf(g)) && g.body == Bodies(old(StateOf(g)), New(r, x))
  {
    hide Inv, Fresh, NewOk;
    if r !in g.body && Fresh(g.color, g.white, x) {
      FreshOk(StateOf(g), r, x);
      NewObject(g, r, x);
    }
  }

  method DoSetArray(g: Collector, o: Ref, i: nat, v: Val)
    requires Inv(StateOf(g))
    modifies g`body, g`color, g`grayagain
    ensures Inv(StateOf(g)) && g.body == Bodies(old(StateOf(g)), SetArray(o, i, v))
  {
    hide Inv, Alive, AliveVal, StoreOk, CanBeGray;
    if Alive(g.color, g.white, o) && AliveVal(g.color, g.white, v) && o in g.body && g.body[o].Table?
       && i < |g.body[o].arr| {
      ArrayOk(StateOf(g), o, i, v);
      StoreBack(g, o, g.body[o].(arr := g.body[o].arr[i := v]), Plain, v);
    }
  }

  method DoSetEntry(g: Collector, o: Ref, i: nat, k: Val, v: Val)
    requires Inv(StateOf(g))
    modifies g`body, g`color, g`grayagain
    ensures Inv(StateOf(g)) && g.body == Bodies(old(StateOf(g)), SetEntry(o, i, k, v))
  {
    hide Inv, Alive, AliveVal, StoreOk, CanBeGray;
    if Alive(g.color, g.white, o) && AliveVal(g.color, g.white, k) && AliveVal(g.color, g.white, v) && o in g.body
       && g.body[o].Table? && i <= |g.body[o].node| {
      var node := g.body[o].node;
      var node' := if i < |node| then node[i := Entry(k, v)] else node + [Entry(k, v)];
      EntryOk(StateOf(g), o, node', k, v);
      StoreBack(g, o, g.body[o].(node := node'), k, v);
    }
  }

  /** Only the collector reads the mode of a table, from its metatable: a change of it calls no barrier. */
  method DoSetMode(g: Collector, o: Ref, mode: Mode)
    requires Inv(StateOf(g))
    modifies g`body
    ensures Inv(StateOf(g)) && g.body == Bodies(old(StateOf(g)), SetMode(o, mode))
  {
    hide Inv, Alive, StoreOk, CanBeGray;
    if Alive(g.color, g.white, o) && o in g.body && g.body[o].Table? {
      ModeOk(StateOf(g), o, mode);
      StoreNothing(g, o, g.body[o].(mode := mode));
    }
  }

  /** lua_setmetatable: the forward barrier, and then the check for a finalizer. */
  method DoSetMetatable(g: Collector, o: Ref, m: Val, hasgc: bool)
    requires Inv(StateOf(g))
    modifies g
    ensures Inv(StateOf(g)) && MetaSet(old(StateOf(g)), o, m, hasgc, StateOf(g))
  {
    hide *;
    ghost var s := StateOf(g);
    StateMeta(g);
    MetaAllowedIs(s, o, m);
    if Alive(g.color, g.white, o) && AliveVal(g.color, g.white, m) && IsMeta(g.body, m) && o in g.body {
      if g.body[o].Table? || g.body[o].Udata? {
        PutMeta(g, o, m);
        MetaKind(s.body[o], m);
        FinalizerCheck(g, o, m.Ptr? && hasgc);
        StateMeta(g);
      }
    }
    if MetaAllowed(s, o, m) {
      MetaIsPut(s, o, m, hasgc, StateOf(g));
    } else {
      MetaIsRefused(s, o, m, hasgc);
    }
  }

  lemma StateMeta(g: Collector)
    ensures var s := StateOf(g);
            && s.body == g.body && s.color == g.color && s.white == g.white && s.history.marks == g.marks
            && s.history.bit == g.tofinalize
  {
  }

  lemma MetaKind(x: Body, m: Val)
    requires x.Table? || x.Udata?
    ensures WithMeta(x, m).Table? || WithMeta(x, m).Udata?
  {
  }

  lemma MetaAllowedIs(s: State, o: Ref, m: Val)
    ensures MetaAllowed(s, o, m) <==>
              && Alive(s.color, s.white, o) && AliveVal(s.color, s.white, m) && IsMeta(s.body, m) && o in s.body
              && (s.body[o].Table? || s.body[o].Udata?)
  {
  }

  lemma MetaIsPut(s: State, o: Ref, m: Val, hasgc: bool, t: State)
    requires MetaAllowed(s, o, m) && o in t.body && t.body[o] == WithMeta(s.body[o], m)
    requires t.history.marks == s.history.marks
                                + (if m.Ptr? && hasgc && o !in s.history.bit then multiset{o} else multiset{})
    ensures MetaSet(s, o, m, hasgc, t)
  {
    hide Alive, AliveVal, IsMeta, WithMeta;
  }

  lemma MetaIsRefused(s: State, o: Ref, m: Val, hasgc: bool)
    requires !MetaAllowed(s, o, m)
    ensures MetaSet(s, o, m, hasgc, s)
  {
    hide Alive, AliveVal, IsMeta, WithMeta;
  }

  /** Another metatable for a table or userdata. */
  method PutMeta(g: Collector, o: Ref, m: Val)
    requires Inv(StateOf(g)) && Alive(g.color, g.white, o) && AliveVal(g.color, g.white, m) && IsMeta(g.body, m)
    requires o in g.body && (g.body[o].Table? || g.body[o].Udata?)
    modifies g`body, g`color, g`gray
    ensures Inv(StateOf(g)) && g.body == old(g.body)[o := WithMeta(old(g.body[o]), m)]
    ensures Alive(g.color, g.white, o)
  {
    hide Inv, Alive, AliveVal, StoreOk, IsMeta;
    if g.body[o].Table? {
      TableMetaOk(StateOf(g), o, m);
      StoreForward(g, o, Table(g.body[o].mode, m, g.body[o].arr, g.body[o].node), m);
    } else {
      UdataMetaOk(StateOf(g), o, m);
      StoreForward(g, o, Udata(m, g.body[o].uvs), m);
    }
    AliveKept(StateOf(g), o);
  }

  method FinalizerCheck(g: Collector, o: Ref, hasgc: bool)
    requires Inv(StateOf(g)) && o in g.body && (g.body[o].Table? || g.body[o].Udata?) && Alive(g.color, g.white, o)
    modifies g`body, g`color, g`gray, g`allgc, g`sweepgc, g`finobj, g`tofinalize, g`marks, g`stamp, g`clock
    ensures Inv(StateOf(g)) && o in g.body && g.body[o] == old(g.body[o])
    ensures g.marks == old(g.marks) + (if hasgc && o !in old(g.tofinalize) then multiset{o} else multiset{})
  {
    hide Inv, Alive, Untouched;
    AliveKept(StateOf(g), o);
    ghost var b, kept := g.body, StateOf(g).Kept();
    CheckFinalizer(g, o, hasgc);
    UntouchedAt(b, g.body, kept, o);
  }

  lemma UntouchedAt(b: Heap, b': Heap, kept: set<Ref>, o: Ref)
    requires Untouched(b, b', kept) && o in kept && o in b && (b[o].Table? || b[o].Udata?)
    ensures o in b' && b'[o] == b[o]
  {
    assert SameObject(b, b', kept, o);
  }

  method DoSetUserValue(g: Collector, o: Ref, i: nat, v: Val)
    requires Inv(StateOf(g))
    modifies g`body, g`color, g`grayagain
    ensures Inv(StateOf(g)) && g.body == Bodies(old(StateOf(g)), SetUserValue(o, i, v))
  {
    hide Inv, Alive, AliveVal, StoreOk, CanBeGray;
    if Alive(g.color, g.white, o) && AliveVal(g.color, g.white, v) && o in g.body && g.body[o].Udata?
       && i < |g.body[o].uvs| {
      UserValueOk(StateOf(g), o, i, v);
      StoreBack(g, o, g.body[o].(uvs := g.body[o].uvs[i := v]), Plain, v);
    }
  }

  method DoSetBlock(g: Collector, o: Ref, i: nat, v: Val)
    requires Inv(StateOf(g))
    modifies g`body, g`color, g`gray
    ensures Inv(StateOf(g)) && g.body == Bodies(old(StateOf(g)), SetBlock(o, i, v))
  {
    hide Inv, Alive, AliveVal, StoreOk;
    if Alive(g.color, g.white, o) && AliveVal(g.color, g.white, v) && o in g.body && g.body[o].Block?
       && i < |g.body[o].refs| {
      BlockOk(StateOf(g), o, i, v);
      StoreForward(g, o, g.body[o].(refs := g.body[o].refs[i := v]), v);
    }
  }

  /** Assignment through an upvalue: a closed one with a barrier, an open one into the stack it lives in. */
  method DoSetUpValue(g: Collector, o: Ref, v: Val)
    requires Inv(StateOf(g))
    modifies g`body, g`color, g`gray
    ensures Inv(StateOf(g)) && g.body == Bodies(old(StateOf(g)), SetUpValue(o, v))
  {
    hide Inv, Alive, AliveVal, StoreOk;
    if Alive(g.color, g.white, o) && AliveVal(g.color, g.white, v) && o in g.body {
      if g.body[o].ClosedUpVal? {
        UpValueOk(StateOf(g), o, v);
        StoreForward(g, o, ClosedUpVal(v), v);
      } else if g.body[o].OpenUpVal? {
        DoSetSlot(g, g.body[o].th, g.body[o].slot, v);
      }
    }
  }

  lemma SlotOk(s: State, t: Ref, i: nat, v: Val)
    requires Inv(s) && Alive(s.color, s.white, t) && AliveVal(s.color, s.white, v) && t in s.body && s.body[t].Thread?
    requires i <= |s.body[t].stack|
    ensures var stack := s.body[t].stack; StackOk(s, t, if i < |stack| then stack[i := v] else stack + [v])
  {
    InvUpvals(s);
    AliveKept(s, t);
    AliveVals(s, v);
    var stack := s.body[t].stack;
    assert Refs(s.body, t) <= s.Kept();
    forall u | u in s.body[t].open && u in s.body && s.body[u].OpenUpVal? ensures s.body[u].slot < |stack| {
      assert ThreadOk(s.body, t) && UpvalOk(s.body, u);
    }
    if i < |stack| { UpdatePtrs(stack, i, v); }
  }

  method DoSetSlot(g: Collector, t: Ref, i: nat, v: Val)
    requires Inv(StateOf(g))
    modifies g`body
    ensures Inv(StateOf(g)) && g.body == Bodies(old(StateOf(g)), SetSlot(t, i, v))
  {
    hide Inv, Alive, AliveVal, StackOk;
    if Alive(g.color, g.white, t) && AliveVal(g.color, g.white, v) && t in g.body && g.body[t].Thread?
       && i <= |g.body[t].stack| {
      SlotOk(StateOf(g), t, i, v);
      var stack := g.body[t].stack;
      SetStack(g, t, if i < |stack| then stack[i := v] else stack + [v]);
    }
  }

  lemma CaptureOk(s: State, t: Ref, u: Ref, slot: nat, pos: nat)
    requires Inv(s) && Alive(s.color, s.white, t) && t in s.body && s.body[t].Thread? && u !in s.body
    requires slot < |s.body[t].stack| && pos <= |s.body[t].open|
    ensures OpenOk(s, t, u, slot, s.body[t].open[..pos] + [u] + s.body[t].open[pos..])
  {
    AliveKept(s, t);
    var open := s.body[t].open;
    assert open == open[..pos] + open[pos..];
  }

  /** A closure captures a slot: a new open upvalue at position 'pos' of the list of its thread. */
  method DoCapture(g: Collector, t: Ref, u: Ref, slot: nat, pos: nat)
    requires Inv(StateOf(g))
    modifies g`body, g`color, g`allgc, g`twups
    ensures Inv(StateOf(g)) && g.body == Bodies(old(StateOf(g)), Capture(t, u, slot, pos))
  {
    hide Inv, Alive, OpenOk;
    if Alive(g.color, g.white, t) && t in g.body && g.body[t].Thread? && u !in g.body && slot < |g.body[t].stack|
       && pos <= |g.body[t].open| {
      CaptureOk(StateOf(g), t, u, slot, pos);
      NewUpVal(g, t, u, slot, g.body[t].open[..pos] + [u] + g.body[t].open[pos..]);
    }
  }

  method DoCloseUp(g: Collector, t: Ref, u: Ref)
    requires Inv(StateOf(g))
    modifies g`body, g`color, g`gray
    ensures Inv(StateOf(g)) && g.body == Bodies(old(StateOf(g)), CloseUp(t, u))
  {
    hide Inv, CloseBody, WhitesStay;
    if t in g.body && g.body[t].Thread? && u in g.body[t].open {
      CloseUpVal(g, t, u);
    }
  }

  lemma RootsOk(s: State, mt: seq<Val>)
    requires Inv(s)
    ensures s.current in s.Kept() && s.current in s.body && s.body[s.current].Thread?
    ensures PtrSet(s.registry) <= s.Kept() && PtrsOf(s.mt) <= s.Kept()
    ensures AllAlive(s.color, s.white, mt) ==> PtrsOf(mt) <= s.Kept()
  {
    if AllAlive(s.color, s.white, mt) { AllAliveKept(s, mt); }
  }

  method DoSetRoots(g: Collector, current: Ref, registry: Val, mt: seq<Val>)
    requires Inv(StateOf(g))
    modifies g`current, g`registry, g`mt
    ensures Inv(StateOf(g)) && RootsSet(old(StateOf(g)), current, registry, mt, StateOf(g))
  {
    hide Inv, Alive, AliveVal, AllAlive;
    if Alive(g.color, g.white, current) && current in g.body && g.body[current].Thread?
       && AliveVal(g.color, g.white, registry) && AllAlive(g.color, g.white, mt) {
      AliveKept(StateOf(g), current);
      AliveVals(StateOf(g), registry);
      RootsOk(StateOf(g), mt);
      SetRoots(g, current, registry, mt);
    }
  }

  method DoIntern(g: Collector, r: Ref)
    requires Inv(StateOf(g))
    modifies g`color
    ensures Inv(StateOf(g))
  {
    hide Inv;
    if IsStr(g.body, r) {
      FindString(g, r);
    }
  }

  method DoFix(g: Collector)
    requires Inv(StateOf(g))
    modifies g`color, g`allgc, g`fixedgc
    ensures Inv(StateOf(g))
  {
    hide Inv;
    if g.gcstate == Pause && g.allgc != [] && IsStr(g.body, g.allgc[0]) {
      Fix(g);
    }
  }

  predicate IsStore(op: Op)
  {
    || op.New? || op.SetArray? || op.SetEntry? || op.SetMode? || op.SetUserValue? || op.SetBlock? || op.SetUpValue?
    || op.SetSlot? || op.Capture? || op.CloseUp?
  }

  /** An operation that stores something or creates an object. */
  method DoStore(g: Collector, op: Op)
    requires Inv(StateOf(g)) && IsStore(op)
    modifies g
    ensures Inv(StateOf(g)) && g.body == Bodies(old(StateOf(g)), op)
  {
    hide Inv, Bodies;
    match op {
      case New(r, x) => DoNew(g, r, x);
      case SetArray(o, i, v) => DoSetArray(g, o, i, v);
      case SetEntry(o, i, k, v) => DoSetEntry(g, o, i, k, v);
      case SetMode(o, mode) => DoSetMode(g, o, mode);
      case SetUserValue(o, i, v) => DoSetUserValue(g, o, i, v);
      case SetBlock(o, i, v) => DoSetBlock(g, o, i, v);
      case SetUpValue(o, v) => DoSetUpValue(g, o, v);
      case SetSlot(t, i, v) => DoSetSlot(g, t, i, v);
      case Capture(t, u, slot, pos) => DoCapture(g, t, u, slot, pos);
      case CloseUp(t, u) => DoCloseUp(g, t, u);
    }
  }

  /** One operation; a step of the collector loses nothing and leaves bodies as they are. */
  method Step(g: Collector, op: Op)
    requires Inv(StateOf(g))
    modifies g
    ensures Inv(StateOf(g)) && Performs(old(StateOf(g)), op, StateOf(g))
  {
    hide Inv, Bodies, MetaSet, RootsSet, Stepped, Advances, KeepInvariant, Performs;
    ghost var s := StateOf(g);
    if IsStore(op) {
      DoStore(g, op);
    } else {
      match op {
        case SetMetatable(o, m, hasgc) => DoSetMetatable(g, o, m, hasgc);
        case SetRegistry(v) => DoSetRoots(g, g.current, v, g.mt);
        case SetGlobals(mt) => DoSetRoots(g, g.current, g.registry, mt);
        case Resume(t) => DoSetRoots(g, t, g.registry, g.mt);
        case Intern(r) => DoIntern(g, r);
        case FixString => DoFix(g);
        case Collect(fast, canCall) => SingleStep(g, fast, canCall);
        case StartFull =>
          if KeepInvariant(g.gcstate) {
            AbandonMarking(g);
          }
      }
    }
    PerformsIs(s, op, StateOf(g));
  }

  lemma PerformsIs(s: State, op: Op, t: State)
    requires op.SetMetatable? ==> MetaSet(s, op.o, op.m, op.hasgc, t)
    requires op.SetRegistry? ==> t.body == s.body && RootsSet(s, s.current, op.v, s.mt, t)
    requires op.SetGlobals? ==> t.body == s.body && RootsSet(s, s.current, s.registry, op.mt, t)
    requires op.Resume? ==> t.body == s.body && RootsSet(s, op.o, s.registry, s.mt, t)
    requires op.Collect? ==> Stepped(s, t) && Advances(s, t, op.fast, op.canCall)
    requires op.Intern? || op.FixString? || op.StartFull? ==> t.body == s.body
    requires IsStore(op) ==> t.body == Bodies(s, op)
    ensures Performs(s, op, t)
  {
    hide MetaSet, RootsSet, Stepped, Advances, Has, HasVal, Fresh, WithSlot, CloseBody, OpenBody;
  }

  /**
   The states of a run: in each, everything that the program can reach is in the heap, and a step of the
   collector neither frees what the program holds nor changes it, but for the entries of weak tables that go.
   */
  ghost predicate IsRun(trace: seq<State>, ops: seq<Op>)
  {
    && |trace| == |ops| + 1
    && (forall i :: 0 <= i < |trace| ==> InOrder(trace[i]))
    && (forall i :: 0 <= i < |ops| ==> Performs(trace[i], ops[i], trace[i + 1]))
  }

  ghost predicate InOrder(s: State)
  {
    Inv(s) && forall r :: Reachable(s, r) ==> r in s.body
  }

  lemma AllInOrder(s: State)
    requires Inv(s)
    ensures InOrder(s)
  {
    hide Inv, Reachable;
    forall r | Reachable(s, r) ensures r in s.body {
      ReachableIsKept(s, r);
    }
  }

  lemma RunGrows(trace: seq<State>, ops: seq<Op>, n: nat, t: State)
    requires n < |ops| && IsRun(trace, ops[..n]) && Inv(t)
    requires Performs(trace[n], ops[n], t)
    ensures IsRun(trace + [t], ops[..n + 1])
  {
    hide Inv, InOrder, Performs;
    AllInOrder(t);
    assert ops[..n + 1] == ops[..n] + [ops[n]];
    var trace' := trace + [t];
    assert forall i :: 0 <= i <= n ==> trace'[i] == trace[i];
  }

  /** Any run: whatever the program does, and whenever the collector takes its steps. */
  method Run(g: Collector, ops: seq<Op>) returns (ghost trace: seq<State>)
    requires Inv(StateOf(g))
    modifies g
    ensures IsRun(trace, ops) && trace[0] == old(StateOf(g)) && trace[|ops|] == StateOf(g) && Inv(StateOf(g))
  {
    hide *;
    var i := 0;
    trace := [StateOf(g)];
    RunStarts(StateOf(g), ops);
    while i < |ops|
      invariant 0 <= i <= |ops| && Inv(StateOf(g)) && IsRun(trace, ops[..i])
      invariant |trace| == i + 1 && trace[0] == old(StateOf(g)) && trace[i] == StateOf(g)
    {
      BodyOf(g);
      Step(g, ops[i]);
      BodyOf(g);
      RunGrows(trace, ops, i, StateOf(g));
      trace := trace + [StateOf(g)];
      i := i + 1;
    }
    assert ops[..|ops|] == ops;
  }

  lemma BodyOf(g: Collector)
    ensures StateOf(g).body == g.body
  {
  }

  lemma RunStarts(s: State, ops: seq<Op>)
    requires Inv(s)
    ensures IsRun([s], ops[..0])
  {
    AllInOrder(s);
  }

  /** The invariant holds of a new state, which has only its main thread. */
  method Start(main: Ref) returns (g: Collector)
    ensures fresh(g) && Inv(StateOf(g))
  {
    g := new Collector(main);
    StartInv(StateOf(g), main);
  }

  lemma StartInv(s: State, main: Ref)
    requires s.body == map[main := Thread([], [])] && s.color == map[main := White(false)] && !s.white
    requires s.gcstate == Pause && s.sweepgc == NoLink && s.lists == Lists([main], [], [], []) && s.twups == []
    requires s.main == s.current == main && s.registry == Plain && s.mt == []
    requires s.history.bit == {} && s.history.marks == s.history.calls == multiset{} && s.history.log == []
    ensures Inv(s)
  {
    assert s.Kept() == {main} && s.Roots() == {main};
    assert s.body.Keys == {main};
  }
}
