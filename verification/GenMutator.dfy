/**
 What the program does between collections in generational mode: new objects, and stores with their
 barriers.  A forward barrier may leave a young object marked, and then a later store can break the age
 invariant without a barrier seeing it.
 */
module GenMutator {
  import opened GenHeap
  import opened GenMark

  /** The object after a store that drops some references and adds 'v'. */
  function Stored(x: Obj, drop: set<Ref>, v: Ptr): Obj
  {
    match x
    case Inline(_) => Inline(v)
    case Block(rs) => Block(rs - drop + PtrSet(v))
    case Closure(rs) => Closure(rs - drop + PtrSet(v))
    case _ => x
  }

  /** The store is one that the code can do: back barriers are for tables and userdata with user values. */
  predicate Writable(s: State, o: Ref, v: Ptr, forward: bool)
  {
    && o in s.body && o in s.color && o in s.age
    && (s.body[o].Block? || (forward && (s.body[o].Inline? || s.body[o].Closure?)))
    && (v.To? ==> v.r in s.body && v.r in s.color && v.r in s.age)
  }

  /** A black object gets a reference to a white one: the barrier has to act. */
  predicate Hit(s: State, o: Ref, v: Ptr)
  {
    o in s.color && s.color[o].Black? && v.To? && v.r in s.color && s.color[v.r].White?
  }

  /** luaC_barrierback */
  function BarrierBack(s: State, o: Ref): State
    requires o in s.color && o in s.age
  {
    var again := if s.age[o].Touched2? then s.again else [o] + s.again;
    var age := if IsOld(s.age[o]) then s.age[o := Touched1] else s.age;
    s.(color := s.color[o := Gray], again := again, age := age)
  }

  /** luaC_barrier */
  function BarrierForward(s: State, o: Ref, v: Ref): State
    requires o in s.age && v in s.body
  {
    var (c, gray) := ReallyMark(s.body, s.color, s.gray, v);
    var age := if IsOld(s.age[o]) then s.age[v := Old0] else s.age;
    s.(color := c, gray := gray, age := age)
  }

  function Store(s: State, o: Ref, drop: set<Ref>, v: Ptr, forward: bool): State
    requires Writable(s, o, v, forward)
  {
    var t := s.(body := s.body[o := Stored(s.body[o], drop, v)]);
    if !Hit(s, o, v) then t else if forward then BarrierForward(t, o, v.r) else BarrierBack(t, o)
  }

  /** The reference stored is one that lgc.h allows the object by its age, or the barrier takes care of it. */
  predicate StoreSafe(s: State, o: Ref, v: Ptr)
  {
    v.To? && o in s.color && s.color[o].Black? && !Hit(s, o, v) ==> AgeFits(AgeOf(s.age, o), AgeOf(s.age, v.r))
  }

  /**
   The store that no barrier sees: the object was settled, and the reference is to a young object that a forward
   barrier marked.
   */
  predicate Misses(s: State, o: Ref, v: Ptr)
  {
    && v.To? && o in s.color && s.color[o].Black? && Settled(AgeOf(s.age, o))
    && v.r in s.color && !s.color[v.r].White? && AgeOf(s.age, v.r).New?
  }

  lemma StoredRefs(x: Obj, drop: set<Ref>, v: Ptr)
    ensures RefsOf(Stored(x, drop, v)) <= RefsOf(x) + PtrSet(v)
    ensures Stored(x, drop, v).Block? == x.Block? && Stored(x, drop, v).Closure? == x.Closure?
    ensures Stored(x, drop, v).Thread? == x.Thread?
    ensures x.Block? || x.Inline? || x.Closure? ==> PtrSet(v) <= RefsOf(Stored(x, drop, v))
  {
  }

  /** The bodies 'b' and 'b2' have objects of the same kinds. */
  ghost predicate SameKinds(b: Heap, b2: Heap)
  {
    && b2.Keys == b.Keys
    && forall o :: o in b ==>
        b2[o].Block? == b[o].Block? && b2[o].Closure? == b[o].Closure? && b2[o].Thread? == b[o].Thread?
  }

  // ---- Stores that no barrier changes ----------------------------------------------------------------

  /** What the store does to the body alone. */
  ghost predicate Written(s: State, o: Ref, v: Ptr, b: Heap)
  {
    && SameKinds(s.body, b) && o in b && (v.To? ==> v.r in b)
    && (forall x :: x in b && x != o ==> Refs(b, x) == Refs(s.body, x))
    && Refs(b, o) <= Refs(s.body, o) + PtrSet(v) && PtrSet(v) <= Refs(b, o) && !IsThread(b, o)
  }

  lemma WrittenIs(s: State, o: Ref, drop: set<Ref>, v: Ptr, forward: bool)
    requires Writable(s, o, v, forward)
    ensures Written(s, o, v, s.body[o := Stored(s.body[o], drop, v)])
  {
    StoredRefs(s.body[o], drop, v);
  }

  lemma KindsKept(b: Heap, b2: Heap, c: Colors, a: Ages, gray: seq<Ref>, again: seq<Ref>)
    requires SameKinds(b, b2) && GraysOk(b, c, a, gray, again) && ColorsOk(b, c, a, gray, again)
    ensures GraysOk(b2, c, a, gray, again) && ColorsOk(b2, c, a, gray, again)
  {
    forall o | o in b2 && o in c ensures ColorAt(b2, c, a, gray, again, o) {
      assert ColorAt(b, c, a, gray, again, o);
    }
  }

  lemma HeapWritten(s: State, o: Ref, v: Ptr, b: Heap)
    requires Shape(s) && Written(s, o, v, b)
    ensures RootsOk(b, s.color, s.age, s.main, s.roots) && Closed(b, b.Keys)
  {
    forall x | x in b ensures Refs(b, x) <= b.Keys {
      assert Refs(s.body, x) <= s.body.Keys;
    }
  }

  /** A marked object that is not traversed in the next collection is black. */
  lemma UnlistedBlack(s: State, o: Ref)
    requires Shape(s) && o in Marked(s.color) && o !in s.gray && o !in s.again
    ensures s.color[o].Black?
  {
    assert ColorAt(s.body, s.color, s.age, s.gray, s.again, o);
  }

  lemma TricolorWritten(s: State, o: Ref, v: Ptr, b: Heap)
    requires Traced(s) && Written(s, o, v, b) && !Hit(s, o, v)
    ensures Tricolor(b, s.color, s.age, s.gray, s.again)
  {
    forall x | x in Marked(s.color) && x !in s.gray && x !in s.again && !AgeOf(s.age, x).Old1?
      ensures Refs(b, x) <= Marked(s.color)
    {
      UnlistedBlack(s, x);
      assert Refs(s.body, x) <= Marked(s.color);
    }
  }

  /** An object that is not black was not settled, and may refer to any object. */
  lemma FreeAge(s: State, o: Ref, y: Age)
    requires Shape(s) && o in s.body && !IsThread(s.body, o) && !s.color[o].Black?
    ensures AgeFits(AgeOf(s.age, o), y) && !Settled(AgeOf(s.age, o))
  {
    hide Shape;
    ShapeAt(s, o);
  }

  lemma AgesWritten(s: State, o: Ref, v: Ptr, b: Heap)
    requires Shape(s) && AgesOk(s.body, s.age) && Written(s, o, v, b) && !Hit(s, o, v)
    ensures AgesOk(b, s.age) <==> StoreSafe(s, o, v)
  {
    hide Shape;
    ShapeAt(s, o);
    if StoreSafe(s, o, v) {
      forall x | x in b ensures AgesAt(b, s.age, x) {
        assert AgesAt(s.body, s.age, x);
        if x == o && v.To? && !s.color[o].Black? { FreeAge(s, o, AgeOf(s.age, v.r)); }
      }
    } else {
      assert v.r in Refs(b, o) && !AgesAt(b, s.age, o);
    }
  }

  lemma NewWritten(s: State, o: Ref, v: Ptr, b: Heap)
    requires Shape(s) && NoOldToNew(s.body, s.age) && Written(s, o, v, b) && !Hit(s, o, v)
    ensures NoOldToNew(b, s.age) <==> !Misses(s, o, v)
  {
    hide Shape;
    ShapeAt(s, o);
    if Misses(s, o, v) {
      assert OldToNew(b, s.age, o, v.r);
    } else {
      forall x, r ensures !OldToNew(b, s.age, x, r) {
        assert !OldToNew(s.body, s.age, x, r);
        if x == o && v.To? && !s.color[o].Black? { FreeAge(s, o, New); }
        if v.To? { ShapeAt(s, v.r); }
      }
    }
  }

  lemma PlainShape(s: State, o: Ref, v: Ptr, b: Heap)
    requires Shape(s) && Written(s, o, v, b)
    ensures Shape(s.(body := b))
  {
    HeapWritten(s, o, v, b);
    KindsKept(s.body, b, s.color, s.age, s.gray, s.again);
    ListSame(s.body, b, s.age, s.lists);
    hide ListOk, GraysOk, ColorsOk, RootsOk, Closed, Written;
  }

  lemma PlainStore(s: State, o: Ref, v: Ptr, b: Heap)
    requires Traced(s) && Written(s, o, v, b) && !Hit(s, o, v)
    ensures Traced(s.(body := b))
  {
    PlainShape(s, o, v, b);
    TricolorWritten(s, o, v, b);
    hide Shape;
  }

  // ---- The back barrier ------------------------------------------------------------------------------

  /** A black block is old and was not touched in this cycle; if it was touched in the last one, it is listed. */
  lemma BlackBlock(s: State, o: Ref)
    requires Shape(s) && o in s.body && s.body[o].Block? && s.color[o].Black?
    ensures IsOld(s.age[o]) && !s.age[o].Touched1? && o !in s.gray && (s.age[o].Touched2? <==> o in s.again)
  {
    assert ColorAt(s.body, s.color, s.age, s.gray, s.again, o);
  }

  lemma PartsChanged(a: Ages, l: Lists, o: Ref, x: Age)
    requires l.reallyold <= l.old1 <= l.survival <= |l.all| && PartsOk(a, l) && o in a
    requires if IsOld(a[o]) then x.Touched1? else x.Old0?
    ensures PartsOk(a[o := x], l)
  {
    var a' := a[o := x];
    forall r | r in l.all[|l.all| - l.survival..] ensures !AgeOf(a', r).New? {
      assert r == o || AgeOf(a', r) == AgeOf(a, r);
    }
    forall r | r in l.all[|l.all| - l.old1..] ensures IsOld(AgeOf(a', r)) && !AgeOf(a', r).Old0? {
      assert r == o || AgeOf(a', r) == AgeOf(a, r);
      assert IsOld(AgeOf(a, r));
    }
    forall r | r in l.all[|l.all| - l.reallyold..] ensures !AgeOf(a', r).Old1? {
      assert r == o || AgeOf(a', r) == AgeOf(a, r);
    }
  }

  lemma FirstChanged(a: Ages, l: Lists, o: Ref, x: Age)
    requires l.reallyold <= |l.all| && FirstOk(a, l) && !x.Old1?
    ensures FirstOk(a[o := x], l)
  {
    hide Place;
  }

  /** The ages that barriers give agree with the places in the list. */
  lemma AgeChanged(b: Heap, b2: Heap, a: Ages, l: Lists, o: Ref, x: Age)
    requires ListOk(b, a, l) && o in a && b2.Keys == b.Keys
    requires if IsOld(a[o]) then x.Touched1? else x.Old0?
    ensures ListOk(b2, a[o := x], l)
  {
    hide PartsOk, FirstOk;
    PartsChanged(a, l, o, x);
    FirstChanged(a, l, o, x);
  }

  lemma BackAt(s: State, o: Ref, b: Heap, again: seq<Ref>, x: Ref)
    requires Shape(s) && SameKinds(s.body, b) && o in s.body && s.body[o].Block? && s.color[o].Black?
    requires forall r :: r in again <==> r in s.again || r == o
    ensures x in b ==> ColorAt(b, s.color[o := Gray], s.age[o := Touched1], s.gray, again, x)
    ensures x in again ==> InAgain(b, s.color[o := Gray], s.age[o := Touched1], x)
    ensures x in s.gray ==> InGray(b, s.color[o := Gray], s.age[o := Touched1], x) && x !in again
  {
    hide Shape, Once, Marked, Refs, AgesAt;
    BlackBlock(s, o);
    ShapeAt(s, o);
    ShapeAt(s, x);
  }

  lemma BackColors(s: State, o: Ref, b: Heap, again: seq<Ref>)
    requires Shape(s) && SameKinds(s.body, b) && o in s.body && s.body[o].Block? && s.color[o].Black?
    requires again == if s.age[o].Touched2? then s.again else [o] + s.again
    ensures GraysOk(b, s.color[o := Gray], s.age[o := Touched1], s.gray, again)
    ensures ColorsOk(b, s.color[o := Gray], s.age[o := Touched1], s.gray, again)
  {
    BlackBlock(s, o);
    assert Once(s.gray) && Once(again) && s.color.Keys == s.body.Keys && b.Keys == s.body.Keys;
    hide *;
    forall r ensures r in again <==> r in s.again || r == o {
    }
    forall x
      ensures x in b ==> x in s.color && ColorAt(b, s.color[o := Gray], s.age[o := Touched1], s.gray, again, x)
      ensures x in again ==> InAgain(b, s.color[o := Gray], s.age[o := Touched1], x)
      ensures x in s.gray ==> InGray(b, s.color[o := Gray], s.age[o := Touched1], x) && x !in again
    {
      BackAt(s, o, b, again, x);
    }
    ColorsAre(b, s.color[o := Gray], s.age[o := Touched1], s.gray, again);
  }

  lemma ColorsAre(b: Heap, c: Colors, a: Ages, gray: seq<Ref>, again: seq<Ref>)
    requires Once(gray) && Once(again) && b.Keys <= c.Keys
    requires forall o :: o in b ==> o in c && ColorAt(b, c, a, gray, again, o)
    requires forall o :: o in again ==> InAgain(b, c, a, o)
    requires forall o :: o in gray ==> InGray(b, c, a, o) && o !in again
    ensures GraysOk(b, c, a, gray, again) && ColorsOk(b, c, a, gray, again)
  {
  }

  lemma BackTricolor(s: State, o: Ref, v: Ptr, b: Heap, again: seq<Ref>)
    requires Traced(s) && Written(s, o, v, b) && o in s.color && s.color[o].Black?
    requires forall r :: r in again <==> r in s.again || r == o
    ensures Tricolor(b, s.color[o := Gray], s.age[o := Touched1], s.gray, again)
  {
    var m := Marked(s.color);
    assert Tricolor(s.body, s.color, s.age, s.gray, s.again);
    MarkedPut(s.color, o, Gray);
    assert o in m && m + {o} == m;
    hide Traced;
    forall x | x in m && x !in s.gray && x !in again && !AgeOf(s.age[o := Touched1], x).Old1? ensures Refs(b, x) <= m {
      assert Refs(s.body, x) <= m;
    }
  }

  lemma BackAges(s: State, o: Ref, v: Ptr, b: Heap)
    requires AgesOk(s.body, s.age) && Written(s, o, v, b) && IsOld(AgeOf(s.age, o))
    ensures AgesOk(b, s.age[o := Touched1])
  {
    forall x | x in b ensures AgesAt(b, s.age[o := Touched1], x) {
      assert AgesAt(s.body, s.age, x);
      BackAgesAt(s, o, v, b, x);
    }
  }

  lemma BackAgesAt(s: State, o: Ref, v: Ptr, b: Heap, x: Ref)
    requires AgesAt(s.body, s.age, x) && Written(s, o, v, b) && IsOld(AgeOf(s.age, o))
    ensures AgesAt(b, s.age[o := Touched1], x)
  {
  }

  lemma BackNew(s: State, o: Ref, v: Ptr, b: Heap)
    requires NoOldToNew(s.body, s.age) && Written(s, o, v, b) && IsOld(AgeOf(s.age, o))
    ensures NoOldToNew(b, s.age[o := Touched1])
  {
    var a2 := s.age[o := Touched1];
    forall x, r ensures !OldToNew(b, a2, x, r) {
      assert !OldToNew(s.body, s.age, x, r);
    }
  }

  lemma BackHeap(s: State, o: Ref, v: Ptr, b: Heap)
    requires Shape(s) && Written(s, o, v, b) && o in s.body
    ensures RootsOk(b, s.color[o := Gray], s.age[o := Touched1], s.main, s.roots) && Closed(b, b.Keys)
  {
    hide Shape;
    HeapWritten(s, o, v, b);
    ShapeFields(s);
    assert o != s.main;
    hide *;
    HeapRecolored(b, s.color, s.age, s.main, s.roots, s.color[o := Gray], s.age[o := Touched1]);
  }

  /**
   After the back barrier the object is gray, of age TOUCHED1 and listed, so that the next collection looks into
   it; whatever held of the heap before the store holds again.
   */
  lemma BackStore(s: State, o: Ref, drop: set<Ref>, v: Ptr)
    requires Traced(s) && Writable(s, o, v, false) && Hit(s, o, v)
    ensures var t := Store(s, o, drop, v, false);
            && t.color[o].Gray? && t.age[o].Touched1? && o in t.again
            && Traced(t) && (NoOldToNew(s.body, s.age) ==> NoOldToNew(t.body, t.age))
            && (AgesOk(s.body, s.age) ==> AgesOk(t.body, t.age))
  {
    var b := s.body[o := Stored(s.body[o], drop, v)];
    var t := Store(s, o, drop, v, false);
    WrittenIs(s, o, drop, v, false);
    BlackBlock(s, o);
    assert t.body == b && t.color == s.color[o := Gray] && t.age == s.age[o := Touched1] && t.gray == s.gray;
    assert t.again == (if s.age[o].Touched2? then s.again else [o] + s.again) && t.lists == s.lists;
    assert t.main == s.main && t.roots == s.roots && ListOk(s.body, s.age, s.lists) && SameKinds(s.body, b);
    assert forall r :: r in t.again <==> r in s.again || r == o;
    assert IsOld(AgeOf(s.age, o));
    hide *;
    AgeChanged(s.body, b, s.age, s.lists, o, Touched1);
    BackColors(s, o, b, t.again);
    BackTricolor(s, o, v, b, t.again);
    if AgesOk(s.body, s.age) { BackAges(s, o, v, b); }
    if NoOldToNew(s.body, s.age) { BackNew(s, o, v, b); }
    BackHeap(s, o, v, b);
    MutFold(t);
  }

  lemma MutFold(t: State)
    requires RootsOk(t.body, t.color, t.age, t.main, t.roots) && ListOk(t.body, t.age, t.lists)
    requires GraysOk(t.body, t.color, t.age, t.gray, t.again) && ColorsOk(t.body, t.color, t.age, t.gray, t.again)
    requires Tricolor(t.body, t.color, t.age, t.gray, t.again) && Closed(t.body, t.body.Keys)
    ensures Traced(t)
  {
  }

  // ---- The forward barrier ---------------------------------------------------------------------------

  /** What marking one object does to the colors 'c' and the gray list. */
  ghost predicate Spread(b: Heap, c: Colors, gray: seq<Ref>, c2: Colors, gray2: seq<Ref>)
  {
    && c2.Keys == c.Keys && Once(gray2)
    && (forall x :: x in c && !c[x].White? ==> c2[x] == c[x])
    && (forall x :: x in c && c[x].White? && !c2[x].White? ==>
          if Listed(b, x) then c2[x].Gray? else c2[x].Black? && Refs(b, x) <= Marked(c2))
    && (forall x :: x in gray2 <==> x in gray || (x in c && c[x].White? && c2[x].Gray?))
  }

  lemma {:induction false} MarkSpreads(b: Heap, c: Colors, gray: seq<Ref>, o: Ref)
    requires o in b && c.Keys == b.Keys && Closed(b, b.Keys) && c[o].White?
    requires Once(gray) && forall x :: x in gray ==> x in c && !c[x].White?
    ensures var (c2, gray2) := ReallyMark(b, c, gray, o);
            Spread(b, c, gray, c2, gray2) && !c2[o].White?
    decreases Whites(c) - {o}
  {
    match b[o]
    case Str =>
    case Inline(p) =>
      var c1 := c[o := Black];
      MarkedPut(c, o, Black);
      if p.To? && c1[p.r].White? {
        assert p.r in Refs(b, o) && p.r in Whites(c) - {o};
        MarkSpreads(b, c1, gray, p.r);
        var (c2, gray2) := ReallyMark(b, c1, gray, p.r);
        assert p.r in Marked(c2) && c2[o].Black?;
      } else {
        assert Refs(b, o) <= Marked(c1);
      }
    case _ =>
  }

  /** The ages after a forward barrier. */
  ghost predicate FwdAges(s: State, v: Ref, a2: Ages)
  {
    a2 == s.age || a2 == s.age[v := Old0]
  }

  lemma FwdAt(s: State, b: Heap, v: Ref, c2: Colors, gray2: seq<Ref>, a2: Ages, x: Ref)
    requires Shape(s) && SameKinds(s.body, b) && Spread(b, s.color, s.gray, c2, gray2) && FwdAges(s, v, a2)
    requires v in s.color && s.color[v].White? && !c2[v].White?
    ensures x in b ==> x in c2 && ColorAt(b, c2, a2, gray2, s.again, x)
    ensures x in s.again ==> InAgain(b, c2, a2, x)
    ensures x in gray2 ==> InGray(b, c2, a2, x) && x !in s.again
  {
    hide Shape, Once, Marked, Refs, AgesAt;
    ShapeAt(s, x);
    ShapeAt(s, v);
  }

  lemma FwdColors(s: State, b: Heap, v: Ref, c2: Colors, gray2: seq<Ref>, a2: Ages)
    requires Shape(s) && SameKinds(s.body, b) && Spread(b, s.color, s.gray, c2, gray2) && FwdAges(s, v, a2)
    requires v in s.color && s.color[v].White? && !c2[v].White?
    ensures GraysOk(b, c2, a2, gray2, s.again) && ColorsOk(b, c2, a2, gray2, s.again)
  {
    assert Once(gray2) && Once(s.again) && s.color.Keys == s.body.Keys && b.Keys == s.body.Keys;
    assert c2.Keys == s.color.Keys;
    hide *;
    forall x
      ensures x in b ==> x in c2 && ColorAt(b, c2, a2, gray2, s.again, x)
      ensures x in s.again ==> InAgain(b, c2, a2, x)
      ensures x in gray2 ==> InGray(b, c2, a2, x) && x !in s.again
    {
      FwdAt(s, b, v, c2, gray2, a2, x);
    }
    ColorsAre(b, c2, a2, gray2, s.again);
  }

  lemma FwdTricolor(s: State, o: Ref, v: Ref, b: Heap, c2: Colors, gray2: seq<Ref>, a2: Ages)
    requires Traced(s) && Written(s, o, To(v), b) && Spread(b, s.color, s.gray, c2, gray2) && FwdAges(s, v, a2)
    requires v in s.color && s.color[v].White? && !c2[v].White?
    ensures Tricolor(b, c2, a2, gray2, s.again)
  {
    assert Tricolor(s.body, s.color, s.age, s.gray, s.again) && s.color.Keys == s.age.Keys;
    assert v in c2;
    hide *;
    forall x ensures TricolorAt(b, c2, a2, gray2, s.again, x) {
      WrittenRefs(s, o, v, b, x);
      FwdTricolorAt(s, b, v, c2, gray2, a2, x);
    }
    TricolorFold(b, c2, a2, gray2, s.again);
  }

  lemma WrittenRefs(s: State, o: Ref, v: Ref, b: Heap, x: Ref)
    requires Written(s, o, To(v), b)
    ensures Refs(b, x) <= Refs(s.body, x) + {v}
  {
  }

  lemma FwdTricolorAt(s: State, b: Heap, v: Ref, c2: Colors, gray2: seq<Ref>, a2: Ages, x: Ref)
    requires Spread(b, s.color, s.gray, c2, gray2) && FwdAges(s, v, a2) && s.color.Keys == s.age.Keys
    requires Tricolor(s.body, s.color, s.age, s.gray, s.again) && v in s.color && s.color[v].White?
    requires v in c2 && !c2[v].White? && Refs(b, x) <= Refs(s.body, x) + {v}
    ensures TricolorAt(b, c2, a2, gray2, s.again, x)
  {
    hide *;
    TricolorIf(b, c2, a2, gray2, s.again, x);
    SpreadMarks(b, s.color, s.gray, c2, gray2);
    VMarked(c2, v);
    if x in Marked(c2) && x !in gray2 && x !in s.again && !AgeOf(a2, x).Old1? {
      if x in Marked(s.color) {
        FwdUnlisted(s, b, v, c2, gray2, a2, x);
      } else {
        FwdNew(b, s.color, s.gray, c2, gray2, x);
      }
    }
  }

  ghost predicate TricolorAt(b: Heap, c: Colors, a: Ages, gray: seq<Ref>, again: seq<Ref>, x: Ref)
  {
    x in Marked(c) && x !in gray && x !in again && !AgeOf(a, x).Old1? ==> Refs(b, x) <= Marked(c)
  }

  lemma TricolorIf(b: Heap, c: Colors, a: Ages, gray: seq<Ref>, again: seq<Ref>, x: Ref)
    ensures (x in Marked(c) && x !in gray && x !in again && !AgeOf(a, x).Old1? ==> Refs(b, x) <= Marked(c))
            ==> TricolorAt(b, c, a, gray, again, x)
  {
  }

  lemma TricolorFold(b: Heap, c: Colors, a: Ages, gray: seq<Ref>, again: seq<Ref>)
    requires forall x :: TricolorAt(b, c, a, gray, again, x)
    ensures Tricolor(b, c, a, gray, again)
  {
    forall x | x in Marked(c) && x !in gray && x !in again && !AgeOf(a, x).Old1? ensures Refs(b, x) <= Marked(c) {
      assert TricolorAt(b, c, a, gray, again, x);
    }
  }

  lemma VMarked(c: Colors, v: Ref)
    requires v in c && !c[v].White?
    ensures v in Marked(c)
  {
  }

  lemma SpreadMarks(b: Heap, c: Colors, gray: seq<Ref>, c2: Colors, gray2: seq<Ref>)
    requires Spread(b, c, gray, c2, gray2)
    ensures Marked(c) <= Marked(c2) && c2.Keys == c.Keys
  {
  }

  lemma FwdNew(b: Heap, c: Colors, gray: seq<Ref>, c2: Colors, gray2: seq<Ref>, x: Ref)
    requires Spread(b, c, gray, c2, gray2) && x in Marked(c2) && x !in Marked(c) && x !in gray2
    ensures Refs(b, x) <= Marked(c2)
  {
  }

  lemma FwdUnlisted(s: State, b: Heap, v: Ref, c2: Colors, gray2: seq<Ref>, a2: Ages, x: Ref)
    requires Spread(b, s.color, s.gray, c2, gray2) && FwdAges(s, v, a2) && s.color.Keys == s.age.Keys
    requires Tricolor(s.body, s.color, s.age, s.gray, s.again) && v in s.color && s.color[v].White?
    requires x in Marked(s.color) && x !in gray2 && x !in s.again && !AgeOf(a2, x).Old1?
    ensures Refs(s.body, x) <= Marked(s.color)
  {
    assert x !in s.gray && x != v;
  }

  lemma FwdAgesOk(s: State, o: Ref, v: Ref, b: Heap)
    requires AgesOk(s.body, s.age) && Written(s, o, To(v), b) && v in s.age && o in s.age
    ensures AgesOk(b, if IsOld(s.age[o]) then s.age[v := Old0] else s.age)
  {
    var a2 := if IsOld(s.age[o]) then s.age[v := Old0] else s.age;
    forall x | x in b ensures AgesAt(b, a2, x) {
      FwdAgeAt(s, o, v, b, x);
    }
  }

  lemma FwdNewOk(s: State, o: Ref, v: Ref, b: Heap)
    requires NoOldToNew(s.body, s.age) && Written(s, o, To(v), b) && v in s.age && o in s.age
    ensures NoOldToNew(b, if IsOld(s.age[o]) then s.age[v := Old0] else s.age)
  {
    var a2 := if IsOld(s.age[o]) then s.age[v := Old0] else s.age;
    forall x, r ensures !OldToNew(b, a2, x, r) {
      assert !OldToNew(s.body, s.age, x, r);
    }
  }

  lemma FwdAgeAt(s: State, o: Ref, v: Ref, b: Heap, x: Ref)
    requires AgesOk(s.body, s.age) && Written(s, o, To(v), b) && v in s.age && o in s.age && x in b
    ensures AgesAt(b, if IsOld(s.age[o]) then s.age[v := Old0] else s.age, x)
  {
    assert AgesAt(s.body, s.age, x) && IsThread(s.body, x) == IsThread(b, x);
    assert Refs(b, x) <= Refs(s.body, x) + if x == o then {v} else {};
    hide AgesOk, Written;
  }

  lemma FwdHeap(s: State, o: Ref, v: Ref, b: Heap, c2: Colors, a2: Ages)
    requires Shape(s) && Written(s, o, To(v), b) && v in s.body && c2.Keys == s.color.Keys && FwdAges(s, v, a2)
    ensures RootsOk(b, c2, a2, s.main, s.roots) && Closed(b, b.Keys)
  {
    HeapWritten(s, o, To(v), b);
    assert v in s.age && s.main in s.age && IsOld(s.age[s.main]);
    hide *;
    FwdAgeKeys(s, v, a2);
    HeapRecolored(b, s.color, s.age, s.main, s.roots, c2, a2);
  }

  lemma FwdAgeKeys(s: State, v: Ref, a2: Ages)
    requires FwdAges(s, v, a2) && v in s.age && s.main in s.age && IsOld(s.age[s.main])
    ensures a2.Keys == s.age.Keys && IsOld(a2[s.main])
  {
  }

  lemma HeapRecolored(b: Heap, c: Colors, a: Ages, main: Ref, roots: set<Ref>, c2: Colors, a2: Ages)
    requires RootsOk(b, c, a, main, roots) && c2.Keys == c.Keys && a2.Keys == a.Keys && main in a2 && IsOld(a2[main])
    ensures RootsOk(b, c2, a2, main, roots)
  {
  }

  lemma YoungAt(s: State, v: Ref)
    requires Shape(s) && v in s.body && s.color[v].White?
    ensures !IsOld(s.age[v])
  {
    assert ColorAt(s.body, s.color, s.age, s.gray, s.again, v);
  }

  lemma GrayMarked(s: State)
    requires Shape(s)
    ensures Once(s.gray) && forall x :: x in s.gray ==> x in s.color && !s.color[x].White?
  {
  }

  /**
   After the forward barrier the object stored is marked, and of age OLD0 if the other is old; whatever held of
   the heap before the store holds again.
   */
  lemma ForwardStore(s: State, o: Ref, drop: set<Ref>, v: Ptr)
    requires Traced(s) && Writable(s, o, v, true) && Hit(s, o, v)
    ensures var t := Store(s, o, drop, v, true);
            && v.r in t.color && !t.color[v.r].White? && (IsOld(s.age[o]) ==> t.age[v.r].Old0?)
            && Traced(t) && (NoOldToNew(s.body, s.age) ==> NoOldToNew(t.body, t.age))
            && (AgesOk(s.body, s.age) ==> AgesOk(t.body, t.age))
  {
    var b := s.body[o := Stored(s.body[o], drop, v)];
    var t := Store(s, o, drop, v, true);
    WrittenIs(s, o, drop, v, true);
    var (c2, gray2) := ReallyMark(b, s.color, s.gray, v.r);
    var a2 := if IsOld(s.age[o]) then s.age[v.r := Old0] else s.age;
    assert t == s.(body := b, color := c2, gray := gray2, age := a2);
    assert ListOk(s.body, s.age, s.lists) && SameKinds(s.body, b) && FwdAges(s, v.r, a2) && s.color[v.r].White?;
    HeapWritten(s, o, v, b);
    GrayMarked(s);
    assert Closed(b, b.Keys) && s.color.Keys == b.Keys;
    hide *;
    MarkSpreads(b, s.color, s.gray, v.r);
    SpreadKeys(b, s.color, s.gray, c2, gray2);
    YoungAt(s, v.r);
    if IsOld(s.age[o]) {
      AgeChanged(s.body, b, s.age, s.lists, v.r, Old0);
    } else {
      ListSame(s.body, b, s.age, s.lists);
    }
    FwdColors(s, b, v.r, c2, gray2, a2);
    FwdTricolor(s, o, v.r, b, c2, gray2, a2);
    if AgesOk(s.body, s.age) { FwdAgesOk(s, o, v.r, b); }
    if NoOldToNew(s.body, s.age) { FwdNewOk(s, o, v.r, b); }
    FwdHeap(s, o, v.r, b, c2, a2);
    MutFold(t);
  }

  lemma SpreadKeys(b: Heap, c: Colors, gray: seq<Ref>, c2: Colors, gray2: seq<Ref>)
    requires Spread(b, c, gray, c2, gray2)
    ensures c2.Keys == c.Keys
  {
  }

  lemma ListSame(b: Heap, b2: Heap, a: Ages, l: Lists)
    requires ListOk(b, a, l) && b2.Keys == b.Keys
    ensures ListOk(b2, a, l)
  {
  }

  /**
   Whatever is stored, with its barrier a store leaves the next collection safe; it keeps the invariant if and
   only if it is not one that the barrier misses, and the ages of lgc.h if and only if they allow it.
   */
  lemma StoreKeeps(s: State, o: Ref, drop: set<Ref>, v: Ptr, forward: bool)
    requires Traced(s) && Writable(s, o, v, forward)
    ensures var t := Store(s, o, drop, v, forward);
            && Traced(t) && (Inv(s) ==> (Inv(t) <==> !Misses(s, o, v)))
            && (AgesOk(s.body, s.age) ==> (AgesOk(t.body, t.age) <==> StoreSafe(s, o, v)))
  {
    if Hit(s, o, v) {
      if forward { ForwardStore(s, o, drop, v); } else { BackStore(s, o, drop, v); }
    } else {
      var b := s.body[o := Stored(s.body[o], drop, v)];
      WrittenIs(s, o, drop, v, forward);
      PlainStore(s, o, v, b);
      hide Traced, Shape, AgesOk, NoOldToNew, Written;
      TracedShape(s);
      if AgesOk(s.body, s.age) { AgesWritten(s, o, v, b); }
      if NoOldToNew(s.body, s.age) { NewWritten(s, o, v, b); }
    }
  }

  lemma TracedShape(s: State)
    requires Traced(s)
    ensures Shape(s)
  {
  }

  // ---- Young objects that are marked -----------------------------------------------------------------

  /** The forward barrier marks a closed upvalue, or userdata without user values, and a white object with it. */
  predicate Exposes(s: State, o: Ref, v: Ptr, forward: bool)
  {
    && forward && Hit(s, o, v) && v.r in s.body && s.body[v.r].Inline?
    && var p := s.body[v.r].content;
    p.To? && p.r != v.r && p.r in s.color && s.color[p.r].White?
  }

  /** As long as no young object is marked, the barriers miss no store. */
  lemma AllSafe(s: State, o: Ref, v: Ptr)
    requires YoungWhite(s.color, s.age) && (v.To? ==> v.r in s.color)
    ensures StoreSafe(s, o, v) && !Misses(s, o, v)
  {
  }

  lemma OnlyOneMarked(b: Heap, c: Colors, gray: seq<Ref>, v: Ref)
    requires v in b && v in c && c.Keys == b.Keys
    requires b[v].Inline? && b[v].content.To? ==> var r := b[v].content.r; !(r != v && r in c && c[r].White?)
    ensures ReallyMark(b, c, gray, v).0 == c[v := if Listed(b, v) then Gray else Black]
  {
  }

  /** Only such a barrier leaves a young object marked. */
  lemma StoreExposes(s: State, o: Ref, drop: set<Ref>, v: Ptr, forward: bool)
    requires Shape(s) && YoungWhite(s.color, s.age) && Writable(s, o, v, forward)
    ensures var t := Store(s, o, drop, v, forward);
            YoungWhite(t.color, t.age) <==> !Exposes(s, o, v, forward)
  {
    if Hit(s, o, v) && forward {
      ForwardExposes(s, o, drop, v);
    }
  }

  lemma ForwardExposes(s: State, o: Ref, drop: set<Ref>, v: Ptr)
    requires Shape(s) && YoungWhite(s.color, s.age) && Writable(s, o, v, true) && Hit(s, o, v)
    ensures var t := Store(s, o, drop, v, true);
            YoungWhite(t.color, t.age) <==> !Exposes(s, o, v, true)
  {
    var b := s.body[o := Stored(s.body[o], drop, v)];
    var t := Store(s, o, drop, v, true);
    WrittenIs(s, o, drop, v, true);
    HeapWritten(s, o, v, b);
    assert Closed(b, b.Keys) && s.color.Keys == b.Keys && IsOld(s.age[o]) && b[v.r] == s.body[v.r];
    GrayMarked(s);
    YoungAt(s, v.r);
    hide Shape, Closed, Once;
    if Exposes(s, o, v, true) {
      var r := s.body[v.r].content.r;
      ContentMarked(b, s.color, s.gray, v.r);
      YoungAt(s, r);
      assert AgeOf(t.age, r) == AgeOf(s.age, r);
    } else {
      OnlyOneMarked(b, s.color, s.gray, v.r);
    }
  }

  lemma ContentMarked(b: Heap, c: Colors, gray: seq<Ref>, v: Ref)
    requires v in b && b[v].Inline? && b[v].content.To? && c.Keys == b.Keys && Closed(b, b.Keys) && c[v].White?
    requires b[v].content.r != v && b[v].content.r in c
    requires Once(gray) && forall x :: x in gray ==> x in c && !c[x].White?
    ensures var r := b[v].content.r;
            r in ReallyMark(b, c, gray, v).0 && !ReallyMark(b, c, gray, v).0[r].White?
  {
    var c1 := c[v := Black];
    var r := b[v].content.r;
    if c[r].White? {
      assert r in Whites(c) - {v};
      MarkSpreads(b, c1, gray, r);
    }
  }

  // ---- The barriers on the collector -----------------------------------------------------------------

  /** luaC_barrierback_ */
  method BackBarrier(g: Collector, o: Ref)
    requires o in g.color && o in g.age
    modifies g`color, g`age, g`grayagain
    ensures StateOf(g) == BarrierBack(old(StateOf(g)), o)
  {
    if !g.age[o].Touched2? {
      g.grayagain := [o] + g.grayagain;
    }
    g.color := g.color[o := Gray];
    if IsOld(g.age[o]) {
      g.age := g.age[o := Touched1];
    }
  }

  /** luaC_barrier_ */
  method ForwardBarrier(g: Collector, o: Ref, v: Ref)
    requires o in g.age && v in g.body
    modifies g`color, g`age, g`gray
    ensures StateOf(g) == BarrierForward(old(StateOf(g)), o, v)
  {
    ReallyMarkObject(g, v);
    if IsOld(g.age[o]) {
      g.age := g.age[v := Old0];
    }
  }

  /** A store with its barrier. */
  method StoreObject(g: Collector, o: Ref, drop: set<Ref>, v: Ptr, forward: bool)
    requires Writable(StateOf(g), o, v, forward)
    modifies g`body, g`color, g`age, g`gray, g`grayagain
    ensures StateOf(g) == Store(old(StateOf(g)), o, drop, v, forward)
  {
    hide ReallyMark, Stored;
    ghost var s := StateOf(g);
    g.body := g.body[o := Stored(g.body[o], drop, v)];
    if v.To? && g.color[o].Black? && g.color[v.r].White? {
      if forward {
        ForwardBarrier(g, o, v.r);
      } else {
        BackBarrier(g, o);
      }
    }
  }
}
