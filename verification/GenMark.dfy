/** Marking in generational mode: the ages that advance while marking, and what it leaves in 'grayagain'. */
module GenMark {
  import opened GenHeap

  ghost function Whites(c: Colors): set<Ref>
  {
    set o | o in c && c[o].White?
  }

  /** reallymarkobject */
  function ReallyMark(b: Heap, c: Colors, gray: seq<Ref>, o: Ref): (Colors, seq<Ref>)
    requires o in b
    decreases Whites(c) - {o}
  {
    match b[o]
    case Str => (c[o := Black], gray)
    case Inline(p) =>
      var c1 := c[o := Black];
      if p.To? && p.r in b && p.r in c1 && c1[p.r].White? then
        assert p.r in Whites(c) - {o};
        ReallyMark(b, c1, gray, p.r)
      else (c1, gray)
    case _ => (c[o := Gray], [o] + gray)
  }

  // ---- The invariant of marking ----------------------------------------------------------------------

  /** This object stays in 'grayagain' once it is traversed. */
  predicate Stays(b: Heap, a: Ages, o: Ref)
  {
    o in b && (if b[o].Thread? then IsOld(AgeOf(a, o)) else b[o].Block? && AgeOf(a, o).Touched1?)
  }

  /** The marked object 'o' needs no more work. */
  ghost predicate Done(b: Heap, c: Colors, a: Ages, again: seq<Ref>, o: Ref)
    requires o in c
  {
    && Refs(b, o) <= Marked(c) && !AgeOf(a, o).Touched2?
    && (if Stays(b, a, o) then o in again else c[o].Black? && o !in again && !Touched(AgeOf(a, o)))
  }

  /** What is known of 'o': white objects are young; marked ones are to be traversed, or are done. */
  ghost predicate At(b: Heap, c: Colors, a: Ages, gray: seq<Ref>, again: seq<Ref>, todo: set<Ref>, o: Ref)
    requires o in c
  {
    if c[o].White? then !IsOld(AgeOf(a, o)) && o !in gray && o !in again && o !in todo
    else o in gray || o in todo || Done(b, c, a, again, o)
  }

  ghost predicate Domains(b: Heap, c: Colors, a: Ages)
  {
    && c.Keys == b.Keys && a.Keys == b.Keys && Closed(b, b.Keys)
    && forall o :: o in b && Touched(AgeOf(a, o)) ==> b[o].Block?
  }

  ghost predicate GrayOk(b: Heap, c: Colors, gray: seq<Ref>, again: seq<Ref>, todo: set<Ref>)
  {
    && Once(gray) && todo <= b.Keys
    && forall o :: o in gray ==> Listed(b, o) && o in c && !c[o].White? && o !in again && o !in todo
  }

  ghost predicate AgainOk(b: Heap, c: Colors, a: Ages, again: seq<Ref>)
  {
    Once(again) && forall o :: o in again ==> Stays(b, a, o) && o in c && c[o].Gray?
  }

  /**
   The invariant of marking, with the objects of 'todo' still to be looked at besides those in the gray list.
   */
  ghost predicate MarkInv(b: Heap, c: Colors, a: Ages, gray: seq<Ref>, again: seq<Ref>, todo: set<Ref>)
  {
    && Domains(b, c, a) && GrayOk(b, c, gray, again, todo) && AgainOk(b, c, a, again)
    && forall o :: o in c ==> At(b, c, a, gray, again, todo, o)
  }

  /** Nothing is marked outside the closed set 'up'. */
  ghost predicate Within(b: Heap, c: Colors, up: set<Ref>)
  {
    Marked(c) <= up && Closed(b, up)
  }

  /** An object that marking may start from: white, or an old one that must be traversed in this collection. */
  ghost predicate Fresh(c: Colors, a: Ages, again: seq<Ref>, todo: set<Ref>, o: Ref)
  {
    o in c && (c[o].White? || (o in todo && c[o].Black? && o !in again && !Touched(AgeOf(a, o))))
  }

  lemma MarkedPut(c: Colors, o: Ref, k: Color)
    requires !k.White?
    ensures Marked(c[o := k]) == Marked(c) + {o}
  {
  }

  lemma PaintBlack(b: Heap, c: Colors, a: Ages, gray: seq<Ref>, again: seq<Ref>, todo: set<Ref>, o: Ref)
    requires MarkInv(b, c, a, gray, again, todo) && Fresh(c, a, again, todo, o) && o !in gray
    ensures MarkInv(b, c[o := Black], a, gray, again, todo + {o})
  {
    MarkedPut(c, o, Black);
    forall x | x in c ensures At(b, c[o := Black], a, gray, again, todo + {o}, x) {
      assert At(b, c, a, gray, again, todo, x);
    }
  }

  lemma PaintGray(b: Heap, c: Colors, a: Ages, gray: seq<Ref>, again: seq<Ref>, todo: set<Ref>, o: Ref)
    requires MarkInv(b, c, a, gray, again, todo) && Fresh(c, a, again, todo, o) && Listed(b, o)
    ensures MarkInv(b, c[o := Gray], a, [o] + gray, again, todo - {o})
  {
    MarkedPut(c, o, Gray);
    assert At(b, c, a, gray, again, todo, o);
    forall x | x in c ensures At(b, c[o := Gray], a, [o] + gray, again, todo - {o}, x) {
      assert At(b, c, a, gray, again, todo, x);
      assert x in gray ==> x in [o] + gray;
      assert o in [o] + gray;
    }
  }

  lemma Settle(b: Heap, c: Colors, a: Ages, gray: seq<Ref>, again: seq<Ref>, todo: set<Ref>, o: Ref)
    requires MarkInv(b, c, a, gray, again, todo) && o in c && Done(b, c, a, again, o)
    ensures MarkInv(b, c, a, gray, again, todo - {o})
  {
    forall x | x in c ensures At(b, c, a, gray, again, todo - {o}, x) {
      assert At(b, c, a, gray, again, todo, x);
    }
  }

  /** Marking an object keeps the invariant. */
  lemma {:induction false} MarkKeeps(b: Heap, c: Colors, a: Ages, gray: seq<Ref>, again: seq<Ref>, todo: set<Ref>,
                                     up: set<Ref>, o: Ref)
    requires MarkInv(b, c, a, gray, again, todo) && Within(b, c, up) && o in b && o in up
    requires Fresh(c, a, again, todo, o) && !Touched(AgeOf(a, o))
    ensures var (c', gray') := ReallyMark(b, c, gray, o);
            && MarkInv(b, c', a, gray', again, todo - {o}) && Within(b, c', up) && Marked(c) + {o} <= Marked(c')
            && forall x :: x in c && x != o && !c[x].White? ==> c'[x] == c[x]
    decreases Whites(c) - {o}
  {
    assert At(b, c, a, gray, again, todo, o);
    match b[o]
    case Str =>
      MarkedPut(c, o, Black);
      PaintBlack(b, c, a, gray, again, todo, o);
      Settle(b, c[o := Black], a, gray, again, todo + {o}, o);
      assert todo + {o} - {o} == todo - {o};
    case Inline(p) =>
      MarkedPut(c, o, Black);
      PaintBlack(b, c, a, gray, again, todo, o);
      var c1 := c[o := Black];
      if p.To? && c1[p.r].White? {
        assert p.r in Whites(c) - {o} && p.r in Refs(b, o);
        assert At(b, c1, a, gray, again, todo + {o}, p.r);
        MarkKeeps(b, c1, a, gray, again, todo + {o}, up, p.r);
        var (c', gray') := ReallyMark(b, c1, gray, p.r);
        assert todo + {o} - {p.r} == todo + {o};
        Settle(b, c', a, gray', again, todo + {o}, o);
      } else {
        assert Refs(b, o) <= Marked(c1);
        Settle(b, c1, a, gray, again, todo + {o}, o);
      }
      assert todo + {o} - {o} == todo - {o};
    case _ =>
      MarkedPut(c, o, Gray);
      PaintGray(b, c, a, gray, again, todo, o);
  }

  // ---- Marking ---------------------------------------------------------------------------------------

  /** The heap 'b' is 'body' as far as marking looks at it: only into objects that are white or gray. */
  ghost predicate SeenAs(b: Heap, body: Heap, c: Colors)
  {
    b.Keys == body.Keys && forall o :: o in b ==> b[o] == body[o] || (b[o].Str? && o in Marked(c))
  }

  ghost predicate GInv(g: Collector, b: Heap, todo: set<Ref>, up: set<Ref>)
    reads g`body, g`color, g`age, g`gray, g`grayagain
  {
    MarkInv(b, g.color, g.age, g.gray, g.grayagain, todo) && Within(b, g.color, up) && SeenAs(b, g.body, g.color)
  }

  lemma SeenMore(b: Heap, body: Heap, c: Colors, c2: Colors)
    requires SeenAs(b, body, c) && Marked(c) <= Marked(c2)
    ensures SeenAs(b, body, c2)
  {
  }

  /** Marking looks at white objects only. */
  lemma {:induction false} SameMark(b: Heap, body: Heap, c: Colors, c0: Colors, gray: seq<Ref>, o: Ref)
    requires SeenAs(b, body, c0) && Marked(c0) <= Marked(c) && c.Keys <= b.Keys && o in b && b[o] == body[o]
    ensures ReallyMark(body, c, gray, o) == ReallyMark(b, c, gray, o)
    decreases Whites(c) - {o}
  {
    if b[o].Inline? && b[o].content.To? && b[o].content.r in b {
      var r, c1 := b[o].content.r, c[o := Black];
      MarkedPut(c, o, Black);
      if r in c1 && c1[r].White? {
        assert r in Whites(c) - {o} && r !in Marked(c1);
        SameMark(b, body, c1, c0, gray, r);
      }
    }
  }

  /** reallymarkobject */
  method ReallyMarkObject(g: Collector, o: Ref)
    requires o in g.body
    modifies g`color, g`gray
    ensures (g.color, g.gray) == ReallyMark(g.body, old(g.color), old(g.gray), o)
    decreases Whites(g.color) - {o}
  {
    match g.body[o]
    case Str =>
      g.color := g.color[o := Black];
    case Inline(p) =>
      g.color := g.color[o := Black];
      if p.To? && p.r in g.body && p.r in g.color && g.color[p.r].White? {
        assert p.r in old(Whites(g.color)) - {o};
        ReallyMarkObject(g, p.r);
      }
    case _ =>
      g.color, g.gray := g.color[o := Gray], [o] + g.gray;
  }

  lemma MarkWhite(b: Heap, body: Heap, c: Colors, a: Ages, gray: seq<Ref>, again: seq<Ref>, todo: set<Ref>,
                  up: set<Ref>, o: Ref)
    requires MarkInv(b, c, a, gray, again, todo) && Within(b, c, up) && SeenAs(b, body, c)
    requires o in body && o in up && o in c && c[o].White?
    ensures var (c2, gray2) := ReallyMark(body, c, gray, o);
            && MarkInv(b, c2, a, gray2, again, todo) && Within(b, c2, up) && SeenAs(b, body, c2)
            && Marked(c) < Marked(c2) && o in Marked(c2) && forall x :: x in Marked(c) ==> c2[x] == c[x]
  {
    assert At(b, c, a, gray, again, todo, o) && o !in Marked(c);
    MarkKeeps(b, c, a, gray, again, todo, up, o);
    assert todo - {o} == todo;
    SameMark(b, body, c, c, gray, o);
    SeenMore(b, body, c, ReallyMark(b, c, gray, o).0);
  }

  /** markobject */
  method MarkObject(g: Collector, ghost b: Heap, ghost todo: set<Ref>, ghost up: set<Ref>, o: Ref)
    requires GInv(g, b, todo, up) && o in g.body && o in g.color && o in up
    modifies g`color, g`gray
    ensures GInv(g, b, todo, up) && old(Marked(g.color)) + {o} <= Marked(g.color)
    ensures Marked(g.color) == old(Marked(g.color)) ==> g.gray == old(g.gray)
    ensures forall x :: x in old(Marked(g.color)) ==> x in g.color && g.color[x] == old(g.color)[x]
  {
    hide MarkInv, Within, SeenAs, ReallyMark;
    if g.color[o].White? {
      MarkWhite(b, g.body, g.color, g.age, g.gray, g.grayagain, todo, up, o);
      ReallyMarkObject(g, o);
    }
  }

  method MarkSet(g: Collector, ghost b: Heap, ghost todo: set<Ref>, ghost up: set<Ref>, rs: set<Ref>)
    requires GInv(g, b, todo, up) && rs <= g.body.Keys && rs <= up && g.body.Keys <= g.color.Keys
    modifies g`color, g`gray
    ensures GInv(g, b, todo, up) && old(Marked(g.color)) + rs <= Marked(g.color)
    ensures Marked(g.color) == old(Marked(g.color)) ==> g.gray == old(g.gray)
    ensures forall x :: x in old(Marked(g.color)) ==> x in g.color && g.color[x] == old(g.color)[x]
  {
    hide GInv;
    var left := rs;
    while left != {}
      invariant GInv(g, b, todo, up) && left <= rs && old(Marked(g.color)) + (rs - left) <= Marked(g.color)
      invariant Marked(g.color) == old(Marked(g.color)) ==> g.gray == old(g.gray)
      invariant forall x :: x in old(Marked(g.color)) ==> x in g.color && g.color[x] == old(g.color)[x]
      invariant g.body.Keys <= g.color.Keys
    {
      var r: nat :| r in left;
      MarkObject(g, b, todo, up, r);
      GKeys(g, b, todo, up);
      left := left - {r};
    }
  }

  lemma GKeys(g: Collector, b: Heap, todo: set<Ref>, up: set<Ref>)
    requires GInv(g, b, todo, up)
    ensures g.body.Keys == b.Keys == g.color.Keys == g.age.Keys
  {
  }

  lemma Take(b: Heap, c: Colors, a: Ages, gray: seq<Ref>, again: seq<Ref>, todo: set<Ref>)
    requires MarkInv(b, c, a, gray, again, todo) && gray != []
    ensures MarkInv(b, c[gray[0] := Black], a, gray[1..], again, todo + {gray[0]})
    ensures gray[0] !in again && gray[0] !in todo && Listed(b, gray[0]) && Marked(c[gray[0] := Black]) == Marked(c)
  {
    var o := gray[0];
    assert o in gray;
    MarkedPut(c, o, Black);
    assert gray == [o] + gray[1..];
    forall x | x in c ensures At(b, c[o := Black], a, gray[1..], again, todo + {o}, x) {
      assert At(b, c, a, gray, again, todo, x);
    }
  }

  /** An object being traversed goes to 'grayagain'. */
  lemma LinkAgain(b: Heap, c: Colors, a: Ages, gray: seq<Ref>, again: seq<Ref>, todo: set<Ref>, o: Ref)
    requires MarkInv(b, c, a, gray, again, todo) && o in todo && o !in again && Stays(b, a, o)
    ensures MarkInv(b, c[o := Gray], a, gray, [o] + again, todo) && Marked(c[o := Gray]) == Marked(c)
  {
    assert At(b, c, a, gray, again, todo, o);
    MarkedPut(c, o, Gray);
    forall x | x in c ensures At(b, c[o := Gray], a, gray, [o] + again, todo, x) {
      assert At(b, c, a, gray, again, todo, x);
    }
  }

  /** An old object still to be looked at gets older. */
  lemma Aged(b: Heap, c: Colors, a: Ages, gray: seq<Ref>, again: seq<Ref>, todo: set<Ref>, o: Ref)
    requires MarkInv(b, c, a, gray, again, todo) && o in todo && o in a && IsOld(a[o]) && !a[o].Touched1?
    ensures MarkInv(b, c, a[o := Old], gray, again, todo)
  {
    forall x | x in c ensures At(b, c, a[o := Old], gray, again, todo, x) {
      assert At(b, c, a, gray, again, todo, x);
    }
  }

  /** genlink: touched objects stay for the next collection, or become old. */
  method GenLink(g: Collector, ghost b: Heap, ghost todo: set<Ref>, o: Ref)
    requires MarkInv(b, g.color, g.age, g.gray, g.grayagain, todo) && o in todo && o in b && o in g.age && o in g.color
    requires b[o].Block? && o !in g.grayagain && Refs(b, o) <= Marked(g.color) && g.color[o].Black?
    modifies g`color, g`age, g`grayagain
    ensures MarkInv(b, g.color, g.age, g.gray, g.grayagain, todo - {o}) && Marked(g.color) == old(Marked(g.color))
    ensures g.age == if old(g.age[o]).Touched2? then old(g.age)[o := Old] else old(g.age)
    ensures g.grayagain == if old(g.age[o]).Touched1? then [o] + old(g.grayagain) else old(g.grayagain)
  {
    if g.age[o].Touched1? {
      LinkAgain(b, g.color, g.age, g.gray, g.grayagain, todo, o);
      g.color, g.grayagain := g.color[o := Gray], [o] + g.grayagain;
      assert o in g.grayagain;
    } else if g.age[o].Touched2? {
      Aged(b, g.color, g.age, g.gray, g.grayagain, todo, o);
      g.age := g.age[o := Old];
    }
    Settle(b, g.color, g.age, g.gray, g.grayagain, todo, o);
  }

  /** The age that marking leaves to an object it traverses. */
  ghost predicate Older(a: Ages, a': Ages)
  {
    a'.Keys == a.Keys && forall o :: o in a ==> a'[o] == a[o] || (a[o].Touched2? && a'[o].Old?)
  }

  /** An object taken from the gray list: an old thread goes to 'grayagain' right away. */
  ghost predicate Taken(b: Heap, body: Heap, c: Colors, a: Ages, again: seq<Ref>, todo: set<Ref>, o: Ref)
  {
    && o in body && o in b && b[o] == body[o] && o in a && o in Marked(c) && o !in todo && Listed(b, o)
    && todo !! Elems(again)
    && if IsThread(b, o) && IsOld(a[o]) then o in again else o !in again && c[o].Black?
  }

  lemma TakenIs(b: Heap, body: Heap, c: Colors, a: Ages, gray: seq<Ref>, again: seq<Ref>, todo: set<Ref>)
    requires MarkInv(b, c, a, gray, again, todo) && SeenAs(b, body, c) && gray != [] && todo !! Elems(again)
    ensures var o, c1 := gray[0], c[gray[0] := Black];
            && o in body && o in b && o in a && b[o] == body[o] && SeenAs(b, body, c1) && Marked(c1) == Marked(c)
            && MarkInv(b, c1, a, gray[1..], again, todo + {o})
            && if IsThread(b, o) && IsOld(a[o]) then
                 && MarkInv(b, c1[o := Gray], a, gray[1..], [o] + again, todo + {o})
                 && Taken(b, body, c1[o := Gray], a, [o] + again, todo, o)
                 && SeenAs(b, body, c1[o := Gray]) && Marked(c1[o := Gray]) == Marked(c)
               else Taken(b, body, c1, a, again, todo, o)
  {
    var o := gray[0];
    assert o in gray;
    Take(b, c, a, gray, again, todo);
    assert o in a && o in Marked(c) && todo !! Elems([o] + again);
    hide MarkInv, Once;
    if IsThread(b, o) && IsOld(a[o]) {
      LinkAgain(b, c[o := Black], a, gray[1..], again, todo + {o}, o);
    }
  }

  method TakeGray(g: Collector, ghost b: Heap, ghost todo: set<Ref>, ghost up: set<Ref>) returns (o: Ref)
    requires GInv(g, b, todo, up) && g.gray != [] && todo !! Elems(g.grayagain)
    modifies g`color, g`gray, g`grayagain
    ensures GInv(g, b, todo + {o}, up) && Taken(b, g.body, g.color, g.age, g.grayagain, todo, o)
    ensures Marked(g.color) == old(Marked(g.color)) && |g.gray| == |old(g.gray)| - 1
  {
    TakenIs(b, g.body, g.color, g.age, g.gray, g.grayagain, todo);
    hide MarkInv, SeenAs, Taken, Marked, Elems, IsOld;
    o := g.gray[0];
    g.color, g.gray := g.color[o := Black], g.gray[1..];
    if g.body[o].Thread? && IsOld(g.age[o]) {
      g.color, g.grayagain := g.color[o := Gray], [o] + g.grayagain;
    }
  }

  lemma TakenRefs(g: Collector, b: Heap, todo: set<Ref>, up: set<Ref>, o: Ref)
    requires GInv(g, b, todo + {o}, up) && Taken(b, g.body, g.color, g.age, g.grayagain, todo, o)
    ensures o in g.body && RefsOf(g.body[o]) <= g.body.Keys && RefsOf(g.body[o]) <= up && g.body.Keys <= g.color.Keys
    ensures o in Marked(g.color)
  {
    InUp(b, g.color, g.age, g.gray, g.grayagain, todo + {o}, up, o);
  }

  lemma TakenKept(b: Heap, body: Heap, c: Colors, c2: Colors, a: Ages, again: seq<Ref>, todo: set<Ref>, o: Ref)
    requires Taken(b, body, c, a, again, todo, o) && Marked(c) <= Marked(c2)
    requires forall x :: x in Marked(c) ==> x in c2 && c2[x] == c[x]
    ensures Taken(b, body, c2, a, again, todo, o)
  {
  }

  /** An object taken from the gray list is done once all its references are marked. */
  method Traverse(g: Collector, ghost b: Heap, o: Ref, ghost todo: set<Ref>, ghost up: set<Ref>)
    requires GInv(g, b, todo + {o}, up) && Taken(b, g.body, g.color, g.age, g.grayagain, todo, o)
    modifies g`color, g`age, g`gray, g`grayagain
    ensures GInv(g, b, todo, up) && todo !! Elems(g.grayagain) && Older(old(g.age), g.age)
    ensures old(Marked(g.color)) <= Marked(g.color)
    ensures Marked(g.color) == old(Marked(g.color)) ==> g.gray == old(g.gray)
  {
    ghost var c := g.color;
    TakenRefs(g, b, todo, up, o);
    assert forall x :: x in Marked(c) ==> x in c;
    hide *;
    MarkSet(g, b, todo + {o}, up, RefsOf(g.body[o]));
    TakenKept(b, g.body, c, g.color, g.age, g.grayagain, todo, o);
    Leave(g, b, o, todo, up);
  }

  method Leave(g: Collector, ghost b: Heap, o: Ref, ghost todo: set<Ref>, ghost up: set<Ref>)
    requires GInv(g, b, todo + {o}, up) && Taken(b, g.body, g.color, g.age, g.grayagain, todo, o)
    requires o in g.body && RefsOf(g.body[o]) <= Marked(g.color)
    modifies g`color, g`age, g`grayagain
    ensures GInv(g, b, todo, up) && todo !! Elems(g.grayagain) && Older(old(g.age), g.age)
    ensures Marked(g.color) == old(Marked(g.color))
  {
    assert todo + {o} - {o} == todo && Refs(b, o) == RefsOf(b[o]);
    hide MarkInv, Closed, Marked, IsOld, Refs, RefsOf;
    if g.body[o].Block? {
      GenLink(g, b, todo + {o}, o);
    } else {
      SettleOther(b, g.color, g.age, g.gray, g.grayagain, todo + {o}, o);
    }
  }

  lemma InUp(b: Heap, c: Colors, a: Ages, gray: seq<Ref>, again: seq<Ref>, todo: set<Ref>, up: set<Ref>, o: Ref)
    requires MarkInv(b, c, a, gray, again, todo) && Within(b, c, up) && o in Marked(c) && o in b
    ensures RefsOf(b[o]) <= b.Keys && RefsOf(b[o]) <= up
  {
    assert Refs(b, o) == RefsOf(b[o]);
  }

  lemma SettleOther(b: Heap, c: Colors, a: Ages, gray: seq<Ref>, again: seq<Ref>, todo: set<Ref>, o: Ref)
    requires MarkInv(b, c, a, gray, again, todo) && o in b && !b[o].Block? && o in c && o in a
    requires RefsOf(b[o]) <= Marked(c)
    requires if b[o].Thread? && IsOld(a[o]) then o in again else o !in again && c[o].Black?
    ensures MarkInv(b, c, a, gray, again, todo - {o})
  {
    assert Refs(b, o) == RefsOf(b[o]);
    Settle(b, c, a, gray, again, todo, o);
  }

  /** propagatemark */
  method PropagateMark(g: Collector, ghost b: Heap, ghost todo: set<Ref>, ghost up: set<Ref>)
    requires GInv(g, b, todo, up) && g.gray != [] && todo !! Elems(g.grayagain)
    modifies g`color, g`age, g`gray, g`grayagain
    ensures GInv(g, b, todo, up) && todo !! Elems(g.grayagain) && Older(old(g.age), g.age)
    ensures old(Marked(g.color)) <= Marked(g.color)
    ensures Marked(g.color) == old(Marked(g.color)) ==> |g.gray| < |old(g.gray)|
  {
    hide *;
    var o := TakeGray(g, b, todo, up);
    Traverse(g, b, o, todo, up);
  }

  lemma OlderAgain(a: Ages, a1: Ages, a2: Ages)
    requires Older(a, a1) && Older(a1, a2)
    ensures Older(a, a2)
  {
  }

  /** Fewer objects are left to mark. */
  lemma MarkedKeys(b: Heap, c: Colors, a: Ages, gray: seq<Ref>, again: seq<Ref>, todo: set<Ref>, was: set<Ref>)
    requires MarkInv(b, c, a, gray, again, todo) && was <= Marked(c)
    ensures Marked(c) != was ==> b.Keys - Marked(c) < b.Keys - was
  {
    if Marked(c) != was {
      var x: nat :| x in Marked(c) && x !in was;
      assert x in b.Keys - was;
    }
  }

  lemma FewerLeft(g: Collector, b: Heap, todo: set<Ref>, up: set<Ref>, was: set<Ref>)
    requires GInv(g, b, todo, up) && was <= Marked(g.color)
    ensures Marked(g.color) != was ==> g.body.Keys - Marked(g.color) < g.body.Keys - was
  {
    MarkedKeys(b, g.color, g.age, g.gray, g.grayagain, todo, was);
  }

  /** propagateall */
  method PropagateAll(g: Collector, ghost b: Heap, ghost todo: set<Ref>, ghost up: set<Ref>)
    requires GInv(g, b, todo, up) && todo !! Elems(g.grayagain)
    modifies g`color, g`age, g`gray, g`grayagain
    ensures GInv(g, b, todo, up) && todo !! Elems(g.grayagain) && Older(old(g.age), g.age) && g.gray == []
    ensures old(Marked(g.color)) <= Marked(g.color)
  {
    assert Older(g.age, g.age);
    hide *;
    while g.gray != []
      invariant GInv(g, b, todo, up) && todo !! Elems(g.grayagain) && Older(old(g.age), g.age)
      invariant old(Marked(g.color)) <= Marked(g.color)
      decreases g.body.Keys - Marked(g.color), |g.gray|
    {
      ghost var was, a := Marked(g.color), g.age;
      PropagateMark(g, b, todo, up);
      OlderAgain(old(g.age), a, g.age);
      FewerLeft(g, b, todo, up, was);
    }
  }
}
