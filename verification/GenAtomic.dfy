/**
 The marking of a minor collection: OLD1 objects and what the program touched, besides the roots, are all
 that it starts from.
 */
module GenAtomic {
  import opened GenHeap
  import opened GenMark

  ghost function Old1s(a: Ages): set<Ref>
  {
    set o | o in a && a[o].Old1?
  }

  /** What a minor collection has to look at besides the gray list. */
  ghost function Owed(a: Ages, saved: seq<Ref>): set<Ref>
  {
    Elems(saved) + Old1s(a)
  }

  /** The age that marking leaves to an object: TOUCHED2 and OLD1 objects were traversed and become old. */
  function MarkedAge(x: Age): Age
  {
    if x.Touched2? || x.Old1? then Old else x
  }

  /** OLD1 objects that are gray are in 'grayagain'. */
  ghost predicate GrayOld1(c: Colors, a: Ages, saved: seq<Ref>)
  {
    forall o :: o in c && o in a && a[o].Old1? && c[o].Gray? ==> o in saved
  }

  /** The saved list holds marked objects of the gray kinds, and black OLD1 objects are not in it. */
  ghost predicate SavedOk(b: Heap, c: Colors, a: Ages, saved: seq<Ref>)
  {
    && Once(saved)
    && forall o :: o in saved ==> Listed(b, o) && o in c && !c[o].White? && !(AgeOf(a, o).Old1? && c[o].Black?)
  }

  /** The running program leaves a heap to mark, with nothing in 'grayagain' yet. */
  lemma MarkingStarts(s: State)
    requires Shape(s)
    ensures MarkInv(Seen(s), s.color, s.age, s.gray, [], Owed(s.age, s.again)) && SeenAs(Seen(s), s.body, s.color)
    ensures GrayOld1(s.color, s.age, s.again) && SavedOk(Seen(s), s.color, s.age, s.again)
    ensures SeenOld1(Seen(s), s.body, s.age)
  {
    hide *;
    ShapeFields(s);
    forall o ensures StartsAt(s, o) {
      StartsHere(s, o);
    }
    StartsFold(s);
  }

  /** Marking looks into OLD1 objects. */
  ghost predicate SeenOld1(b: Heap, body: Heap, a: Ages)
  {
    forall o :: o in b && o in body && AgeOf(a, o).Old1? ==> b[o] == body[o]
  }

  ghost predicate StartsAt(s: State, o: Ref)
  {
    var b := Seen(s);
    && (o in s.color ==> At(b, s.color, s.age, s.gray, [], Owed(s.age, s.again), o))
    && (o in b && Touched(AgeOf(s.age, o)) ==> b[o].Block?)
    && (o in s.gray ==> Listed(b, o) && o in s.color && !s.color[o].White? && o !in Owed(s.age, s.again))
    && (o in b ==> Refs(b, o) <= b.Keys)
    && (o in s.again ==>
          Listed(b, o) && o in s.color && !s.color[o].White? && !(AgeOf(s.age, o).Old1? && s.color[o].Black?))
    && (o in s.color && o in s.age && s.age[o].Old1? && s.color[o].Gray? ==> o in s.again)
    && (o in b && b[o] != s.body[o] ==> b[o].Str? && o in Marked(s.color) && !AgeOf(s.age, o).Old1?)
  }

  lemma StartsHere(s: State, o: Ref)
    requires Shape(s)
    ensures StartsAt(s, o)
  {
    hide Shape;
    ShapeAt(s, o);
    assert o in s.color && !s.color[o].White? ==> o in Marked(s.color);
    assert o in Owed(s.age, s.again) <==> o in s.again || (o in s.age && s.age[o].Old1?);
  }

  lemma StartsFold(s: State)
    requires forall o :: StartsAt(s, o)
    requires s.color.Keys == s.body.Keys && s.age.Keys == s.body.Keys && Once(s.gray) && Once(s.again)
    ensures MarkInv(Seen(s), s.color, s.age, s.gray, [], Owed(s.age, s.again)) && SeenAs(Seen(s), s.body, s.color)
    ensures GrayOld1(s.color, s.age, s.again) && SavedOk(Seen(s), s.color, s.age, s.again)
    ensures SeenOld1(Seen(s), s.body, s.age)
  {
    assert Once([]);
    hide At, Touched, Listed, Once, Refs, AgeOf;
    forall o ensures o in Owed(s.age, s.again) ==> o in s.body.Keys {
      assert StartsAt(s, o);
    }
    forall o
      ensures o in s.color ==> At(Seen(s), s.color, s.age, s.gray, [], Owed(s.age, s.again), o)
      ensures o in s.again ==> Listed(Seen(s), o) && o in s.color && !s.color[o].White?
                               && !(AgeOf(s.age, o).Old1? && s.color[o].Black?)
      ensures o in s.gray ==> Listed(Seen(s), o) && o in s.color && !s.color[o].White? && o !in Owed(s.age, s.again)
      ensures o in s.body && Touched(AgeOf(s.age, o)) ==> Seen(s)[o].Block?
      ensures o in s.body ==> Refs(Seen(s), o) <= s.body.Keys
      ensures o in s.color && o in s.age && s.age[o].Old1? && s.color[o].Gray? ==> o in s.again
      ensures o in s.body && Seen(s)[o] != s.body[o] ==>
        Seen(s)[o].Str? && o in Marked(s.color) && !AgeOf(s.age, o).Old1?
    {
      assert StartsAt(s, o);
    }
  }

  /** The state of 'markold': its list may still hold OLD1 objects. */
  ghost predicate OldInv(g: Collector, b: Heap, saved: seq<Ref>, up: set<Ref>)
    reads g`body, g`color, g`age, g`gray
  {
    && MarkInv(b, g.color, g.age, g.gray, [], Owed(g.age, saved)) && Within(b, g.color, up)
    && SeenAs(b, g.body, g.color)
    && GrayOld1(g.color, g.age, saved) && SavedOk(b, g.color, g.age, saved) && SeenOld1(b, g.body, g.age)
  }

  /** markold, for the OLD1 objects between two places of the list. */
  method MarkOld(g: Collector, ghost b: Heap, i: nat, to: nat, ghost saved: seq<Ref>, ghost up: set<Ref>)
    requires OldInv(g, b, saved, up) && i <= to <= |g.all| && Elems(g.all) == g.body.Keys
    requires NoneOutside(g.age, g.all, i, to)
    modifies g`color, g`age, g`gray
    ensures OldInv(g, b, saved, up) && Owed(g.age, saved) == Elems(saved)
    ensures g.age == map o | o in old(g.age) :: if old(g.age[o]).Old1? then Old else old(g.age[o])
    ensures old(Marked(g.color)) <= Marked(g.color)
  {
    assert OnlyOld1(g.age, g.age);
    hide *;
    var p := i;
    while p < to
      invariant i <= p <= to && OldInv(g, b, saved, up)
      invariant OnlyOld1(old(g.age), g.age) && NoneOutside(g.age, g.all, p, to)
      invariant old(Marked(g.color)) <= Marked(g.color)
    {
      InKeys(g, b, saved, up, p);
      NextPlace(old(g.age), g.age, g.all, p, to);
      if g.age[g.all[p]].Old1? {
        MarkOne(g, b, g.all[p], saved, up);
      }
      p := p + 1;
    }
    NoneLeft(g, b, old(g.age), saved, up, to);
  }

  ghost predicate OnlyOld1(a: Ages, a': Ages)
  {
    a'.Keys == a.Keys && forall o :: o in a ==> a'[o] == a[o] || (a[o].Old1? && a'[o].Old?)
  }

  ghost predicate NoneOutside(a: Ages, l: seq<Ref>, p: int, to: int)
  {
    forall k :: 0 <= k < |l| && !(p <= k < to) ==> !AgeOf(a, l[k]).Old1?
  }

  lemma InKeys(g: Collector, b: Heap, saved: seq<Ref>, up: set<Ref>, p: nat)
    requires OldInv(g, b, saved, up) && Elems(g.all) == g.body.Keys && p < |g.all|
    ensures g.all[p] in g.body && g.all[p] in g.age
  {
    assert g.all[p] in Elems(g.all);
  }

  lemma NextPlace(a0: Ages, a: Ages, l: seq<Ref>, p: nat, to: nat)
    requires OnlyOld1(a0, a) && NoneOutside(a, l, p, to) && p < to <= |l|
    ensures l[p] in a && !a[l[p]].Old1? ==> NoneOutside(a, l, p + 1, to)
    ensures NoneOutside(a[l[p] := Old], l, p + 1, to)
    ensures l[p] in a && a[l[p]].Old1? ==> OnlyOld1(a0, a[l[p] := Old])
  {
  }

  lemma NoneLeft(g: Collector, b: Heap, a0: Ages, saved: seq<Ref>, up: set<Ref>, to: nat)
    requires OldInv(g, b, saved, up) && Elems(g.all) == g.body.Keys
    requires OnlyOld1(a0, g.age) && NoneOutside(g.age, g.all, to, to)
    ensures g.age == (map o | o in a0 :: if a0[o].Old1? then Old else a0[o]) && Owed(g.age, saved) == Elems(saved)
  {
    assert g.age.Keys == g.body.Keys;
    hide *;
    NoneOld1(g.age, g.all, to);
    OnlyOld(a0, g.age, saved);
  }

  lemma NoneOld1(a: Ages, l: seq<Ref>, to: int)
    requires NoneOutside(a, l, to, to) && Elems(l) == a.Keys
    ensures forall o :: o in a ==> !a[o].Old1?
  {
    forall o | o in a ensures !a[o].Old1? {
      assert o in Elems(l);
    }
  }

  lemma OnlyOld(a0: Ages, a: Ages, saved: seq<Ref>)
    requires OnlyOld1(a0, a) && forall o :: o in a ==> !a[o].Old1?
    ensures a == (map o | o in a0 :: if a0[o].Old1? then Old else a0[o]) && Owed(a, saved) == Elems(saved)
  {
  }

  lemma OneMarked(b: Heap, c: Colors, a: Ages, gray: seq<Ref>, saved: seq<Ref>, up: set<Ref>, o: Ref)
    requires MarkInv(b, c, a, gray, [], Owed(a, saved)) && Within(b, c, up)
    requires GrayOld1(c, a, saved) && SavedOk(b, c, a, saved) && o in b && o in a && a[o].Old1?
    ensures var a' := a[o := Old];
            var (c', gray') := if c[o].Black? then ReallyMark(b, c, gray, o) else (c, gray);
            && MarkInv(b, c', a', gray', [], Owed(a', saved)) && Within(b, c', up)
            && GrayOld1(c', a', saved) && SavedOk(b, c', a', saved) && Marked(c) <= Marked(c')
  {
    var todo, a' := Owed(a, saved), a[o := Old];
    assert At(b, c, a, gray, [], todo, o);
    Aged(b, c, a, gray, [], todo, o);
    if c[o].Black? {
      assert o !in saved && todo - {o} == Owed(a', saved);
      assert o in Marked(c);
      MarkKeeps(b, c, a', gray, [], todo, up, o);
      var c' := ReallyMark(b, c, gray, o).0;
      OthersKept(b, c, a, gray, saved, c', o);
    } else {
      assert Owed(a', saved) == todo;
    }
  }

  lemma OthersKept(b: Heap, c: Colors, a: Ages, gray: seq<Ref>, saved: seq<Ref>, c': Colors, o: Ref)
    requires MarkInv(b, c, a, gray, [], Owed(a, saved)) && GrayOld1(c, a, saved) && SavedOk(b, c, a, saved)
    requires c'.Keys == c.Keys && o in c && o !in saved
    requires (forall x :: x in c && x != o && !c[x].White? ==> c'[x] == c[x])
    ensures GrayOld1(c', a[o := Old], saved) && SavedOk(b, c', a[o := Old], saved)
  {
    forall x | x in c' && x != o && a[x].Old1? && c'[x].Gray? ensures x in saved {
      assert At(b, c, a, gray, [], Owed(a, saved), x);
    }
  }

  /** One OLD1 object: now it is old; if it is black, its references must be marked again. */
  method MarkOne(g: Collector, ghost b: Heap, o: Ref, ghost saved: seq<Ref>, ghost up: set<Ref>)
    requires OldInv(g, b, saved, up) && o in g.body && o in g.age && g.age[o].Old1?
    modifies g`color, g`age, g`gray
    ensures OldInv(g, b, saved, up)
    ensures g.age == old(g.age)[o := Old] && old(Marked(g.color)) <= Marked(g.color)
  {
    assert o in g.color;
    OneSeen(g, b, o, saved, up);
    OneMarked(b, g.color, g.age, g.gray, saved, up, o);
    hide MarkInv, Within, SeenAs, SeenOld1, GrayOld1, SavedOk, ReallyMark, Owed;
    g.age := g.age[o := Old];
    if g.color[o].Black? {
      ReallyMarkObject(g, o);
    }
  }

  lemma OneSeen(g: Collector, b: Heap, o: Ref, saved: seq<Ref>, up: set<Ref>)
    requires OldInv(g, b, saved, up) && o in g.body && o in g.age && g.age[o].Old1?
    ensures o in b && SeenOld1(b, g.body, g.age[o := Old])
    ensures ReallyMark(g.body, g.color, g.gray, o) == ReallyMark(b, g.color, g.gray, o)
    ensures forall c :: Marked(g.color) <= Marked(c) ==> SeenAs(b, g.body, c)
  {
    SameMark(b, g.body, g.color, g.color, g.gray, o);
  }

  /** What marking leaves: everything marked refers to marked objects, and the colors tell what is in 'grayagain'. */
  ghost predicate Finished(b: Heap, c: Colors, a0: Ages, a: Ages, again: seq<Ref>)
  {
    && Domains(b, c, a) && a0.Keys == a.Keys && AgainOk(b, c, a, again)
    && (forall o :: o in a ==> a[o] == MarkedAge(a0[o]))
    && (forall o :: o in c ==> if c[o].White? then !IsOld(a[o]) && o !in again else Done(b, c, a, again, o))
  }

  lemma FinishedClosed(b: Heap, c: Colors, a0: Ages, a: Ages, again: seq<Ref>)
    requires Finished(b, c, a0, a, again)
    ensures Closed(b, Marked(c))
  {
  }

  /** The objects saved from 'grayagain' are traversed last. */
  lemma SavedLast(b: Heap, c: Colors, a: Ages, again: seq<Ref>, saved: seq<Ref>)
    requires MarkInv(b, c, a, [], again, Elems(saved)) && SavedOk(b, c, a, saved) && Elems(saved) !! Elems(again)
    ensures MarkInv(b, c, a, saved, again, {})
  {
    forall o | o in saved ensures o !in again {
      assert o in Elems(saved);
    }
    forall o | o in c ensures At(b, c, a, saved, again, {}, o) {
      assert At(b, c, a, [], again, Elems(saved), o);
    }
  }

  lemma MarkingEnds(b: Heap, c: Colors, a0: Ages, a1: Ages, a2: Ages, a: Ages, again: seq<Ref>)
    requires MarkInv(b, c, a, [], again, {})
    requires a1 == map o | o in a0 :: if a0[o].Old1? then Old else a0[o]
    requires Older(a1, a2) && Older(a2, a)
    ensures Finished(b, c, a0, a, again)
  {
    forall o | o in c ensures if c[o].White? then !IsOld(a[o]) && o !in again else Done(b, c, a, again, o) {
      assert At(b, c, a, [], again, {}, o);
    }
    forall o | o in a ensures a[o] == MarkedAge(a0[o]) {
      assert a1[o] == if a0[o].Old1? then Old else a0[o];
      assert c[o].White? || Done(b, c, a, again, o);
      assert a2[o] == a1[o] || a1[o].Touched2?;
    }
  }

  /** All OLD1 objects are from 'firstold1' on, before 'reallyold'. */
  lemma Old1Places(a: Ages, l: Lists)
    requires l.firstold1.To? && FirstOk(a, l) && l.reallyold <= l.old1 <= l.survival <= |l.all| && PartsOk(a, l)
    ensures NoneOutside(a, l.all, Place(l.all, l.firstold1.r), |l.all| - l.reallyold)
  {
    forall k | |l.all| - l.reallyold <= k < |l.all| ensures !AgeOf(a, l.all[k]).Old1? {
      assert l.all[k] in l.all[|l.all| - l.reallyold..];
    }
  }

  lemma NoOld1(b: Heap, a: Ages, l: Lists, saved: seq<Ref>)
    requires l.firstold1.Null? && FirstOk(a, l) && Elems(l.all) == b.Keys == a.Keys
    ensures a == (map o | o in a :: if a[o].Old1? then Old else a[o]) && Owed(a, saved) == Elems(saved)
  {
    forall o | o in a ensures !a[o].Old1? {
      assert o in Elems(l.all);
    }
  }

  lemma MarkingLists(s: State)
    requires Shape(s)
    ensures s.lists.reallyold <= s.lists.old1 <= s.lists.survival <= |s.lists.all|
    ensures Elems(s.lists.all) == s.body.Keys == s.age.Keys
    ensures FirstOk(s.age, s.lists) && s.roots <= s.body.Keys
    ensures var r := s.lists.firstold1;
            r.To? ==> var k := Place(s.lists.all, r.r);
                      && k <= |s.lists.all| - s.lists.reallyold
                      && NoneOutside(s.age, s.lists.all, k, |s.lists.all| - s.lists.reallyold)
  {
    ShapeFields(s);
    hide Shape, Once, Elems;
    if s.lists.firstold1.To? {
      Old1Places(s.age, s.lists);
    }
  }

  /** atomic, with what comes before it in 'youngcollection' */
  method MarkYoung(g: Collector, ghost up: set<Ref>)
    requires Shape(StateOf(g)) && Within(Seen(StateOf(g)), g.color, up) && g.roots <= up
    modifies g`color, g`age, g`gray, g`grayagain, g`firstold1
    ensures Finished(old(Seen(StateOf(g))), g.color, old(g.age), g.age, g.grayagain)
    ensures Within(old(Seen(StateOf(g))), g.color, up)
    ensures g.gray == [] && g.firstold1 == Null && old(Marked(g.color)) + g.roots <= Marked(g.color)
  {
    hide *;
    ghost var a0, saved, b := g.age, g.grayagain, Seen(StateOf(g));
    StateFields(g);
    MarkingStarts(StateOf(g));
    MarkingLists(StateOf(g));
    OldFold(g, b, saved, up);
    if g.firstold1.To? {
      MarkOld(g, b, Place(g.all, g.firstold1.r), |g.all| - g.reallyold, saved, up);
      g.firstold1 := Null;
    } else {
      NoOld1(g.body, g.age, ListsOf(g), saved);
    }
    Atomic(g, b, a0, up);
  }

  lemma OldFold(g: Collector, b: Heap, saved: seq<Ref>, up: set<Ref>)
    requires MarkInv(b, g.color, g.age, g.gray, [], Owed(g.age, saved)) && Within(b, g.color, up)
    requires SeenAs(b, g.body, g.color)
    requires GrayOld1(g.color, g.age, saved) && SavedOk(b, g.color, g.age, saved) && SeenOld1(b, g.body, g.age)
    ensures OldInv(g, b, saved, up)
  {
  }

  /** Nothing but the objects in 'grayagain' is left to look at. */
  lemma AtomicStarts(g: Collector, b: Heap, a0: Ages, saved: seq<Ref>, up: set<Ref>)
    requires OldInv(g, b, saved, up) && Owed(g.age, saved) == Elems(saved)
    requires g.age == map o | o in a0 :: if a0[o].Old1? then Old else a0[o]
    ensures MarkInv(b, g.color, g.age, g.gray, [], Elems(saved)) && Within(b, g.color, up) && SeenAs(b, g.body, g.color)
    ensures SavedOk(b, g.color, g.age, saved) && g.color.Keys == g.age.Keys == g.body.Keys && Elems(saved) !! Elems([])
    ensures forall o :: o in g.age ==> !g.age[o].Old1?
  {
  }

  method Atomic(g: Collector, ghost b: Heap, ghost a0: Ages, ghost up: set<Ref>)
    requires OldInv(g, b, g.grayagain, up) && Owed(g.age, g.grayagain) == Elems(g.grayagain)
    requires g.age == map o | o in a0 :: if a0[o].Old1? then Old else a0[o]
    requires g.roots <= up && g.roots <= g.body.Keys
    modifies g`color, g`age, g`gray, g`grayagain
    ensures Finished(b, g.color, a0, g.age, g.grayagain) && Within(b, g.color, up)
    ensures g.gray == [] && old(Marked(g.color)) + g.roots <= Marked(g.color)
  {
    hide *;
    var saved := g.grayagain;
    ghost var a1, c1 := g.age, g.color;
    AtomicStarts(g, b, a0, saved, up);
    g.grayagain := [];
    GFold(g, b, Elems(saved), up);
    MarkSet(g, b, Elems(saved), up, g.roots);
    PropagateAll(g, b, Elems(saved), up);
    ghost var a2 := g.age;
    GOpen(g, b, Elems(saved), up);
    SavedKept(b, c1, a1, g.color, a2, saved);
    SavedLast(b, g.color, g.age, g.grayagain, saved);
    g.gray := saved;
    GFold(g, b, {}, up);
    PropagateAll(g, b, {}, up);
    GOpen(g, b, {}, up);
    MarkingEnds(b, g.color, a0, a1, a2, g.age, g.grayagain);
  }

  lemma GFold(g: Collector, b: Heap, todo: set<Ref>, up: set<Ref>)
    requires MarkInv(b, g.color, g.age, g.gray, g.grayagain, todo) && Within(b, g.color, up)
    requires SeenAs(b, g.body, g.color)
    ensures GInv(g, b, todo, up) && todo !! {}
  {
  }

  lemma GOpen(g: Collector, b: Heap, todo: set<Ref>, up: set<Ref>)
    requires GInv(g, b, todo, up)
    ensures MarkInv(b, g.color, g.age, g.gray, g.grayagain, todo) && Within(b, g.color, up)
    ensures SeenAs(b, g.body, g.color)
  {
  }

  lemma SavedKept(b: Heap, c: Colors, a: Ages, c': Colors, a': Ages, saved: seq<Ref>)
    requires SavedOk(b, c, a, saved) && Marked(c) <= Marked(c') && Older(a, a') && c.Keys == a.Keys
    requires forall o :: o in a ==> !a[o].Old1?
    ensures SavedOk(b, c', a', saved)
  {
    forall o | o in saved ensures o in c' && !c'[o].White? && !AgeOf(a', o).Old1? {
      assert o in Marked(c) && o in Marked(c') && o in a && o in a';
    }
  }
}
