/** 'youngcollection' and 'atomic2gen'. */
module GenMinor {
  import opened GenHeap
  import opened GenMark
  import opened GenAtomic
  import opened GenSweep
  import opened GenCorrect
  import opened GenCycle

  /** The heap of 's' when marking is over, and 'w' once it was swept and corrected. */
  ghost predicate Ended(s: State, x: Snap, again: seq<Ref>, d: set<Ref>, w: Snap)
  {
    && Shape(s) && x.body == s.body && Finished(Seen(s), x.color, s.age, x.age, again) && s.color.Keys == s.body.Keys
    && (forall o :: o in x.body ==> o in d || (IsOld(s.age[o]) && !s.age[o].Old0?))
    && (forall o :: o in x.body && Touched(s.age[o]) ==> x.body[o].Block?)
    && w == Corrected(Swept(x, d), Elems(again))
  }

  lemma StaysSame(b: Heap, a0: Ages, a: Ages, o: Ref)
    requires o in a && o in a0 && a[o] == MarkedAge(a0[o])
    ensures Stays(b, a, o) == Stays(b, a0, o)
  {
  }

  /** What marking tells about 'o'. */
  lemma MarkedAt(s: State, x: Snap, again: seq<Ref>, o: Ref)
    requires Shape(s) && x.body == s.body && Finished(Seen(s), x.color, s.age, x.age, again)
    ensures (o in x.body <==> o in x.color) && (o in x.body <==> o in x.age) && (o in x.body <==> o in s.age)
    ensures o in x.body ==> x.age[o] == MarkedAge(s.age[o])
    ensures o in again <==> o in Marked(x.color) && Stays(s.body, s.age, o)
    ensures o in Marked(x.color) && !Stays(s.body, s.age, o) ==> x.color[o].Black? && !Touched(x.age[o])
    ensures o in again ==> x.color[o].Gray? && IsOld(x.age[o]) && !x.age[o].Touched2?
    ensures o in x.body && x.color[o].White? ==> !IsOld(s.age[o])
  {
    hide Shape, Closed;
    if o in x.body {
      SeenStays(s, x.age, o);
      StaysSame(s.body, s.age, x.age, o);
      if o in Marked(x.color) {
        assert Done(Seen(s), x.color, x.age, again, o);
      }
    }
  }

  /** What a minor collection does not look into does not stay in 'grayagain'. */
  lemma SeenStays(s: State, a: Ages, o: Ref)
    requires Shape(s) && o in s.body && o in a && o in s.age && a[o] == MarkedAge(s.age[o])
    ensures Stays(Seen(s), a, o) == Stays(s.body, a, o)
  {
    hide Shape;
    ShapeAt(s, o);
  }

  /** What sweeping and correcting do with the age and the color of one object that is marked and not new. */
  function LastAge(x: Age, inSweep: bool, inList: bool, thread: bool): Age
  {
    var a := if inSweep then SweptAge(x) else x;
    if !inList then a else if a.Touched1? then Touched2 else if !thread && a.Touched2? then Old else a
  }

  function LastColor(x: Age, k: Color, inSweep: bool, inList: bool, thread: bool): Color
  {
    var a := if inSweep then SweptAge(x) else x;
    if !inList || (thread && !a.Touched1?) then k else Black
  }

  /** The object 'o' once it was swept and corrected. */
  lemma LastAt(x: Snap, again: set<Ref>, d: set<Ref>, o: Ref)
    requires x.color.Keys == x.body.Keys && x.age.Keys == x.body.Keys
    ensures var w, live := Corrected(Swept(x, d), again), o in x.body && !Dead(x, d, o);
            && (o in w.body <==> live) && (o in w.color <==> live) && (o in w.age <==> live)
            && (live ==> w.body[o] == x.body[o])
            && (live && !x.color[o].White? && !x.age[o].New? ==>
                  && w.color[o] == LastColor(x.age[o], x.color[o], o in d, o in again, x.body[o].Thread?)
                  && w.age[o] == LastAge(x.age[o], o in d, o in again, x.body[o].Thread?))
            && (o in d && live && x.age[o].New? ==> w.color[o].White? && w.age[o].Survival?)
  {
  }

  /** All steps together take the age one step further. */
  lemma LastValues(x: Age, k: Color, inSweep: bool, inList: bool, thread: bool)
    requires !x.New? && (inSweep || (IsOld(x) && !x.Old0?)) && (thread ==> !Touched(x))
    requires inList == (if thread then IsOld(x) else x.Touched1?)
    requires if inList then k.Gray? else k.Black?
    ensures LastAge(MarkedAge(x), inSweep, inList, thread) == NextAge(x)
    ensures LastColor(MarkedAge(x), k, inSweep, inList, thread) == if thread && IsOld(x) then Gray else Black
  {
  }

  /** The marked object 'o' at the end of a minor collection. */
  lemma LiveAt(s: State, x: Snap, again: seq<Ref>, d: set<Ref>, w: Snap, o: Ref)
    requires Ended(s, x, again, d, w) && o in Marked(x.color)
    ensures o in w.body && o in w.color && o in w.age && o in s.body && o in s.age
    ensures w.body[o] == s.body[o] && w.age[o] == NextAge(s.age[o]) && w.color[o] == NextColor(s.body, s.age, o)
  {
    MarkedAt(s, x, again, o);
    LastAt(x, Elems(again), d, o);
    assert o in x.body && (o in d || (IsOld(s.age[o]) && !s.age[o].Old0?)) && x.body == s.body;
    assert Touched(s.age[o]) ==> s.body[o].Block?;
    assert w == Corrected(Swept(x, d), Elems(again)) && (o in Elems(again) <==> o in again);
    hide Ended, Finished, Corrected, Swept, LastAge, LastColor, NextAge;
    if !s.age[o].New? {
      LastValues(s.age[o], x.color[o], o in d, o in again, x.body[o].Thread?);
    }
  }

  lemma DeadAt(s: State, x: Snap, again: seq<Ref>, d: set<Ref>, w: Snap, o: Ref)
    requires Ended(s, x, again, d, w) && o !in Marked(x.color)
    ensures o !in w.body && o !in w.color && o !in w.age
  {
    MarkedAt(s, x, again, o);
  }

  /** The final state is what 'Collected' says. */
  lemma CollectedIs(s: State, x: Snap, again: seq<Ref>, d: set<Ref>, t: State)
    requires Ended(s, x, again, d, Snap(t.body, t.color, t.age)) && s.age.Keys == s.body.Keys
    requires t.gray == [] && t.again == again && Once(again) && t.main == s.main && t.roots == s.roots
    ensures Collected(s, Marked(x.color), t)
  {
    var w, m := Snap(t.body, t.color, t.age), Marked(x.color);
    assert s.color.Keys == s.body.Keys && x.body == s.body && Finished(Seen(s), x.color, s.age, x.age, again);
    hide *;
    forall o
      ensures (o in t.body <==> o in m) && (o in t.color <==> o in m) && (o in t.age <==> o in m)
      ensures o in m ==> o in s.body && o in s.age && t.body[o] == s.body[o] && t.age[o] == NextAge(s.age[o])
                         && t.color[o] == NextColor(s.body, s.age, o)
      ensures o in again <==> o in m && Stays(s.body, s.age, o)
    {
      MarkedAt(s, x, again, o);
      if o in m { LiveAt(s, x, again, d, w, o); } else { DeadAt(s, x, again, d, w, o); }
    }
    CollectedFold(s, m, t);
  }

  lemma CollectedFold(s: State, m: set<Ref>, t: State)
    requires s.color.Keys == s.body.Keys && s.age.Keys == s.body.Keys
    requires forall o :: (o in t.body <==> o in m) && (o in t.color <==> o in m) && (o in t.age <==> o in m)
    requires forall o :: o in m ==> o in s.body && o in s.age && t.body[o] == s.body[o] && t.age[o] == NextAge(s.age[o])
                                    && t.color[o] == NextColor(s.body, s.age, o)
    requires forall o :: o in t.again <==> o in m && Stays(s.body, s.age, o)
    requires t.gray == [] && Once(t.again) && t.main == s.main && t.roots == s.roots
    ensures Collected(s, m, t)
  {
    hide NextAge, NextColor, Stays, Once;
  }

  // ---- The two sweeps ----------------------------------------------------------------------------------

  lemma {:induction false} FirstSplit(s: Snap, l: seq<Ref>, k: seq<Ref>)
    ensures FirstOld1(s, l + k) == OrElse(FirstOld1(s, l), FirstOld1(s, k))
    decreases |k|
  {
    if k == [] {
      assert l + k == l;
    } else {
      FirstSplit(s, l, k[..|k| - 1]);
      assert (l + k)[..|l + k| - 1] == l + k[..|k| - 1];
    }
  }

  lemma TwoSweeps(x: Snap, l: Lists, all1: seq<Ref>, end: nat, f: Ptr, w: Snap)
    requires l.old1 <= l.survival <= |l.all| && Unswept(x, {}, l.all)
    requires SweptTo(x, {}, l.all, 0, l.survival, Null, all1, end, f, w)
    ensures end + l.survival == |all1| && all1[end..] == l.all[|l.all| - l.survival..]
    ensures Unswept(x, Elems(l.all[..|l.all| - l.survival]), all1[end..])
    ensures w == Swept(x, Elems(l.all[..|l.all| - l.survival]))
  {
    hide Swept, LiveOf, FirstOld1, Elems;
    var k := |l.all| - l.survival;
    assert l.all[0..k] == l.all[..k] && {} + Elems(l.all[..k]) == Elems(l.all[..k]);
    assert all1[end..] == l.all[k..];
    UnsweptRest(x, l.all, k);
  }

  lemma UnsweptRest(x: Snap, l: seq<Ref>, k: nat)
    requires Unswept(x, {}, l) && k <= |l|
    ensures Unswept(x, Elems(l[..k]), l[k..])
  {
  }

  lemma SweptParts(x: Snap, l: Lists, all1: seq<Ref>, end: nat, f1: Ptr, w1: Snap, all2: seq<Ref>, end2: nat, f2: Ptr,
          w2: Snap)
    requires l.reallyold <= l.old1 <= l.survival <= |l.all|
    requires SweptTo(x, {}, l.all, 0, l.survival, Null, all1, end, f1, w1)
    requires SweptTo(x, Elems(l.all[..|l.all| - l.survival]), all1, end, l.old1, f1, all2, end2, f2, w2)
    ensures var n := |l.all|;
            var a, b, c := l.all[..n - l.survival], l.all[n - l.survival..n - l.old1], l.all[n - l.old1..];
            && w2 == Swept(x, Elems(a) + Elems(b)) && end == |LiveOf(x.color, a)|
            && all2 == LiveOf(x.color, a) + LiveOf(x.color, b) + c
            && f1 == FirstOld1(x, a) && f2 == OrElse(f1, FirstOld1(x, b))
  {
    hide Swept, FirstOld1, LiveOf, Elems;
    var n := |l.all|;
    Slices(l.all, n - l.survival, n - l.old1, LiveOf(x.color, l.all[..n - l.survival]));
    assert {} + Elems(l.all[..n - l.survival]) == Elems(l.all[..n - l.survival]);
  }

  lemma Slices(l: seq<Ref>, i: nat, j: nat, x: seq<Ref>)
    requires i <= j <= |l|
    ensures l[0..i] == l[..i] && l[..0] == [] && [] + x + l[i..] == x + l[i..]
    ensures var y := x + l[i..];
            && |y| - (|l| - j) >= |x| && y[|x|..|y| - (|l| - j)] == l[i..j] && y[|y| - (|l| - j)..] == l[j..]
            && y[..|x|] == x
  {
  }

  lemma BothLists(x: Snap, l: Lists, all1: seq<Ref>, end: nat, f1: Ptr, w1: Snap, all2: seq<Ref>, end2: nat, f2: Ptr,
          w2: Snap)
    requires l.reallyold <= l.old1 <= l.survival <= |l.all|
    requires SweptTo(x, {}, l.all, 0, l.survival, Null, all1, end, f1, w1)
    requires SweptTo(x, Elems(l.all[..|l.all| - l.survival]), all1, end, l.old1, f1, all2, end2, f2, w2)
    requires forall o :: o in l.all[|l.all| - l.old1..] ==> o in Marked(x.color)
    ensures end <= |all2| && KeptLists(x.color, l, Lists(all2, |all2|, |all2| - end, l.old1, f2))
  {
    hide *;
    SweptParts(x, l, all1, end, f1, w1, all2, end2, f2, w2);
    BothParts(l.all, |l.all| - l.survival, |l.all| - l.old1);
    var n := |l.all|;
    LiveThree(x.color, l.all[..n - l.survival], l.all[n - l.survival..n - l.old1], l.all[n - l.old1..]);
    KeptFold(x.color, l, LiveOf(x.color, l.all[..n - l.survival]), LiveOf(x.color, l.all[n - l.survival..n - l.old1]),
             l.all[n - l.old1..], f2);
  }

  lemma BothFields(x: Snap, l: Lists, all1: seq<Ref>, end: nat, f1: Ptr, w1: Snap, all2: seq<Ref>, end2: nat, f2: Ptr,
          w2: Snap)
    requires l.reallyold <= l.old1 <= l.survival <= |l.all| && x.color.Keys == x.body.Keys && x.age.Keys == x.body.Keys
    requires SweptTo(x, {}, l.all, 0, l.survival, Null, all1, end, f1, w1)
    requires SweptTo(x, Elems(l.all[..|l.all| - l.survival]), all1, end, l.old1, f1, all2, end2, f2, w2)
    ensures w2 == Swept(x, Elems(l.all[..|l.all| - l.old1])) && f2 == FirstOld1(x, l.all[..|l.all| - l.old1])
  {
    hide *;
    var n := |l.all|;
    SweptParts(x, l, all1, end, f1, w1, all2, end2, f2, w2);
    BothParts(l.all, n - l.survival, n - l.old1);
    FirstSplit(x, l.all[..n - l.survival], l.all[n - l.survival..n - l.old1]);
  }

  lemma KeptFold(c: Colors, l: Lists, x: seq<Ref>, y: seq<Ref>, z: seq<Ref>, f: Ptr)
    requires l.reallyold <= l.old1 <= l.survival <= |l.all| && |z| == l.old1
    requires LiveOf(c, l.all) == x + y + z && LiveOf(c, l.all[|l.all| - l.survival..]) == y + z
    ensures KeptLists(c, l, Lists(x + y + z, |x + y + z|, |x + y + z| - |x|, l.old1, f))
  {
  }

  lemma BothParts(l: seq<Ref>, i: nat, j: nat)
    requires i <= j <= |l|
    ensures l == l[..i] + l[i..j] + l[j..] && l[i..] == l[i..j] + l[j..] && l[..j] == l[..i] + l[i..j]
    ensures Elems(l[..i]) + Elems(l[i..j]) == Elems(l[..j])
  {
    assert l[..j] == l[..i] + l[i..j];
  }

  lemma LiveThree(c: Colors, x: seq<Ref>, y: seq<Ref>, z: seq<Ref>)
    requires forall o :: o in z ==> o in Marked(c)
    ensures LiveOf(c, x + y + z) == LiveOf(c, x) + LiveOf(c, y) + z && LiveOf(c, y + z) == LiveOf(c, y) + z
  {
    LiveOfAll(c, z);
    LiveOfSplit(c, x + y, z);
    LiveOfSplit(c, x, y);
    LiveOfSplit(c, y, z);
  }

  /** What the two sweeps leave: 'p' is the place of the first object that was in the survival part. */
  ghost predicate YoungSwept(x: Snap, l: Lists, all: seq<Ref>, p: nat, f: Ptr, w: Snap)
  {
    && l.reallyold <= l.old1 <= l.survival <= |l.all| && x.color.Keys == x.body.Keys && x.age.Keys == x.body.Keys
    && w == Swept(x, Elems(l.all[..|l.all| - l.old1])) && f == FirstOld1(x, l.all[..|l.all| - l.old1])
    && p <= |all| && KeptLists(x.color, l, Lists(all, |all|, |all| - p, l.old1, f))
  }

  /** A heap ready for the two sweeps. */
  ghost predicate ToSweep(x: Snap, l: Lists)
  {
    && l.reallyold <= l.old1 <= l.survival <= |l.all| && Unswept(x, {}, l.all)
    && forall o :: o in l.all[|l.all| - l.old1..] ==> o in Marked(x.color)
  }

  lemma ToSweepFirst(x: Snap, l: Lists)
    requires ToSweep(x, l)
    ensures x.color.Keys == x.body.Keys && x.age.Keys == x.body.Keys && Swept(x, {}) == x
    ensures l.reallyold <= l.old1 <= l.survival <= |l.all| && Unswept(x, {}, l.all[0..])
  {
    assert l.all[0..] == l.all;
  }

  lemma BothSwept(x: Snap, l: Lists, all1: seq<Ref>, p: nat, f1: Ptr, w1: Snap, all2: seq<Ref>, end2: nat, f2: Ptr,
          w2: Snap)
    requires ToSweep(x, l) && SweptTo(x, {}, l.all, 0, l.survival, Null, all1, p, f1, w1)
    requires SweptTo(x, Elems(l.all[..|l.all| - l.survival]), all1, p, l.old1, f1, all2, end2, f2, w2)
    ensures YoungSwept(x, l, all2, p, f2, w2)
  {
    hide SweptTo, Swept, KeptLists, FirstOld1, Elems;
    BothLists(x, l, all1, p, f1, w1, all2, end2, f2, w2);
    BothFields(x, l, all1, p, f1, w1, all2, end2, f2, w2);
  }

  method SweepBoth(g: Collector, ghost x: Snap, ghost l: Lists) returns (psurvival: nat)
    requires ToSweep(x, l) && SnapOf(g) == x && g.all == l.all && g.firstold1 == Null
    requires g.survival == l.survival && g.old1 == l.old1
    modifies g`body, g`color, g`age, g`all, g`firstold1
    ensures YoungSwept(x, l, g.all, psurvival, g.firstold1, SnapOf(g))
  {
    hide *;
    ToSweepFirst(x, l);
    psurvival := SweepGen(g, 0, g.survival, x, {});
    ghost var all1, f1, w1 := g.all, g.firstold1, SnapOf(g);
    ToSweepSecond(x, l, all1, psurvival, f1, w1);
    var end := SweepGen(g, psurvival, g.old1, x, Elems(l.all[..|l.all| - l.survival]));
    BothSwept(x, l, all1, psurvival, f1, w1, g.all, end, g.firstold1, SnapOf(g));
  }

  lemma ToSweepSecond(x: Snap, l: Lists, all1: seq<Ref>, p: nat, f: Ptr, w: Snap)
    requires ToSweep(x, l) && SweptTo(x, {}, l.all, 0, l.survival, Null, all1, p, f, w)
    ensures l.survival <= |l.all| && p + l.old1 <= |all1| && x.color.Keys == x.body.Keys && x.age.Keys == x.body.Keys
    ensures Unswept(x, Elems(l.all[..|l.all| - l.survival]), all1[p..])
    ensures w == Swept(x, Elems(l.all[..|l.all| - l.survival]))
  {
    TwoSweeps(x, l, all1, p, f, w);
  }

  /** The part of 'youngcollection' that sweeps the objects that are not really old and moves the pointers. */
  method SweepYoung(g: Collector, ghost x: Snap, ghost l: Lists)
    requires ToSweep(x, l) && SnapOf(g) == x && g.all == l.all && g.firstold1 == Null
    requires g.survival == l.survival && g.old1 == l.old1
    modifies g`body, g`color, g`age, g`all, g`survival, g`old1, g`reallyold, g`firstold1
    ensures g.survival == |g.all| && g.reallyold == l.old1 && g.old1 <= |g.all|
    ensures YoungSwept(x, l, g.all, |g.all| - g.old1, g.firstold1, SnapOf(g))
  {
    hide *;
    var psurvival := SweepBoth(g, x, l);
    SweptPlace(x, l, g.all, psurvival, g.firstold1, SnapOf(g));
    g.reallyold := g.old1;
    g.old1 := |g.all| - psurvival;
    g.survival := |g.all|;
    SnapFields(g);
  }

  lemma SweptPlace(x: Snap, l: Lists, all: seq<Ref>, p: nat, f: Ptr, w: Snap)
    requires YoungSwept(x, l, all, p, f, w)
    ensures p <= |all|
  {
  }

  // ---- A minor collection ------------------------------------------------------------------------------

  /** What a minor collection keeps: what can be reached by looking into objects that it does not skip. */
  ghost function Kept(s: State): set<Ref>
  {
    Reach(Seen(s), Marked(s.color) + s.roots)
  }

  lemma SeenClosed(s: State)
    requires Shape(s)
    ensures Closed(Seen(s), Seen(s).Keys) && Marked(s.color) + s.roots <= Seen(s).Keys
  {
    ShapeFields(s);
    hide Shape;
    forall o | o in Seen(s) ensures Refs(Seen(s), o) <= Seen(s).Keys {
      ShapeAt(s, o);
    }
  }

  lemma KeptIs(s: State)
    requires Shape(s)
    ensures LiveSet(s, Kept(s)) && Within(Seen(s), s.color, Kept(s)) && s.roots <= Kept(s)
  {
    SeenClosed(s);
    ShapeFields(s);
    hide Shape, Reach, Seen, Closed;
    ReachClosed(Seen(s), Marked(s.color) + s.roots);
    forall o | o in s.body && IsOld(AgeOf(s.age, o)) ensures o in Kept(s) {
      ShapeAt(s, o);
      assert o in Marked(s.color) + s.roots;
    }
  }

  /** What is marked in the end is exactly that. */
  lemma KeptMarked(s: State, x: Snap, again: seq<Ref>)
    requires Finished(Seen(s), x.color, s.age, x.age, again) && Within(Seen(s), x.color, Kept(s))
    requires Marked(s.color) + s.roots <= Marked(x.color)
    ensures Marked(x.color) == Kept(s)
  {
    FinishedClosed(Seen(s), x.color, s.age, x.age, again);
    ReachLeast(Seen(s), Marked(s.color) + s.roots, Marked(x.color));
  }

  lemma ReadyToSweep(s: State, x: Snap, again: seq<Ref>)
    requires Shape(s) && x.body == s.body && Finished(Seen(s), x.color, s.age, x.age, again)
    requires Marked(x.color) == Kept(s)
    ensures ToSweep(x, s.lists.(firstold1 := Null))
  {
    assert x.color.Keys == x.body.Keys && x.age.Keys == x.body.Keys;
    hide *;
    KeptIs(s);
    InvLists(s, Kept(s));
    ToSweepFold(x, s.lists);
  }

  lemma ToSweepFold(x: Snap, l: Lists)
    requires x.color.Keys == x.body.Keys && x.age.Keys == x.body.Keys && Elems(l.all) == x.body.Keys && Once(l.all)
    requires l.reallyold <= l.old1 <= l.survival <= |l.all|
    requires forall o :: o in l.all[|l.all| - l.old1..] ==> o in Marked(x.color)
    ensures ToSweep(x, l.(firstold1 := Null))
  {
    assert forall o :: o in l.all ==> o in Elems(l.all);
  }

  /** Before the list of gray objects is corrected, all objects in it are there to stay. */
  lemma AllRemain(s: State, x: Snap, again: seq<Ref>, d: set<Ref>)
    requires Shape(s) && x.body == s.body && Finished(Seen(s), x.color, s.age, x.age, again)
    ensures Once(again) && Remaining(Swept(x, d), again) == again
    ensures var w := Swept(x, d); forall o :: o in again ==> o in w.color && o in w.age && o in w.body
  {
    assert Once(again) && x.color.Keys == x.body.Keys && x.age.Keys == x.body.Keys;
    hide *;
    var w := Swept(x, d);
    forall o | o in again ensures o in w.color && o in w.age && o in w.body && Remains(w.body, w.color, w.age, o) {
      RemainsAt(s, x, again, d, o);
    }
    RemainingAll(w, again);
  }

  lemma RemainsAt(s: State, x: Snap, again: seq<Ref>, d: set<Ref>, o: Ref)
    requires Shape(s) && x.body == s.body && Finished(Seen(s), x.color, s.age, x.age, again) && o in again
    requires x.color.Keys == x.body.Keys && x.age.Keys == x.body.Keys
    ensures var w := Swept(x, d);
            o in w.color && o in w.age && o in w.body && Remains(w.body, w.color, w.age, o)
  {
    hide Shape, Finished, Seen, Marked, Swept;
    MarkedAt(s, x, again, o);
    StaysSame(x.body, s.age, x.age, o);
    SweptLiveAt(x, d, o);
  }

  lemma SweptLiveAt(x: Snap, d: set<Ref>, o: Ref)
    requires x.color.Keys == x.body.Keys && x.age.Keys == x.body.Keys && o in x.body && !x.color[o].White?
    ensures var w := Swept(x, d);
            && o in w.body && o in w.color && o in w.age && w.body[o] == x.body[o]
            && (!x.age[o].New? ==> w.color[o] == x.color[o])
            && w.age[o] == if o in d then SweptAge(x.age[o]) else x.age[o]
  {
  }

  lemma {:induction false} RemainingAll(s: Snap, l: seq<Ref>)
    requires forall o :: o in l ==> Remains(s.body, s.color, s.age, o)
    ensures Remaining(s, l) == l
  {
    if l != [] {
      RemainingAll(s, l[..|l| - 1]);
      assert l == l[..|l| - 1] + [l[|l| - 1]];
    }
  }

  /** An object that is not swept is old. */
  lemma NotSweptOld(s: State, o: Ref)
    requires Shape(s) && o in s.body
    ensures s.lists.old1 <= |s.lists.all| && o in s.age
    ensures o in Elems(s.lists.all[..|s.lists.all| - s.lists.old1]) || (IsOld(s.age[o]) && !s.age[o].Old0?)
    ensures Touched(s.age[o]) ==> s.body[o].Block?
  {
    ThreadUntouched(s, o);
    var l := s.lists;
    assert Elems(l.all) == s.body.Keys && s.age.Keys == s.body.Keys && PartsOk(s.age, l) && l.old1 <= |l.all|;
    hide Shape, Touched;
    assert o in Elems(l.all) && l.all == l.all[..|l.all| - l.old1] + l.all[|l.all| - l.old1..];
  }

  lemma EndedFold(s: State, x: Snap, again: seq<Ref>, d: set<Ref>, w: Snap)
    requires Shape(s) && x.body == s.body && Finished(Seen(s), x.color, s.age, x.age, again)
    requires s.color.Keys == s.body.Keys
    requires forall o :: o in x.body ==> o in s.age && (o in d || (IsOld(s.age[o]) && !s.age[o].Old0?))
                                         && (Touched(s.age[o]) ==> x.body[o].Block?)
    requires x.color.Keys == x.body.Keys && x.age.Keys == x.body.Keys && w == Corrected(Swept(x, d), Elems(again))
    ensures Ended(s, x, again, d, w)
  {
    hide Corrected, Swept, Elems;
  }

  lemma MakesEnded(s: State, x: Snap, again: seq<Ref>, w: Snap)
    requires Shape(s) && x.body == s.body && Finished(Seen(s), x.color, s.age, x.age, again)
    requires s.lists.old1 <= |s.lists.all|
    requires w == Corrected(Swept(x, Elems(s.lists.all[..|s.lists.all| - s.lists.old1])), Elems(again))
    ensures Ended(s, x, again, Elems(s.lists.all[..|s.lists.all| - s.lists.old1]), w)
    ensures s.age.Keys == s.body.Keys && s.color.Keys == s.body.Keys && Once(again)
  {
    var d := Elems(s.lists.all[..|s.lists.all| - s.lists.old1]);
    assert s.color.Keys == s.body.Keys && s.age.Keys == s.body.Keys;
    assert x.color.Keys == x.body.Keys && x.age.Keys == x.body.Keys && Once(again);
    hide *;
    forall o | o in x.body
      ensures o in s.age && (o in d || (IsOld(s.age[o]) && !s.age[o].Old0?)) && (Touched(s.age[o]) ==> x.body[o].Block?)
    {
      NotSweptOld(s, o);
    }
    EndedFold(s, x, again, d, w);
  }

  lemma YoungSweptAt(s: State, x: Snap, t: State, w: Snap)
    requires t.lists.old1 <= |t.lists.all| && t.lists.survival == |t.lists.all| && t.lists.reallyold == s.lists.old1
    requires YoungSwept(x, s.lists.(firstold1 := Null), t.lists.all, |t.lists.all| - t.lists.old1, t.lists.firstold1, w)
    ensures s.lists.reallyold <= s.lists.old1 <= s.lists.survival <= |s.lists.all|
    ensures x.color.Keys == x.body.Keys && x.age.Keys == x.body.Keys
    ensures w == Swept(x, Elems(s.lists.all[..|s.lists.all| - s.lists.old1]))
    ensures t.lists.firstold1 == FirstOld1(x, s.lists.all[..|s.lists.all| - s.lists.old1])
    ensures KeptLists(x.color, s.lists, t.lists)
  {
    hide Swept, FirstOld1, LiveOf;
  }

  /** Everything about the state that a minor collection leaves. */
  lemma YoungDone(s: State, x: Snap, again: seq<Ref>, t: State, w: Snap)
    requires Shape(s) && x.body == s.body && Finished(Seen(s), x.color, s.age, x.age, again)
    requires Marked(x.color) == Kept(s)
    requires t.main == s.main && t.roots == s.roots && t.gray == [] && t.again == again
    requires t.lists.old1 <= |t.lists.all| && t.lists.survival == |t.lists.all| && t.lists.reallyold == s.lists.old1
    requires YoungSwept(x, s.lists.(firstold1 := Null), t.lists.all, |t.lists.all| - t.lists.old1, t.lists.firstold1, w)
    requires Snap(t.body, t.color, t.age) == Corrected(w, Elems(again))
    ensures Base(t) && YoungWhite(t.color, t.age) && Collected(s, Kept(s), t)
  {
    assert x == Snap(s.body, x.color, x.age) && forall o :: o in x.age ==> x.age[o] == MarkedAge(s.age[o]);
    hide *;
    YoungSweptAt(s, x, t, w);
    MakesEnded(s, x, again, Snap(t.body, t.color, t.age));
    CollectedIs(s, x, again, Elems(s.lists.all[..|s.lists.all| - s.lists.old1]), t);
    KeptIs(s);
    CollectedBase(s, x.color, x.age, t);
  }

  /** youngcollection, without the choice of going on in incremental mode */
  method YoungCollection(g: Collector)
    requires Shape(StateOf(g))
    modifies g
    ensures Base(StateOf(g)) && YoungWhite(g.color, g.age)
    ensures Collected(old(StateOf(g)), old(Kept(StateOf(g))), StateOf(g))
  {
    hide *;
    ghost var s := StateOf(g);
    StateFields(g);
    SnapFields(g);
    KeptIs(s);
    MarkYoung(g, Kept(s));
    ghost var x, again := SnapOf(g), g.grayagain;
    StateFields(g);
    SnapFields(g);
    KeptMarked(s, x, again);
    ReadyToSweep(s, x, again);
    SweepYoung(g, x, s.lists.(firstold1 := Null));
    ghost var w := SnapOf(g);
    StateFields(g);
    SnapFields(g);
    SweptListed(s, x, again, g.all, |g.all| - g.old1, g.firstold1, w);
    CorrectGrayList(g);
    StateFields(g);
    SnapFields(g);
    YoungDone(s, x, again, StateOf(g), w);
  }

  /** The list to be corrected after the sweep. */
  lemma SweptListed(s: State, x: Snap, again: seq<Ref>, all: seq<Ref>, p: nat, f: Ptr, w: Snap)
    requires Shape(s) && x.body == s.body && Finished(Seen(s), x.color, s.age, x.age, again)
    requires YoungSwept(x, s.lists.(firstold1 := Null), all, p, f, w)
    ensures Once(again) && Remaining(w, again) == again
    ensures forall o :: o in again ==> o in w.color && o in w.age && o in w.body
  {
    hide Finished, Swept, KeptLists, FirstOld1, Elems, Remaining, Once;
    AllRemain(s, x, again, Elems(s.lists.all[..|s.lists.all| - s.lists.old1]));
  }

  // ---- Safety of a minor collection --------------------------------------------------------------------

  /** While what is not looked into refers to marked objects only, a minor collection keeps all that these reach. */
  lemma KeptReach(s: State)
    requires Traced(s)
    ensures Kept(s) == Reach(s.body, Marked(s.color) + s.roots) && Closed(s.body, Kept(s))
  {
    var init := Marked(s.color) + s.roots;
    SeenClosed(s);
    ShapeFields(s);
    assert Tricolor(s.body, s.color, s.age, s.gray, s.again);
    hide Traced, Shape, Reach, Closed;
    ReachClosed(Seen(s), init);
    ReachClosed(s.body, init);
    SeenLess(s, Reach(s.body, init));
    TracedMore(s, Kept(s));
    ReachLeast(Seen(s), init, Reach(s.body, init));
    ReachLeast(s.body, init, Kept(s));
  }

  lemma SeenLess(s: State, m: set<Ref>)
    requires Closed(s.body, m)
    ensures Closed(Seen(s), m)
  {
    forall o | o in m ensures Refs(Seen(s), o) <= m {
      assert Refs(Seen(s), o) <= Refs(s.body, o);
    }
  }

  lemma TracedMore(s: State, m: set<Ref>)
    requires Tricolor(s.body, s.color, s.age, s.gray, s.again) && Closed(Seen(s), m) && Marked(s.color) <= m
    ensures Closed(s.body, m)
  {
    forall o | o in m ensures Refs(s.body, o) <= m {
      if Skipped(s, o) {
        assert o in Marked(s.color);
      } else {
        assert Refs(Seen(s), o) == Refs(s.body, o);
      }
    }
  }

  lemma KeptAt(s: State, t: State, o: Ref)
    requires Shape(s) && Collected(s, Kept(s), t)
    ensures (o in t.body <==> o in Kept(s)) && (o in t.body ==> o in s.body && t.body[o] == s.body[o])
    ensures o in s.body && o !in t.body ==> o in s.color && s.color[o].White? && o !in s.roots
  {
    KeptIs(s);
    ShapeFields(s);
    hide Shape, Collected, Kept, Closed, Seen;
    CollectedAt(s, Kept(s), t, o);
  }

  /**
   Then no minor collection frees an object that can be reached, or changes one that it keeps; what it frees
   was white and could not be reached from a marked object either.
   */
  lemma NothingLost(s: State, t: State)
    requires Traced(s) && Collected(s, Kept(s), t)
    ensures Reach(s.body, s.roots + {s.main}) <= t.body.Keys
    ensures forall o :: o in t.body ==> o in s.body && t.body[o] == s.body[o]
    ensures forall o :: o in s.body && o !in t.body ==>
        o in s.color && s.color[o].White? && o !in Reach(s.body, Marked(s.color) + s.roots)
  {
    assert Shape(s);
    hide *;
    KeptReach(s);
    ReachKept(s);
    forall o
      ensures (o in t.body <==> o in Kept(s)) && (o in t.body ==> o in s.body && t.body[o] == s.body[o])
      ensures o in s.body && o !in t.body ==> o in s.color && s.color[o].White? && o !in s.roots
    {
      KeptAt(s, t, o);
    }
  }

  lemma ReachKept(s: State)
    requires Shape(s) && Closed(s.body, Kept(s))
    ensures Reach(s.body, s.roots + {s.main}) <= Kept(s)
  {
    KeptIs(s);
    hide Shape, Reach, Kept, Closed, Seen;
    ReachLeast(s.body, s.roots + {s.main}, Kept(s));
  }

  /** In any case, no reference to a freed object is left if and only if what was skipped refers to kept objects. */
  lemma NoDangling(s: State, t: State)
    requires Shape(s) && Collected(s, Kept(s), t)
    ensures Closed(t.body, t.body.Keys) <==> forall o :: Skipped(s, o) ==> Refs(s.body, o) <= Kept(s)
  {
    KeptIs(s);
    CollectedClosed(s, Kept(s), t);
    SeenClosedKept(s);
    hide Shape, Collected, Kept, Reach, LiveSet;
    if forall o :: Skipped(s, o) ==> Refs(s.body, o) <= Kept(s) {
      forall o | o in Kept(s) ensures Refs(s.body, o) <= Kept(s) {
        assert Skipped(s, o) || Refs(Seen(s), o) == Refs(s.body, o);
      }
    }
  }

  lemma SeenClosedKept(s: State)
    requires Shape(s)
    ensures Closed(Seen(s), Kept(s)) && forall o :: Skipped(s, o) ==> o in Kept(s)
  {
    KeptIs(s);
    hide Shape, Reach;
    assert forall o :: Skipped(s, o) ==> o in Marked(s.color);
  }

  /** The next minor collection is as safe if and only if no kept object that was settled refers to a new one. */
  lemma StaysTraced(s: State, t: State)
    requires Traced(s) && Collected(s, Kept(s), t) && Base(t)
    ensures Shape(t) && (Traced(t) <==> NoKeptToNew(s, Kept(s)))
  {
    KeptIs(s);
    KeptReach(s);
    hide Base, Collected, Kept, Closed, LiveSet, NoKeptToNew, Tricolor;
    CollectedClosed(s, Kept(s), t);
    CollectedTricolor(s, Kept(s), t);
  }

  /** The invariant makes a minor collection safe, and holds again after it. */
  lemma InvStays(s: State, t: State)
    requires Inv(s) && Collected(s, Kept(s), t) && Base(t)
    ensures Inv(t)
  {
    assert NoKeptToNew(s, Kept(s));
    StaysTraced(s, t);
    KeptIs(s);
    CollectedNoNew(s, Kept(s), t);
  }

  // ---- Entering generational mode ----------------------------------------------------------------------

  /** The heap at the end of the atomic step that enters generational mode: all live objects are marked. */
  ghost predicate AllMarked(s: State)
  {
    && s.color.Keys == s.body.Keys && s.age.Keys == s.body.Keys && Once(s.lists.all)
    && Elems(s.lists.all) == s.body.Keys
    && Marked(s.color) <= s.body.Keys && Closed(s.body, Marked(s.color))
    && s.roots <= Marked(s.color) && s.main in Marked(s.color) && IsThread(s.body, s.main)
  }

  /** atomic2gen: what is not marked is freed, and everything else becomes old. */
  method AtomicToGen(g: Collector)
    requires AllMarked(StateOf(g))
    modifies g
    ensures Inv(StateOf(g)) && AgesOk(g.body, g.age) && YoungWhite(g.color, g.age)
    ensures g.body == old(map o | o in g.body && o in Marked(g.color) :: g.body[o])
    ensures forall o :: o in g.age ==> g.age[o].Old?
  {
    hide *;
    ghost var s := StateOf(g);
    StateFields(g);
    SnapFields(g);
    ReadyToEnter(s);
    g.gray, g.grayagain := [], [];
    StateFields(g);
    SnapFields(g);
    Sweep2Old(g);
    g.survival, g.old1, g.reallyold, g.firstold1 := |g.all|, |g.all|, |g.all|, Null;
    StateFields(g);
    SnapFields(g);
    EnteredFold(s, StateOf(g));
    GenEntered(s, StateOf(g));
  }

  lemma ReadyToEnter(s: State)
    requires AllMarked(s)
    ensures Unswept(Snap(s.body, s.color, s.age), {}, s.lists.all)
    ensures s.color.Keys == s.body.Keys && s.age.Keys == s.body.Keys
  {
    assert forall o :: o in s.lists.all ==> o in Elems(s.lists.all);
  }

  lemma EnteredFold(s: State, t: State)
    requires AllMarked(s) && s.color.Keys == s.body.Keys && s.age.Keys == s.body.Keys
    requires Snap(t.body, t.color, t.age) == AllOld(Snap(s.body, s.color, s.age), Elems(s.lists.all))
    requires t.lists.all == LiveOf(s.color, s.lists.all) && Once(t.again)
    requires Elems(t.again) == Threads(s.body, Elems(t.lists.all))
    requires t.lists == Lists(t.lists.all, |t.lists.all|, |t.lists.all|, |t.lists.all|, Null)
    requires t.gray == [] && t.main == s.main && t.roots == s.roots
    ensures Entered(s, t)
  {
  }

  /** The state 't' after everything marked in 's' became old. */
  ghost predicate Entered(s: State, t: State)
  {
    && AllMarked(s) && Snap(t.body, t.color, t.age) == AllOld(Snap(s.body, s.color, s.age), Elems(s.lists.all))
    && (var l := LiveOf(s.color, s.lists.all);
        && t.lists == Lists(l, |l|, |l|, |l|, Null)
        && Once(t.again) && Elems(t.again) == Threads(s.body, Elems(l)))
    && t.gray == [] && t.main == s.main && t.roots == s.roots
  }

  lemma EnteredAt(s: State, t: State, o: Ref)
    requires Entered(s, t)
    ensures var m := Marked(s.color);
            && (o in t.body <==> o in m) && (o in t.color <==> o in m) && (o in t.age <==> o in m)
            && (o in t.lists.all <==> o in m) && (o in t.again <==> o in m && IsThread(s.body, o))
            && (o in m ==> o in s.body && t.body[o] == s.body[o] && t.age[o].Old?
                           && t.color[o] == if IsThread(s.body, o) then Gray else Black)
  {
    LiveOfIn(s.color, s.lists.all, o);
    assert o in Elems(s.lists.all) <==> o in s.lists.all;
    assert o in Elems(t.again) <==> o in t.again;
    assert o in Elems(t.lists.all) <==> o in t.lists.all;
  }

  /** A heap of old objects, all marked. */
  ghost predicate OldState(b: Heap, m: set<Ref>, t: State)
  {
    && t.body.Keys == m && t.color.Keys == m && t.age.Keys == m && Elems(t.lists.all) == m && m <= b.Keys
    && (forall o :: o in m ==>
          t.body[o] == b[o] && t.age[o].Old? && t.color[o] == if IsThread(b, o) then Gray else Black)
    && (forall o :: o in t.again <==> o in m && IsThread(b, o))
    && Once(t.lists.all) && Once(t.again) && t.gray == [] && t.main in m && IsThread(b, t.main) && t.roots <= m
    && t.lists == Lists(t.lists.all, |t.lists.all|, |t.lists.all|, |t.lists.all|, Null)
  }

  lemma OldLists(b: Heap, m: set<Ref>, t: State)
    requires OldState(b, m, t)
    ensures PartsOk(t.age, t.lists) && FirstOk(t.age, t.lists)
  {
    forall o | o in t.lists.all ensures AgeOf(t.age, o).Old? {
      assert o in Elems(t.lists.all);
    }
  }

  lemma OldColors(b: Heap, m: set<Ref>, t: State)
    requires OldState(b, m, t)
    ensures GraysOk(t.body, t.color, t.age, t.gray, t.again) && ColorsOk(t.body, t.color, t.age, t.gray, t.again)
    ensures YoungWhite(t.color, t.age)
  {
  }

  lemma OldRefs(b: Heap, m: set<Ref>, t: State)
    requires OldState(b, m, t) && Closed(b, m)
    ensures RootsOk(t.body, t.color, t.age, t.main, t.roots) && Tricolor(t.body, t.color, t.age, t.gray, t.again)
    ensures AgesOk(t.body, t.age) && Closed(t.body, t.body.Keys)
  {
    assert Marked(t.color) == m;
    forall o ensures o in t.body ==> Refs(t.body, o) <= m {
      if o in t.body {
        assert o in m && Refs(t.body, o) == Refs(b, o);
      }
    }
  }

  lemma GenEntered(s: State, t: State)
    requires Entered(s, t)
    ensures Inv(t) && AgesOk(t.body, t.age) && YoungWhite(t.color, t.age)
    ensures t.body == (map o | o in s.body && o in Marked(s.color) :: s.body[o])
    ensures forall o :: o in t.age ==> t.age[o].Old?
  {
    var m := Marked(s.color);
    EnteredState(s, t);
    assert Closed(s.body, m);
    OldFields(s.body, m, t);
    hide *;
    OldLists(s.body, m, t);
    OldColors(s.body, m, t);
    OldRefs(s.body, m, t);
    BaseFold(t);
    AgesEnough(t.body, t.age);
    TracedFold(t);
  }

  lemma TracedFold(t: State)
    requires Base(t) && Closed(t.body, t.body.Keys) && Tricolor(t.body, t.color, t.age, t.gray, t.again)
    requires NoOldToNew(t.body, t.age)
    ensures Inv(t)
  {
  }

  lemma OldFields(b: Heap, m: set<Ref>, t: State)
    requires OldState(b, m, t)
    ensures Once(t.lists.all) && Elems(t.lists.all) == t.body.Keys && t.lists.survival == |t.lists.all|
    ensures t.lists.reallyold == t.lists.old1 == t.lists.survival && t.body == (map o | o in b && o in m :: b[o])
    ensures forall o :: o in t.age ==> t.age[o].Old?
  {
  }

  lemma EnteredState(s: State, t: State)
    requires Entered(s, t)
    ensures OldState(s.body, Marked(s.color), t)
  {
    var m := Marked(s.color);
    LiveOfOnce(s.color, s.lists.all);
    assert Once(t.lists.all) && Once(t.again) && t.gray == [];
    assert t.main in m && IsThread(s.body, t.main) && t.roots <= m && m <= s.body.Keys;
    assert t.lists == Lists(t.lists.all, |t.lists.all|, |t.lists.all|, |t.lists.all|, Null);
    hide Entered, LiveOf, AllOld, Threads, Once, Marked, IsThread;
    forall o
      ensures (o in t.body <==> o in m) && (o in t.color <==> o in m) && (o in t.age <==> o in m)
      ensures (o in t.lists.all <==> o in m) && (o in t.again <==> o in m && IsThread(s.body, o))
      ensures o in m ==> o in s.body && t.body[o] == s.body[o] && t.age[o].Old?
                         && t.color[o] == if IsThread(s.body, o) then Gray else Black
    {
      EnteredAt(s, t, o);
    }
  }
}
