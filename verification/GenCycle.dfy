/** A whole minor collection, and entering generational mode. */
module GenCycle {
  import opened GenHeap
  import opened GenMark
  import opened GenAtomic
  import opened GenSweep

  /** A minor collection takes every age one step further. */
  function NextAge(x: Age): Age
  {
    match x
    case New => Survival
    case Survival => Old1
    case Old0 => Old1
    case Old1 => Old
    case Old => Old
    case Touched1 => Touched2
    case Touched2 => Old
  }

  /** The color that a minor collection leaves to a live object: new ones are white, old threads gray. */
  function NextColor(b: Heap, a: Ages, o: Ref): Color
  {
    if AgeOf(a, o).New? then White else if IsThread(b, o) && IsOld(AgeOf(a, o)) then Gray else Black
  }

  /** The objects that remain in 'grayagain'. */
  ghost function Staying(b: Heap, a: Ages, m: set<Ref>): set<Ref>
  {
    set o | o in m && Stays(b, a, o)
  }

  ghost predicate KeptLists(c: Colors, l: Lists, l': Lists)
    requires l.reallyold <= l.old1 <= l.survival <= |l.all|
  {
    && l'.all == LiveOf(c, l.all) && l'.survival == |l'.all|
    && l'.old1 == |LiveOf(c, l.all[|l.all| - l.survival..])| && l'.reallyold == l.old1
  }

  /** The state 't' is what a minor collection makes of 's' when 'm' is what it marks. */
  ghost predicate Collected(s: State, m: set<Ref>, t: State)
  {
    && t.body == (map o | o in s.body && o in m :: s.body[o])
    && t.age == (map o | o in s.age && o in m :: NextAge(s.age[o]))
    && t.color == (map o | o in s.color && o in m :: NextColor(s.body, s.age, o))
    && t.gray == [] && Once(t.again) && Elems(t.again) == Staying(s.body, s.age, m)
    && t.main == s.main && t.roots == s.roots
  }

  // ---- The invariant after a minor collection --------------------------------------------------------

  ghost predicate LiveSet(s: State, m: set<Ref>)
  {
    && m <= s.body.Keys && s.roots <= m && s.main in m
    && forall o :: o in s.body && IsOld(AgeOf(s.age, o)) ==> o in m
  }

  lemma CollectedAt(s: State, m: set<Ref>, t: State, o: Ref)
    requires Collected(s, m, t) && m <= s.body.Keys && s.color.Keys == s.body.Keys && s.age.Keys == s.body.Keys
    ensures o in t.body <==> o in m
    ensures o in t.color <==> o in m
    ensures o in t.age <==> o in m
    ensures o in m ==>
        t.body[o] == s.body[o] && t.age[o] == NextAge(s.age[o]) && t.color[o] == NextColor(s.body, s.age, o)
    ensures o in t.again <==> o in m && Stays(s.body, s.age, o)
  {
    assert o in Elems(t.again) <==> o in t.again;
  }

  lemma AgeFitsNext(x: Age, y: Age)
    requires AgeFits(x, y)
    ensures AgeFits(NextAge(x), NextAge(y))
  {
  }

  /** The ages of lgc.h, where they hold, hold again. */
  lemma CollectedAges(s: State, m: set<Ref>, t: State)
    requires Shape(s) && AgesOk(s.body, s.age) && LiveSet(s, m) && Closed(s.body, m) && Collected(s, m, t)
    ensures AgesOk(t.body, t.age)
  {
    ShapeFields(s);
    hide Shape, Collected, AgeFits, NextAge;
    forall o | o in t.body ensures AgesAt(t.body, t.age, o) {
      CollectedAt(s, m, t, o);
      assert AgesAt(s.body, s.age, o) && Refs(t.body, o) == Refs(s.body, o);
      forall r | r in Refs(t.body, o) && !IsThread(t.body, o) ensures AgeFits(AgeOf(t.age, o), AgeOf(t.age, r)) {
        CollectedAt(s, m, t, r);
        AgeFitsNext(s.age[o], s.age[r]);
      }
    }
  }

  lemma CollectedRoots(s: State, m: set<Ref>, t: State)
    requires Shape(s) && LiveSet(s, m) && Collected(s, m, t)
    ensures RootsOk(t.body, t.color, t.age, t.main, t.roots) && t.body.Keys == m
  {
    assert t.main == s.main && t.roots == s.roots && s.roots <= m && s.main in m;
    hide Shape, Collected;
    ShapeFields(s);
    forall o
      ensures (o in t.body <==> o in m) && (o in t.color <==> o in m) && (o in t.age <==> o in m)
      ensures o in m ==> o in s.body && t.body[o] == s.body[o]
    {
      CollectedAt(s, m, t, o);
    }
    CollectedAge(s, m, t, s.main);
    assert AgeOf(s.age, s.main) == s.age[s.main];
    hide *;
    NextOld(s.age[s.main]);
    CollectedRootsFold(s, m, t);
  }

  /** No reference to a freed object is left if and only if what was marked is closed. */
  lemma CollectedClosed(s: State, m: set<Ref>, t: State)
    requires Shape(s) && LiveSet(s, m) && Collected(s, m, t)
    ensures Closed(t.body, t.body.Keys) <==> Closed(s.body, m)
  {
    CollectedRoots(s, m, t);
    ShapeFields(s);
    hide Shape, Collected, LiveSet, RootsOk;
    forall o | o in m ensures Refs(t.body, o) == Refs(s.body, o) {
      CollectedAt(s, m, t, o);
    }
  }

  lemma NextOld(x: Age)
    ensures IsOld(x) ==> IsOld(NextAge(x))
  {
  }

  lemma CollectedRootsFold(s: State, m: set<Ref>, t: State)
    requires forall o :: (o in t.body <==> o in m) && (o in t.color <==> o in m) && (o in t.age <==> o in m)
    requires forall o :: o in m ==> o in s.body && t.body[o] == s.body[o]
    requires t.main == s.main && t.roots == s.roots && s.roots <= m && s.main in m
    requires IsThread(s.body, s.main) && IsOld(AgeOf(t.age, t.main))
    ensures RootsOk(t.body, t.color, t.age, t.main, t.roots) && t.body.Keys == m
  {
    assert t.body.Keys == m && t.color.Keys == m && t.age.Keys == m;
  }

  /** Only blocks are touched. */
  lemma ThreadUntouched(s: State, o: Ref)
    requires Shape(s) && o in s.body
    ensures Touched(AgeOf(s.age, o)) ==> s.body[o].Block?
  {
    assert ColorAt(s.body, s.color, s.age, s.gray, s.again, o);
  }

  lemma CollectedColor(s: State, m: set<Ref>, t: State, o: Ref)
    requires Shape(s) && LiveSet(s, m) && Collected(s, m, t)
    ensures o in t.again ==> InAgain(t.body, t.color, t.age, o)
    ensures o in t.body && o in t.color ==> ColorAt(t.body, t.color, t.age, t.gray, t.again, o)
    ensures o in t.body && o in t.color && !IsOld(AgeOf(t.age, o)) ==> t.color[o].White?
  {
    assert t.gray == [] && m <= s.body.Keys;
    hide *;
    ShapeFields(s);
    CollectedAt(s, m, t, o);
    if o in m {
      ThreadUntouched(s, o);
      AgeIs(s.age, o);
      ColorIs(s.body, s.age, t, o);
    }
  }

  lemma AgeIs(a: Ages, o: Ref)
    requires o in a
    ensures AgeOf(a, o) == a[o]
  {
  }

  lemma ColorIs(b: Heap, a: Ages, t: State, o: Ref)
    requires o in t.body && o in t.color && o in t.age && o in b && o in a && t.body[o] == b[o] && t.gray == []
    requires t.age[o] == NextAge(a[o]) && t.color[o] == NextColor(b, a, o) && (o in t.again <==> Stays(b, a, o))
    requires Touched(a[o]) ==> b[o].Block?
    ensures o in t.again ==> InAgain(t.body, t.color, t.age, o)
    ensures ColorAt(t.body, t.color, t.age, t.gray, t.again, o)
    ensures !IsOld(AgeOf(t.age, o)) ==> t.color[o].White?
  {
  }

  lemma CollectedColors(s: State, m: set<Ref>, t: State)
    requires Shape(s) && LiveSet(s, m) && Collected(s, m, t)
    ensures GraysOk(t.body, t.color, t.age, t.gray, t.again) && ColorsOk(t.body, t.color, t.age, t.gray, t.again)
    ensures YoungWhite(t.color, t.age)
  {
    assert t.gray == [] && Once(t.again);
    CollectedRoots(s, m, t);
    assert t.color.Keys == t.body.Keys;
    hide *;
    forall o ensures o in t.again ==> InAgain(t.body, t.color, t.age, o)
      ensures o in t.body && o in t.color ==> ColorAt(t.body, t.color, t.age, t.gray, t.again, o)
      ensures o in t.body && o in t.color && !IsOld(AgeOf(t.age, o)) ==> t.color[o].White?
    {
      CollectedColor(s, m, t, o);
    }
    ColorsFold(t);
  }

  lemma ColorsFold(t: State)
    requires t.gray == [] && Once(t.again) && t.color.Keys == t.body.Keys
    requires forall o :: o in t.again ==> InAgain(t.body, t.color, t.age, o)
    requires forall o :: o in t.body && o in t.color ==> ColorAt(t.body, t.color, t.age, t.gray, t.again, o)
    requires forall o :: o in t.body && o in t.color && !IsOld(AgeOf(t.age, o)) ==> t.color[o].White?
    ensures GraysOk(t.body, t.color, t.age, t.gray, t.again) && ColorsOk(t.body, t.color, t.age, t.gray, t.again)
    ensures YoungWhite(t.color, t.age)
  {
  }

  /** No kept object that was settled, threads apart, refers to a new one. */
  ghost predicate NoKeptToNew(s: State, m: set<Ref>)
  {
    forall o, r :: o in m ==> !OldToNew(s.body, s.age, o, r)
  }

  /**
   After a minor collection, what the next one will not look into refers to marked objects only, if and only
   if no kept object that was settled referred to a new one.
   */
  lemma CollectedTricolor(s: State, m: set<Ref>, t: State)
    requires Shape(s) && LiveSet(s, m) && Closed(s.body, m) && Collected(s, m, t)
    ensures Tricolor(t.body, t.color, t.age, t.gray, t.again) <==> NoKeptToNew(s, m)
  {
    assert t.gray == [];
    hide Shape, Collected;
    ShapeFields(s);
    if NoKeptToNew(s, m) {
      forall o, r | o in Marked(t.color) && o !in t.again && !AgeOf(t.age, o).Old1? && r in Refs(t.body, o)
        ensures r in Marked(t.color)
      {
        CollectedAt(s, m, t, o);
        CollectedAt(s, m, t, r);
        ThreadUntouched(s, o);
        UnlistedSettled(s, m, o, r);
      }
    } else {
      var o: nat, r: nat :| o in m && OldToNew(s.body, s.age, o, r);
      CollectedAt(s, m, t, o);
      CollectedAt(s, m, t, r);
      SettledUnlisted(s, m, o, r);
      assert o in Marked(t.color) && r in Refs(t.body, o) && r !in Marked(t.color);
    }
  }

  lemma UnlistedSettled(s: State, m: set<Ref>, o: Ref, r: Ref)
    requires LiveSet(s, m) && Closed(s.body, m) && s.age.Keys == s.body.Keys && o in m && r in Refs(s.body, o)
    requires !Stays(s.body, s.age, o) && (Touched(AgeOf(s.age, o)) ==> s.body[o].Block?)
    requires !AgeOf(s.age, o).New? && !NextAge(AgeOf(s.age, o)).Old1? && NoKeptToNew(s, m)
    ensures r in m && NextColor(s.body, s.age, r) != White
  {
    assert !OldToNew(s.body, s.age, o, r);
  }

  lemma SettledUnlisted(s: State, m: set<Ref>, o: Ref, r: Ref)
    requires LiveSet(s, m) && Closed(s.body, m) && s.age.Keys == s.body.Keys && o in m && OldToNew(s.body, s.age, o, r)
    ensures r in m && !Stays(s.body, s.age, o) && NextAge(AgeOf(s.age, o)).Old? && NextColor(s.body, s.age, o) != White
    ensures NextColor(s.body, s.age, r) == White && AgeOf(s.age, o) != New
  {
  }

  // ---- The list of all objects -----------------------------------------------------------------------

  lemma {:induction false} PlaceSplit(l: seq<Ref>, k: seq<Ref>, r: Ref)
    requires r in l
    ensures Place(l + k, r) == Place(l, r)
  {
    if l[0] != r {
      PlaceSplit(l[1..], k, r);
      assert (l + k)[1..] == l[1..] + k;
    }
  }

  /** The first object that becomes OLD1 is the first one with this age afterwards. */
  lemma {:induction false} FirstIs(s: Snap, l: seq<Ref>, a: Ages)
    requires forall o :: o in l ==> o in s.color && o in s.age
    requires forall o :: o in l && !s.color[o].White? ==> AgeOf(a, o).Old1? == SweptAge(s.age[o]).Old1?
    ensures var f, l' := FirstOld1(s, l), LiveOf(s.color, l);
            if f.Null? then forall o :: o in l' ==> !AgeOf(a, o).Old1?
            else f.r in l' && forall i :: 0 <= i < Place(l', f.r) ==> !AgeOf(a, l'[i]).Old1?
  {
    if l != [] {
      var k, x := l[..|l| - 1], l[|l| - 1];
      FirstIs(s, k, a);
      var l' := LiveOf(s.color, k);
      var p := FirstOld1(s, k);
      var l2 := LiveOf(s.color, l);
      assert l2 == l' || l2 == l' + [x];
      assert forall i :: 0 <= i < |l'| ==> l2[i] == l'[i];
      if p.To? {
        PlaceSplit(l', [x], p.r);
      } else if !s.color[x].White? && SweptAge(s.age[x]).Old1? {
        assert FirstOld1(s, l) == To(x);
        assert AgeOf(a, x).Old1? && x !in l';
        PlaceLast(l', x);
      }
    }
  }

  lemma {:induction false} PlaceLast(l: seq<Ref>, x: Ref)
    requires x !in l
    ensures Place(l + [x], x) == |l|
  {
    if l != [] {
      PlaceLast(l[1..], x);
      assert (l + [x])[1..] == l[1..] + [x];
    }
  }

  /** The ages of live objects from three places of the list on. */
  lemma CollectedPlaces(s: State, m: set<Ref>, t: State, o: Ref)
    requires Shape(s) && LiveSet(s, m) && Collected(s, m, t) && o in m
    ensures var l, x := s.lists, AgeOf(t.age, o);
            && l.reallyold <= l.old1 <= l.survival <= |l.all| && !x.New?
            && (o in l.all[|l.all| - l.survival..] ==> IsOld(x) && !x.Old0?)
            && (o in l.all[|l.all| - l.old1..] ==> !x.Old1?)
  {
    assert PartsOk(s.age, s.lists) && s.color.Keys == s.body.Keys && s.age.Keys == s.body.Keys;
    hide Shape, Collected;
    CollectedAt(s, m, t, o);
  }

  lemma InvLists(s: State, m: set<Ref>)
    requires Shape(s) && LiveSet(s, m)
    ensures var l := s.lists;
            && l.reallyold <= l.old1 <= l.survival <= |l.all| && Elems(l.all) == s.body.Keys && Once(l.all)
            && forall o :: o in l.all[|l.all| - l.old1..] ==> o in m
  {
    var l := s.lists;
    assert ListOk(s.body, s.age, l);
    hide Shape, FirstOk, Closed;
    forall o | o in l.all[|l.all| - l.old1..] ensures o in m {
      assert o in Elems(l.all);
    }
  }

  /** Which live objects are in the last parts of the list; those of the very last one are all live. */
  lemma LastParts(c: Colors, l: Lists, l': Lists)
    requires l.reallyold <= l.old1 <= l.survival <= |l.all| && KeptLists(c, l, l')
    requires forall o :: o in l.all[|l.all| - l.old1..] ==> o in Marked(c)
    ensures l'.reallyold <= l'.old1 <= l'.survival <= |l'.all|
    ensures l'.all[|l'.all| - l'.reallyold..] == l.all[|l.all| - l.old1..]
    ensures l'.all[|l'.all| - l'.old1..] == LiveOf(c, l.all[|l.all| - l.survival..])
  {
    hide LiveOf;
    var n := |l.all|;
    var x, y, z := l.all[..n - l.survival], l.all[n - l.survival..n - l.old1], l.all[n - l.old1..];
    ThreeParts(l.all, n - l.survival, n - l.old1);
    LiveParts(c, x, y, z);
  }

  lemma ThreeParts(l: seq<Ref>, i: nat, j: nat)
    requires i <= j <= |l|
    ensures l == l[..i] + (l[i..j] + l[j..]) && l[i..] == l[i..j] + l[j..]
  {
  }

  lemma LiveParts(c: Colors, x: seq<Ref>, y: seq<Ref>, z: seq<Ref>)
    requires forall o :: o in z ==> o in Marked(c)
    ensures var l, k := LiveOf(c, x + (y + z)), LiveOf(c, y + z);
            && |z| <= |k| <= |l| && l[|l| - |k|..] == k && l[|l| - |z|..] == z
  {
    LiveOfAll(c, z);
    LiveOfSplit(c, x, y + z);
    LiveOfSplit(c, y, z);
    hide *;
    Suffix(LiveOf(c, x), LiveOf(c, y + z));
    Suffix(LiveOf(c, x) + LiveOf(c, y), z);
    assert LiveOf(c, x) + LiveOf(c, y) + z == LiveOf(c, x) + (LiveOf(c, y) + z);
  }

  lemma Suffix(x: seq<Ref>, y: seq<Ref>)
    ensures (x + y)[|x + y| - |y|..] == y
  {
  }

  lemma LiveInSet(s: State, c: Colors, l: seq<Ref>, o: Ref)
    requires Shape(s) && c.Keys == s.body.Keys && o in LiveOf(c, l) && forall x :: x in l ==> x in s.lists.all
    ensures o in Marked(c) && o in l
  {
    assert Elems(s.lists.all) == s.body.Keys;
    hide Shape, LiveOf;
    LiveOfIn(c, l, o);
    assert o in Elems(s.lists.all);
  }

  lemma CollectedParts(s: State, c: Colors, t: State)
    requires Shape(s) && c.Keys == s.body.Keys && LiveSet(s, Marked(c)) && Collected(s, Marked(c), t)
    requires s.lists.reallyold <= s.lists.old1 <= s.lists.survival <= |s.lists.all| && KeptLists(c, s.lists, t.lists)
    ensures var l := t.lists;
            l.reallyold <= l.old1 <= l.survival <= |l.all| && PartsOk(t.age, l)
  {
    var l, l', m := s.lists, t.lists, Marked(c);
    var n := |l.all|;
    hide Shape, Collected, AgeOf, IsOld, LiveOf, LiveSet;
    InvLists(s, m);
    LastParts(c, l, l');
    forall o | o in l'.all[|l'.all| - l'.survival..] ensures !AgeOf(t.age, o).New? {
      LiveInSet(s, c, l.all, o);
      CollectedPlaces(s, m, t, o);
    }
    forall o | o in l'.all[|l'.all| - l'.old1..] ensures IsOld(AgeOf(t.age, o)) && !AgeOf(t.age, o).Old0? {
      LiveInSet(s, c, l.all[n - l.survival..], o);
      CollectedPlaces(s, m, t, o);
    }
    forall o | o in l'.all[|l'.all| - l'.reallyold..] ensures !AgeOf(t.age, o).Old1? {
      CollectedPlaces(s, m, t, o);
    }
  }

  lemma NextOld1(x: Age)
    ensures NextAge(x).Old1? == SweptAge(MarkedAge(x)).Old1?
  {
  }

  /** 'firstold1' is found by the sweep. */
  lemma CollectedFirst(s: State, c: Colors, a: Ages, t: State)
    requires Shape(s) && c.Keys == a.Keys == s.body.Keys == s.age.Keys
    requires LiveSet(s, Marked(c)) && Collected(s, Marked(c), t)
    requires s.lists.reallyold <= s.lists.old1 <= s.lists.survival <= |s.lists.all| && KeptLists(c, s.lists, t.lists)
    requires forall o :: o in a ==> a[o] == MarkedAge(s.age[o])
    requires t.lists.firstold1 == FirstOld1(Snap(s.body, c, a), s.lists.all[..|s.lists.all| - s.lists.old1])
    ensures t.lists.reallyold <= |t.lists.all| && FirstOk(t.age, t.lists)
  {
    hide *;
    var l := s.lists;
    var n := |l.all|;
    ShapeFields(s);
    InvLists(s, Marked(c));
    KeptFields(c, l, t.lists);
    LastLive(c, l.all, n - l.old1);
    MarkedIn(c);
    TwoParts(l.all, n - l.old1);
    CollectedFirstParts(s, c, a, t, l.all[..n - l.old1], l.all[n - l.old1..]);
  }

  lemma KeptFields(c: Colors, l: Lists, l': Lists)
    requires l.reallyold <= l.old1 <= l.survival <= |l.all| && KeptLists(c, l, l')
    ensures l'.all == LiveOf(c, l.all) && l'.reallyold == l.old1
  {
  }

  lemma MarkedIn(c: Colors)
    ensures Marked(c) <= c.Keys
  {
  }

  lemma TwoParts(l: seq<Ref>, i: nat)
    requires i <= |l|
    ensures l == l[..i] + l[i..] && |l[..i]| == i
  {
  }

  lemma CollectedFirstParts(s: State, c: Colors, a: Ages, t: State, k: seq<Ref>, z: seq<Ref>)
    requires Shape(s) && c.Keys == a.Keys == s.body.Keys == s.age.Keys && s.color.Keys == s.body.Keys
    requires LiveSet(s, Marked(c)) && Collected(s, Marked(c), t) && Marked(c) <= s.body.Keys
    requires s.lists.all == k + z && (forall o :: o in z ==> o in Marked(c)) && s.lists.old1 == |z|
    requires z == s.lists.all[|k|..]
    requires forall o :: o in a ==> a[o] == MarkedAge(s.age[o])
    requires t.lists.firstold1 == FirstOld1(Snap(s.body, c, a), k)
    requires t.lists.all == LiveOf(c, k) + z && t.lists.reallyold == |z|
    ensures FirstOk(t.age, t.lists)
  {
    hide *;
    forall o | o in k
      ensures o in c && o in a && (!c[o].White? ==> AgeOf(t.age, o).Old1? == SweptAge(a[o]).Old1?)
    {
      assert o in s.lists.all;
      BecomesOld1(s, c, a, t, o);
    }
    forall o | o in z ensures !AgeOf(t.age, o).Old1? {
      CollectedPlaces(s, Marked(c), t, o);
    }
    FirstInLive(Snap(s.body, c, a), k, z, t);
  }

  lemma LastLive(c: Colors, l: seq<Ref>, i: nat)
    requires i <= |l| && forall o :: o in l[i..] ==> o in Marked(c)
    ensures LiveOf(c, l) == LiveOf(c, l[..i]) + l[i..]
  {
    assert l == l[..i] + l[i..];
    LiveOfSplit(c, l[..i], l[i..]);
    LiveOfAll(c, l[i..]);
  }

  lemma BecomesOld1(s: State, c: Colors, a: Ages, t: State, o: Ref)
    requires Shape(s) && c.Keys == a.Keys == s.body.Keys == s.age.Keys && s.color.Keys == s.body.Keys
    requires Collected(s, Marked(c), t) && Marked(c) <= s.body.Keys && o in s.lists.all
    requires forall x :: x in a ==> a[x] == MarkedAge(s.age[x])
    ensures o in c && o in a && (!c[o].White? ==> AgeOf(t.age, o).Old1? == SweptAge(a[o]).Old1?)
  {
    hide *;
    InMarked(s, c, o);
    NextOld1(s.age[o]);
    if !c[o].White? { CollectedAge(s, Marked(c), t, o); }
  }

  lemma FirstFold(t: State)
    requires var f, l := t.lists.firstold1, t.lists.all;
             && t.lists.reallyold <= |l|
             && if f.Null? then forall o :: o in l ==> !AgeOf(t.age, o).Old1?
                else Place(l, f.r) < |l| - t.lists.reallyold
                     && forall i :: 0 <= i < Place(l, f.r) ==> !AgeOf(t.age, l[i]).Old1?
    ensures FirstOk(t.age, t.lists)
  {
  }

  lemma InMarked(s: State, c: Colors, o: Ref)
    requires Shape(s) && o in s.lists.all && c.Keys == s.body.Keys
    ensures o in c && o in s.age && (!c[o].White? ==> o in Marked(c))
  {
    assert o in Elems(s.lists.all);
  }

  lemma NoneFound(x: seq<Ref>, z: seq<Ref>, a: Ages)
    requires (forall o :: o in x ==> !AgeOf(a, o).Old1?) && (forall o :: o in z ==> !AgeOf(a, o).Old1?)
    ensures forall o :: o in x + z ==> !AgeOf(a, o).Old1?
  {
  }

  lemma OneFound(x: seq<Ref>, z: seq<Ref>, a: Ages, r: Ref)
    requires r in x && forall i :: 0 <= i < Place(x, r) ==> !AgeOf(a, x[i]).Old1?
    ensures Place(x + z, r) < |x + z| - |z| && forall i :: 0 <= i < Place(x + z, r) ==> !AgeOf(a, (x + z)[i]).Old1?
  {
    PlaceSplit(x, z, r);
  }

  lemma FirstInLive(s: Snap, k: seq<Ref>, z: seq<Ref>, t: State)
    requires forall o :: o in k ==> o in s.color && o in s.age
    requires forall o :: o in k && !s.color[o].White? ==> AgeOf(t.age, o).Old1? == SweptAge(s.age[o]).Old1?
    requires forall o :: o in z ==> !AgeOf(t.age, o).Old1?
    requires t.lists.firstold1 == FirstOld1(s, k) && t.lists.all == LiveOf(s.color, k) + z && t.lists.reallyold == |z|
    ensures FirstOk(t.age, t.lists)
  {
    hide *;
    FirstIs(s, k, t.age);
    var f, x := FirstOld1(s, k), LiveOf(s.color, k);
    if f.To? {
      OneFound(x, z, t.age, f.r);
    } else {
      NoneFound(x, z, t.age);
    }
    FirstFold(t);
  }

  lemma CollectedAge(s: State, m: set<Ref>, t: State, o: Ref)
    requires Collected(s, m, t) && m <= s.body.Keys && s.color.Keys == s.body.Keys && s.age.Keys == s.body.Keys
    requires o in m
    ensures AgeOf(t.age, o) == NextAge(s.age[o])
  {
    CollectedAt(s, m, t, o);
  }

  /** What always holds of the heap after a minor collection, which leaves no young object marked. */
  lemma CollectedBase(s: State, c: Colors, a: Ages, t: State)
    requires Shape(s) && c.Keys == a.Keys == s.body.Keys == s.age.Keys
    requires LiveSet(s, Marked(c)) && Collected(s, Marked(c), t)
    requires s.lists.reallyold <= s.lists.old1 <= s.lists.survival <= |s.lists.all| && KeptLists(c, s.lists, t.lists)
    requires forall o :: o in a ==> a[o] == MarkedAge(s.age[o])
    requires t.lists.firstold1 == FirstOld1(Snap(s.body, c, a), s.lists.all[..|s.lists.all| - s.lists.old1])
    ensures Base(t) && YoungWhite(t.color, t.age)
  {
    hide *;
    CollectedFirst(s, c, a, t);
    CollectedParts(s, c, t);
    CollectedElems(s, c, t);
    CollectedRoots(s, Marked(c), t);
    CollectedColors(s, Marked(c), t);
    BaseFold(t);
  }

  lemma CollectedElems(s: State, c: Colors, t: State)
    requires Shape(s) && c.Keys == s.body.Keys && LiveSet(s, Marked(c)) && Collected(s, Marked(c), t)
    requires s.lists.reallyold <= s.lists.old1 <= s.lists.survival <= |s.lists.all| && KeptLists(c, s.lists, t.lists)
    ensures Once(t.lists.all) && Elems(t.lists.all) == t.body.Keys
  {
    var l := s.lists.all;
    InvLists(s, Marked(c));
    assert s.color.Keys == s.body.Keys && s.age.Keys == s.body.Keys;
    hide Shape, Collected, LiveOf, Once;
    LiveOfOnce(c, l);
    forall o ensures o in t.lists.all <==> o in t.body {
      LiveOfIn(c, l, o);
      CollectedAt(s, Marked(c), t, o);
      assert o in Elems(l) <==> o in l;
    }
  }

  lemma BaseFold(t: State)
    requires RootsOk(t.body, t.color, t.age, t.main, t.roots)
    requires Once(t.lists.all) && Elems(t.lists.all) == t.body.Keys
    requires t.lists.reallyold <= t.lists.old1 <= t.lists.survival <= |t.lists.all|
    requires PartsOk(t.age, t.lists) && FirstOk(t.age, t.lists)
    requires GraysOk(t.body, t.color, t.age, t.gray, t.again) && ColorsOk(t.body, t.color, t.age, t.gray, t.again)
    ensures Base(t)
  {
  }

  /** A new object is never old, so that no old one refers to it once all objects are a collection older. */
  lemma CollectedNoNew(s: State, m: set<Ref>, t: State)
    requires Shape(s) && LiveSet(s, m) && Collected(s, m, t)
    ensures NoOldToNew(t.body, t.age)
  {
    ShapeFields(s);
    hide Shape, Collected;
    forall r ensures !AgeOf(t.age, r).New? {
      CollectedAt(s, m, t, r);
    }
  }

  /** The age of a live thread tells its color: only one that just became OLD1 by surviving is black. */
  lemma ThreadColor(s: State, m: set<Ref>, t: State, o: Ref)
    requires Shape(s) && LiveSet(s, m) && Collected(s, m, t) && o in m && IsThread(s.body, o)
    ensures o in t.color && o in t.age && o in s.age
    ensures t.color[o].Black? <==> s.age[o].Survival?
    ensures t.color[o].Black? ==> t.age[o].Old1? && o !in t.again
  {
    ShapeFields(s);
    hide Shape, Collected;
    CollectedAt(s, m, t, o);
  }
}
