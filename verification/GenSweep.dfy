/** Sweeping in generational mode: dead objects are freed and the others get older. */
module GenSweep {
  import opened GenHeap

  /** The objects of 'l' that are not white, in order. */
  ghost function LiveOf(c: Colors, l: seq<Ref>): (r: seq<Ref>)
    ensures |r| <= |l|
  {
    if l == [] then []
    else LiveOf(c, l[..|l| - 1]) + if l[|l| - 1] in c && c[l[|l| - 1]].White? then [] else [l[|l| - 1]]
  }

  lemma {:induction false} LiveOfSplit(c: Colors, l: seq<Ref>, k: seq<Ref>)
    ensures LiveOf(c, l + k) == LiveOf(c, l) + LiveOf(c, k)
    decreases |k|
  {
    if k == [] {
      assert l + k == l;
    } else {
      LiveOfSplit(c, l, k[..|k| - 1]);
      assert (l + k)[..|l + k| - 1] == l + k[..|k| - 1];
    }
  }

  lemma {:induction false} LiveOfIn(c: Colors, l: seq<Ref>, o: Ref)
    ensures o in LiveOf(c, l) <==> o in l && !(o in c && c[o].White?)
  {
    if l != [] {
      LiveOfIn(c, l[..|l| - 1], o);
      assert l == l[..|l| - 1] + [l[|l| - 1]];
    }
  }

  lemma {:induction false} LiveOfOnce(c: Colors, l: seq<Ref>)
    requires Once(l)
    ensures Once(LiveOf(c, l))
  {
    if l != [] {
      LiveOfOnce(c, l[..|l| - 1]);
      LiveOfIn(c, l[..|l| - 1], l[|l| - 1]);
    }
  }

  lemma {:induction false} LiveOfAll(c: Colors, l: seq<Ref>)
    requires forall o :: o in l ==> !(o in c && c[o].White?)
    ensures LiveOf(c, l) == l
  {
    if l != [] {
      LiveOfAll(c, l[..|l| - 1]);
      assert l == l[..|l| - 1] + [l[|l| - 1]];
    }
  }

  // ---- sweepgen --------------------------------------------------------------------------------------

  /** The table 'nextage', and what becomes of new objects. */
  function SweptAge(x: Age): Age
  {
    match x
    case New => Survival
    case Survival => Old1
    case Old0 => Old1
    case Old1 => Old
    case _ => x
  }

  /** The color that the sweep gives to an object that is not white. */
  function LiveColor(x: Age, k: Color): Color
  {
    if x.New? then White else k
  }

  /** The heap before a sweep. */
  datatype Snap = Snap(body: Heap, color: Colors, age: Ages)

  ghost predicate Dead(s: Snap, d: set<Ref>, o: Ref)
  {
    o in d && o in s.color && s.color[o].White?
  }

  /** The heap once the objects of 'd' were swept. */
  ghost function Swept(s: Snap, d: set<Ref>): Snap
    requires s.color.Keys == s.body.Keys && s.age.Keys == s.body.Keys
  {
    Snap(map o | o in s.body && !Dead(s, d, o) :: s.body[o],
         map o | o in s.color && !Dead(s, d, o) :: if o in d then LiveColor(s.age[o], s.color[o]) else s.color[o],
         map o | o in s.age && !Dead(s, d, o) :: if o in d then SweptAge(s.age[o]) else s.age[o])
  }

  /** The first object of 'l' that becomes OLD1. */
  ghost function FirstOld1(s: Snap, l: seq<Ref>): Ptr
  {
    if l == [] then Null
    else
      var o, p := l[|l| - 1], FirstOld1(s, l[..|l| - 1]);
      if p.Null? && o in s.color && o in s.age && !s.color[o].White? && SweptAge(s.age[o]).Old1? then To(o) else p
  }

  function OrElse(p: Ptr, q: Ptr): Ptr
  {
    if p.To? then p else q
  }

  ghost function SnapOf(g: Collector): Snap
    reads g`body, g`color, g`age
  {
    Snap(g.body, g.color, g.age)
  }

  lemma SweptDead(s: Snap, d: set<Ref>, o: Ref)
    requires s.color.Keys == s.body.Keys && s.age.Keys == s.body.Keys
    requires o in s.body && o !in d && s.color[o].White?
    ensures var w := Swept(s, d);
            Swept(s, d + {o}) == Snap(w.body - {o}, w.color - {o}, w.age - {o})
  {
  }

  lemma SweptLive(s: Snap, d: set<Ref>, o: Ref)
    requires s.color.Keys == s.body.Keys && s.age.Keys == s.body.Keys
    requires o in s.body && o !in d && !s.color[o].White?
    ensures var w := Swept(s, d);
            Swept(s, d + {o})
            == Snap(w.body, w.color[o := LiveColor(s.age[o], s.color[o])], w.age[o := SweptAge(s.age[o])])
  {
  }

  lemma SweptAt(s: Snap, d: set<Ref>, o: Ref)
    requires s.color.Keys == s.body.Keys && s.age.Keys == s.body.Keys && o in s.body && o !in d
    ensures var w := Swept(s, d);
            && o in w.body && o in w.color && o in w.age && w.color[o] == s.color[o] && w.age[o] == s.age[o]
  {
  }

  lemma ElemsNext(l: seq<Ref>, j: nat)
    requires j < |l| && Once(l)
    ensures Elems(l[..j + 1]) == Elems(l[..j]) + {l[j]} && l[j] !in Elems(l[..j])
  {
    assert l[..j + 1] == l[..j] + [l[j]];
  }

  lemma LiveNext(c: Colors, l: seq<Ref>, j: nat)
    requires j < |l|
    ensures LiveOf(c, l[..j + 1]) == LiveOf(c, l[..j]) + if l[j] in c && c[l[j]].White? then [] else [l[j]]
  {
    assert l[..j + 1][..j] == l[..j];
  }

  lemma FirstNext(s: Snap, l: seq<Ref>, j: nat, f: Ptr)
    requires j < |l| && l[j] in s.color && l[j] in s.age
    ensures s.color[l[j]].White? ==> FirstOld1(s, l[..j + 1]) == FirstOld1(s, l[..j])
    ensures !s.color[l[j]].White? ==>
              OrElse(f, FirstOld1(s, l[..j + 1]))
              == OrElse(OrElse(f, FirstOld1(s, l[..j])), if SweptAge(s.age[l[j]]).Old1? then To(l[j]) else Null)
  {
    assert l[..j + 1][..j] == l[..j];
  }

  /** The list while it is swept: the first part is swept, the object at hand comes next. */
  ghost predicate ListAt(c: Colors, l0: seq<Ref>, from: nat, j: nat, l: seq<Ref>, i: nat)
  {
    from + j <= |l0| && i == from + |LiveOf(c, l0[from..][..j])| &&
    l == l0[..from] + LiveOf(c, l0[from..][..j]) + l0[from + j..]
  }

  lemma ListNext(c: Colors, l0: seq<Ref>, from: nat, j: nat, l: seq<Ref>, i: nat)
    requires ListAt(c, l0, from, j, l, i) && from + j < |l0|
    ensures i < |l| && l[i] == l0[from..][j] == l0[from + j] && |l| - i == |l0| - from - j
    ensures l[i] in c && c[l[i]].White? ==> ListAt(c, l0, from, j + 1, l[..i] + l[i + 1..], i)
    ensures l[i] in c && !c[l[i]].White? ==> ListAt(c, l0, from, j + 1, l, i + 1)
  {
    LiveNext(c, l0[from..], j);
  }

  /** Object 'o' was not swept yet. */
  ghost predicate Unswept(s: Snap, d: set<Ref>, l: seq<Ref>)
  {
    s.color.Keys == s.body.Keys && s.age.Keys == s.body.Keys && Once(l) && forall o :: o in l ==> o in s.body && o !in d
  }

  lemma UnsweptAt(s: Snap, d: set<Ref>, l: seq<Ref>, j: nat)
    requires Unswept(s, d, l) && j < |l|
    ensures s.color.Keys == s.body.Keys && s.age.Keys == s.body.Keys && l[j] in s.body && l[j] in s.color
    ensures l[j] in s.age
    ensures l[j] !in d + Elems(l[..j]) && d + Elems(l[..j + 1]) == d + Elems(l[..j]) + {l[j]}
  {
    ElemsNext(l, j);
  }

  lemma SweepEnd(c: Colors, l0: seq<Ref>, from: nat, limit: nat, j: nat, l: seq<Ref>, end: nat)
    requires ListAt(c, l0, from, j, l, end) && from + j + limit == |l0|
    ensures l0[from..][..j] == l0[from..|l0| - limit] && end == from + |LiveOf(c, l0[from..|l0| - limit])|
    ensures l == l0[..from] + LiveOf(c, l0[from..|l0| - limit]) + l0[|l0| - limit..]
  {
    assert l0[from..][..j] == l0[from..|l0| - limit];
  }

  /** A sweep from place 'from' of the list 'l0' that has seen 'j' objects and is now at place 'i' of the list 'l'. */
  ghost predicate SweepAt(s: Snap, d: set<Ref>, l0: seq<Ref>, from: nat, f0: Ptr, j: nat, l: seq<Ref>, i: nat,
                          f: Ptr, w: Snap)
  {
    && from + j <= |l0| && ListAt(s.color, l0, from, j, l, i) && Unswept(s, d, l0[from..])
    && w == Swept(s, d + Elems(l0[from..][..j])) && f == OrElse(f0, FirstOld1(s, l0[from..][..j]))
  }

  lemma SweepStart(s: Snap, d: set<Ref>, l0: seq<Ref>, from: nat, f: Ptr)
    requires from <= |l0| && Unswept(s, d, l0[from..])
    ensures SweepAt(s, d, l0, from, f, 0, l0, from, f, Swept(s, d)) && |l0| - from == |l0| - from - 0
  {
    assert l0 == l0[..from] + [] + l0[from..];
    assert Elems(l0[from..][..0]) == {} && d + {} == d;
  }

  lemma SweepHere(s: Snap, d: set<Ref>, l0: seq<Ref>, from: nat, f0: Ptr, j: nat, l: seq<Ref>, i: nat, f: Ptr, w: Snap)
    requires SweepAt(s, d, l0, from, f0, j, l, i, f, w) && from + j < |l0|
    ensures i < |l| && l[i] == l0[from..][j] && |l| - i == |l0| - from - j
    ensures l[i] in w.body && l[i] in w.color && l[i] in w.age && w.color[l[i]].White? == s.color[l[i]].White?
    ensures Unswept(s, d, l0[from..]) && l[i] in s.body && l[i] !in d + Elems(l0[from..][..j])
    ensures w == Swept(s, d + Elems(l0[from..][..j]))
  {
    hide ListAt, Unswept, Swept, OrElse, FirstOld1;
    ListNext(s.color, l0, from, j, l, i);
    UnsweptAt(s, d, l0[from..], j);
    SweptAt(s, d + Elems(l0[from..][..j]), l[i]);
  }

  lemma StepDead(s: Snap, d: set<Ref>, l0: seq<Ref>, from: nat, f0: Ptr, j: nat, l: seq<Ref>, i: nat, f: Ptr, w: Snap)
    requires SweepAt(s, d, l0, from, f0, j, l, i, f, w) && from + j < |l0| && i < |l|
    requires l[i] in w.color && w.color[l[i]].White?
    ensures SweepAt(s, d, l0, from, f0, j + 1, l[..i] + l[i + 1..], i, f,
                    Snap(w.body - {l[i]}, w.color - {l[i]}, w.age - {l[i]}))
  {
    hide ListAt, Unswept, Swept, OrElse, FirstOld1;
    SweepHere(s, d, l0, from, f0, j, l, i, f, w);
    ListNext(s.color, l0, from, j, l, i);
    UnsweptAt(s, d, l0[from..], j);
    FirstNext(s, l0[from..], j, f0);
    SweptDead(s, d + Elems(l0[from..][..j]), l[i]);
  }

  lemma StepLive(s: Snap, d: set<Ref>, l0: seq<Ref>, from: nat, f0: Ptr, j: nat, l: seq<Ref>, i: nat, f: Ptr, w: Snap)
    requires SweepAt(s, d, l0, from, f0, j, l, i, f, w) && from + j < |l0| && i < |l|
    requires l[i] in w.color && l[i] in w.age && !w.color[l[i]].White?
    ensures var x := SweptAge(w.age[l[i]]);
            SweepAt(s, d, l0, from, f0, j + 1, l, i + 1, OrElse(f, if x.Old1? then To(l[i]) else Null),
                    Snap(w.body, w.color[l[i] := LiveColor(w.age[l[i]], w.color[l[i]])], w.age[l[i] := x]))
  {
    hide ListAt, Unswept, Swept, OrElse, FirstOld1, SweptAge;
    SweepHere(s, d, l0, from, f0, j, l, i, f, w);
    ListNext(s.color, l0, from, j, l, i);
    UnsweptAt(s, d, l0[from..], j);
    FirstNext(s, l0[from..], j, f0);
    SweptAt(s, d + Elems(l0[from..][..j]), l[i]);
    SweptLive(s, d + Elems(l0[from..][..j]), l[i]);
  }

  /** What sweeping the objects from place 'from' up to the last 'limit' ones leaves. */
  ghost predicate SweptTo(s: Snap, d: set<Ref>, l0: seq<Ref>, from: nat, limit: nat, f0: Ptr, l: seq<Ref>, end: nat,
                          f: Ptr, w: Snap)
  {
    && s.color.Keys == s.body.Keys && s.age.Keys == s.body.Keys && from + limit <= |l0|
    && var seg := l0[from..|l0| - limit];
    && w == Swept(s, d + Elems(seg)) && end == from + |LiveOf(s.color, seg)| && f == OrElse(f0, FirstOld1(s, seg))
    && l == l0[..from] + LiveOf(s.color, seg) + l0[|l0| - limit..]
  }

  /** One object of a sweep. */
  method SweepObject(g: Collector, i: nat, ghost s: Snap, ghost d: set<Ref>, ghost l0: seq<Ref>, ghost from: nat,
                     ghost f0: Ptr, ghost j: nat) returns (next: nat)
    requires from + j < |l0| && SweepAt(s, d, l0, from, f0, j, g.all, i, g.firstold1, SnapOf(g))
    modifies g`body, g`color, g`age, g`all, g`firstold1
    ensures SweepAt(s, d, l0, from, f0, j + 1, g.all, next, g.firstold1, SnapOf(g))
  {
    hide *;
    SweepHere(s, d, l0, from, f0, j, g.all, i, g.firstold1, SnapOf(g));
    SnapFields(g);
    var o := g.all[i];
    if g.color[o].White? {
      StepDead(s, d, l0, from, f0, j, g.all, i, g.firstold1, SnapOf(g));
      g.all := g.all[..i] + g.all[i + 1..];
      g.body, g.color, g.age := g.body - {o}, g.color - {o}, g.age - {o};
      next := i;
    } else {
      StepLive(s, d, l0, from, f0, j, g.all, i, g.firstold1, SnapOf(g));
      SweepLive(g, o);
      next := i + 1;
    }
    SnapFields(g);
  }

  /** sweepgen, from place 'from' of the list up to its last 'limit' objects */
  method SweepGen(g: Collector, from: nat, limit: nat, ghost s: Snap, ghost d: set<Ref>) returns (end: nat)
    requires from + limit <= |g.all| && Unswept(s, d, g.all[from..]) && SnapOf(g) == Swept(s, d)
    modifies g`body, g`color, g`age, g`all, g`firstold1
    ensures SweptTo(s, d, old(g.all), from, limit, old(g.firstold1), g.all, end, g.firstold1, SnapOf(g))
  {
    hide *;
    ghost var l0, f0 := g.all, g.firstold1;
    ghost var j: nat := 0;
    end := from;
    SweepStart(s, d, l0, from, f0);
    while |g.all| - end > limit
      invariant from + j + limit <= |l0| && |g.all| - end == |l0| - from - j
      invariant SweepAt(s, d, l0, from, f0, j, g.all, end, g.firstold1, SnapOf(g))
      decreases |l0| - j
    {
      end := SweepObject(g, end, s, d, l0, from, f0, j);
      j := j + 1;
      SweepLength(s, d, l0, from, f0, j, g.all, end, g.firstold1, SnapOf(g));
    }
    SweepDone(s, d, l0, from, limit, f0, j, g.all, end, g.firstold1, SnapOf(g));
  }

  lemma SweepLength(s: Snap, d: set<Ref>, l0: seq<Ref>, from: nat, f0: Ptr, j: nat, l: seq<Ref>, i: nat, f: Ptr,
          w: Snap)
    requires SweepAt(s, d, l0, from, f0, j, l, i, f, w)
    ensures |l| - i == |l0| - from - j
  {
  }

  lemma SnapFields(g: Collector)
    ensures SnapOf(g) == Snap(g.body, g.color, g.age)
  {
  }

  lemma SweepDone(s: Snap, d: set<Ref>, l0: seq<Ref>, from: nat, limit: nat, f0: Ptr, j: nat, l: seq<Ref>, i: nat,
                  f: Ptr, w: Snap)
    requires SweepAt(s, d, l0, from, f0, j, l, i, f, w) && from + j + limit == |l0|
    ensures SweptTo(s, d, l0, from, limit, f0, l, i, f, w)
  {
    hide Swept, OrElse, FirstOld1;
    SweepEnd(s.color, l0, from, limit, j, l, i);
  }

  /** What becomes of an object that is not white when it is swept. */
  method SweepLive(g: Collector, o: Ref)
    requires o in g.color && o in g.age && !g.color[o].White?
    modifies g`color, g`age, g`firstold1
    ensures var x := old(g.age[o]);
            && g.color == old(g.color)[o := LiveColor(x, old(g.color[o]))] && g.age == old(g.age)[o := SweptAge(x)]
            && g.firstold1 == OrElse(old(g.firstold1), if SweptAge(x).Old1? then To(o) else Null)
  {
    if g.age[o].New? {
      g.color, g.age := g.color[o := White], g.age[o := Survival];
    } else {
      g.age := g.age[o := SweptAge(g.age[o])];
      if g.age[o].Old1? && g.firstold1.Null? {
        g.firstold1 := To(o);
      }
    }
  }
}
