/** The end of a minor collection: 'correctgraylist'. */
module GenCorrect {
  import opened GenHeap
  import opened GenSweep

  /** The object stays in the list: touched in this cycle, or a thread. */
  predicate Remains(b: Heap, c: Colors, a: Ages, o: Ref)
  {
    !(o in c && c[o].White?) && (AgeOf(a, o).Touched1? || IsThread(b, o))
  }

  function CorrectColor(b: Heap, c: Colors, a: Ages, o: Ref): Color
    requires o in c
  {
    if c[o].White? || (IsThread(b, o) && !AgeOf(a, o).Touched1?) then c[o] else Black
  }

  function CorrectAge(b: Heap, c: Colors, a: Ages, o: Ref): Age
    requires o in a
  {
    if o in c && c[o].White? then a[o]
    else if a[o].Touched1? then Touched2
    else if !IsThread(b, o) && a[o].Touched2? then Old
    else a[o]
  }

  ghost function Remaining(s: Snap, l: seq<Ref>): (r: seq<Ref>)
    ensures |r| <= |l|
  {
    if l == [] then []
    else Remaining(s, l[..|l| - 1])
         + if Remains(s.body, s.color, s.age, l[|l| - 1]) then [l[|l| - 1]] else []
  }

  /** The heap once the objects of 'd' were corrected. */
  ghost function Corrected(s: Snap, d: set<Ref>): Snap
  {
    Snap(s.body,
         map o | o in s.color :: if o in d then CorrectColor(s.body, s.color, s.age, o) else s.color[o],
         map o | o in s.age :: if o in d then CorrectAge(s.body, s.color, s.age, o) else s.age[o])
  }

  /** The list 'l0' with its first 'j' objects corrected. */
  ghost predicate CorrectAt(s: Snap, l0: seq<Ref>, j: nat, l: seq<Ref>, i: nat, w: Snap)
  {
    && Once(l0) && j <= |l0| && (forall o :: o in l0 ==> o in s.color && o in s.age && o in s.body)
    && w == Corrected(s, Elems(l0[..j])) && l == Remaining(s, l0[..j]) + l0[j..] && i == |Remaining(s, l0[..j])|
  }

  lemma CorrectHere(s: Snap, l0: seq<Ref>, j: nat, l: seq<Ref>, i: nat, w: Snap)
    requires CorrectAt(s, l0, j, l, i, w)
    ensures |l| - i == |l0| - j
    ensures i < |l| ==> l[i] in w.color && l[i] in w.age && l[i] in w.body
    ensures j == |l0| ==> l == Remaining(s, l0) && w == Corrected(s, Elems(l0))
  {
    if j == |l0| {
      assert l0[..j] == l0 && l0[j..] == [];
    }
  }

  lemma CorrectNext(s: Snap, l0: seq<Ref>, j: nat, l: seq<Ref>, i: nat, w: Snap)
    requires CorrectAt(s, l0, j, l, i, w) && i < |l|
    requires l[i] in w.color && l[i] in w.age
    ensures var o := l[i];
            var w' := Snap(w.body, w.color[o := CorrectColor(w.body, w.color, w.age, o)],
                           w.age[o := CorrectAge(w.body, w.color, w.age, o)]);
            if Remains(w.body, w.color, w.age, o) then CorrectAt(s, l0, j + 1, l, i + 1, w')
            else CorrectAt(s, l0, j + 1, l[..i] + l[i + 1..], i, w')
  {
    hide Once, CorrectColor, CorrectAge, Remains;
    ElemsNext(l0, j);
    assert l0[..j + 1][..j] == l0[..j];
    assert l[i] == l0[j];
    CorrectedNext(s, Elems(l0[..j]), l[i]);
  }

  lemma CorrectedNext(s: Snap, d: set<Ref>, o: Ref)
    requires o in s.color && o in s.age && o !in d
    ensures var w := Corrected(s, d);
            && o in w.color && o in w.age
            && Remains(w.body, w.color, w.age, o) == Remains(s.body, s.color, s.age, o)
            && Corrected(s, d + {o}) == Snap(w.body, w.color[o := CorrectColor(w.body, w.color, w.age, o)],
                                             w.age[o := CorrectAge(w.body, w.color, w.age, o)])
  {
  }

  lemma CorrectStart(s: Snap, l0: seq<Ref>)
    requires Once(l0) && forall o :: o in l0 ==> o in s.color && o in s.age && o in s.body
    ensures CorrectAt(s, l0, 0, l0, 0, s)
  {
    assert Elems(l0[..0]) == {};
  }

  /** correctgraylist */
  method CorrectGrayList(g: Collector)
    requires Once(g.grayagain) && forall o :: o in g.grayagain ==> o in g.color && o in g.age && o in g.body
    modifies g`color, g`age, g`grayagain
    ensures g.grayagain == old(Remaining(SnapOf(g), g.grayagain))
    ensures SnapOf(g) == old(Corrected(SnapOf(g), Elems(g.grayagain)))
  {
    ghost var s, l0 := SnapOf(g), g.grayagain;
    ghost var j: nat := 0;
    var i: nat := 0;
    SnapFields(g);
    hide *;
    CorrectStart(s, l0);
    while i < |g.grayagain|
      invariant CorrectAt(s, l0, j, g.grayagain, i, SnapOf(g))
      decreases |g.grayagain| - i
    {
      CorrectHere(s, l0, j, g.grayagain, i, SnapOf(g));
      i := CorrectPlace(g, i, s, l0, j);
      j := j + 1;
      CorrectHere(s, l0, j, g.grayagain, i, SnapOf(g));
    }
    CorrectHere(s, l0, j, g.grayagain, i, SnapOf(g));
  }

  method CorrectPlace(g: Collector, i: nat, ghost s: Snap, ghost l0: seq<Ref>, ghost j: nat) returns (next: nat)
    requires CorrectAt(s, l0, j, g.grayagain, i, SnapOf(g)) && i < |g.grayagain|
    modifies g`color, g`age, g`grayagain
    ensures CorrectAt(s, l0, j + 1, g.grayagain, next, SnapOf(g))
  {
    hide *;
    CorrectHere(s, l0, j, g.grayagain, i, SnapOf(g));
    SnapFields(g);
    CorrectNext(s, l0, j, g.grayagain, i, SnapOf(g));
    var o := g.grayagain[i];
    var remain := CorrectObject(g, o);
    if remain {
      next := i + 1;
    } else {
      g.grayagain := g.grayagain[..i] + g.grayagain[i + 1..];
      next := i;
    }
    SnapFields(g);
  }

  method CorrectObject(g: Collector, o: Ref) returns (remain: bool)
    requires o in g.color && o in g.age && o in g.body
    modifies g`color, g`age
    ensures remain == old(Remains(g.body, g.color, g.age, o))
    ensures g.color == old(g.color)[o := CorrectColor(g.body, old(g.color), old(g.age), o)]
    ensures g.age == old(g.age)[o := CorrectAge(g.body, old(g.color), old(g.age), o)]
  {
    if g.color[o].White? {
      remain := false;
    } else if g.age[o].Touched1? {
      g.color, g.age := g.color[o := Black], g.age[o := Touched2];
      remain := true;
    } else if g.body[o].Thread? {
      remain := true;
    } else {
      if g.age[o].Touched2? {
        g.age := g.age[o := Old];
      }
      g.color := g.color[o := Black];
      remain := false;
    }
  }

  // ---- sweep2old -------------------------------------------------------------------------------------

  ghost function Threads(b: Heap, s: set<Ref>): set<Ref>
  {
    set o | o in s && IsThread(b, o)
  }

  /** The heap once the objects of 'd' were swept to enter generational mode. */
  ghost function AllOld(s: Snap, d: set<Ref>): Snap
    requires s.color.Keys == s.body.Keys && s.age.Keys == s.body.Keys
  {
    Snap(map o | o in s.body && !Dead(s, d, o) :: s.body[o],
         map o | o in s.color && !Dead(s, d, o) ::
           if o in d then (if IsThread(s.body, o) then Gray else Black) else s.color[o],
         map o | o in s.age && !Dead(s, d, o) :: if o in d then Old else s.age[o])
  }

  ghost predicate OldAt(s: Snap, l0: seq<Ref>, j: nat, l: seq<Ref>, i: nat, again: seq<Ref>, w: Snap)
  {
    && Unswept(s, {}, l0) && ListAt(s.color, l0, 0, j, l, i) && w == AllOld(s, Elems(l0[..j]))
    && Once(again) && Elems(again) == Threads(s.body, Elems(LiveOf(s.color, l0[..j])))
  }

  lemma OldHere(s: Snap, l0: seq<Ref>, j: nat, l: seq<Ref>, i: nat, again: seq<Ref>, w: Snap)
    requires OldAt(s, l0, j, l, i, again, w)
    ensures |l| - i == |l0| - j
    ensures i < |l| ==> l[i] in w.color && l[i] in w.age && l[i] in w.body
    ensures j == |l0| ==> l == LiveOf(s.color, l0) && w == AllOld(s, Elems(l0))
    ensures j == |l0| ==> Once(again) && Elems(again) == Threads(s.body, Elems(l))
  {
    hide AllOld, Threads, LiveOf, Once;
    if i < |l| {
      OldFields(s, l0, j, l, i, again, w);
      ElemsNext(l0, j);
      OldMaps(s, Elems(l0[..j]), l0[j]);
    } else {
      assert l0[0..] == l0;
      assert l0[..j] == l0 && l0[j..] == [];
    }
  }

  lemma OldNext(s: Snap, l0: seq<Ref>, j: nat, l: seq<Ref>, i: nat, again: seq<Ref>, w: Snap)
    requires OldAt(s, l0, j, l, i, again, w) && i < |l| && l[i] in w.color && l[i] in w.age && l[i] in w.body
    ensures var o := l[i];
            if w.color[o].White? then
              OldAt(s, l0, j + 1, l[..i] + l[i + 1..], i, again, Snap(w.body - {o}, w.color - {o}, w.age - {o}))
            else
              OldAt(s, l0, j + 1, l, i + 1, (if w.body[o].Thread? then [o] else []) + again,
                    Snap(w.body, w.color[o := if w.body[o].Thread? then Gray else Black], w.age[o := Old]))
  {
    hide ListAt, AllOld, Threads, LiveOf, Elems;
    OldFields(s, l0, j, l, i, again, w);
    ListNext(s.color, l0, 0, j, l, i);
    assert l0[0..] == l0;
    ElemsNext(l0, j);
    OldMaps(s, Elems(l0[..j]), l0[j]);
    ThreadsNext(s, l0, j, again);
    assert [] + again == again;
  }

  lemma OldFields(s: Snap, l0: seq<Ref>, j: nat, l: seq<Ref>, i: nat, again: seq<Ref>, w: Snap)
    requires OldAt(s, l0, j, l, i, again, w) && i < |l|
    ensures j < |l0| && l[i] == l0[j] && l0[j] in s.body && s.color.Keys == s.body.Keys && s.age.Keys == s.body.Keys
    ensures |l| - i == |l0| - j && Once(l0)
  {
    assert l0[0..] == l0;
  }

  /** The threads among the live objects seen. */
  lemma ThreadsNext(s: Snap, l0: seq<Ref>, j: nat, again: seq<Ref>)
    requires Once(l0) && j < |l0| && l0[j] in s.color && l0[j] in s.body
    requires Once(again) && Elems(again) == Threads(s.body, Elems(LiveOf(s.color, l0[..j])))
    ensures var again' := (if s.body[l0[j]].Thread? && !s.color[l0[j]].White? then [l0[j]] else []) + again;
            Once(again') && Elems(again') == Threads(s.body, Elems(LiveOf(s.color, l0[..j + 1])))
  {
    var o, live := l0[j], LiveOf(s.color, l0[..j]);
    ElemsNext(l0, j);
    LiveNext(s.color, l0, j);
    LiveOfIn(s.color, l0[..j], o);
    hide LiveOf, Once;
    assert o !in l0[..j] && o !in live;
    if s.color[o].White? {
      assert [] + again == again && live + [] == live;
    } else {
      ThreadAdded(s.body, live, o, again);
    }
  }

  lemma ThreadAdded(b: Heap, live: seq<Ref>, o: Ref, again: seq<Ref>)
    requires o in b && o !in live && Once(again) && Elems(again) == Threads(b, Elems(live))
    ensures var again' := (if b[o].Thread? then [o] else []) + again;
            Once(again') && Elems(again') == Threads(b, Elems(live + [o]))
  {
    assert o !in Elems(again);
    assert o !in again;
    assert Elems([o] + again) == {o} + Elems(again) && [] + again == again;
    assert Elems(live + [o]) == Elems(live) + {o};
  }

  lemma OldMaps(s: Snap, d: set<Ref>, o: Ref)
    requires s.color.Keys == s.body.Keys && s.age.Keys == s.body.Keys && o in s.body && o !in d
    ensures var w, w' := AllOld(s, d), AllOld(s, d + {o});
            && o in w.color && o in w.body && o in w.age && w.color[o] == s.color[o] && w.body[o] == s.body[o]
            && w' == if s.color[o].White? then Snap(w.body - {o}, w.color - {o}, w.age - {o})
                     else Snap(w.body, w.color[o := if s.body[o].Thread? then Gray else Black], w.age[o := Old])
  {
  }

  lemma OldStart(s: Snap, l0: seq<Ref>)
    requires Unswept(s, {}, l0)
    ensures OldAt(s, l0, 0, l0, 0, [], s)
  {
    assert l0[0..] == l0 && l0[..0] == [] && l0 == [] + [] + l0;
    assert Threads(s.body, Elems([])) == Elems([]);
  }

  /** sweep2old */
  method Sweep2Old(g: Collector)
    requires Unswept(SnapOf(g), {}, g.all) && g.grayagain == []
    modifies g`body, g`color, g`age, g`all, g`grayagain
    ensures SnapOf(g) == old(AllOld(SnapOf(g), Elems(g.all))) && g.all == old(LiveOf(g.color, g.all))
    ensures Once(g.grayagain) && Elems(g.grayagain) == Threads(old(g.body), Elems(g.all))
  {
    ghost var s, l0 := SnapOf(g), g.all;
    ghost var j: nat := 0;
    var i: nat := 0;
    SnapFields(g);
    hide *;
    OldStart(s, l0);
    while i < |g.all|
      invariant OldAt(s, l0, j, g.all, i, g.grayagain, SnapOf(g)) && s.color == old(g.color) && s.body == old(g.body)
      decreases |g.all| - i
    {
      OldHere(s, l0, j, g.all, i, g.grayagain, SnapOf(g));
      i := OldPlace(g, i, s, l0, j);
      j := j + 1;
      OldHere(s, l0, j, g.all, i, g.grayagain, SnapOf(g));
    }
    OldHere(s, l0, j, g.all, i, g.grayagain, SnapOf(g));
  }

  method OldPlace(g: Collector, i: nat, ghost s: Snap, ghost l0: seq<Ref>, ghost j: nat) returns (next: nat)
    requires OldAt(s, l0, j, g.all, i, g.grayagain, SnapOf(g)) && i < |g.all|
    modifies g`body, g`color, g`age, g`all, g`grayagain
    ensures OldAt(s, l0, j + 1, g.all, next, g.grayagain, SnapOf(g))
  {
    hide *;
    OldHere(s, l0, j, g.all, i, g.grayagain, SnapOf(g));
    SnapFields(g);
    OldNext(s, l0, j, g.all, i, g.grayagain, SnapOf(g));
    next := OldObject(g, i);
    SnapFields(g);
  }

  /** One object of 'sweep2old'. */
  method OldObject(g: Collector, i: nat) returns (next: nat)
    requires i < |g.all| && g.all[i] in g.color && g.all[i] in g.age && g.all[i] in g.body
    modifies g`body, g`color, g`age, g`all, g`grayagain
    ensures var o, l := old(g.all[i]), old(g.all);
            if old(g.color[o]).White? then
              && next == i && g.all == l[..i] + l[i + 1..] && g.grayagain == old(g.grayagain)
              && SnapOf(g) == Snap(old(g.body) - {o}, old(g.color) - {o}, old(g.age) - {o})
            else
              && next == i + 1 && g.all == l
              && g.grayagain == (if old(g.body[o]).Thread? then [o] else []) + old(g.grayagain)
              && SnapOf(g) == Snap(old(g.body), old(g.color)[o := if old(g.body[o]).Thread? then Gray else Black],
                                   old(g.age)[o := Old])
  {
    var o := g.all[i];
    if g.color[o].White? {
      g.all := g.all[..i] + g.all[i + 1..];
      g.body, g.color, g.age := g.body - {o}, g.color - {o}, g.age - {o};
      next := i;
    } else {
      g.age := g.age[o := Old];
      if g.body[o].Thread? {
        g.color, g.grayagain := g.color[o := Gray], [o] + g.grayagain;
      } else {
        g.color := g.color[o := Black];
      }
      next := i + 1;
    }
  }
}
