/**
 Generational mode (lgc.c, lgc.h): objects have ages, and a minor collection neither traverses nor
 sweeps the old ones.  This is the mode with 'gckind' equal to KGC_GENMINOR, in which each collection is
 one step.
 */
module GenHeap {
  type Ref = nat

  datatype Ptr = Null | To(r: Ref)

  /**
   Objects by what marking does with them.  Strings have no references.  Closed upvalues, with their
   value, and userdata without user values, with their metatable, are visited as soon as they are marked.
   Tables and other userdata (blocks), closures and prototypes, and threads go to a gray list.
   */
  datatype Obj = Str | Inline(content: Ptr) | Block(refs: set<Ref>) | Closure(refs: set<Ref>) | Thread(refs: set<Ref>)

  datatype Color = White | Gray | Black

  datatype Age = New | Survival | Old0 | Old1 | Old | Touched1 | Touched2

  /** isold */
  predicate IsOld(a: Age)
  {
    !a.New? && !a.Survival?
  }

  predicate Touched(a: Age)
  {
    a.Touched1? || a.Touched2?
  }

  type Heap = map<Ref, Obj>
  type Colors = map<Ref, Color>
  type Ages = map<Ref, Age>

  /**
   The list of all objects, newest first.  The pointers into it where the objects begin that survived one
   collection, two, and more, are shown by how many objects there are from each one to the end.
   */
  datatype Lists = Lists(all: seq<Ref>, survival: nat, old1: nat, reallyold: nat, firstold1: Ptr)

  datatype State = State(body: Heap, color: Colors, age: Ages, lists: Lists, gray: seq<Ref>, again: seq<Ref>,
                         main: Ref, roots: set<Ref>)

  ghost function Elems(s: seq<Ref>): set<Ref>
  {
    set x | x in s
  }

  ghost predicate Once(l: seq<Ref>)
  {
    forall i, j :: 0 <= i < j < |l| ==> l[i] != l[j]
  }

  ghost function Marked(c: Colors): set<Ref>
  {
    set o | o in c && !c[o].White?
  }

  function PtrSet(p: Ptr): set<Ref>
  {
    if p.To? then {p.r} else {}
  }

  function RefsOf(x: Obj): set<Ref>
  {
    match x
    case Str => {}
    case Inline(p) => PtrSet(p)
    case Block(rs) => rs
    case Closure(rs) => rs
    case Thread(rs) => rs
  }

  function Refs(b: Heap, o: Ref): set<Ref>
  {
    if o in b then RefsOf(b[o]) else {}
  }

  predicate IsThread(b: Heap, o: Ref)
  {
    o in b && b[o].Thread?
  }

  function AgeOf(a: Ages, o: Ref): Age
  {
    if o in a then a[o] else Old
  }

  /** Marking links these in a gray list. */
  predicate Listed(b: Heap, o: Ref)
  {
    o in b && (b[o].Block? || b[o].Closure? || b[o].Thread?)
  }

  // ---- The invariant while the program runs --------------------------------------------------------

  ghost predicate RootsOk(b: Heap, c: Colors, a: Ages, main: Ref, roots: set<Ref>)
  {
    c.Keys == b.Keys && a.Keys == b.Keys && roots <= b.Keys && main in b && b[main].Thread? && IsOld(a[main])
  }

  /** What the place in the list tells about the age. */
  ghost predicate PartsOk(a: Ages, l: Lists)
    requires l.reallyold <= l.old1 <= l.survival <= |l.all|
  {
    && (forall o :: o in l.all[|l.all| - l.survival..] ==> !AgeOf(a, o).New?)
    && (forall o :: o in l.all[|l.all| - l.old1..] ==> IsOld(AgeOf(a, o)) && !AgeOf(a, o).Old0?)
    && (forall o :: o in l.all[|l.all| - l.reallyold..] ==> !AgeOf(a, o).Old1?)
  }

  /** The place of 'r' in the list. */
  function Place(l: seq<Ref>, r: Ref): (k: nat)
    ensures k <= |l| && (k < |l| <==> r in l) && (k < |l| ==> l[k] == r)
  {
    if l == [] || l[0] == r then 0 else 1 + Place(l[1..], r)
  }

  /** No object of age OLD1 comes before 'firstold1'. */
  ghost predicate FirstOk(a: Ages, l: Lists)
  {
    match l.firstold1
    case Null => forall o :: o in l.all ==> !AgeOf(a, o).Old1?
    case To(r) => Place(l.all, r) < |l.all| - l.reallyold && forall i :: 0 <= i < Place(l.all, r) ==>
      !AgeOf(a, l.all[i]).Old1?
  }

  ghost predicate ListOk(b: Heap, a: Ages, l: Lists)
  {
    && Once(l.all) && Elems(l.all) == b.Keys && l.reallyold <= l.old1 <= l.survival <= |l.all|
    && PartsOk(a, l) && FirstOk(a, l)
  }

  /** Objects in 'gray' were marked by a forward barrier. */
  ghost predicate InGray(b: Heap, c: Colors, a: Ages, o: Ref)
  {
    o in b && o in c && c[o].Gray? && Listed(b, o) && (AgeOf(a, o).Old0? || !IsOld(AgeOf(a, o)))
  }

  /** Objects in 'grayagain' are touched, or old threads. */
  ghost predicate InAgain(b: Heap, c: Colors, a: Ages, o: Ref)
  {
    && o in b && o in c && IsOld(AgeOf(a, o))
    && (if b[o].Thread? then c[o].Gray? && !Touched(AgeOf(a, o))
        else b[o].Block? && (if AgeOf(a, o).Touched1? then c[o].Gray? else AgeOf(a, o).Touched2? && c[o].Black?))
  }

  ghost predicate GraysOk(b: Heap, c: Colors, a: Ages, gray: seq<Ref>, again: seq<Ref>)
  {
    && Once(gray) && Once(again)
    && (forall o :: o in gray ==> InGray(b, c, a, o) && o !in again)
    && (forall o :: o in again ==> InAgain(b, c, a, o))
  }

  /** Old objects are not white, gray ones are listed, and a thread is black only while its age is OLD1. */
  ghost predicate ColorAt(b: Heap, c: Colors, a: Ages, gray: seq<Ref>, again: seq<Ref>, o: Ref)
    requires o in b && o in c
  {
    && (IsOld(AgeOf(a, o)) ==> !c[o].White?)
    && (c[o].Gray? ==> o in gray || o in again)
    && (Touched(AgeOf(a, o)) ==> o in again)
    && (b[o].Thread? && c[o].Black? ==> AgeOf(a, o).Old1?)
    && (b[o].Block? && c[o].Black? ==> IsOld(AgeOf(a, o)))
  }

  ghost predicate ColorsOk(b: Heap, c: Colors, a: Ages, gray: seq<Ref>, again: seq<Ref>)
  {
    forall o :: o in b && o in c ==> ColorAt(b, c, a, gray, again, o)
  }

  /** A marked object that the next collection will not traverse refers to marked objects only. */
  ghost predicate Tricolor(b: Heap, c: Colors, a: Ages, gray: seq<Ref>, again: seq<Ref>)
  {
    forall o :: o in Marked(c) && o !in gray && o !in again && !AgeOf(a, o).Old1? ==> Refs(b, o) <= Marked(c)
  }

  /** The object was traversed and will not be again, unless it is touched or of age OLD1. */
  predicate Settled(a: Age)
  {
    a.Old? || a.Old1? || a.Touched2?
  }

  /** Such an object, threads apart, refers to a new one. */
  predicate OldToNew(b: Heap, a: Ages, o: Ref, r: Ref)
  {
    o in b && !b[o].Thread? && Settled(AgeOf(a, o)) && r in Refs(b, o) && AgeOf(a, r).New?
  }

  ghost predicate NoOldToNew(b: Heap, a: Ages)
  {
    forall o, r :: !OldToNew(b, a, o, r)
  }

  /** What always holds of a heap in generational mode. */
  ghost predicate Base(s: State)
  {
    && RootsOk(s.body, s.color, s.age, s.main, s.roots)
    && ListOk(s.body, s.age, s.lists)
    && GraysOk(s.body, s.color, s.age, s.gray, s.again)
    && ColorsOk(s.body, s.color, s.age, s.gray, s.again)
  }

  /** And no object refers to one that was freed. */
  ghost predicate Shape(s: State)
  {
    Base(s) && Closed(s.body, s.body.Keys)
  }

  ghost predicate Traced(s: State)
  {
    Shape(s) && Tricolor(s.body, s.color, s.age, s.gray, s.again)
  }

  /** The invariant that makes all minor collections safe. */
  ghost predicate Inv(s: State)
  {
    Traced(s) && NoOldToNew(s.body, s.age)
  }

  // ---- The age invariant of lgc.h --------------------------------------------------------------------

  /** What an object may refer to: if OLD, to old objects; if OLD1 or TOUCHED2, to anything but new objects. */
  predicate AgeFits(x: Age, y: Age)
  {
    (x.Old? ==> IsOld(y)) && (x.Old1? || x.Touched2? ==> !y.New?)
  }

  ghost predicate AgesAt(b: Heap, a: Ages, o: Ref)
  {
    IsThread(b, o) || forall r :: r in Refs(b, o) ==> AgeFits(AgeOf(a, o), AgeOf(a, r))
  }

  /** The ages as described in lgc.h, for all objects but threads, which have no barriers. */
  ghost predicate AgesOk(b: Heap, a: Ages)
  {
    forall o :: o in b ==> AgesAt(b, a, o)
  }

  /** It is more than what the collections need. */
  lemma AgesEnough(b: Heap, a: Ages)
    requires AgesOk(b, a)
    ensures NoOldToNew(b, a)
  {
    forall o, r ensures !OldToNew(b, a, o, r) {
      assert o in b ==> AgesAt(b, a, o);
    }
  }

  /** No object survived a forward barrier as a young one that is not white. */
  ghost predicate YoungWhite(c: Colors, a: Ages)
  {
    forall o :: o in c && !IsOld(AgeOf(a, o)) ==> c[o].White?
  }

  /** What the heap tells about one object. */
  lemma ShapeAt(s: State, o: Ref)
    requires Shape(s)
    ensures (o in s.body <==> o in s.color) && (o in s.body <==> o in s.age)
    ensures o in s.body ==> Refs(s.body, o) <= s.body.Keys
    ensures o in s.body ==> ColorAt(s.body, s.color, s.age, s.gray, s.again, o)
    ensures o in s.gray ==> InGray(s.body, s.color, s.age, o) && o !in s.again
    ensures o in s.again ==> InAgain(s.body, s.color, s.age, o)
  {
  }

  lemma ShapeFields(s: State)
    requires Shape(s)
    ensures s.color.Keys == s.body.Keys && s.age.Keys == s.body.Keys && s.roots <= s.body.Keys
    ensures IsThread(s.body, s.main) && IsOld(AgeOf(s.age, s.main)) && Once(s.gray) && Once(s.again)
    ensures ListOk(s.body, s.age, s.lists)
    ensures Closed(s.body, s.body.Keys)
  {
  }

  // ---- What a minor collection looks at ----------------------------------------------------------------

  /** A minor collection does not look into these: they are marked, in no list, and not of age OLD1. */
  ghost predicate Skipped(s: State, o: Ref)
  {
    o in s.color && !s.color[o].White? && o !in s.gray && o !in s.again && !AgeOf(s.age, o).Old1?
  }

  /** The heap as a minor collection sees it. */
  ghost function Seen(s: State): (b: Heap)
    ensures b.Keys == s.body.Keys && forall o :: o in b ==> b[o] == if Skipped(s, o) then Str else s.body[o]
  {
    map o | o in s.body :: if Skipped(s, o) then Str else s.body[o]
  }

  // ---- Reachability ----------------------------------------------------------------------------------

  ghost predicate Closed(b: Heap, s: set<Ref>)
  {
    forall o :: o in s ==> Refs(b, o) <= s
  }

  ghost predicate InAllClosed(b: Heap, init: set<Ref>, r: Ref)
  {
    forall s: set<Ref> :: Closed(b, s) && init <= s ==> r in s
  }

  /** What can be reached from 'init'. */
  ghost function Reach(b: Heap, init: set<Ref>): set<Ref>
  {
    set r | r in b && InAllClosed(b, init, r)
  }

  lemma ReachClosed(b: Heap, init: set<Ref>)
    requires Closed(b, b.Keys) && init <= b.Keys
    ensures Closed(b, Reach(b, init)) && init <= Reach(b, init) <= b.Keys
  {
    forall o, r | o in Reach(b, init) && r in Refs(b, o) ensures r in Reach(b, init) {
      assert InAllClosed(b, init, o);
      forall s: set<Ref> | Closed(b, s) && init <= s ensures r in s {
        assert o in s;
      }
    }
  }

  lemma ReachLeast(b: Heap, init: set<Ref>, s: set<Ref>)
    requires Closed(b, s) && init <= s
    ensures Reach(b, init) <= s
  {
    forall r | r in Reach(b, init) ensures r in s {
      assert InAllClosed(b, init, r);
    }
  }

  class Collector {
    var body: Heap
    var color: Colors
    var age: Ages
    var all: seq<Ref>
    var survival: nat
    var old1: nat
    var reallyold: nat
    var firstold1: Ptr
    var gray: seq<Ref>
    var grayagain: seq<Ref>
    var main: Ref
    var roots: set<Ref>     // the running thread, the registry and the global metatables

    constructor (s: State)
      ensures StateOf(this) == s
    {
      body, color, age, gray, grayagain, main, roots := s.body, s.color, s.age, s.gray, s.again, s.main, s.roots;
      all, survival, old1, reallyold, firstold1 :=
        s.lists.all, s.lists.survival, s.lists.old1, s.lists.reallyold, s.lists.firstold1;
    }
  }

  function ListsOf(g: Collector): Lists
    reads g`all, g`survival, g`old1, g`reallyold, g`firstold1
  {
    Lists(g.all, g.survival, g.old1, g.reallyold, g.firstold1)
  }

  function StateOf(g: Collector): State
    reads g
  {
    State(g.body, g.color, g.age, ListsOf(g), g.gray, g.grayagain, g.main, g.roots)
  }

  lemma StateFields(g: Collector)
    ensures StateOf(g) == State(g.body, g.color, g.age, ListsOf(g), g.gray, g.grayagain, g.main, g.roots)
    ensures ListsOf(g) == Lists(g.all, g.survival, g.old1, g.reallyold, g.firstold1)
  {
  }
}
