/**
 The collectable heap as the collector of lgc.c sees it, in incremental mode.

 Objects are named by references; 'body' holds what the program sees and 'color' the mark that
 only the collector uses.  Every object is also linked in one of the object lists, and gray
 objects in one of the gray lists; list heads come first.
 */
module GcHeap {
  type Ref = nat

  /** A slot of an object: empty (no value at all), a value that is not collected, or a reference. */
  datatype Val = Empty | Plain | Ptr(r: Ref)

  datatype Entry = Entry(key: Val, val: Val)

  /** What the metatable of a table says about its references (getmode). */
  datatype Mode = Strong | WeakValues | Ephemeron | AllWeak

  /** Lua and C closures and prototypes are blocks of strong references. */
  datatype Body =
    | Str
    | Table(mode: Mode, meta: Val, arr: seq<Val>, node: seq<Entry>)
    | Udata(meta: Val, uvs: seq<Val>)
    | Block(refs: seq<Val>)
    | Thread(stack: seq<Val>, open: seq<Ref>)
    | OpenUpVal(th: Ref, slot: nat)
    | ClosedUpVal(content: Val)

  /** There are two whites; one of them is current and the other marks dead objects after 'atomic'. */
  datatype Color = White(kind: bool) | Gray | Black

  datatype GcState =
    Propagate | EnterAtomic | Atomic | SwpAllGc | SwpFinObj | SwpToBeFnz | SwpEnd | CallFin | Pause

  /** A pointer to a list link: none, the head of the list being swept, or the link of an object. */
  datatype SweepPtr = NoLink | Head | LinkOf(r: Ref)

  /** An object handed to its finalizer: when it was marked for that, and the cycle that found it dead. */
  datatype Call = Call(o: Ref, stamp: nat, cycle: nat)

  type Heap = map<Ref, Body>
  type Colors = map<Ref, Color>

  ghost function Elems<T>(s: seq<T>): set<T>
  {
    set x | x in s
  }

  ghost function PtrSet(v: Val): set<Ref>
  {
    if v.Ptr? then {v.r} else {}
  }

  ghost function PtrsOf(vs: seq<Val>): set<Ref>
  {
    set v | v in vs && v.Ptr? :: v.r
  }

  /** Keys and values of the entries that are not empty. */
  ghost function KeyRefs(node: seq<Entry>): set<Ref>
  {
    set e | e in node && e.val != Empty && e.key.Ptr? :: e.key.r
  }

  ghost function ValRefs(node: seq<Entry>): set<Ref>
  {
    set e | e in node && e.val.Ptr? :: e.val.r
  }

  /** The value that an upvalue gives access to. */
  function Content(b: Heap, o: Ref): Val
    requires o in b && (b[o].OpenUpVal? || b[o].ClosedUpVal?)
  {
    match b[o]
    case ClosedUpVal(v) => v
    case OpenUpVal(th, slot) =>
      if th in b && b[th].Thread? && slot < |b[th].stack| then b[th].stack[slot] else Plain
  }

  /** All references of an object, weak ones included: what the program can reach from it. */
  ghost function Refs(b: Heap, o: Ref): set<Ref>
    requires o in b
  {
    match b[o]
    case Str => {}
    case Table(_, meta, arr, node) => PtrSet(meta) + PtrsOf(arr) + KeyRefs(node) + ValRefs(node)
    case Udata(meta, uvs) => PtrSet(meta) + PtrsOf(uvs)
    case Block(refs) => PtrsOf(refs)
    case Thread(stack, open) => PtrsOf(stack) + Elems(open)
    case OpenUpVal(_, _) => PtrSet(Content(b, o))
    case ClosedUpVal(v) => PtrSet(v)
  }

  predicate IsStr(b: Heap, r: Ref) { r in b && b[r].Str? }

  ghost function Marked(c: Colors): set<Ref>
  {
    set r | r in c && !c[r].White?
  }

  /** Metatables are tables, and open upvalues and threads know each other. */
  ghost predicate WfBody(b: Heap)
  {
    && (forall o :: o in b ==> MetaOk(b, o) && UpvalOk(b, o) && ThreadOk(b, o))
  }

  ghost predicate MetaOk(b: Heap, o: Ref)
    requires o in b
  {
    && (b[o].Table? && b[o].meta.Ptr? ==> b[o].meta.r in b && b[b[o].meta.r].Table?)
    && (b[o].Udata? && b[o].meta.Ptr? ==> b[o].meta.r in b && b[b[o].meta.r].Table?)
  }

  ghost predicate UpvalOk(b: Heap, o: Ref)
    requires o in b
  {
    b[o].OpenUpVal? ==>
      var th := b[o].th;
      th in b && b[th].Thread? && b[o].slot < |b[th].stack| && o in b[th].open
  }

  ghost predicate ThreadOk(b: Heap, o: Ref)
    requires o in b
  {
    b[o].Thread? ==>
      forall u :: u in b[o].open ==> u in b && b[u].OpenUpVal? && b[u].th == o
  }

  class Collector {
    var body: Heap
    var color: Colors
    var white: bool
    var gcstate: GcState
    // object lists
    var allgc: seq<Ref>
    var finobj: seq<Ref>
    var tobefnz: seq<Ref>
    var fixedgc: seq<Ref>
    var sweepgc: SweepPtr
    var tofinalize: set<Ref>      // objects with FINALIZEDBIT
    // gray lists
    var gray: seq<Ref>
    var grayagain: seq<Ref>
    var weak: seq<Ref>
    var allweak: seq<Ref>
    var ephemeron: seq<Ref>
    // threads with open upvalues, and the roots
    var twups: seq<Ref>
    var mainthread: Ref
    var current: Ref
    var registry: Val
    var mt: seq<Val>
    // history: times each object was marked for finalization, times it was handed to its finalizer,
    // when it was last marked, and in which cycle it was last looked at by 'separatetobefnz'
    ghost var marks: multiset<Ref>
    ghost var calls: multiset<Ref>
    ghost var stamp: map<Ref, nat>
    ghost var clock: nat
    ghost var batch: map<Ref, nat>
    ghost var cycle: nat
    ghost var log: seq<Call>

    constructor (main: Ref)
      ensures body == map[main := Thread([], [])] && color == map[main := White(false)]
      ensures gcstate == Pause && white == false
      ensures allgc == [main] && finobj == tobefnz == fixedgc == []
      ensures gray == grayagain == weak == allweak == ephemeron == twups == []
      ensures sweepgc == NoLink && mainthread == main && current == main && registry == Plain && mt == []
      ensures tofinalize == {} && marks == calls == multiset{} && log == []
    {
      body, color := map[main := Thread([], [])], map[main := White(false)];
      white, gcstate := false, Pause;
      allgc, finobj, tobefnz, fixedgc, sweepgc := [main], [], [], [], NoLink;
      gray, grayagain, weak, allweak, ephemeron, twups := [], [], [], [], [], [];
      mainthread, current, registry, mt := main, main, Plain, [];
      tofinalize, marks, calls, stamp, clock := {}, multiset{}, multiset{}, map[], 0;
      batch, cycle, log := map[], 0, [];
    }
  }
}
