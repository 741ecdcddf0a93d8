/**
 The list of open upvalues of a thread (lfunc.c): a doubly linked list whose elements point into the
 stack.  Upvalues are shown by their identities, and their fields by a map.
 */
module UpvalueList {
  datatype Value = Nil | False | Val(id: nat)

  /** A slot of the stack: a value, and a distance for the list of to-be-closed variables. */
  datatype StackValue = StackValue(val: Value, delta: nat)

  type Block = array<StackValue>

  /**
   A pointer into a block of memory that holds the stack; or an offset, while the stack is being moved; or the
   upvalue's own slot.
   */
  datatype Place = At(block: Block, i: nat) | Offset(off: nat) | Own

  datatype Ref = Null | To(uv: nat)

  /** What points to an upvalue in the list: the head of the list, or the field 'next' of another upvalue. */
  datatype Link = Head | NextOf(prev: nat)

  datatype UpVal = UpVal(v: Place, next: Ref, previous: Link, value: Value)

  type Memory = map<nat, UpVal>

  // ---- The list ------------------------------------------------------------------------------------

  function ListHead(o: seq<nat>): Ref
  {
    if o == [] then Null else To(o[0])
  }

  function ListNext(o: seq<nat>, k: nat): Ref
  {
    if k + 1 < |o| then To(o[k + 1]) else Null
  }

  function ListPrev(o: seq<nat>, k: nat): Link
    requires k <= |o|
  {
    if k == 0 then Head else NextOf(o[k - 1])
  }

  /** The list has these upvalues, once each, with links both ways. */
  ghost predicate Linked(m: Memory, head: Ref, o: seq<nat>)
  {
    && head == ListHead(o) && Distinct(o)
    && (forall k :: 0 <= k < |o| ==> o[k] in m && m[o[k]].next == ListNext(o, k) && m[o[k]].previous == ListPrev(o, k))
  }

  ghost predicate Distinct(o: seq<nat>)
  {
    forall i, j :: 0 <= i < j < |o| ==> o[i] != o[j]
  }

  function With(o: seq<nat>, uv: nat, k: nat): seq<nat>
    requires k <= |o|
  {
    o[..k] + [uv] + o[k..]
  }

  function Without(o: seq<nat>, k: nat): seq<nat>
    requires k < |o|
  {
    o[..k] + o[k + 1..]
  }

  /** *link = r */
  function StoreIn(m: Memory, link: Link, r: Ref): Memory
  {
    if link.NextOf? && link.prev in m then m[link.prev := m[link.prev].(next := r)] else m
  }

  /** r->previous = link */
  function StoreBack(m: Memory, r: Ref, link: Link): Memory
  {
    if r.To? && r.uv in m then m[r.uv := m[r.uv].(previous := link)] else m
  }

  /** What a store does to the fields of one upvalue. */
  lemma StoreInAt(m: Memory, link: Link, r: Ref, u: nat)
    requires u in m
    ensures var m' := StoreIn(m, link, r);
            u in m' && m'[u].v == m[u].v && m'[u].value == m[u].value && m'[u].previous == m[u].previous
            && m'[u].next == if link == NextOf(u) then r else m[u].next
  {
  }

  lemma StoreBackAt(m: Memory, r: Ref, link: Link, u: nat)
    requires u in m
    ensures var m' := StoreBack(m, r, link);
            u in m' && m'[u].v == m[u].v && m'[u].value == m[u].value && m'[u].next == m[u].next
            && m'[u].previous == if r == To(u) then link else m[u].previous
  {
  }

  function HeadAfter(head: Ref, link: Link, r: Ref): Ref
  {
    if link.Head? then r else head
  }

  /** What newupval does to the links. */
  function LinkedIn(m: Memory, uv: nat, v: Place, prev: Link, next: Ref): Memory
  {
    StoreIn(StoreBack(m[uv := UpVal(v, next, prev, Nil)], next, NextOf(uv)), prev, To(uv))
  }

  lemma Same(o: seq<nat>, i: nat, j: nat)
    requires Distinct(o) && i < |o| && j < |o|
    ensures o[i] == o[j] <==> i == j
  {
  }

  lemma LinkedAt(m: Memory, head: Ref, o: seq<nat>, j: nat)
    requires Linked(m, head, o) && j < |o|
    ensures o[j] in m && m[o[j]].next == ListNext(o, j) && m[o[j]].previous == ListPrev(o, j)
  {
  }

  /** The links of an old element: those of the neighbours of the new one have changed. */
  lemma InsertAt(m: Memory, head: Ref, o: seq<nat>, uv: nat, v: Place, k: nat, j: nat)
    requires Linked(m, head, o) && k <= |o| && uv !in m && j < |o|
    ensures var m' := LinkedIn(m, uv, v, ListPrev(o, k), if k < |o| then To(o[k]) else Null);
            && o[j] in m && o[j] in m' && m'[o[j]].next == (if j + 1 == k then To(uv) else ListNext(o, j))
            && m'[o[j]].previous == (if j == k then NextOf(uv) else ListPrev(o, j))
  {
    hide Linked, Distinct, StoreIn, StoreBack;
    LinkedAt(m, head, o, j);
    LinkedDistinct(m, head, o);
    if k > 0 { Same(o, k - 1, j); }
    if k < |o| { Same(o, k, j); }
    var prev, next := ListPrev(o, k), if k < |o| then To(o[k]) else Null;
    LinkedInAt(m, uv, v, prev, next, o[j]);
  }

  lemma LinkedDistinct(m: Memory, head: Ref, o: seq<nat>)
    requires Linked(m, head, o)
    ensures Distinct(o)
  {
  }

  lemma LinkedInAt(m: Memory, uv: nat, v: Place, prev: Link, next: Ref, u: nat)
    requires u in m && u != uv
    ensures var m' := LinkedIn(m, uv, v, prev, next);
            u in m' && m'[u].v == m[u].v && m'[u].value == m[u].value
            && m'[u].next == (if prev == NextOf(u) then To(uv) else m[u].next)
            && m'[u].previous == (if next == To(u) then NextOf(uv) else m[u].previous)
  {
    hide StoreIn, StoreBack;
    var m1 := m[uv := UpVal(v, next, prev, Nil)];
    StoreBackAt(m1, next, NextOf(uv), u);
    StoreInAt(StoreBack(m1, next, NextOf(uv)), prev, To(uv), u);
  }

  lemma LinkedInOwn(m: Memory, uv: nat, v: Place, prev: Link, next: Ref)
    requires prev != NextOf(uv) && next != To(uv)
    ensures var m' := LinkedIn(m, uv, v, prev, next); uv in m' && m'[uv] == UpVal(v, next, prev, Nil)
  {
    hide StoreIn, StoreBack;
    var m1 := m[uv := UpVal(v, next, prev, Nil)];
    StoreBackAt(m1, next, NextOf(uv), uv);
    StoreInAt(StoreBack(m1, next, NextOf(uv)), prev, To(uv), uv);
  }

  lemma LinkedOutAt(m: Memory, uv: nat, u: nat)
    requires uv in m && u in m
    ensures var m' := LinkedOut(m, uv);
            u in m' && m'[u].v == m[u].v && m'[u].value == m[u].value
            && m'[u].next == (if m[uv].previous == NextOf(u) then m[uv].next else m[u].next)
            && m'[u].previous == (if m[uv].next == To(u) then m[uv].previous else m[u].previous)
  {
    hide StoreIn, StoreBack;
    StoreInAt(m, m[uv].previous, m[uv].next, u);
    StoreBackAt(StoreIn(m, m[uv].previous, m[uv].next), m[uv].next, m[uv].previous, u);
  }

  lemma InsertOwn(m: Memory, head: Ref, o: seq<nat>, uv: nat, v: Place, k: nat)
    requires Linked(m, head, o) && k <= |o| && uv !in m
    ensures var prev, next := ListPrev(o, k), if k < |o| then To(o[k]) else Null;
            var m' := LinkedIn(m, uv, v, prev, next);
            uv in m' && m'[uv].next == next && m'[uv].previous == prev
  {
    if k > 0 { LinkedAt(m, head, o, k - 1); }
    if k < |o| { LinkedAt(m, head, o, k); }
    hide *;
    LinkedInOwn(m, uv, v, ListPrev(o, k), if k < |o| then To(o[k]) else Null);
  }

  /** The links in a list with one more element. */
  lemma WithAt(o: seq<nat>, uv: nat, k: nat, i: nat)
    requires k <= |o| && i <= |o|
    ensures var w := With(o, uv, k);
            && |w| == |o| + 1 && w[k] == uv && ListNext(w, k) == (if k < |o| then To(o[k]) else Null)
            && ListPrev(w, k) == ListPrev(o, k)
            && ListHead(w) == HeadAfter(ListHead(o), ListPrev(o, k), To(uv))
            && (i != k ==> var j := if i < k then i else i - 1;
                           w[i] == o[j] && ListNext(w, i) == (if j + 1 == k then To(uv) else ListNext(o, j))
                           && ListPrev(w, i) == (if j == k then NextOf(uv) else ListPrev(o, j)))
  {
  }

  lemma InsertLinks(m: Memory, head: Ref, o: seq<nat>, uv: nat, v: Place, k: nat)
    requires Linked(m, head, o) && k <= |o| && uv !in m
    ensures var prev, next := ListPrev(o, k), if k < |o| then To(o[k]) else Null;
            Linked(LinkedIn(m, uv, v, prev, next), HeadAfter(head, prev, To(uv)), With(o, uv, k))
  {
    var prev, next := ListPrev(o, k), if k < |o| then To(o[k]) else Null;
    var m', w := LinkedIn(m, uv, v, prev, next), With(o, uv, k);
    InsertOwn(m, head, o, uv, v, k);
    WithAt(o, uv, k, k);
    forall i | 0 <= i < |w|
      ensures w[i] in m' && m'[w[i]].next == ListNext(w, i) && m'[w[i]].previous == ListPrev(w, i)
    {
      hide LinkedIn, ListNext, ListPrev, With, Linked, Distinct;
      WithAt(o, uv, k, i);
      if i != k { InsertAt(m, head, o, uv, v, k, if i < k then i else i - 1); }
    }
    hide LinkedIn, ListNext, ListPrev;
    DistinctWith(m, head, o, uv, k);
  }

  lemma DistinctWith(m: Memory, head: Ref, o: seq<nat>, uv: nat, k: nat)
    requires Linked(m, head, o) && k <= |o| && uv !in m
    ensures Distinct(With(o, uv, k))
  {
    hide ListNext, ListPrev;
  }

  /** What luaF_unlinkupval does to the links. */
  function LinkedOut(m: Memory, uv: nat): Memory
    requires uv in m
  {
    StoreBack(StoreIn(m, m[uv].previous, m[uv].next), m[uv].next, m[uv].previous)
  }

  lemma RemoveAt(m: Memory, head: Ref, o: seq<nat>, k: nat, j: nat)
    requires Linked(m, head, o) && k < |o| && j < |o| && j != k
    ensures o[k] in m && o[j] in m
    ensures var m' := LinkedOut(m, o[k]);
            && o[j] in m' && m'[o[j]].next == (if j + 1 == k then ListNext(o, k) else ListNext(o, j))
            && m'[o[j]].previous == (if j == k + 1 then ListPrev(o, k) else ListPrev(o, j))
  {
    hide Linked, Distinct, StoreIn, StoreBack, LinkedOut;
    LinkedAt(m, head, o, j);
    LinkedAt(m, head, o, k);
    LinkedDistinct(m, head, o);
    if k > 0 { Same(o, k - 1, j); }
    if k + 1 < |o| { Same(o, k + 1, j); }
    LinkedOutAt(m, o[k], o[j]);
  }

  lemma WithoutAt(o: seq<nat>, k: nat, i: nat)
    requires k < |o| && (i + 1 < |o| || i == 0)
    ensures var w := Without(o, k);
            && |w| == |o| - 1 && ListHead(w) == HeadAfter(ListHead(o), ListPrev(o, k), ListNext(o, k))
            && (i < |w| ==> var j := if i < k then i else i + 1;
                            w[i] == o[j] && ListNext(w, i) == (if j + 1 == k then ListNext(o, k) else ListNext(o, j))
                            && ListPrev(w, i) == (if j == k + 1 then ListPrev(o, k) else ListPrev(o, j)))
  {
  }

  lemma RemoveLinks(m: Memory, head: Ref, o: seq<nat>, k: nat)
    requires Linked(m, head, o) && k < |o|
    ensures o[k] in m
    ensures Linked(LinkedOut(m, o[k]), HeadAfter(head, m[o[k]].previous, m[o[k]].next), Without(o, k))
  {
    LinkedAt(m, head, o, k);
    var m', w := LinkedOut(m, o[k]), Without(o, k);
    WithoutAt(o, k, 0);
    forall i | 0 <= i < |w|
      ensures w[i] in m' && m'[w[i]].next == ListNext(w, i) && m'[w[i]].previous == ListPrev(w, i)
    {
      hide LinkedOut, ListNext, ListPrev, Without, Linked, Distinct;
      WithoutAt(o, k, i);
      RemoveAt(m, head, o, k, if i < k then i else i + 1);
    }
    hide LinkedOut, ListNext, ListPrev;
    DistinctWithout(o, k);
  }

  lemma DistinctWithout(o: seq<nat>, k: nat)
    requires Distinct(o) && k < |o|
    ensures Distinct(Without(o, k))
  {
  }

  /** Links are changed in the list, and nothing else. */
  lemma OnlyLinks(m: Memory, uv: nat, v: Place, prev: Link, next: Ref)
    requires uv !in m && prev != NextOf(uv) && next != To(uv)
    ensures var m' := LinkedIn(m, uv, v, prev, next);
            uv in m' && m'[uv].v == v && m'.Keys <= m.Keys + {uv}
            && forall u :: u in m ==> u in m' && m'[u].v == m[u].v && m'[u].value == m[u].value
  {
    LinkedInOwn(m, uv, v, prev, next);
    hide LinkedIn;
    forall u | u in m
      ensures var m' := LinkedIn(m, uv, v, prev, next); u in m' && m'[u].v == m[u].v && m'[u].value == m[u].value
    {
      LinkedInAt(m, uv, v, prev, next, u);
    }
  }

  lemma OnlyLinksOut(m: Memory, uv: nat)
    requires uv in m
    ensures var m' := LinkedOut(m, uv); m'.Keys <= m.Keys && forall u :: u in m ==>
        u in m' && m'[u].v == m[u].v && m'[u].value == m[u].value
  {
    assert LinkedOut(m, uv).Keys <= m.Keys;
    hide LinkedOut;
    forall u | u in m ensures var m' := LinkedOut(m, uv); u in m' && m'[u].v == m[u].v && m'[u].value == m[u].value {
      LinkedOutAt(m, uv, u);
    }
  }

  /** Other fields do not matter to the list. */
  lemma SameLinks(m: Memory, m': Memory, head: Ref, o: seq<nat>)
    requires Linked(m, head, o)
    requires forall u :: u in o && u in m ==> u in m' && m'[u].next == m[u].next && m'[u].previous == m[u].previous
    ensures Linked(m', head, o)
  {
  }

  // ---- Where the upvalues point to -------------------------------------------------------------------

  /** uplevel */
  function Level(m: Memory, uv: nat): nat
  {
    if uv in m && m[uv].v.At? then m[uv].v.i else 0
  }

  ghost predicate Inside(p: Place, block: Block)
  {
    p.At? && p.block == block && p.i < block.Length
  }

  /** Open upvalues point to different slots of the stack, in strictly descending order. */
  ghost predicate Descends(m: Memory, o: seq<nat>, block: Block)
  {
    && (forall k :: 0 <= k < |o| ==> o[k] in m && Inside(m[o[k]].v, block))
    && (forall i, j :: 0 <= i < j < |o| ==> Level(m, o[i]) > Level(m, o[j]))
  }

  /** So there is one upvalue for each slot: all closures over a variable share it. */
  lemma OnePerSlot(m: Memory, o: seq<nat>, block: Block, u: nat, w: nat)
    requires Descends(m, o, block) && u in o && w in o && m[u].v == m[w].v
    ensures u == w
  {
  }

  lemma InsertDescends(m: Memory, o: seq<nat>, block: Block, m': Memory, uv: nat, k: nat, level: nat)
    requires Descends(m, o, block) && k <= |o| && level < block.Length && uv !in m
    requires uv in m' && m'[uv].v == At(block, level) && forall u :: u in m ==> u in m' && m'[u].v == m[u].v
    requires (forall i :: 0 <= i < k ==> Level(m, o[i]) > level)
    requires (forall i :: k <= i < |o| ==> Level(m, o[i]) < level)
    ensures Descends(m', With(o, uv, k), block)
  {
    var w := With(o, uv, k);
    assert forall i :: 0 <= i < k ==> w[i] == o[i];
    assert forall i :: k < i < |w| ==> w[i] == o[i - 1];
  }

  lemma RemoveDescends(m: Memory, o: seq<nat>, block: Block, m': Memory, k: nat)
    requires Descends(m, o, block) && k < |o| && forall u :: u in m && u != o[k] ==> u in m' && m'[u].v == m[u].v
    requires Distinct(o)
    ensures Descends(m', Without(o, k), block)
  {
    var w := Without(o, k);
    assert forall i :: 0 <= i < k ==> w[i] == o[i];
    assert forall i :: k <= i < |w| ==> w[i] == o[i + 1];
  }
}
