/**
 The hash part of a Lua table (ltable.c): one vector of nodes that is a chained
 scatter table with Brent's variation.  Links are relative offsets; zero ends a chain.

 The vector itself carries no proof that its links are acyclic, so the model keeps a
 ghost "place" for every node: the chain it is threaded on and its rank there.  Nodes on
 one chain have distinct ranks and following a link raises the rank by exactly one.
 */
module TableNodes {

  /** A table key.  Only collectable keys can die while their node stays in the vector. */
  datatype Key =
    | NilKey
    | DummyKey
    | IntKey(i: int)
    | ValueKey(v: int)
    | ObjectKey(obj: nat)
  {
    predicate Collectable() { ObjectKey? }

    predicate Proper() { IntKey? || ValueKey? || ObjectKey? }
  }

  datatype Slot<+V> = Empty | Full(v: V)

  datatype Node<+V> = Node(val: Slot<V>, key: Key, dead: bool, next: int)

  /** A hash function takes a key and the size of the vector; it is left uninterpreted. */
  type Hash = (Key, nat) -> nat

  datatype Place = Place(chain: int, rank: int)

  function MainPosition(h: Hash, size: nat, k: Key): (p: nat)
    requires size > 0
    ensures p < size
  {
    h(k, size) % size
  }

  ghost predicate Used<V>(n: Node<V>) { n.key != NilKey }

  /** The node answers to key 'k' in an ordinary search. */
  predicate Holds<V(==)>(n: Node<V>, k: Key) { n.key == k && !n.dead }

  /** Node 'i' is linked to the node right after it on its chain, or ends that chain. */
  ghost predicate LinkedAt<V>(s: seq<Node<V>>, at: seq<Place>, i: int)
    requires |at| == |s| && 0 <= i < |s|
  {
    if s[i].next != 0 then
      && 0 <= i + s[i].next < |s|
      && at[i + s[i].next] == Place(at[i].chain, at[i].rank + 1)
    else
      forall j :: 0 <= j < |s| && at[j].chain == at[i].chain ==> at[j].rank <= at[i].rank
  }

  ghost predicate Distinct(at: seq<Place>)
  {
    forall i, j :: 0 <= i < j < |at| ==> at[i] != at[j]
  }

  ghost predicate Threaded<V>(s: seq<Node<V>>, at: seq<Place>)
  {
    && |at| == |s|
    && Distinct(at)
    && forall i :: 0 <= i < |s| ==> LinkedAt(s, at, i)
  }

  /** A node that was never used is alone on its chain. */
  ghost predicate FreeAt<V>(s: seq<Node<V>>, at: seq<Place>, i: int)
    requires |at| == |s| && 0 <= i < |s|
  {
    !Used(s[i]) ==>
      && s[i] == Node(Empty, NilKey, false, 0)
      && (forall j :: 0 <= j < |s| && j != i ==> at[j].chain != at[i].chain)
  }

  /**
   Every used node is on the chain of its key's main position, not before it; and when it is
   not at its main position, the node found there is at its own main position.
   */
  ghost predicate AnchoredAt<V>(h: Hash, s: seq<Node<V>>, at: seq<Place>, i: int)
    requires |at| == |s| && 0 <= i < |s|
  {
    Used(s[i]) ==>
      var p := MainPosition(h, |s|, s[i].key);
      && at[p].chain == at[i].chain
      && at[p].rank <= at[i].rank
      && (p != i ==> MainPosition(h, |s|, s[p].key) == p)
  }

  ghost predicate Owners<V>(s: seq<Node<V>>, loc: map<Key, nat>)
  {
    forall k :: k in loc ==> loc[k] < |s| && s[loc[k]].key == k && k.Proper()
  }

  /**
   'loc' tells which node answers for a key.  Another node with the same key can only be an
   older dead leftover, further down the chain.
   */
  ghost predicate LocatedAt<V>(s: seq<Node<V>>, at: seq<Place>, loc: map<Key, nat>, i: int)
    requires |at| == |s| && 0 <= i < |s|
    requires Owners(s, loc)
  {
    && (Used(s[i]) && !s[i].dead ==> s[i].key in loc && loc[s[i].key] == i)
    && (s[i].key in loc && loc[s[i].key] != i ==> at[i].rank > at[loc[s[i].key]].rank)
    && (s[i].val.Full? ==> Used(s[i]) && !s[i].dead)
    && (s[i].dead ==> s[i].key.Collectable() || s[i].key == DummyKey)
  }

  ghost predicate Located<V>(s: seq<Node<V>>, at: seq<Place>, loc: map<Key, nat>)
    requires |at| == |s|
  {
    && Owners(s, loc)
    && (forall i :: 0 <= i < |s| ==> LocatedAt(s, at, loc, i))
  }

  ghost predicate Wf<V>(h: Hash, s: seq<Node<V>>, at: seq<Place>, loc: map<Key, nat>)
  {
    && |s| > 0
    && Threaded(s, at)
    && (forall i :: 0 <= i < |s| ==> FreeAt(s, at, i))
    && (forall i :: 0 <= i < |s| ==> AnchoredAt(h, s, at, i))
    && Located(s, at, loc)
  }

  /** The finite map that a node vector stands for. */
  ghost function View<V>(s: seq<Node<V>>, loc: map<Key, nat>): map<Key, V>
    requires Owners(s, loc)
  {
    map k | k in loc && s[loc[k]].val.Full? :: s[loc[k]].val.v
  }

  ghost function UsedSet<V>(s: seq<Node<V>>): set<int>
  {
    set i | 0 <= i < |s| && Used(s[i])
  }

  lemma WfAt<V>(h: Hash, s: seq<Node<V>>, at: seq<Place>, loc: map<Key, nat>, i: nat)
    requires Wf(h, s, at, loc) && i < |s|
    ensures |at| == |s|
    ensures LinkedAt(s, at, i) && FreeAt(s, at, i) && AnchoredAt(h, s, at, i) && LocatedAt(s, at, loc, i)
  {
  }

  lemma WfFold<V>(h: Hash, s: seq<Node<V>>, at: seq<Place>, loc: map<Key, nat>)
    requires |s| > 0 && Threaded(s, at) && |at| == |s| && Owners(s, loc)
    requires forall i :: 0 <= i < |s| ==> FreeAt(s, at, i) && AnchoredAt(h, s, at, i) && LocatedAt(s, at, loc, i)
    ensures Wf(h, s, at, loc)
  {
    hide Threaded, Owners, FreeAt, AnchoredAt, LocatedAt;
  }

  lemma WfOwners<V>(h: Hash, s: seq<Node<V>>, at: seq<Place>, loc: map<Key, nat>)
    requires Wf(h, s, at, loc)
    ensures |s| > 0 && |at| == |s| && Threaded(s, at) && Owners(s, loc)
  {
  }

  // ---- One insertion, case by case -------------------------------------------------

  function PutAt<V>(s: seq<Node<V>>, p: nat, k: Key, v: V): (r: seq<Node<V>>)
    requires p < |s|
  {
    s[p := Node(Full(v), k, false, s[p].next)]
  }

  ghost function WithoutOwner<V>(s: seq<Node<V>>, loc: map<Key, nat>, p: nat): map<Key, nat>
    requires p < |s|
  {
    if s[p].key in loc && loc[s[p].key] == p then loc - {s[p].key} else loc
  }

  /** No ordinary search can find 'k'. */
  ghost predicate Absent<V>(s: seq<Node<V>>, k: Key)
  {
    forall i :: 0 <= i < |s| ==> !Holds(s[i], k)
  }

  /** Case 1: the main position has an empty value; reuse that node, keeping its link. */
  lemma PutAtEmpty<V>(h: Hash, s: seq<Node<V>>, at: seq<Place>, loc: map<Key, nat>, k: Key, v: V)
    requires Wf(h, s, at, loc) && k.Proper() && Absent(s, k)
    requires s[MainPosition(h, |s|, k)].val.Empty?
    ensures var p := MainPosition(h, |s|, k);
            var loc' := WithoutOwner(s, loc, p)[k := p];
            && Wf(h, PutAt(s, p, k, v), at, loc')
            && View(PutAt(s, p, k, v), loc') == View(s, loc)[k := v]
            && UsedSet(PutAt(s, p, k, v)) == UsedSet(s) + {p}
  {
    var p := MainPosition(h, |s|, k);
    var s' := PutAt(s, p, k, v);
    var loc' := WithoutOwner(s, loc, p)[k := p];
    PutAtOwners(h, s, at, loc, k, v);
    PutAtThreaded(s, at, p, k, v);
    assert UsedSet(s') == UsedSet(s) + {p};
    hide *;
    forall i | 0 <= i < |s'| ensures FreeAt(s', at, i) && AnchoredAt(h, s', at, i) && LocatedAt(s', at, loc', i) {
      PutAtNode(h, s, at, loc, k, v, i);
    }
    WfFold(h, s', at, loc');
  }

  lemma PutAtThreaded<V>(s: seq<Node<V>>, at: seq<Place>, p: nat, k: Key, v: V)
    requires Threaded(s, at) && p < |s|
    ensures Threaded(PutAt(s, p, k, v), at)
  {
    forall i | 0 <= i < |s| ensures LinkedAt(PutAt(s, p, k, v), at, i) {
      assert LinkedAt(s, at, i);
    }
  }

  lemma PutAtOwners<V>(h: Hash, s: seq<Node<V>>, at: seq<Place>, loc: map<Key, nat>, k: Key, v: V)
    requires Wf(h, s, at, loc) && k.Proper() && Absent(s, k)
    requires s[MainPosition(h, |s|, k)].val.Empty?
    ensures var p := MainPosition(h, |s|, k);
            var s', loc' := PutAt(s, p, k, v), WithoutOwner(s, loc, p)[k := p];
            && |s| > 0 && |at| == |s| == |s'| && Threaded(s, at) && Owners(s', loc')
            && View(s', loc') == View(s, loc)[k := v]
  {
    var p := MainPosition(h, |s|, k);
    var s' := PutAt(s, p, k, v);
    var loc' := WithoutOwner(s, loc, p)[k := p];
    WfOwners(h, s, at, loc);
    WfAt(h, s, at, loc, p);
    assert k in loc ==> s[loc[k]].val.Empty? by {
      if k in loc { WfAt(h, s, at, loc, loc[k]); }
    }
    hide Wf, Threaded, View;
    ViewAfterPut(s, loc, s', loc', p, k, v);
  }

  lemma PutAtNode<V>(h: Hash, s: seq<Node<V>>, at: seq<Place>, loc: map<Key, nat>, k: Key, v: V, i: nat)
    requires Wf(h, s, at, loc) && k.Proper() && Absent(s, k)
    requires s[MainPosition(h, |s|, k)].val.Empty? && i < |s|
    ensures var p := MainPosition(h, |s|, k);
            var s', loc' := PutAt(s, p, k, v), WithoutOwner(s, loc, p)[k := p];
            |at| == |s'| && Owners(s', loc') && FreeAt(s', at, i) && AnchoredAt(h, s', at, i)
            && LocatedAt(s', at, loc', i)
  {
    var p := MainPosition(h, |s|, k);
    PutAtOwners(h, s, at, loc, k, v);
    WfAt(h, s, at, loc, p);
    WfAt(h, s, at, loc, i);
    WfOwners(h, s, at, loc);
    if i != p {
      assert at[i] != at[p];
    }
    hide Wf, Threaded, View;
  }

  /** Only key 'k' changes in the map when some other node is overwritten. */
  lemma ViewAfterPut<V>(s: seq<Node<V>>, loc: map<Key, nat>, s': seq<Node<V>>, loc': map<Key, nat>,
                        p: nat, k: Key, v: V)
    requires Owners(s, loc)
    requires Owners(s', loc')
    requires k in loc' && loc'[k] == p && p < |s'| && s'[p].val == Full(v)
    requires forall q :: q in loc && q != k && s[loc[q]].val.Full? ==> q in loc'
    requires forall q :: q in loc' && q != k ==> q in loc && s'[loc'[q]].val == s[loc[q]].val
    ensures View(s', loc') == View(s, loc)[k := v]
  {
  }

  function Rebased(p: int, next: int, f: int): (r: int)
  {
    if next == 0 then 0 else p + next - f
  }

  /** Case 2: node 'p' keeps its key and the new key goes to the free node 'f', right after it. */
  function LinkAfter<V>(s: seq<Node<V>>, p: nat, f: nat, k: Key, v: V): (r: seq<Node<V>>)
    requires p < |s| && f < |s|
  {
    s[f := Node(Full(v), k, false, Rebased(p, s[p].next, f))][p := s[p].(next := f - p)]
  }

  ghost function ShiftedPlace(at: seq<Place>, p: nat, f: nat, i: nat): Place
    requires p < |at| && i < |at|
  {
    if i == f then Place(at[p].chain, at[p].rank + 1)
    else if at[i].chain == at[p].chain && at[i].rank > at[p].rank then Place(at[i].chain, at[i].rank + 1)
    else at[i]
  }

  ghost function Shifted(at: seq<Place>, p: nat, f: nat): seq<Place>
    requires p < |at|
  {
    seq(|at|, i requires 0 <= i < |at| => ShiftedPlace(at, p, f, i))
  }

  lemma LinkAfterThreaded<V>(s: seq<Node<V>>, at: seq<Place>, p: nat, f: nat, k: Key, v: V)
    requires Threaded(s, at) && p < |s| && f < |s| && p != f && FreeAt(s, at, f) && !Used(s[f])
    ensures Threaded(LinkAfter(s, p, f, k, v), Shifted(at, p, f))
  {
    var s', at' := LinkAfter(s, p, f, k, v), Shifted(at, p, f);
    forall i | 0 <= i < |s| ensures LinkedAt(s', at', i) {
      assert LinkedAt(s, at, i) && LinkedAt(s, at, p);
    }
  }

  /** Key 'k' is new, its main position is taken, and node 'f' was never used. */
  ghost predicate Collides<V>(h: Hash, s: seq<Node<V>>, at: seq<Place>, loc: map<Key, nat>, f: nat, k: Key)
  {
    && Wf(h, s, at, loc)
    && k.Proper() && Absent(s, k)
    && f < |s| && !Used(s[f])
    && s[MainPosition(h, |s|, k)].val.Full?
  }

  /** The node at the main position of 'k' is at its own main position. */
  ghost predicate OwnerThere<V>(h: Hash, s: seq<Node<V>>, k: Key)
    requires |s| > 0
  {
    var p := MainPosition(h, |s|, k);
    MainPosition(h, |s|, s[p].key) == p
  }

  lemma LinkAfterAnchored<V>(h: Hash, s: seq<Node<V>>, at: seq<Place>, loc: map<Key, nat>,
                             f: nat, k: Key, v: V, i: nat)
    requires Collides(h, s, at, loc, f, k) && OwnerThere(h, s, k) && i < |s|
    ensures var p := MainPosition(h, |s|, k);
            var s', at' := LinkAfter(s, p, f, k, v), Shifted(at, p, f);
            FreeAt(s', at', i) && AnchoredAt(h, s', at', i)
  {
    var p := MainPosition(h, |s|, k);
    assert FreeAt(s, at, f) && FreeAt(s, at, i) && AnchoredAt(h, s, at, i) && LocatedAt(s, at, loc, p);
  }

  lemma LinkAfterLocated<V>(h: Hash, s: seq<Node<V>>, at: seq<Place>, loc: map<Key, nat>,
                            f: nat, k: Key, v: V, i: nat)
    requires Collides(h, s, at, loc, f, k) && OwnerThere(h, s, k) && i < |s|
    ensures var p := MainPosition(h, |s|, k);
            var s', at', loc' := LinkAfter(s, p, f, k, v), Shifted(at, p, f), loc[k := f];
            Owners(s', loc') && LocatedAt(s', at', loc', i)
  {
    var p := MainPosition(h, |s|, k);
    assert LocatedAt(s, at, loc, p) && LocatedAt(s, at, loc, i) && AnchoredAt(h, s, at, i);
    if s[i].key == k { assert i != p && at[i] != at[p]; }
    else if s[i].key in loc {
      assert AnchoredAt(h, s, at, loc[s[i].key]);
    }
  }

  lemma LinkAfterOwner<V>(h: Hash, s: seq<Node<V>>, at: seq<Place>, loc: map<Key, nat>,
                          f: nat, k: Key, v: V)
    requires Collides(h, s, at, loc, f, k) && OwnerThere(h, s, k)
    ensures var p := MainPosition(h, |s|, k);
            var s', at', loc' := LinkAfter(s, p, f, k, v), Shifted(at, p, f), loc[k := f];
            && Wf(h, s', at', loc')
            && View(s', loc') == View(s, loc)[k := v]
            && UsedSet(s') == UsedSet(s) + {f}
  {
    var p := MainPosition(h, |s|, k);
    var s', at', loc' := LinkAfter(s, p, f, k, v), Shifted(at, p, f), loc[k := f];
    LinkAfterView(h, s, at, loc, f, k, v);
    LinkAfterThreaded(s, at, p, f, k, v);
    hide *;
    forall i | 0 <= i < |s'| ensures FreeAt(s', at', i) && AnchoredAt(h, s', at', i) && LocatedAt(s', at', loc', i) {
      LinkAfterAnchored(h, s, at, loc, f, k, v, i);
      LinkAfterLocated(h, s, at, loc, f, k, v, i);
    }
    WfFold(h, s', at', loc');
  }

  lemma LinkAfterView<V>(h: Hash, s: seq<Node<V>>, at: seq<Place>, loc: map<Key, nat>, f: nat, k: Key, v: V)
    requires Collides(h, s, at, loc, f, k) && OwnerThere(h, s, k)
    ensures var p := MainPosition(h, |s|, k);
            var s', at', loc' := LinkAfter(s, p, f, k, v), Shifted(at, p, f), loc[k := f];
            && |s| > 0 && |at| == |s| == |s'| == |at'| && Threaded(s, at) && FreeAt(s, at, f) && p != f
            && Owners(s, loc) && Owners(s', loc')
            && View(s', loc') == View(s, loc)[k := v] && UsedSet(s') == UsedSet(s) + {f}
  {
    var p := MainPosition(h, |s|, k);
    var s', loc' := LinkAfter(s, p, f, k, v), loc[k := f];
    WfOwners(h, s, at, loc);
    WfAt(h, s, at, loc, p);
    WfAt(h, s, at, loc, f);
    if k in loc { WfAt(h, s, at, loc, loc[k]); }
    hide Wf, Threaded, AnchoredAt, LinkedAt, View;
    assert Owners(s', loc');
    ViewAfterPut(s, loc, s', loc', f, k, v);
  }

  /**
   Case 3: node 'p' holds a key that is out of its main position.  That key moves to the free
   node 'f', its predecessor 'q' is linked to 'f' instead, and the new key takes 'p' alone.
   */
  function Relocate<V>(s: seq<Node<V>>, q: nat, p: nat, f: nat, k: Key, v: V): (r: seq<Node<V>>)
    requires p < |s| && f < |s| && q < |s|
  {
    s[q := s[q].(next := f - q)]
     [f := s[p].(next := Rebased(p, s[p].next, f))]
     [p := Node(Full(v), k, false, 0)]
  }

  ghost function Swapped(at: seq<Place>, p: nat, f: nat): seq<Place>
    requires p < |at| && f < |at|
  {
    at[p := at[f]][f := at[p]]
  }

  lemma RelocateThreaded<V>(s: seq<Node<V>>, at: seq<Place>, q: nat, p: nat, f: nat, k: Key, v: V)
    requires Threaded(s, at) && p < |s| && f < |s| && q < |s| && p != f
    requires FreeAt(s, at, f) && !Used(s[f]) && s[q].next != 0 && q + s[q].next == p
    ensures q != p && q != f
    ensures Threaded(Relocate(s, q, p, f, k, v), Swapped(at, p, f))
  {
    var s', at' := Relocate(s, q, p, f, k, v), Swapped(at, p, f);
    assert LinkedAt(s, at, q);
    assert Distinct(at');
    forall i | 0 <= i < |s| ensures LinkedAt(s', at', i) {
      assert LinkedAt(s, at, i) && LinkedAt(s, at, p);
    }
  }

  lemma RelocateAnchored<V>(h: Hash, s: seq<Node<V>>, at: seq<Place>, loc: map<Key, nat>,
                            q: nat, f: nat, k: Key, v: V, i: nat)
    requires Collides(h, s, at, loc, f, k) && !OwnerThere(h, s, k) && i < |s|
    requires q < |s| && s[q].next != 0 && q + s[q].next == MainPosition(h, |s|, k)
    ensures var p := MainPosition(h, |s|, k);
            var s', at' := Relocate(s, q, p, f, k, v), Swapped(at, p, f);
            FreeAt(s', at', i) && AnchoredAt(h, s', at', i)
  {
    var p := MainPosition(h, |s|, k);
    assert FreeAt(s, at, q) && FreeAt(s, at, f) && FreeAt(s, at, i) && LocatedAt(s, at, loc, p);
    assert AnchoredAt(h, s, at, i) && AnchoredAt(h, s, at, p);
  }

  lemma RelocateLocated<V>(h: Hash, s: seq<Node<V>>, at: seq<Place>, loc: map<Key, nat>,
                           q: nat, f: nat, k: Key, v: V, i: nat)
    requires Collides(h, s, at, loc, f, k) && !OwnerThere(h, s, k) && i < |s|
    requires q < |s| && s[q].next != 0 && q + s[q].next == MainPosition(h, |s|, k)
    ensures var p := MainPosition(h, |s|, k);
            var s', at', loc' := Relocate(s, q, p, f, k, v), Swapped(at, p, f), loc[s[p].key := f][k := p];
            Owners(s', loc') && LocatedAt(s', at', loc', i)
  {
    var p := MainPosition(h, |s|, k);
    var s', at', loc' := Relocate(s, q, p, f, k, v), Swapped(at, p, f), loc[s[p].key := f][k := p];
    RelocateFacts(h, s, at, loc, q, f, k);
    RelocateOwners(h, s, at, loc, q, f, k, v);
    RelocateValues(s, q, p, f, k, v);
    WfAt(h, s, at, loc, i);
    WfOwners(h, s, at, loc);
    hide Wf, Threaded, LinkedAt, FreeAt, AnchoredAt, Relocate, Absent, UsedSet;
  }

  /** The key, value and state of all nodes after the relocation. */
  lemma RelocateValues<V>(s: seq<Node<V>>, q: nat, p: nat, f: nat, k: Key, v: V)
    requires p < |s| && f < |s| && q < |s| && q != p && q != f && p != f
    ensures var s' := Relocate(s, q, p, f, k, v);
            && |s'| == |s| && s'[p] == Node(Full(v), k, false, 0)
            && s'[f].key == s[p].key && s'[f].val == s[p].val && s'[f].dead == s[p].dead
            && forall i :: 0 <= i < |s| && i != p && i != f ==>
                 s'[i].key == s[i].key && s'[i].val == s[i].val && s'[i].dead == s[i].dead
  {
  }

  lemma RelocateUsed<V>(s: seq<Node<V>>, q: nat, p: nat, f: nat, k: Key, v: V)
    requires p < |s| && f < |s| && q < |s| && q != p && q != f && p != f && k != NilKey && Used(s[p])
    ensures UsedSet(Relocate(s, q, p, f, k, v)) == UsedSet(s) + {f}
  {
    RelocateValues(s, q, p, f, k, v);
    hide Relocate;
  }

  /** The nodes that take part in the relocation. */
  lemma RelocateFacts<V>(h: Hash, s: seq<Node<V>>, at: seq<Place>, loc: map<Key, nat>, q: nat, f: nat, k: Key)
    requires Collides(h, s, at, loc, f, k) && !OwnerThere(h, s, k)
    requires q < |s| && s[q].next != 0 && q + s[q].next == MainPosition(h, |s|, k)
    ensures var p := MainPosition(h, |s|, k);
            && |s| > 0 && |at| == |s| && Threaded(s, at) && Owners(s, loc) && FreeAt(s, at, f)
            && q != p && q != f && p != f && s[f].key == NilKey && s[f].val.Empty? && s[p].key != k
            && s[p].key in loc && loc[s[p].key] == p && !s[p].dead && Used(s[p]) && k.Proper()
            && (k in loc ==> s[loc[k]].val.Empty? && loc[k] != p) && NilKey !in loc
            && (forall x :: x in loc ==> loc[x] != f)
  {
    var p := MainPosition(h, |s|, k);
    WfOwners(h, s, at, loc);
    WfAt(h, s, at, loc, q);
    WfAt(h, s, at, loc, p);
    WfAt(h, s, at, loc, f);
    if k in loc { WfAt(h, s, at, loc, loc[k]); }
    hide Wf, Threaded, AnchoredAt;
  }

  /** The node at the main position is in use, and the free one is not linked. */
  lemma UsedAt<V>(h: Hash, s: seq<Node<V>>, at: seq<Place>, loc: map<Key, nat>, f: nat, k: Key)
    requires Collides(h, s, at, loc, f, k)
    ensures var p := MainPosition(h, |s|, k);
            |s| > 0 && |at| == |s| && f < |s| && Used(s[p]) && p != f && s[f].next == 0
  {
    WfAt(h, s, at, loc, MainPosition(h, |s|, k));
    WfAt(h, s, at, loc, f);
    hide Wf, AnchoredAt;
  }

  lemma RelocateOwners<V>(h: Hash, s: seq<Node<V>>, at: seq<Place>, loc: map<Key, nat>, q: nat, f: nat, k: Key, v: V)
    requires Collides(h, s, at, loc, f, k) && !OwnerThere(h, s, k)
    requires q < |s| && s[q].next != 0 && q + s[q].next == MainPosition(h, |s|, k)
    ensures var p := MainPosition(h, |s|, k);
            var s', loc' := Relocate(s, q, p, f, k, v), loc[s[p].key := f][k := p];
            && |s'| == |s| && Owners(s, loc) && Owners(s', loc') && View(s', loc') == View(s, loc)[k := v]
  {
    var p := MainPosition(h, |s|, k);
    var s', loc' := Relocate(s, q, p, f, k, v), loc[s[p].key := f][k := p];
    RelocateFacts(h, s, at, loc, q, f, k);
    RelocateValues(s, q, p, f, k, v);
    hide Collides, OwnerThere, Wf, Threaded, FreeAt, Relocate, View, Absent;
    assert Owners(s', loc');
    ViewAfterPut(s, loc, s', loc', p, k, v);
  }

  lemma RelocateIntruder<V>(h: Hash, s: seq<Node<V>>, at: seq<Place>, loc: map<Key, nat>,
                            q: nat, f: nat, k: Key, v: V)
    requires Collides(h, s, at, loc, f, k) && !OwnerThere(h, s, k)
    requires q < |s| && s[q].next != 0 && q + s[q].next == MainPosition(h, |s|, k)
    ensures var p := MainPosition(h, |s|, k);
            var s', at', loc' := Relocate(s, q, p, f, k, v), Swapped(at, p, f), loc[s[p].key := f][k := p];
            && Wf(h, s', at', loc')
            && View(s', loc') == View(s, loc)[k := v]
            && UsedSet(s') == UsedSet(s) + {f}
  {
    var p := MainPosition(h, |s|, k);
    var s', at', loc' := Relocate(s, q, p, f, k, v), Swapped(at, p, f), loc[s[p].key := f][k := p];
    RelocateFacts(h, s, at, loc, q, f, k);
    RelocateOwners(h, s, at, loc, q, f, k, v);
    RelocateThreaded(s, at, q, p, f, k, v);
    RelocateUsed(s, q, p, f, k, v);
    assert |at'| == |s'|;
    hide *;
    forall i | 0 <= i < |s'| ensures FreeAt(s', at', i) && AnchoredAt(h, s', at', i) && LocatedAt(s', at', loc', i) {
      RelocateAnchored(h, s, at, loc, q, f, k, v, i);
      RelocateLocated(h, s, at, loc, q, f, k, v, i);
    }
    WfFold(h, s', at', loc');
  }

  /** Overwriting the value of a node with a usable key, which may delete or revive the entry. */
  lemma SetValueKeepsWf<V>(h: Hash, s: seq<Node<V>>, at: seq<Place>, loc: map<Key, nat>, i: nat, x: Slot<V>)
    requires Wf(h, s, at, loc) && i < |s| && Used(s[i]) && !s[i].dead
    ensures var s' := s[i := s[i].(val := x)];
            && Wf(h, s', at, loc)
            && UsedSet(s') == UsedSet(s)
            && View(s', loc) == if x.Full? then View(s, loc)[s[i].key := x.v] else View(s, loc) - {s[i].key}
  {
    var s' := s[i := s[i].(val := x)];
    forall j | 0 <= j < |s|
      ensures LinkedAt(s', at, j) && FreeAt(s', at, j) && AnchoredAt(h, s', at, j)
      ensures Owners(s', loc) && LocatedAt(s', at, loc, j)
    {
      assert LinkedAt(s, at, j) && FreeAt(s, at, j) && AnchoredAt(h, s, at, j) && LocatedAt(s, at, loc, j);
    }
    assert LocatedAt(s, at, loc, i);
  }

  /** Killing the collectable key of an empty entry, as the collector does. */
  lemma ClearKeyKeepsWf<V>(h: Hash, s: seq<Node<V>>, at: seq<Place>, loc: map<Key, nat>, i: nat)
    requires Wf(h, s, at, loc) && i < |s| && s[i].val.Empty? && s[i].key.Collectable()
    ensures var s' := s[i := s[i].(dead := true)];
            Wf(h, s', at, loc) && UsedSet(s') == UsedSet(s) && View(s', loc) == View(s, loc)
  {
    var s' := s[i := s[i].(dead := true)];
    forall j | 0 <= j < |s|
      ensures LinkedAt(s', at, j) && FreeAt(s', at, j) && AnchoredAt(h, s', at, j)
      ensures Owners(s', loc) && LocatedAt(s', at, loc, j)
    {
      assert LinkedAt(s, at, j) && FreeAt(s, at, j) && AnchoredAt(h, s, at, j) && LocatedAt(s, at, loc, j);
    }
  }

  /** A key without an owning node can be found nowhere; an owned one is on its own chain. */
  lemma OwnerOnChain<V>(h: Hash, s: seq<Node<V>>, at: seq<Place>, loc: map<Key, nat>, k: Key)
    requires Wf(h, s, at, loc)
    ensures k !in loc ==> (k == NilKey || Absent(s, k))
    ensures k in loc ==> var p := MainPosition(h, |s|, k);
                         at[p].chain == at[loc[k]].chain && at[p].rank <= at[loc[k]].rank
  {
    if k in loc { assert AnchoredAt(h, s, at, loc[k]); }
    else if k != NilKey {
      forall i | 0 <= i < |s| ensures !Holds(s[i], k) { assert LocatedAt(s, at, loc, i); }
    }
  }

  /** A search has a node to find: the owner of 'k', unless that node is dead and dead keys do not count. */
  ghost predicate Findable<V>(s: seq<Node<V>>, loc: map<Key, nat>, k: Key, deadok: bool)
    requires Owners(s, loc)
  {
    k in loc && (deadok || !s[loc[k]].dead)
  }

  /** A search for 'k' along its chain has come to node 'n' without passing the node to find. */
  ghost predicate SearchedTo<V>(h: Hash, s: seq<Node<V>>, at: seq<Place>, loc: map<Key, nat>,
                                k: Key, deadok: bool, n: int)
    requires Wf(h, s, at, loc) && 0 <= n < |s|
  {
    Findable(s, loc, k, deadok) ==> at[n].chain == at[loc[k]].chain && at[n].rank <= at[loc[k]].rank
  }

  ghost function RanksAfter(at: seq<Place>, n: int): set<int>
    requires 0 <= n < |at|
  {
    set j | 0 <= j < |at| && at[j].chain == at[n].chain && at[j].rank > at[n].rank
  }

  lemma SearchStep<V>(h: Hash, s: seq<Node<V>>, at: seq<Place>, loc: map<Key, nat>,
                      k: Key, deadok: bool, n: int)
    requires Wf(h, s, at, loc) && k.Proper()
    requires 0 <= n < |s| && SearchedTo(h, s, at, loc, k, deadok, n)
    ensures Holds(s[n], k) ==> Findable(s, loc, k, deadok)
    ensures Findable(s, loc, k, deadok) && (s[n].key == k || s[n].next == 0) ==> loc[k] == n
    ensures s[n].next != 0 ==> 0 <= n + s[n].next < |s| && RanksAfter(at, n + s[n].next) < RanksAfter(at, n)
    ensures s[n].next != 0 && s[n].key != k ==> SearchedTo(h, s, at, loc, k, deadok, n + s[n].next)
  {
    assert LinkedAt(s, at, n) && LocatedAt(s, at, loc, n);
    if s[n].next != 0 {
      assert n + s[n].next in RanksAfter(at, n);
    }
    if k in loc {
      assert LocatedAt(s, at, loc, loc[k]);
      if loc[k] != n { assert at[loc[k]] != at[n]; }
    }
  }

  lemma SearchStart<V>(h: Hash, s: seq<Node<V>>, at: seq<Place>, loc: map<Key, nat>, k: Key, deadok: bool)
    requires Wf(h, s, at, loc) && k.Proper()
    ensures SearchedTo(h, s, at, loc, k, deadok, MainPosition(h, |s|, k))
    ensures Findable(s, loc, k, false) <==> !Absent(s, k)
    ensures k in loc && s[loc[k]].dead ==> k.Collectable()
  {
    OwnerOnChain(h, s, at, loc, k);
    if k in loc {
      assert LocatedAt(s, at, loc, loc[k]);
      forall i | 0 <= i < |s| ensures s[loc[k]].dead ==> !Holds(s[i], k) { assert LocatedAt(s, at, loc, i); }
      assert s[loc[k]].dead || Holds(s[loc[k]], k);
    }
  }

  function DummyNode<V>(): Node<V> { Node(Empty, DummyKey, true, 0) }

  lemma SubsetSmaller<T>(a: set<T>, b: set<T>)
    requires a <= b
    ensures |a| <= |b|
  {
    assert b == a + (b - a);
  }

  lemma {:induction false} FullCount<V>(s: seq<Node<V>>)
    requires forall i :: 0 <= i < |s| ==> Used(s[i])
    ensures |UsedSet(s)| == |s|
  {
    if s == [] {
      assert UsedSet(s) == {};
    } else {
      var n := |s| - 1;
      FullCount(s[..n]);
      assert UsedSet(s) == UsedSet(s[..n]) + {n};
    }
  }

  lemma OneMore<T>(a: set<T>, b: set<T>, x: T)
    requires b == a + {x}
    ensures |b| <= |a| + 1
    ensures x !in a ==> |b| == |a| + 1
  {
    if x in a { assert b == a; }
  }

  /** Vectors with at least this many nodes remember where the search for a free node stopped. */
  const LIMIT_FOR_LASTFREE := 8

  class HashPart<V(==,!new)> {
    const h: Hash
    const node: array<Node<V>>
    var lastfree: nat
    const isdummy: bool

    ghost var at: seq<Place>
    ghost var loc: map<Key, nat>
    ghost var contents: map<Key, V>

    ghost predicate WellFormed()
      reads this, node
    {
      && Wf(h, node[..], at, loc)
      && contents == View(node[..], loc)
      && lastfree <= node.Length
      && (isdummy ==> node[..] == [DummyNode()] && loc == map[])
    }

    /** No free node is left above the bound kept by a large vector. */
    ghost predicate Valid()
      reads this, node
    {
      && WellFormed()
      && contents.Keys <= loc.Keys
      && (node.Length >= LIMIT_FOR_LASTFREE ==> forall i :: lastfree <= i < node.Length ==> Used(node[i]))
    }

    /** setnodevector: an empty part shares one dummy node; otherwise all nodes are fresh. */
    constructor (h: Hash, size: nat)
      ensures Valid() && fresh(node) && this.h == h
      ensures contents == map[] && loc == map[]
      ensures isdummy == (size == 0) && node.Length == if size == 0 then 1 else size
      ensures Packed()
    {
      this.h := h;
      node := new Node<V>[if size == 0 then 1 else size](_ => if size == 0 then DummyNode()
                                                              else Node(Empty, NilKey, false, 0));
      lastfree := if size == 0 then 1 else size;
      isdummy := size == 0;
      at := seq(if size == 0 then 1 else size, i => Place(i, 0));
      loc, contents := map[], map[];
      new;
      var s := node[..];
      assert Threaded(s, at) by {
        forall i | 0 <= i < |s| ensures LinkedAt(s, at, i) {}
      }
      if size == 0 { assert s == [DummyNode()]; } else { assert UsedSet(s) == {}; }
    }

    /** Node that answers for 'k', or -1.  'deadok' also accepts a dead key with the same identity. */
    method GetGeneric(k: Key, deadok: bool) returns (r: int)
      requires Valid() && k.Proper()
      ensures -1 <= r < node.Length
      ensures r >= 0 ==> node[r].key == k && (node[r].dead ==> deadok)
      ensures !deadok ==> (r < 0 <==> Absent(node[..], k))
      ensures Findable(node[..], loc, k, deadok) ==> r == loc[k]
    {
      var n := MainPosition(h, node.Length, k);
      SearchStart(h, node[..], at, loc, k, deadok);
      while true
        invariant 0 <= n < node.Length && SearchedTo(h, node[..], at, loc, k, deadok, n)
        decreases RanksAfter(at, n)
      {
        SearchStep(h, node[..], at, loc, k, deadok, n);
        if node[n].key == k && (!node[n].dead || (deadok && k.Collectable())) {
          return n;
        }
        var nx := node[n].next;
        if nx == 0 {
          return -1;
        }
        n := n + nx;
      }
    }

    /** Some node that was never used, or -1 when there is none. */
    method GetFreePos() returns (f: int)
      requires Valid()
      modifies this`lastfree
      ensures WellFormed() && -1 <= f < node.Length
      ensures f >= 0 ==> !Used(node[f]) && !isdummy
      ensures f >= 0 && node.Length >= LIMIT_FOR_LASTFREE ==>
                f == lastfree && forall i :: f < i < node.Length ==> Used(node[i])
      ensures f < 0 ==> Valid() && forall i :: 0 <= i < node.Length ==> Used(node[i])
    {
      if node.Length >= LIMIT_FOR_LASTFREE {
        while lastfree > 0
          invariant lastfree <= node.Length
          invariant forall i :: lastfree <= i < node.Length ==> Used(node[i])
        {
          lastfree := lastfree - 1;
          if node[lastfree].key == NilKey {
            return lastfree;
          }
        }
      } else {
        var i := node.Length;
        while i > 0
          invariant 0 <= i <= node.Length
          invariant forall j :: i <= j < node.Length ==> Used(node[j])
        {
          i := i - 1;
          if node[i].key == NilKey {
            return i;
          }
        }
      }
      return -1;
    }

    /** The node linked to 'p', whose key is out of its main position. */
    method FindPrevious(p: nat) returns (q: nat)
      requires WellFormed() && p < node.Length && Used(node[p])
      requires MainPosition(h, node.Length, node[p].key) != p
      ensures q < node.Length && node[q].next != 0 && q + node[q].next == p
    {
      var o := MainPosition(h, node.Length, node[p].key);
      assert AnchoredAt(h, node[..], at, p) && at[o] != at[p];
      assert LinkedAt(node[..], at, o);
      while o + node[o].next != p
        invariant 0 <= o < node.Length && at[o].chain == at[p].chain && at[o].rank < at[p].rank
        invariant LinkedAt(node[..], at, o)
        decreases at[p].rank - at[o].rank
      {
        o := o + node[o].next;
        assert LinkedAt(node[..], at, o);
        assert at[o] != at[p];
      }
      q := o;
    }

    /** Store the new entry in node 'p', which keeps its link. */
    method SetNode(p: nat, k: Key, v: V)
      requires p < node.Length
      modifies node
      ensures node[..] == PutAt(old(node[..]), p, k, v)
    {
      node[p] := node[p].(key := k, dead := false);
      node[p] := node[p].(val := Full(v));
    }

    /** Move the colliding node to the free position and give its place to the new key. */
    method EvictAndSet(q: nat, mp: nat, f: nat, k: Key, v: V)
      requires q < node.Length && mp < node.Length && f < node.Length && q != mp && q != f && mp != f
      modifies node
      ensures node[..] == Relocate(old(node[..]), q, mp, f, k, v)
    {
      node[q] := node[q].(next := f - q);
      node[f] := node[mp];
      if node[mp].next != 0 {
        node[f] := node[f].(next := node[f].next + (mp - f));
        node[mp] := node[mp].(next := 0);
      }
      node[mp] := node[mp].(val := Empty);
      SetNode(mp, k, v);
      assert node[..] == Relocate(old(node[..]), q, mp, f, k, v);
    }

    /** Put the new key in the free position, chained right after the main position. */
    method ChainAndSet(mp: nat, f: nat, k: Key, v: V)
      requires mp < node.Length && f < node.Length && mp != f && node[f].next == 0
      modifies node
      ensures node[..] == LinkAfter(old(node[..]), mp, f, k, v)
    {
      if node[mp].next != 0 {
        node[f] := node[f].(next := mp + node[mp].next - f);
      }
      node[mp] := node[mp].(next := f - mp);
      SetNode(f, k, v);
      assert node[..] == LinkAfter(old(node[..]), mp, f, k, v);
    }

    /** insertkey when the main position of the new key is taken. */
    method InsertColliding(k: Key, v: V) returns (ok: bool)
      requires Valid() && k.Proper() && Absent(node[..], k)
      requires node[MainPosition(h, node.Length, k)].val.Full? || isdummy
      modifies this, node
      ensures Valid() && (isdummy ==> !ok)
      ensures ok ==> contents == old(contents)[k := v]
      ensures ok ==> exists i :: UsedSet(node[..]) == old(UsedSet(node[..])) + {i}
      ensures ok ==> forall q :: q in loc ==> q == k || q in old(loc)
      ensures !ok ==> node[..] == old(node[..]) && contents == old(contents) && loc == old(loc)
      ensures !ok ==> forall i :: 0 <= i < node.Length ==> Used(node[i])
    {
      hide Located, Threaded, LinkedAt, FreeAt, AnchoredAt, LocatedAt, Owners, Distinct, View, Absent;
      ghost var s := node[..];
      var mp := MainPosition(h, node.Length, k);
      var f := GetFreePos();
      if f < 0 {
        return false;
      }
      assert Collides(h, s, at, loc, f, k);
      var othern := MainPosition(h, node.Length, node[mp].key);
      if othern != mp {
        MoveAndSet(mp, f, k, v);
      } else {
        ChainNew(mp, f, k, v);
      }
      KeepsBound(s, node[..], f);
      ok := true;
    }

    /** The bound for free nodes is right after node 'f' was used. */
    lemma KeepsBound(s: seq<Node<V>>, s': seq<Node<V>>, f: nat)
      requires |s| == |s'| && f < |s| && UsedSet(s') == UsedSet(s) + {f}
      ensures forall i :: f <= i < |s| && (i > f ==> Used(s[i])) ==> Used(s'[i])
    {
      forall i | f <= i < |s| && (i > f ==> Used(s[i])) ensures Used(s'[i]) {
        assert i in UsedSet(s) + {f};
      }
    }

    /** The colliding node is out of its main position: it moves. */
    method MoveAndSet(mp: nat, f: nat, k: Key, v: V)
      requires WellFormed() && Collides(h, node[..], at, loc, f, k) && !OwnerThere(h, node[..], k) && !isdummy
      requires mp == MainPosition(h, node.Length, k) && f < node.Length
      modifies node, `at, `loc, `contents
      ensures WellFormed() && contents == old(contents)[k := v] && UsedSet(node[..]) == old(UsedSet(node[..])) + {f}
      ensures old(loc.Keys) + {k} <= loc.Keys && forall q :: q in loc ==> q == k || q in old(loc)
    {
      hide Wf, Threaded, View, UsedSet, Relocate, Owners;
      ghost var s := node[..];
      UsedAt(h, s, at, loc, f, k);
      var q := FindPrevious(mp);
      RelocateIntruder(h, s, at, loc, q, f, k, v);
      RelocateFacts(h, s, at, loc, q, f, k);
      EvictAndSet(q, mp, f, k, v);
      loc := loc[s[mp].key := f][k := mp];
      at := Swapped(at, mp, f);
      contents := contents[k := v];
    }

    /** The colliding node is in its main position: the new key is chained after it. */
    method ChainNew(mp: nat, f: nat, k: Key, v: V)
      requires WellFormed() && Collides(h, node[..], at, loc, f, k) && OwnerThere(h, node[..], k) && !isdummy
      requires mp == MainPosition(h, node.Length, k) && f < node.Length
      modifies node, `at, `loc, `contents
      ensures WellFormed() && contents == old(contents)[k := v] && UsedSet(node[..]) == old(UsedSet(node[..])) + {f}
      ensures old(loc.Keys) + {k} <= loc.Keys && forall q :: q in loc ==> q == k || q in old(loc)
    {
      hide Wf, Threaded, View, UsedSet, LinkAfter, Owners;
      ghost var s := node[..];
      UsedAt(h, s, at, loc, f, k);
      LinkAfterOwner(h, s, at, loc, f, k, v);
      ChainAndSet(mp, f, k, v);
      loc := loc[k := f];
      at := Shifted(at, mp, f);
      contents := contents[k := v];
    }

    /**
     insertkey: adds a key that no search finds.  It fails, changing no node, only when the main
     position is taken and no node is left that was never used.
     */
    method InsertKey(k: Key, v: V) returns (ok: bool)
      requires Valid() && k.Proper() && Absent(node[..], k)
      modifies this, node
      ensures Valid() && (isdummy ==> !ok)
      ensures ok ==> contents == old(contents)[k := v]
      ensures ok ==> exists i :: UsedSet(node[..]) == old(UsedSet(node[..])) + {i}
      ensures ok ==> forall q :: q in loc ==> q == k || q in old(loc)
      ensures !ok ==> node[..] == old(node[..]) && contents == old(contents) && loc == old(loc)
      ensures !ok ==> forall i :: 0 <= i < node.Length ==> Used(node[i])
    {
      hide Located, Threaded;
      var mp := MainPosition(h, node.Length, k);
      if node[mp].val.Full? || isdummy {
        ok := InsertColliding(k, v);
      } else {
        PutAtEmpty(h, node[..], at, loc, k, v);
        loc := WithoutOwner(node[..], loc, mp)[k := mp];
        SetNode(mp, k, v);
        contents := contents[k := v];
        ok := true;
      }
    }

    /** A part with no deleted entry: one node is in use for each key. */
    ghost predicate Packed()
      requires WellFormed()
      reads this, node
    {
      loc.Keys == contents.Keys && (isdummy || |UsedSet(node[..])| <= |loc|)
    }

    ghost function Capacity(): nat
      reads this, node
    {
      if isdummy then 0 else node.Length
    }

    /** The entries kept in the first 'j' nodes. */
    ghost function Below(j: int): map<Key, V>
      requires WellFormed()
      reads this, node
    {
      map k | k in contents && loc[k] < j :: contents[k]
    }

    lemma BelowStep(j: nat)
      requires WellFormed() && j < node.Length
      ensures node[j].val.Empty? ==> Below(j + 1) == Below(j)
      ensures node[j].val.Full? ==>
                && node[j].key.Proper() && node[j].key in contents && node[j].key !in Below(j)
                && Below(j + 1) == Below(j)[node[j].key := node[j].val.v]
    {
      assert LocatedAt(node[..], at, loc, j);
    }

    lemma BelowAll()
      requires WellFormed()
      ensures Below(0) == map[]
      ensures Below(node.Length) == contents
    {
    }

    /** An insertion into a packed part cannot fail while its keys fit in a set no larger than the part. */
    method InsertReserved(k: Key, v: V, ghost room: set<Key>)
      requires Valid() && Packed() && k.Proper() && k !in contents
      requires contents.Keys + {k} <= room && |room| <= Capacity()
      modifies this, node
      ensures Valid() && Packed()
      ensures contents == old(contents)[k := v]
    {
      hide Wf, View, Absent;
      ghost var keys, used := loc.Keys, UsedSet(node[..]);
      SubsetSmaller(keys + {k}, room);
      OwnerOnChain(h, node[..], at, loc, k);
      OneMore(keys, keys + {k}, k);
      var ok := InsertKey(k, v);
      if !ok {
        FullCount(node[..]);
        assert false;
      }
      assert contents.Keys == keys + {k} == loc.Keys;
      ghost var i :| UsedSet(node[..]) == used + {i};
      OneMore(used, UsedSet(node[..]), i);
    }

    /** Overwrite the value of a node whose key is in use; an empty value deletes the entry. */
    method SetValue(i: nat, x: Slot<V>)
      requires Valid() && i < node.Length && Used(node[i]) && !node[i].dead
      modifies node, `contents
      ensures Valid() && UsedSet(node[..]) == old(UsedSet(node[..]))
      ensures node[..] == old(node[..])[i := old(node[i]).(val := x)]
      ensures contents == if x.Full? then old(contents)[node[i].key := x.v]
                            else old(contents) - {node[i].key}
    {
      SetValueKeepsWf(h, node[..], at, loc, i, x);
      node[i] := node[i].(val := x);
      contents := if x.Full? then contents[node[i].key := x.v] else contents - {node[i].key};
      assert node[..] == old(node[..])[i := old(node[i]).(val := x)];
    }

    /** clearkey: the collector kills the key of an empty entry but keeps the node in its chain. */
    method ClearKey(i: nat)
      requires Valid() && i < node.Length && node[i].val.Empty?
      modifies node
      ensures Valid() && contents == old(contents)
      ensures node[..] == old(node[..])[i := old(node[i]).(dead := old(node[i].dead || node[i].key.Collectable()))]
    {
      if node[i].key.Collectable() {
        ClearKeyKeepsWf(h, node[..], at, loc, i);
        node[i] := node[i].(dead := true);
        assert node[..] == old(node[..])[i := old(node[i]).(dead := true)];
      } else {
        assert node[..] == old(node[..])[i := old(node[i])];
      }
    }
  }

  // ---- What well-formedness means in terms of links alone --------------------------------

  /** Node reached from 'i' by following 'n' links, or -1 when the chain ends before. */
  ghost function Follow<V>(s: seq<Node<V>>, i: int, n: nat): int
    decreases n
  {
    if !(0 <= i < |s|) then -1
    else if n == 0 then i
    else if s[i].next == 0 then -1
    else Follow(s, i + s[i].next, n - 1)
  }

  lemma {:induction false} FollowRank<V>(s: seq<Node<V>>, at: seq<Place>, i: nat, n: nat)
    requires Threaded(s, at) && i < |s| && Follow(s, i, n) != -1
    ensures 0 <= Follow(s, i, n) < |s|
    ensures at[Follow(s, i, n)] == Place(at[i].chain, at[i].rank + n)
    decreases n
  {
    if n > 0 {
      assert LinkedAt(s, at, i);
      FollowRank(s, at, i + s[i].next, n - 1);
    }
  }

  lemma {:induction false} FollowTo<V>(s: seq<Node<V>>, at: seq<Place>, i: nat, j: nat)
    requires Threaded(s, at) && i < |s| && j < |s|
    requires at[i].chain == at[j].chain && at[i].rank <= at[j].rank
    ensures Follow(s, i, at[j].rank - at[i].rank) == j
    decreases at[j].rank - at[i].rank
  {
    assert LinkedAt(s, at, i);
    if i != j {
      assert at[i] != at[j];
      FollowTo(s, at, i + s[i].next, j);
    }
  }

  /** A node with a key is found from that key's main position; if it is elsewhere, it collided fairly. */
  ghost predicate FoundFromMain<V>(h: Hash, s: seq<Node<V>>, i: int)
    requires 0 <= i < |s|
  {
    && (exists n :: Follow(s, MainPosition(h, |s|, s[i].key), n) == i)
    && (i != MainPosition(h, |s|, s[i].key) ==> OwnerThere(h, s, s[i].key))
  }

  lemma EveryKeyFound<V>(h: Hash, s: seq<Node<V>>, at: seq<Place>, loc: map<Key, nat>, i: nat)
    requires Wf(h, s, at, loc) && i < |s| && Used(s[i])
    ensures FoundFromMain(h, s, i)
  {
    assert AnchoredAt(h, s, at, i);
    var p := MainPosition(h, |s|, s[i].key);
    FollowTo(s, at, p, i);
    var n: nat := at[i].rank - at[p].rank;
    assert Follow(s, p, n) == i;
  }

  /**
   Chains are acyclic, no node has two predecessors, every key is found from its main position,
   a key out of its main position collides with one that is in its own, and no key is live twice.
   */
  lemma ChainShape<V>(h: Hash, s: seq<Node<V>>, at: seq<Place>, loc: map<Key, nat>)
    requires Wf(h, s, at, loc)
    ensures forall i, n :: 0 <= i < |s| && n > 0 ==> Follow(s, i, n) != i
    ensures forall i, j :: 0 <= i < j < |s| && s[i].next != 0 && s[j].next != 0 ==> i + s[i].next != j + s[j].next
    ensures forall i :: 0 <= i < |s| && Used(s[i]) ==> FoundFromMain(h, s, i)
    ensures forall i, j :: 0 <= i < j < |s| && s[i].val.Full? && s[j].val.Full? ==> s[i].key != s[j].key
  {
    forall i, n | 0 <= i < |s| && n > 0 ensures Follow(s, i, n) != i {
      if Follow(s, i, n) == i { FollowRank(s, at, i, n); }
    }
    forall i, j | 0 <= i < j < |s| && s[i].next != 0 && s[j].next != 0
      ensures i + s[i].next != j + s[j].next
    {
      assert LinkedAt(s, at, i) && LinkedAt(s, at, j) && at[i] != at[j];
    }
    forall i | 0 <= i < |s| && Used(s[i]) ensures FoundFromMain(h, s, i) {
      EveryKeyFound(h, s, at, loc, i);
    }
    forall i, j | 0 <= i < j < |s| && s[i].val.Full? && s[j].val.Full?
      ensures s[i].key != s[j].key
    {
      assert LocatedAt(s, at, loc, i) && LocatedAt(s, at, loc, j);
    }
  }
}
