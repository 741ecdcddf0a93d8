/**
 The chains of the string table (lstring.c): lists of strings, linked through the strings themselves,
 whose heads are in an array.
 */
module StringChains {
  datatype Ref = Null | To(ts: nat)

  /** A short string: its hash, the next one in its chain, and its bytes. */
  datatype TString = TString(hash: nat, hnext: Ref, bytes: seq<int>)

  /** Strings by their identities. */
  type Memory = map<nat, TString>

  /** The list from 'r' has the elements of 'l'. */
  ghost predicate ListIs(m: Memory, r: Ref, l: seq<nat>)
    decreases l
  {
    if l == [] then r == Null else r == To(l[0]) && l[0] in m && ListIs(m, m[l[0]].hnext, l[1..])
  }

  ghost predicate NoDup(l: seq<nat>)
  {
    forall i, j :: 0 <= i < j < |l| ==> l[i] != l[j]
  }

  /** Other strings do not matter to a list. */
  lemma {:induction false} ListSame(m: Memory, m': Memory, r: Ref, l: seq<nat>)
    requires ListIs(m, r, l) && forall e :: e in l && e in m ==> e in m' && m'[e].hnext == m[e].hnext
    ensures ListIs(m', r, l)
    decreases l
  {
    if l != [] {
      assert forall e :: e in l[1..] ==> e in l;
      ListSame(m, m', m[l[0]].hnext, l[1..]);
    }
  }

  lemma {:induction false} ListIn(m: Memory, r: Ref, l: seq<nat>)
    requires ListIs(m, r, l)
    ensures forall e :: e in l ==> e in m
    decreases l
  {
    if l != [] { ListIn(m, m[l[0]].hnext, l[1..]); }
  }

  /**
   The chains 'cs' of all buckets, and a list 'todo' apart, have all the strings of 'where' once: it tells
   the bucket of each string, or -1 for those apart.
   */
  ghost predicate Chains(m: Memory, vect: seq<Ref>, cs: seq<seq<nat>>, r: Ref, todo: seq<nat>, bucketOf: map<nat, int>)
  {
    && |vect| == |cs|
    && (forall b :: 0 <= b < |cs| ==> ListIs(m, vect[b], cs[b]) && NoDup(cs[b]))
    && ListIs(m, r, todo) && NoDup(todo)
    && Located(cs, todo, bucketOf)
  }

  ghost predicate Located(cs: seq<seq<nat>>, todo: seq<nat>, bucketOf: map<nat, int>)
  {
    && (forall b, e :: 0 <= b < |cs| && e in cs[b] ==> e in bucketOf && bucketOf[e] == b)
    && (forall e :: e in todo ==> e in bucketOf && bucketOf[e] == -1)
    && (forall e :: e in bucketOf ==>
          if bucketOf[e] == -1 then e in todo else 0 <= bucketOf[e] < |cs| && e in cs[bucketOf[e]])
  }

  // ---- Changing one bucket --------------------------------------------------------------------------

  /** The first string apart goes to bucket 'h'. */
  lemma MoveOne(m: Memory, vect: seq<Ref>, cs: seq<seq<nat>>, r: Ref, todo: seq<nat>, bucketOf: map<nat, int>, h: nat)
    requires Chains(m, vect, cs, r, todo, bucketOf) && todo != [] && h < |cs|
    ensures r == To(todo[0]) && todo[0] in m && todo[0] in bucketOf
    ensures var p := todo[0];
            Chains(m[p := m[p].(hnext := vect[h])], vect[h := To(p)], cs[h := [p] + cs[h]], m[p].hnext, todo[1..],
                   bucketOf[p := h])
  {
    var p := todo[0];
    var m' := m[p := m[p].(hnext := vect[h])];
    assert p in todo;
    assert forall e :: e in todo[1..] ==> e in todo && e != p;
    forall b | 0 <= b < |cs| ensures ListIs(m', vect[b], cs[b]) && p !in cs[b] {
      ListSame(m, m', vect[b], cs[b]);
    }
    ListSame(m, m', m[p].hnext, todo[1..]);
    MoveLists(m', vect, cs, p, h);
    MoveLocated(cs, todo, bucketOf, h);
  }

  lemma MoveLists(m': Memory, vect: seq<Ref>, cs: seq<seq<nat>>, p: nat, h: nat)
    requires |vect| == |cs| && h < |cs| && p in m' && m'[p].hnext == vect[h]
    requires forall b :: 0 <= b < |cs| ==> ListIs(m', vect[b], cs[b]) && NoDup(cs[b]) && p !in cs[b]
    ensures var vect', cs' := vect[h := To(p)], cs[h := [p] + cs[h]];
            forall b :: 0 <= b < |cs| ==> ListIs(m', vect'[b], cs'[b]) && NoDup(cs'[b])
  {
    var l := [p] + cs[h];
    assert l[1..] == cs[h];
  }

  lemma MoveLocated(cs: seq<seq<nat>>, todo: seq<nat>, bucketOf: map<nat, int>, h: nat)
    requires Located(cs, todo, bucketOf) && NoDup(todo) && todo != [] && h < |cs|
    ensures Located(cs[h := [todo[0]] + cs[h]], todo[1..], bucketOf[todo[0] := h])
  {
    var p := todo[0];
    TailHas(todo);
    assert p in todo;
    var cs' := cs[h := [p] + cs[h]];
    assert forall b, e :: 0 <= b < |cs| ==> (e in cs'[b] <==> e in cs[b] || (b == h && e == p));
  }

  lemma TailHas(l: seq<nat>)
    requires NoDup(l) && l != []
    ensures forall e :: e in l[1..] <==> e in l && e != l[0]
  {
    assert l == [l[0]] + l[1..];
  }

  /** All strings of bucket 'i' are taken apart. */
  lemma TakeBucket(m: Memory, vect: seq<Ref>, cs: seq<seq<nat>>, bucketOf: map<nat, int>, i: nat)
    requires Chains(m, vect, cs, Null, [], bucketOf) && i < |cs|
    ensures Chains(m, vect[i := Null], cs[i := []], vect[i], cs[i], Apart(bucketOf, i))
  {
    hide ListIs;
    EmptyList(m);
  }

  lemma EmptyList(m: Memory)
    ensures ListIs(m, Null, [])
  {
  }

  ghost function Apart(bucketOf: map<nat, int>, i: nat): (w: map<nat, int>)
    ensures w.Keys == bucketOf.Keys
  {
    map e | e in bucketOf :: if bucketOf[e] == i then -1 else bucketOf[e]
  }

  /** Strings in these buckets are where their hashes say, for a table of size 'n'. */
  ghost predicate Placed(m: Memory, cs: seq<seq<nat>>, from: nat, to: nat, n: nat)
    requires n > 0
  {
    forall b, e :: from <= b < to && b < |cs| && e in cs[b] ==> e in m && m[e].hash % n == b
  }
}
