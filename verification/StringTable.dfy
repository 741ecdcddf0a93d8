/**
 The table of short strings (lstring.c): it is rehashed in place when it grows and when it shrinks, and
 two short strings with the same bytes are the same object.
 */
module StringTable {
  import opened StringChains

  const MINSTRTABSIZE: nat := 128
  const MAXSTRTB: nat := 0x7fff_ffff

  predicate IsPow2(n: nat)
    decreases n
  {
    n == 1 || (n > 1 && n % 2 == 0 && IsPow2(n / 2))
  }

  /** Links may have changed, but nothing else. */
  ghost predicate SameStrings(m: Memory, m': Memory)
  {
    m'.Keys == m.Keys && forall e :: e in m ==> m'[e].hash == m[e].hash && m'[e].bytes == m[e].bytes
  }

  /** Strings in the buckets before 'i', and from 'osize' on, are in their places for size 'n'. */
  ghost predicate PlacedBut(m: Memory, cs: seq<seq<nat>>, i: nat, osize: nat, n: nat)
    requires n > 0
  {
    forall b, e :: 0 <= b < |cs| && (b < i || b >= osize) && e in cs[b] ==> e in m && m[e].hash % n == b
  }

  function Empties(n: nat): seq<seq<nat>>
  {
    seq(n, _ => [])
  }

  lemma ExtendChains(m: Memory, vect: seq<Ref>, cs: seq<seq<nat>>, bucketOf: map<nat, int>, vect': seq<Ref>)
    requires Chains(m, vect, cs, Null, [], bucketOf) && |vect'| >= |vect| && vect'[..|vect|] == vect
    requires forall b :: |vect| <= b < |vect'| ==> vect'[b] == Null
    ensures Chains(m, vect', cs + Empties(|vect'| - |vect|), Null, [], bucketOf)
  {
    var cs' := cs + Empties(|vect'| - |vect|);
    EmptyList(m);
    assert forall b :: 0 <= b < |vect| ==> vect'[b] == vect[b];
    assert forall b :: 0 <= b < |cs'| ==> cs'[b] == if b < |cs| then cs[b] else [];
    hide ListIs;
  }

  lemma MovePlaced(m: Memory, cs: seq<seq<nat>>, i: nat, osize: nat, n: nat, p: nat, r: Ref)
    requires n > 0 && PlacedBut(m, cs, i, osize, n) && p in m && m[p].hash % n < |cs|
    ensures var h := m[p].hash % n; PlacedBut(m[p := m[p].(hnext := r)], cs[h := [p] + cs[h]], i, osize, n)
  {
    var h := m[p].hash % n;
    var cs' := cs[h := [p] + cs[h]];
    assert forall e :: e in cs'[h] <==> e in cs[h] || e == p;
  }

  lemma TakePlaced(m: Memory, cs: seq<seq<nat>>, i: nat, osize: nat, n: nat)
    requires n > 0 && PlacedBut(m, cs, i, osize, n) && i < |cs|
    ensures PlacedBut(m, cs[i := []], i + 1, osize, n)
  {
  }

  /** The chains of the table have all its strings, once each, in the buckets of their hashes. */
  ghost predicate InTable(m: Memory, v: seq<Ref>, cs: seq<seq<nat>>, bucketOf: map<nat, int>, size: nat)
  {
    size > 0 && |v| == size && Chains(m, v, cs, Null, [], bucketOf) && bucketOf.Keys == m.Keys
    && PlacedBut(m, cs, size, size, size)
  }

  ghost predicate Counted(m: Memory, nuse: nat, next: nat)
  {
    |m| == nuse && forall e :: e in m ==> e < next
  }

  class StringTable {
    var hash: array<Ref>
    var size: nat
    var nuse: nat
    var strings: Memory
    var next: nat
    ghost var cs: seq<seq<nat>>
    ghost var bucketOf: map<nat, int>

    /** tablerehash: all strings of the first 'osize' buckets go to the buckets of a table of size 'nsize'. */
    method TableRehash(vect: array<Ref>, osize: nat, nsize: nat)
      requires nsize > 0 && osize <= vect.Length && nsize <= vect.Length
      requires (osize == vect.Length || nsize == vect.Length)
      requires Chains(strings, vect[..osize], cs, Null, [], bucketOf)
      modifies vect, `strings, `cs, `bucketOf
      ensures Chains(strings, vect[..], cs, Null, [], bucketOf) && PlacedBut(strings, cs, osize, osize, nsize)
      ensures bucketOf.Keys == old(bucketOf).Keys && SameStrings(old(strings), strings)
    {
      hide Chains, PlacedBut, ListIs;
      ghost var m0, vect0 := strings, vect[..osize];
      Clear(vect, osize, nsize);
      ChainsLength(strings, vect0, cs, bucketOf);
      ExtendChains(strings, vect0, cs, bucketOf, vect[..]);
      cs := cs + Empties(vect.Length - osize);
      NonePlaced(strings, cs, osize, nsize);
      SameRefl(m0);
      ChainsLength(strings, vect[..], cs, bucketOf);
      var i := 0;
      while i < osize
        invariant 0 <= i <= osize && |cs| == vect.Length
        invariant Chains(strings, vect[..], cs, Null, [], bucketOf) && PlacedBut(strings, cs, i, osize, nsize)
        invariant bucketOf.Keys == old(bucketOf).Keys && SameStrings(m0, strings)
      {
        ghost var m1 := strings;
        RehashBucket(vect, i, osize, nsize);
        SameTrans(m0, m1, strings);
        i := i + 1;
      }
    }

    /** Clears new elements. */
    method Clear(vect: array<Ref>, osize: nat, nsize: nat)
      requires osize <= vect.Length && nsize <= vect.Length && (osize == vect.Length || nsize == vect.Length)
      modifies vect
      ensures vect[..osize] == old(vect[..osize]) && forall b :: osize <= b < vect.Length ==> vect[b] == Null
    {
      var i := osize;
      while i < nsize
        invariant osize <= i && (i <= nsize || i == osize)
        invariant vect[..osize] == old(vect[..osize]) && forall b :: osize <= b < i ==> vect[b] == Null
      {
        vect[i] := Null;
        i := i + 1;
      }
    }

    /** The strings of one bucket go to their new buckets; it may be visited later, if it is one of them. */
    method RehashBucket(vect: array<Ref>, i: nat, osize: nat, nsize: nat)
      requires 0 < nsize <= vect.Length && i < osize <= vect.Length && |cs| == vect.Length
      requires Chains(strings, vect[..], cs, Null, [], bucketOf) && PlacedBut(strings, cs, i, osize, nsize)
      modifies vect, `strings, `cs, `bucketOf
      ensures |cs| == vect.Length && Chains(strings, vect[..], cs, Null, [], bucketOf)
      ensures PlacedBut(strings, cs, i + 1, osize, nsize)
      ensures bucketOf.Keys == old(bucketOf).Keys && SameStrings(old(strings), strings)
    {
      hide Chains, PlacedBut, ListIs;
      ghost var m0 := strings;
      SameRefl(m0);
      TakeBucket(strings, vect[..], cs, bucketOf, i);
      TakePlaced(strings, cs, i, osize, nsize);
      ghost var todo := cs[i];
      var p := vect[i];
      assert vect[..][i := Null] == vect[..i] + [Null] + vect[i + 1..];
      vect[i] := Null;
      cs, bucketOf := cs[i := []], Apart(bucketOf, i);
      while p.To?
        invariant |cs| == vect.Length && Chains(strings, vect[..], cs, p, todo, bucketOf)
        invariant PlacedBut(strings, cs, i + 1, osize, nsize)
        invariant bucketOf.Keys == old(bucketOf).Keys && SameStrings(m0, strings)
        decreases |todo|
      {
        ghost var m1, v1 := strings, vect[..];
        TodoMore(strings, vect[..], cs, p, todo, bucketOf);
        var hnext := strings[p.ts].hnext;
        var h := strings[p.ts].hash % nsize;
        MoveOne(strings, vect[..], cs, p, todo, bucketOf, h);
        MovePlaced(strings, cs, i + 1, osize, nsize, p.ts, vect[h]);
        SameLink(m0, m1, p.ts, vect[h]);
        strings := strings[p.ts := strings[p.ts].(hnext := vect[h])];
        vect[h] := p;
        assert vect[..] == v1[h := p];
        cs, bucketOf, todo := cs[h := [p.ts] + cs[h]], bucketOf[p.ts := h], todo[1..];
        p := hnext;
      }
      TodoNone(strings, vect[..], cs, p, todo, bucketOf);
    }

    // ---- The table -----------------------------------------------------------------------------------

    ghost predicate TableOk()
      reads this, hash
    {
      IsPow2(size) && hash.Length == size && InTable(strings, hash[..], cs, bucketOf, size)
    }

    ghost predicate Valid(h: seq<int> -> nat)
      reads this, hash
    {
      TableOk() && Counted(strings, nuse, next) && Interned(strings, h)
    }

    /** luaS_init */
    constructor (h: seq<int> -> nat)
      ensures Valid(h) && strings == map[] && size == MINSTRTABSIZE && fresh(hash)
    {
      size, nuse, next, strings := MINSTRTABSIZE, 0, 0, map[];
      hash := new Ref[MINSTRTABSIZE](_ => Null);
      cs, bucketOf := Empties(MINSTRTABSIZE), map[];
      new;
      InitPow2();
      EmptyList(strings);
    }

    /** luaS_resize: without memory the table stays as it was, but for the order of its chains. */
    method Resize(nsize: nat, nomemory: bool)
      requires TableOk() && IsPow2(nsize) && nsize > 0
      modifies this`hash, this`size, this`strings, this`cs, this`bucketOf, hash
      ensures TableOk() && SameStrings(old(strings), strings)
      ensures size == (if nomemory then old(size) else nsize) && (hash == old(hash) || fresh(hash))
    {
      hide IsPow2, Chains, PlacedBut, SameStrings;
      ghost var m0 := strings;
      PowPositive(size);
      SameRefl(m0);
      assert hash[..size] == hash[..];
      if nsize < size {
        TableRehash(hash, size, nsize);
        ShrunkChains(strings, hash[..], cs, bucketOf, nsize);
        SameKeys(m0, strings);
      }
      if nomemory {
        if nsize < size {
          ghost var m1 := strings;
          cs := cs[..nsize];
          TableRehash(hash, nsize, size);
          SameTrans(m0, m1, strings);
          SameKeys(m0, strings);
          AllPlaced(strings, cs, nsize, size, hash[..], bucketOf);
        }
      } else {
        ghost var v := hash[..];
        var newvect := new Ref[nsize](_ => Null);
        var i := 0;
        while i < size && i < nsize
          invariant 0 <= i <= size && i <= nsize
          invariant forall j :: 0 <= j < i ==> newvect[j] == hash[j]
          invariant forall j :: i <= j < nsize ==> newvect[j] == Null
          modifies newvect
        {
          newvect[i] := hash[i];
          i := i + 1;
        }
        var osize := size;
        if nsize < size {
          assert newvect[..] == v[..nsize];
          cs := cs[..nsize];
          hash, size := newvect, nsize;
        } else {
          assert newvect[..size] == v;
          hash, size := newvect, nsize;
          if nsize > osize {
            TableRehash(newvect, osize, nsize);
            SameKeys(m0, strings);
            AllPlaced(strings, cs, osize, nsize, hash[..], bucketOf);
          } else {
            assert newvect[..] == newvect[..osize];
          }
        }
      }
    }

    /** checkSizes: the table shrinks when it is much bigger than needed. */
    method CheckSizes(h: seq<int> -> nat, nomemory: bool)
      requires Valid(h)
      modifies this`hash, this`size, this`strings, this`cs, this`bucketOf, hash
      ensures Valid(h) && SameStrings(old(strings), strings) && (hash == old(hash) || fresh(hash))
      ensures size == if old(nuse < size / 4) && !nomemory then old(size) / 2 else old(size)
    {
      hide InTable, Interned, SameStrings, Counted;
      SameRefl(strings);
      if nuse < size / 4 {
        ghost var m := strings;
        Resize(size / 2, nomemory);
        SameInterned(m, strings, h);
        SameCounted(m, strings, nuse, next);
      }
    }

    /** The search of internshrstr in a chain. */
    method SearchChain(first: Ref, bytes: seq<int>, ghost l: seq<nat>) returns (ts: Ref)
      requires ListIs(strings, first, l)
      ensures ts.To? ==> ts.ts in strings && strings[ts.ts].bytes == bytes
      ensures ts.Null? ==> forall e :: e in l ==> e in strings && strings[e].bytes != bytes
    {
      ts := first;
      ghost var k := 0;
      assert l[0..] == l;
      while ts.To?
        invariant k <= |l| && ListIs(strings, ts, l[k..])
        invariant forall j :: 0 <= j < k ==> l[j] in strings && strings[l[j]].bytes != bytes
        decreases |l| - k
      {
        if strings[ts.ts].bytes == bytes { return; }
        assert l[k..][1..] == l[k + 1..];
        ts := strings[ts.ts].hnext;
        k := k + 1;
      }
      assert k == |l|;
    }

    method Search(bytes: seq<int>, h: seq<int> -> nat) returns (ts: Ref)
      requires Valid(h)
      ensures ts.To? ==> ts.ts in strings && strings[ts.ts].bytes == bytes
      ensures ts.Null? ==> forall e :: e in strings ==> strings[e].bytes != bytes
    {
      hide InTable, Interned, IsPow2, Counted, ListIs;
      PowPositive(size);
      var b := h(bytes) % size;
      BucketList(strings, hash[..], cs, bucketOf, size, b);
      InBucket(strings, hash[..], cs, bucketOf, size, h);
      ts := SearchChain(hash[b], bytes, cs[b]);
    }

    /** The new string of internshrstr. */
    method NewTString(bytes: seq<int>, h: seq<int> -> nat) returns (ts: nat)
      requires Valid(h) && forall e :: e in strings ==> strings[e].bytes != bytes
      modifies `nuse, `strings, `next, `cs, `bucketOf, hash
      ensures Valid(h) && ts !in old(strings) && strings.Keys == old(strings).Keys + {ts} && strings[ts].bytes == bytes
      ensures forall e :: e in old(strings) ==> strings[e].bytes == old(strings)[e].bytes
    {
      hide InTable, Interned, IsPow2, Counted, NewMemory, NewChains;
      PowPositive(size);
      var b := h(bytes) % size;
      ghost var m, v := strings, hash[..];
      NotCounted(m, nuse, next);
      NewString(m, v, cs, bucketOf, size, h, next, bytes, b);
      NewCounted(m, nuse, next, v[b], h(bytes), bytes);
      BucketList(m, v, cs, bucketOf, size, b);
      NewAt(m, next, h(bytes), v[b], bytes);
      ts := PutString(bytes, h(bytes), b);
      cs, bucketOf := NewChains(cs, ts, b), bucketOf[ts := b as int];
    }

    /** The new string at the head of its chain. */
    method PutString(bytes: seq<int>, h: nat, b: nat) returns (ts: nat)
      requires b < hash.Length
      modifies `nuse, `strings, `next, hash
      ensures ts == old(next) && next == ts + 1 && nuse == old(nuse) + 1
      ensures strings == NewMemory(old(strings), ts, h, old(hash[b]), bytes) && hash[..] == old(hash[..])[b := To(ts)]
    {
      ts := next;
      next := next + 1;
      strings := strings[ts := TString(h, hash[b], bytes)];
      hash[b] := To(ts);
      nuse := nuse + 1;
    }

    /** internshrstr: the string with these bytes, which is the old one if there was one. */
    method Intern(bytes: seq<int>, h: seq<int> -> nat, nomemory: bool) returns (ts: nat)
      requires Valid(h)
      modifies this, hash
      ensures Valid(h) && ts in strings && strings[ts].bytes == bytes
      ensures forall e :: e in old(strings) ==> e in strings && strings[e].bytes == old(strings)[e].bytes
      ensures (exists e :: e in old(strings) && old(strings)[e].bytes == bytes) ==>
          ts in old(strings) && strings.Keys == old(strings).Keys
      ensures ts !in old(strings) ==> strings.Keys == old(strings).Keys + {ts}
    {
      hide InTable, Interned, IsPow2, SameStrings, Counted;
      var found := Search(bytes, h);
      if found.To? { return found.ts; }
      ghost var m := strings;
      SameRefl(m);
      if nuse >= size {
        GrowTable(h, nomemory);
      }
      SameBytes(m, strings);
      SameKeys(m, strings);
      ts := NewTString(bytes, h);
    }

    /** growstrtab */
    method GrowTable(h: seq<int> -> nat, nomemory: bool)
      requires Valid(h)
      modifies this`hash, this`size, this`strings, this`cs, this`bucketOf, hash
      ensures Valid(h) && SameStrings(old(strings), strings) && (hash == old(hash) || fresh(hash))
      ensures size == if old(size) <= MAXSTRTB / 2 && !nomemory then old(size) * 2 else old(size)
    {
      hide InTable, Interned, IsPow2, SameStrings, Counted;
      ghost var m := strings;
      SameRefl(m);
      if size <= MAXSTRTB / 2 {
        DoublePow2(size);
        PowPositive(size);
        Resize(size * 2, nomemory);
        SameInterned(m, strings, h);
        SameCounted(m, strings, nuse, next);
      }
    }

    /** The loop of luaS_remove: what comes before the string in its chain; null for the head of the chain. */
    method FindPrevious(ts: nat, b: nat, ghost k: nat) returns (prev: Ref)
      requires b < hash.Length && b < |cs| && ListIs(strings, hash[b], cs[b]) && NoDup(cs[b]) && k < |cs[b]|
      requires cs[b][k] == ts
      ensures prev == if k == 0 then Null else To(cs[b][k - 1])
    {
      hide ListIs;
      prev := Null;
      var cur := hash[b];
      ghost var i := 0;
      ListStep(strings, hash[b], cs[b], 0);
      while cur != To(ts)
        invariant 0 <= i <= k && cur == To(cs[b][i]) && (if i == 0 then prev == Null else prev == To(cs[b][i - 1]))
        decreases k - i
      {
        ListStep(strings, hash[b], cs[b], i);
        prev := cur;
        cur := strings[cur.ts].hnext;
        i := i + 1;
      }
      OnlyAt(cs[b], i, k);
    }

    /** What points to the string points to the next one. */
    method Unlink(ts: nat, prev: Ref, b: nat, ghost k: nat)
      requires b < hash.Length && b < |cs| && k < |cs[b]| && cs[b][k] == ts && ts in strings
      requires (k > 0 ==> cs[b][k - 1] in strings)
      requires prev == if k == 0 then Null else To(cs[b][k - 1])
      modifies `strings, hash
      ensures strings == Unlinked(old(strings), cs[b], k)
      ensures hash[..] == HeadsAfter(old(strings), old(hash[..]), b, ts, k)
    {
      if prev.Null? {
        hash[b] := strings[ts].hnext;
      } else {
        strings := strings[prev.ts := strings[prev.ts].(hnext := strings[ts].hnext)];
      }
      strings := strings - {ts};
    }

    /** luaS_remove, for a string that is about to be freed. */
    method Remove(ts: nat, h: seq<int> -> nat)
      requires Valid(h) && ts in strings
      modifies this`nuse, this`strings, this`cs, this`bucketOf, hash
      ensures Valid(h) && Fewer(old(strings), strings, ts)
    {
      hide InTable, Interned, IsPow2, ListIs, NoDup, Unlinked, WithoutAt, ChainsAfter, HeadsAfter, Counted, Fewer;
      PowPositive(size);
      var b := strings[ts].hash % size;
      ghost var k := RemoveFacts(strings, hash[..], cs, bucketOf, size, h, ts, nuse, next, b);
      ghost var m, cs0 := strings, cs;
      var prev := FindPrevious(ts, b, k);
      Unlink(ts, prev, b, k);
      cs, bucketOf := ChainsAfter(cs0, b, k), bucketOf - {ts};
      nuse := nuse - 1;
    }
  }

  function WithoutAt(l: seq<nat>, k: nat): seq<nat>
  {
    if k < |l| then l[..k] + l[k + 1..] else l
  }

  lemma OnlyAt(l: seq<nat>, i: nat, k: nat)
    requires NoDup(l) && i < |l| && k < |l| && l[i] == l[k]
    ensures i == k
  {
  }

  /** What follows an element of a list. */
  lemma {:induction false} ListStep(m: Memory, r: Ref, l: seq<nat>, i: nat)
    requires ListIs(m, r, l) && i < |l|
    ensures l[i] in m && m[l[i]].hnext == (if i + 1 < |l| then To(l[i + 1]) else Null) && r == To(l[0])
    decreases i
  {
    if i > 0 { ListStep(m, m[l[0]].hnext, l[1..], i - 1); }
  }

  /** The list without one of its elements. */
  function Unlinked(m: Memory, l: seq<nat>, k: nat): Memory
  {
    if k >= |l| || l[k] !in m || (k > 0 && l[k - 1] !in m) then m
    else (if k == 0 then m else m[l[k - 1] := m[l[k - 1]].(hnext := m[l[k]].hnext)]) - {l[k]}
  }

  /** The heads of the buckets without that element. */
  function HeadsAfter(m: Memory, v: seq<Ref>, b: nat, ts: nat, k: nat): seq<Ref>
  {
    if k == 0 && b < |v| && ts in m then v[b := m[ts].hnext] else v
  }

  function ChainsAfter(cs: seq<seq<nat>>, b: nat, k: nat): seq<seq<nat>>
  {
    if b < |cs| then cs[b := WithoutAt(cs[b], k)] else cs
  }

  lemma {:induction false} UnlinkedList(m: Memory, r: Ref, l: seq<nat>, k: nat)
    requires ListIs(m, r, l) && NoDup(l) && k < |l|
    ensures l[k] in m && (k > 0 ==> l[k - 1] in m)
    ensures ListIs(Unlinked(m, l, k), if k == 0 then m[l[0]].hnext else r, WithoutAt(l, k))
    decreases k
  {
    ListStep(m, r, l, k);
    if k > 0 { ListStep(m, r, l, k - 1); }
    var t := l[1..];
    if k == 0 {
      assert WithoutAt(l, 0) == t;
      ListSame(m, Unlinked(m, l, 0), m[l[0]].hnext, t);
    } else if k == 1 {
      UnlinkedSecond(m, r, l);
    } else {
      UnlinkedList(m, m[l[0]].hnext, t, k - 1);
      UnlinkedLater(m, l, k);
    }
  }

  lemma UnlinkedSecond(m: Memory, r: Ref, l: seq<nat>)
    requires ListIs(m, r, l) && NoDup(l) && |l| > 1 && l[0] in m && l[1] in m
    ensures ListIs(Unlinked(m, l, 1), r, WithoutAt(l, 1))
  {
    var m', t := Unlinked(m, l, 1), l[1..];
    assert ListIs(m, m[t[0]].hnext, t[1..]);
    ListSame(m, m', m[t[0]].hnext, t[1..]);
    assert WithoutAt(l, 1)[1..] == t[1..];
  }

  lemma UnlinkedLater(m: Memory, l: seq<nat>, k: nat)
    requires NoDup(l) && 1 < k < |l| && l[k] in m && l[k - 1] in m && l[0] in m
    ensures Unlinked(m, l[1..], k - 1) == Unlinked(m, l, k)
    ensures WithoutAt(l, k)[0] == l[0] && WithoutAt(l, k)[1..] == WithoutAt(l[1..], k - 1)
    ensures l[0] in Unlinked(m, l, k) && Unlinked(m, l, k)[l[0]].hnext == m[l[0]].hnext
  {
  }

  /** Where the string is in its chain, and what the table is without it. */
  lemma RemoveFacts(m: Memory, v: seq<Ref>, cs: seq<seq<nat>>, bucketOf: map<nat, int>, size: nat, h: seq<int> -> nat,
                    ts: nat, nuse: nat, next: nat, b: nat) returns (k: nat)
    requires InTable(m, v, cs, bucketOf, size) && Interned(m, h) && Counted(m, nuse, next) && ts in m
    requires b == m[ts].hash % size
    ensures b < |cs| == |v| && k < |cs[b]| && cs[b][k] == ts && ListIs(m, v[b], cs[b]) && NoDup(cs[b])
    ensures nuse > 0 && (k > 0 ==> cs[b][k - 1] in m)
    ensures var m' := Unlinked(m, cs[b], k);
            && InTable(m', HeadsAfter(m, v, b, ts, k), ChainsAfter(cs, b, k), bucketOf - {ts}, size)
            && Interned(m', h) && Counted(m', nuse - 1, next) && Fewer(m, m', ts)
  {
    hide *;
    k := FindElement(m, v, cs, bucketOf, size, ts, b);
    Removed(m, v, cs, bucketOf, size, h, ts, k, b);
    FewerCounted(m, Unlinked(m, cs[b], k), ts, nuse, next);
  }

  lemma FindElement(m: Memory, v: seq<Ref>, cs: seq<seq<nat>>, bucketOf: map<nat, int>, size: nat, ts: nat, b: nat)
    returns (k: nat)
    requires InTable(m, v, cs, bucketOf, size) && ts in m && b == m[ts].hash % size
    ensures b < |cs| == |v| && k < |cs[b]| && cs[b][k] == ts && ListIs(m, v[b], cs[b]) && NoDup(cs[b])
  {
    hide ListIs;
    assert ts in cs[bucketOf[ts]];
    k :| 0 <= k < |cs[b]| && cs[b][k] == ts;
  }

  /** The table without a string. */
  lemma Removed(m: Memory, v: seq<Ref>, cs: seq<seq<nat>>, bucketOf: map<nat, int>, size: nat,
          h: seq<int> -> nat, ts: nat, k: nat, b: nat)
    requires InTable(m, v, cs, bucketOf, size) && Interned(m, h) && b < |cs| && k < |cs[b]| && cs[b][k] == ts && ts in m
    ensures k > 0 ==> cs[b][k - 1] in m
    ensures InTable(Unlinked(m, cs[b], k), HeadsAfter(m, v, b, ts, k), ChainsAfter(cs, b, k), bucketOf - {ts}, size)
    ensures Interned(Unlinked(m, cs[b], k), h) && Fewer(m, Unlinked(m, cs[b], k), ts)
  {
    hide *;
    var l := cs[b];
    TableParts(m, v, cs, bucketOf, size);
    RemovedLists(m, v, cs, bucketOf, ts, b, k);
    UnlinkedSame(m, l, k);
    ChainsLocated(m, v, cs, bucketOf, b);
    WithoutHas(l, k);
    AfterAt(m, v, cs, b, ts, k);
    RemovedLocated(cs, bucketOf, b, l, k, ChainsAfter(cs, b, k), ts);
    RemovedPlaced(m, Unlinked(m, l, k), cs, b, WithoutAt(l, k), size);
    RemovedInterned(m, Unlinked(m, l, k), h, ts);
    MakeTable(Unlinked(m, l, k), HeadsAfter(m, v, b, ts, k), ChainsAfter(cs, b, k), bucketOf - {ts}, size);
  }

  lemma AfterAt(m: Memory, v: seq<Ref>, cs: seq<seq<nat>>, b: nat, ts: nat, k: nat)
    requires b < |cs| == |v| && ts in m
    ensures HeadsAfter(m, v, b, ts, k) == if k == 0 then v[b := m[ts].hnext] else v
    ensures ChainsAfter(cs, b, k) == cs[b := WithoutAt(cs[b], k)]
    ensures |HeadsAfter(m, v, b, ts, k)| == |v|
  {
  }

  /** One string less. */
  ghost predicate Fewer(m: Memory, m': Memory, ts: nat)
  {
    m'.Keys == m.Keys - {ts} && |m'| == |m| - 1 && forall e :: e in m' ==> e in m && m'[e].bytes == m[e].bytes
  }

  lemma TableParts(m: Memory, v: seq<Ref>, cs: seq<seq<nat>>, bucketOf: map<nat, int>, size: nat)
    requires InTable(m, v, cs, bucketOf, size)
    ensures size > 0 && |v| == size == |cs| && Chains(m, v, cs, Null, [], bucketOf) && bucketOf.Keys == m.Keys
    ensures PlacedBut(m, cs, size, size, size)
  {
  }

  lemma ChainsLocated(m: Memory, v: seq<Ref>, cs: seq<seq<nat>>, bucketOf: map<nat, int>, b: nat)
    requires Chains(m, v, cs, Null, [], bucketOf) && b < |cs|
    ensures Located(cs, [], bucketOf) && NoDup(cs[b])
  {
  }

  lemma MakeTable(m: Memory, v: seq<Ref>, cs: seq<seq<nat>>, bucketOf: map<nat, int>, size: nat)
    requires size > 0 && |v| == size == |cs| && bucketOf.Keys == m.Keys && PlacedBut(m, cs, size, size, size)
    requires Located(cs, [], bucketOf)
    requires forall c :: 0 <= c < |cs| ==> ListIs(m, v[c], cs[c]) && NoDup(cs[c])
    ensures InTable(m, v, cs, bucketOf, size)
  {
    EmptyList(m);
  }

  lemma UnlinkedSame(m: Memory, l: seq<nat>, k: nat)
    requires k < |l| && l[k] in m && (k > 0 ==> l[k - 1] in m)
    ensures var m' := Unlinked(m, l, k);
            m'.Keys == m.Keys - {l[k]} && forall e :: e in m' ==>
              e in m && m'[e].bytes == m[e].bytes && m'[e].hash == m[e].hash
  {
    assert Unlinked(m, l, k).Keys == m.Keys - {l[k]};
  }

  lemma RemovedPlaced(m: Memory, m': Memory, cs: seq<seq<nat>>, b: nat, l: seq<nat>, size: nat)
    requires size > 0 && PlacedBut(m, cs, size, size, size) && b < |cs| == size
    requires forall e :: e in l ==> e in cs[b] && e in m'
    requires forall c, e :: 0 <= c < |cs| && c != b && e in cs[c] ==> e in m'
    requires forall e :: e in m' ==> e in m && m'[e].hash == m[e].hash
    ensures PlacedBut(m', cs[b := l], size, size, size)
  {
  }

  lemma RemovedInterned(m: Memory, m': Memory, h: seq<int> -> nat, ts: nat)
    requires Interned(m, h) && ts in m && m'.Keys == m.Keys - {ts}
    requires forall e :: e in m' ==> e in m && m'[e].bytes == m[e].bytes && m'[e].hash == m[e].hash
    ensures Interned(m', h) && Fewer(m, m', ts)
  {
    assert |m'.Keys| == |m'| && |m.Keys| == |m|;
  }

  lemma RemovedLists(m: Memory, v: seq<Ref>, cs: seq<seq<nat>>, bucketOf: map<nat, int>, ts: nat, b: nat, k: nat)
    requires Chains(m, v, cs, Null, [], bucketOf) && b < |cs| && k < |cs[b]| && cs[b][k] == ts
    requires bucketOf.Keys == m.Keys
    ensures ts in m && (k > 0 ==> cs[b][k - 1] in m)
    ensures var m', v', cs' := Unlinked(m, cs[b], k), if k == 0 then v[b := m[ts].hnext] else v,
                               cs[b := WithoutAt(cs[b], k)];
            forall c :: 0 <= c < |cs| ==> ListIs(m', v'[c], cs'[c]) && NoDup(cs'[c])
    ensures forall c, e :: 0 <= c < |cs| && c != b && e in cs[c] ==> e in Unlinked(m, cs[b], k)
  {
    hide ListIs, Unlinked, WithoutAt, NoDup, Located;
    var l := cs[b];
    UnlinkedList(m, v[b], l, k);
    WithoutHas(l, k);
    ListStep(m, v[b], l, 0);
    forall c | 0 <= c < |cs| && c != b
      ensures ListIs(Unlinked(m, l, k), v[c], cs[c]) && forall e :: e in cs[c] ==> e in Unlinked(m, l, k)
    {
      OtherChain(cs, bucketOf, b, c, k);
      OtherList(m, v[c], cs[c], l, k);
    }
  }

  lemma OtherChain(cs: seq<seq<nat>>, bucketOf: map<nat, int>, b: nat, c: nat, k: nat)
    requires Located(cs, [], bucketOf) && b < |cs| && c < |cs| && c != b && k < |cs[b]|
    ensures forall e :: e in cs[c] ==> e != cs[b][k] && (k > 0 ==> e != cs[b][k - 1])
  {
    assert cs[b][k] in cs[b] && bucketOf[cs[b][k]] == b;
    if k > 0 { assert cs[b][k - 1] in cs[b] && bucketOf[cs[b][k - 1]] == b; }
    assert forall e :: e in cs[c] ==> bucketOf[e] == c;
  }

  lemma OtherList(m: Memory, r: Ref, l': seq<nat>, l: seq<nat>, k: nat)
    requires ListIs(m, r, l') && k < |l| && l[k] in m && (k > 0 ==> l[k - 1] in m)
    requires forall e :: e in l' ==> e != l[k] && (k > 0 ==> e != l[k - 1])
    ensures ListIs(Unlinked(m, l, k), r, l') && forall e :: e in l' ==> e in Unlinked(m, l, k)
  {
    ListIn(m, r, l');
    hide ListIs;
    ListSame(m, Unlinked(m, l, k), r, l');
  }

  lemma RemovedLocated(cs: seq<seq<nat>>, bucketOf: map<nat, int>, b: nat, l: seq<nat>, k: nat, cs': seq<seq<nat>>,
          ts: nat)
    requires Located(cs, [], bucketOf) && b < |cs| && l == cs[b] && k < |l| && l[k] == ts
    requires |cs'| == |cs| && forall c, e :: 0 <= c < |cs| ==> (e in cs'[c] <==> e in cs[c] && (c == b ==> e != ts))
    ensures Located(cs', [], bucketOf - {ts})
  {
    assert l[k] in cs[b];
    assert bucketOf[ts] == b;
    var w := bucketOf - {ts};
    assert forall e :: e in w <==> e in bucketOf && e != ts;
    assert forall e :: e in w ==> w[e] == bucketOf[e];
    forall c, e | 0 <= c < |cs'| && e in cs'[c] ensures e in w && w[e] == c {
      assert e in cs[c];
    }
    forall e | e in w ensures 0 <= w[e] < |cs'| && e in cs'[w[e]] {
      assert e in bucketOf && e in cs[bucketOf[e]];
    }
  }

  lemma WithoutHas(l: seq<nat>, k: nat)
    requires NoDup(l) && k < |l|
    ensures NoDup(WithoutAt(l, k)) && forall e :: e in WithoutAt(l, k) <==> e in l && e != l[k]
  {
    var w := WithoutAt(l, k);
    assert |w| == |l| - 1 && forall i :: 0 <= i < |w| ==> w[i] == if i < k then l[i] else l[i + 1];
    forall e ensures e in w <==> e in l && e != l[k] {
      if e in l && e != l[k] {
        var i :| 0 <= i < |l| && l[i] == e;
        assert w[if i < k then i else i - 1] == e;
      }
      if e in w {
        var i :| 0 <= i < |w| && w[i] == e;
        assert l[if i < k then i else i + 1] == e;
      }
    }
  }

  /** Each string has the hash of its bytes, and no other string has the same bytes. */
  ghost predicate Interned(m: Memory, h: seq<int> -> nat)
  {
    && (forall e :: e in m ==> m[e].hash == h(m[e].bytes))
    && (forall e, d :: e in m && d in m && m[e].bytes == m[d].bytes ==> e == d)
  }

  lemma InitPow2()
    ensures IsPow2(MINSTRTABSIZE)
  {
    assert IsPow2(16);
    assert IsPow2(128 / 2 / 2 / 2);
    assert IsPow2(128 / 2 / 2);
    assert IsPow2(128 / 2);
  }

  lemma PowPositive(n: nat)
    requires IsPow2(n)
    ensures n > 0
  {
  }

  lemma SameKeys(m: Memory, m': Memory)
    requires SameStrings(m, m')
    ensures m'.Keys == m.Keys
  {
  }

  lemma NoElements(l: seq<nat>)
    ensures l == [] || exists e: nat :: e in l
  {
    if l != [] { assert l[0] in l; }
  }

  /** After the rehash for a smaller size, the buckets beyond it are empty. */
  lemma ShrunkChains(m: Memory, vect: seq<Ref>, cs: seq<seq<nat>>, bucketOf: map<nat, int>, n: nat)
    requires 0 < n < |vect| && Chains(m, vect, cs, Null, [], bucketOf) && PlacedBut(m, cs, |vect|, |vect|, n)
    ensures |cs| == |vect| && Chains(m, vect[..n], cs[..n], Null, [], bucketOf) && PlacedBut(m, cs[..n], n, n, n)
  {
    hide ListIs;
    forall b | n <= b < |cs| ensures cs[b] == [] {
      forall e: nat ensures e !in cs[b] {
        if e in m { assert m[e].hash % n < n; }
      }
      NoElements(cs[b]);
    }
    assert forall b :: 0 <= b < n ==> cs[..n][b] == cs[b];
  }

  /** All buckets are done. */
  lemma AllPlaced(m: Memory, cs: seq<seq<nat>>, osize: nat, n: nat, vect: seq<Ref>, bucketOf: map<nat, int>)
    requires n > 0 && PlacedBut(m, cs, osize, osize, n) && Chains(m, vect, cs, Null, [], bucketOf) && |vect| == n
    ensures PlacedBut(m, cs, n, n, n)
  {
  }

  lemma ChainsLength(m: Memory, vect: seq<Ref>, cs: seq<seq<nat>>, bucketOf: map<nat, int>)
    requires Chains(m, vect, cs, Null, [], bucketOf)
    ensures |cs| == |vect|
  {
  }

  lemma NonePlaced(m: Memory, cs: seq<seq<nat>>, osize: nat, n: nat)
    requires n > 0 && osize <= |cs| && forall b :: osize <= b < |cs| ==> cs[b] == []
    ensures PlacedBut(m, cs, 0, osize, n)
  {
  }

  lemma SameRefl(m: Memory)
    ensures SameStrings(m, m)
  {
  }

  lemma SameTrans(m: Memory, m1: Memory, m2: Memory)
    requires SameStrings(m, m1) && SameStrings(m1, m2)
    ensures SameStrings(m, m2)
  {
  }

  lemma SameLink(m: Memory, m1: Memory, p: nat, r: Ref)
    requires SameStrings(m, m1) && p in m1
    ensures SameStrings(m, m1[p := m1[p].(hnext := r)])
  {
  }

  lemma TodoMore(m: Memory, vect: seq<Ref>, cs: seq<seq<nat>>, r: Ref, todo: seq<nat>, bucketOf: map<nat, int>)
    requires Chains(m, vect, cs, r, todo, bucketOf) && r.To?
    ensures todo != [] && r == To(todo[0]) && r.ts in m && r.ts in bucketOf
  {
    assert todo != [] ==> todo[0] in todo;
  }

  lemma TodoNone(m: Memory, vect: seq<Ref>, cs: seq<seq<nat>>, r: Ref, todo: seq<nat>, bucketOf: map<nat, int>)
    requires Chains(m, vect, cs, r, todo, bucketOf) && r.Null?
    ensures todo == [] && Chains(m, vect, cs, Null, [], bucketOf)
  {
  }

  lemma SameInterned(m: Memory, m': Memory, h: seq<int> -> nat)
    requires Interned(m, h) && SameStrings(m, m')
    ensures Interned(m', h) && |m'| == |m|
  {
    assert |m.Keys| == |m| && |m'.Keys| == |m'|;
  }

  lemma FewerCounted(m: Memory, m': Memory, ts: nat, nuse: nat, next: nat)
    requires Counted(m, nuse, next) && Fewer(m, m', ts) && ts in m
    ensures nuse > 0 && Counted(m', nuse - 1, next)
  {
    assert |m.Keys| == |m|;
  }

  lemma SameCounted(m: Memory, m': Memory, nuse: nat, next: nat)
    requires Counted(m, nuse, next) && SameStrings(m, m')
    ensures Counted(m', nuse, next)
  {
    assert |m.Keys| == |m| && |m'.Keys| == |m'|;
  }

  lemma SameBytes(m: Memory, m': Memory)
    requires SameStrings(m, m')
    ensures forall e :: e in m ==> e in m' && m'[e].bytes == m[e].bytes
  {
  }

  lemma {:induction false} DoublePow2(n: nat)
    requires IsPow2(n)
    ensures IsPow2(n * 2)
  {
  }

  /** A string is in the bucket of its hash, if anywhere. */
  lemma InBucket(m: Memory, v: seq<Ref>, cs: seq<seq<nat>>, bucketOf: map<nat, int>, size: nat, h: seq<int> -> nat)
    requires InTable(m, v, cs, bucketOf, size) && Interned(m, h)
    ensures forall e :: e in m ==> h(m[e].bytes) % size < |cs| && e in cs[h(m[e].bytes) % size]
  {
    hide ListIs;
    forall e | e in m ensures h(m[e].bytes) % size < |cs| && e in cs[h(m[e].bytes) % size] {
      var b := bucketOf[e];
      assert e in cs[b];
    }
  }

  function NewMemory(m: Memory, ts: nat, h: nat, r: Ref, bytes: seq<int>): Memory
  {
    m[ts := TString(h, r, bytes)]
  }

  function NewChains(cs: seq<seq<nat>>, ts: nat, b: nat): seq<seq<nat>>
  {
    if b < |cs| then cs[b := [ts] + cs[b]] else cs
  }

  lemma NewAt(m: Memory, ts: nat, h: nat, r: Ref, bytes: seq<int>)
    requires ts !in m
    ensures var m' := NewMemory(m, ts, h, r, bytes);
            m'.Keys == m.Keys + {ts} && m'[ts] == TString(h, r, bytes) && forall e :: e in m ==> m'[e] == m[e]
  {
  }

  lemma NotCounted(m: Memory, nuse: nat, next: nat)
    requires Counted(m, nuse, next)
    ensures next !in m
  {
  }

  lemma NewCounted(m: Memory, nuse: nat, next: nat, r: Ref, h: nat, bytes: seq<int>)
    requires Counted(m, nuse, next)
    ensures Counted(NewMemory(m, next, h, r, bytes), nuse + 1, next + 1)
  {
    assert NewMemory(m, next, h, r, bytes).Keys == m.Keys + {next};
  }

  lemma BucketList(m: Memory, v: seq<Ref>, cs: seq<seq<nat>>, bucketOf: map<nat, int>, size: nat, b: nat)
    requires InTable(m, v, cs, bucketOf, size) && b < size
    ensures |v| == |cs| == size && ListIs(m, v[b], cs[b])
  {
  }

  /** The table with one more string at the head of its chain. */
  lemma NewString(m: Memory, v: seq<Ref>, cs: seq<seq<nat>>, bucketOf: map<nat, int>, size: nat,
          h: seq<int> -> nat, ts: nat, bytes: seq<int>, b: nat)
    requires InTable(m, v, cs, bucketOf, size) && Interned(m, h) && size > 0 && b == h(bytes) % size && b < |v|
    requires ts !in m && forall e :: e in m ==> m[e].bytes != bytes
    ensures InTable(NewMemory(m, ts, h(bytes), v[b], bytes), v[b := To(ts)], NewChains(cs, ts, b), bucketOf[ts := b],
                    size)
    ensures Interned(NewMemory(m, ts, h(bytes), v[b], bytes), h)
  {
    hide *;
    var m' := NewMemory(m, ts, h(bytes), v[b], bytes);
    TableParts(m, v, cs, bucketOf, size);
    NewAt(m, ts, h(bytes), v[b], bytes);
    ChainsLocated(m, v, cs, bucketOf, b);
    NewChainsAt(cs, ts, b);
    NewLists(m, m', v, cs, bucketOf, ts, b);
    NewInterned(m, h, ts, v[b], bytes);
    NewLocated(cs, bucketOf, ts, b);
    NewPlaced(m, m', cs, ts, b, size);
    MakeTable(m', v[b := To(ts)], NewChains(cs, ts, b), bucketOf[ts := b], size);
  }

  lemma NewChainsAt(cs: seq<seq<nat>>, ts: nat, b: nat)
    requires b < |cs|
    ensures NewChains(cs, ts, b) == cs[b := [ts] + cs[b]]
  {
  }

  lemma NewLists(m: Memory, m': Memory, v: seq<Ref>, cs: seq<seq<nat>>, bucketOf: map<nat, int>, ts: nat, b: nat)
    requires Chains(m, v, cs, Null, [], bucketOf) && bucketOf.Keys == m.Keys && ts !in m && b < |cs|
    requires m'.Keys == m.Keys + {ts} && m'[ts].hnext == v[b] && forall e :: e in m ==> m'[e] == m[e]
    ensures var v', cs' := v[b := To(ts)], cs[b := [ts] + cs[b]]; forall c :: 0 <= c < |cs| ==>
        ListIs(m', v'[c], cs'[c]) && NoDup(cs'[c])
  {
    hide ListIs;
    forall c | 0 <= c < |cs| ensures ListIs(m', v[c], cs[c]) && ts !in cs[c] {
      ListSame(m, m', v[c], cs[c]);
    }
    MoveLists(m', v, cs, ts, b);
  }

  lemma NewLocated(cs: seq<seq<nat>>, bucketOf: map<nat, int>, ts: nat, b: nat)
    requires Located(cs, [], bucketOf) && ts !in bucketOf && b < |cs|
    ensures Located(cs[b := [ts] + cs[b]], [], bucketOf[ts := b])
  {
    var cs' := cs[b := [ts] + cs[b]];
    assert forall c, e :: 0 <= c < |cs| ==> (e in cs'[c] <==> e in cs[c] || (c == b && e == ts));
  }

  lemma NewPlaced(m: Memory, m': Memory, cs: seq<seq<nat>>, ts: nat, b: nat, size: nat)
    requires size > 0 && PlacedBut(m, cs, size, size, size) && b < |cs| && ts in m' && m'[ts].hash % size == b
    requires ts !in m
    requires forall e :: e in m ==> e in m' && m'[e] == m[e]
    ensures PlacedBut(m', cs[b := [ts] + cs[b]], size, size, size)
  {
    var cs' := cs[b := [ts] + cs[b]];
    assert forall c, e :: 0 <= c < |cs| ==> (e in cs'[c] <==> e in cs[c] || (c == b && e == ts));
  }

  lemma NewInterned(m: Memory, h: seq<int> -> nat, ts: nat, r: Ref, bytes: seq<int>)
    requires Interned(m, h) && ts !in m && forall e :: e in m ==> m[e].bytes != bytes
    ensures Interned(NewMemory(m, ts, h(bytes), r, bytes), h)
  {
  }

  /** Two short strings are the same object exactly when they have the same bytes. */
  lemma SameObject(m: Memory, h: seq<int> -> nat, a: nat, b: nat)
    requires Interned(m, h) && a in m && b in m
    ensures a == b <==> m[a].bytes == m[b].bytes
  {
  }
}
