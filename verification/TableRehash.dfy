/**
 Growing a table (ltable.c, "Rehash", luaH_newkey, luaH_set): count the keys, choose the best
 sizes, resize, and insert.  Assignment to any key refines update of a finite map.
 */
module TableRehash {
  import opened TableNodes
  import opened LuaTable
  import Sizes = TableSizes

  datatype Counters = Counters(total: nat, na: nat, deleted: bool, nums: seq<nat>)

  ghost function Ints(ks: set<Key>): set<int>
  {
    set k | k in ks && k.IntKey? :: k.i
  }

  /** The counters describe the integer keys 'ks'. */
  ghost predicate CountsInts(ct: Counters, ks: set<int>)
  {
    Sizes.CountsSlices(ct.nums, ks) && ct.na == |Sizes.UpTo(ks, MAX_ASIZE)|
  }

  lemma AsizeIsPow2()
    ensures Sizes.Pow2(Sizes.MAX_ABITS) == MAX_ASIZE
  {
    assert Sizes.Pow2(8) == 256 by { assert Sizes.Pow2(4) == 16; Sizes.Pow2Add(4, 4); }
    Sizes.Pow2Add(8, 8);
    Sizes.Pow2Add(16, 8);
    Sizes.Pow2Add(24, 7);
    assert Sizes.Pow2(7) == 128;
  }

  lemma SliceAdd(ks: set<int>, k: int, b: nat)
    requires k !in ks
    ensures k >= 1 && Sizes.IsCeilLog2(k, b) ==> |Sizes.Slice(ks + {k}, b)| == |Sizes.Slice(ks, b)| + 1
    ensures !(k >= 1 && Sizes.IsCeilLog2(k, b)) ==> Sizes.Slice(ks + {k}, b) == Sizes.Slice(ks, b)
  {
    if k >= 1 && Sizes.IsCeilLog2(k, b) {
      assert Sizes.Slice(ks + {k}, b) == Sizes.Slice(ks, b) + {k};
    }
  }

  lemma UpToAdd(ks: set<int>, k: int, n: int)
    requires k !in ks
    ensures 1 <= k <= n ==> |Sizes.UpTo(ks + {k}, n)| == |Sizes.UpTo(ks, n)| + 1
    ensures !(1 <= k <= n) ==> Sizes.UpTo(ks + {k}, n) == Sizes.UpTo(ks, n)
  {
    if 1 <= k <= n {
      assert Sizes.UpTo(ks + {k}, n) == Sizes.UpTo(ks, n) + {k};
    }
  }

  /** Counting one more key in its slice. */
  lemma CountOne(ct: Counters, ks: set<int>, k: int, b: nat)
    requires CountsInts(ct, ks) && k !in ks && 1 <= k <= MAX_ASIZE
    requires b <= Sizes.MAX_ABITS && Sizes.IsCeilLog2(k, b)
    ensures CountsInts(ct.(na := ct.na + 1, nums := ct.nums[b := ct.nums[b] + 1]), ks + {k})
  {
    UpToAdd(ks, k, MAX_ASIZE);
    forall c | 0 <= c < |ct.nums|
      ensures ct.nums[b := ct.nums[b] + 1][c] == |Sizes.Slice(ks + {k}, c)|
    {
      SliceAdd(ks, k, c);
      if Sizes.IsCeilLog2(k, c) { Sizes.CeilLog2Unique(k, b, c); }
    }
  }

  /** countint: counts 'key' if it could live in an array part. */
  method CountInt(key: int, ct: Counters, ghost ks: set<int>) returns (r: Counters)
    requires CountsInts(ct, ks) && key !in ks
    ensures CountsInts(r, ks + {key}) && r.total == ct.total && r.deleted == ct.deleted
  {
    if 1 <= key <= MAX_ASIZE {
      var b := Sizes.CeilLog2(key);
      AsizeIsPow2();
      if b > Sizes.MAX_ABITS { Sizes.Pow2Mono(Sizes.MAX_ABITS, b - 1); }
      CountOne(ct, ks, key, b);
      r := ct.(na := ct.na + 1, nums := ct.nums[b := ct.nums[b] + 1]);
    } else {
      UpToAdd(ks, key, MAX_ASIZE);
      AsizeIsPow2();
      forall c | 0 <= c < |ct.nums| ensures ct.nums[c] == |Sizes.Slice(ks + {key}, c)| {
        SliceAdd(ks, key, c);
        Sizes.Pow2Mono(c, Sizes.MAX_ABITS);
      }
      r := ct;
    }
  }

  /** Keys kept in the nodes from index 'i' on. */
  ghost function Above<V(!new)>(hp: HashPart<V>, i: int): set<Key>
    requires hp.WellFormed()
    reads hp, hp.node
  {
    set k | k in hp.contents && hp.loc[k] >= i
  }

  lemma AboveStep<V(!new)>(hp: HashPart<V>, i: nat)
    requires hp.WellFormed() && i < hp.node.Length
    ensures hp.node[i].val.Empty? ==> Above(hp, i) == Above(hp, i + 1)
    ensures hp.node[i].val.Full? ==>
              && hp.node[i].key !in Above(hp, i + 1) && hp.node[i].key in hp.contents
              && Above(hp, i) == Above(hp, i + 1) + {hp.node[i].key}
  {
    WfAt(hp.h, hp.node[..], hp.at, hp.loc, i);
  }

  lemma IntsAdd(ks: set<Key>, k: Key)
    ensures !k.IntKey? ==> Ints(ks + {k}) == Ints(ks)
    ensures Ints(ks + {k}) == Ints(ks) + if k.IntKey? then {k.i} else {}
    ensures k !in ks && k.IntKey? ==> k.i !in Ints(ks)
  {
  }

  /** The step of numusehash for one node. */
  method CountNode<V>(n: Node<V>, ct: Counters, ghost ks: set<Key>) returns (r: Counters)
    requires CountsInts(ct, Ints(ks)) && (n.val.Full? ==> n.key !in ks)
    ensures CountsInts(r, Ints(if n.val.Full? then ks + {n.key} else ks))
    ensures r.total == ct.total + (if n.val.Full? then 1 else 0)
    ensures r.deleted == (ct.deleted || n.val.Empty?)
  {
    r := ct;
    if n.val.Empty? {
      r := r.(deleted := true);
    } else {
      IntsAdd(ks, n.key);
      if n.key.IntKey? {
        r := CountInt(n.key.i, ct, Ints(ks));
      }
      r := r.(total := r.total + 1);
    }
  }

  /** numusehash: counts the live keys of the hash part. */
  method NumUseHash<V(==,!new)>(hp: HashPart<V>, ct: Counters, ghost ks: set<Key>) returns (r: Counters)
    requires hp.WellFormed() && CountsInts(ct, Ints(ks)) && ks !! hp.contents.Keys
    ensures CountsInts(r, Ints(ks + hp.contents.Keys))
    ensures r.total == ct.total + |hp.contents|
  {
    hide *;
    var i := hp.node.Length;
    r := ct;
    CountedNone(hp, ct, ks);
    while i > 0
      invariant 0 <= i <= hp.node.Length
      invariant Counted(hp, ct, ks, i, r)
    {
      i := i - 1;
      r := CountAt(hp, ct, ks, i, r);
    }
    CountedAll(hp, ct, ks, r);
  }

  /** The nodes from 'i' on were counted, after the keys 'ks'. */
  ghost predicate Counted<V(!new)>(hp: HashPart<V>, ct: Counters, ks: set<Key>, i: int, r: Counters)
    reads hp, hp.node
  {
    && hp.WellFormed() && ks !! hp.contents.Keys
    && CountsInts(r, Ints(ks + Above(hp, i))) && r.total == ct.total + |Above(hp, i)|
  }

  lemma CountedNone<V(!new)>(hp: HashPart<V>, ct: Counters, ks: set<Key>)
    requires hp.WellFormed() && CountsInts(ct, Ints(ks)) && ks !! hp.contents.Keys
    ensures Counted(hp, ct, ks, hp.node.Length, ct)
  {
    AboveNone(hp);
    assert ks + {} == ks;
  }

  lemma CountedAll<V(!new)>(hp: HashPart<V>, ct: Counters, ks: set<Key>, r: Counters)
    requires Counted(hp, ct, ks, 0, r)
    ensures CountsInts(r, Ints(ks + hp.contents.Keys)) && r.total == ct.total + |hp.contents|
  {
    hide HashPart.WellFormed, CountsInts, Above;
    AboveNone(hp);
    MapCount(hp.contents);
  }

  method CountAt<V(==,!new)>(hp: HashPart<V>, ghost ct: Counters, ghost ks: set<Key>, i: nat, r0: Counters)
    returns (r: Counters)
    requires i < hp.node.Length && Counted(hp, ct, ks, i + 1, r0)
    ensures Counted(hp, ct, ks, i, r)
  {
    hide HashPart.WellFormed, CountsInts, Above;
    AboveStep(hp, i);
    r := CountNode(hp.node[i], r0, ks + Above(hp, i + 1));
    assert ks + Above(hp, i) ==
             if hp.node[i].val.Full? then ks + Above(hp, i + 1) + {hp.node[i].key} else ks + Above(hp, i + 1);
  }

  lemma MapCount<K, V>(m: map<K, V>)
    ensures |m.Keys| == |m|
  {
  }

  lemma AboveNone<V(!new)>(hp: HashPart<V>)
    requires hp.WellFormed()
    ensures Above(hp, hp.node.Length) == {} && Above(hp, 0) == hp.contents.Keys
  {
  }

  /** The keys of the first 'i' array slots. */
  ghost function ArrayUpTo<V>(a: seq<Slot<V>>, i: int): set<Key>
  {
    set k | k in ArrayView(a) && k.i <= i
  }

  lemma ArrayUpToStep<V>(a: seq<Slot<V>>, i: nat)
    requires i < |a|
    ensures a[i].Empty? ==> ArrayUpTo(a, i + 1) == ArrayUpTo(a, i)
    ensures a[i].Full? ==> IntKey(i + 1) !in ArrayUpTo(a, i) && ArrayUpTo(a, i + 1) == ArrayUpTo(a, i) + {IntKey(i + 1)}
  {
    assert forall k :: k in ArrayView(a) && k.i == i + 1 ==> k == IntKey(i + 1);
    assert a[i].Full? ==> IntKey(i + 1) in ArrayView(a);
  }

  /** The counters once 'lc' more keys of slice 'lg' are added. */
  function WithSlice(ct: Counters, lg: nat, lc: nat): Counters
    requires lg < |ct.nums|
  {
    ct.(na := ct.na + lc, total := ct.total + lc, nums := ct.nums[lg := ct.nums[lg] + lc])
  }

  lemma WithSliceAdd(ct: Counters, lg: nat, lc: nat)
    requires lg < |ct.nums|
    ensures WithSlice(ct, lg, 0) == ct
    ensures WithSlice(WithSlice(ct, lg, lc), lg, 1) == WithSlice(ct, lg, lc + 1)
  {
    assert ct.nums[lg := ct.nums[lg]] == ct.nums;
    assert ct.nums[lg := ct.nums[lg] + lc][lg := ct.nums[lg] + lc + 1] == ct.nums[lg := ct.nums[lg] + lc + 1];
  }

  lemma CountSlot<V>(a: seq<Slot<V>>, i: nat, lg: nat, ct: Counters, ks: set<Key>)
    requires 1 <= i <= |a| <= MAX_ASIZE && a[i - 1].Full? && ks !! ArrayView(a).Keys
    requires lg <= Sizes.MAX_ABITS && Sizes.IsCeilLog2(i, lg)
    requires CountsInts(ct, Ints(ks + ArrayUpTo(a, i - 1)))
    ensures CountsInts(WithSlice(ct, lg, 1), Ints(ks + ArrayUpTo(a, i)))
  {
    var before := ks + ArrayUpTo(a, i - 1);
    ArrayUpToStep(a, i - 1);
    assert IntKey(i) in ArrayView(a);
    assert ks + ArrayUpTo(a, i) == before + {IntKey(i)};
    IntsAdd(before, IntKey(i));
    CountOne(ct, Ints(before), i, lg);
  }

  /** The inner loop of numusearray: counts the used slots of one slice, after the first 'done' ones. */
  method CountSlice<V>(a: array<Slot<V>>, lg: nat, done: nat, lim: nat, ct: Counters, ghost ks: set<Key>)
    returns (lc: nat)
    requires done <= lim <= a.Length <= MAX_ASIZE && lg <= Sizes.MAX_ABITS
    requires forall i :: done < i <= lim ==> Sizes.IsCeilLog2(i, lg)
    requires ks !! ArrayView(a[..]).Keys && CountsInts(ct, Ints(ks + ArrayUpTo(a[..], done)))
    ensures CountsInts(WithSlice(ct, lg, lc), Ints(ks + ArrayUpTo(a[..], lim)))
    ensures lc + |ArrayUpTo(a[..], done)| == |ArrayUpTo(a[..], lim)|
  {
    hide ArrayUpTo, CountsInts, Ints;
    CountsLength(ct, Ints(ks + ArrayUpTo(a[..], done)));
    WithSliceAdd(ct, lg, 0);
    lc := 0;
    var i := done + 1;
    while i <= lim
      invariant done < i <= lim + 1
      invariant CountsInts(WithSlice(ct, lg, lc), Ints(ks + ArrayUpTo(a[..], i - 1)))
      invariant lc + |ArrayUpTo(a[..], done)| == |ArrayUpTo(a[..], i - 1)|
    {
      ArrayUpToStep(a[..], i - 1);
      if a[i - 1].Full? {
        WithSliceAdd(ct, lg, lc);
        CountSlot(a[..], i, lg, WithSlice(ct, lg, lc), ks);
        lc := lc + 1;
      }
      i := i + 1;
    }
  }

  /** numusearray: counts the used slots of the array part, slice by slice. */
  method NumUseArray<V>(a: array<Slot<V>>, ct: Counters, ghost ks: set<Key>) returns (r: Counters)
    requires a.Length <= MAX_ASIZE && ks !! ArrayView(a[..]).Keys && CountsInts(ct, Ints(ks))
    ensures CountsInts(r, Ints(ks + ArrayView(a[..]).Keys))
    ensures r.total == ct.total + |ArrayView(a[..])| && r.deleted == ct.deleted
  {
    hide CountsInts, Ints, ArrayUpTo;
    var lg, ttlg, done := 0, 1, 0;
    r := ct;
    ArrayUpToEnds(a[..], ks);
    while lg <= Sizes.MAX_ABITS
      invariant 0 <= lg <= Sizes.MAX_ABITS + 1 && ttlg == Sizes.Pow2(lg)
      invariant 0 <= done <= a.Length
      invariant done == a.Length ==> ttlg > a.Length
      invariant done == a.Length || done == if lg == 0 then 0 else Sizes.Pow2(lg - 1)
      invariant CountsInts(r, Ints(ks + ArrayUpTo(a[..], done)))
      invariant r.total == ct.total + |ArrayUpTo(a[..], done)| && r.deleted == ct.deleted
    {
      var lim := ttlg;
      if lim > a.Length {
        lim := a.Length;
        if done >= lim {
          break;
        }
      }
      CountsLength(r, Ints(ks + ArrayUpTo(a[..], done)));
      var lc := CountSlice(a, lg, done, lim, r, ks);
      r := WithSlice(r, lg, lc);
      done := lim;
      lg, ttlg := lg + 1, ttlg * 2;
    }
    AsizeIsPow2();
    assert done == a.Length;
  }

  lemma ArrayUpToEnds<V>(a: seq<Slot<V>>, ks: set<Key>)
    ensures ArrayUpTo(a, 0) == {} && ks + ArrayUpTo(a, 0) == ks
    ensures ArrayUpTo(a, |a|) == ArrayView(a).Keys
  {
  }

  lemma CountsLength(ct: Counters, ks: set<int>)
    requires CountsInts(ct, ks)
    ensures |ct.nums| == Sizes.MAX_ABITS + 1
  {
  }

  /** Every key goes either to an array part of size 'n' or to the hash part. */
  lemma {:induction false} RestCount(ks: set<Key>, n: nat)
    ensures |Rest(ks, n)| + |Sizes.UpTo(Ints(ks), n)| == |ks|
    decreases |ks|
  {
    if ks == {} {
      assert Rest(ks, n) == {} && Sizes.UpTo(Ints(ks), n) == {};
    } else {
      var k :| k in ks;
      var less := ks - {k};
      RestCount(less, n);
      assert ks == less + {k};
      IntsAdd(less, k);
      if k.IntKey? { UpToAdd(Ints(less), k.i, n); }
      assert Rest(ks, n) == if InArray(k, n) then Rest(less, n) else Rest(less, n) + {k};
    }
  }

  lemma RestMono(a: set<Key>, b: set<Key>, n: nat)
    requires a <= b
    ensures Rest(a, n) <= Rest(b, n) && |Rest(a, n)| <= |Rest(b, n)|
  {
    SubsetSmaller(Rest(a, n), Rest(b, n));
  }

  /** The counters at the start of rehash: only the extra key. */
  method CountExtra(ek: Key) returns (ct: Counters)
    ensures CountsInts(ct, Ints({ek})) && ct.total == 1
  {
    ct := Counters(1, 0, false, seq(Sizes.MAX_ABITS + 1, _ => 0));
    assert forall b :: 0 <= b <= Sizes.MAX_ABITS ==> Sizes.Slice({}, b) == {};
    assert Sizes.UpTo({}, MAX_ASIZE) == {};
    IntsAdd({}, ek);
    assert {} + {ek} == {ek} && Ints({}) == {};
    if ek.IntKey? {
      ct := CountInt(ek.i, ct, {});
    }
  }

  /** The sizes that rehash chooses are enough for all keys, and the array size is the best one. */
  ghost predicate GoodSizes(ks: set<Key>, oldsize: nat, asize: nat, nsize: nat)
  {
    && |Rest(ks, asize)| <= nsize
    && (asize == oldsize || Sizes.BestSize(Ints(ks), asize))
  }

  /** Without integer keys the array stays, and all keys outside it go to the hash part. */
  lemma ArrayStays<V(!new)>(t: Table<V>, ek: Key)
    requires t.Valid() && ek !in t.Contents() && !InArray(ek, t.arr.Length)
    ensures var hks := t.hash.contents.Keys;
            && t.Contents().Keys + {ek} == {ek} + hks + ArrayView(t.arr[..]).Keys
            && Rest(t.Contents().Keys + {ek}, t.arr.Length) == {ek} + hks == Rest({ek} + hks, t.arr.Length)
            && ek !in hks && ek !in ArrayView(t.arr[..]).Keys
            && ({ek} + hks) !! ArrayView(t.arr[..]).Keys && t.arr.Length <= MAX_ASIZE
  {
    hide HashPart.WellFormed;
  }

  lemma BestSmall(ks: set<int>, asize: nat)
    requires Sizes.BestSize(ks, asize)
    ensures asize <= MAX_ASIZE
  {
    AsizeIsPow2();
    if asize != 0 {
      var j: nat :| j < Sizes.MAX_ABITS + 1 && asize == Sizes.Pow2(j) && Sizes.Eligible(ks, j);
      Sizes.Pow2Mono(j, Sizes.MAX_ABITS);
    }
  }

  lemma FoldSizes(all: set<Key>, oldsize: nat, asize: nat, nsize: nat)
    requires |Rest(all, asize)| <= nsize && (asize == oldsize || Sizes.BestSize(Ints(all), asize))
    ensures GoodSizes(all, oldsize, asize, nsize)
  {
  }

  /** The counting half of rehash. */
  method ComputeNewSizes<V(==,!new)>(t: Table<V>, ek: Key, ghost all: set<Key>) returns (asize: nat, nsize: nat)
    requires t.Valid() && ek.Proper() && ek !in t.Contents() && !InArray(ek, t.arr.Length)
    requires all == t.Contents().Keys + {ek}
    ensures GoodSizes(all, t.arr.Length, asize, nsize) && asize <= MAX_ASIZE
    ensures var n := |Rest(all, asize)|; n <= nsize <= n + n / 4
  {
    hide HashPart.WellFormed, CountsInts, Rest, GoodSizes, Ints, Sizes.BestSize, Table.Contents, InArray, ArrayView;
    ghost var hks, aks := t.hash.contents.Keys, ArrayView(t.arr[..]).Keys;
    ArrayStays(t, ek);
    assert all == ({ek} + hks) + aks;
    var ct := CountExtra(ek);
    ct := NumUseHash(t.hash, ct, {ek});
    RestCount({ek} + hks, t.arr.Length);
    if ct.na == 0 {
      asize := t.arr.Length;
    } else {
      ct := NumUseArray(t.arr, ct, {ek} + hks);
      var na;
      AsizeIsPow2();
      CountsParts(ct, Ints(all));
      asize, na := Sizes.ComputeSizes(ct.nums, ct.na, Ints(all));
      BestSmall(Ints(all), asize);
      RestCount(all, asize);
      ct := ct.(na := na);
    }
    nsize := ct.total - ct.na;
    assert nsize == |Rest(all, asize)|;
    if ct.deleted {
      nsize := nsize + nsize / 4;
    }
    FoldSizes(all, t.arr.Length, asize, nsize);
  }

  lemma CountsParts(ct: Counters, ks: set<int>)
    requires CountsInts(ct, ks)
    ensures Sizes.CountsSlices(ct.nums, ks) && ct.na == |Sizes.UpTo(ks, MAX_ASIZE)|
  {
  }

  /** Which of the two allocations of a resize would succeed. */
  datatype Memory = Memory(nodes: bool, arrayPart: bool)

  /** So many keys fit in a hash part, even with the extra room that is given when keys were removed. */
  predicate KeysFit(n: nat)
  {
    n + n / 4 <= MAX_HSIZE
  }

  lemma RestSmaller(ks: set<Key>, ek: Key, n: nat)
    requires ek !in ks
    ensures |Rest(ks + {ek}, n)| <= |ks| + 1
  {
    SubsetSmaller(Rest(ks + {ek}, n), ks + {ek});
  }

  /** rehash: resize for the keys that the table has and one extra key. */
  method Rehash<V(==,!new)>(t: Table<V>, ek: Key, mem: Memory) returns (r: Outcome)
    requires t.Valid() && ek.Proper() && ek !in t.Contents() && !InArray(ek, t.arr.Length)
    modifies t, t.arr
    ensures t.Valid() && t.Contents() == old(t.Contents())
    ensures r == Done ==>
              && t.hash.Packed()
              && fresh(t.hash) && fresh(t.hash.node) && (t.arr == old(t.arr) || fresh(t.arr))
              && |Rest(t.Contents().Keys + {ek}, t.arr.Length)| <= t.hash.Capacity()
              && (t.arr.Length == old(t.arr.Length) || Sizes.BestSize(Ints(t.Contents().Keys + {ek}), t.arr.Length))
    ensures r != Done ==> t.arr == old(t.arr) && t.hash == old(t.hash)
    ensures r == NoMemory ==> !mem.nodes || !mem.arrayPart
    ensures r == TableOverflow ==> !KeysFit(|old(t.Contents())| + 1)
  {
    hide HashPart.WellFormed;
    var asize, nsize := ComputeNewSizes(t, ek, t.Contents().Keys + {ek});
    RestSmaller(t.Contents().Keys, ek, asize);
    RestMono(t.Contents().Keys, t.Contents().Keys + {ek}, asize);
    r := t.Resize(asize, nsize, mem.nodes, mem.arrayPart);
  }

  /**
   luaH_newkey: adds a key that is not in the table.  When the hash part is full the table is
   rehashed, and then the key has a place: only a failed allocation or the size limit can prevent it.
   */
  method NewKey<V(==,!new)>(t: Table<V>, k: Key, v: V, mem: Memory) returns (r: Outcome)
    requires t.Valid() && k.Proper() && Absent(t.hash.node[..], k) && !InArray(k, t.arr.Length)
    requires k !in t.Contents()
    modifies t, t.arr, t.hash, t.hash.node
    ensures t.Valid()
    ensures t.Contents() == if r == Done then old(t.Contents())[k := v] else old(t.Contents())
    ensures r == NoMemory ==> !mem.nodes || !mem.arrayPart
    ensures r == TableOverflow ==> !KeysFit(|old(t.Contents())| + 1)
  {
    hide HashPart.WellFormed, HashPart.Valid, Table.Contents, Absent;
    var done := InsertFree(t, k, v);
    r := Done;
    if !done {
      r := Rehash(t, k, mem);
      if r == Done {
        RoomFor(t, k);
        t.NewCheckedKey(k, v, Rest(t.Contents().Keys + {k}, t.arr.Length));
      }
    }
  }

  /** The keys that go to the hash part. */
  lemma RoomFor<V(!new)>(t: Table<V>, k: Key)
    requires t.Valid() && k.Proper()
    ensures !InArray(k, t.arr.Length) ==> t.hash.contents.Keys + {k} <= Rest(t.Contents().Keys + {k}, t.arr.Length)
  {
    hide HashPart.WellFormed;
  }

  /** The key goes to the hash part if there is room for it. */
  method InsertFree<V(==,!new)>(t: Table<V>, k: Key, v: V) returns (done: bool)
    requires t.Valid() && k.Proper() && Absent(t.hash.node[..], k) && !InArray(k, t.arr.Length)
    modifies t.hash, t.hash.node
    ensures t.Valid() && t.arr[..] == old(t.arr[..])
    ensures t.Contents() == if done then old(t.Contents())[k := v] else old(t.Contents())
  {
    hide HashPart.WellFormed;
    MergePut(ArrayView(t.arr[..]), t.hash.contents, k, v);
    done := t.hash.InsertKey(k, v);
  }

  /** luaH_get: the value of a key, or nothing. */
  method Get<V(==,!new)>(t: Table<V>, k: Key) returns (x: Slot<V>)
    requires t.Valid() && k.Proper()
    ensures x == if k in t.Contents() then Full(t.Contents()[k]) else Empty
  {
    t.ContentsAt(k);
    if InArray(k, t.arr.Length) {
      return t.arr[k.i - 1];
    }
    var i := t.hash.GetGeneric(k, false);
    SearchResult(t.hash, k, i);
    x := if i < 0 then Empty else t.hash.node[i].val;
  }

  /** What an ordinary search of the hash part tells about its contents. */
  lemma SearchResult<V(!new)>(hp: HashPart<V>, k: Key, i: int)
    requires hp.Valid() && k.Proper() && -1 <= i < hp.node.Length
    requires i < 0 <==> Absent(hp.node[..], k)
    requires i >= 0 ==> Holds(hp.node[i], k)
    ensures i < 0 ==> k !in hp.contents
    ensures i >= 0 ==> (k in hp.contents <==> hp.node[i].val.Full?)
    ensures i >= 0 && k in hp.contents ==> hp.contents[k] == hp.node[i].val.v
  {
    if i >= 0 { WfAt(hp.h, hp.node[..], hp.at, hp.loc, i); }
    if k in hp.contents { WfAt(hp.h, hp.node[..], hp.at, hp.loc, hp.loc[k]); }
    assert k in hp.contents ==> Holds(hp.node[hp.loc[k]], k);
  }

  /** luaH_set: assigning to a key, where the empty value removes it. */
  method Set<V(==,!new)>(t: Table<V>, k: Key, x: Slot<V>, mem: Memory) returns (r: Outcome)
    requires t.Valid() && k.Proper()
    modifies t, t.arr, t.hash, t.hash.node
    ensures t.Valid()
    ensures t.Contents() == if r == Done then Update(old(t.Contents()), k, x) else old(t.Contents())
    ensures r != Done ==> x.Full? && k !in old(t.Contents())
    ensures r == NoMemory ==> !mem.nodes || !mem.arrayPart
    ensures r == TableOverflow ==> !KeysFit(|old(t.Contents())| + 1)
  {
    hide HashPart.WellFormed, HashPart.Valid, Table.Contents, KeysFit, ArrayView;
    t.ContentsAt(k);
    r := Done;
    if InArray(k, t.arr.Length) {
      t.SetArray(k.i - 1, x);
    } else {
      var i := t.hash.GetGeneric(k, false);
      SearchResult(t.hash, k, i);
      if i >= 0 {
        SetOld(t, k, i, x);
      } else if x.Full? {
        r := NewKey(t, k, x.v, mem);
      } else {
        assert t.Contents() - {k} == t.Contents();
      }
    }
  }

  /** A key that has a node in the hash part gets another value. */
  method SetOld<V(==,!new)>(t: Table<V>, k: Key, i: nat, x: Slot<V>)
    requires t.Valid() && k.Proper() && !InArray(k, t.arr.Length) && i < t.hash.node.Length && Holds(t.hash.node[i], k)
    modifies t.hash, t.hash.node
    ensures t.Valid() && t.Contents() == Update(old(t.Contents()), k, x)
  {
    hide HashPart.WellFormed;
    MergeOver(ArrayView(t.arr[..]), t.hash.contents, k, x);
    t.hash.SetValue(i, x);
  }

  lemma MergeOver<V>(a: map<Key, V>, b: map<Key, V>, k: Key, x: Slot<V>)
    requires k !in a
    ensures a + Update(b, k, x) == Update(a + b, k, x)
  {
  }
}
