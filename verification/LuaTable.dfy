/**
 A Lua table (ltable.c): an array part for small positive integer keys and a hash part for
 the rest.  Whatever the sizes of the two parts, a table stands for one finite map.
 */
module LuaTable {
  import opened TableNodes
  import Sizes = TableSizes

  /** Largest array part (MAXASIZE) and largest exponent for a hash part (MAXHBITS). */
  const MAX_ASIZE := 0x8000_0000
  const MAX_HBITS := 30

  /** The most nodes that a hash part can have: 2 to the MAX_HBITS. */
  const MAX_HSIZE := 0x4000_0000

  lemma HsizeIsPow2()
    ensures Sizes.Pow2(MAX_HBITS) == MAX_HSIZE
  {
    assert Sizes.Pow2(10) == 1024;
    Sizes.Pow2Add(10, 10);
    Sizes.Pow2Add(20, 10);
  }

  datatype Outcome = Done | TableOverflow | NoMemory

  /** Whether there can be a hash part for 'size' keys. */
  function NodesOutcome(size: nat, memory: bool): Outcome
  {
    if size > MAX_HSIZE then TableOverflow else if size > 0 && !memory then NoMemory else Done
  }

  /** A logarithm is above the limit exactly when the size is. */
  lemma TooManyNodes(size: nat, lsize: nat)
    requires size > 0 && Sizes.IsCeilLog2(size, lsize)
    ensures lsize > MAX_HBITS <==> size > MAX_HSIZE
  {
    HsizeIsPow2();
    if lsize > MAX_HBITS {
      Sizes.Pow2Mono(MAX_HBITS, lsize - 1);
    } else {
      Sizes.Pow2Mono(lsize, MAX_HBITS);
    }
  }

  predicate InArray(k: Key, asize: nat) { k.IntKey? && 1 <= k.i <= asize }

  ghost function ArrayKeys(n: nat): (r: set<Key>)
    ensures forall k :: k in r <==> InArray(k, n)
  {
    var r := set i | 1 <= i <= n :: IntKey(i);
    assert forall k :: InArray(k, n) ==> k == IntKey(k.i);
    r
  }

  ghost function ArrayView<V>(a: seq<Slot<V>>): map<Key, V>
  {
    map k | k in ArrayKeys(|a|) && a[k.i - 1].Full? :: a[k.i - 1].v
  }

  /** The keys that an array part of size 'n' leaves to the hash part. */
  ghost function Rest(ks: set<Key>, n: nat): set<Key>
  {
    set k | k in ks && !InArray(k, n)
  }

  lemma MergePut<V>(a: map<Key, V>, b: map<Key, V>, k: Key, v: V)
    ensures a + b[k := v] == (a + b)[k := v]
  {
  }

  lemma MergeEmpty<V>(m: map<Key, V>)
    ensures m + map[] == m
  {
  }

  ghost function Update<V>(m: map<Key, V>, k: Key, x: Slot<V>): map<Key, V>
  {
    if x.Full? then m[k := x.v] else m - {k}
  }

  lemma ArrayPut<V>(a: seq<Slot<V>>, i: nat, x: Slot<V>)
    requires i < |a|
    ensures ArrayView(a[i := x]) == Update(ArrayView(a), IntKey(i + 1), x)
  {
  }

  lemma MergeUnder<V>(a: map<Key, V>, b: map<Key, V>, k: Key, x: Slot<V>)
    requires k !in b
    ensures Update(a, k, x) + b == Update(a + b, k, x)
  {
  }

  /** The entries of an array view with index in (n, upto]. */
  ghost function SliceView<V>(a: seq<Slot<V>>, n: nat, upto: nat): map<Key, V>
  {
    map k | k in ArrayView(a) && n < k.i <= upto :: ArrayView(a)[k]
  }

  lemma SliceStep<V>(a: seq<Slot<V>>, n: nat, i: nat)
    requires n <= i < |a|
    ensures a[i].Empty? ==> SliceView(a, n, i + 1) == SliceView(a, n, i)
    ensures a[i].Full? ==>
              && IntKey(i + 1) !in SliceView(a, n, i)
              && SliceView(a, n, i + 1) == SliceView(a, n, i)[IntKey(i + 1) := a[i].v]
    ensures SliceView(a, n, i).Keys <= SliceView(a, n, i + 1).Keys <= SliceView(a, n, |a|).Keys
  {
    assert forall k :: k in ArrayView(a) && k.i == i + 1 ==> k == IntKey(i + 1);
    assert a[i].Full? ==> IntKey(i + 1) in ArrayView(a);
  }

  /** The entries that stay in the array, those of the vanishing slice, and those of the hash part. */
  lemma SplitView<V>(a: seq<Slot<V>>, hc: map<Key, V>, n: nat, room: set<Key>)
    requires forall k :: k in hc ==> !InArray(k, |a|)
    requires room == Rest((ArrayView(a) + hc).Keys, n)
    ensures var kept := ArrayView(if n < |a| then a[..n] else a);
            var slice := SliceView(a, n, |a|);
            && (kept + slice) + hc == ArrayView(a) + hc
            && slice.Keys <= room && Rest(hc.Keys, n) <= room
            && hc.Keys !! (kept + slice).Keys
  {
  }

  class Table<V(==,!new)> {
    const h: Hash
    var arr: array<Slot<V>>
    var hash: HashPart<V>
    var lenhint: nat

    ghost predicate Valid()
      reads this, arr, hash, hash.node
    {
      && hash.Valid() && hash.h == h
      && arr.Length <= MAX_ASIZE && lenhint <= arr.Length
      && forall k :: k in hash.loc ==> !InArray(k, arr.Length)
    }

    ghost function Contents(): map<Key, V>
      requires Valid()
      reads this, arr, hash, hash.node
    {
      ArrayView(arr[..]) + hash.contents
    }

    constructor (h: Hash)
      ensures Valid() && Contents() == map[]
      ensures fresh(arr) && fresh(hash) && fresh(hash.node)
    {
      this.h := h;
      arr := new Slot<V>[0];
      hash := new HashPart<V>(h, 0);
      lenhint := 0;
    }

    lemma ContentsAt(k: Key)
      requires Valid()
      ensures InArray(k, arr.Length) ==> (k in Contents() <==> arr[k.i - 1].Full?)
      ensures InArray(k, arr.Length) && k in Contents() ==> Contents()[k] == arr[k.i - 1].v
      ensures !InArray(k, arr.Length) ==> (k in Contents() <==> k in hash.contents)
      ensures !InArray(k, arr.Length) && k in Contents() ==> Contents()[k] == hash.contents[k]
      ensures k in Contents() ==> k.Proper()
    {
      assert InArray(k, arr.Length) ==> k !in hash.contents;
    }

    /** Writing a slot of the array part. */
    method SetArray(i: nat, x: Slot<V>)
      requires Valid() && i < arr.Length
      modifies arr
      ensures Valid()
      ensures Contents() == Update(old(Contents()), IntKey(i + 1), x)
    {
      ArrayPut(arr[..], i, x);
      MergeUnder(ArrayView(arr[..]), hash.contents, IntKey(i + 1), x);
      arr[i] := x;
      assert arr[..] == old(arr[..])[i := x];
    }

    /** newcheckedkey: a key known to be absent goes where there is a place reserved for it. */
    method NewCheckedKey(k: Key, v: V, ghost room: set<Key>)
      requires Valid() && hash.Packed() && k.Proper() && k !in Contents()
      requires !InArray(k, arr.Length) ==> hash.contents.Keys + {k} <= room && |room| <= hash.Capacity()
      modifies arr, hash, hash.node
      ensures Valid() && hash.Packed()
      ensures Contents() == old(Contents())[k := v]
      ensures hash.contents == if InArray(k, arr.Length) then old(hash.contents) else old(hash.contents)[k := v]
    {
      if InArray(k, arr.Length) {
        SetArray(k.i - 1, Full(v));
      } else {
        ContentsAt(k);
        MergePut(ArrayView(arr[..]), hash.contents, k, v);
        hash.InsertReserved(k, v, room);
        assert hash.loc.Keys == hash.contents.Keys;
      }
    }

    /** resizearray and clearNewSlice: keep the common elements and clear the new ones. */
    method ResizeArray(newasize: nat)
      requires newasize <= MAX_ASIZE
      modifies `arr
      ensures fresh(arr) && arr.Length == newasize
      ensures ArrayView(arr[..]) ==
                ArrayView(if newasize < old(arr.Length) then old(arr[..])[..newasize] else old(arr[..]))
    {
      var op := arr;
      var np := new Slot<V>[newasize](_ => Empty);
      var i := 0;
      while i < op.Length && i < newasize
        invariant 0 <= i <= op.Length && i <= newasize
        invariant forall j :: 0 <= j < newasize ==> np[j] == if j < i then op[j] else Empty
      {
        np[i] := op[i];
        i := i + 1;
      }
      arr := np;
      assert newasize < op.Length ==> np[..] == op[..newasize];
    }

    /** reinsertOldSlice: entries of the vanishing slice of the array go into a new hash part. */
    method ReinsertOldSlice(hp: HashPart<V>, newasize: nat, ghost room: set<Key>)
      requires hp.Valid() && hp.loc == map[] && hp.Packed()
      requires newasize <= arr.Length
      requires SliceView(arr[..], newasize, arr.Length).Keys <= room && |room| <= hp.Capacity()
      modifies hp, hp.node
      ensures hp.Valid() && hp.Packed() && hp.contents == SliceView(arr[..], newasize, arr.Length)
    {
      hide HashPart.WellFormed;
      var i := newasize;
      while i < arr.Length
        invariant newasize <= i <= arr.Length
        invariant hp.Valid() && hp.Packed() && hp.contents == SliceView(arr[..], newasize, i)
      {
        SliceStep(arr[..], newasize, i);
        if arr[i].Full? {
          hp.InsertReserved(IntKey(i + 1), arr[i].v, room);
        }
        i := i + 1;
      }
    }

    /** One step of reinserthash: the entry of node 'j', if there is one, goes back into the table. */
    method ReinsertNode(ot: HashPart<V>, j: nat, ghost base: map<Key, V>, ghost room: set<Key>)
      requires Valid() && hash.Packed() && ot.Valid() && ot != hash && ot.node != hash.node
      requires j < ot.node.Length && ot.contents.Keys !! base.Keys
      requires Contents() == base + ot.Below(j)
      requires hash.contents.Keys <= room && Rest(ot.contents.Keys, arr.Length) <= room && |room| <= hash.Capacity()
      modifies arr, hash, hash.node
      ensures Valid() && hash.Packed() && ot.Valid()
      ensures Contents() == base + ot.Below(j + 1)
      ensures hash.contents.Keys <= room
    {
      hide HashPart.WellFormed;
      var n := ot.node[j];
      ot.BelowStep(j);
      if n.val.Full? {
        MergePut(base, ot.Below(j), n.key, n.val.v);
        NewCheckedKey(n.key, n.val.v, room);
      }
    }

    /** reinserthash: all entries of an old hash part go back into the table. */
    method ReinsertHash(ot: HashPart<V>, ghost room: set<Key>)
      requires Valid() && hash.Packed() && ot.Valid() && ot != hash && ot.node != hash.node
      requires ot.contents.Keys !! Contents().Keys
      requires hash.contents.Keys <= room && Rest(ot.contents.Keys, arr.Length) <= room && |room| <= hash.Capacity()
      modifies arr, hash, hash.node
      ensures Valid() && hash.Packed() && hash.contents.Keys <= room
      ensures Contents() == old(Contents()) + ot.contents
    {
      hide HashPart.WellFormed;
      ghost var base := Contents();
      var j := 0;
      ot.BelowAll();
      MergeEmpty(base);
      while j < ot.node.Length
        invariant 0 <= j <= ot.node.Length
        invariant Valid() && hash.Packed() && ot.Valid()
        invariant Contents() == base + ot.Below(j)
        invariant hash.contents.Keys <= room
      {
        ReinsertNode(ot, j, base, room);
        j := j + 1;
      }
    }

    /** The part of luaH_resize after both allocations: nothing can fail any more. */
    method InstallParts(newt: HashPart<V>, newasize: nat, ghost room: set<Key>)
      requires Valid() && newt.Valid() && newt.Packed() && newt.h == h && newt != hash && newt.node != hash.node
      requires newasize <= MAX_ASIZE && room == Rest(Contents().Keys, newasize) && |room| <= newt.Capacity()
      requires newt.contents == SliceView(arr[..], newasize, arr.Length)
      modifies this, arr, newt, newt.node
      ensures Valid() && Contents() == old(Contents())
      ensures arr.Length == newasize && hash == newt && hash.Packed()
      ensures arr == old(arr) || fresh(arr)
    {
      hide HashPart.WellFormed;
      SplitView(arr[..], hash.contents, newasize, room);
      var oldhash := hash;
      hash := newt;
      if newasize != arr.Length {
        ResizeArray(newasize);
      }
      lenhint := newasize / 2;
      ReinsertHash(oldhash, room);
    }

    /** setnodevector: a new hash part with room for 'size' keys, or the reason why there is none. */
    method SetNodeVector(size: nat, memory: bool) returns (r: Outcome, hp: HashPart?<V>)
      ensures r == NodesOutcome(size, memory)
      ensures r == Done ==>
                && hp != null && fresh(hp) && fresh(hp.node) && hp.h == h
                && hp.Valid() && hp.loc == map[] && hp.Packed()
                && hp.Capacity() == Sizes.NodeCount(size)
    {
      hide HashPart.WellFormed;
      r, hp := NoMemory, null;
      if size == 0 {
        hp := new HashPart<V>(h, 0);
        r := Done;
      } else {
        var lsize := Sizes.CeilLog2(size);
        Sizes.CeilLog2Unique(size, lsize, Sizes.CeilLog2From(size, 0));
        TooManyNodes(size, lsize);
        if lsize > MAX_HBITS {
          r := TableOverflow;
        } else if memory {
          hp := new HashPart<V>(h, Sizes.Pow2(lsize));
          r := Done;
        }
      }
    }

    /** The part of luaH_resize before the array changes: a new hash part with the vanishing slice in it. */
    method PrepareHash(newasize: nat, nhsize: nat, memory: bool, ghost room: set<Key>)
      returns (r: Outcome, newt: HashPart?<V>)
      requires Valid() && room == Rest(Contents().Keys, newasize) && |room| <= Sizes.NodeCount(nhsize)
      ensures r == NodesOutcome(nhsize, memory)
      ensures r == Done ==>
                && newt != null && fresh(newt) && fresh(newt.node) && newt.h == h
                && newt.Valid() && newt.Packed() && newt.Capacity() == Sizes.NodeCount(nhsize)
                && newt.contents == SliceView(arr[..], newasize, arr.Length)
    {
      hide HashPart.WellFormed;
      r, newt := SetNodeVector(nhsize, memory);
      if r == Done {
        SplitView(arr[..], hash.contents, newasize, room);
        if newasize < arr.Length {
          ReinsertOldSlice(newt, newasize, room);
        }
      }
    }

    /**
     luaH_resize: new sizes for both parts.  Either allocation may fail; then nothing changes.
     Reinsertion cannot run out of nodes when the new hash part has one for every key that the new
     array part leaves out.
     */
    method Resize(newasize: nat, nhsize: nat, nodesMemory: bool, arrayMemory: bool) returns (r: Outcome)
      requires Valid()
      requires |Rest(Contents().Keys, newasize)| <= Sizes.NodeCount(nhsize)
      modifies this, arr
      ensures Valid() && Contents() == old(Contents())
      ensures r == TableOverflow <==> newasize > MAX_ASIZE || nhsize > MAX_HSIZE
      ensures r == NoMemory <==>
                && newasize <= MAX_ASIZE && nhsize <= MAX_HSIZE
                && ((nhsize > 0 && !nodesMemory) || (newasize > 0 && newasize != old(arr.Length) && !arrayMemory))
      ensures r == Done ==> arr.Length == newasize && hash.Packed() && hash.Capacity() == Sizes.NodeCount(nhsize)
      ensures r == Done ==> fresh(hash) && fresh(hash.node) && (arr == old(arr) || fresh(arr))
      ensures r != Done ==> arr == old(arr) && hash == old(hash)
    {
      hide HashPart.WellFormed;
      if newasize > MAX_ASIZE {
        return TableOverflow;
      }
      ghost var room := Rest(Contents().Keys, newasize);
      var newt;
      r, newt := PrepareHash(newasize, nhsize, nodesMemory, room);
      if r != Done {
        return;
      }
      if newasize != arr.Length && newasize > 0 && !arrayMemory {
        return NoMemory;
      }
      InstallParts(newt, newasize, room);
      r := Done;
    }
  }
}
