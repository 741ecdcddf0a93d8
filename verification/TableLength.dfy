/**
 The length of a table (ltable.c, luaH_getn): a border, found near the hint of the last call, by
 binary search in the array part, or by doubling and binary search in the hash part.
 */
module TableLength {
  import opened TableNodes
  import opened LuaTable
  import Sizes = TableSizes
  import TableRehash

  const LUA_MAXINTEGER := 0x7FFF_FFFF_FFFF_FFFF
  const MAX_VICINITY := 4

  ghost predicate Present<V(!new)>(t: Table<V>, j: int)
    requires t.Valid()
    reads t, t.arr, t.hash, t.hash.node
  {
    IntKey(j) in t.Contents()
  }

  /** An index after which the next one is absent, counting zero as present; or the largest integer. */
  ghost predicate Border<V(!new)>(t: Table<V>, n: int)
    requires t.Valid()
    reads t, t.arr, t.hash, t.hash.node
  {
    0 <= n <= LUA_MAXINTEGER && (n == 0 || Present(t, n)) && (n == LUA_MAXINTEGER || !Present(t, n + 1))
  }

  /** hashkeyisempty: whether an index outside the array part is absent. */
  method HashKeyIsEmpty<V(==,!new)>(t: Table<V>, j: nat) returns (e: bool)
    requires t.Valid() && j > t.arr.Length
    ensures e == !Present(t, j)
  {
    hide HashPart.WellFormed;
    var i := t.hash.GetGeneric(IntKey(j), false);
    TableRehash.SearchResult(t.hash, IntKey(j), i);
    t.ContentsAt(IntKey(j));
    e := i < 0 || t.hash.node[i].val.Empty?;
  }

  /** arraykeyisempty */
  method ArrayKeyIsEmpty<V(==,!new)>(t: Table<V>, j: nat) returns (e: bool)
    requires t.Valid() && 1 <= j <= t.arr.Length
    ensures e == !Present(t, j)
  {
    t.ContentsAt(IntKey(j));
    e := t.arr[j - 1].Empty?;
  }

  /** binsearch: a border in [i, j), where 'i' counts as present and 'j' is absent. */
  method BinSearch<V(==,!new)>(t: Table<V>, low: nat, high: nat) returns (i: nat)
    requires t.Valid() && low < high <= t.arr.Length
    requires (low == 0 || Present(t, low)) && !Present(t, high)
    ensures low <= i < high && Border(t, i)
  {
    i := low;
    var j := high;
    while j - i > 1
      invariant low <= i < j <= high
      invariant (i == 0 || Present(t, i)) && !Present(t, j)
      decreases j - i
    {
      var m := (i + j) / 2;
      var e := ArrayKeyIsEmpty(t, m);
      if e { j := m; } else { i := m; }
    }
  }

  /** The binary search of hash_search, outside the array part. */
  method HashBinSearch<V(==,!new)>(t: Table<V>, low: nat, high: nat) returns (i: nat)
    requires t.Valid() && t.arr.Length < low < high <= LUA_MAXINTEGER
    requires Present(t, low) && !Present(t, high)
    ensures low <= i < high && Border(t, i)
  {
    i := low;
    var j := high;
    while j - i > 1
      invariant low <= i < j <= high && Present(t, i) && !Present(t, j)
      decreases j - i
    {
      var m := (i + j) / 2;
      var e := HashKeyIsEmpty(t, m);
      if e { j := m; } else { i := m; }
    }
  }

  /** hash_search: a border in the hash part; the seed only changes which one. */
  method HashSearch<V(==,!new)>(t: Table<V>, seed: nat) returns (n: nat)
    requires t.Valid() && Present(t, t.arr.Length + 1)
    ensures Border(t, n)
  {
    var asize := t.arr.Length;
    var i := asize + 1;
    var rnd := seed;
    var width := 0;
    if asize > 0 {
      width := Sizes.CeilLog2(asize);
    }
    var incr := rnd % Sizes.Pow2(width) + 1;
    var j := if incr <= LUA_MAXINTEGER - i then i + incr else i + 1;
    rnd := rnd / Sizes.Pow2(width);
    var e := HashKeyIsEmpty(t, j);
    while !e
      invariant asize < i < j <= LUA_MAXINTEGER
      invariant Present(t, i) && e == !Present(t, j)
      decreases LUA_MAXINTEGER - j, !e
    {
      i := j;
      if j <= LUA_MAXINTEGER / 2 - 1 {
        j := j * 2 + rnd % 2;
        rnd := rnd / 2;
      } else {
        j := LUA_MAXINTEGER;
        e := HashKeyIsEmpty(t, j);
        if e {
          break;
        } else {
          return j;
        }
      }
      e := HashKeyIsEmpty(t, j);
    }
    n := HashBinSearch(t, i, j);
  }

  /** newhint: saves a border as a hint for the next call. */
  method NewHint<V(==,!new)>(t: Table<V>, hint: nat) returns (n: nat)
    requires t.Valid() && hint <= t.arr.Length
    modifies t`lenhint
    ensures t.Valid() && t.Contents() == old(t.Contents()) && n == hint
    ensures Border(t, hint) == old(Border(t, hint))
  {
    t.lenhint := hint;
    n := hint;
  }

  /** The search of luaH_getn for a border before an empty slot 'limit' of the array part. */
  method BorderBefore<V(==,!new)>(t: Table<V>, start: nat) returns (n: nat)
    requires t.Valid() && 1 <= start <= t.arr.Length && !Present(t, start)
    ensures n < start && Border(t, n)
  {
    var limit := start;
    var i := 0;
    while i < MAX_VICINITY && limit > 1
      invariant 1 <= limit <= start && !Present(t, limit)
    {
      limit := limit - 1;
      var e := ArrayKeyIsEmpty(t, limit);
      if !e {
        return limit;
      }
      i := i + 1;
    }
    n := BinSearch(t, 0, limit);
  }

  /** The search of luaH_getn for a border after a used slot 'limit' of the array part, if there is one. */
  method BorderAfter<V(==,!new)>(t: Table<V>, start: nat) returns (found: bool, n: nat)
    requires t.Valid() && 1 <= start <= t.arr.Length && Present(t, start)
    ensures found ==> n < t.arr.Length && Border(t, n)
    ensures !found ==> Present(t, t.arr.Length)
  {
    var limit := start;
    var i := 0;
    while i < MAX_VICINITY && limit < t.arr.Length
      invariant 1 <= limit <= t.arr.Length && Present(t, limit)
    {
      limit := limit + 1;
      var e := ArrayKeyIsEmpty(t, limit);
      if e {
        return true, limit - 1;
      }
      i := i + 1;
    }
    var e := ArrayKeyIsEmpty(t, t.arr.Length);
    if e {
      n := BinSearch(t, limit, t.arr.Length);
      return true, n;
    }
    return false, 0;
  }

  lemma DummyIsEmpty<V(!new)>(t: Table<V>, j: int)
    requires t.Valid() && t.hash.isdummy && j > t.arr.Length
    ensures !Present(t, j)
  {
    t.ContentsAt(IntKey(j));
  }

  /** luaH_getn: always a border, whatever the hint and the seed; only the hint changes. */
  method Getn<V(==,!new)>(t: Table<V>, seed: nat) returns (n: nat)
    requires t.Valid()
    modifies t`lenhint
    ensures t.Valid() && t.Contents() == old(t.Contents())
    ensures Border(t, n)
  {
    hide HashPart.WellFormed, HashPart.Valid, LuaTable.ArrayView;
    var asize := t.arr.Length;
    if asize > 0 {
      var limit := if t.lenhint == 0 then 1 else t.lenhint;
      var e := ArrayKeyIsEmpty(t, limit);
      if e {
        n := BorderBefore(t, limit);
        n := NewHint(t, n);
        return;
      } else {
        var found;
        found, n := BorderAfter(t, limit);
        if found {
          n := NewHint(t, n);
          return;
        }
      }
      n := NewHint(t, asize);
      assert Present(t, asize);
    }
    var e := HashKeyIsEmpty(t, asize + 1);
    if t.hash.isdummy { DummyIsEmpty(t, asize + 1); }
    if t.hash.isdummy || e {
      n := asize;
    } else {
      n := HashSearch(t, seed);
    }
  }
}
