/**
 Traversing a table (ltable.c, findindex and luaH_next).  The state of a traversal is just the
 last key; entries may be cleared, and their keys may die, while the traversal goes on.
 */
module TableNext {
  import opened TableNodes
  import opened LuaTable

  datatype Step<+V> = Entry(key: Key, val: V) | Finished | InvalidKey

  /** The traversal can go on from 'k': it is the start, an array index, or owned by some node. */
  ghost predicate Known<V(!new)>(t: Table<V>, k: Key)
    reads t`arr, t`hash, t.hash`loc
  {
    k == NilKey || InArray(k, t.arr.Length) || (k.Proper() && k in t.hash.loc)
  }

  /** No slot of the table has this key, not even as a dead one. */
  ghost predicate NoSlot<V(!new)>(t: Table<V>, k: Key)
    reads t`arr, t`hash, t.hash.node
  {
    k != NilKey && !InArray(k, t.arr.Length) && forall i :: 0 <= i < t.hash.node.Length ==> t.hash.node[i].key != k
  }

  /** Number of slots of the table up to and including that of 'k'. */
  ghost function After<V(!new)>(t: Table<V>, k: Key): int
    requires Known(t, k)
    reads t`arr, t`hash, t.hash`loc
  {
    if k == NilKey then 0
    else if InArray(k, t.arr.Length) then k.i
    else t.hash.loc[k] + 1 + t.arr.Length
  }

  lemma LiveIsKnown<V(!new)>(t: Table<V>)
    requires t.Valid()
    ensures forall k :: k in t.Contents() ==> k.Proper() && Known(t, k)
    ensures forall k, q :: k in t.Contents() && q in t.Contents() && After(t, k) == After(t, q) ==> k == q
  {
  }

  /** No entry lies strictly between the slot of 'k' and slot number 'n'. */
  ghost predicate NothingBetween<V(!new)>(t: Table<V>, from: int, n: int)
    requires t.Valid()
    reads t, t.arr, t.hash, t.hash.node
  {
    forall q :: q in t.Contents() && Known(t, q) ==> !(from < After(t, q) < n)
  }

  lemma ArraySlot<V(!new)>(t: Table<V>, i: nat)
    requires t.Valid() && i < t.arr.Length
    ensures Known(t, IntKey(i + 1)) && After(t, IntKey(i + 1)) == i + 1
    ensures t.arr[i].Full? ==> IntKey(i + 1) in t.Contents() && t.Contents()[IntKey(i + 1)] == t.arr[i].v
    ensures t.arr[i].Empty? ==> forall q :: q in t.Contents() && Known(t, q) ==> After(t, q) != i + 1
  {
    t.ContentsAt(IntKey(i + 1));
  }

  lemma HashSlot<V(!new)>(t: Table<V>, i: nat)
    requires t.Valid() && i < t.hash.node.Length
    ensures t.hash.node[i].val.Full? ==>
              var k := t.hash.node[i].key;
              && k in t.Contents() && Known(t, k) && After(t, k) == i + 1 + t.arr.Length
              && t.Contents()[k] == t.hash.node[i].val.v
    ensures t.hash.node[i].val.Empty? ==>
              forall q :: q in t.Contents() && Known(t, q) ==> After(t, q) != i + 1 + t.arr.Length
  {
    WfAt(t.hash.h, t.hash.node[..], t.hash.at, t.hash.loc, i);
    if t.hash.node[i].val.Full? { t.ContentsAt(t.hash.node[i].key); }
    forall q | q in t.Contents() && Known(t, q) && After(t, q) == i + 1 + t.arr.Length
      ensures t.hash.node[i].val.Full?
    {
      t.ContentsAt(q);
    }
  }

  /** findindex: the number of slots up to that of 'k', or -1 when 'k' is found nowhere. */
  method FindIndex<V(==,!new)>(t: Table<V>, k: Key) returns (i: int)
    requires t.Valid() && (k == NilKey || k.Proper())
    ensures -1 <= i <= t.arr.Length + t.hash.node.Length
    ensures Known(t, k) ==> i == After(t, k)
    ensures NoSlot(t, k) ==> i == -1
  {
    if k == NilKey {
      i := 0;
    } else if InArray(k, t.arr.Length) {
      i := k.i;
    } else {
      var n := t.hash.GetGeneric(k, true);
      i := if n < 0 then -1 else n + 1 + t.arr.Length;
    }
  }

  /** luaH_next: the first entry after the slot of 'k'. */
  method Next<V(==,!new)>(t: Table<V>, k: Key) returns (r: Step<V>)
    requires t.Valid() && (k == NilKey || k.Proper())
    ensures (Known(t, k) ==> !r.InvalidKey?) && (NoSlot(t, k) ==> r.InvalidKey?)
    ensures r.Entry? ==> r.key in t.Contents() && r.val == t.Contents()[r.key] && Known(t, r.key) && r.key.Proper()
    ensures Known(t, k) && r.Entry? ==> After(t, k) < After(t, r.key) && NothingBetween(t, After(t, k), After(t, r.key))
    ensures Known(t, k) && r.Finished? ==> NothingBetween(t, After(t, k), t.arr.Length + t.hash.node.Length + 1)
  {
    hide HashPart.WellFormed, HashPart.Valid, Table.Valid, Table.Contents;
    var asize := t.arr.Length;
    var i := FindIndex(t, k);
    if i < 0 {
      return InvalidKey;
    }
    ghost var start := i;
    while i < asize
      invariant start <= i && NothingBetween(t, start, i + 1)
    {
      ArraySlot(t, i);
      if t.arr[i].Full? {
        return Entry(IntKey(i + 1), t.arr[i].v);
      }
      i := i + 1;
    }
    i := i - asize;
    while i < t.hash.node.Length
      invariant 0 <= i && start <= i + asize && NothingBetween(t, start, i + asize + 1)
    {
      HashSlot(t, i);
      if t.hash.node[i].val.Full? {
        var n := t.hash.node[i];
        t.ContentsAt(n.key);
        return Entry(n.key, n.val.v);
      }
      i := i + 1;
    }
    return Finished;
  }

  /** Clearing an entry; the collector may then kill its key. */
  method ClearEntry<V(==,!new)>(t: Table<V>, k: Key, dies: bool)
    requires t.Valid() && k in t.Contents() && k.Proper()
    modifies t.arr, t.hash`contents, t.hash.node
    ensures t.Valid() && t.Contents() == old(t.Contents()) - {k}
  {
    hide HashPart.WellFormed;
    t.ContentsAt(k);
    if InArray(k, t.arr.Length) {
      t.SetArray(k.i - 1, Empty);
    } else {
      ContentsFound(t.hash, k);
      var i := t.hash.GetGeneric(k, false);
      MergeMinus(ArrayView(t.arr[..]), t.hash.contents, k);
      t.hash.SetValue(i, Empty);
      if dies {
        t.hash.ClearKey(i);
      }
    }
  }

  lemma ContentsFound<V(!new)>(hp: HashPart<V>, k: Key)
    requires hp.Valid() && k in hp.contents
    ensures !Absent(hp.node[..], k)
  {
    WfAt(hp.h, hp.node[..], hp.at, hp.loc, hp.loc[k]);
    assert Holds(hp.node[hp.loc[k]], k);
  }

  lemma MergeMinus<V>(a: map<Key, V>, b: map<Key, V>, k: Key)
    requires k !in a
    ensures a + (b - {k}) == (a + b) - {k}
  {
  }

  /** Progress of a traversal: entries up to 'key' were visited, and the others are as they were. */
  ghost predicate VisitedUpTo<V(!new)>(t: Table<V>, whole: map<Key, V>, key: Key, visited: seq<Key>)
    requires t.Valid() && Known(t, key)
    reads t, t.arr, t.hash, t.hash.node
  {
    && (forall i :: 0 <= i < |visited| ==>
          visited[i] in whole && Known(t, visited[i]) && After(t, visited[i]) <= After(t, key))
    && (forall k :: k in whole ==>
          && k.Proper() && Known(t, k)
          && (After(t, k) <= After(t, key) ==> k in visited)
          && (After(t, k) > After(t, key) ==> k in t.Contents() && t.Contents()[k] == whole[k]))
    && (forall k :: k in t.Contents() ==> k in whole)
  }

  /** Moving on to the next entry keeps the progress of the traversal. */
  lemma VisitNext<V(!new)>(t: Table<V>, whole: map<Key, V>, key: Key, next: Key, visited: seq<Key>)
    requires t.Valid() && Known(t, key) && Known(t, next) && VisitedUpTo(t, whole, key, visited)
    requires next in t.Contents() && After(t, key) < After(t, next)
    requires NothingBetween(t, After(t, key), After(t, next))
    ensures next !in visited && next in whole && t.Contents()[next] == whole[next]
    ensures VisitedUpTo(t, whole, next, visited + [next])
  {
    NextFresh(t, whole, key, next, visited);
    hide Table.Contents, Table.Valid, NothingBetween;
    forall k | k in whole
      ensures k.Proper() && Known(t, k) && (After(t, k) <= After(t, next) ==> k in visited + [next])
      ensures After(t, k) > After(t, next) ==> k in t.Contents() && t.Contents()[k] == whole[k]
    {
      UpToNext(t, whole, key, next, visited, k);
    }
  }

  lemma NextFresh<V(!new)>(t: Table<V>, whole: map<Key, V>, key: Key, next: Key, visited: seq<Key>)
    requires t.Valid() && Known(t, key) && Known(t, next) && VisitedUpTo(t, whole, key, visited)
    requires next in t.Contents() && After(t, key) < After(t, next)
    ensures next !in visited && next in whole && t.Contents()[next] == whole[next]
    ensures forall k :: k in visited ==> k in whole && After(t, k) <= After(t, key)
    ensures forall k :: k in t.Contents() ==> k in whole
  {
    hide Table.Contents, Table.Valid;
  }

  lemma UpToNext<V(!new)>(t: Table<V>, whole: map<Key, V>, key: Key, next: Key, visited: seq<Key>, k: Key)
    requires t.Valid() && Known(t, key) && Known(t, next) && VisitedUpTo(t, whole, key, visited) && k in whole
    requires next in t.Contents() && After(t, key) < After(t, next)
    requires NothingBetween(t, After(t, key), After(t, next))
    ensures k.Proper() && Known(t, k) && (After(t, k) <= After(t, next) ==> k in visited + [next])
    ensures After(t, k) > After(t, next) ==> k in t.Contents() && t.Contents()[k] == whole[k]
  {
    LiveIsKnown(t);
    hide Table.Contents, Table.Valid;
  }

  lemma StartVisited<V(!new)>(t: Table<V>)
    requires t.Valid()
    ensures VisitedUpTo(t, t.Contents(), NilKey, [])
  {
    LiveIsKnown(t);
  }

  /** Clearing the entry just visited, or leaving it, keeps the progress of the traversal. */
  method ClearVisited<V(==,!new)>(t: Table<V>, key: Key, clear: bool, dies: bool,
                                  ghost whole: map<Key, V>, ghost visited: seq<Key>)
    requires t.Valid() && Known(t, key) && VisitedUpTo(t, whole, key, visited)
    requires key in visited && key in t.Contents() && key.Proper()
    modifies t.arr, t.hash`contents, t.hash.node
    ensures t.Valid() && Known(t, key) && After(t, key) == old(After(t, key))
    ensures VisitedUpTo(t, whole, key, visited)
    ensures t.Contents() == if clear then old(t.Contents()) - {key} else old(t.Contents())
  {
    hide HashPart.WellFormed, HashPart.Valid, Table.Valid, Table.Contents;
    if clear {
      ClearEntry(t, key, dies);
      assert forall k :: old(Known(t, k)) ==> Known(t, k) && After(t, k) == old(After(t, k));
    }
  }

  /** The record that a traversal leaves: distinct keys of the table with their values. */
  ghost predicate Recorded<V>(whole: map<Key, V>, visited: seq<Key>, values: seq<V>)
  {
    && |values| == |visited|
    && (forall i, j :: 0 <= i < j < |visited| ==> visited[i] != visited[j])
    && (forall i :: 0 <= i < |visited| ==> visited[i] in whole && values[i] == whole[visited[i]])
  }

  ghost function Cleared(visited: seq<Key>, clears: Key -> bool): set<Key>
  {
    set k | k in visited && clears(k)
  }

  lemma RecordStart<V>(whole: map<Key, V>, clears: Key -> bool)
    ensures Recorded(whole, [], []) && whole - Cleared([], clears) == whole
  {
  }

  lemma RecordStep<V>(whole: map<Key, V>, visited: seq<Key>, values: seq<V>, k: Key, v: V, clears: Key -> bool)
    requires Recorded(whole, visited, values) && k !in visited && k in whole && whole[k] == v
    ensures Recorded(whole, visited + [k], values + [v])
    ensures whole - Cleared(visited + [k], clears) ==
            if clears(k) then whole - Cleared(visited, clears) - {k} else whole - Cleared(visited, clears)
  {
  }

  /**
   A whole traversal with luaH_next, clearing the entries that 'clears' selects as soon as they are
   visited and letting the collector kill the keys that 'dies' selects.  Each entry that the table
   had is visited exactly once, and nothing else is lost.
   */
  method Traverse<V(==,!new)>(t: Table<V>, clears: Key -> bool, dies: Key -> bool)
    returns (visited: seq<Key>, values: seq<V>)
    requires t.Valid()
    modifies t.arr, t.hash`contents, t.hash.node
    ensures t.Valid() && Recorded(old(t.Contents()), visited, values)
    ensures forall k :: k in old(t.Contents()) <==> k in visited
    ensures t.Contents() == old(t.Contents()) - Cleared(visited, clears)
  {
    hide HashPart.WellFormed, VisitedUpTo, NothingBetween, Cleared, Recorded;
    ghost var whole := t.Contents();
    visited, values := [], [];
    var key := NilKey;
    StartVisited(t);
    RecordStart(whole, clears);
    while true
      invariant t.Valid() && Known(t, key) && (key == NilKey || key.Proper())
      invariant VisitedUpTo(t, whole, key, visited) && Recorded(whole, visited, values)
      invariant t.Contents() == whole - Cleared(visited, clears)
      decreases t.arr.Length + t.hash.node.Length - After(t, key)
    {
      var r := Next(t, key);
      if r.Finished? {
        break;
      }
      AfterInRange(t, r.key);
      VisitNext(t, whole, key, r.key, visited);
      RecordStep(whole, visited, values, r.key, r.val, clears);
      visited, values := visited + [r.key], values + [r.val];
      key := r.key;
      ClearVisited(t, key, clears(key), dies(key), whole, visited);
    }
    AllVisited(t, whole, key, visited);
  }

  lemma AllVisited<V(!new)>(t: Table<V>, whole: map<Key, V>, key: Key, visited: seq<Key>)
    requires t.Valid() && Known(t, key) && VisitedUpTo(t, whole, key, visited)
    requires NothingBetween(t, After(t, key), t.arr.Length + t.hash.node.Length + 1)
    ensures forall k :: k in whole <==> k in visited
  {
    forall k | k in whole ensures k in visited {
      AfterInRange(t, k);
    }
  }

  lemma AfterInRange<V(!new)>(t: Table<V>, k: Key)
    requires t.Valid() && Known(t, k)
    ensures After(t, k) <= t.arr.Length + t.hash.node.Length
  {
  }
}
