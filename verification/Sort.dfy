/**
 table.sort (ltablib.c): an in-place quicksort with sentinels, which takes whatever answers the
 comparison function gives.
 */
module Sort {
  /** What a comparison may answer; it may also raise an error. */
  datatype Answer = Less | NotLess | Raises

  datatype Status = Sorted | InvalidOrder | Raised

  /** The order function, which may answer as it likes: it is given how many calls came before. */
  type Oracle<!T> = (nat, T, T) -> Answer

  ghost predicate StrictWeak<T(!new)>(lt: (T, T) -> bool)
  {
    && (forall x: T :: !lt(x, x))
    && (forall x: T, y: T, z: T :: lt(x, y) && lt(y, z) ==> lt(x, z))
    && (forall x: T, y: T, z: T :: !lt(x, y) && !lt(y, z) ==> !lt(x, z))
  }

  /** The function always answers according to a strict weak order. */
  ghost predicate Consistent<T(!new)>(cmp: Oracle<T>, lt: (T, T) -> bool)
  {
    && StrictWeak(lt)
    && forall n: nat, x: T, y: T :: cmp(n, x, y) == if lt(x, y) then Less else NotLess
  }

  // ---- Permutations of a part -------------------------------------------------------------------------

  /** Positions lo to up of the new sequence are a permutation of the old ones, and the others are the same. */
  ghost predicate Permuted<T>(s: seq<T>, s': seq<T>, lo: nat, up: int)
  {
    && |s'| == |s| && lo <= up + 1 <= |s| && s'[..lo] == s[..lo] && s'[up + 1..] == s[up + 1..]
    && multiset(s'[lo..up + 1]) == multiset(s[lo..up + 1])
  }

  lemma PermutedSame<T>(s: seq<T>, lo: nat, up: int)
    requires lo <= up + 1 <= |s|
    ensures Permuted(s, s, lo, up)
  {
  }

  lemma PermutedTrans<T>(s: seq<T>, s1: seq<T>, s2: seq<T>, lo: nat, up: int)
    requires Permuted(s, s1, lo, up) && Permuted(s1, s2, lo, up)
    ensures Permuted(s, s2, lo, up)
  {
  }

  lemma Parts<T>(s: seq<T>, lo: nat, up: int, lo': nat, up': int)
    requires lo' <= lo <= up + 1 <= up' + 1 <= |s|
    ensures multiset(s[lo'..up' + 1]) == multiset(s[lo'..lo]) + multiset(s[lo..up + 1]) + multiset(s[up + 1..up' + 1])
  {
    assert s[lo'..up' + 1] == s[lo'..lo] + s[lo..up + 1] + s[up + 1..up' + 1];
  }

  lemma PermutedWider<T>(s: seq<T>, s': seq<T>, lo: nat, up: int, lo': nat, up': int)
    requires Permuted(s, s', lo, up) && lo' <= lo && up <= up' < |s|
    ensures Permuted(s, s', lo', up')
  {
    Parts(s, lo, up, lo', up');
    Parts(s', lo, up, lo', up');
    assert s'[..lo'] == s'[..lo][..lo'] && s[..lo'] == s[..lo][..lo'];
    assert s'[lo'..lo] == s'[..lo][lo'..] && s[lo'..lo] == s[..lo][lo'..];
    var d := up' - up;
    assert s'[up' + 1..] == s'[up + 1..][d..] && s[up' + 1..] == s[up + 1..][d..];
    assert s'[up + 1..up' + 1] == s'[up + 1..][..d] && s[up + 1..up' + 1] == s[up + 1..][..d];
  }

  function Swapped<T>(s: seq<T>, i: nat, j: nat): seq<T>
    requires i < |s| && j < |s|
  {
    s[i := s[j]][j := s[i]]
  }

  lemma SwapPermutes<T>(s: seq<T>, i: nat, j: nat, lo: nat, up: nat)
    requires lo <= i <= up && lo <= j <= up < |s|
    ensures Permuted(s, Swapped(s, i, j), lo, up)
  {
    var s', m := Swapped(s, i, j), s[lo..up + 1];
    assert s'[lo..up + 1] == Swapped(m, i - lo, j - lo);
    SwapMultiset(m, i - lo, j - lo);
  }

  lemma SwapMultiset<T>(s: seq<T>, i: nat, j: nat)
    requires i < |s| && j < |s|
    ensures multiset(Swapped(s, i, j)) == multiset(s)
  {
  }

  /** Where an element of the new sequence was. */
  lemma Origin<T>(s: seq<T>, s': seq<T>, lo: nat, up: int, k: int) returns (k': int)
    requires Permuted(s, s', lo, up) && 0 <= k < |s|
    ensures 0 <= k' < |s| && s[k'] == s'[k] && (lo <= k <= up <==> lo <= k' <= up) && (!(lo <= k <= up) ==> k' == k)
  {
    if lo <= k <= up {
      assert s'[lo..up + 1][k - lo] == s'[k];
      assert s'[k] in multiset(s'[lo..up + 1]);
      assert s'[k] in s[lo..up + 1];
      k' :| lo <= k' <= up && s[k'] == s'[k];
    } else {
      k' := k;
      if k < lo {
        assert s'[..lo][k] == s[..lo][k];
      } else {
        assert s'[up + 1..][k - up - 1] == s[up + 1..][k - up - 1];
      }
    }
  }

  // ---- Order ---------------------------------------------------------------------------------------------

  ghost predicate InOrder<T>(lt: (T, T) -> bool, s: seq<T>, lo: nat, up: int)
  {
    up < |s| && forall k, m :: lo <= k < m <= up ==> !lt(s[m], s[k])
  }

  /** Pairs are in order, but for those with both elements from lo to up. */
  ghost predicate Placed<T>(lt: (T, T) -> bool, s: seq<T>, lo0: nat, up0: int, lo: int, up: int)
  {
    up0 < |s| && forall k, m :: lo0 <= k < m <= up0 && !(lo <= k && m <= up) ==> !lt(s[m], s[k])
  }

  lemma PlacedPermuted<T>(lt: (T, T) -> bool, s: seq<T>, s': seq<T>, lo0: nat, up0: int, lo: nat, up: int)
    requires Placed(lt, s, lo0, up0, lo, up) && Permuted(s, s', lo, up) && lo0 <= lo && up <= up0
    ensures Placed(lt, s', lo0, up0, lo, up)
  {
    forall k, m | lo0 <= k < m <= up0 && !(lo <= k && m <= up) ensures !lt(s'[m], s'[k]) {
      var k' := Origin(s, s', lo, up, k);
      var m' := Origin(s, s', lo, up, m);
    }
  }

  /** What partition leaves: the pivot at p, what is not greater before it, and what is not less after it. */
  ghost predicate Split<T>(lt: (T, T) -> bool, s: seq<T>, lo: nat, up: nat, p: nat)
  {
    && lo <= p <= up < |s|
    && (forall k :: lo <= k < p ==> !lt(s[p], s[k])) && (forall k :: p < k <= up ==> !lt(s[k], s[p]))
  }

  lemma SplitPermuted<T>(lt: (T, T) -> bool, s: seq<T>, s': seq<T>, lo: nat, up: nat, p: nat, lo1: nat, up1: int)
    requires Split(lt, s, lo, up, p) && Permuted(s, s', lo1, up1)
    requires (lo1 == lo && up1 == p - 1) || (lo1 == p + 1 && up1 == up)
    ensures Split(lt, s', lo, up, p)
  {
    var p' := Origin(s, s', lo1, up1, p);
    forall k | lo <= k < p ensures !lt(s'[p], s'[k]) {
      var k' := Origin(s, s', lo1, up1, k);
    }
    forall k | p < k <= up ensures !lt(s'[k], s'[p]) {
      var k' := Origin(s, s', lo1, up1, k);
    }
  }

  /** With one part sorted, only the other part may be out of order. */
  lemma PlacedSplit<T(!new)>(lt: (T, T) -> bool, s: seq<T>, lo0: nat, up0: int, lo: nat, up: nat, p: nat, lower: bool)
    requires StrictWeak(lt) && Placed(lt, s, lo0, up0, lo, up) && Split(lt, s, lo, up, p) && lo0 <= lo && up <= up0
    requires if lower then InOrder(lt, s, lo, p - 1) else InOrder(lt, s, p + 1, up)
    ensures if lower then Placed(lt, s, lo0, up0, p + 1, up) else Placed(lt, s, lo0, up0, lo, p - 1)
  {
    forall k, m | lo0 <= k < m <= up0 && !(if lower then p + 1 <= k && m <= up else lo <= k && m <= p - 1)
      ensures !lt(s[m], s[k])
    {
      if lo <= k && m <= up && k < p < m {
        assert !lt(s[m], s[p]) && !lt(s[p], s[k]);
      }
    }
  }

  // ---- The algorithm -------------------------------------------------------------------------------------

  const RANLIMIT: nat := 100

  method Swap<T>(a: array<T>, i: nat, j: nat)
    requires i < a.Length && j < a.Length
    modifies a
    ensures a[..] == Swapped(old(a[..]), i, j)
  {
    a[i], a[j] := a[j], a[i];
  }

  /** The elements not greater than the pivot from lo to i, and those not less from j to up. */
  ghost predicate Bounds<T>(lt: (T, T) -> bool, s: seq<T>, pivot: T, lo: nat, i: nat, j: int, up: nat)
  {
    && lo <= i <= up < |s| && 0 <= j <= up
    && (forall k :: lo <= k <= i ==> !lt(pivot, s[k])) && (forall k :: j <= k <= up ==> !lt(s[k], pivot))
  }

  lemma LessIsNot<T(!new)>(lt: (T, T) -> bool, x: T, y: T)
    requires StrictWeak(lt) && lt(x, y)
    ensures !lt(y, x)
  {
    assert lt(y, x) ==> lt(x, x);
  }

  /** Repeats ++i while a[i] < P. */
  method ScanUp<T(!new)>(a: array<T>, cmp: Oracle<T>, calls0: nat, i0: nat, up: nat, pivot: T, ghost lt: (T, T) -> bool)
    returns (i: nat, calls: nat, st: Status)
    requires i0 + 1 < up < a.Length && a[up - 1] == pivot
    ensures i0 < i < up
    ensures Consistent(cmp, lt) ==>
              st == Sorted && !lt(a[i], pivot) && (forall k :: i0 < k < i ==> !lt(pivot, a[k]))
  {
    hide StrictWeak;
    i, calls := i0 + 1, calls0;
    while true
      invariant i0 < i < up
      invariant Consistent(cmp, lt) ==> forall k :: i0 < k < i ==> !lt(pivot, a[k])
      decreases up - i
    {
      var answer := cmp(calls, a[i], pivot);
      calls := calls + 1;
      if answer == Raises { st := Raised; return; }
      if answer == NotLess { break; }
      if i == up - 1 {
        if Consistent(cmp, lt) { Irreflexive(lt, pivot); }
        st := InvalidOrder;
        return;
      }
      if Consistent(cmp, lt) { LessIsNot(lt, a[i], pivot); }
      i := i + 1;
    }
    st := Sorted;
  }

  lemma Irreflexive<T(!new)>(lt: (T, T) -> bool, x: T)
    requires StrictWeak(lt)
    ensures !lt(x, x)
  {
  }

  /** Repeats --j while P < a[j]. */
  method ScanDown<T(!new)>(a: array<T>, cmp: Oracle<T>, calls0: nat, lo: nat, i: nat, j0: nat, pivot: T,
                           ghost lt: (T, T) -> bool)
    returns (j: nat, calls: nat, st: Status)
    requires lo < i && lo < j0 < a.Length && i <= a.Length
    requires Consistent(cmp, lt) ==> forall k :: lo <= k < i ==> !lt(pivot, a[k])
    ensures lo <= j < j0
    ensures Consistent(cmp, lt) ==>
              st == Sorted && !lt(pivot, a[j]) && (forall k :: j < k < j0 ==> !lt(a[k], pivot))
  {
    hide StrictWeak;
    j, calls := j0 - 1, calls0;
    while true
      invariant lo <= j < j0
      invariant Consistent(cmp, lt) ==> forall k :: j < k < j0 ==> !lt(a[k], pivot)
      decreases j
    {
      var answer := cmp(calls, pivot, a[j]);
      calls := calls + 1;
      if answer == Raises { st := Raised; return; }
      if answer == NotLess { break; }
      if j < i {
        st := InvalidOrder;
        return;
      }
      if Consistent(cmp, lt) { LessIsNot(lt, pivot, a[j]); }
      j := j - 1;
    }
    st := Sorted;
  }

  lemma SwapBounds<T>(lt: (T, T) -> bool, s: seq<T>, pivot: T, lo: nat, i: nat, j: nat, up: nat)
    requires lo < i <= j < up - 1 < up < |s| && !lt(s[i], pivot) && !lt(pivot, s[j])
    requires forall k :: lo <= k < i ==> !lt(pivot, s[k])
    requires forall k :: j < k <= up ==> !lt(s[k], pivot)
    ensures Bounds(lt, Swapped(s, i, j), pivot, lo, i, j, up)
  {
  }

  lemma FinalSwap<T(!new)>(lt: (T, T) -> bool, s: seq<T>, pivot: T, lo: nat, i: nat, j: nat, up: nat)
    requires lo < i < up < |s| && lo <= j < i && s[up - 1] == pivot && !lt(s[i], pivot)
    requires forall k :: lo <= k < i ==> !lt(pivot, s[k])
    requires forall k :: j < k <= up ==> !lt(s[k], pivot)
    ensures Split(lt, Swapped(s, up - 1, i), lo, up, i)
  {
  }

  /** partition: for a[lo] <= P == a[up - 1] <= a[up] */
  method Partition<T(!new)>(a: array<T>, cmp: Oracle<T>, calls0: nat, lo: nat, up: nat, pivot: T,
                            ghost lt: (T, T) -> bool)
    returns (i: nat, calls: nat, st: Status)
    requires lo + 3 <= up < a.Length && a[up - 1] == pivot
    requires Consistent(cmp, lt) ==> !lt(pivot, a[lo]) && !lt(a[up], pivot)
    modifies a
    ensures Permuted(old(a[..]), a[..], lo, up) && lo < i < up
    ensures Consistent(cmp, lt) ==> st == Sorted && Split(lt, a[..], lo, up, i)
  {
    hide Consistent, Permuted, Split, Swapped, Bounds;
    ghost var s0 := a[..];
    var j := up - 1;
    i, calls := lo, calls0;
    PermutedSame(s0, lo, up);
    if Consistent(cmp, lt) { FirstBounds(cmp, lt, s0, pivot, lo, up); }
    while true
      invariant lo <= i <= j < up && i < up - 1 && lo < j && a[up - 1] == pivot
      invariant Permuted(s0, a[..], lo, up)
      invariant Consistent(cmp, lt) ==> Bounds(lt, a[..], pivot, lo, i, j, up)
      decreases up - i
    {
      ghost var s, i0, j0 := a[..], i, j;
      i, calls, st := ScanUp(a, cmp, calls, i, up, pivot, lt);
      if st != Sorted { return; }
      if Consistent(cmp, lt) { BoundsLow(lt, s, pivot, lo, i0, j0, up, i); }
      j, calls, st := ScanDown(a, cmp, calls, lo, i, j, pivot, lt);
      if st != Sorted { return; }
      if Consistent(cmp, lt) { BoundsHigh(lt, s, pivot, lo, i0, j0, up, j); }
      SwapPermutes(s, up - 1, i, lo, up);
      SwapPermutes(s, i, j, lo, up);
      if j < i {
        if Consistent(cmp, lt) { FinalSwap(lt, s, pivot, lo, i, j, up); }
        Swap(a, up - 1, i);
        PermutedTrans(s0, s, a[..], lo, up);
        return;
      }
      if Consistent(cmp, lt) { SwapBounds(lt, s, pivot, lo, i, j, up); }
      SwapAt(s, i, j);
      Swap(a, i, j);
      PermutedTrans(s0, s, a[..], lo, up);
    }
  }

  lemma SwapAt<T>(s: seq<T>, i: nat, j: nat)
    requires i < |s| && j < |s|
    ensures |Swapped(s, i, j)| == |s| && forall k :: 0 <= k < |s| && k != i && k != j ==> Swapped(s, i, j)[k] == s[k]
    ensures Swapped(s, i, j)[i] == s[j] && Swapped(s, i, j)[j] == s[i]
  {
  }

  lemma FirstBounds<T(!new)>(cmp: Oracle<T>, lt: (T, T) -> bool, s: seq<T>, pivot: T, lo: nat, up: nat)
    requires Consistent(cmp, lt) && lo < up < |s| && !lt(pivot, s[lo]) && !lt(s[up], pivot) && s[up - 1] == pivot
    ensures Bounds(lt, s, pivot, lo, lo, up - 1, up)
  {
    Irreflexive(lt, pivot);
  }

  lemma BoundsLow<T>(lt: (T, T) -> bool, s: seq<T>, pivot: T, lo: nat, i: nat, j: int, up: nat, i': nat)
    requires Bounds(lt, s, pivot, lo, i, j, up) && i < i' <= up && forall k :: i < k < i' ==> !lt(pivot, s[k])
    ensures forall k :: lo <= k < i' ==> !lt(pivot, s[k])
  {
  }

  lemma BoundsHigh<T>(lt: (T, T) -> bool, s: seq<T>, pivot: T, lo: nat, i: nat, j: int, up: nat, j': nat)
    requires Bounds(lt, s, pivot, lo, i, j, up) && j' < j && forall k :: j' < k < j ==> !lt(s[k], pivot)
    ensures forall k :: j' < k <= up ==> !lt(s[k], pivot)
  {
  }

  /** choosePivot: an element in the second or third quarter, "randomized" by 'rnd'. */
  method ChoosePivot(lo: nat, up: nat, rnd: bv32) returns (p: nat)
    requires lo + RANLIMIT <= up < 0x1_0000_0000
    ensures lo + (up - lo) / 4 <= p <= up - (up - lo) / 4
  {
    var r4 := (up - lo) / 4;
    var mixed := (rnd ^ (lo as bv32) ^ (up as bv32)) as nat;
    p := mixed % (r4 * 2) + (lo + r4);
    InQuarters(mixed, lo, up);
  }

  lemma InQuarters(m: nat, lo: nat, up: nat)
    requires lo + RANLIMIT <= up
    ensures var r4 := (up - lo) / 4; r4 > 0 && lo + r4 <= m % (r4 * 2) + (lo + r4) <= up - r4
  {
    var r4 := (up - lo) / 4;
    assert 0 <= m % (r4 * 2) < r4 * 2;
  }

  /** Swaps a[i] and a[j] when a[j] < a[i]. */
  method Order2<T(!new)>(a: array<T>, cmp: Oracle<T>, calls0: nat, i: nat, j: nat, ghost lt: (T, T) -> bool)
    returns (swapped: bool, calls: nat, st: Status)
    requires i < a.Length && j < a.Length
    modifies a
    ensures a[..] == if swapped then Swapped(old(a[..]), i, j) else old(a[..])
    ensures Consistent(cmp, lt) ==> st == Sorted && swapped == lt(old(a[j]), old(a[i]))
  {
    hide StrictWeak;
    var answer := cmp(calls0, a[j], a[i]);
    calls := calls0 + 1;
    swapped := answer == Less;
    st := if answer == Raises then Raised else Sorted;
    if swapped { Swap(a, i, j); }
  }

  /** The pivot is in the middle. */
  ghost predicate Middle<T>(lt: (T, T) -> bool, s: seq<T>, lo: nat, p: nat, up: nat)
  {
    lo < |s| && p < |s| && up < |s| && !lt(s[p], s[lo]) && !lt(s[up], s[p])
  }

  lemma MiddleLow<T(!new)>(lt: (T, T) -> bool, s: seq<T>, lo: nat, p: nat, up: nat)
    requires StrictWeak(lt) && lo < p < up < |s| && !lt(s[up], s[lo]) && lt(s[p], s[lo])
    ensures Middle(lt, Swapped(s, p, lo), lo, p, up)
  {
    LessIsNot(lt, s[p], s[lo]);
  }

  lemma MiddleHigh<T(!new)>(lt: (T, T) -> bool, s: seq<T>, lo: nat, p: nat, up: nat)
    requires StrictWeak(lt) && lo < p < up < |s| && !lt(s[up], s[lo]) && !lt(s[p], s[lo])
    ensures if lt(s[up], s[p]) then Middle(lt, Swapped(s, p, up), lo, p, up) else Middle(lt, s, lo, p, up)
  {
    if lt(s[up], s[p]) { LessIsNot(lt, s[up], s[p]); }
  }

  /** Sorts elements lo, p and up. */
  method Order3<T(!new)>(a: array<T>, cmp: Oracle<T>, calls0: nat, lo: nat, p: nat, up: nat, ghost lt: (T, T) -> bool)
    returns (calls: nat, st: Status)
    requires lo < p < up < a.Length
    requires Consistent(cmp, lt) ==> !lt(a[up], a[lo])
    modifies a
    ensures Permuted(old(a[..]), a[..], lo, up)
    ensures Consistent(cmp, lt) ==> st == Sorted && Middle(lt, a[..], lo, p, up)
  {
    hide StrictWeak, Permuted, Swapped, Middle;
    ghost var s := a[..];
    PermutedSame(s, lo, up);
    SwapPermutes(s, p, lo, lo, up);
    SwapPermutes(s, p, up, lo, up);
    var swapped;
    SwapSym(s, p, lo);
    SwapSym(s, p, up);
    if Consistent(cmp, lt) && lt(s[p], s[lo]) { MiddleLow(lt, s, lo, p, up); }
    if Consistent(cmp, lt) && !lt(s[p], s[lo]) { MiddleHigh(lt, s, lo, p, up); }
    swapped, calls, st := Order2(a, cmp, calls0, lo, p, lt);
    if st == Sorted && !swapped {
      swapped, calls, st := Order2(a, cmp, calls, p, up, lt);
    }
  }

  lemma SwapSym<T>(s: seq<T>, i: nat, j: nat)
    requires i < |s| && j < |s|
    ensures Swapped(s, i, j) == Swapped(s, j, i)
  {
  }

  function Pow2(n: nat): nat
  {
    if n == 0 then 1 else 2 * Pow2(n - 1)
  }

  lemma OrderTwo<T(!new)>(cmp: Oracle<T>, lt: (T, T) -> bool, s: seq<T>, lo: nat, up: nat)
    requires Consistent(cmp, lt) && lo < up < |s|
    ensures var s' := if lt(s[up], s[lo]) then Swapped(s, lo, up) else s; !lt(s'[up], s'[lo])
  {
    if lt(s[up], s[lo]) { LessIsNot(lt, s[up], s[lo]); }
  }

  lemma MiddleThree<T(!new)>(cmp: Oracle<T>, lt: (T, T) -> bool, s: seq<T>, lo: nat)
    requires Consistent(cmp, lt) && Middle(lt, s, lo, lo + 1, lo + 2)
    ensures InOrder(lt, s, lo, lo + 2)
  {
  }

  lemma MiddlePivot<T>(lt: (T, T) -> bool, s: seq<T>, lo: nat, p: nat, up: nat)
    requires Middle(lt, s, lo, p, up) && lo < p < up - 1
    ensures var s' := Swapped(s, p, up - 1); |s'| == |s| && s'[up - 1] == s[p] && !lt(s[p], s'[lo]) && !lt(s'[up], s[p])
  {
  }

  /** One partition: what is left are two intervals around the pivot; nothing is left of up to three elements. */
  method OneRound<T(!new)>(a: array<T>, cmp: Oracle<T>, calls0: nat, lo: nat, up: nat, rnd: bv32,
                           ghost lt: (T, T) -> bool)
    returns (p: nat, done: bool, calls: nat, st: Status)
    requires lo < up < a.Length <= 0x7fff_ffff
    modifies a
    ensures Permuted(old(a[..]), a[..], lo, up)
    ensures st == Sorted && !done ==> lo < p < up
    ensures Consistent(cmp, lt) ==>
        st == Sorted && if done then InOrder(lt, a[..], lo, up) else Split(lt, a[..], lo, up, p)
  {
    hide StrictWeak, Permuted, Split, Swapped, Consistent, Middle;
    ghost var s0 := a[..];
    PermutedSame(s0, lo, up);
    SwapPermutes(s0, lo, up, lo, up);
    if Consistent(cmp, lt) { OrderTwo(cmp, lt, s0, lo, up); }
    var swapped;
    p, done := lo, true;
    swapped, calls, st := Order2(a, cmp, calls0, lo, up, lt);
    if st != Sorted || up - lo == 1 { return; }
    if up - lo < RANLIMIT || rnd == 0 {
      p := (lo + up) / 2;
    } else {
      p := ChoosePivot(lo, up, rnd);
    }
    ghost var s1 := a[..];
    calls, st := Order3(a, cmp, calls, lo, p, up, lt);
    PermutedTrans(s0, s1, a[..], lo, up);
    if Consistent(cmp, lt) && up - lo == 2 { MiddleThree(cmp, lt, a[..], lo); }
    if st != Sorted || up - lo == 2 { return; }
    ghost var s2 := a[..];
    p, calls, st := PartitionAt(a, cmp, calls, lo, p, up, lt);
    PermutedTrans(s0, s2, a[..], lo, up);
    done := false;
  }

  /** The pivot goes to the last place but one, and the array is split around it. */
  method PartitionAt<T(!new)>(a: array<T>, cmp: Oracle<T>, calls0: nat, lo: nat, q: nat, up: nat,
                              ghost lt: (T, T) -> bool)
    returns (p: nat, calls: nat, st: Status)
    requires lo < q < up - 1 && up < a.Length <= 0x7fff_ffff
    requires Consistent(cmp, lt) ==> Middle(lt, a[..], lo, q, up)
    modifies a
    ensures Permuted(old(a[..]), a[..], lo, up)
    ensures st == Sorted ==> lo < p < up
    ensures Consistent(cmp, lt) ==> st == Sorted && Split(lt, a[..], lo, up, p)
  {
    hide StrictWeak, Permuted, Split, Swapped, Consistent, Middle;
    ghost var s2 := a[..];
    var pivot := a[q];
    SwapPermutes(s2, q, up - 1, lo, up);
    SwapAt(s2, q, up - 1);
    if Consistent(cmp, lt) { MiddlePivot(lt, s2, lo, q, up); }
    Swap(a, q, up - 1);
    ghost var s3 := a[..];
    p, calls, st := Partition(a, cmp, calls0, lo, up, pivot, lt);
    PermutedTrans(s2, s3, a[..], lo, up);
  }

  lemma PlacedAll<T>(lt: (T, T) -> bool, s: seq<T>, lo: nat, up: int)
    requires up < |s|
    ensures Placed(lt, s, lo, up, lo, up)
  {
  }

  lemma PlacedDone<T>(lt: (T, T) -> bool, s: seq<T>, lo0: nat, up0: int, lo: nat, up: int)
    requires Placed(lt, s, lo0, up0, lo, up) && (up <= lo || InOrder(lt, s, lo, up))
    ensures InOrder(lt, s, lo0, up0)
  {
  }

  /** One part around the pivot is sorted. */
  lemma PartSorted<T(!new)>(lt: (T, T) -> bool, s: seq<T>, s': seq<T>, lo0: nat, up0: int, lo: nat, up: nat, p: nat,
                            lower: bool)
    requires StrictWeak(lt) && Placed(lt, s, lo0, up0, lo, up) && Split(lt, s, lo, up, p) && lo0 <= lo && up <= up0
    requires lo < p < up
    requires if lower then Permuted(s, s', lo, p - 1) && InOrder(lt, s', lo, p - 1)
             else Permuted(s, s', p + 1, up) && InOrder(lt, s', p + 1, up)
    ensures if lower then Placed(lt, s', lo0, up0, p + 1, up) else Placed(lt, s', lo0, up0, lo, p - 1)
  {
    hide StrictWeak, Permuted, Split, Placed, InOrder;
    if lower {
      SplitPermuted(lt, s, s', lo, up, p, lo, p - 1);
      PermutedWider(s, s', lo, p - 1, lo, up) by { PartLength(s, s', lo, p - 1, lt, lo, up, p); }
    } else {
      SplitPermuted(lt, s, s', lo, up, p, p + 1, up);
      PermutedWider(s, s', p + 1, up, lo, up) by { PartLength(s, s', p + 1, up, lt, lo, up, p); }
    }
    PlacedPermuted(lt, s, s', lo0, up0, lo, up);
    PlacedSplit(lt, s', lo0, up0, lo, up, p, lower);
  }

  lemma PartLength<T>(s: seq<T>, s': seq<T>, lo1: nat, up1: int, lt: (T, T) -> bool, lo: nat, up: nat, p: nat)
    requires Permuted(s, s', lo1, up1) && Split(lt, s, lo, up, p)
    ensures up < |s| && |s'| == |s|
  {
  }

  /** After the smaller part was sorted: the whole is a permutation still, and the other part is what is left. */
  lemma AfterPart<T(!new)>(s0: seq<T>, s: seq<T>, s': seq<T>, lo0: nat, up0: nat, lo: nat, up: nat, p: nat,
                           lower: bool, lt: (T, T) -> bool,
                           consistent: bool, cmp: Oracle<T>)
    requires Permuted(s0, s, lo0, up0) && lo0 <= lo < p < up <= up0 < |s|
    requires if lower then Permuted(s, s', lo, p - 1) else Permuted(s, s', p + 1, up)
    requires consistent ==> Consistent(cmp, lt) && Placed(lt, s, lo0, up0, lo, up) && Split(lt, s, lo, up, p)
    requires consistent ==> if lower then InOrder(lt, s', lo, p - 1) else InOrder(lt, s', p + 1, up)
    ensures Permuted(s0, s', lo0, up0)
    ensures consistent ==> if lower then Placed(lt, s', lo0, up0, p + 1, up) else Placed(lt, s', lo0, up0, lo, p - 1)
  {
    hide *;
    if lower { PermutedWider(s, s', lo, p - 1, lo0, up0); } else { PermutedWider(s, s', p + 1, up, lo0, up0); }
    PermutedTrans(s0, s, s', lo0, up0);
    if consistent {
      ConsistentWeak(cmp, lt);
      PartSorted(lt, s, s', lo0, up0, lo, up, p, lower);
    }
  }

  /** A part that is less than half of the interval needs one level less. */
  lemma FewerLevels(size: nat, part: nat, levels: nat)
    requires size < Pow2(levels + 1) && 0 < part && 2 * part < size
    ensures levels > 0 && part < Pow2(levels)
  {
    assert Pow2(levels + 1) == 2 * Pow2(levels);
    assert Pow2(0) == 1;
  }

  /**
   auxsort.  Whatever the order function answers, the elements are only permuted, and no index leaves
   the interval; with a consistent order they get sorted.  'levels' bounds the depth of the recursion.
   */
  method AuxSort<T(!new)>(a: array<T>, cmp: Oracle<T>, calls0: nat, lo0: nat, up0: nat, rnd0: bv32,
                          ghost lt: (T, T) -> bool, ghost levels: nat)
    returns (calls: nat, st: Status)
    requires lo0 <= up0 < a.Length <= 0x7fff_ffff && up0 - lo0 + 1 < Pow2(levels + 1)
    modifies a
    ensures Permuted(old(a[..]), a[..], lo0, up0)
    ensures Consistent(cmp, lt) ==> st == Sorted && InOrder(lt, a[..], lo0, up0)
    decreases levels
  {
    hide *;
    var lo, up, rnd := lo0, up0, rnd0;
    ghost var s0 := a[..];
    calls, st := calls0, Sorted;
    PermutedSame(s0, lo, up);
    PlacedAll(lt, s0, lo, up);
    while lo < up
      invariant lo0 <= lo <= up <= up0 && up - lo + 1 < Pow2(levels + 1)
      invariant Permuted(s0, a[..], lo0, up0) && st == Sorted
      invariant Consistent(cmp, lt) ==> Placed(lt, a[..], lo0, up0, lo, up)
      decreases up - lo
    {
      ghost var s1 := a[..];
      var p, done;
      p, done, calls, st := OneRound(a, cmp, calls, lo, up, rnd, lt);
      ghost var s2 := a[..];
      PermutedWider(s1, s2, lo, up, lo0, up0);
      PermutedTrans(s0, s1, s2, lo0, up0);
      if Consistent(cmp, lt) { PlacedPermuted(lt, s1, s2, lo0, up0, lo, up); }
      if st != Sorted { return; }
      if done {
        if Consistent(cmp, lt) { PlacedDone(lt, s2, lo0, up0, lo, up); }
        return;
      }
      var n;
      FewerLevels(up - lo + 1, if p - lo < up - p then p - lo else up - p, levels);
      ghost var lower := p - lo < up - p;
      ghost var lo1, up1 := lo, up;
      if p - lo < up - p {
        calls, st := AuxSort(a, cmp, calls, lo, p - 1, rnd, lt, levels - 1);
        n := p - lo;
        lo := p + 1;
      } else {
        calls, st := AuxSort(a, cmp, calls, p + 1, up, rnd, lt, levels - 1);
        n := up - p;
        up := p - 1;
      }
      AfterPart(s0, s2, a[..], lo0, up0, lo1, up1, p, lower, lt, Consistent(cmp, lt), cmp);
      if st != Sorted { return; }
      if (up - lo) / 128 > n {
        rnd := *;
      }
    }
    if Consistent(cmp, lt) { PlacedDone(lt, a[..], lo0, up0, lo, up); }
  }

  lemma ConsistentWeak<T(!new)>(cmp: Oracle<T>, lt: (T, T) -> bool)
    requires Consistent(cmp, lt)
    ensures StrictWeak(lt)
  {
  }

  /** The logarithm of the number of elements, rounded down: how deep the recursion gets at most. */
  function Log2(n: nat): (l: nat)
    requires n > 0
    ensures Pow2(l) <= n < Pow2(l + 1)
  {
    if n == 1 then 0 else 1 + Log2(n / 2)
  }

  /** sort: the elements are those from 1 to n. */
  method TableSort<T(!new)>(a: array<T>, n: nat, cmp: Oracle<T>, ghost lt: (T, T) -> bool) returns (st: Status)
    requires a.Length == n + 1 && n < 0x7fff_ffff
    modifies a
    ensures Permuted(old(a[..]), a[..], 1, n)
    ensures Consistent(cmp, lt) ==> st == Sorted && InOrder(lt, a[..], 1, n)
  {
    hide StrictWeak, Permuted, Consistent;
    if n > 1 {
      var calls;
      calls, st := AuxSort(a, cmp, 0, 1, n, 0, lt, Log2(n));
    } else {
      PermutedSame(a[..], 1, n);
      st := Sorted;
    }
  }
}
