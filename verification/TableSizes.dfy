/**
 Choosing the size of the array part of a table (ltable.c, "Rehash"): candidate sizes are
 powers of two, and the choice maximises the number of integer keys that go to the array
 while an array entry is worth its memory against a hash node.
 */
module TableSizes {

  /** Largest exponent whose power of two fits in a C 'unsigned int' (MAXABITS). */
  const MAX_ABITS := 31

  function Pow2(n: nat): (r: nat)
    ensures r > 0 && r > n
  {
    if n == 0 then 1 else 2 * Pow2(n - 1)
  }

  lemma {:induction false} Pow2Mono(a: nat, b: nat)
    requires a <= b
    ensures Pow2(a) <= Pow2(b)
    ensures a < b ==> 2 * Pow2(a) <= Pow2(b)
    decreases b
  {
    if a < b { Pow2Mono(a, b - 1); }
  }

  /** The smallest n with x <= 2^n. */
  ghost predicate IsCeilLog2(x: int, n: int)
  {
    n >= 0 && x <= Pow2(n) && (n > 0 ==> Pow2(n - 1) < x)
  }

  lemma CeilLog2Unique(x: int, n: int, m: int)
    requires IsCeilLog2(x, n) && IsCeilLog2(x, m)
    ensures n == m
  {
    if n < m { Pow2Mono(n, m - 1); }
    if m < n { Pow2Mono(m, n - 1); }
  }

  ghost function CeilLog2From(x: nat, n: nat): (r: nat)
    requires x > 0 && (n > 0 ==> Pow2(n - 1) < x)
    ensures IsCeilLog2(x, r)
    decreases x - n
  {
    if x <= Pow2(n) then n else CeilLog2From(x, n + 1)
  }

  /** Nodes in a hash part asked to hold 'n' keys: none, or the next power of two. */
  ghost function NodeCount(n: nat): (r: nat)
    ensures r >= n && (r > 0 ==> exists l: nat :: r == Pow2(l) && IsCeilLog2(n, l))
  {
    if n == 0 then 0 else Pow2(CeilLog2From(n, 0))
  }

  /** The table log_2 of luaO_ceillog2: entry i is the ceiling of log2(i + 1). */
  function Log2Entry(i: nat): (r: nat)
    requires i < 256
    ensures IsCeilLog2(i + 1, r)
  {
    if i < 1 then 0 else if i < 2 then 1 else if i < 4 then 2 else if i < 8 then 3
    else if i < 16 then 4 else if i < 32 then 5 else if i < 64 then 6 else if i < 128 then 7 else 8
  }

  lemma {:induction false} Pow2Add(a: nat, b: nat)
    ensures Pow2(a + b) == Pow2(a) * Pow2(b)
  {
    if b > 0 {
      Pow2Add(a, b - 1);
      var p, q := Pow2(a), Pow2(b - 1);
      assert Pow2(a + b) == 2 * Pow2(a + (b - 1)) && Pow2(b) == 2 * q;
      hide Pow2;
      TwiceProduct(p, q);
    }
  }

  lemma TwiceProduct(a: int, b: int)
    ensures a * (2 * b) == 2 * (a * b)
  {
  }

  lemma MulMono(a: int, b: int, c: nat)
    requires a <= b
    ensures a * c <= b * c
  {
  }

  /** 'x' is right shifted to 'y' by 'l' bits. */
  ghost predicate Shifted(x: int, y: int, l: nat)
  {
    y * Pow2(l) <= x && x + 1 <= (y + 1) * Pow2(l)
  }

  lemma MulAssoc(a: int, b: int, c: int)
    ensures a * (b * c) == (a * b) * c
  {
  }

  lemma EightBits()
    ensures Pow2(8) == 256
  {
    assert Pow2(4) == 16;
    Pow2Add(4, 4);
  }

  lemma ShiftByte(x: int, y: nat, l: nat)
    requires Shifted(x, y, l)
    ensures Shifted(x, y / 256, l + 8)
  {
    var p, q := Pow2(l), y / 256;
    assert Pow2(l + 8) == 256 * p by { Pow2Add(l, 8); EightBits(); }
    hide Pow2;
    assert q * (256 * p) <= x by { MulAssoc(q, 256, p); MulMono(q * 256, y, p); }
    assert x + 1 <= (q + 1) * (256 * p) by { MulAssoc(q + 1, 256, p); MulMono(y + 1, (q + 1) * 256, p); }
  }

  /** Dropping 'l' low bits of x - 1 before taking the logarithm lowers it by 'l'. */
  lemma CeilLog2Shift(x: nat, y: nat, l: nat, e: nat)
    requires x > 0 && Shifted(x - 1, y, l)
    requires IsCeilLog2(y + 1, e) && (l > 0 ==> y > 0)
    ensures IsCeilLog2(x, l + e)
  {
    Pow2Add(e, l);
    MulMono(y + 1, Pow2(e), Pow2(l));
    if e > 0 {
      Pow2Add(e - 1, l);
      MulMono(Pow2(e - 1), y, Pow2(l));
    }
  }

  method CeilLog2(x: nat) returns (n: nat)
    requires x > 0
    ensures IsCeilLog2(x, n)
  {
    var l: nat, y: nat := 0, x - 1;
    while y >= 256
      invariant Shifted(x - 1, y, l)
      invariant l > 0 ==> y > 0
    {
      ShiftByte(x - 1, y, l);
      y, l := y / 256, l + 8;
    }
    n := l + Log2Entry(y);
    CeilLog2Shift(x, y, l, Log2Entry(y));
  }

  // ---- Counting integer keys -----------------------------------------------------------

  /** arrayXhash: whether 'na' array entries use no more memory than 'nh' hash nodes. */
  predicate ArrayXHash(na: nat, nh: nat) { na <= 3 * nh }

  /** The keys of 'ks' that an array part of size 'n' would hold. */
  ghost function UpTo(ks: set<int>, n: int): set<int>
  {
    set k | k in ks && 1 <= k <= n
  }

  /** The keys of 'ks' in slice 'b', from 2^(b-1) + 1 to 2^b. */
  ghost function Slice(ks: set<int>, b: nat): set<int>
  {
    set k | k in ks && k >= 1 && IsCeilLog2(k, b)
  }

  ghost predicate CountsSlices(nums: seq<nat>, ks: set<int>)
  {
    |nums| == MAX_ABITS + 1 && forall b :: 0 <= b < |nums| ==> nums[b] == |Slice(ks, b)|
  }

  lemma UpToGrows(ks: set<int>, b: nat)
    ensures UpTo(ks, Pow2(b)) == (if b == 0 then {} else UpTo(ks, Pow2(b - 1))) + Slice(ks, b)
    ensures |UpTo(ks, Pow2(b))| == (if b == 0 then 0 else |UpTo(ks, Pow2(b - 1))|) + |Slice(ks, b)|
  {
    var low := if b == 0 then {} else UpTo(ks, Pow2(b - 1));
    assert UpTo(ks, Pow2(b)) == low + Slice(ks, b);
    assert low !! Slice(ks, b);
  }

  lemma UpToMono(ks: set<int>, a: int, b: int)
    requires a <= b
    ensures UpTo(ks, a) <= UpTo(ks, b)
    ensures |UpTo(ks, a)| <= |UpTo(ks, b)|
  {
    assert UpTo(ks, b) == UpTo(ks, a) + (UpTo(ks, b) - UpTo(ks, a));
  }

  /** Size 2^i pays for itself. */
  ghost predicate Eligible(ks: set<int>, i: nat)
  {
    ArrayXHash(Pow2(i), |UpTo(ks, Pow2(i))|)
  }

  /**
   The best array size: zero when no size pays for itself, and otherwise the smallest eligible
   power of two among those that hold the most keys.
   */
  ghost predicate BestSize(ks: set<int>, n: nat)
  {
    BestBelow(ks, n, MAX_ABITS + 1)
  }

  /** Size 'n' holds at least as many keys as size 2^j, and is no larger if it holds as many. */
  ghost predicate AtLeastAsGood(ks: set<int>, n: nat, j: nat)
  {
    || |UpTo(ks, Pow2(j))| < |UpTo(ks, n)|
    || (|UpTo(ks, Pow2(j))| == |UpTo(ks, n)| && n <= Pow2(j))
  }

  /** Best among the candidates below 2^i. */
  ghost predicate BestBelow(ks: set<int>, n: nat, i: nat)
  {
    && (n == 0 || exists j :: 0 <= j < i && n == Pow2(j) && Eligible(ks, j))
    && (forall j :: 0 <= j < i && Eligible(ks, j) ==> AtLeastAsGood(ks, n, j))
  }

  lemma BestStep(ks: set<int>, n: nat, i: nat)
    requires BestBelow(ks, n, i)
    ensures Slice(ks, i) != {} && Eligible(ks, i) ==> BestBelow(ks, Pow2(i), i + 1)
    ensures !(Slice(ks, i) != {} && Eligible(ks, i)) ==> BestBelow(ks, n, i + 1)
  {
    UpToGrows(ks, i);
    if Eligible(ks, i) {
      if Slice(ks, i) != {} {
        hide Eligible;
        forall j | 0 <= j < i + 1 && Eligible(ks, j) ensures AtLeastAsGood(ks, Pow2(i), j) {
          if j < i { SmallerIsWorse(ks, j, i); }
        }
      } else {
        // an eligible size that adds no key is no better than the one below it, also eligible
        assert i > 0 && Eligible(ks, i - 1);
        hide Eligible;
        assert AtLeastAsGood(ks, n, i - 1);
        assert Pow2(i - 1) <= Pow2(i);
      }
    }
  }

  lemma SmallerIsWorse(ks: set<int>, j: nat, i: nat)
    requires j < i && |UpTo(ks, Pow2(i - 1))| < |UpTo(ks, Pow2(i))|
    ensures AtLeastAsGood(ks, Pow2(i), j)
  {
    Pow2Mono(j, i - 1);
    UpToMono(ks, Pow2(j), Pow2(i - 1));
  }

  /**
   computesizes: 'na' enters as the number of array indices; the result is the best array size and
   the number of keys that go there.
   */
  method ComputeSizes(nums: seq<nat>, total: nat, ghost ks: set<int>) returns (optimal: nat, na: nat)
    requires CountsSlices(nums, ks)
    requires total == |UpTo(ks, Pow2(MAX_ABITS))|
    ensures BestSize(ks, optimal) && na == |UpTo(ks, optimal)|
  {
    var i := 0;
    var twotoi := 1;
    var a := 0;
    na, optimal := 0, 0;
    assert UpTo(ks, 0) == {};
    while i <= MAX_ABITS && ArrayXHash(twotoi, total)
      invariant 0 <= i <= MAX_ABITS + 1 && twotoi == Pow2(i)
      invariant a == if i == 0 then 0 else |UpTo(ks, Pow2(i - 1))|
      invariant BestBelow(ks, optimal, i) && na == |UpTo(ks, optimal)|
      decreases MAX_ABITS + 1 - i
    {
      BestStep(ks, optimal, i);
      UpToGrows(ks, i);
      a := a + nums[i];
      if nums[i] > 0 && ArrayXHash(twotoi, a) {
        optimal, na := twotoi, a;
      }
      i, twotoi := i + 1, twotoi * 2;
    }
    forall j | i <= j <= MAX_ABITS ensures !Eligible(ks, j) {
      Pow2Mono(i, j);
      Pow2Mono(j, MAX_ABITS);
      UpToMono(ks, Pow2(j), Pow2(MAX_ABITS));
    }
  }
}
