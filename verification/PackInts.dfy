/**
 Integers as bytes (lstrlib.c, "packint", "unpackint"): from 1 to 16 bytes, in both orders.
 */
module PackInts {
  type Byte = b: int | 0 <= b < 256

  const SZINT: nat := 8
  const MAXINTSIZE: nat := 16

  const TWO63: int := 0x8000_0000_0000_0000
  const TWO64: int := 0x1_0000_0000_0000_0000

  /** A lua_Integer. */
  type Integer = n: int | -TWO63 <= n < TWO63

  /** The cast to lua_Unsigned, and back. */
  function ToUnsigned(n: int): (u: nat)
    requires -TWO63 <= n < TWO63
    ensures u < TWO64
  {
    if n < 0 then n + TWO64 else n
  }

  function ToSigned(u: nat): Integer
    requires u < TWO64
  {
    if u >= TWO63 then u - TWO64 else u
  }

  function Pow256(n: nat): (p: nat)
    ensures p > 0
  {
    if n == 0 then 1 else 256 * Pow256(n - 1)
  }

  lemma PowSizes()
    ensures Pow256(8) == TWO64 && Pow256(1) == 256
  {
    assert Pow256(4) == 0x1_0000_0000;
    assert Pow256(8) == 256 * 256 * 256 * 256 * Pow256(4);
  }

  // ---- Digits in base 256 -----------------------------------------------------------------------------

  /** The lower digits of a number, the least one first. */
  function Digits(u: nat, size: nat): (d: seq<Byte>)
    ensures |d| == size
  {
    if size == 0 then [] else [u % 256] + Digits(u / 256, size - 1)
  }

  function FromDigits(d: seq<Byte>): nat
  {
    if d == [] then 0 else d[0] + 256 * FromDigits(d[1..])
  }

  lemma {:induction false} DigitsBack(u: nat, size: nat)
    requires u < Pow256(size)
    ensures FromDigits(Digits(u, size)) == u
    decreases size
  {
    if size > 0 { DigitsBack(u / 256, size - 1); }
  }

  lemma {:induction false} FromBound(d: seq<Byte>)
    ensures FromDigits(d) < Pow256(|d|)
    decreases |d|
  {
    if d != [] { FromBound(d[1..]); }
  }

  /** More digits of a small number are zeros. */
  lemma {:induction false} DigitsMore(u: nat, size: nat, more: nat)
    requires u < Pow256(size) && size <= more
    ensures Digits(u, more)[..size] == Digits(u, size) && forall i :: size <= i < more ==> Digits(u, more)[i] == 0
    decreases more
  {
    if size == 0 {
      if more > 0 { DigitsMore(u, 0, more - 1); }
    } else {
      DigitsMore(u / 256, size - 1, more - 1);
    }
  }

  /** Each digit is what is left after the ones before. */
  lemma {:induction false} DigitAt(u: nat, size: nat, i: nat)
    requires i < size
    ensures Digits(u, size)[i] == Shifted(u, i) % 256
    decreases size
  {
    if i > 0 {
      DigitAt(u / 256, size - 1, i - 1);
      ShiftFirst(u, i);
    }
  }

  /** u >> (8 * i) */
  function Shifted(u: nat, i: nat): nat
  {
    if i == 0 then u else Shifted(u, i - 1) / 256
  }

  lemma {:induction false} ShiftFirst(u: nat, i: nat)
    requires i > 0
    ensures Shifted(u, i) == Shifted(u / 256, i - 1)
    decreases i
  {
    if i > 1 { ShiftFirst(u, i - 1); }
  }

  // ---- packint ---------------------------------------------------------------------------------------

  /** The bytes of an integer, the least one first: beyond the size of a Lua integer they only extend the sign. */
  function IntDigits(u: nat, size: nat, neg: bool): (d: seq<Byte>)
    ensures |d| == size
  {
    if neg && size > SZINT then Digits(u, SZINT) + seq(size - SZINT, _ => 255) else Digits(u, size)
  }

  function Reversed(d: seq<Byte>): (r: seq<Byte>)
    ensures |r| == |d| && forall i :: 0 <= i < |d| ==> r[i] == d[|d| - 1 - i]
  {
    seq(|d|, i requires 0 <= i < |d| => d[|d| - 1 - i])
  }

  lemma ReversedTwice(d: seq<Byte>)
    ensures Reversed(Reversed(d)) == d
  {
  }

  function InOrder(d: seq<Byte>, islittle: bool): (r: seq<Byte>)
    ensures |r| == |d|
  {
    if islittle then d else Reversed(d)
  }

  lemma OrderTwice(d: seq<Byte>, islittle: bool)
    ensures InOrder(InOrder(d, islittle), islittle) == d
  {
    ReversedTwice(d);
  }

  /** The position of digit 'i'. */
  function Pos(i: nat, size: nat, islittle: bool): (p: nat)
    requires i < size
    ensures p < size
  {
    if islittle then i else size - 1 - i
  }

  lemma ShiftNext(u: nat, i: nat)
    ensures Shifted(u, 0) == u && Shifted(u, i + 1) == Shifted(u, i) / 256
  {
  }

  /** packint */
  method PackInt(n0: nat, islittle: bool, size: nat, neg: bool) returns (r: seq<Byte>)
    requires size > 0 && n0 < TWO64
    ensures r == InOrder(IntDigits(n0, size, neg), islittle)
  {
    hide Shifted, Digits, IntDigits, InOrder, Reversed;
    var buff := new Byte[size];
    var n := n0;
    ShiftNext(n0, 0);
    buff[if islittle then 0 else size - 1] := n % 256;
    var i := 1;
    while i < size
      invariant 1 <= i <= size && n == Shifted(n0, i - 1)
      invariant forall j :: 0 <= j < i ==> buff[Pos(j, size, islittle)] == Shifted(n0, j) % 256
    {
      ShiftNext(n0, i - 1);
      n := n / 256;
      buff[if islittle then i else size - 1 - i] := n % 256;
      i := i + 1;
    }
    if neg && size > SZINT {
      ExtendSign(buff, islittle, size);
    }
    r := buff[..];
    PackedDigits(n0, size, neg, islittle, r);
  }

  /** The loop that corrects the extra bytes of a negative number. */
  method ExtendSign(buff: array<Byte>, islittle: bool, size: nat)
    requires size == buff.Length > SZINT
    modifies buff
    ensures forall j :: 0 <= j < SZINT ==> buff[Pos(j, size, islittle)] == old(buff[Pos(j, size, islittle)])
    ensures forall j :: SZINT <= j < size ==> buff[Pos(j, size, islittle)] == 255
  {
    var i := SZINT;
    while i < size
      invariant SZINT <= i <= size
      invariant forall j :: 0 <= j < SZINT ==> buff[Pos(j, size, islittle)] == old(buff[Pos(j, size, islittle)])
      invariant forall j :: SZINT <= j < i ==> buff[Pos(j, size, islittle)] == 255
    {
      buff[if islittle then i else size - 1 - i] := 255;
      i := i + 1;
    }
  }

  lemma PackedDigits(n0: nat, size: nat, neg: bool, islittle: bool, r: seq<Byte>)
    requires |r| == size > 0
    requires forall j :: 0 <= j < size ==>
        r[Pos(j, size, islittle)] == if neg && size > SZINT && j >= SZINT then 255 else Shifted(n0, j) % 256
    ensures r == InOrder(IntDigits(n0, size, neg), islittle)
  {
    hide Shifted, Digits, InOrder, Pos;
    forall j | 0 <= j < size ensures r[Pos(j, size, islittle)] == IntDigits(n0, size, neg)[j] {
      if neg && size > SZINT { if j < SZINT { DigitAt(n0, SZINT, j); } } else { DigitAt(n0, size, j); }
    }
    SameOrder(r, IntDigits(n0, size, neg), islittle);
  }

  lemma SameOrder(r: seq<Byte>, d: seq<Byte>, islittle: bool)
    requires |r| == |d| && forall j :: 0 <= j < |d| ==> r[Pos(j, |d|, islittle)] == d[j]
    ensures r == InOrder(d, islittle)
  {
    forall k | 0 <= k < |r| ensures r[k] == InOrder(d, islittle)[k] {
      var j := if islittle then k else |d| - 1 - k;
      assert Pos(j, |d|, islittle) == k;
    }
  }

  // ---- unpackint -------------------------------------------------------------------------------------

  datatype Unpacked = Fits(n: Integer) | TooBig

  /** x ^ mask, for a mask with one bit. */
  function XorBit(x: nat, mask: nat): nat
    requires mask > 0
  {
    if (x / mask) % 2 == 1 then x - mask else x + mask
  }

  function SignExtended(res: nat, mask: nat): (u: nat)
    requires mask > 0
    ensures u < TWO64
  {
    (XorBit(res, mask) - mask) % TWO64
  }

  /** What unpackint makes of the digits. */
  function IntOf(d: seq<Byte>, issigned: bool): Unpacked
    requires 0 < |d|
  {
    if |d| < SZINT then
      FromBound(d);
      SmallPow(|d|);
      var res := FromDigits(d);
      Fits(ToSigned(if issigned then SignExtended(res, Pow256(|d|) / 2) else res))
    else
      FromBound(d[..SZINT]);
      PowSizes();
      var res := ToSigned(FromDigits(d[..SZINT]));
      if forall i :: SZINT <= i < |d| ==> d[i] == (if !issigned || res >= 0 then 0 else 255) then Fits(res) else TooBig
  }

  lemma {:induction false} SmallPow(n: nat)
    requires 0 < n < SZINT
    ensures Pow256(n) < TWO64 && Pow256(n) >= 256 && Pow256(n) % 2 == 0
    decreases SZINT - n
  {
    PowSizes();
    if n == SZINT - 1 {
      assert Pow256(SZINT) == 256 * Pow256(n);
    } else {
      SmallPow(n + 1);
      assert Pow256(n + 1) == 256 * Pow256(n);
    }
    assert Pow256(n) == 256 * Pow256(n - 1);
  }

  lemma OrderAt(str: seq<Byte>, islittle: bool, i: nat)
    requires i < |str|
    ensures InOrder(str, islittle)[i] == str[if islittle then i else |str| - 1 - i]
  {
  }

  /** The first loop of unpackint: the lower digits. */
  method ReadDigits(str: seq<Byte>, islittle: bool, limit: nat) returns (res: nat)
    requires limit <= |str|
    ensures res == FromDigits(InOrder(str, islittle)[..limit])
  {
    hide FromDigits, InOrder, Reversed;
    ghost var d := InOrder(str, islittle)[..limit];
    res := 0;
    var i := limit - 1;
    NoDigits(d[limit..]);
    while i >= 0
      invariant -1 <= i < limit && res == FromDigits(d[i + 1..])
    {
      FromNext(d, i);
      OrderAt(str, islittle, i);
      res := res * 256 + str[if islittle then i else |str| - 1 - i];
      i := i - 1;
    }
    assert d[0..] == d;
  }

  /** The last loop of unpackint: whether all digits that were not read are 'mask'. */
  method CheckRest(str: seq<Byte>, islittle: bool, limit: nat, mask: Byte) returns (ok: bool)
    requires limit <= |str|
    ensures ok <==> forall i :: limit <= i < |str| ==> InOrder(str, islittle)[i] == mask
  {
    ghost var d := InOrder(str, islittle);
    var i := limit;
    while i < |str|
      invariant limit <= i <= |str| && forall j :: limit <= j < i ==> d[j] == mask
    {
      assert str[if islittle then i else |str| - 1 - i] == d[i];
      if str[if islittle then i else |str| - 1 - i] != mask {
        return false;
      }
      i := i + 1;
    }
    return true;
  }

  /** unpackint */
  method UnpackInt(str: seq<Byte>, islittle: bool, size: nat, issigned: bool) returns (r: Unpacked)
    requires |str| == size > 0
    ensures r == IntOf(InOrder(str, islittle), issigned)
  {
    hide FromDigits, Pow256, InOrder, SignExtended, ToSigned;
    ghost var d := InOrder(str, islittle);
    var limit := if size <= SZINT then size else SZINT;
    var res := ReadDigits(str, islittle, limit);
    FromBound(d[..limit]);
    PowSizes();
    if size < SZINT {
      assert d[..limit] == d;
      SmallPow(size);
      if issigned {
        var mask := Mask(size);
        SignIs(res, mask);
        res := (XorBit(res, mask) - mask) % TWO64;
      }
    } else if size > SZINT {
      var ok := CheckRest(str, islittle, limit, if !issigned || ToSigned(res) >= 0 then 0 else 255);
      if !ok { return TooBig; }
    }
    return Fits(ToSigned(res));
  }

  lemma SignIs(res: nat, mask: nat)
    requires mask > 0
    ensures SignExtended(res, mask) == (XorBit(res, mask) - mask) % TWO64
  {
  }

  lemma NoDigits(d: seq<Byte>)
    requires d == []
    ensures FromDigits(d) == 0
  {
  }

  lemma FromNext(d: seq<Byte>, i: nat)
    requires i < |d|
    ensures FromDigits(d[i..]) == d[i] + 256 * FromDigits(d[i + 1..])
  {
    assert d[i..][1..] == d[i + 1..];
  }

  /** 1 << (size * 8 - 1) */
  function Mask(size: nat): (m: nat)
    requires 0 < size < SZINT
    ensures m == Pow256(size) / 2 && m > 0
  {
    SmallPow(size);
    Pow256(size) / 2
  }

  // ---- Round trips --------------------------------------------------------------------------------------

  /** Integers that str_pack accepts for a size. */
  predicate InRange(n: Integer, size: nat, issigned: bool)
    requires 0 < size <= MAXINTSIZE
  {
    size >= SZINT || (if issigned then -(Pow256(size) / 2) <= n < Pow256(size) / 2 else ToUnsigned(n) < Pow256(size))
  }

  /** Multiples of 256^size do not change the lower digits. */
  lemma {:induction false} DigitsAdd(u: nat, k: nat, size: nat)
    ensures Digits(u + k * Pow256(size), size) == Digits(u, size)
    decreases size
  {
    if size > 0 {
      var q := Pow256(size - 1);
      assert k * Pow256(size) == 256 * (k * q);
      assert (u + 256 * (k * q)) / 256 == u / 256 + k * q;
      assert (u + 256 * (k * q)) % 256 == u % 256;
      DigitsAdd(u / 256, k, size - 1);
    }
  }

  lemma {:induction false} PowAdd(a: nat, b: nat)
    ensures Pow256(a + b) == Pow256(a) * Pow256(b)
    decreases a
  {
    if a > 0 { PowAdd(a - 1, b); }
  }

  /** A negative number has the digits of its complement. */
  lemma NegativeDigits(n: Integer, size: nat)
    requires 0 < size < SZINT && 0 - Pow256(size) <= n < 0
    ensures Digits(ToUnsigned(n), size) == Digits(n + Pow256(size), size)
  {
    var p, k := Pow256(size), Pow256(SZINT - size);
    PowAdd(size, SZINT - size);
    PowSizes();
    assert n + TWO64 == (n + p) + (k - 1) * p;
    DigitsAdd(n + p, k - 1, size);
  }

  lemma SignExtends(n: Integer, m: nat)
    requires 0 < m <= TWO63 / 2 && 0 - m <= n < m
    ensures ToSigned(SignExtended(if n < 0 then n + 2 * m else n, m)) == n
  {
    var res := if n < 0 then n + 2 * m else n;
    if n < 0 {
      assert res / m == 1 by { assert m <= res < 2 * m; }
      assert (n % TWO64) == n + TWO64;
    } else {
      assert res / m == 0;
    }
  }

  lemma ShortRoundTrip(n: Integer, size: nat, issigned: bool)
    requires 0 < size < SZINT && InRange(n, size, issigned)
    ensures IntOf(Digits(ToUnsigned(n), size), issigned) == Fits(n)
  {
    var p := Pow256(size);
    SmallPow(size);
    HalfSmall(size);
    var low := if n < 0 then n + p else n;
    if n < 0 { NegativeDigits(n, size); }
    DigitsBack(low, size);
    hide Digits, FromDigits;
    if issigned { SignExtends(n, p / 2); }
  }

  lemma HalfSmall(size: nat)
    requires 0 < size < SZINT
    ensures Pow256(size) / 2 <= TWO63 / 2 && 2 * (Pow256(size) / 2) == Pow256(size)
  {
    SmallPow(size);
    PowSizes();
    PowAdd(size, SZINT - size);
    assert Pow256(SZINT - size) >= 256 by { SmallPow(SZINT - size); }
    assert Pow256(size) * 256 <= Pow256(size) * Pow256(SZINT - size);
  }

  lemma LongRoundTrip(n: Integer, size: nat, issigned: bool)
    requires SZINT <= size
    ensures IntOf(IntDigits(ToUnsigned(n), size, issigned && n < 0), issigned) == Fits(n)
  {
    var u := ToUnsigned(n);
    var d := IntDigits(u, size, issigned && n < 0);
    PowSizes();
    DigitsBack(u, SZINT);
    DigitsMore(u, SZINT, size);
    hide Digits, FromDigits, Pow256;
    assert d[..SZINT] == Digits(u, SZINT);
  }

  /** What str_pack writes for an integer is read back as the same integer, in any size and order. */
  lemma IntRoundTrip(n: Integer, size: nat, issigned: bool, islittle: bool)
    requires 0 < size <= MAXINTSIZE && InRange(n, size, issigned)
    ensures IntOf(InOrder(InOrder(IntDigits(ToUnsigned(n), size, issigned && n < 0), islittle), islittle),
                  issigned) == Fits(n)
  {
    hide IntOf, Digits, FromDigits, InRange;
    OrderTwice(IntDigits(ToUnsigned(n), size, issigned && n < 0), islittle);
    if size < SZINT { ShortRoundTrip(n, size, issigned); } else { LongRoundTrip(n, size, issigned); }
  }
}
