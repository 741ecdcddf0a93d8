/**
 Where string.pack puts things (lstrlib.c, "packint", "getdetails"): the order of the bytes of an integer
 after each of the options that set it, and the alignment of items.
 */
module PackLayout {
  import opened PackInts
  import opened Pack

  // ---- Bytes by arithmetic -----------------------------------------------------------------------------

  lemma DivIs(n: int, d: int, q: int, r: int)
    requires n == d * q + r && 0 <= r < d
    ensures n / d == q && n % d == r
  {
    var q', r' := n / d, n % d;
    assert n == d * q' + r' && 0 <= r' < d;
    assert d * (q - q') == r' - r && d * (q' - q) == r - r';
    if q > q' { MulAtLeast(d, q - q'); }
    if q < q' { MulAtLeast(d, q' - q); }
  }

  lemma MulAtLeast(d: int, k: int)
    requires d > 0 && k >= 1
    ensures d * k >= d
  {
  }

  lemma DivTwice(n: int, a: int, b: int)
    requires a > 0 && b > 0
    ensures a * b > 0 && n / a / b == n / (a * b)
  {
    var q, r := n / a, n % a;
    var q2, r2 := q / b, q % b;
    assert n == a * q + r && q == b * q2 + r2;
    Products(n, a, b, q, r, q2, r2);
    DivIs(n, a * b, q2, a * r2 + r);
  }

  lemma Products(n: int, a: int, b: int, q: int, r: int, q2: int, r2: int)
    requires a > 0 && b > 0 && n == a * q + r && q == b * q2 + r2 && 0 <= r < a && 0 <= r2 < b
    ensures a * b > 0 && n == (a * b) * q2 + (a * r2 + r) && 0 <= a * r2 + r < a * b
  {
    assert a * q == a * (b * q2) + a * r2;
    assert a * (b * q2) == (a * b) * q2;
    Less(a, r2, b);
  }

  lemma Less(a: int, x: int, y: int)
    requires a > 0 && 0 <= x < y
    ensures 0 <= a * x && a * x + a <= a * y
  {
    assert a * x + a == a * (x + 1);
    Monotone(a, x + 1, y);
    Monotone(a, 0, x);
  }

  lemma Monotone(a: int, x: int, y: int)
    requires a > 0 && x <= y
    ensures a * x <= a * y
  {
  }

  /** Shifting by bytes is dividing. */
  lemma {:induction false} ShiftedIs(u: nat, i: nat)
    ensures Shifted(u, i) == u / Pow256(i)
    decreases i
  {
    if i > 0 {
      ShiftedIs(u, i - 1);
      DivTwice(u, Pow256(i - 1), 256);
    }
  }

  lemma {:induction false} PowSum(a: nat, b: nat)
    ensures Pow256(a + b) == Pow256(a) * Pow256(b)
    decreases a
  {
    if a > 0 { PowSum(a - 1, b); }
  }

  /** The byte 'i' of an integer, from the least significant one on, in two's complement of any length. */
  function ByteOf(n: int, i: nat): Byte
  {
    n / Pow256(i) % 256
  }

  lemma ModAdd(n: int, k: int)
    ensures (n + 256 * k) % 256 == n % 256
  {
  }

  lemma {:induction false} PowMono(a: nat, b: nat)
    requires a <= b
    ensures Pow256(a) <= Pow256(b)
    decreases b
  {
    if a < b { PowMono(a, b - 1); }
  }

  lemma AddMultiple(n: int, d: int, k: int)
    requires d > 0
    ensures (n + d * k) / d == n / d + k
  {
    var q, r := n / d, n % d;
    assert n == d * q + r && d * (q + k) == d * q + d * k;
    DivIs(n + d * k, d, q + k, r);
  }

  lemma LowPower(i: nat)
    requires i < SZINT
    ensures TWO64 == Pow256(i) * (256 * Pow256(SZINT - i - 1))
  {
    PowSizes();
    PowSum(i, SZINT - i);
  }

  lemma NegativeLow(n: int, i: nat)
    requires i < SZINT
    ensures (n + TWO64) / Pow256(i) % 256 == ByteOf(n, i)
  {
    var p, k := Pow256(i), Pow256(SZINT - i - 1);
    LowPower(i);
    hide Pow256;
    AddMultiple(n, p, 256 * k);
    ModAdd(n / p, k);
  }

  lemma NegativeHigh(n: Integer, i: nat)
    requires n < 0 && i >= SZINT
    ensures ByteOf(n, i) == 255
  {
    PowSizes();
    PowMono(SZINT, i);
    hide Pow256;
    DivIs(n, Pow256(i), -1, n + Pow256(i));
  }

  /** The bytes that packint writes are those of the integer. */
  lemma IntBytes(n: Integer, size: nat, i: nat)
    requires i < size
    ensures IntDigits(ToUnsigned(n), size, n < 0)[i] == ByteOf(n, i)
    ensures n >= 0 ==> IntDigits(ToUnsigned(n), size, false)[i] == ByteOf(n, i)
  {
    var u := ToUnsigned(n);
    ShiftedIs(u, i);
    DigitAt(u, size, i);
    if n < 0 {
      if i < SZINT {
        NegativeLow(n, i);
        if size > SZINT { DigitAt(u, SZINT, i); }
      } else {
        NegativeHigh(n, i);
      }
    }
  }

  // ---- Order and alignment -----------------------------------------------------------------------------

  /** After '<' the least significant byte comes first, and after '>' the most significant one. */
  lemma OrderOfBytes(h: Header, fmt: string, p: nat, k: KOption, size: nat, n: Integer, i: nat)
    requires p < |fmt| && (fmt[p] == '<' || fmt[p] == '>') && k in {Kint, Kuint} && 1 <= size <= MAXINTSIZE && i < size
    requires n >= 0 || k == Kint
    ensures var o := GetOption(h, fmt, p);
            && o.Option? && o.k == Knop && o.p == p + 1
            && var b := PackItem(k, size, o.h, Int(n));
               b.Ok? ==> |b.v| == size && b.v[if fmt[p] == '<' then i else size - 1 - i] == ByteOf(n, i)
  {
    IntBytes(n, size, i);
    hide IntDigits, ToUnsigned, ByteOf;
  }

  /** After '=' it is the order of the machine. */
  lemma NativeOrder(h: Header, fmt: string, p: nat)
    requires p < |fmt| && fmt[p] == '='
    ensures var o := GetOption(h, fmt, p); o.Option? && o.h == h.(islittle := h.native)
  {
  }

  lemma ToAlignIs(total: nat, a: nat)
    requires a > 0
    ensures (total + ToAlign(total, a)) % a == 0 && ToAlign(total, a) < a
  {
    var q, r := total / a, total % a;
    assert total == a * q + r;
    if r == 0 {
      DivIs(a - r, a, 1, 0);
      DivIs(total, a, q, 0);
    } else {
      DivIs(a - r, a, 0, a - r);
      assert total + (a - r) == a * (q + 1);
      DivIs(total + (a - r), a, q + 1, 0);
    }
  }

  function Least(a: nat, b: nat): nat
  {
    if a < b then a else b
  }

  /**
   An item whose alignment is more than one starts at the next multiple of it, or of the maximum alignment if that is
   less; strings of fixed size are not aligned.
   */
  lemma ItemStart(h: Header, total: nat, fmt: string, p: nat)
    requires p < |fmt| && GetOption(h, fmt, p).Option? && GetOption(h, fmt, p).k != Kpaddalign
    ensures var o, d := GetOption(h, fmt, p), GetDetails(h, total, fmt, p);
            var a := Least(o.size, o.h.maxalign);
            && (o.k == Kchar || o.size <= 1 ==> d.Details? && d.toalign == 0)
            && (o.k != Kchar && o.size > 1 ==> (d.Details? <==> IsPow2(a)))
            && (o.k != Kchar && o.size > 1 && d.Details? ==> (total + d.toalign) % a == 0 && d.toalign < a)
  {
    var o := GetOption(h, fmt, p);
    var a := Least(o.size, o.h.maxalign);
    if IsPow2(a) { ToAlignIs(total, a); }
    hide GetOption, ToAlign;
  }

  /** An 'X' aligns as the option after it would, and takes no room itself. */
  lemma AlignOnly(h: Header, total: nat, fmt: string, p: nat)
    requires p < |fmt| && fmt[p] == 'X' && GetDetails(h, total, fmt, p).Details?
    ensures p + 1 < |fmt| && GetOption(h, fmt, p + 1).Option?
    ensures var next, d := GetOption(h, fmt, p + 1), GetDetails(h, total, fmt, p);
            var a := Least(next.size, next.h.maxalign);
            d.k == Kpaddalign && d.size == 0 && (next.size > 1 ==> (total + d.toalign) % a == 0 && d.toalign < a)
  {
    var next := GetOption(h, fmt, p + 1);
    var a := Least(next.size, next.h.maxalign);
    if IsPow2(a) { ToAlignIs(total, a); }
    hide ToAlign;
  }

  /** What is packed begins with the padding, zeros, and then come the bytes of the first item. */
  lemma FirstBytes(h: Header, fmt: string, p: nat, total: nat, args: seq<Item>)
    requires At(fmt, p) != '\0' && PackFrom(h, fmt, p, total, args).Ok?
    ensures p < |fmt| && GetDetails(h, total, fmt, p).Details?
    ensures var v, d := PackFrom(h, fmt, p, total, args).v, GetDetails(h, total, fmt, p);
            && d.toalign <= |v| && (forall i :: 0 <= i < d.toalign ==> v[i] == 0)
            && (!NoItem(d.k) ==>
                  && args != [] && PackItem(d.k, d.size, d.h, args[0]).Ok?
                  && var b := PackItem(d.k, d.size, d.h, args[0]).v;
                     d.toalign + |b| <= |v| && v[d.toalign..d.toalign + |b|] == b)
  {
    hide GetDetails, PackItem;
  }

  // ---- What is accepted --------------------------------------------------------------------------------

  lemma {:induction false} FromBack(d: seq<Byte>)
    ensures Digits(FromDigits(d), |d|) == d
  {
    if d != [] {
      FromBack(d[1..]);
      assert d == [d[0]] + d[1..];
    }
  }

  lemma ExtendedIs(res: nat, m: nat)
    requires 0 < m <= TWO63 / 2 && res < 2 * m
    ensures ToSigned(SignExtended(res, m)) == if res < m then res else res - 2 * m
  {
    if res < m { assert res / m == 0; } else { assert res / m == 1; }
  }

  lemma ShortBack(d: seq<Byte>, issigned: bool, n: Integer)
    requires 0 < |d| < SZINT && IntOf(d, issigned) == Fits(n)
    ensures InRange(n, |d|, issigned) && IntDigits(ToUnsigned(n), |d|, issigned && n < 0) == d
  {
    var p, res := Pow256(|d|), FromDigits(d);
    SmallPow(|d|);
    HalfSmall(|d|);
    FromBound(d);
    FromBack(d);
    if issigned {
      ExtendedIs(res, p / 2);
      if n < 0 { NegativeDigits(n, |d|); }
    }
    hide Digits, FromDigits, Pow256, SignExtended;
  }

  lemma LongBack(d: seq<Byte>, issigned: bool, n: Integer)
    requires SZINT <= |d| && IntOf(d, issigned) == Fits(n)
    ensures IntDigits(ToUnsigned(n), |d|, issigned && n < 0) == d
  {
    var u := ToUnsigned(n);
    PowSizes();
    FromBound(d[..SZINT]);
    FromBack(d[..SZINT]);
    DigitsMore(u, SZINT, |d|);
    hide Digits, FromDigits, Pow256;
    assert u == FromDigits(d[..SZINT]);
    assert d == d[..SZINT] + d[SZINT..];
    var r := IntDigits(u, |d|, issigned && n < 0);
    forall i | 0 <= i < |d| ensures r[i] == d[i] {
      if i < SZINT { assert r[i] == r[..SZINT][i] && d[i] == d[..SZINT][i]; }
    }
  }

  /** Bytes are read as an integer exactly if that is the one, in the range of the size, that is packed into them. */
  lemma ReadIff(d: seq<Byte>, issigned: bool, n: Integer)
    requires 0 < |d| <= MAXINTSIZE
    ensures IntOf(d, issigned) == Fits(n) <==>
              InRange(n, |d|, issigned) && IntDigits(ToUnsigned(n), |d|, issigned && n < 0) == d
  {
    hide IntOf, InRange, Digits, IntDigits, ToUnsigned;
    if IntOf(d, issigned) == Fits(n) {
      LongInRange(n, |d|, issigned);
      if |d| < SZINT { ShortBack(d, issigned, n); } else { LongBack(d, issigned, n); }
    }
    if InRange(n, |d|, issigned) && IntDigits(ToUnsigned(n), |d|, issigned && n < 0) == d {
      OrderTwice(d, true);
      IntRoundTrip(n, |d|, issigned, true);
    }
  }

  lemma LongInRange(n: Integer, size: nat, issigned: bool)
    requires 0 < size <= MAXINTSIZE
    ensures size >= SZINT ==> InRange(n, size, issigned)
  {
  }

  /** An integer is accepted exactly when it can be read back from the bytes of this size. */
  lemma AcceptedIff(k: KOption, size: nat, h: Header, n: Integer)
    requires (k == Kint || k == Kuint) && 0 < size <= MAXINTSIZE
    ensures var signed := k == Kint;
            PackItem(k, size, h, Int(n)).Ok? <==>
              IntOf(IntDigits(ToUnsigned(n), size, signed && n < 0), signed) == Fits(n)
  {
    ReadIff(IntDigits(ToUnsigned(n), size, k == Kint && n < 0), k == Kint, n);
    hide IntOf, IntDigits, InRange;
  }

  /** The number with these digits in decimal, after those of 'a'. */
  function Decimal(a: nat, ds: seq<nat>): nat
    decreases ds
  {
    if ds == [] then a else Decimal(10 * a + ds[0], ds[1..])
  }

  /** The digits at 'p', all that there are. */
  predicate DigitsAt(fmt: string, p: nat, ds: seq<nat>)
  {
    && p + |ds| <= |fmt| && !Digit(At(fmt, p + |ds|))
    && forall i :: 0 <= i < |ds| ==> ds[i] < 10 && fmt[p + i] as int == '0' as int + ds[i]
  }

  lemma {:induction false} NumeralFrom(fmt: string, p: nat, a: nat, ds: seq<nat>)
    requires ds != [] && DigitsAt(fmt, p, ds) && |ds| <= 18 && Small(a, |ds|)
    ensures Digit(At(fmt, p)) && NumFrom(fmt, p, a) == (Decimal(a, ds), p + |ds|)
    decreases |ds|
  {
    var next := 10 * a + ds[0];
    SmallNext(a, ds[0], |ds|);
    if |ds| > 1 {
      var rest := ds[1..];
      forall i | 0 <= i < |rest| ensures rest[i] < 10 && fmt[p + 1 + i] as int == '0' as int + rest[i] {
        assert rest[i] == ds[i + 1] && fmt[p + 1 + i] == fmt[p + (i + 1)];
      }
      NumeralFrom(fmt, p + 1, next, rest);
    } else {
      assert Decimal(next, ds[1..]) == next;
    }
  }

  /** With so many digits more the number is still small. */
  predicate Small(a: nat, more: nat)
    decreases more
  {
    if more == 0 then a < 1_000_000_000_000_000_000 else Small(10 * a + 9, more - 1)
  }

  lemma {:induction false} SmallLess(a: nat, b: nat, more: nat)
    requires Small(b, more) && a <= b
    ensures Small(a, more) && a < 1_000_000_000_000_000_000 && (more > 0 ==> a <= (MAX_SIZE - 9) / 10)
    decreases more
  {
    if more > 0 { SmallLess(10 * a + 9, 10 * b + 9, more - 1); }
  }

  lemma SmallNext(a: nat, d: nat, more: nat)
    requires more > 0 && Small(a, more) && d < 10
    ensures Small(10 * a + d, more - 1) && (more > 1 ==> 10 * a + d <= (MAX_SIZE - 9) / 10)
  {
    SmallLess(10 * a + d, 10 * a + 9, more - 1);
  }

  function Nines(k: nat): nat
  {
    if k == 0 then 0 else 10 * Nines(k - 1) + 9
  }

  lemma MoreNines(k: nat)
    ensures Nines(k + 6) == 1_000_000 * Nines(k) + 999_999
  {
    assert Nines(k + 2) == 100 * Nines(k) + 99;
    assert Nines(k + 4) == 100 * Nines(k + 2) + 99;
  }

  lemma {:induction false} SmallNines(more: nat)
    requires more <= 18
    ensures Small(Nines(18 - more), more)
  {
    if more == 0 {
      MoreNines(0);
      MoreNines(6);
      MoreNines(12);
    } else {
      SmallNines(more - 1);
    }
  }

  const SIGNED := "bhlji"
  const UNSIGNED := "BHLJI"
  const SIZES: seq<nat> := [1, 2, 8, 8, 4]

  /** The sizes that integers have without a numeral: those of char, short, long, lua_Integer, and int. */
  lemma IntegerSizes(h: Header, fmt: string, p: nat, i: nat)
    requires p < |fmt| && i < |SIGNED| && !Digit(At(fmt, p + 1))
    ensures fmt[p] == SIGNED[i] ==> GetOption(h, fmt, p) == Option(Kint, SIZES[i], h, p + 1)
    ensures fmt[p] == UNSIGNED[i] ==> GetOption(h, fmt, p) == Option(Kuint, SIZES[i], h, p + 1)
  {
  }

  predicate TakesSize(c: char, k: KOption)
  {
    (c == 'i' && k == Kint) || (c == 'I' && k == Kuint) || (c == 's' && k == Kstring)
  }

  /** With a numeral an integer, or the length of a string, has that size, if it is from 1 to 16. */
  lemma SizeGiven(h: Header, fmt: string, p: nat, k: KOption, ds: seq<nat>)
    requires p < |fmt| && TakesSize(fmt[p], k) && DigitsAt(fmt, p + 1, ds) && 0 < |ds| <= 18
    ensures var n := Decimal(0, ds);
            GetOption(h, fmt, p) ==
              if 1 <= n <= MAXINTSIZE then Option(k, n, h, p + 1 + |ds|) else BadOption(SizeOutOfLimits)
  {
    SmallNines(|ds|);
    SmallLess(0, Nines(18 - |ds|), |ds|);
    NumeralFrom(fmt, p + 1, 0, ds);
    hide Decimal, Small, NumFrom, DigitsAt, Nines;
  }
}
