/**
 string.pack and string.unpack (lstrlib.c): what is packed with a format is unpacked with it.
 */
module Pack {
  import opened PackInts

  const MAX_SIZE: nat := 0x7fff_ffff_ffff_ffff

  datatype KOption = Kint | Kuint | Kfloat | Knumber | Kdouble | Kchar | Kstring | Kzstr | Kpadding | Kpaddalign | Knop

  /** The order of the bytes and the maximum alignment, which formats may change; and the order of the machine. */
  datatype Header = Header(islittle: bool, maxalign: nat, native: bool)

  datatype Error =
    | MissingSize | SizeOutOfLimits | InvalidOption | InvalidNext | AlignNotPower | TooLong | NoArgument
    | IntegerOverflow | UnsignedOverflow | StringTooLong | LengthTooBig | StringHasZeros
    | DataTooShort | Unfinished | IntegerTooBig | VariableLength

  // ---- Options --------------------------------------------------------------------------------------

  function At(fmt: string, p: nat): char
  {
    if p < |fmt| then fmt[p] else '\0'
  }

  predicate Digit(c: char)
  {
    '0' <= c <= '9'
  }

  /** The numeral that goes on at 'p' after 'a'. */
  function NumFrom(fmt: string, p: nat, a: nat): (r: (nat, nat))
    requires Digit(At(fmt, p))
    ensures p < r.1 <= |fmt|
    decreases |fmt| - p
  {
    var a' := a * 10 + (fmt[p] as int - '0' as int);
    if Digit(At(fmt, p + 1)) && a' <= (MAX_SIZE - 9) / 10 then NumFrom(fmt, p + 1, a') else (a', p + 1)
  }

  /** getnum: the numeral at 'p', or a default. */
  function Num(fmt: string, p: nat, df: nat): (r: (nat, nat))
    ensures p <= r.1 && (r.1 > p ==> r.1 <= |fmt|)
  {
    if Digit(At(fmt, p)) then NumFrom(fmt, p, 0) else (df, p)
  }

  method GetNum(fmt: string, p0: nat, df: nat) returns (a: nat, p: nat)
    ensures (a, p) == Num(fmt, p0, df)
  {
    a, p := df, p0;
    if Digit(At(fmt, p)) {
      a := 0;
      while true
        invariant Digit(At(fmt, p)) && NumFrom(fmt, p, a) == Num(fmt, p0, df)
        decreases |fmt| - p
      {
        a := a * 10 + (At(fmt, p) as int - '0' as int);
        p := p + 1;
        if !(Digit(At(fmt, p)) && a <= (MAX_SIZE - 9) / 10) { break; }
      }
    }
  }

  datatype Option = Option(k: KOption, size: nat, h: Header, p: nat) | BadOption(err: Error)

  /** An option whose size is a numeral from 1 to 16. */
  function Sized(k: KOption, fmt: string, p: nat, df: nat, h: Header): (o: Option)
    ensures o.Option? ==> o.p >= p && o.k == k && 1 <= o.size <= MAXINTSIZE && (o.p > p ==> o.p <= |fmt|)
  {
    var n := Num(fmt, p, df);
    if 1 <= n.0 <= MAXINTSIZE then Option(k, n.0, h, n.1) else BadOption(SizeOutOfLimits)
  }

  /** getoption, with the sizes of the usual 64-bit machines. */
  function GetOption(h: Header, fmt: string, p: nat): (o: Option)
    requires p < |fmt|
    ensures o.Option? ==> p < o.p <= |fmt| && o.h.native == h.native
    ensures o.Option? && (o.k.Kint? || o.k.Kuint? || o.k.Kstring?) ==> 1 <= o.size <= MAXINTSIZE
    ensures o.Option? && o.k.Kfloat? ==> o.size == 4
    ensures o.Option? && (o.k.Knumber? || o.k.Kdouble?) ==> o.size == 8
    ensures o.Option? && (o.k.Kzstr? || o.k.Kpaddalign? || o.k.Knop?) ==> o.size == 0
    ensures o.Option? && o.k.Kpadding? ==> o.size == 1
  {
    match fmt[p]
    case 'b' => Option(Kint, 1, h, p + 1)
    case 'B' => Option(Kuint, 1, h, p + 1)
    case 'h' => Option(Kint, 2, h, p + 1)
    case 'H' => Option(Kuint, 2, h, p + 1)
    case 'l' => Option(Kint, 8, h, p + 1)
    case 'L' => Option(Kuint, 8, h, p + 1)
    case 'j' => Option(Kint, 8, h, p + 1)
    case 'J' => Option(Kuint, 8, h, p + 1)
    case 'T' => Option(Kuint, 8, h, p + 1)
    case 'f' => Option(Kfloat, 4, h, p + 1)
    case 'n' => Option(Knumber, 8, h, p + 1)
    case 'd' => Option(Kdouble, 8, h, p + 1)
    case 'i' => Sized(Kint, fmt, p + 1, 4, h)
    case 'I' => Sized(Kuint, fmt, p + 1, 4, h)
    case 's' => Sized(Kstring, fmt, p + 1, 8, h)
    case 'c' =>
      if Digit(At(fmt, p + 1)) then Option(Kchar, Num(fmt, p + 1, 0).0, h, Num(fmt, p + 1, 0).1)
      else BadOption(MissingSize)
    case 'z' => Option(Kzstr, 0, h, p + 1)
    case 'x' => Option(Kpadding, 1, h, p + 1)
    case 'X' => Option(Kpaddalign, 0, h, p + 1)
    case ' ' => Option(Knop, 0, h, p + 1)
    case '<' => Option(Knop, 0, h.(islittle := true), p + 1)
    case '>' => Option(Knop, 0, h.(islittle := false), p + 1)
    case '=' => Option(Knop, 0, h.(islittle := h.native), p + 1)
    case '!' =>
      var n := Num(fmt, p + 1, 8);
      if 1 <= n.0 <= MAXINTSIZE then Option(Knop, 0, h.(maxalign := n.0), n.1) else BadOption(SizeOutOfLimits)
    case _ => BadOption(InvalidOption)
  }

  /** Powers of two, for alignments. */
  predicate IsPow2(n: nat)
  {
    n == 1 || n == 2 || n == 4 || n == 8 || n == 16
  }

  datatype Details = Details(k: KOption, size: nat, toalign: nat, h: Header, p: nat) | BadDetails(err: Error)

  /** How many bytes are missing for the alignment. */
  function ToAlign(total: nat, align: nat): nat
    requires align > 0
  {
    (align - total % align) % align
  }

  function Aligned(o: Option, total: nat, align: nat): (d: Details)
    requires o.Option?
    ensures d.Details? ==> d.k == o.k && d.size == o.size && d.h == o.h && d.p == o.p
  {
    if align <= 1 || o.k == Kchar then Details(o.k, o.size, 0, o.h, o.p)
    else
      var a := if align > o.h.maxalign then o.h.maxalign else align;
      if IsPow2(a) then Details(o.k, o.size, ToAlign(total, a), o.h, o.p) else BadDetails(AlignNotPower)
  }

  /** getdetails */
  function GetDetails(h: Header, total: nat, fmt: string, p: nat): (d: Details)
    requires p < |fmt|
    ensures d.Details? ==> p < d.p <= |fmt| && d.h.native == h.native
    ensures d.Details? && (d.k.Kint? || d.k.Kuint? || d.k.Kstring?) ==> 1 <= d.size <= MAXINTSIZE
    ensures d.Details? && d.k.Kfloat? ==> d.size == 4
    ensures d.Details? && (d.k.Knumber? || d.k.Kdouble?) ==> d.size == 8
    ensures d.Details? && (d.k.Kzstr? || d.k.Kpaddalign? || d.k.Knop?) ==> d.size == 0
    ensures d.Details? && d.k.Kpadding? ==> d.size == 1
  {
    var o := GetOption(h, fmt, p);
    if o.BadOption? then BadDetails(o.err)
    else if o.k != Kpaddalign then Aligned(o, total, o.size)
    else if At(fmt, o.p) == '\0' then BadDetails(InvalidNext)
    else
      var next := GetOption(o.h, fmt, o.p);
      if next.BadOption? then BadDetails(next.err)
      else if next.k == Kchar || next.size == 0 then BadDetails(InvalidNext)
      else Aligned(Option(Kpaddalign, 0, next.h, next.p), total, next.size)
  }

  // ---- Items ----------------------------------------------------------------------------------------

  /** A value: an integer, a string, or a float, which is shown by the bytes that represent it in the machine. */
  datatype Item = Int(n: Integer) | Str(s: seq<Byte>) | Float(bytes: seq<Byte>)

  datatype Result<T> = Ok(v: T) | Err(err: Error)

  function Zeros(n: nat): (z: seq<Byte>)
    ensures |z| == n && forall i :: 0 <= i < n ==> z[i] == 0
  {
    seq(n, _ => 0)
  }

  /** copywithendian */
  function WithEndian(bytes: seq<Byte>, islittle: bool, native: bool): seq<Byte>
  {
    InOrder(bytes, islittle == native)
  }

  predicate IsFloat(k: KOption)
  {
    k.Kfloat? || k.Knumber? || k.Kdouble?
  }

  /** The bytes of an item, or why it cannot be packed with its option. */
  function PackItem(k: KOption, size: nat, h: Header, x: Item): (r: Result<seq<Byte>>)
    requires k.Kint? || k.Kuint? || k.Kstring? ==> 1 <= size <= MAXINTSIZE
    ensures r.Ok? && k != Kstring && k != Kzstr ==> |r.v| == size
  {
    match k
    case Kint =>
      if !x.Int? then Err(NoArgument)
      else if !InRange(x.n, size, true) then Err(IntegerOverflow)
      else Ok(InOrder(IntDigits(ToUnsigned(x.n), size, x.n < 0), h.islittle))
    case Kuint =>
      if !x.Int? then Err(NoArgument)
      else if !InRange(x.n, size, false) then Err(UnsignedOverflow)
      else Ok(InOrder(IntDigits(ToUnsigned(x.n), size, false), h.islittle))
    case Kchar =>
      if !x.Str? then Err(NoArgument)
      else if |x.s| > size then Err(StringTooLong)
      else Ok(x.s + Zeros(size - |x.s|))
    case Kstring =>
      if !x.Str? || |x.s| > MAX_SIZE then Err(NoArgument)
      else if !InRange(|x.s|, size, false) then Err(LengthTooBig)
      else Ok(InOrder(IntDigits(|x.s|, size, false), h.islittle) + x.s)
    case Kzstr =>
      if !x.Str? then Err(NoArgument) else if 0 in x.s then Err(StringHasZeros) else Ok(x.s + [0])
    case _ =>
      if !x.Float? || |x.bytes| != size then Err(NoArgument) else Ok(WithEndian(x.bytes, h.islittle, h.native))
  }

  /** What is read back for an item: fixed strings get padded with zeros. */
  function Padded(k: KOption, size: nat, x: Item): Item
  {
    if k.Kchar? && x.Str? && |x.s| <= size then Str(x.s + Zeros(size - |x.s|)) else x
  }

  /** strlen, which stops at the end of the data too. */
  function StrLen(data: seq<Byte>, pos: nat): (n: nat)
    requires pos <= |data|
    ensures pos + n <= |data| && (pos + n < |data| ==> data[pos + n] == 0)
    ensures forall i :: pos <= i < pos + n ==> data[i] != 0
    decreases |data| - pos
  {
    if pos == |data| || data[pos] == 0 then 0 else 1 + StrLen(data, pos + 1)
  }

  /** An item, and how many bytes it takes. */
  datatype Read = Read(x: Item, used: nat)

  /** The item at 'pos', where there are at least 'size' bytes. */
  function UnpackItem(k: KOption, size: nat, h: Header, data: seq<Byte>, pos: nat): (r: Result<Read>)
    requires k.Kint? || k.Kuint? || k.Kstring? ==> 1 <= size <= MAXINTSIZE
    requires pos + size <= |data|
    ensures r.Ok? ==> pos + r.v.used <= |data|
  {
    var here := data[pos..pos + size];
    match k
    case Kstring =>
      var n := IntOf(InOrder(here, h.islittle), false);
      if n.TooBig? then Err(IntegerTooBig)
      else
        var len := ToUnsigned(n.n);
        if len <= |data| - pos - size then Ok(Read(Str(data[pos + size..pos + size + len]), size + len))
        else Err(DataTooShort)
    case Kzstr =>
      var len := StrLen(data, pos);
      if pos + len < |data| then Ok(Read(Str(data[pos..pos + len]), len + 1)) else Err(Unfinished)
    case Kint =>
      var n := IntOf(InOrder(here, h.islittle), true);
      if n.TooBig? then Err(IntegerTooBig) else Ok(Read(Int(n.n), size))
    case Kuint =>
      var n := IntOf(InOrder(here, h.islittle), false);
      if n.TooBig? then Err(IntegerTooBig) else Ok(Read(Int(n.n), size))
    case Kchar => Ok(Read(Str(here), size))
    case _ => Ok(Read(Float(WithEndian(here, h.islittle, h.native)), size))
  }

  lemma NoZeroBefore(data: seq<Byte>, pos: nat, s: seq<Byte>)
    requires pos + |s| < |data| && data[pos..pos + |s|] == s && 0 !in s && data[pos + |s|] == 0
    ensures StrLen(data, pos) == |s|
  {
    var n := StrLen(data, pos);
    forall i | 0 <= i < |s| ensures s[i] != 0 && data[pos + i] == s[i] {
      assert data[pos..pos + |s|][i] == s[i] && s[i] in s;
    }
  }

  /** An item is read back from the bytes that were packed for it, whatever comes before and after. */
  lemma ItemRoundTrip(k: KOption, size: nat, h: Header, x: Item, pre: seq<Byte>, post: seq<Byte>)
    requires k.Kint? || k.Kuint? || k.Kstring? ==> 1 <= size <= MAXINTSIZE
    requires k != Kpadding && k != Kpaddalign && k != Knop && PackItem(k, size, h, x).Ok?
    requires k.Kzstr? ==> size == 0
    ensures var b := PackItem(k, size, h, x).v;
            var data := pre + b + post;
            |b| >= size && UnpackItem(k, size, h, data, |pre|) == Ok(Read(Padded(k, size, x), |b|))
  {
    hide IntOf, IntDigits, InRange, ToUnsigned, InOrder, StrLen;
    if k.Kstring? {
      CountedRoundTrip(size, h, x.s, pre, post);
    } else if k.Kzstr? {
      var data := pre + (x.s + [0]) + post;
      assert data[|pre|..|pre| + |x.s|] == x.s;
      NoZeroBefore(data, |pre|, x.s);
    } else {
      FixedRoundTrip(k, size, h, x, pre, post);
    }
  }

  lemma CountedRoundTrip(size: nat, h: Header, s: seq<Byte>, pre: seq<Byte>, post: seq<Byte>)
    requires 1 <= size <= MAXINTSIZE && PackItem(Kstring, size, h, Str(s)).Ok?
    ensures var b := PackItem(Kstring, size, h, Str(s)).v;
            UnpackItem(Kstring, size, h, pre + b + post, |pre|) == Ok(Read(Str(s), |b|)) && |b| >= size
  {
    hide IntOf, IntDigits, InRange, InOrder;
    SmallUnsigned(|s|);
    hide ToUnsigned;
    var d := InOrder(IntDigits(|s|, size, false), h.islittle);
    var data := pre + (d + s) + post;
    assert data[|pre|..|pre| + size] == d;
    assert data[|pre| + size..|pre| + size + |s|] == s;
    IntRoundTrip(|s|, size, false, h.islittle);
  }

  lemma FixedRoundTrip(k: KOption, size: nat, h: Header, x: Item, pre: seq<Byte>, post: seq<Byte>)
    requires k.Kint? || k.Kuint? ==> 1 <= size <= MAXINTSIZE
    requires !k.Kstring? && !k.Kzstr? && k != Kpadding && k != Kpaddalign && k != Knop && PackItem(k, size, h, x).Ok?
    ensures var b := PackItem(k, size, h, x).v;
            UnpackItem(k, size, h, pre + b + post, |pre|) == Ok(Read(Padded(k, size, x), size)) && |b| == size
  {
    hide IntOf, IntDigits, InRange, ToUnsigned, InOrder, StrLen;
    var b := PackItem(k, size, h, x).v;
    assert (pre + b + post)[|pre|..|pre| + size] == b;
    if k.Kint? { IntRoundTrip(x.n, size, true, h.islittle); }
    if k.Kuint? { IntRoundTrip(x.n, size, false, h.islittle); }
    if IsFloat(k) { OrderTwice(x.bytes, h.islittle == h.native); }
  }

  lemma SmallUnsigned(n: nat)
    requires n <= MAX_SIZE
    ensures ToUnsigned(n) == n
  {
  }

  // ---- Whole formats --------------------------------------------------------------------------------

  /** Options that take no argument. */
  predicate NoItem(k: KOption)
  {
    k.Kpadding? || k.Kpaddalign? || k.Knop?
  }

  function Prepend(b: seq<Byte>, r: Result<seq<Byte>>): Result<seq<Byte>>
  {
    if r.Ok? then Ok(b + r.v) else r
  }

  /** The bytes from option 'p' on, when there are already 'total' bytes. */
  function PackFrom(h: Header, fmt: string, p: nat, total: nat, args: seq<Item>): Result<seq<Byte>>
    decreases |fmt| - p
  {
    if At(fmt, p) == '\0' then Ok([])
    else
      var d := GetDetails(h, total, fmt, p);
      if d.BadDetails? then Err(d.err)
      else if d.size + d.toalign > MAX_SIZE - total then Err(TooLong)
      else if NoItem(d.k) then Prepend(Zeros(d.toalign) + Zeros(d.size),
                                       PackFrom(d.h, fmt, d.p, total + d.toalign + d.size, args))
      else if args == [] then Err(NoArgument)
      else
        var b := PackItem(d.k, d.size, d.h, args[0]);
        if b.Err? then b
        else Prepend(Zeros(d.toalign) + b.v, PackFrom(d.h, fmt, d.p, total + d.toalign + |b.v|, args[1..]))
  }

  /** The items that the format stores, as they will be read back. */
  function Stored(h: Header, fmt: string, p: nat, total: nat, args: seq<Item>): seq<Item>
    decreases |fmt| - p
  {
    if At(fmt, p) == '\0' then []
    else
      var d := GetDetails(h, total, fmt, p);
      if d.BadDetails? then []
      else if NoItem(d.k) then Stored(d.h, fmt, d.p, total + d.toalign + d.size, args)
      else if args == [] then []
      else
        var b := PackItem(d.k, d.size, d.h, args[0]);
        if b.Err? then []
        else [Padded(d.k, d.size, args[0])] + Stored(d.h, fmt, d.p, total + d.toalign + |b.v|, args[1..])
  }

  /** The items, and the position after them. */
  datatype Items = Items(xs: seq<Item>, pos: nat)

  function AddItem(x: Item, r: Result<Items>): Result<Items>
  {
    if r.Ok? then Ok(Items([x] + r.v.xs, r.v.pos)) else r
  }

  function UnpackFrom(h: Header, fmt: string, p: nat, data: seq<Byte>, pos: nat): Result<Items>
    requires pos <= |data|
    decreases |fmt| - p
  {
    if At(fmt, p) == '\0' then Ok(Items([], pos))
    else
      var d := GetDetails(h, pos, fmt, p);
      if d.BadDetails? then Err(d.err)
      else if d.toalign + d.size > |data| - pos then Err(DataTooShort)
      else if NoItem(d.k) then UnpackFrom(d.h, fmt, d.p, data, pos + d.toalign + d.size)
      else
        var r := UnpackItem(d.k, d.size, d.h, data, pos + d.toalign);
        if r.Err? then Err(r.err) else AddItem(r.v.x, UnpackFrom(d.h, fmt, d.p, data, pos + d.toalign + r.v.used))
  }

  lemma ItemBytes(d: Details, total: nat, x: Item, pre: seq<Byte>, rest: seq<Byte>)
    requires d.Details? && !NoItem(d.k) && (d.k.Kint? || d.k.Kuint? || d.k.Kstring? ==> 1 <= d.size <= MAXINTSIZE)
    requires (d.k.Kzstr? ==> d.size == 0)
    requires PackItem(d.k, d.size, d.h, x).Ok? && |pre| == total
    ensures var b := PackItem(d.k, d.size, d.h, x).v;
            var data := pre + (Zeros(d.toalign) + b + rest);
            && d.toalign + d.size <= |data| - total
            && UnpackItem(d.k, d.size, d.h, data, total + d.toalign) == Ok(Read(Padded(d.k, d.size, x), |b|))
            && data == (pre + Zeros(d.toalign) + b) + rest
  {
    hide PackItem, UnpackItem, Padded;
    var b := PackItem(d.k, d.size, d.h, x).v;
    ItemRoundTrip(d.k, d.size, d.h, x, pre + Zeros(d.toalign), rest);
    assert pre + (Zeros(d.toalign) + b + rest) == (pre + Zeros(d.toalign)) + b + rest;
  }

  lemma StoredStep(h: Header, fmt: string, p: nat, total: nat, args: seq<Item>)
    requires PackFrom(h, fmt, p, total, args).Ok?
    ensures At(fmt, p) == '\0' ==> Stored(h, fmt, p, total, args) == []
    ensures At(fmt, p) != '\0' ==> p < |fmt| && var d := GetDetails(h, total, fmt, p);
              && d.Details? && (d.k.Kint? || d.k.Kuint? || d.k.Kstring? ==> 1 <= d.size <= MAXINTSIZE)
              && (NoItem(d.k) ==>
                    Stored(h, fmt, p, total, args) == Stored(d.h, fmt, d.p, total + d.toalign + d.size, args))
              && (NoItem(d.k) || (args != [] && PackItem(d.k, d.size, d.h, args[0]).Ok?))
              && (NoItem(d.k) || Stored(h, fmt, p, total, args) ==
                  [Padded(d.k, d.size, args[0])] + Stored(d.h, fmt, d.p,
                          total + d.toalign + |PackItem(d.k, d.size, d.h, args[0]).v|, args[1..]))
  {
    hide PackItem, GetDetails, Prepend, Zeros, Padded;
    if At(fmt, p) != '\0' { DetailsIn(h, total, fmt, p); }
  }

  /** An option without an item. */
  lemma SkipRoundTrip(h: Header, fmt: string, p: nat, args: seq<Item>, pre: seq<Byte>, d: Details, rest: seq<Byte>)
    requires At(fmt, p) != '\0' && p < |fmt| && d == GetDetails(h, |pre|, fmt, p) && d.Details? && NoItem(d.k)
    requires var pre' := pre + (Zeros(d.toalign) + Zeros(d.size));
             UnpackFrom(d.h, fmt, d.p, pre' + rest,
                        |pre'|) == Ok(Items(Stored(d.h, fmt, d.p, |pre'|, args), |pre'| + |rest|))
    requires Stored(h, fmt, p, |pre|, args) == Stored(d.h, fmt, d.p, |pre| + d.toalign + d.size, args)
    ensures var b := Zeros(d.toalign) + Zeros(d.size) + rest;
            UnpackFrom(h, fmt, p, pre + b, |pre|) == Ok(Items(Stored(h, fmt, p, |pre|, args), |pre| + |b|))
  {
    hide UnpackFrom, Stored, GetDetails, PackItem, UnpackItem;
    var b, pre' := Zeros(d.toalign) + Zeros(d.size) + rest, pre + (Zeros(d.toalign) + Zeros(d.size));
    assert pre + b == pre' + rest;
    hide Zeros;
    UnpackStep(h, fmt, p, pre + b, |pre|);
  }

  /** An option with an item. */
  lemma ItemThenRest(h: Header, fmt: string, p: nat, args: seq<Item>, pre: seq<Byte>, d: Details, rest: seq<Byte>)
    requires At(fmt, p) != '\0' && p < |fmt| && d == GetDetails(h, |pre|, fmt, p) && d.Details? && !NoItem(d.k)
    requires args != []
    requires d.k.Kint? || d.k.Kuint? || d.k.Kstring? ==> 1 <= d.size <= MAXINTSIZE
    requires d.k.Kzstr? ==> d.size == 0
    requires PackItem(d.k, d.size, d.h, args[0]).Ok?
    requires var pre' := pre + Zeros(d.toalign) + PackItem(d.k, d.size, d.h, args[0]).v;
             UnpackFrom(d.h, fmt, d.p, pre' + rest,
                        |pre'|) == Ok(Items(Stored(d.h, fmt, d.p, |pre'|, args[1..]), |pre'| + |rest|))
    requires Stored(h, fmt, p, |pre|, args) ==
             [Padded(d.k, d.size, args[0])] + Stored(d.h, fmt, d.p,
                     |pre| + d.toalign + |PackItem(d.k, d.size, d.h, args[0]).v|, args[1..])
    ensures var b := Zeros(d.toalign) + PackItem(d.k, d.size, d.h, args[0]).v + rest;
            UnpackFrom(h, fmt, p, pre + b, |pre|) == Ok(Items(Stored(h, fmt, p, |pre|, args), |pre| + |b|))
  {
    hide UnpackFrom, Stored, GetDetails, PackItem, UnpackItem, Padded;
    var v := PackItem(d.k, d.size, d.h, args[0]).v;
    var b, pre' := Zeros(d.toalign) + v + rest, pre + Zeros(d.toalign) + v;
    ItemBytes(d, |pre|, args[0], pre, rest);
    assert pre + b == pre' + rest;
    hide Zeros;
    UnpackStep(h, fmt, p, pre + b, |pre|);
  }

  /** Whatever was packed from some option on is unpacked from there, and the unpacking ends where the packing did. */
  lemma {:induction false} RoundTripFrom(h: Header, fmt: string, p: nat, args: seq<Item>, pre: seq<Byte>)
    requires PackFrom(h, fmt, p, |pre|, args).Ok?
    ensures var b := PackFrom(h, fmt, p, |pre|, args).v;
            UnpackFrom(h, fmt, p, pre + b, |pre|) == Ok(Items(Stored(h, fmt, p, |pre|, args), |pre| + |b|))
    decreases |fmt| - p
  {
    hide GetDetails, PackItem, UnpackItem, Padded, PackFrom, UnpackFrom, Stored;
    StoredStep(h, fmt, p, |pre|, args);
    if At(fmt, p) == '\0' {
      PackEnd(h, fmt, p, |pre|, args);
      UnpackEnd(h, fmt, p, pre + [], |pre|);
    } else {
      PackStep(h, fmt, p, |pre|, args);
      DetailsIn(h, |pre|, fmt, p);
      ZstrSize(h, |pre|, fmt, p);
      var d := GetDetails(h, |pre|, fmt, p);
      if NoItem(d.k) {
        var pre' := pre + (Zeros(d.toalign) + Zeros(d.size));
        RoundTripFrom(d.h, fmt, d.p, args, pre');
        SkipRoundTrip(h, fmt, p, args, pre, d, PackFrom(d.h, fmt, d.p, |pre'|, args).v);
      } else {
        var pre' := pre + Zeros(d.toalign) + PackItem(d.k, d.size, d.h, args[0]).v;
        RoundTripFrom(d.h, fmt, d.p, args[1..], pre');
        ItemThenRest(h, fmt, p, args, pre, d, PackFrom(d.h, fmt, d.p, |pre'|, args[1..]).v);
      }
    }
  }

  lemma ZstrSize(h: Header, total: nat, fmt: string, p: nat)
    requires p < |fmt|
    ensures var d := GetDetails(h, total, fmt, p); d.Details? && d.k.Kzstr? ==> d.size == 0
  {
  }

  /** initheader */
  function InitHeader(native: bool): Header
  {
    Header(native, 1, native)
  }

  /** string.pack */
  method StrPack(native: bool, fmt: string, args0: seq<Item>) returns (r: Result<seq<Byte>>)
    ensures r == PackFrom(InitHeader(native), fmt, 0, 0, args0)
  {
    hide GetDetails, PackItem, PackFrom;
    var h, p: nat, totalsize: nat, args: seq<Item>, b: seq<Byte> := InitHeader(native), 0, 0, args0, [];
    PrependNone(PackFrom(h, fmt, p, totalsize, args));
    while At(fmt, p) != '\0'
      invariant totalsize == |b|
      invariant Prepend(b, PackFrom(h, fmt, p, totalsize, args)) == PackFrom(InitHeader(native), fmt, 0, 0, args0)
      decreases |fmt| - p
    {
      PackStep(h, fmt, p, totalsize, args);
      var d := GetDetails(h, totalsize, fmt, p);
      if d.BadDetails? { return Err(d.err); }
      if d.size + d.toalign > MAX_SIZE - totalsize { return Err(TooLong); }
      totalsize := totalsize + d.toalign + d.size;
      h, p := d.h, d.p;
      var pad := Zeros(d.toalign);
      if NoItem(d.k) {
        PrependTwice(b, pad + Zeros(d.size), PackFrom(h, fmt, p, totalsize, args));
        b := b + (pad + Zeros(d.size));
      } else {
        if args == [] { return Err(NoArgument); }
        var item := PackItem(d.k, d.size, h, args[0]);
        if item.Err? { return item; }
        totalsize := totalsize - d.size + |item.v|;
        PrependTwice(b, pad + item.v, PackFrom(h, fmt, p, totalsize, args[1..]));
        b := b + (pad + item.v);
        args := args[1..];
      }
    }
    PackEnd(h, fmt, p, totalsize, args);
    assert b + [] == b;
    r := Ok(b);
  }

  lemma PrependNone(r: Result<seq<Byte>>)
    ensures Prepend([], r) == r
  {
    if r.Ok? { assert [] + r.v == r.v; }
  }

  lemma PrependTwice(b: seq<Byte>, c: seq<Byte>, r: Result<seq<Byte>>)
    ensures Prepend(b, Prepend(c, r)) == Prepend(b + c, r)
  {
    if r.Ok? { assert b + (c + r.v) == (b + c) + r.v; }
  }

  lemma PackEnd(h: Header, fmt: string, p: nat, total: nat, args: seq<Item>)
    requires At(fmt, p) == '\0'
    ensures PackFrom(h, fmt, p, total, args) == Ok([])
  {
  }

  lemma DetailsIn(h: Header, total: nat, fmt: string, p: nat)
    requires p < |fmt|
    ensures var d := GetDetails(h, total, fmt, p); d.Details? ==>
        d.p > p && (d.k.Kint? || d.k.Kuint? || d.k.Kstring? ==> 1 <= d.size <= MAXINTSIZE)
  {
  }

  lemma PackStep(h: Header, fmt: string, p: nat, total: nat, args: seq<Item>)
    requires At(fmt, p) != '\0'
    ensures p < |fmt| && var d := GetDetails(h, total, fmt, p);
            && (d.Details? ==> p < d.p && (d.k.Kint? || d.k.Kuint? || d.k.Kstring? ==> 1 <= d.size <= MAXINTSIZE))
            && PackFrom(h, fmt, p, total, args) ==
               if d.BadDetails? then Err(d.err)
               else if d.size + d.toalign > MAX_SIZE - total then Err(TooLong)
               else if NoItem(d.k) then Prepend(Zeros(d.toalign) + Zeros(d.size),
                                                PackFrom(d.h, fmt, d.p, total + d.toalign + d.size, args))
               else if args == [] then Err(NoArgument)
               else if PackItem(d.k, d.size, d.h, args[0]).Err? then PackItem(d.k, d.size, d.h, args[0])
               else Prepend(Zeros(d.toalign) + PackItem(d.k, d.size, d.h, args[0]).v,
                            PackFrom(d.h, fmt, d.p, total + d.toalign + |PackItem(d.k, d.size, d.h, args[0]).v|,
                                     args[1..]))
  {
    hide PackItem, GetDetails, Prepend, Zeros;
    DetailsIn(h, total, fmt, p);
  }

  function AddItems(xs: seq<Item>, r: Result<Items>): Result<Items>
  {
    if r.Ok? then Ok(Items(xs + r.v.xs, r.v.pos)) else r
  }

  /** string.unpack: the items and the position after them, counted from one. */
  method StrUnpack(native: bool, fmt: string, data: seq<Byte>, init: nat) returns (r: Result<Items>)
    requires init <= |data|
    ensures var u := UnpackFrom(InitHeader(native), fmt, 0, data, init);
            r == if u.Ok? then Ok(Items(u.v.xs, u.v.pos + 1)) else u
  {
    hide GetDetails, UnpackItem, UnpackFrom;
    var h, p: nat, pos: nat, xs: seq<Item> := InitHeader(native), 0, init, [];
    AddNone(UnpackFrom(h, fmt, p, data, pos));
    while At(fmt, p) != '\0'
      invariant pos <= |data|
      invariant AddItems(xs, UnpackFrom(h, fmt, p, data, pos)) == UnpackFrom(InitHeader(native), fmt, 0, data, init)
      decreases |fmt| - p
    {
      UnpackStep(h, fmt, p, data, pos);
      var d := GetDetails(h, pos, fmt, p);
      if d.BadDetails? { return Err(d.err); }
      if d.toalign + d.size > |data| - pos { return Err(DataTooShort); }
      pos := pos + d.toalign;
      h, p := d.h, d.p;
      if NoItem(d.k) {
        pos := pos + d.size;
      } else {
        var item := UnpackItem(d.k, d.size, h, data, pos);
        if item.Err? { return Err(item.err); }
        ReadIn(d.k, d.size, h, data, pos);
        pos := pos + item.v.used;
        AddOne(xs, item.v.x, UnpackFrom(h, fmt, p, data, pos));
        xs := xs + [item.v.x];
      }
    }
    UnpackEnd(h, fmt, p, data, pos);
    assert xs + [] == xs;
    r := Ok(Items(xs, pos + 1));
  }

  lemma ReadIn(k: KOption, size: nat, h: Header, data: seq<Byte>, pos: nat)
    requires (k.Kint? || k.Kuint? || k.Kstring? ==> 1 <= size <= MAXINTSIZE) && pos + size <= |data|
    ensures UnpackItem(k, size, h, data, pos).Ok? ==> pos + UnpackItem(k, size, h, data, pos).v.used <= |data|
  {
  }

  lemma AddNone(r: Result<Items>)
    ensures AddItems([], r) == r
  {
    if r.Ok? { assert [] + r.v.xs == r.v.xs; }
  }

  lemma AddOne(xs: seq<Item>, x: Item, r: Result<Items>)
    ensures AddItems(xs, AddItem(x, r)) == AddItems(xs + [x], r)
  {
    if r.Ok? { assert xs + ([x] + r.v.xs) == (xs + [x]) + r.v.xs; }
  }

  lemma UnpackEnd(h: Header, fmt: string, p: nat, data: seq<Byte>, pos: nat)
    requires At(fmt, p) == '\0' && pos <= |data|
    ensures UnpackFrom(h, fmt, p, data, pos) == Ok(Items([], pos))
  {
  }

  lemma UnpackStep(h: Header, fmt: string, p: nat, data: seq<Byte>, pos: nat)
    requires At(fmt, p) != '\0' && pos <= |data|
    ensures p < |fmt| && var d := GetDetails(h, pos, fmt, p);
            && (d.Details? ==> p < d.p && (d.k.Kint? || d.k.Kuint? || d.k.Kstring? ==> 1 <= d.size <= MAXINTSIZE))
            && (d.BadDetails? ==> UnpackFrom(h, fmt, p, data, pos) == Err(d.err))
            && (d.Details? && d.toalign + d.size > |data| - pos ==>
                  UnpackFrom(h, fmt, p, data, pos) == Err(DataTooShort))
            && (d.Details? && d.toalign + d.size <= |data| - pos && NoItem(d.k) ==>
                  UnpackFrom(h, fmt, p, data, pos) == UnpackFrom(d.h, fmt, d.p, data, pos + d.toalign + d.size))
            && (d.Details? && d.toalign + d.size <= |data| - pos && !NoItem(d.k) ==>
                  var r := UnpackItem(d.k, d.size, d.h, data, pos + d.toalign);
                  UnpackFrom(h, fmt, p, data, pos) ==
                  if r.Err? then Err(r.err)
                  else AddItem(r.v.x, UnpackFrom(d.h, fmt, d.p, data, pos + d.toalign + r.v.used)))
  {
    hide UnpackItem;
  }

  // ---- The size of a format ------------------------------------------------------------------------------

  function SizeFrom(h: Header, fmt: string, p: nat, total: nat): Result<nat>
    decreases |fmt| - p
  {
    if At(fmt, p) == '\0' then Ok(total)
    else
      var d := GetDetails(h, total, fmt, p);
      if d.BadDetails? then Err(d.err)
      else if d.k.Kstring? || d.k.Kzstr? then Err(VariableLength)
      else if total + d.size + d.toalign > MAX_SIZE then Err(TooLong)
      else SizeFrom(d.h, fmt, d.p, total + d.size + d.toalign)
  }

  /** string.packsize */
  method StrPackSize(native: bool, fmt: string) returns (r: Result<nat>)
    ensures r == SizeFrom(InitHeader(native), fmt, 0, 0)
  {
    hide GetDetails;
    var h, p: nat, totalsize: nat := InitHeader(native), 0, 0;
    while At(fmt, p) != '\0'
      invariant SizeFrom(h, fmt, p, totalsize) == SizeFrom(InitHeader(native), fmt, 0, 0)
      decreases |fmt| - p
    {
      AtIn(fmt, p);
      DetailsIn(h, totalsize, fmt, p);
      var d := GetDetails(h, totalsize, fmt, p);
      if d.BadDetails? { return Err(d.err); }
      if d.k.Kstring? || d.k.Kzstr? { return Err(VariableLength); }
      var size := d.size + d.toalign;
      if totalsize > MAX_SIZE - size { return Err(TooLong); }
      totalsize := totalsize + size;
      h, p := d.h, d.p;
    }
    r := Ok(totalsize);
  }

  lemma AtIn(fmt: string, p: nat)
    ensures At(fmt, p) != '\0' ==> p < |fmt|
  {
  }

  lemma PackAt(h: Header, fmt: string, p: nat, total: nat, args: seq<Item>)
    ensures At(fmt, p) == '\0' ==> PackFrom(h, fmt, p, total, args) == Ok([])
    ensures At(fmt, p) != '\0' ==> p < |fmt| && var d := GetDetails(h, total, fmt, p);
              PackFrom(h, fmt, p, total, args).Ok? ==> d.Details? && var v := PackFrom(h, fmt, p, total, args).v;
                if NoItem(d.k) then
                  var rest := PackFrom(d.h, fmt, d.p, total + d.toalign + d.size, args);
                  rest.Ok? && |v| == d.toalign + d.size + |rest.v|
                else
                  args != [] && (d.k.Kint? || d.k.Kuint? || d.k.Kstring? ==> 1 <= d.size <= MAXINTSIZE) &&
                  var b := PackItem(d.k, d.size, d.h, args[0]);
                  b.Ok? && var rest := PackFrom(d.h, fmt, d.p, total + d.toalign + |b.v|, args[1..]);
                           rest.Ok? && |v| == d.toalign + |b.v| + |rest.v|
  {
    hide PackItem, GetDetails, PackFrom;
    if At(fmt, p) == '\0' { PackEnd(h, fmt, p, total, args); } else { PackStep(h, fmt, p, total, args); }
  }

  /** Everything packed with a format of fixed size takes that size. */
  lemma {:induction false} SizeAgrees(h: Header, fmt: string, p: nat, total: nat, args: seq<Item>)
    requires SizeFrom(h, fmt, p, total).Ok? && PackFrom(h, fmt, p, total, args).Ok?
    ensures SizeFrom(h, fmt, p, total).v == total + |PackFrom(h, fmt, p, total, args).v|
    decreases |fmt| - p
  {
    hide PackItem, GetDetails, PackFrom, Prepend, Zeros;
    PackAt(h, fmt, p, total, args);
    if At(fmt, p) != '\0' {
      var d := GetDetails(h, total, fmt, p);
      if NoItem(d.k) {
        SizeAgrees(d.h, fmt, d.p, total + d.size + d.toalign, args);
      } else {
        ItemSize(d.k, d.size, d.h, args[0]);
        SizeAgrees(d.h, fmt, d.p, total + d.size + d.toalign, args[1..]);
      }
    }
  }

  lemma ItemSize(k: KOption, size: nat, h: Header, x: Item)
    requires (k.Kint? || k.Kuint? || k.Kstring? ==> 1 <= size <= MAXINTSIZE) && k != Kstring && k != Kzstr
    ensures PackItem(k, size, h, x).Ok? ==> |PackItem(k, size, h, x).v| == size
  {
  }

  /** What string.pack makes, string.unpack reads back: the same values, and the position right after the string. */
  method PackThenUnpack(native: bool, fmt: string, args: seq<Item>)
    returns (packed: Result<seq<Byte>>, back: Result<Items>)
    ensures packed.Ok? ==> back == Ok(Items(Stored(InitHeader(native), fmt, 0, 0, args), |packed.v| + 1))
    ensures packed.Ok? ==> var options := ItemOptions(InitHeader(native), fmt, 0);
              && back.Ok? && |back.v.xs| == |options| <= |args|
              && forall i :: 0 <= i < |options| ==> ReadBack(options[i], args[i], back.v.xs[i])
    ensures packed.Err? ==> back == Err(packed.err)
  {
    hide *;
    packed := StrPack(native, fmt, args);
    if packed.Ok? {
      RoundTripFrom(InitHeader(native), fmt, 0, args, []);
      StoredAre(InitHeader(native), fmt, 0, 0, args);
      assert [] + packed.v == packed.v;
      back := StrUnpack(native, fmt, packed.v, 0);
    } else {
      back := Err(packed.err);
    }
  }

  /** The options of the format from 'p' on that take an item, with their sizes. */
  function ItemOptions(h: Header, fmt: string, p: nat): seq<(KOption, nat)>
    decreases |fmt| - p
  {
    if At(fmt, p) == '\0' then []
    else
      var d := GetDetails(h, 0, fmt, p);
      if d.BadDetails? then [] else (if NoItem(d.k) then [] else [(d.k, d.size)]) + ItemOptions(d.h, fmt, d.p)
  }

  /** Only the alignment depends on how many bytes there are already. */
  lemma SameDetails(h: Header, total: nat, fmt: string, p: nat)
    requires p < |fmt|
    ensures var d, d0 := GetDetails(h, total, fmt, p), GetDetails(h, 0, fmt, p);
            d.Details? ==> d0.Details? && d0.k == d.k && d0.size == d.size && d0.h == d.h && d0.p == d.p
  {
    hide GetOption;
  }

  lemma OptionsStep(h: Header, fmt: string, p: nat, total: nat)
    requires At(fmt, p) != '\0' && p < |fmt| && GetDetails(h, total, fmt, p).Details?
    ensures var d := GetDetails(h, total, fmt, p);
            ItemOptions(h, fmt, p) == (if NoItem(d.k) then [] else [(d.k, d.size)]) + ItemOptions(d.h, fmt, d.p)
  {
    hide GetDetails;
    SameDetails(h, total, fmt, p);
  }

  /** What is read back for an item: exactly what was given, or that with zeros up to the size of a fixed string. */
  ghost predicate ReadBack(option: (KOption, nat), x: Item, y: Item)
  {
    if option.0.Kchar? then x.Str? && |x.s| <= option.1 && y == Str(x.s + Zeros(option.1 - |x.s|)) else y == x
  }

  /** One item is stored for each option that takes one, in order, and only fixed strings are padded. */
  lemma {:induction false} StoredAre(h: Header, fmt: string, p: nat, total: nat, args: seq<Item>)
    requires PackFrom(h, fmt, p, total, args).Ok?
    ensures var st, options := Stored(h, fmt, p, total, args), ItemOptions(h, fmt, p);
            && |st| == |options| <= |args|
            && forall i :: 0 <= i < |st| ==> ReadBack(options[i], args[i], st[i])
    decreases |fmt| - p
  {
    hide PackItem, GetDetails, PackFrom, Stored, ItemOptions, Padded, ReadBack;
    StoredStep(h, fmt, p, total, args);
    if At(fmt, p) == '\0' {
      NoOptions(h, fmt, p);
    } else {
      PackStep(h, fmt, p, total, args);
      OptionsStep(h, fmt, p, total);
      var d := GetDetails(h, total, fmt, p);
      if NoItem(d.k) {
        StoredAre(d.h, fmt, d.p, total + d.toalign + d.size, args);
      } else {
        StoredAre(d.h, fmt, d.p, total + d.toalign + |PackItem(d.k, d.size, d.h, args[0]).v|, args[1..]);
        PaddedBack(d.k, d.size, d.h, args[0]);
      }
    }
  }

  lemma NoOptions(h: Header, fmt: string, p: nat)
    requires At(fmt, p) == '\0'
    ensures ItemOptions(h, fmt, p) == []
  {
  }

  lemma PaddedBack(k: KOption, size: nat, h: Header, x: Item)
    requires (k.Kint? || k.Kuint? || k.Kstring? ==> 1 <= size <= MAXINTSIZE) && PackItem(k, size, h, x).Ok?
    ensures ReadBack((k, size), x, Padded(k, size, x))
  {
  }
}
