/** What the escape sequences of short strings stand for (llex.c, "read_string"; lobject.c, "luaO_utf8esc"). */
module QuoteEscapes {
  import opened Quote

  const LETTERS := "abfnrtv"
  const CODES := [7, 8, 12, 10, 13, 9, 11]

  /** The escapes of one letter are the control characters, and these three marks stand for themselves. */
  lemma LetterEscapes(z: seq<Byte>, p: nat)
    requires p < |z|
    ensures forall i :: 0 <= i < |LETTERS| && z[p] == LETTERS[i] as int ==> Escape(z, p) == Piece([CODES[i]], p + 1, 0)
    ensures z[p] == '\\' as int || z[p] == '"' as int || z[p] == '\'' as int ==> Escape(z, p) == Piece([z[p]], p + 1, 0)
  {
  }

  // ---- Hexadecimal digits ------------------------------------------------------------------------------

  const LOWER := "0123456789abcdef"
  const UPPER := "0123456789ABCDEF"

  /** The digit with some value, in both cases. */
  predicate DigitOf(c: int, v: nat)
  {
    v < 16 && (c == LOWER[v] as int || c == UPPER[v] as int)
  }

  lemma HexMeaning(c: int, v: nat)
    requires DigitOf(c, v)
    ensures IsHex(c) && HexValue(c) == v
  {
  }

  lemma HexOnly(c: int)
    requires IsHex(c)
    ensures DigitOf(c, HexValue(c))
  {
  }

  /** Two hexadecimal digits after the 'x' are the byte. */
  lemma HexEscape(z: seq<Byte>, p: nat, a: nat, b: nat)
    requires p < |z| && z[p] == 'x' as int && DigitOf(Current(z, p + 1), a) && DigitOf(Current(z, p + 2), b)
    ensures Escape(z, p) == Piece([16 * a + b], p + 3, 0)
  {
    HexMeaning(Current(z, p + 1), a);
    HexMeaning(Current(z, p + 2), b);
  }

  lemma NoHexEscape(z: seq<Byte>, p: nat)
    requires p < |z| && z[p] == 'x' as int && !(IsHex(Current(z, p + 1)) && IsHex(Current(z, p + 2)))
    ensures Escape(z, p) == Bad(HexExpected)
  {
  }

  // ---- Codes -------------------------------------------------------------------------------------------

  /** The number whose digits, after those that make 'r', have these values. */
  function Value(r: nat, vs: seq<nat>): nat
    decreases |vs|
  {
    if vs == [] then r else Value(16 * r + vs[0], vs[1..])
  }

  lemma {:induction false} ValueGrows(r: nat, vs: seq<nat>)
    ensures Value(r, vs) >= r
    decreases |vs|
  {
    if vs != [] { ValueGrows(16 * r + vs[0], vs[1..]); }
  }

  lemma {:induction false} CodeRead(z: seq<Byte>, p: nat, r: nat, vs: seq<nat>)
    requires p + |vs| < |z| && z[p + |vs|] == '}' as int && r < 0x8000_0000
    requires forall i :: 0 <= i < |vs| ==> DigitOf(z[p + i], vs[i])
    ensures CodeDigits(z, p, r) ==
              if Value(r, vs) < 0x8000_0000 then Piece(Utf8(Value(r, vs)), p + |vs| + 1, 0) else Bad(CodeTooLarge)
    decreases |vs|
  {
    if vs != [] {
      assert DigitOf(z[p + 0], vs[0]);
      HexMeaning(z[p], vs[0]);
      var r', rest := 16 * r + vs[0], vs[1..];
      ValueGrows(r', rest);
      if r <= 0x7FFF_FFFF / 16 {
        forall i | 0 <= i < |rest| ensures DigitOf(z[p + 1 + i], rest[i]) {
          assert DigitOf(z[p + (i + 1)], vs[i + 1]);
        }
        CodeRead(z, p + 1, r', rest);
      }
    }
  }

  /** Hexadecimal digits in braces after the 'u' give the encoding of that code, if it has at most 31 bits. */
  lemma CodeEscape(z: seq<Byte>, p: nat, vs: seq<nat>)
    requires p + 2 + |vs| < |z| && z[p] == 'u' as int && z[p + 1] == '{' as int && z[p + 2 + |vs|] == '}' as int
    requires vs != [] && forall i :: 0 <= i < |vs| ==> DigitOf(z[p + 2 + i], vs[i])
    ensures Escape(z, p) ==
              if Value(0, vs) < 0x8000_0000 then Piece(Utf8(Value(0, vs)), p + |vs| + 3, 0) else Bad(CodeTooLarge)
  {
    assert DigitOf(z[p + 2 + 0], vs[0]);
    HexMeaning(z[p + 2], vs[0]);
    var rest := vs[1..];
    forall i | 0 <= i < |rest| ensures DigitOf(z[p + 3 + i], rest[i]) {
      assert DigitOf(z[p + 2 + (i + 1)], vs[i + 1]);
    }
    CodeRead(z, p + 3, vs[0], rest);
    assert Value(0, vs) == Value(vs[0], rest);
  }

  /** Six bits of a code, after a mark that the encoding goes on. */
  function Next6(x: nat): Byte
  {
    128 + x % 64
  }

  lemma TailMore(x: nat, mfb: nat, tail: seq<Byte>)
    requires x < 0x8000_0000 && mfb < 64 && x / 64 > mfb / 2
    ensures Utf8Tail(x, mfb, tail) == Utf8Tail(x / 64, mfb / 2, [Next6(x)] + tail)
  {
  }

  lemma TailEnd(x: nat, mfb: nat, tail: seq<Byte>)
    requires x < 0x8000_0000 && mfb < 64 && x / 64 <= mfb / 2
    ensures Utf8Tail(x, mfb, tail) == [(254 - 2 * (mfb / 2) + x / 64) % 256] + ([Next6(x)] + tail)
  {
  }

  lemma TwoBytes(x: nat)
    requires 0x80 <= x < 0x800
    ensures Utf8(x) == [0xC0 + x / 64, Next6(x)]
  {
    TailEnd(x, 63, []);
    hide Utf8Tail, Next6;
  }

  lemma ThreeBytes(x: nat)
    requires 0x800 <= x < 0x1_0000
    ensures Utf8(x) == [0xE0 + x / 64 / 64, Next6(x / 64), Next6(x)]
  {
    TailMore(x, 63, []);
    assert [Next6(x)] + [] == [Next6(x)];
    TailEnd(x / 64, 31, [Next6(x)]);
    hide Utf8Tail, Next6;
  }

  lemma FourBytes(x: nat)
    requires 0x1_0000 <= x < 0x20_0000
    ensures Utf8(x) == [0xF0 + x / 64 / 64 / 64, Next6(x / 64 / 64), Next6(x / 64), Next6(x)]
  {
    var a, b := x / 64, x / 64 / 64;
    TailMore(x, 63, []);
    TailMore(a, 31, [Next6(x)]);
    TailEnd(b, 15, [Next6(a), Next6(x)]);
    hide Utf8Tail, Next6;
    assert [Next6(x)] + [] == [Next6(x)] && [Next6(a)] + [Next6(x)] == [Next6(a), Next6(x)];
  }

  lemma FiveBytes(x: nat)
    requires 0x20_0000 <= x < 0x400_0000
    ensures Utf8(x) == [0xF8 + x / 64 / 64 / 64 / 64, Next6(x / 64 / 64 / 64), Next6(x / 64 / 64), Next6(x / 64),
                        Next6(x)]
  {
    var a, b, c := x / 64, x / 64 / 64, x / 64 / 64 / 64;
    TailMore(x, 63, []);
    TailMore(a, 31, [Next6(x)]);
    TailMore(b, 15, [Next6(a), Next6(x)]);
    TailEnd(c, 7, [Next6(b), Next6(a), Next6(x)]);
    hide Utf8Tail, Next6;
    assert [Next6(x)] + [] == [Next6(x)] && [Next6(a)] + [Next6(x)] == [Next6(a), Next6(x)];
    assert [Next6(b)] + [Next6(a), Next6(x)] == [Next6(b), Next6(a), Next6(x)];
  }

  lemma SixBytes(x: nat)
    requires 0x400_0000 <= x < 0x8000_0000
    ensures Utf8(x) == [0xFC + x / 64 / 64 / 64 / 64 / 64, Next6(x / 64 / 64 / 64 / 64), Next6(x / 64 / 64 / 64),
                        Next6(x / 64 / 64), Next6(x / 64), Next6(x)]
  {
    var a, b, c, d := x / 64, x / 64 / 64, x / 64 / 64 / 64, x / 64 / 64 / 64 / 64;
    TailMore(x, 63, []);
    TailMore(a, 31, [Next6(x)]);
    TailMore(b, 15, [Next6(a), Next6(x)]);
    TailMore(c, 7, [Next6(b), Next6(a), Next6(x)]);
    TailEnd(d, 3, [Next6(c), Next6(b), Next6(a), Next6(x)]);
    hide Utf8Tail, Next6;
    assert [Next6(x)] + [] == [Next6(x)] && [Next6(a)] + [Next6(x)] == [Next6(a), Next6(x)];
    assert [Next6(b)] + [Next6(a), Next6(x)] == [Next6(b), Next6(a), Next6(x)];
    assert [Next6(c)] + [Next6(b), Next6(a), Next6(x)] == [Next6(c), Next6(b), Next6(a), Next6(x)];
  }

  /** The encoding of codes of up to 31 bits in one to six bytes, the shortest that there is. */
  lemma Utf8Meaning(x: nat)
    requires x < 0x8000_0000
    ensures x < 0x80 ==> Utf8(x) == [x]
    ensures 0x80 <= x < 0x800 ==> Utf8(x) == [0xC0 + x / 64, Next6(x)]
    ensures 0x800 <= x < 0x1_0000 ==> Utf8(x) == [0xE0 + x / 64 / 64, Next6(x / 64), Next6(x)]
    ensures 0x1_0000 <= x < 0x20_0000 ==>
              Utf8(x) == [0xF0 + x / 64 / 64 / 64, Next6(x / 64 / 64), Next6(x / 64), Next6(x)]
    ensures 0x20_0000 <= x < 0x400_0000 ==>
              Utf8(x) == [0xF8 + x / 64 / 64 / 64 / 64, Next6(x / 64 / 64 / 64), Next6(x / 64 / 64), Next6(x / 64),
                          Next6(x)]
    ensures 0x400_0000 <= x ==>
              Utf8(x) == [0xFC + x / 64 / 64 / 64 / 64 / 64, Next6(x / 64 / 64 / 64 / 64), Next6(x / 64 / 64 / 64),
                          Next6(x / 64 / 64), Next6(x / 64), Next6(x)]
  {
    hide Utf8Tail, Next6;
    if 0x80 <= x < 0x800 { TwoBytes(x); }
    if 0x800 <= x < 0x1_0000 { ThreeBytes(x); }
    if 0x1_0000 <= x < 0x20_0000 { FourBytes(x); }
    if 0x20_0000 <= x < 0x400_0000 { FiveBytes(x); }
    if 0x400_0000 <= x { SixBytes(x); }
  }

  // ---- Decimal digits and spaces -----------------------------------------------------------------------

  /** Up to three decimal digits, as many as there are, are the byte, if it is one. */
  lemma DecimalEscape(z: seq<Byte>, p: nat, a: nat, b: nat, c: nat)
    requires p < |z| && a < 10 && b < 10 && c < 10 && z[p] == 48 + a
    ensures !IsDigit(Current(z, p + 1)) ==> Escape(z, p) == Piece([a], p + 1, 0)
    ensures Current(z, p + 1) == 48 + b && !IsDigit(Current(z, p + 2)) ==> Escape(z, p) == Piece([10 * a + b], p + 2, 0)
    ensures Current(z, p + 1) == 48 + b && Current(z, p + 2) == 48 + c ==>
              var n := 100 * a + 10 * b + c;
              Escape(z, p) == if n < 256 then Piece([n], p + 3, 0) else Bad(DecimalTooLarge)
  {
    DecStep(z, p, 3, 0);
    DecStep(z, p + 1, 2, a);
    if p + 2 <= |z| { DecStep(z, p + 2, 1, 10 * a + b); }
    if p + 3 <= |z| { DecStep(z, p + 3, 0, 100 * a + 10 * b + c); }
    hide DecEscape;
  }

  lemma DecStep(z: seq<Byte>, p: nat, n: nat, r: nat)
    requires p <= |z|
    ensures DecEscape(z, p, n, r) ==
              if n > 0 && IsDigit(Current(z, p)) then DecEscape(z, p + 1, n - 1, 10 * r + (z[p] - 48)) else (r, p)
  {
  }

  /** A 'z' takes all the spaces after it. */
  lemma {:induction false} SpacesSkipped(z: seq<Byte>, p: nat)
    requires p <= |z|
    ensures var q := SkipSpaces(z, p).0; !IsSpace(Current(z, q)) && forall i :: p <= i < q ==> IsSpace(z[i])
    decreases |z| - p
  {
    if IsSpace(Current(z, p)) {
      if IsNewline(z[p]) { SpacesSkipped(z, AfterNewline(z, p)); } else { SpacesSkipped(z, p + 1); }
    }
  }

  lemma SpaceEscape(z: seq<Byte>, p: nat)
    requires p < |z| && z[p] == 'z' as int
    ensures Escape(z, p) == Piece([], SkipSpaces(z, p + 1).0, SkipSpaces(z, p + 1).1)
  {
  }
}
