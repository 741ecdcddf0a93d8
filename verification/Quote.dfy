/**
 The '%q' format (lstrlib.c, "addquoted") and the reader of strings (llex.c, "read_string"): a quoted
 string is read back as the string it was made from.
 */
module Quote {
  type Byte = b: int | 0 <= b < 256

  const QUOTE: int := 34
  const BACKSLASH: int := 92
  const NEWLINE: int := 10
  const CR: int := 13

  /** The current character at the end of the input. */
  const EOZ: int := -1

  predicate IsDigit(c: int)
  {
    48 <= c <= 57
  }

  // ---- Writing ------------------------------------------------------------------------------------

  /** iscntrl, which depends on the locale. */
  type Ctrl = Byte -> bool

  /** The numeral of a byte ("%d"). */
  function Decimal(c: Byte): (d: seq<Byte>)
    ensures 1 <= |d| <= 3 && forall i :: 0 <= i < |d| ==> IsDigit(d[i])
  {
    if c < 10 then [48 + c] else if c < 100 then [48 + c / 10, 48 + c % 10] else Decimal3(c)
  }

  /** The numeral of a byte, with three digits ("%03d"). */
  function Decimal3(c: Byte): (d: seq<Byte>)
    ensures |d| == 3 && forall i :: 0 <= i < 3 ==> IsDigit(d[i])
  {
    [48 + c / 100, 48 + c / 10 % 10, 48 + c % 10]
  }

  /** What is written for a character, when 'next' comes after it. */
  function QuotedChar(ctrl: Ctrl, c: Byte, next: Byte): (q: seq<Byte>)
    ensures q != []
  {
    if c == QUOTE || c == BACKSLASH || c == NEWLINE then [BACKSLASH, c]
    else if ctrl(c) then [BACKSLASH] + (if !IsDigit(next) then Decimal(c) else Decimal3(c))
    else [c]
  }

  /** The character after the first one; strings end with a zero. */
  function Second(s: seq<Byte>): Byte
  {
    if |s| > 1 then s[1] else 0
  }

  function QuotedBody(ctrl: Ctrl, s: seq<Byte>): seq<Byte>
  {
    if s == [] then [] else QuotedChar(ctrl, s[0], Second(s)) + QuotedBody(ctrl, s[1..])
  }

  function Quoted(ctrl: Ctrl, s: seq<Byte>): seq<Byte>
  {
    [QUOTE] + QuotedBody(ctrl, s) + [QUOTE]
  }

  lemma {:induction false} BodyMore(ctrl: Ctrl, s: seq<Byte>, i: nat)
    requires i < |s|
    ensures QuotedBody(ctrl, s[i..]) == QuotedChar(ctrl, s[i], Second(s[i..])) + QuotedBody(ctrl, s[i + 1..])
  {
    assert s[i..][1..] == s[i + 1..];
  }

  /** addquoted, for one character. */
  method AddChar(ctrl: Ctrl, c: Byte, next: Byte) returns (b: seq<Byte>)
    ensures b == QuotedChar(ctrl, c, next)
  {
    if c == QUOTE || c == BACKSLASH || c == NEWLINE {
      b := [BACKSLASH, c];
    } else if ctrl(c) {
      if !IsDigit(next) { b := [BACKSLASH] + Decimal(c); } else { b := [BACKSLASH] + Decimal3(c); }
    } else {
      b := [c];
    }
  }

  lemma AppendNext(head: seq<Byte>, b: seq<Byte>, q: seq<Byte>, rest: seq<Byte>, all: seq<Byte>)
    requires b + (q + rest) == head + all
    ensures (b + q) + rest == head + all
  {
    assert b + (q + rest) == (b + q) + rest;
  }

  method AddQuoted(ctrl: Ctrl, s: seq<Byte>) returns (b: seq<Byte>)
    ensures b == Quoted(ctrl, s)
  {
    hide QuotedChar, QuotedBody;
    b := [QUOTE];
    var i := 0;
    assert s[0..] == s;
    while i < |s|
      invariant 0 <= i <= |s| && b + QuotedBody(ctrl, s[i..]) == [QUOTE] + QuotedBody(ctrl, s)
    {
      BodyMore(ctrl, s, i);
      var q := AddChar(ctrl, s[i], if i + 1 < |s| then s[i + 1] else 0);
      AppendNext([QUOTE], b, q, QuotedBody(ctrl, s[i + 1..]), QuotedBody(ctrl, s));
      b := b + q;
      i := i + 1;
    }
    BodyNone(ctrl, s[i..]);
    assert b + [] == b;
    b := b + [QUOTE];
  }

  lemma BodyNone(ctrl: Ctrl, s: seq<Byte>)
    requires s == []
    ensures QuotedBody(ctrl, s) == []
  {
  }

  // ---- Reading ------------------------------------------------------------------------------------

  function Current(z: seq<Byte>, p: nat): int
  {
    if p < |z| then z[p] else EOZ
  }

  predicate IsNewline(c: int)
  {
    c == NEWLINE || c == CR
  }

  predicate IsHex(c: int)
  {
    IsDigit(c) || 65 <= c <= 70 || 97 <= c <= 102
  }

  function HexValue(c: int): (v: nat)
    requires IsHex(c)
    ensures v < 16
  {
    if IsDigit(c) then c - 48 else if c >= 97 then c - 97 + 10 else c - 65 + 10
  }

  predicate IsSpace(c: int)
  {
    c == 32 || 9 <= c <= 13
  }

  /** inclinenumber: the position after a newline, which may take two different characters. */
  function AfterNewline(z: seq<Byte>, p: nat): (q: nat)
    requires p < |z|
    ensures p < q <= |z|
  {
    if IsNewline(Current(z, p + 1)) && Current(z, p + 1) != z[p] then p + 2 else p + 1
  }

  /** readdecesc: up to 'n' more digits, after those that make 'r'. */
  function DecEscape(z: seq<Byte>, p: nat, n: nat, r: nat): (v: (nat, nat))
    requires p <= |z|
    ensures p <= v.1 <= |z|
    decreases n
  {
    if n > 0 && IsDigit(Current(z, p)) then DecEscape(z, p + 1, n - 1, 10 * r + (z[p] - 48)) else (r, p)
  }

  /** How many bytes a code takes, and what they are (luaO_utf8esc). */
  function Utf8Tail(x: nat, mfb: nat, tail: seq<Byte>): seq<Byte>
    requires x < 0x8000_0000 && mfb < 64
    decreases x
  {
    var t := [128 + x % 64] + tail;
    var x' := x / 64;
    var m := mfb / 2;
    if x' > m then Utf8Tail(x', m, t) else [(256 - 2 * (m + 1) + x') % 256] + t
  }

  function Utf8(x: nat): seq<Byte>
    requires x < 0x8000_0000
  {
    if x < 128 then [x] else Utf8Tail(x, 63, [])
  }

  datatype Error =
    | Unfinished | HexExpected | MissingOpen | MissingClose | CodeTooLarge | DecimalTooLarge | InvalidEscape

  /** What an escape sequence stands for, where it ends, and how many lines it goes over. */
  datatype Piece = Piece(bytes: seq<Byte>, pos: nat, lines: nat) | Bad(err: Error)

  /** readutf8esc after the first digit. */
  function CodeDigits(z: seq<Byte>, p: nat, r: nat): (e: Piece)
    requires p <= |z| && r < 0x8000_0000
    ensures e.Piece? ==> p < e.pos <= |z|
    decreases |z| - p
  {
    if IsHex(Current(z, p)) then
      if r <= 0x7FFF_FFFF / 16 then CodeDigits(z, p + 1, r * 16 + HexValue(z[p])) else Bad(CodeTooLarge)
    else if Current(z, p) == 125 then Piece(Utf8(r), p + 1, 0)
    else Bad(MissingClose)
  }

  /** '\z': the following spaces are skipped. */
  function SkipSpaces(z: seq<Byte>, p: nat): (r: (nat, nat))
    requires p <= |z|
    ensures p <= r.0 <= |z|
    decreases |z| - p
  {
    if IsSpace(Current(z, p)) then
      if IsNewline(z[p]) then (var r := SkipSpaces(z, AfterNewline(z, p)); (r.0, r.1 + 1)) else SkipSpaces(z, p + 1)
    else (p, 0)
  }

  /** The escape sequence after a backslash. */
  function Escape(z: seq<Byte>, p: nat): (e: Piece)
    requires p <= |z|
    ensures e.Piece? ==> p <= e.pos <= |z|
  {
    var c := Current(z, p);
    if c == 97 then Piece([7], p + 1, 0)
    else if c == 98 then Piece([8], p + 1, 0)
    else if c == 102 then Piece([12], p + 1, 0)
    else if c == 110 then Piece([10], p + 1, 0)
    else if c == 114 then Piece([13], p + 1, 0)
    else if c == 116 then Piece([9], p + 1, 0)
    else if c == 118 then Piece([11], p + 1, 0)
    else if c == 120 then
      if !IsHex(Current(z, p + 1)) then Bad(HexExpected)
      else if !IsHex(Current(z, p + 2)) then Bad(HexExpected)
      else Piece([HexValue(z[p + 1]) * 16 + HexValue(z[p + 2])], p + 3, 0)
    else if c == 117 then
      if Current(z, p + 1) != 123 then Bad(MissingOpen)
      else if !IsHex(Current(z, p + 2)) then Bad(HexExpected)
      else CodeDigits(z, p + 3, HexValue(z[p + 2]))
    else if IsNewline(c) then Piece([NEWLINE], AfterNewline(z, p), 1)
    else if c == BACKSLASH || c == QUOTE || c == 39 then Piece([z[p]], p + 1, 0)
    else if c == EOZ then Piece([], p, 0)
    else if c == 122 then (var r := SkipSpaces(z, p + 1); Piece([], r.0, r.1))
    else if !IsDigit(c) then Bad(InvalidEscape)
    else
      var v := DecEscape(z, p, 3, 0);
      if v.0 <= 255 then Piece([v.0], v.1, 0) else Bad(DecimalTooLarge)
  }

  function Add(b: seq<Byte>, lines: nat, r: Piece): Piece
  {
    if r.Piece? then Piece(b + r.bytes, r.pos, lines + r.lines) else r
  }

  /** read_string after the opening delimiter: the bytes of the string, and the position after the closing delimiter. */
  function StringFrom(z: seq<Byte>, p: nat, del: Byte): Piece
    requires p <= |z|
    decreases |z| - p
  {
    var c := Current(z, p);
    if c == del then Piece([], p + 1, 0)
    else if c == EOZ || IsNewline(c) then Bad(Unfinished)
    else if c == BACKSLASH then
      var e := Escape(z, p + 1);
      if e.Bad? then e else Add(e.bytes, e.lines, StringFrom(z, e.pos, del))
    else Add([z[p]], 0, StringFrom(z, p + 1, del))
  }

  // ---- The reader itself ---------------------------------------------------------------------------

  class LexState {
    const z: seq<Byte>
    var p: nat
    var buff: seq<Byte>
    var linenumber: nat

    ghost predicate Valid()
      reads this
    {
      p <= |z|
    }

    constructor (z: seq<Byte>, linenumber: nat)
      ensures Valid() && this.z == z && p == 0 && buff == [] && this.linenumber == linenumber
    {
      this.z, p, buff, this.linenumber := z, 0, [], linenumber;
    }

    method Next()
      requires Valid() && p < |z|
      modifies `p
      ensures Valid() && p == old(p) + 1
    {
      p := p + 1;
    }

    method SaveAndNext()
      requires Valid() && p < |z|
      modifies `p, `buff
      ensures Valid() && p == old(p) + 1 && buff == old(buff) + [z[old(p)]]
    {
      buff := buff + [z[p]];
      p := p + 1;
    }

    /** luaZ_buffremove */
    method BuffRemove(n: nat)
      requires n <= |buff|
      modifies `buff
      ensures buff == old(buff)[..|old(buff)| - n]
    {
      buff := buff[..|buff| - n];
    }

    method IncLineNumber()
      requires Valid() && IsNewline(Current(z, p))
      modifies `p, `linenumber
      ensures Valid() && p == AfterNewline(z, old(p)) && linenumber == old(linenumber) + 1
    {
      var was := Current(z, p);
      Next();
      if IsNewline(Current(z, p)) && Current(z, p) != was { Next(); }
      linenumber := linenumber + 1;
    }

    /** readdecesc */
    method ReadDecEsc() returns (r: nat)
      requires Valid()
      modifies `p, `buff
      ensures Valid() && (r, p) == DecEscape(z, old(p), 3, 0) && (r <= 255 ==> buff == old(buff))
    {
      var i := 0;
      r := 0;
      while i < 3 && IsDigit(Current(z, p))
        invariant 0 <= i <= 3 && Valid() && DecEscape(z, p, 3 - i, r) == DecEscape(z, old(p), 3, 0)
        invariant |buff| == |old(buff)| + i && buff[..|old(buff)|] == old(buff)
      {
        r := 10 * r + (z[p] - 48);
        SaveAndNext();
        i := i + 1;
      }
      if r <= 255 { BuffRemove(i); }
    }

    /** readhexaesc, up to the last digit, which is not skipped. */
    method ReadHexaEsc() returns (r: Piece)
      requires Valid() && Current(z, p) == 120
      modifies `p, `buff
      ensures Valid() && r == Escape(z, old(p))
      ensures (r.Piece? ==> p + 1 == r.pos && buff == old(buff) && r.lines == 0 && |r.bytes| == 1)
    {
      ghost var b0 := buff;
      SaveAndNext();
      if !IsHex(Current(z, p)) { return Bad(HexExpected); }
      var v := HexValue(Current(z, p));
      SaveAndNext();
      if !IsHex(Current(z, p)) { return Bad(HexExpected); }
      v := v * 16 + HexValue(Current(z, p));
      BuffRemove(2);
      return Piece([v], p + 1, 0);
    }

    /**
     readutf8esc and utf8esc: the bytes of the code go to the buffer, instead of the whole sequence and its backslash.
     */
    method Utf8Esc() returns (r: Piece)
      requires Valid() && Current(z, p) == 117 && buff != []
      modifies `p, `buff
      ensures Valid() && r == Escape(z, old(p))
      ensures r.Piece? ==> p == r.pos && buff == old(buff)[..|old(buff)| - 1] + r.bytes && r.lines == 0
    {
      ghost var b0, p0 := buff, p;
      var i := 4;
      SaveAndNext();
      if Current(z, p) != 123 { return Bad(MissingOpen); }
      SaveAndNext();
      if !IsHex(Current(z, p)) { return Bad(HexExpected); }
      var code: nat := HexValue(Current(z, p));
      SaveAndNext();
      while IsHex(Current(z, p))
        invariant Valid() && code < 0x8000_0000 && CodeDigits(z, p, code) == Escape(z, p0)
        invariant i >= 4 && |buff| == |b0| + i - 1 && buff[..|b0|] == b0
        decreases |z| - p
      {
        i := i + 1;
        if code > 0x7FFF_FFFF / 16 { return Bad(CodeTooLarge); }
        code := code * 16 + HexValue(Current(z, p));
        SaveAndNext();
      }
      if Current(z, p) != 125 { return Bad(MissingClose); }
      Next();
      BuffRemove(i);
      assert buff == b0[..|b0| - 1];
      buff := buff + Utf8(code);
      return Piece(Utf8(code), p, 0);
    }

    /** The loop for '\z'. */
    method ZapSpaces()
      requires Valid()
      modifies `p, `linenumber
      ensures Valid() && (p, linenumber - old(linenumber)) == SkipSpaces(z, old(p))
    {
      while IsSpace(Current(z, p))
        invariant Valid() && linenumber >= old(linenumber)
        invariant SkipSpaces(z, old(p)) == (SkipSpaces(z, p).0, SkipSpaces(z, p).1 + linenumber - old(linenumber))
        decreases |z| - p
      {
        if IsNewline(Current(z, p)) { IncLineNumber(); } else { Next(); }
      }
    }

    /** An escape sequence: the backslash was saved, and what the sequence stands for replaces it. */
    method ReadEscape() returns (r: Piece)
      requires Valid() && buff != []
      modifies `p, `buff, `linenumber
      ensures Valid() && r == Escape(z, old(p))
      ensures r.Piece? ==> p == r.pos && linenumber == old(linenumber) + r.lines
      ensures r.Piece? ==>
          buff == if Current(z, old(p)) == EOZ then old(buff) else old(buff)[..|old(buff)| - 1] + r.bytes
    {
      hide DecEscape, SkipSpaces, CodeDigits, Utf8, HexValue;
      ghost var b0 := buff;
      var c := Current(z, p);
      if c == 117 {
        r := Utf8Esc();
        return;
      } else if c == EOZ {
        return Piece([], p, 0);
      } else if c == 122 {
        BuffRemove(1);
        var l0 := linenumber;
        Next();
        ZapSpaces();
        return Piece([], p, linenumber - l0);
      } else if c == 120 {
        r := ReadHexaEsc();
        if r.Bad? { return; }
        Next();
      } else if IsNewline(c) {
        IncLineNumber();
        r := Piece([NEWLINE], p, 1);
      } else if Simple(c) >= 0 {
        Next();
        r := Piece([Simple(c)], p, 0);
      } else {
        if !IsDigit(c) { return Bad(InvalidEscape); }
        var v := ReadDecEsc();
        if v > 255 { return Bad(DecimalTooLarge); }
        r := Piece([v], p, 0);
      }
      BuffRemove(1);
      buff := buff + r.bytes;
    }

    /** read_string: the current character is the delimiter. */
    method ReadString(del: Byte) returns (r: Piece)
      requires Valid() && p < |z| && z[p] == del && del != BACKSLASH && !IsNewline(del)
      modifies this
      ensures Valid() && r == StringFrom(z, old(p) + 1, del)
      ensures r.Piece? ==> p == r.pos && linenumber == old(linenumber) + r.lines
    {
      hide Escape, StringFrom;
      var line0 := linenumber;
      buff := [];
      SaveAndNext();
      ghost var start := p;
      AddNone(StringFrom(z, p, del));
      AtEnd(z, p, del);
      while Current(z, p) != del
        invariant Valid() && linenumber >= line0 && buff != [] && buff[0] == del && start == old(p) + 1
        invariant if p == |z| then StringFrom(z, start, del) == Bad(Unfinished)
                  else Add(buff[1..], linenumber - line0, StringFrom(z, p, del)) == StringFrom(z, start, del)
        decreases |z| - p
      {
        if Current(z, p) == EOZ {
          return Bad(Unfinished);
        }
        StringStep(z, p, del);
        ghost var b0, p0, l0 := buff, p, linenumber;
        if IsNewline(Current(z, p)) {
          return Bad(Unfinished);
        } else if Current(z, p) == BACKSLASH {
          SaveAndNext();
          assert buff[..|buff| - 1] == b0;
          AtEnd(z, p0, del);
          CurrentIn(z, p0 + 1);
          var e := ReadEscape();
          if e.Bad? { return e; }
          AddAdd(b0[1..], l0 - line0, e.bytes, e.lines, StringFrom(z, p, del));
          assert p0 + 1 < |z| ==> buff == b0 + e.bytes && buff[1..] == b0[1..] + e.bytes;
        } else {
          SaveAndNext();
          AddAdd(b0[1..], l0 - line0, [z[p0]], 0, StringFrom(z, p, del));
          assert buff[1..] == b0[1..] + [z[p0]];
        }
        AtEnd(z, p, del);
      }
      StringEnd(z, p, del);
      ghost var b1 := buff;
      SaveAndNext();
      assert buff[1..|buff| - 1] == b1[1..];
      r := Piece(buff[1..|buff| - 1], p, linenumber - line0);
    }
  }

  /** Escape sequences of one character, and what they stand for. */
  function Simple(c: int): (r: int)
    ensures -1 <= r < 256
  {
    if c == 97 then 7 else if c == 98 then 8 else if c == 102 then 12 else if c == 110 then 10 else if c == 114 then 13
    else if c == 116 then 9 else if c == 118 then 11 else if c == BACKSLASH || c == QUOTE || c == 39 then c else -1
  }

  lemma AddNone(r: Piece)
    ensures Add([], 0, r) == r
  {
    if r.Piece? { assert [] + r.bytes == r.bytes; }
  }

  lemma AddAdd(b: seq<Byte>, l: nat, c: seq<Byte>, k: nat, r: Piece)
    ensures Add(b, l, Add(c, k, r)) == Add(b + c, l + k, r)
  {
    if r.Piece? { assert b + (c + r.bytes) == (b + c) + r.bytes; }
  }

  lemma CurrentIn(z: seq<Byte>, p: nat)
    ensures p < |z| ==> Current(z, p) != EOZ
  {
  }

  lemma AtEnd(z: seq<Byte>, p: nat, del: Byte)
    ensures p + 1 == |z| && z[p] == BACKSLASH && del != BACKSLASH ==> StringFrom(z, p, del) == Bad(Unfinished)
    ensures p == |z| ==> StringFrom(z, p, del) == Bad(Unfinished)
  {
  }

  lemma StringEnd(z: seq<Byte>, p: nat, del: Byte)
    requires p <= |z| && Current(z, p) == del
    ensures p < |z| && StringFrom(z, p, del) == Piece([], p + 1, 0)
  {
  }

  lemma StringStep(z: seq<Byte>, p: nat, del: Byte)
    requires p <= |z| && Current(z, p) != del
    ensures var c := Current(z, p);
            StringFrom(z, p, del) ==
            if c == EOZ || IsNewline(c) then Bad(Unfinished)
            else if c == BACKSLASH then (var e := Escape(z, p + 1);
                                         if e.Bad? then e else Add(e.bytes, e.lines, StringFrom(z, e.pos, del)))
            else Add([z[p]], 0, StringFrom(z, p + 1, del))
  {
    hide Escape;
  }

  // ---- The round trip ------------------------------------------------------------------------------------

  /** The digits of a numeral are read back as its number, up to three of them, when no other digit follows. */
  lemma DecimalBack(z: seq<Byte>, p: nat, c: Byte, short: bool)
    requires var d := if short then Decimal(c) else Decimal3(c); p + |d| <= |z| && z[p..p + |d|] == d
    requires short ==> !IsDigit(Current(z, p + |Decimal(c)|))
    ensures var d := if short then Decimal(c) else Decimal3(c); DecEscape(z, p, 3, 0) == (c, p + |d|)
  {
    var d := if short then Decimal(c) else Decimal3(c);
    assert forall i :: 0 <= i < |d| ==> z[p + i] == d[i];
    assert Current(z, p) == d[0];
    if |d| == 1 {
      assert DecEscape(z, p, 3, 0) == DecEscape(z, p + 1, 2, d[0] - 48);
    } else if |d| == 2 {
      assert Current(z, p + 1) == d[1];
      assert DecEscape(z, p, 3, 0) == DecEscape(z, p + 1, 2, d[0] - 48) == DecEscape(z, p + 2, 1,
              10 * (d[0] - 48) + (d[1] - 48));
    } else {
      assert Current(z, p + 1) == d[1] && Current(z, p + 2) == d[2];
      ThreeDigits(c);
      assert DecEscape(z, p, 3, 0) == DecEscape(z, p + 1, 2, d[0] - 48) == DecEscape(z, p + 2, 1,
              10 * (d[0] - 48) + (d[1] - 48))
          == DecEscape(z, p + 3, 0, 10 * (10 * (d[0] - 48) + (d[1] - 48)) + (d[2] - 48));
    }
  }

  lemma ThreeDigits(c: Byte)
    ensures 100 * (c / 100) + 10 * (c / 10 % 10) + c % 10 == c
  {
    assert c / 10 == 10 * (c / 10 / 10) + c / 10 % 10;
    assert c / 10 / 10 == c / 100;
  }

  /**
   The rest of a quoted string never begins with a digit that could join the escape before it, nor with the other half
   of a newline.
   */
  lemma FirstOfRest(ctrl: Ctrl, s: seq<Byte>)
    requires ctrl(CR)
    ensures var rest := QuotedBody(ctrl, s) + [QUOTE];
            && (!IsDigit(if s == [] then 0 else s[0]) ==> !IsDigit(rest[0])) && rest[0] != CR
  {
  }

  /** One character is read back from what was written for it. */
  lemma CharBack(ctrl: Ctrl, z: seq<Byte>, p: nat, s: seq<Byte>, post: seq<Byte>)
    requires ctrl(CR) && s != [] && p <= |z| && z[p..] == QuotedBody(ctrl, s) + [QUOTE] + post
    ensures var q := p + |QuotedChar(ctrl, s[0], Second(s))|;
            && q <= |z| && z[q..] == QuotedBody(ctrl, s[1..]) + [QUOTE] + post
            && var lines := if s[0] == NEWLINE then 1 else 0;
               StringFrom(z, p, QUOTE) == Add([s[0]], lines, StringFrom(z, q, QUOTE))
  {
    hide StringFrom, Escape, QuotedChar, QuotedBody, DecEscape, Current, Add, Second;
    BodySplit(ctrl, s, post);
    var c, next := s[0], Second(s);
    var w := QuotedChar(ctrl, c, next);
    var q := p + |w|;
    var rest := QuotedBody(ctrl, s[1..]) + [QUOTE] + post;
    SliceOf(z, p, w, rest);
    RestStarts(ctrl, z, q, s[1..], post);
    SecondIs(s);
    CharPiece(ctrl, z, p, c, next);
  }

  /** What comes after a character. */
  lemma RestStarts(ctrl: Ctrl, z: seq<Byte>, q: nat, s: seq<Byte>, post: seq<Byte>)
    requires ctrl(CR) && q <= |z| && z[q..] == QuotedBody(ctrl, s) + [QUOTE] + post
    ensures (!IsDigit(if s == [] then 0 else s[0]) ==> !IsDigit(Current(z, q))) && Current(z, q) != CR
  {
    FirstOfRest(ctrl, s);
    assert z[q..][0] == (QuotedBody(ctrl, s) + [QUOTE])[0];
    hide QuotedBody;
    assert Current(z, q) == z[q..][0];
  }

  lemma CharPiece(ctrl: Ctrl, z: seq<Byte>, p: nat, c: Byte, next: Byte)
    requires var w := QuotedChar(ctrl, c, next);
             && p + |w| <= |z| && z[p..p + |w|] == w && (forall i :: 0 <= i < |w| ==> z[p + i] == w[i])
             && (!IsDigit(next) ==> !IsDigit(Current(z, p + |w|))) && Current(z, p + |w|) != CR
    requires ctrl(CR)
    ensures StringFrom(z, p, QUOTE) == Add([c], if c == NEWLINE then 1 else 0,
                                           StringFrom(z, p + |QuotedChar(ctrl, c, next)|, QUOTE))
  {
    hide StringFrom, Escape, QuotedChar, DecEscape, Decimal, Decimal3, Add;
    QuotedCases(ctrl, c, next);
    var w := QuotedChar(ctrl, c, next);
    assert Current(z, p) == w[0] by { assert z[p + 0] == w[0]; }
    StringStep(z, p, QUOTE);
    if c == QUOTE || c == BACKSLASH || c == NEWLINE {
      assert z[p + 1] == w[1];
      EscapeOne(z, p, c);
    } else if ctrl(c) {
      EscapeDigits(z, p, c, !IsDigit(next));
    }
  }

  lemma BodySplit(ctrl: Ctrl, s: seq<Byte>, post: seq<Byte>)
    requires s != []
    ensures QuotedBody(ctrl, s) + [QUOTE] + post == QuotedChar(ctrl, s[0],
            Second(s)) + (QuotedBody(ctrl, s[1..]) + [QUOTE] + post)
  {
    hide QuotedChar;
  }

  lemma SecondIs(s: seq<Byte>)
    requires s != []
    ensures Second(s) == if s[1..] == [] then 0 else s[1..][0]
  {
  }

  lemma SliceOf(z: seq<Byte>, p: nat, w: seq<Byte>, rest: seq<Byte>)
    requires p <= |z| && z[p..] == w + rest
    ensures p + |w| <= |z| && z[p + |w|..] == rest && z[p..p + |w|] == w
    ensures forall i :: 0 <= i < |w| ==> z[p + i] == w[i]
  {
    assert |z| - p == |w| + |rest|;
    forall i | 0 <= i < |w| ensures z[p + i] == w[i] {
      assert z[p..][i] == w[i];
    }
    forall i | 0 <= i < |rest| ensures z[p + |w|..][i] == rest[i] {
      assert z[p..][|w| + i] == rest[i];
    }
  }

  lemma QuotedCases(ctrl: Ctrl, c: Byte, next: Byte)
    ensures QuotedChar(ctrl, c, next) ==
            if c == QUOTE || c == BACKSLASH || c == NEWLINE then [BACKSLASH, c]
            else if ctrl(c) then [BACKSLASH] + (if !IsDigit(next) then Decimal(c) else Decimal3(c))
            else [c]
  {
  }

  lemma EscapeOne(z: seq<Byte>, p: nat, c: Byte)
    requires p + 1 < |z| && z[p + 1] == c && (c == QUOTE || c == BACKSLASH || c == NEWLINE)
    requires c == NEWLINE ==> Current(z, p + 2) != CR
    ensures Escape(z, p + 1) == Piece([c], p + 2, if c == NEWLINE then 1 else 0)
  {
  }

  lemma EscapeDigits(z: seq<Byte>, p: nat, c: Byte, short: bool)
    requires var d := if short then Decimal(c) else Decimal3(c);
             p + 1 + |d| <= |z| && z[p..p + 1 + |d|] == [BACKSLASH] + d && (short ==> !IsDigit(Current(z, p + 1 + |d|)))
    ensures var d := if short then Decimal(c) else Decimal3(c); Escape(z, p + 1) == Piece([c], p + 1 + |d|, 0)
  {
    var d := if short then Decimal(c) else Decimal3(c);
    assert z[p + 1..p + 1 + |d|] == d by { assert z[p + 1..p + 1 + |d|] == z[p..p + 1 + |d|][1..]; }
    assert z[p + 1] == d[0] by { assert z[p + 1..p + 1 + |d|][0] == z[p + 1]; }
    DecimalBack(z, p + 1, c, short);
  }

  /** How many newlines a string has. */
  function Newlines(s: seq<Byte>): nat
  {
    if s == [] then 0 else (if s[0] == NEWLINE then 1 else 0) + Newlines(s[1..])
  }

  lemma {:induction false} BodyBack(ctrl: Ctrl, z: seq<Byte>, p: nat, s: seq<Byte>, post: seq<Byte>)
    requires ctrl(CR) && p <= |z| && z[p..] == QuotedBody(ctrl, s) + [QUOTE] + post
    ensures StringFrom(z, p, QUOTE) == Piece(s, p + |QuotedBody(ctrl, s)| + 1, Newlines(s))
    decreases |s|
  {
    hide StringFrom;
    if s == [] {
      assert z[p..][0] == QUOTE;
      assert Current(z, p) == z[p] == QUOTE;
      StringEnd(z, p, QUOTE);
    } else {
      CharBack(ctrl, z, p, s, post);
      var q := p + |QuotedChar(ctrl, s[0], Second(s))|;
      hide QuotedChar;
      BodyBack(ctrl, z, q, s[1..], post);
      assert s == [s[0]] + s[1..];
    }
  }

  /** Whatever comes after it, a quoted string is read back as the original one, line by line. */
  lemma QuoteRoundTrip(ctrl: Ctrl, s: seq<Byte>, post: seq<Byte>)
    requires ctrl(CR)
    ensures StringFrom(Quoted(ctrl, s) + post, 1, QUOTE) == Piece(s, |Quoted(ctrl, s)|, Newlines(s))
  {
    var z := Quoted(ctrl, s) + post;
    assert z[1..] == QuotedBody(ctrl, s) + [QUOTE] + post;
    BodyBack(ctrl, z, 1, s, post);
  }

  /** That needs a locale where the carriage return is a control character, and works for all strings exactly then. */
  lemma RoundTripIff(ctrl: Ctrl)
    ensures ctrl(CR) <==>
              forall s: seq<Byte> :: StringFrom(Quoted(ctrl, s), 1, QUOTE) == Piece(s, |Quoted(ctrl, s)|, Newlines(s))
  {
    if ctrl(CR) {
      forall s: seq<Byte> ensures StringFrom(Quoted(ctrl, s), 1, QUOTE) == Piece(s, |Quoted(ctrl, s)|, Newlines(s)) {
        QuoteRoundTrip(ctrl, s, []);
        assert Quoted(ctrl, s) + [] == Quoted(ctrl, s);
      }
    } else {
      var s: seq<Byte> := [CR];
      assert QuotedBody(ctrl, s) == [CR] + QuotedBody(ctrl, s[1..]);
      assert Quoted(ctrl, s) == [QUOTE, CR, QUOTE];
      assert StringFrom([QUOTE, CR, QUOTE], 1, QUOTE) == Bad(Unfinished);
      assert StringFrom(Quoted(ctrl, s), 1, QUOTE) != Piece(s, |Quoted(ctrl, s)|, Newlines(s));
    }
  }

  /** The whole way: written by addquoted, and read by read_string. */
  method QuoteAndRead(ctrl: Ctrl, s: seq<Byte>, post: seq<Byte>, line: nat) returns (back: Piece, endline: nat)
    requires ctrl(CR)
    ensures back == Piece(s, |Quoted(ctrl, s)|, Newlines(s)) && endline == line + Newlines(s)
  {
    var q := AddQuoted(ctrl, s);
    QuoteRoundTrip(ctrl, s, post);
    var ls := new LexState(q + post, line);
    back := ls.ReadString(QUOTE);
    endline := ls.linenumber;
  }
}
