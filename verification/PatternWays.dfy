/**
 Patterns (lstrlib.c): what it means for a pattern to match, as the list of all ways to match it in
 the order in which they are tried.
 */
module PatternWays {
  const L_ESC: char := '%'
  const LUA_MAXCAPTURES: nat := 32

  /**
   isalpha and the others, which depend on the locale: the class of a letter, in lower case, has the character or not.
   */
  type CType = (char, char) -> bool

  /** The subject, the pattern and the character classes. */
  datatype Subject = Subject(src: string, pat: string, ctype: CType)

  datatype Len = Unfinished | Position | Closed(n: int)

  datatype Cap = Cap(init: nat, len: Len)

  datatype Error =
    | TooComplex | EndsWithEsc | MissingBracket | MissingArguments | MissingSet
    | InvalidIndex | InvalidCapture | TooManyCaptures

  /** The character at some position; strings end with a '\0'. */
  function At(s: string, i: nat): char
  {
    if i < |s| then s[i] else '\0'
  }

  // ---- Single characters ---------------------------------------------------------------------------

  function ToLower(c: char): char
  {
    if 'A' <= c <= 'Z' then (c as int + 32) as char else c
  }

  predicate IsClassLetter(c: char)
  {
    c in "acdglpsuwxz"
  }

  /** match_class: an upper-case letter means the opposite class. */
  predicate MatchClass(g: Subject, c: char, cl: char)
  {
    var l := ToLower(cl);
    if !IsClassLetter(l) then cl == c
    else (if l == 'z' then c == '\0' else g.ctype(l, c)) == (l == cl)
  }

  datatype End = End(ep: nat) | BadEnd(err: Error)

  /** Where a set that goes on at 'q' ends. */
  function SetEnd(pat: string, q: nat): (e: End)
    requires q <= |pat|
    ensures if e.End? then q < e.ep <= |pat| else e.err != TooComplex
    decreases |pat| - q
  {
    if q == |pat| then BadEnd(MissingBracket)
    else
      var q1 := if pat[q] == L_ESC && q + 1 < |pat| then q + 2 else q + 1;
      if At(pat, q1) == ']' then End(q1 + 1) else SetEnd(pat, q1)
  }

  /** classend: where the item that begins at 'p' ends. */
  function ClassEnd(pat: string, p: nat): (e: End)
    requires p < |pat|
    ensures if e.End? then p < e.ep <= |pat| else e.err != TooComplex
  {
    if pat[p] == L_ESC then (if p + 1 == |pat| then BadEnd(EndsWithEsc) else End(p + 2))
    else if pat[p] == '[' then SetEnd(pat, if At(pat, p + 1) == '^' then p + 2 else p + 1)
    else End(p + 1)
  }

  /** The set after position 'p', up to 'ec', has the character. */
  predicate InSet(g: Subject, c: char, p: nat, ec: nat)
    decreases ec - p
  {
    if p + 1 >= ec then false
    else if At(g.pat, p + 1) == L_ESC then MatchClass(g, c, At(g.pat, p + 2)) || InSet(g, c, p + 2, ec)
    else if At(g.pat, p + 2) == '-' && p + 3 < ec then
      At(g.pat, p + 1) <= c <= At(g.pat, p + 3) || InSet(g, c, p + 3, ec)
    else At(g.pat, p + 1) == c || InSet(g, c, p + 1, ec)
  }

  /** matchbracketclass: 'p' is at the '[' and 'ec' at the ']' */
  predicate InBrackets(g: Subject, c: char, p: nat, ec: nat)
  {
    if At(g.pat, p + 1) == '^' then !InSet(g, c, p + 1, ec) else InSet(g, c, p, ec)
  }

  /** singlematch */
  predicate Single(g: Subject, s: nat, p: nat, ep: nat)
  {
    s < |g.src| && ep > 0 &&
    match At(g.pat, p)
    case '.' => true
    case '%' => MatchClass(g, g.src[s], At(g.pat, p + 1))
    case '[' => InBrackets(g, g.src[s], p, ep - 1)
    case c => c == g.src[s]
  }

  /** The end of the longest run of characters that match the item. */
  function RunEnd(g: Subject, s: nat, p: nat, ep: nat): (e: nat)
    ensures s <= e && (s <= |g.src| ==> e <= |g.src|)
    ensures forall q :: s <= q < e ==> Single(g, q, p, ep)
    ensures !Single(g, e, p, ep)
    decreases |g.src| - s
  {
    if Single(g, s, p, ep) then RunEnd(g, s + 1, p, ep) else s
  }

  /** The position after the balanced string, where 'depth' more 'e' than 'b' are found first; none is found as 0. */
  function BalanceFrom(src: string, i: nat, b: char, e: char, depth: nat): (r: nat)
    requires depth > 0
    ensures r == 0 || i < r <= |src|
    decreases |src| - i
  {
    if i >= |src| then 0
    else if src[i] == e then (if depth == 1 then i + 1 else BalanceFrom(src, i + 1, b, e, depth - 1))
    else BalanceFrom(src, i + 1, b, e, if src[i] == b then depth + 1 else depth)
  }

  /** The excess of 'b' over 'e' in part of the subject. */
  function Excess(src: string, i: nat, j: nat, b: char, e: char): int
    requires i <= j <= |src|
    decreases j
  {
    if i == j then 0
    else Excess(src, i, j - 1, b, e) + (if src[j - 1] == e then -1 else if src[j - 1] == b then 1 else 0)
  }

  lemma {:induction false} ExcessSplit(src: string, i: nat, j: nat, b: char, e: char)
    requires i < j <= |src|
    ensures Excess(src, i, j, b, e) == (if src[i] == e then -1 else if src[i] == b then 1 else 0) + Excess(src, i + 1,
            j, b, e)
    decreases j
  {
    if j > i + 1 { ExcessSplit(src, i, j - 1, b, e); }
  }

  /** The balanced string ends at the first position where everything opened was closed. */
  lemma {:induction false} BalanceMeaning(src: string, i: nat, b: char, e: char, depth: nat)
    requires depth > 0 && i <= |src|
    ensures var r := BalanceFrom(src, i, b, e, depth);
            && (r > 0 ==> Excess(src, i, r, b, e) == 0 - depth && forall j :: i <= j < r ==>
                  Excess(src, i, j, b, e) > 0 - depth)
            && (r == 0 ==> forall j :: i <= j <= |src| ==> Excess(src, i, j, b, e) > 0 - depth)
    decreases |src| - i
  {
    if i < |src| && !(src[i] == e && depth == 1) {
      var d := if src[i] == e then depth - 1 else if src[i] == b then depth + 1 else depth;
      BalanceMeaning(src, i + 1, b, e, d);
      forall j | i < j <= |src| ensures Excess(src, i, j, b, e) == d - depth + Excess(src, i + 1, j, b, e) {
        ExcessSplit(src, i, j, b, e);
      }
    } else if i < |src| {
      ExcessSplit(src, i, i + 1, b, e);
    }
  }

  // ---- Captures ------------------------------------------------------------------------------------

  /** capture_to_close: the last capture not closed yet, or -1. */
  function ToClose(caps: seq<Cap>): (l: int)
    ensures -1 <= l < |caps| && (l >= 0 ==> caps[l].len == Unfinished)
    ensures forall k :: l < k < |caps| ==> caps[k].len != Unfinished
  {
    if caps == [] then -1
    else if caps[|caps| - 1].len == Unfinished then |caps| - 1
    else ToClose(caps[..|caps| - 1])
  }

  function CloseAt(caps: seq<Cap>, l: nat, s: nat): seq<Cap>
    requires l < |caps|
  {
    caps[l := Cap(caps[l].init, Closed(s - caps[l].init))]
  }

  /** check_capture: the index of the capture that a digit names, or -1. */
  function CaptureIndex(caps: seq<Cap>, digit: char): (l: int)
    requires '0' <= digit <= '9'
    ensures -1 <= l < |caps|
  {
    var l := digit as int - '1' as int;
    if l < 0 || l >= |caps| || caps[l].len == Unfinished then -1 else l
  }

  /** match_capture: the subject repeats the capture; the length of a position capture is too big for any subject. */
  predicate Repeats(src: string, s: nat, cap: Cap)
  {
    && cap.len.Closed? && cap.len.n >= 0 && s + cap.len.n <= |src| && cap.init + cap.len.n <= |src|
    && src[s..s + cap.len.n] == src[cap.init..cap.init + cap.len.n]
  }

  // ---- All the ways ---------------------------------------------------------------------------------

  /** One way to match: where it ends and what is captured.  Or an error on the way. */
  datatype Way = Way(e: nat, caps: seq<Cap>) | Bad(err: Error)

  /** %f: the previous character is not in the set and the next one is. */
  predicate Frontier(g: Subject, s: nat, p: nat, ep: nat)
    requires ep > 0
  {
    !InBrackets(g, if s == 0 then '\0' else At(g.src, s - 1), p, ep - 1) && InBrackets(g, At(g.src, s), p, ep - 1)
  }

  /** %b: where the balanced string ends, or 0. */
  function Balance(g: Subject, s: nat, p: nat): (r: nat)
    ensures r > 0 ==> s < r <= |g.src|
  {
    if At(g.src, s) != At(g.pat, p) then 0 else BalanceFrom(g.src, s + 1, At(g.pat, p), At(g.pat, p + 1), 1)
  }

  /** The ways to match the pattern from 'p' on with the subject from 's' on, in the order they are tried. */
  function Ways(g: Subject, s: nat, p: nat, caps: seq<Cap>): seq<Way>
    decreases |g.pat| - p, 1, 0
  {
    if p >= |g.pat| then [Way(s, caps)]
    else match g.pat[p]
      case '(' =>
        if At(g.pat, p + 1) == ')' then Open(g, s, p + 2, caps, Position) else Open(g, s, p + 1, caps, Unfinished)
      case ')' =>
        var l := ToClose(caps);
        if l < 0 then [Bad(InvalidCapture)] else Ways(g, s, p + 1, CloseAt(caps, l, s))
      case '$' =>
        if p + 1 == |g.pat| then (if s == |g.src| then [Way(s, caps)] else []) else ItemWays(g, s, p, caps)
      case '%' =>
        var c := At(g.pat, p + 1);
        if c == 'b' then
          if p + 3 >= |g.pat| then [Bad(MissingArguments)]
          else (var r := Balance(g, s, p + 2); if r > 0 then Ways(g, r, p + 4, caps) else [])
        else if c == 'f' then
          if At(g.pat, p + 2) != '[' then [Bad(MissingSet)]
          else (match ClassEnd(g.pat, p + 2)
                case BadEnd(err) => [Bad(err)]
                case End(ep) => if Frontier(g, s, p + 2, ep) then Ways(g, s, ep, caps) else [])
        else if '0' <= c <= '9' then
          var l := CaptureIndex(caps, c);
          if l < 0 then [Bad(InvalidIndex)]
          else if Repeats(g.src, s, caps[l]) then Ways(g, s + caps[l].len.n, p + 2, caps) else []
        else ItemWays(g, s, p, caps)
      case _ => ItemWays(g, s, p, caps)
  }

  /** A capture is opened. */
  function Open(g: Subject, s: nat, p: nat, caps: seq<Cap>, what: Len): seq<Way>
    requires p > 0
    decreases |g.pat| - p, 2, 0
  {
    if |caps| >= LUA_MAXCAPTURES then [Bad(TooManyCaptures)] else Ways(g, s, p, caps + [Cap(s, what)])
  }

  /** A single-character item, with its suffix: as many as possible first, or as few as possible. */
  function ItemWays(g: Subject, s: nat, p: nat, caps: seq<Cap>): seq<Way>
    requires p < |g.pat|
    decreases |g.pat| - p, 0, 0
  {
    match ClassEnd(g.pat, p)
    case BadEnd(err) => [Bad(err)]
    case End(ep) =>
      var last := RunEnd(g, s, p, ep);
      var once := if last > s then s + 1 else s;
      match At(g.pat, ep)
      case '?' => Greedy(g, ep + 1, caps, s, once)
      case '*' => Greedy(g, ep + 1, caps, s, last)
      case '+' => Greedy(g, ep + 1, caps, s + 1, last)
      case '-' => Lazy(g, ep + 1, caps, s, last)
      case _ => Greedy(g, ep, caps, s + 1, once)
  }

  /** What follows is matched from position 'hi', then from the one before, down to 'lo'. */
  function Greedy(g: Subject, next: nat, caps: seq<Cap>, lo: nat, hi: nat): seq<Way>
    decreases |g.pat| - next, 2, hi
  {
    if hi < lo then [] else Ways(g, hi, next, caps) + (if hi == lo then [] else Greedy(g, next, caps, lo, hi - 1))
  }

  /** What follows is matched from position 'lo', then from the one after, up to 'hi'. */
  function Lazy(g: Subject, next: nat, caps: seq<Cap>, lo: nat, hi: nat): seq<Way>
    decreases |g.pat| - next, 2, if hi >= lo then hi - lo + 1 else 0
  {
    if hi < lo then [] else Ways(g, lo, next, caps) + Lazy(g, next, caps, lo + 1, hi)
  }
}
