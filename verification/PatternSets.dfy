/**
 What the items of a pattern match (lstrlib.c, "match_class", "matchbracketclass", "singlematch" and
 "classend"), for sets as they are written: from characters, ranges and classes.
 */
module PatternSets {
  import opened PatternWays

  // ---- Classes -------------------------------------------------------------------------------------

  /** The letters of the classes, and those of their complements. */
  const CLASSES := "acdglpsuwx"
  const COMPLEMENTS := "ACDGLPSUWX"

  /** A lower-case letter is a class, and the upper-case one everything else. */
  lemma ClassMeaning(g: Subject, c: char, i: nat)
    requires i < |CLASSES| == |COMPLEMENTS|
    ensures MatchClass(g, c, CLASSES[i]) <==> g.ctype(CLASSES[i], c)
    ensures MatchClass(g, c, COMPLEMENTS[i]) <==> !g.ctype(CLASSES[i], c)
  {
  }

  /** The class 'z' is the zero, and any other character after '%' stands for itself. */
  lemma OtherClasses(g: Subject, c: char, cl: char)
    ensures MatchClass(g, c, 'z') <==> c == '\0'
    ensures MatchClass(g, c, 'Z') <==> c != '\0'
    ensures cl !in CLASSES + COMPLEMENTS + "zZ" ==> (MatchClass(g, c, cl) <==> c == cl)
  {
    if ToLower(cl) in "acdglpsuwxz" && 'A' <= cl <= 'Z' {
      assert cl == (ToLower(cl) as int - 32) as char;
    }
  }

  // ---- Sets ----------------------------------------------------------------------------------------

  /** What a set may be made of: a character, a range, or '%' with a letter or any other character. */
  datatype Member = One(c: char) | Range(lo: char, hi: char) | Class(cl: char)

  function MemberText(m: Member): string
  {
    match m
    case One(c) => [c]
    case Range(lo, hi) => [lo, '-', hi]
    case Class(cl) => ['%', cl]
  }

  function SetText(ms: seq<Member>): string
  {
    if ms == [] then "" else MemberText(ms[0]) + SetText(ms[1..])
  }

  predicate Has(g: Subject, c: char, m: Member)
  {
    match m
    case One(d) => c == d
    case Range(lo, hi) => lo <= c <= hi
    case Class(cl) => MatchClass(g, c, cl)
  }

  ghost predicate SomeHas(g: Subject, c: char, ms: seq<Member>)
  {
    exists m :: m in ms && Has(g, c, m)
  }

  /** A '%' needs to be escaped, and a character before a '-' that is not the last one would begin a range. */
  predicate Readable(ms: seq<Member>)
  {
    ms == [] ||
    (&& (ms[0].One? ==> ms[0].c != L_ESC && !(|SetText(ms[1..])| > 1 && SetText(ms[1..])[0] == '-'))
     && (ms[0].Range? ==> ms[0].lo != L_ESC)
     && Readable(ms[1..]))
  }

  /** The text of a set, with its parts. */
  lemma TextAt(pat: string, q: nat, ec: nat, ms: seq<Member>)
    requires q <= ec <= |pat| && pat[q..ec] == SetText(ms) && ms != []
    ensures var n := |MemberText(ms[0])|;
            && 0 < n <= ec - q && pat[q + n..ec] == SetText(ms[1..])
            && forall i :: 0 <= i < n ==> pat[q + i] == MemberText(ms[0])[i]
  {
    var n, t := |MemberText(ms[0])|, MemberText(ms[0]);
    assert pat[q..ec] == t + SetText(ms[1..]);
    assert pat[q + n..ec] == pat[q..ec][n..];
    forall i | 0 <= i < n ensures pat[q + i] == t[i] {
      assert pat[q + i] == pat[q..ec][i];
    }
  }

  lemma SomeHasFirst(g: Subject, c: char, ms: seq<Member>)
    requires ms != []
    ensures SomeHas(g, c, ms) <==> Has(g, c, ms[0]) || SomeHas(g, c, ms[1..])
  {
    assert ms == [ms[0]] + ms[1..];
  }

  /** A set has a character exactly when one of its members does. */
  lemma {:induction false} SetHas(g: Subject, c: char, p: nat, ec: nat, ms: seq<Member>)
    requires p + 1 <= ec <= |g.pat| && g.pat[p + 1..ec] == SetText(ms) && Readable(ms)
    ensures InSet(g, c, p, ec) <==> SomeHas(g, c, ms)
    decreases |ms|
  {
    if ms != [] {
      TextAt(g.pat, p + 1, ec, ms);
      var m, n := ms[0], |MemberText(ms[0])|;
      SetHas(g, c, p + n, ec, ms[1..]);
      SomeHasFirst(g, c, ms);
      var rest := SetText(ms[1..]);
      assert g.pat[p + 1 + n..ec] == rest;
      match m {
        case One(d) =>
          assert g.pat[p + 1 + 0] == d;
          if |rest| > 1 { assert g.pat[p + 2] == g.pat[p + 1 + n..ec][0]; }
        case Range(lo, hi) =>
          assert g.pat[p + 1 + 0] == lo && g.pat[p + 1 + 1] == '-' && g.pat[p + 1 + 2] == hi;
        case Class(cl) =>
          assert g.pat[p + 1 + 0] == L_ESC && g.pat[p + 1 + 1] == cl;
      }
    }
  }

  function SetBody(neg: bool, ms: seq<Member>): string
  {
    (if neg then "^" else "") + SetText(ms)
  }

  /** Where the members begin. */
  lemma MembersAt(pat: string, p: nat, ec: nat, neg: bool, ms: seq<Member>)
    requires p + 1 <= ec <= |pat| && pat[p + 1..ec] == SetBody(neg, ms)
    ensures var q := if neg then p + 2 else p + 1; q <= ec && pat[q..ec] == SetText(ms)
    ensures neg ==> At(pat, p + 1) == '^'
    ensures !neg && ms != [] ==> p + 1 < ec && SetText(ms) != [] && At(pat, p + 1) == SetText(ms)[0]
  {
    var b := pat[p + 1..ec];
    if neg {
      assert pat[p + 1] == b[0] && pat[p + 2..ec] == b[1..];
    } else if ms != [] {
      assert b != [] && pat[p + 1] == b[0];
    }
  }

  /** A '^' at the beginning means the complement. */
  lemma BracketsHave(g: Subject, c: char, p: nat, ec: nat, neg: bool, ms: seq<Member>)
    requires p + 1 <= ec < |g.pat| && g.pat[p + 1..ec] == SetBody(neg, ms) && g.pat[ec] == ']' && Readable(ms)
    requires !neg && ms != [] ==> SetText(ms) != [] && SetText(ms)[0] != '^'
    ensures InBrackets(g, c, p, ec) <==> (SomeHas(g, c, ms) != neg)
  {
    MembersAt(g.pat, p, ec, neg, ms);
    hide SetText, Readable, SomeHas, InSet;
    SetHas(g, c, if neg then p + 1 else p, ec, ms);
    if !neg && ms == [] { assert SetText(ms) == "" by { NoText(); } }
  }

  lemma NoText()
    ensures SetText([]) == ""
  {
  }

  // ---- Where a set ends ----------------------------------------------------------------------------

  /** A ']' ends the set, but as its first character or after a '%'. */
  predicate Enclosed(ms: seq<Member>)
  {
    forall i :: 0 <= i < |ms| ==>
      && (ms[i].Range? ==> ms[i].hi != ']' && ms[i].hi != L_ESC && ms[i].lo != L_ESC)
      && (ms[i].One? ==> ms[i].c != L_ESC)
      && (i > 0 ==> MemberText(ms[i])[0] != ']')
  }

  lemma {:induction false} SetEndsAt(pat: string, q: nat, ec: nat, ms: seq<Member>)
    requires q <= ec < |pat| && pat[q..ec] == SetText(ms) && ms != [] && pat[ec] == ']' && Enclosed(ms)
    ensures SetEnd(pat, q) == End(ec + 1)
    decreases |ms|
  {
    TextAt(pat, q, ec, ms);
    var n := |MemberText(ms[0])|;
    var rest := ms[1..];
    assert forall i :: 0 <= i < |rest| ==> rest[i] == ms[i + 1];
    if rest == [] {
      assert q + n == ec;
    } else {
      TextAt(pat, q + n, ec, rest);
      SetEndsAt(pat, q + n, ec, rest);
      assert pat[q + n + 0] == MemberText(rest[0])[0] == MemberText(ms[1])[0];
    }
    assert pat[q + 0] == MemberText(ms[0])[0];
    match ms[0] {
      case One(_) =>
      case Range(lo, hi) =>
        assert pat[q + 1] == '-' && pat[q + 2] == hi;
        assert SetEnd(pat, q + 2) == End(ec + 1);
        assert SetEnd(pat, q + 1) == End(ec + 1);
      case Class(_) =>
    }
  }

  /** A set as it is written in a pattern ends with its ']', and matches what its members have, or do not have. */
  lemma SetMeaning(g: Subject, s: nat, p: nat, ec: nat, neg: bool, ms: seq<Member>)
    requires p + 1 <= ec < |g.pat| && g.pat[p] == '[' && g.pat[p + 1..ec] == SetBody(neg, ms) && g.pat[ec] == ']'
    requires ms != [] && Readable(ms) && Enclosed(ms) && (!neg ==> SetText(ms) != [] && SetText(ms)[0] != '^')
    ensures ClassEnd(g.pat, p) == End(ec + 1)
    ensures Single(g, s, p, ec + 1) <==> s < |g.src| && (SomeHas(g, g.src[s], ms) != neg)
  {
    MembersAt(g.pat, p, ec, neg, ms);
    hide SetText, Readable, Enclosed, SomeHas, InSet, SetEnd, InBrackets, SetBody;
    SetEndsAt(g.pat, if neg then p + 2 else p + 1, ec, ms);
    if s < |g.src| { BracketsHave(g, g.src[s], p, ec, neg, ms); }
  }

  /** '%f' matches between a character that the set does not have and one that it has; the ends count as zeros. */
  lemma FrontierMeaning(g: Subject, s: nat, p: nat, ec: nat, neg: bool, ms: seq<Member>)
    requires p + 1 <= ec < |g.pat| && g.pat[p + 1..ec] == SetBody(neg, ms) && g.pat[ec] == ']' && Readable(ms)
    requires !neg && ms != [] ==> SetText(ms) != [] && SetText(ms)[0] != '^'
    requires s <= |g.src|
    ensures Frontier(g, s, p, ec + 1) <==>
              && (SomeHas(g, if s == 0 then '\0' else g.src[s - 1], ms) == neg)
              && (SomeHas(g, if s == |g.src| then '\0' else g.src[s], ms) != neg)
  {
    BracketsHave(g, if s == 0 then '\0' else g.src[s - 1], p, ec, neg, ms);
    BracketsHave(g, if s == |g.src| then '\0' else g.src[s], p, ec, neg, ms);
    hide InBrackets, SetText, SomeHas, Readable, SetBody;
  }

  /** The other items: a '.' matches any character, '%' with a letter its class, and the rest itself. */
  lemma SingleMeaning(g: Subject, s: nat, p: nat)
    requires p < |g.pat|
    ensures g.pat[p] == '.' ==> (Single(g, s, p, p + 1) <==> s < |g.src|)
    ensures g.pat[p] == '%' && p + 1 < |g.pat| ==>
              (Single(g, s, p, p + 2) <==> s < |g.src| && MatchClass(g, g.src[s], g.pat[p + 1]))
    ensures g.pat[p] !in ".%[" ==> (Single(g, s, p, p + 1) <==> s < |g.src| && g.src[s] == g.pat[p])
  {
  }
}
