/**
 Searching and replacing with patterns (lstrlib.c, "str_find_aux", "gmatch", "str_gsub").
 */
module PatternFind {
  import opened PatternWays
  import opened Pattern

  // ---- Which matches there are, in whatever order ------------------------------------------------------

  /** Some position from 'lo' to 'hi' lets what follows match in way 'w'. */
  ghost predicate FromSome(g: Subject, next: nat, caps: seq<Cap>, lo: nat, hi: nat, w: Way)
  {
    exists q: nat :: lo <= q <= hi && w in Ways(g, q, next, caps)
  }

  lemma SomeSplit(g: Subject, next: nat, caps: seq<Cap>, lo: nat, hi: nat, w: Way)
    requires lo <= hi
    ensures FromSome(g, next, caps, lo, hi, w) <==>
              w in Ways(g, hi, next, caps) || (lo < hi && FromSome(g, next, caps, lo, hi - 1, w))
    ensures FromSome(g, next, caps, lo, hi, w) <==>
              w in Ways(g, lo, next, caps) || FromSome(g, next, caps, lo + 1, hi, w)
  {
    hide Ways;
  }

  lemma {:induction false} GreedyHas(g: Subject, next: nat, caps: seq<Cap>, lo: nat, hi: nat, w: Way)
    ensures w in Greedy(g, next, caps, lo, hi) <==> FromSome(g, next, caps, lo, hi, w)
    decreases hi
  {
    hide Ways, Greedy;
    if hi < lo {
      GreedyNone(g, next, caps, lo, hi);
    } else {
      hide FromSome;
      GreedySplit(g, next, caps, lo, hi);
      SomeSplit(g, next, caps, lo, hi, w);
      if lo < hi { GreedyHas(g, next, caps, lo, hi - 1, w); }
    }
  }

  lemma {:induction false} LazyHas(g: Subject, next: nat, caps: seq<Cap>, lo: nat, hi: nat, w: Way)
    ensures w in Lazy(g, next, caps, lo, hi) <==> FromSome(g, next, caps, lo, hi, w)
    decreases if hi >= lo then hi - lo + 1 else 0
  {
    if lo > hi {
      LazyEmpty(g, next, caps, lo, hi);
    } else {
      hide Ways, Lazy, FromSome;
      LazySplit(g, next, caps, lo, hi);
      SomeSplit(g, next, caps, lo, hi, w);
      LazyHas(g, next, caps, lo + 1, hi, w);
    }
  }

  lemma LazyEmpty(g: Subject, next: nat, caps: seq<Cap>, lo: nat, hi: nat)
    requires lo > hi
    ensures Lazy(g, next, caps, lo, hi) == []
  {
  }

  /**
   How many characters an item may take: its suffix only says how many, whatever the order in which they are tried.
   */
  predicate Allows(suffix: char, n: nat)
  {
    if suffix == '?' then n <= 1
    else if suffix == '*' || suffix == '-' then true
    else if suffix == '+' then n >= 1
    else n == 1
  }

  function AfterItem(g: Subject, ep: nat): nat
  {
    var c := At(g.pat, ep);
    if c == '?' || c == '*' || c == '+' || c == '-' then ep + 1 else ep
  }

  /** From 's' to 'q' all characters match the item, and there are as many as its suffix allows. */
  ghost predicate Takes(g: Subject, s: nat, q: nat, p: nat, ep: nat)
  {
    s <= q && (forall i :: s <= i < q ==> Single(g, i, p, ep)) && Allows(At(g.pat, ep), q - s)
  }

  /** An item may be followed from any position up to which it takes characters. */
  ghost predicate FromTaken(g: Subject, s: nat, p: nat, ep: nat, caps: seq<Cap>, w: Way)
  {
    exists q: nat :: Takes(g, s, q, p, ep) && w in Ways(g, q, AfterItem(g, ep), caps)
  }

  lemma TakesBetween(g: Subject, s: nat, p: nat, ep: nat, q: nat)
    ensures var last, c := RunEnd(g, s, p, ep), At(g.pat, ep);
            var once := if last > s then s + 1 else s;
            var lo := if c == '?' || c == '*' || c == '-' then s else s + 1;
            var hi := if c == '*' || c == '+' || c == '-' then last else once;
            Takes(g, s, q, p, ep) <==> lo <= q <= hi
  {
    var end := RunEnd(g, s, p, ep);
    assert !Single(g, end, p, ep);
  }

  lemma SameFrom(g: Subject, s: nat, p: nat, ep: nat, caps: seq<Cap>, w: Way, lo: nat, hi: nat)
    requires forall q: nat :: Takes(g, s, q, p, ep) <==> lo <= q <= hi
    ensures FromTaken(g, s, p, ep, caps, w) <==> FromSome(g, AfterItem(g, ep), caps, lo, hi, w)
  {
    hide Ways, Takes, AfterItem;
  }

  /** An item matches any number of characters that its suffix allows and that all match it, and nothing else. */
  lemma ItemHas(g: Subject, s: nat, p: nat, caps: seq<Cap>, w: Way)
    requires p < |g.pat| && ClassEnd(g.pat, p).End?
    ensures w in ItemWays(g, s, p, caps) <==> FromTaken(g, s, p, ClassEnd(g.pat, p).ep, caps, w)
  {
    hide Ways, Greedy, Lazy, Single, ItemWays, ClassEnd, Takes, Allows, RunEnd;
    ItemCases(g, s, p, caps);
    var ep := ClassEnd(g.pat, p).ep;
    var last, c := RunEnd(g, s, p, ep), At(g.pat, ep);
    var once := if last > s then s + 1 else s;
    var lo := if c == '?' || c == '*' || c == '-' then s else s + 1;
    var hi := if c == '*' || c == '+' || c == '-' then last else once;
    if c == '-' { LazyHas(g, ep + 1, caps, lo, hi, w); } else { GreedyHas(g, AfterItem(g, ep), caps, lo, hi, w); }
    assert w in ItemWays(g, s, p, caps) <==> FromSome(g, AfterItem(g, ep), caps, lo, hi, w);
    forall q: nat ensures Takes(g, s, q, p, ep) <==> lo <= q <= hi {
      TakesBetween(g, s, p, ep, q);
    }
    SameFrom(g, s, p, ep, caps, w, lo, hi);
  }

  // ---- Patterns with no special characters --------------------------------------------------------------

  const SPECIALS: string := "^$*+?.([%-"

  /** nospecials */
  predicate NoSpecials(pat: string)
  {
    forall i :: 0 <= i < |pat| ==> pat[i] !in SPECIALS
  }

  predicate OccursAt(src: string, pat: string, s: nat)
  {
    s + |pat| <= |src| && src[s..s + |pat|] == pat
  }

  lemma PlainItem(g: Subject, s: nat, p: nat, caps: seq<Cap>)
    requires p < |g.pat| && NoSpecials(g.pat)
    ensures ItemWays(g, s, p, caps) == if s < |g.src| && g.src[s] == g.pat[p] then Ways(g, s + 1, p + 1, caps) else []
  {
    hide Ways;
    var c := g.pat[p];
    assert c !in SPECIALS && ClassEnd(g.pat, p) == End(p + 1);
    assert At(g.pat, p + 1) !in "?*+-";
    assert Single(g, s, p, p + 1) == (s < |g.src| && g.src[s] == c);
    GreedyHere(g, p + 1, caps, s + 1);
  }

  lemma GreedyHere(g: Subject, next: nat, caps: seq<Cap>, s: nat)
    ensures Greedy(g, next, caps, s, s) == Ways(g, s, next, caps)
    ensures s > 0 ==> Greedy(g, next, caps, s, s - 1) == []
  {
  }

  lemma PlainStep(g: Subject, s: nat, p: nat, caps: seq<Cap>)
    requires p < |g.pat| && NoSpecials(g.pat) && g.pat[p] != ')'
    ensures Ways(g, s, p, caps) == if s < |g.src| && g.src[s] == g.pat[p] then Ways(g, s + 1, p + 1, caps) else []
  {
    assert g.pat[p] !in SPECIALS;
    assert Ways(g, s, p, caps) == ItemWays(g, s, p, caps);
    PlainItem(g, s, p, caps);
  }

  /** Such a pattern matches just where it occurs, if it has no ')' either. */
  lemma {:induction false} PlainWays(g: Subject, s: nat, p: nat, caps: seq<Cap>)
    requires p <= |g.pat| && s <= |g.src| && NoSpecials(g.pat) && ')' !in g.pat
    ensures Ways(g, s, p, caps) == if OccursAt(g.src, g.pat[p..], s) then [Way(s + |g.pat| - p, caps)] else []
    decreases |g.pat| - p
  {
    if p < |g.pat| {
      PlainStep(g, s, p, caps);
      if s < |g.src| { PlainWays(g, s + 1, p + 1, caps); }
      hide Ways, ItemWays, NoSpecials;
      OccursNext(g.src, g.pat[p..], s);
      assert g.pat[p..][1..] == g.pat[p + 1..];
    }
  }

  lemma OccursNext(src: string, pat: string, s: nat)
    requires pat != []
    ensures OccursAt(src, pat, s) <==> s < |src| && src[s] == pat[0] && OccursAt(src, pat[1..], s + 1)
  {
    if s + |pat| <= |src| {
      assert src[s..s + |pat|] == [src[s]] + src[s + 1..s + |pat|];
      assert pat == [pat[0]] + pat[1..];
    }
  }

  /** A ')' is not special for the plain search, but it is for the matcher: with it the two disagree. */
  lemma PlainParenthesis(ctype: CType)
    ensures NoSpecials(")") && OccursAt(")", ")", 0)
    ensures Ways(Subject(")", ")", ctype), 0, 0, []) == [Bad(InvalidCapture)]
  {
  }

  /** Where the first ')' is. */
  function FirstParen(pat: string): (j: nat)
    requires ')' in pat
    ensures j < |pat| && pat[j] == ')' && forall i :: 0 <= i < j ==> pat[i] != ')'
  {
    if pat[0] == ')' then 0 else 1 + FirstParen(pat[1..])
  }

  /** The matcher complains about the ')' wherever what comes before it occurs, and matches nowhere. */
  lemma {:induction false} ParenWays(g: Subject, s: nat, p: nat, j: nat)
    requires p <= j < |g.pat| && s <= |g.src| && NoSpecials(g.pat)
    requires g.pat[j] == ')' && forall i :: p <= i < j ==> g.pat[i] != ')'
    ensures Ways(g, s, p, []) == if OccursAt(g.src, g.pat[p..j], s) then [Bad(InvalidCapture)] else []
    decreases j - p
  {
    if p < j {
      PlainStep(g, s, p, []);
      if s < |g.src| { ParenWays(g, s + 1, p + 1, j); }
      hide Ways, ItemWays, NoSpecials;
      OccursNext(g.src, g.pat[p..j], s);
      assert g.pat[p..j][1..] == g.pat[p + 1..j];
    }
  }

  /** Nothing from 'init' on makes the matcher come to a ')'. */
  ghost predicate ReachesNoParen(src: string, pat: string, init: nat)
  {
    ')' in pat ==> forall k :: init <= k <= |src| ==> !OccursAt(src, pat[..FirstParen(pat)], k)
  }

  /** A plain search found the pattern first at 'q', or nowhere. */
  ghost predicate FirstAt(src: string, pat: string, init: nat, q: int)
  {
    if q < 0 then forall k :: init <= k ==> !OccursAt(src, pat, k)
    else init <= q && OccursAt(src, pat, q) && forall k :: init <= k < q ==> !OccursAt(src, pat, k)
  }

  /** lmemfind: the first occurrence. */
  method MemFind(s1: string, s2: string, init: nat) returns (r: int)
    requires init <= |s1|
    ensures FirstAt(s1, s2, init, r)
  {
    if |s2| == 0 { return init; }
    if |s2| > |s1| - init { return -1; }
    var q: nat := init;
    while q + |s2| <= |s1|
      invariant init <= q && forall k :: init <= k < q ==> !OccursAt(s1, s2, k)
    {
      if s1[q] == s2[0] {
        if s1[q + 1..q + |s2|] == s2[1..] {
          OccursTail(s1, s2, q);
          return q;
        }
      }
      OccursTail(s1, s2, q);
      q := q + 1;
    }
    return -1;
  }

  lemma OccursTail(s1: string, s2: string, q: nat)
    requires s2 != [] && q + |s2| <= |s1|
    ensures OccursAt(s1, s2, q) <==> s1[q] == s2[0] && s1[q + 1..q + |s2|] == s2[1..]
  {
    assert s1[q..q + |s2|] == [s1[q]] + s1[q + 1..q + |s2|];
    assert s2 == [s2[0]] + s2[1..];
  }

  // ---- str_find_aux ---------------------------------------------------------------------------------------

  datatype FindResult = Found(start: nat, e: nat, caps: seq<Cap>) | NotFound | Error(err: PatternWays.Error)

  /** The first position from which the pattern matches is found, with the first way to match there. */
  ghost predicate IsLeftmost(g: Subject, init: nat, anchor: bool, r: FindResult)
  {
    match r
    case Found(start, e, caps) =>
      && init <= start <= |g.src| && (anchor ==> start == init)
      && (forall q :: init <= q < start ==> Ways(g, q, 0, []) == [])
      && Ways(g, start, 0, []) != [] && Ways(g, start, 0, [])[0] == Way(e, caps)
    case NotFound => forall q :: init <= q <= (if anchor then init else |g.src|) ==> Ways(g, q, 0, []) == []
    case Error(err) =>
      exists start :: init <= start <= |g.src| && (anchor ==> start == init) && (forall q :: init <= q < start ==>
                                                                                   Ways(g, q, 0, []) == [])
                      && Ways(g, start, 0, []) != [] && Ways(g, start, 0, [])[0] == Bad(err)
  }

  /** The pattern without its anchor. */
  function Body(pat: string): string
  {
    if pat != [] && pat[0] == '^' then pat[1..] else pat
  }

  /** The search with a pattern. */
  method SearchPattern(src: string, pat: string, ctype: CType, init: nat) returns (r: FindResult)
    requires init <= |src|
    ensures r == Error(TooComplex) || IsLeftmost(Subject(src, Body(pat), ctype), init, pat != [] && pat[0] == '^', r)
    ensures |Body(pat)| < MAXCCALLS ==> r != Error(TooComplex)
  {
    hide Ways;
    var anchor := pat != [] && pat[0] == '^';
    var ms := new MatchState(src, Body(pat), ctype);
    var s1 := init;
    while true
      invariant init <= s1 <= |src| && (anchor ==> s1 == init)
      invariant ms.Valid() && ms.matchdepth == MAXCCALLS && fresh(ms) && fresh(ms.capture)
      invariant forall q :: init <= q < s1 ==> Ways(ms.g, q, 0, []) == []
      decreases |src| - s1
    {
      ms.level := 0;
      assert ms.Caps() == [];
      var res := ms.DoMatch(s1, 0);
      match res {
        case Match(e) => return Found(s1, e, ms.Caps());
        case Fails(err) => return Error(err);
        case NoMatch =>
      }
      if !(s1 < |src| && !anchor) { break; }
      s1 := s1 + 1;
    }
    return NotFound;
  }

  method HasNoSpecials(pat: string) returns (b: bool)
    ensures b == NoSpecials(pat)
  {
    var i := 0;
    while i < |pat|
      invariant 0 <= i <= |pat| && forall k :: 0 <= k < i ==> pat[k] !in SPECIALS
    {
      if pat[i] in SPECIALS { return false; }
      i := i + 1;
    }
    return true;
  }

  function PlainResult(pat: string, q: int): FindResult
  {
    if q < 0 then NotFound else Found(q, q + |pat|, [])
  }

  lemma PlainBody(pat: string)
    requires NoSpecials(pat)
    ensures Body(pat) == pat && !(pat != [] && pat[0] == '^')
  {
    assert pat != [] ==> pat[0] !in SPECIALS;
  }

  lemma PlainLeftmost(src: string, pat: string, ctype: CType, init: nat, q: int)
    requires init <= |src| && NoSpecials(pat) && ')' !in pat && FirstAt(src, pat, init, q)
    ensures IsLeftmost(Subject(src, pat, ctype), init, false, PlainResult(pat, q))
  {
    var g := Subject(src, pat, ctype);
    assert pat[0..] == pat;
    forall k: nat | k <= |src| ensures Ways(g, k, 0, []) == if OccursAt(src, pat, k) then [Way(k + |pat|, [])] else [] {
      PlainWays(g, k, 0, []);
    }
    hide Ways;
  }

  lemma ParenLeftmost(src: string, pat: string, ctype: CType, init: nat, q: int)
    requires init <= |src| && NoSpecials(pat) && ')' in pat && FirstAt(src, pat, init, q)
    ensures IsLeftmost(Subject(src, pat, ctype), init, false, PlainResult(pat, q)) <==> ReachesNoParen(src, pat, init)
  {
    var g, j := Subject(src, pat, ctype), FirstParen(pat);
    assert pat[0..j] == pat[..j];
    forall k: nat | k <= |src|
      ensures Ways(g, k, 0, []) == if OccursAt(src, pat[..j], k) then [Bad(InvalidCapture)] else []
    {
      ParenWays(g, k, 0, j);
    }
    hide Ways;
    forall k | init <= k && OccursAt(src, pat, k) ensures OccursAt(src, pat[..j], k) {
      assert src[k..k + j] == src[k..k + |pat|][..j];
    }
  }

  /**
   For a pattern without special characters, what the plain search finds is what the matcher would, just when no ')' is
   reached.
   */
  lemma PlainAgrees(src: string, pat: string, ctype: CType, init: nat, q: int)
    requires init <= |src| && NoSpecials(pat) && FirstAt(src, pat, init, q)
    ensures IsLeftmost(Subject(src, pat, ctype), init, false, PlainResult(pat, q)) <==> ReachesNoParen(src, pat, init)
  {
    if ')' in pat {
      ParenLeftmost(src, pat, ctype, init, q);
    } else {
      PlainLeftmost(src, pat, ctype, init, q);
    }
  }

  /**
   string.find: a plain search when that is asked for, or when the pattern has no special characters.
   The second case gives what the matcher would give, exactly unless the matcher would come to a ')'.
   */
  method StrFind(src: string, pat: string, ctype: CType, init: nat, plain: bool) returns (r: FindResult)
    requires init <= |src|
    ensures !plain && !NoSpecials(pat) ==>
              r == Error(TooComplex) || IsLeftmost(Subject(src, Body(pat), ctype), init, pat != [] && pat[0] == '^', r)
    ensures !plain && NoSpecials(pat) ==>
              (IsLeftmost(Subject(src, Body(pat), ctype), init, pat != [] && pat[0] == '^', r) <==>
                 ReachesNoParen(src, pat, init))
    ensures plain || NoSpecials(pat) ==>
              if r.Found?
              then r == Found(r.start, r.start + |pat|, []) && init <= r.start && OccursAt(src, pat, r.start)
                               && forall q :: init <= q < r.start ==> !OccursAt(src, pat, q)
              else r.NotFound? && forall q :: init <= q ==> !OccursAt(src, pat, q)
  {
    hide IsLeftmost, NoSpecials, OccursAt, Body, ReachesNoParen;
    var simple := HasNoSpecials(pat);
    if plain || simple {
      var q := MemFind(src, pat, init);
      r := if q < 0 then NotFound else Found(q, q + |pat|, []);
      if simple {
        PlainBody(pat);
        PlainAgrees(src, pat, ctype, init, q);
      }
    } else {
      r := SearchPattern(src, pat, ctype, init);
    }
  }

  // ---- gsub -------------------------------------------------------------------------------------------------

  /** What gsub makes of the subject: characters kept, matches, and maybe an error. */
  datatype Piece = Kept(at: nat) | Matched(start: nat, e: nat, caps: seq<Cap>) | Stopped(err: PatternWays.Error)

  /** There is a match here, and not the empty one where the last match ended. */
  ghost predicate NewMatch(g: Subject, s: nat, last: int)
  {
    var ways := Ways(g, s, 0, []);
    ways != [] && ways[0].Way? && ways[0].e != last && s <= ways[0].e <= |g.src|
  }

  ghost predicate Fails0(g: Subject, s: nat)
  {
    var ways := Ways(g, s, 0, []);
    ways != [] && ways[0].Bad?
  }

  /** The pieces from position 's' on; 'last' is where the last match ended, or -1. */
  ghost function Pieces(g: Subject, s: nat, last: int, n: int, anchor: bool): seq<Piece>
    requires s <= |g.src|
    decreases |g.src| - s, if last == s then 0 else 1
  {
    if n <= 0 then []
    else if Fails0(g, s) then [Stopped(Ways(g, s, 0, [])[0].err)]
    else if NewMatch(g, s, last) then
      var w := Ways(g, s, 0, [])[0];
      [Matched(s, w.e, w.caps)] + (if anchor then [] else Pieces(g, w.e, w.e, n - 1, anchor))
    else if s < |g.src| then [Kept(s)] + (if anchor then [] else Pieces(g, s + 1, last, n, anchor))
    else []
  }

  /** The part of the subject of a piece. */
  function Original(src: string, p: Piece): string
  {
    match p
    case Kept(at) => if at < |src| then [src[at]] else []
    case Matched(start, e, _) => if start <= e <= |src| then src[start..e] else []
    case Stopped(_) => []
  }

  function Joined(src: string, ps: seq<Piece>): string
  {
    if ps == [] then [] else Original(src, ps[0]) + Joined(src, ps[1..])
  }

  /** Where the last of the pieces ends. */
  function EndOf(ps: seq<Piece>, s: nat): nat
  {
    if ps == [] then s
    else EndOf(ps[1..], match ps[0] case Kept(at) => at + 1 case Matched(_, e, _) => e case Stopped(_) => s)
  }

  function Count(ps: seq<Piece>): nat
  {
    if ps == [] then 0 else (if ps[0].Matched? then 1 else 0) + Count(ps[1..])
  }

  /** The pieces are a partition of the subject from 's' on, with at most 'n' matches. */
  ghost predicate Tile(src: string, s: nat, ps: seq<Piece>, n: int)
  {
    s <= EndOf(ps, s) <= |src| && Joined(src, ps) == src[s..EndOf(ps, s)] && (n >= 0 ==> Count(ps) <= n)
  }

  lemma TileCons(src: string, s: nat, p: Piece, e: nat, ps: seq<Piece>, n: int)
    requires s <= e <= |src| && Tile(src, e, ps, if p.Matched? then n - 1 else n) && n > 0
    requires (p == Kept(s) && e == s + 1) || (p.Matched? && p.start == s && p.e == e)
    ensures Tile(src, s, [p] + ps, n)
  {
    var all := [p] + ps;
    assert all[1..] == ps;
    assert src[s..EndOf(all, s)] == src[s..e] + src[e..EndOf(ps, e)];
  }

  lemma TileNone(src: string, s: nat, n: int)
    requires s <= |src|
    ensures Tile(src, s, [], n)
  {
  }

  lemma TileStopped(src: string, s: nat, err: PatternWays.Error, n: int)
    requires s <= |src|
    ensures Tile(src, s, [Stopped(err)], n)
  {
  }

  /** The pieces of gsub are a partition of the first part of the subject, and no more than 'n' of them are matches. */
  lemma {:induction false} PiecesTile(g: Subject, s: nat, last: int, n: int, anchor: bool)
    requires s <= |g.src|
    ensures Tile(g.src, s, Pieces(g, s, last, n, anchor), n)
    decreases |g.src| - s, if last == s then 0 else 1
  {
    hide Ways, Tile;
    TileNone(g.src, s, n);
    if n > 0 && !Fails0(g, s) {
      if NewMatch(g, s, last) {
        var w := Ways(g, s, 0, [])[0];
        var rest := if anchor then [] else Pieces(g, w.e, w.e, n - 1, anchor);
        if anchor { TileNone(g.src, w.e, n - 1); } else { PiecesTile(g, w.e, w.e, n - 1, anchor); }
        TileCons(g.src, s, Matched(s, w.e, w.caps), w.e, rest, n);
      } else if s < |g.src| {
        var rest := if anchor then [] else Pieces(g, s + 1, last, n, anchor);
        if anchor { TileNone(g.src, s + 1, n); } else { PiecesTile(g, s + 1, last, n, anchor); }
        TileCons(g.src, s, Kept(s), s + 1, rest, n);
      }
    } else if n > 0 {
      TileStopped(g.src, s, Ways(g, s, 0, [])[0].err, n);
    }
  }

  /** What a replacement gives: a text, or nothing, which keeps the match; it may raise an error. */
  datatype Repl = Text(t: string) | Keep | Raises

  type Replacer = (nat, nat, seq<Cap>) -> Repl

  function Shown(src: string, repl: Replacer, p: Piece): string
  {
    if p.Matched? && repl(p.start, p.e, p.caps).Text? then repl(p.start, p.e, p.caps).t else Original(src, p)
  }

  /** The text with the replacements. */
  function Replaced(src: string, repl: Replacer, ps: seq<Piece>): string
  {
    if ps == [] then [] else Shown(src, repl, ps[0]) + Replaced(src, repl, ps[1..])
  }

  /** Replacements that keep every match keep the text. */
  lemma {:induction false} KeepsText(src: string, repl: Replacer, ps: seq<Piece>)
    requires forall p :: p in ps ==> Shown(src, repl, p) == Original(src, p)
    ensures Replaced(src, repl, ps) == Joined(src, ps)
  {
    if ps != [] {
      assert ps[0] in ps;
      assert forall p :: p in ps[1..] ==> p in ps;
      KeepsText(src, repl, ps[1..]);
    }
  }

  datatype GsubResult = Result(text: string, n: nat) | GsubFails

  lemma {:induction false} ReplacedMore(src: string, repl: Replacer, ps: seq<Piece>, p: Piece)
    ensures Replaced(src, repl, ps + [p]) == Replaced(src, repl, ps) + Shown(src, repl, p)
    decreases |ps|
  {
    hide Shown;
    if ps == [] {
      assert [p][1..] == [];
    } else {
      assert (ps + [p])[1..] == ps[1..] + [p];
      ReplacedMore(src, repl, ps[1..], p);
    }
  }

  lemma {:induction false} CountMore(ps: seq<Piece>, p: Piece)
    ensures Count(ps + [p]) == Count(ps) + if p.Matched? then 1 else 0
    decreases |ps|
  {
    if ps == [] {
      assert [p][1..] == [];
    } else {
      assert (ps + [p])[1..] == ps[1..] + [p];
      CountMore(ps[1..], p);
    }
  }

  /** The state of gsub: the pieces so far, and those to come, are all the pieces. */
  ghost predicate Halfway(g: Subject, all: seq<Piece>, done: seq<Piece>, s: nat, last: int, n: int, anchor: bool)
  {
    s <= |g.src| && all == done + Pieces(g, s, last, n, anchor)
  }

  lemma HalfwayNext(g: Subject, all: seq<Piece>, done: seq<Piece>, s: nat, last: int, n: int, anchor: bool)
    requires Halfway(g, all, done, s, last, n, anchor) && n > 0 && !Fails0(g, s)
    ensures NewMatch(g, s, last) ==>
              var w := Ways(g, s, 0, [])[0]; var p := Matched(s, w.e, w.caps);
              if anchor then all == done + [p] else Halfway(g, all, done + [p], w.e, w.e, n - 1, anchor)
    ensures !NewMatch(g, s, last) && s < |g.src| ==>
              if anchor then all == done + [Kept(s)] else Halfway(g, all, done + [Kept(s)], s + 1, last, n, anchor)
    ensures !NewMatch(g, s, last) && s == |g.src| ==> all == done
  {
    hide Ways;
    assert anchor && NewMatch(g, s, last) ==>
        Pieces(g, s, last, n, anchor) == [Matched(s, Ways(g, s, 0, [])[0].e, Ways(g, s, 0, [])[0].caps)];
  }

  lemma {:induction false} EndMore(ps: seq<Piece>, p: Piece, s: nat)
    requires !p.Stopped?
    ensures EndOf(ps + [p], s) == if p.Kept? then p.at + 1 else p.e
    decreases |ps|
  {
    if ps == [] {
      assert [p][1..] == [];
    } else {
      assert (ps + [p])[1..] == ps[1..] + [p];
      EndMore(ps[1..], p, match ps[0] case Kept(at) => at + 1 case Matched(_, e, _) => e case Stopped(_) => s);
    }
  }

  /** What gsub has so far: the text of the pieces done, and how many were matches. */
  ghost predicate SoFar(src: string, repl: Replacer, done: seq<Piece>, s: nat, buffer: string, n: nat, changed: bool)
  {
    && s == EndOf(done, 0) && buffer == Replaced(src, repl, done) && n == Count(done)
    && (!changed ==> forall p :: p in done ==> Shown(src, repl, p) == Original(src, p))
    && (forall p :: p in done ==> !p.Stopped? && (p.Matched? ==> !repl(p.start, p.e, p.caps).Raises?))
  }

  lemma SoFarNext(src: string, repl: Replacer, done: seq<Piece>, s: nat, buffer: string, n: nat, changed: bool,
          p: Piece)
    requires SoFar(src, repl, done, s, buffer, n, changed) && !p.Stopped?
    requires (p.Matched? ==> !repl(p.start, p.e, p.caps).Raises?)
    ensures SoFar(src, repl, done + [p], if p.Kept? then p.at + 1 else p.e, buffer + Shown(src, repl, p),
                  n + (if p.Matched? then 1 else 0),
                  changed || (p.Matched? && repl(p.start, p.e, p.caps).Text?))
  {
    ReplacedMore(src, repl, done, p);
    CountMore(done, p);
    EndMore(done, p, 0);
  }

  /** What the result of gsub is. */
  ghost predicate IsGsub(g: Subject, repl: Replacer, ps: seq<Piece>, r: GsubResult)
  {
    r.Result? ==>
      && (forall p :: p in ps ==> !p.Stopped? && (p.Matched? ==> !repl(p.start, p.e, p.caps).Raises?))
      && EndOf(ps, 0) <= |g.src| && r.text == Replaced(g.src, repl, ps) + g.src[EndOf(ps, 0)..] && r.n == Count(ps)
  }

  lemma GsubDone(g: Subject, repl: Replacer, ps: seq<Piece>, s: nat, buffer: string, n: nat, changed: bool, max: int,
          anchor: bool)
    requires SoFar(g.src, repl, ps, s, buffer, n, changed) && ps == Pieces(g, 0, -1, max, anchor)
    ensures s <= |g.src| && IsGsub(g, repl, ps, Result(if changed then buffer + g.src[s..] else g.src, n))
  {
    hide Pieces, Replaced, Count, Shown, Original, Joined, Tile;
    PiecesTile(g, 0, -1, max, anchor);
    TileText(g.src, ps, max);
    if !changed {
      KeepsText(g.src, repl, ps);
      assert g.src == g.src[..s] + g.src[s..];
    }
  }

  lemma TileText(src: string, ps: seq<Piece>, n: int)
    requires Tile(src, 0, ps, n)
    ensures EndOf(ps, 0) <= |src| && Joined(src, ps) == src[..EndOf(ps, 0)]
  {
  }

  lemma FirstMatch(g: Subject, s: nat, res: Pattern.Result, caps: seq<Cap>, depth: int, short: bool)
    requires Done(g, res, Ways(g, s, 0, []), [], MAXCCALLS, caps, depth, short)
    ensures res.Fails? && res.err != TooComplex ==> Fails0(g, s)
    ensures !res.Fails? ==> !Fails0(g, s) && depth == MAXCCALLS
    ensures res.Match? ==> Ways(g, s, 0, []) != [] && Ways(g, s, 0, [])[0] == Way(res.e, caps) && res.e <= |g.src|
    ensures res == NoMatch ==> Ways(g, s, 0, []) == []
  {
    hide Ways;
  }

  /** Ways only end at or after where they begin. */
  lemma {:induction false} WaysForward(g: Subject, s: nat, p: nat, caps: seq<Cap>, w: Way)
    requires w in Ways(g, s, p, caps) && w.Way?
    ensures s <= w.e
    decreases |g.pat| - p, 1
  {
    if p < |g.pat| {
      WaysCases(g, s, p, caps);
      if g.pat[p] == '(' {
        OpenForward(g, s, if At(g.pat, p + 1) == ')' then p + 2 else p + 1, caps, if At(g.pat,
                p + 1) == ')' then Position else Unfinished, w);
      } else if g.pat[p] == ')' {
        WaysForward(g, s, p + 1, CloseAt(caps, ToClose(caps), s), w);
      } else if g.pat[p] == '$' && p + 1 == |g.pat| {
      } else if g.pat[p] == '%' && At(g.pat, p + 1) == 'b' {
        WaysForward(g, Balance(g, s, p + 2), p + 4, caps, w);
      } else if g.pat[p] == '%' && At(g.pat, p + 1) == 'f' {
        WaysForward(g, s, ClassEnd(g.pat, p + 2).ep, caps, w);
      } else if g.pat[p] == '%' && '0' <= At(g.pat, p + 1) <= '9' {
        WaysForward(g, s + caps[CaptureIndex(caps, At(g.pat, p + 1))].len.n, p + 2, caps, w);
      } else {
        hide Ways, ItemWays;
        ItemCases(g, s, p, caps);
        ItemHas(g, s, p, caps, w);
        var ep := ClassEnd(g.pat, p).ep;
        var q: nat :| Takes(g, s, q, p, ep) && w in Ways(g, q, AfterItem(g, ep), caps);
        WaysForward(g, q, AfterItem(g, ep), caps, w);
      }
    }
  }

  lemma OpenForward(g: Subject, s: nat, p: nat, caps: seq<Cap>, what: Len, w: Way)
    requires p > 0 && w in Open(g, s, p, caps, what) && w.Way?
    ensures s <= w.e
    decreases |g.pat| - p, 2
  {
    if |caps| < LUA_MAXCAPTURES { WaysForward(g, s, p, caps + [Cap(s, what)], w); }
  }

  lemma FailsOk(g: Subject, repl: Replacer, ps: seq<Piece>)
    ensures IsGsub(g, repl, ps, GsubFails)
  {
  }

  lemma IsNew(g: Subject, s: nat, last: int, res: Pattern.Result, caps: seq<Cap>)
    requires res.Match? ==> Ways(g, s, 0, []) != [] && Ways(g, s, 0, [])[0] == Way(res.e, caps) && res.e <= |g.src|
    requires res == NoMatch ==> Ways(g, s, 0, []) == []
    requires !res.Fails?
    ensures NewMatch(g, s, last) <==> res.Match? && res.e != last
    ensures res.Match? ==> s <= res.e
  {
    hide Ways;
    if res.Match? { WaysForward(g, s, 0, [], Ways(g, s, 0, [])[0]); }
  }

  lemma GsubStart(g: Subject, repl: Replacer, max: int, anchor: bool)
    ensures Halfway(g, Pieces(g, 0, -1, max, anchor), [], 0, -1, max, anchor) && SoFar(g.src, repl, [], 0, [], 0, false)
  {
    hide Pieces;
  }

  lemma NoMore(g: Subject, all: seq<Piece>, done: seq<Piece>, s: nat, last: int, n: int, anchor: bool)
    requires Halfway(g, all, done, s, last, n, anchor) && n <= 0
    ensures all == done
  {
  }

  /** string.gsub */
  method Gsub(src: string, pat: string, ctype: CType, repl: Replacer, max: int) returns (r: GsubResult)
    ensures IsGsub(Subject(src, Body(pat), ctype), repl,
                   Pieces(Subject(src, Body(pat), ctype), 0, -1, max, pat != [] && pat[0] == '^'), r)
  {
    hide Ways, Pieces, IsGsub, SoFar, Halfway, NewMatch, Done, Fails0;
    var anchor := pat != [] && pat[0] == '^';
    var ms := new MatchState(src, Body(pat), ctype);
    var s: nat, lastmatch: int, n: nat, changed, buffer := 0, -1, 0, false, [];
    ghost var g, done := ms.g, [];
    ghost var all := Pieces(g, 0, -1, max, anchor);
    GsubStart(g, repl, max, anchor);
    while n < max
      invariant ms.Valid() && ms.matchdepth == MAXCCALLS && fresh(ms) && fresh(ms.capture) && ms.g == g
      invariant s <= |src| && Halfway(g, all, done, s, lastmatch, max - n, anchor)
      invariant SoFar(src, repl, done, s, buffer, n, changed)
      decreases |src| - s, if lastmatch == s then 0 else 1
    {
      ms.level := 0;
      assert ms.Caps() == [];
      var res := ms.DoMatch(s, 0);
      FirstMatch(g, s, res, ms.Caps(), ms.matchdepth, |g.pat| < MAXCCALLS);
      if res.Fails? { FailsOk(g, repl, all); return GsubFails; }
      HalfwayNext(g, all, done, s, lastmatch, max - n, anchor);
      IsNew(g, s, lastmatch, res, ms.Caps());
      if res.Match? && res.e != lastmatch {
        var value := repl(s, res.e, ms.Caps());
        if value.Raises? { FailsOk(g, repl, all); return GsubFails; }
        ghost var p := Matched(s, res.e, ms.Caps());
        SoFarNext(src, repl, done, s, buffer, n, changed, p);
        n := n + 1;
        buffer := buffer + if value.Text? then value.t else src[s..res.e];
        changed := value.Text? || changed;
        s, lastmatch := res.e, res.e;
        done := done + [p];
      } else if s < |src| {
        SoFarNext(src, repl, done, s, buffer, n, changed, Kept(s));
        buffer := buffer + [src[s]];
        done := done + [Kept(s)];
        s := s + 1;
      } else {
        break;
      }
      if anchor { break; }
    }
    if n >= max && all != done { NoMore(g, all, done, s, lastmatch, max - n, anchor); }
    GsubDone(g, repl, all, s, buffer, n, changed, max, anchor);
    r := Result(if changed then buffer + src[s..] else src, n);
  }

  // ---- gmatch -----------------------------------------------------------------------------------------------

  /** The pieces up to the next match. */
  ghost function UpToNext(g: Subject, s: nat, last: int): seq<Piece>
    requires s <= |g.src|
  {
    Pieces(g, s, last, 1, false)
  }

  ghost predicate EndsInMatch(ps: seq<Piece>)
  {
    ps != [] && ps[|ps| - 1].Matched?
  }

  /** gsub replaces the matches that gmatch finds, one after the other. */
  lemma {:induction false} PiecesByMatch(g: Subject, s: nat, last: int, n: nat)
    requires s <= |g.src| && n > 0
    ensures var ps := UpToNext(g, s, last);
            if EndsInMatch(ps) then
              ps[|ps| - 1].e <= |g.src| &&
              Pieces(g, s, last, n, false) == ps + Pieces(g, ps[|ps| - 1].e, ps[|ps| - 1].e, n - 1, false)
            else Pieces(g, s, last, n, false) == ps
    decreases |g.src| - s
  {
    hide Ways, NewMatch, Fails0;
    if Fails0(g, s) {
    } else if NewMatch(g, s, last) {
      NewMatchEnd(g, s, last);
      var w := Ways(g, s, 0, [])[0];
      assert UpToNext(g, s, last) == [Matched(s, w.e, w.caps)] + Pieces(g, w.e, w.e, 0, false);
    } else if s < |g.src| {
      PiecesByMatch(g, s + 1, last, n);
      var ps := UpToNext(g, s + 1, last);
      assert UpToNext(g, s, last) == [Kept(s)] + ps;
      assert Pieces(g, s, last, n, false) == [Kept(s)] + Pieces(g, s + 1, last, n, false);
      if EndsInMatch(ps) {
        assert ([Kept(s)] + ps)[|ps|] == ps[|ps| - 1];
        var e := ps[|ps| - 1].e;
        KeptFirst(s, ps, Pieces(g, e, e, n - 1, false));
      } else if ps != [] {
        assert ([Kept(s)] + ps)[|ps|] == ps[|ps| - 1];
      }
    }
  }

  lemma NewMatchEnd(g: Subject, s: nat, last: int)
    requires NewMatch(g, s, last)
    ensures var ways := Ways(g, s, 0, []); ways != [] && ways[0].Way? && s <= ways[0].e <= |g.src|
  {
  }

  lemma KeptFirst(s: nat, a: seq<Piece>, b: seq<Piece>)
    ensures [Kept(s)] + (a + b) == ([Kept(s)] + a) + b
  {
  }

  /** An iteration over all matches. */
  class GMatchState {
    const ms: MatchState
    var src: nat
    var lastmatch: int

    ghost predicate Valid()
      reads this, ms
    {
      ms.Valid() && ms.matchdepth == MAXCCALLS
    }

    constructor (s: string, pat: string, ctype: CType, init: nat)
      requires init <= |s|
      ensures Valid() && fresh(ms) && fresh(ms.capture) && ms.g == Subject(s, pat, ctype) && src == init
      ensures lastmatch == -1
    {
      ms := new MatchState(s, pat, ctype);
      src, lastmatch := init, -1;
    }

    /** gmatch_aux */
    method Next() returns (r: FindResult)
      requires Valid() && src <= |ms.g.src|
      modifies this, ms, ms.capture
      ensures src <= |ms.g.src|
      ensures var ps := UpToNext(ms.g, old(src), old(lastmatch));
              match r
              case Found(start, e, caps) =>
                && Valid() && EndsInMatch(ps) && ps[|ps| - 1] == Matched(start, e, caps)
                && src == e && lastmatch == e
              case NotFound => Valid() && (forall p :: p in ps ==>
                                             p.Kept?) && src == old(src) && lastmatch == old(lastmatch)
              case Error(err) => err == TooComplex || (ps != [] && ps[|ps| - 1] == Stopped(err))
    {
      hide Ways, NewMatch, Done, Fails0, Pieces, EndsInMatch;
      ghost var g, done: seq<Piece> := ms.g, [];
      var s: nat := src;
      KeptStart(g, s, lastmatch);
      while s <= |ms.g.src|
        invariant Valid() && src == old(src) && lastmatch == old(lastmatch) && s <= |g.src| + 1
        invariant forall p :: p in done ==> p.Kept?
        invariant if s <= |g.src| then Halfway(g, UpToNext(g, src, lastmatch), done, s, lastmatch, 1, false)
                  else UpToNext(g, src, lastmatch) == done
      {
        ms.level := 0;
        assert ms.Caps() == [];
        var res := ms.DoMatch(s, 0);
        FirstMatch(g, s, res, ms.Caps(), ms.matchdepth, |g.pat| < MAXCCALLS);
        if res.Fails? {
          if res.err != TooComplex {
            StopsHere(g, UpToNext(g, src, lastmatch), done, s, lastmatch, res, ms.Caps(), ms.matchdepth);
          }
          return Error(res.err);
        }
        HalfwayNext(g, UpToNext(g, src, lastmatch), done, s, lastmatch, 1, false);
        IsNew(g, s, lastmatch, res, ms.Caps());
        if res.Match? && res.e != lastmatch {
          LastIsMatch(g, UpToNext(g, src, lastmatch), done, Matched(s, res.e, ms.Caps()));
          src, lastmatch := res.e, res.e;
          return Found(s, res.e, ms.Caps());
        }
        if s < |g.src| { done := done + [Kept(s)]; }
        s := s + 1;
      }
      return NotFound;
    }
  }

  lemma KeptStart(g: Subject, s: nat, last: int)
    requires s <= |g.src|
    ensures Halfway(g, UpToNext(g, s, last), [], s, last, 1, false)
  {
    hide Pieces;
  }

  lemma StopsHere(g: Subject, all: seq<Piece>, done: seq<Piece>, s: nat, last: int, res: Pattern.Result, caps: seq<Cap>,
          depth: int)
    requires Halfway(g, all, done, s, last, 1, false) && res.Fails? && res.err != TooComplex
    requires Done(g, res, Ways(g, s, 0, []), [], MAXCCALLS, caps, depth, |g.pat| < MAXCCALLS)
    ensures all != [] && all[|all| - 1] == Stopped(res.err)
  {
    hide Ways;
  }

  lemma LastIsMatch(g: Subject, all: seq<Piece>, done: seq<Piece>, p: Piece)
    requires p.Matched? && p.e <= |g.src| && Halfway(g, all, done + [p], p.e, p.e, 0, false)
    ensures EndsInMatch(all) && all[|all| - 1] == p
  {
  }
}
