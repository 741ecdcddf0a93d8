/**
 The pattern matcher (lstrlib.c): it backtracks over captures that it changes and undoes in place, and
 finds the first of all ways to match.
 */
module Pattern {
  import opened PatternWays

  const MAXCCALLS: nat := 200

  datatype Result = Match(e: nat) | NoMatch | Fails(err: Error)

  /** The result for a list of ways: the first of them. */
  ghost predicate IsFirst(r: Result, caps0: seq<Cap>, caps: seq<Cap>, ways: seq<Way>)
  {
    if ways == [] then r == NoMatch && caps == caps0
    else match ways[0]
      case Way(e, c) => r == Match(e) && caps == c
      case Bad(err) => r == Fails(err)
  }

  /** The first of the ways, if any. */
  ghost function FirstOf(ways: seq<Way>): seq<Way>
  {
    if ways == [] then [] else [ways[0]]
  }

  /**
   What a call leaves: the first way, with the captures and the match depth as they were if there is none.
   It may only be too complex when the pattern that is left is not shorter than the depth that is left.
   */
  ghost predicate Done(g: Subject, r: Result, ways: seq<Way>, caps0: seq<Cap>, depth0: int, caps: seq<Cap>, depth: int,
          short: bool)
  {
    && (!r.Fails? ==> depth == depth0)
    && (r == Fails(TooComplex) ==> !short)
    && (r != Fails(TooComplex) ==> IsFirst(r, caps0, caps, ways))
    && (r.Match? ==> r.e <= |g.src|)
  }

  lemma SingleIn(g: Subject, s: nat, p: nat, ep: nat)
    requires Single(g, s, p, ep)
    ensures s < |g.src| && RunEnd(g, s + 1, p, ep) == RunEnd(g, s, p, ep)
  {
  }

  lemma RunStops(g: Subject, s: nat, p: nat, ep: nat)
    requires !Single(g, s, p, ep)
    ensures RunEnd(g, s, p, ep) == s
  {
  }

  lemma GreedySplit(g: Subject, next: nat, caps: seq<Cap>, lo: nat, hi: nat)
    requires lo <= hi
    ensures Greedy(g, next, caps, lo, hi) == Ways(g, hi, next,
                                                  caps) + (if hi == lo then [] else Greedy(g, next, caps, lo, hi - 1))
  {
  }

  lemma LazySplit(g: Subject, next: nat, caps: seq<Cap>, lo: nat, hi: nat)
    requires lo <= hi
    ensures Lazy(g, next, caps, lo, hi) == Ways(g, lo, next, caps) + Lazy(g, next, caps, lo + 1, hi)
  {
  }

  lemma LazyOver(g: Subject, next: nat, caps: seq<Cap>, lo: nat, hi: nat)
    requires lo >= hi
    ensures Lazy(g, next, caps, lo + 1, hi) == []
  {
  }

  lemma RunFar(g: Subject, s: nat, p: nat, ep: nat)
    ensures s <= RunEnd(g, s, p, ep) && (s <= |g.src| ==> RunEnd(g, s, p, ep) <= |g.src|)
  {
  }

  lemma CapAt(c0: seq<Cap>, caps: seq<Cap>, l: nat, s: nat)
    requires l < |c0| && caps == CloseAt(c0, l, s)
    ensures |caps| == |c0| && caps[l].init == c0[l].init && forall k :: 0 <= k < |c0| && k != l ==> caps[k] == c0[k]
  {
  }

  /** A result for some ways is also the result for them and more ways after them, unless nothing matched. */
  lemma StillFirst(g: Subject, r: Result, ways: seq<Way>, rest: seq<Way>, all: seq<Way>, caps0: seq<Cap>, depth0: int,
          caps: seq<Cap>, depth: int, short: bool)
    requires Done(g, r, ways, caps0, depth0, caps, depth, short) && FirstOf(all) == FirstOf(ways + rest)
    ensures r == NoMatch ==> FirstOf(all) == FirstOf(rest) && caps == caps0 && depth == depth0
    ensures r != NoMatch ==> Done(g, r, all, caps0, depth0, caps, depth, short)
  {
    if ways == [] { assert ways + rest == rest; } else { assert (ways + rest)[0] == ways[0]; }
    assert all != [] ==> FirstOf(all) == [all[0]];
  }

  lemma NothingLeft(g: Subject, all: seq<Way>, caps0: seq<Cap>, depth0: int, short: bool)
    requires FirstOf(all) == FirstOf([])
    ensures Done(g, NoMatch, all, caps0, depth0, caps0, depth0, short)
  {
  }

  /** What one round of 'match' does: it goes on with the rest of the pattern, or it ends. */
  datatype Step = Goto(s: nat, p: nat) | Finish(r: Result)

  ghost predicate StepDone(g: Subject, step: Step, ways: seq<Way>, p: nat, caps0: seq<Cap>, depth0: int, caps: seq<Cap>,
          depth: int)
  {
    match step
    case Goto(s', p') =>
      p < p' <= |g.pat| && s' <= |g.src| && caps == caps0 && depth == depth0
      && FirstOf(Ways(g, s', p', caps0)) == FirstOf(ways)
    case Finish(r) => Done(g, r, ways, caps0, depth0, caps, depth, |g.pat| - p - 1 < depth0)
  }

  lemma ItemCases(g: Subject, s: nat, p: nat, caps: seq<Cap>)
    requires p < |g.pat|
    ensures ClassEnd(g.pat, p).BadEnd? ==> ItemWays(g, s, p, caps) == [Bad(ClassEnd(g.pat, p).err)]
    ensures ClassEnd(g.pat, p).End? ==>
              var ep := ClassEnd(g.pat, p).ep;
              var last := RunEnd(g, s, p, ep);
              var once := if last > s then s + 1 else s;
              var c := At(g.pat, ep);
              && p < ep <= |g.pat|
              && ItemWays(g, s, p, caps) ==
                 if c == '?' then Greedy(g, ep + 1, caps, s, once)
                 else if c == '*' then Greedy(g, ep + 1, caps, s, last)
                 else if c == '+' then Greedy(g, ep + 1, caps, s + 1, last)
                 else if c == '-' then Lazy(g, ep + 1, caps, s, last)
                 else Greedy(g, ep, caps, s + 1, once)
  {
  }

  lemma WaysCases(g: Subject, s: nat, p: nat, caps: seq<Cap>)
    requires p < |g.pat|
    ensures g.pat[p] == '(' ==>
              Ways(g, s, p, caps) == if At(g.pat,
                      p + 1) == ')' then Open(g, s, p + 2, caps, Position) else Open(g, s, p + 1, caps, Unfinished)
    ensures g.pat[p] == ')' ==>
              var l := ToClose(caps);
              Ways(g, s, p, caps) == (if l < 0 then [Bad(InvalidCapture)] else Ways(g, s, p + 1, CloseAt(caps, l, s)))
    ensures g.pat[p] == '$' && p + 1 == |g.pat| ==> Ways(g, s, p, caps) == if s == |g.src| then [Way(s, caps)] else []
    ensures g.pat[p] == '%' && At(g.pat, p + 1) == 'b' ==>
              var r := Balance(g, s, p + 2);
              Ways(g, s, p, caps) ==
                if p + 3 >= |g.pat| then [Bad(MissingArguments)] else if r > 0 then Ways(g, r, p + 4, caps) else []
    ensures g.pat[p] == '%' && At(g.pat, p + 1) == 'f' ==>
              Ways(g, s, p, caps) ==
              if At(g.pat, p + 2) != '[' then [Bad(MissingSet)]
              else if ClassEnd(g.pat, p + 2).BadEnd? then [Bad(ClassEnd(g.pat, p + 2).err)]
              else if Frontier(g, s, p + 2, ClassEnd(g.pat, p + 2).ep) then Ways(g, s, ClassEnd(g.pat, p + 2).ep, caps)
              else []
    ensures g.pat[p] == '%' && '0' <= At(g.pat, p + 1) <= '9' ==>
              var l := CaptureIndex(caps, At(g.pat, p + 1));
              Ways(g, s, p, caps) == (if l < 0 then [Bad(InvalidIndex)]
                                      else if Repeats(g.src, s, caps[l]) then Ways(g, s + caps[l].len.n, p + 2, caps)
                                      else [])
    ensures g.pat[p] != '(' && g.pat[p] != ')' && !(g.pat[p] == '$' && p + 1 == |g.pat|)
            && !(g.pat[p] == '%'
                 && (At(g.pat, p + 1) == 'b' || At(g.pat, p + 1) == 'f' || '0' <= At(g.pat, p + 1) <= '9'))
            ==> Ways(g, s, p, caps) == ItemWays(g, s, p, caps)
  {
    hide Open, ItemWays, ToClose, CaptureIndex, Repeats, Balance, Frontier;
  }

  lemma AtIn(g: Subject, i: nat)
    ensures i <= |g.pat| && At(g.pat, i) != '\0' ==> i < |g.pat|
    ensures i < |g.pat| ==> At(g.pat, i) == g.pat[i]
    ensures 0 < i && i - 1 < |g.pat| ==> i <= |g.pat|
  {
  }

  lemma SuffixIn(g: Subject, ep: nat)
    requires ep <= |g.pat| && At(g.pat, ep) in "*?-+"
    ensures ep < |g.pat|
  {
  }

  lemma OnlyOne(g: Subject, next: nat, caps: seq<Cap>, s: nat)
    ensures Greedy(g, next, caps, s, s) == Ways(g, s, next, caps)
    ensures FirstOf(Lazy(g, next, caps, s, s)) == FirstOf(Ways(g, s, next, caps))
  {
    assert Lazy(g, next, caps, s, s) == Ways(g, s, next, caps) + Lazy(g, next, caps, s + 1, s);
  }

  lemma GreedyNone(g: Subject, next: nat, caps: seq<Cap>, lo: nat, hi: nat)
    requires hi < lo
    ensures Greedy(g, next, caps, lo, hi) == []
  {
  }

  lemma BadDone(g: Subject, err: Error, caps0: seq<Cap>, depth0: int, short: bool)
    requires err != TooComplex
    ensures Done(g, Fails(err), [Bad(err)], caps0, depth0, caps0, depth0, short)
  {
  }

  lemma OpenFull(g: Subject, s: nat, p: nat, caps: seq<Cap>, what: Len)
    requires p > 0 && |caps| >= LUA_MAXCAPTURES
    ensures Open(g, s, p, caps, what) == [Bad(TooManyCaptures)]
  {
  }

  lemma OpenNext(g: Subject, s: nat, p: nat, caps: seq<Cap>, what: Len)
    requires p > 0 && |caps| < LUA_MAXCAPTURES
    ensures Open(g, s, p, caps, what) == Ways(g, s, p, caps + [Cap(s, what)])
  {
  }

  /** A capture is undone: when nothing matched, what was there before is back. */
  lemma Undone(g: Subject, r: Result, ways: seq<Way>, caps1: seq<Cap>, depth0: int, caps: seq<Cap>, depth: int,
          short: bool, caps0: seq<Cap>)
    requires Done(g, r, ways, caps1, depth0, caps, depth, short)
    ensures r == NoMatch ==> caps == caps1 && Done(g, r, ways, caps0, depth0, caps0, depth, short)
    ensures r != NoMatch ==> Done(g, r, ways, caps0, depth0, caps, depth, short)
  {
  }

  lemma BadStep(g: Subject, err: Error, ways: seq<Way>, p: nat, caps0: seq<Cap>, depth0: int)
    requires ways == [Bad(err)] && err != TooComplex
    ensures StepDone(g, Finish(Fails(err)), ways, p, caps0, depth0, caps0, depth0)
  {
  }

  lemma NoStep(g: Subject, ways: seq<Way>, p: nat, caps0: seq<Cap>, depth0: int)
    requires ways == []
    ensures StepDone(g, Finish(NoMatch), ways, p, caps0, depth0, caps0, depth0)
  {
  }

  lemma WayStep(g: Subject, s: nat, ways: seq<Way>, p: nat, caps0: seq<Cap>, depth0: int)
    requires ways == [Way(s, caps0)] && s <= |g.src|
    ensures StepDone(g, Finish(Match(s)), ways, p, caps0, depth0, caps0, depth0)
  {
  }

  lemma GotoStep(g: Subject, ways: seq<Way>, s: nat, p': nat, p: nat, caps0: seq<Cap>, depth0: int)
    requires p < p' <= |g.pat| && s <= |g.src| && FirstOf(ways) == FirstOf(Ways(g, s, p', caps0))
    ensures StepDone(g, Goto(s, p'), ways, p, caps0, depth0, caps0, depth0)
  {
  }

  lemma ResultStep(g: Subject, r: Result, ways: seq<Way>, p: nat, caps0: seq<Cap>, depth0: int, caps: seq<Cap>,
          depth: int, short: bool)
    requires Done(g, r, ways, caps0, depth0, caps, depth, short) && (|g.pat| - p - 1 < depth0 ==> short)
    ensures StepDone(g, Finish(r), ways, p, caps0, depth0, caps, depth)
  {
  }

  lemma BalanceIn(g: Subject, s: nat, p: nat)
    ensures Balance(g, s, p) > 0 ==> Balance(g, s, p) <= |g.src|
  {
  }

  lemma EndIn(g: Subject, p: nat)
    requires p < |g.pat|
    ensures ClassEnd(g.pat, p).End? ==> p < ClassEnd(g.pat, p).ep <= |g.pat|
  {
  }

  lemma FrontierIs(g: Subject, s: nat, p: nat, ep: nat)
    requires ep > 0
    ensures Frontier(g, s, p, ep) ==
            (!InBrackets(g, if s == 0 then '\0' else At(g.src, s - 1), p, ep - 1)
             && InBrackets(g, At(g.src, s), p, ep - 1))
  {
  }

  lemma IndexIn(caps: seq<Cap>, digit: char, src: string, s: nat)
    requires '0' <= digit <= '9'
    ensures var l := CaptureIndex(caps, digit);
            -1 <= l < |caps| && (l >= 0 && Repeats(src, s, caps[l]) ==>
                                   caps[l].len.Closed? && 0 <= s + caps[l].len.n <= |src|)
  {
  }

  lemma DepthDone(g: Subject, ways: seq<Way>, caps0: seq<Cap>, short: bool, caps: seq<Cap>)
    requires !short
    ensures Done(g, Fails(TooComplex), ways, caps0, 0, caps, 0, short)
  {
  }

  lemma WayDone(g: Subject, s: nat, p: nat, ways: seq<Way>, caps0: seq<Cap>, depth0: int, short: bool)
    requires p == |g.pat| && s <= |g.src| && FirstOf(Ways(g, s, p, caps0)) == FirstOf(ways)
    ensures Done(g, Match(s), ways, caps0, depth0, caps0, depth0, short)
  {
    assert ways != [] ==> FirstOf(ways) == [ways[0]];
  }

  /** What a round means for the whole of 'match', which gives back its level of depth at the end. */
  lemma StepMeans(g: Subject, step: Step, ways: seq<Way>, all: seq<Way>, p0: nat, p: nat, caps0: seq<Cap>, depth0: int,
          caps: seq<Cap>, depth: int)
    requires StepDone(g, step, ways, p, caps0, depth0 - 1, caps, depth) && FirstOf(ways) == FirstOf(all) && p0 <= p
    ensures step.Goto? ==> p < step.p <= |g.pat| && step.s <= |g.src| && caps == caps0 && depth == depth0 - 1
                           && FirstOf(Ways(g, step.s, step.p, caps0)) == FirstOf(all)
    ensures step.Finish? ==>
        Done(g, step.r, all, caps0, depth0, caps, if step.r.Fails? then depth else depth + 1, |g.pat| - p0 < depth0)
  {
    assert all != [] ==> FirstOf(all) == [all[0]];
    assert ways != [] ==> FirstOf(ways) == [ways[0]];
  }

  class MatchState {
    const g: Subject
    var matchdepth: int
    var level: nat
    const capture: array<Cap>

    ghost predicate Valid()
      reads this
    {
      capture.Length == LUA_MAXCAPTURES && level <= LUA_MAXCAPTURES && matchdepth >= 0
    }

    /** The captures in use. */
    function Caps(): seq<Cap>
      requires level <= capture.Length
      reads this, capture
    {
      capture[..level]
    }

    /** prepstate */
    constructor (src: string, pat: string, ctype: CType)
      ensures Valid() && g == Subject(src, pat, ctype) && level == 0 && matchdepth == MAXCCALLS && fresh(capture)
    {
      g := Subject(src, pat, ctype);
      matchdepth, level := MAXCCALLS, 0;
      capture := new Cap[LUA_MAXCAPTURES](_ => Cap(0, Unfinished));
    }

    // ---- Items ---------------------------------------------------------------------------------------

    method FindClassEnd(p: nat) returns (e: End)
      requires p < |g.pat|
      ensures e == ClassEnd(g.pat, p)
    {
      var q := p + 1;
      if g.pat[p] == L_ESC {
        if q == |g.pat| { return BadEnd(EndsWithEsc); }
        return End(q + 1);
      } else if g.pat[p] == '[' {
        if At(g.pat, q) == '^' { q := q + 1; }
        while true
          invariant p < q <= |g.pat| && SetEnd(g.pat, q) == ClassEnd(g.pat, p)
          decreases |g.pat| - q
        {
          if q == |g.pat| { return BadEnd(MissingBracket); }
          q := q + 1;
          if g.pat[q - 1] == L_ESC && q < |g.pat| { q := q + 1; }
          if At(g.pat, q) == ']' { break; }
        }
        return End(q + 1);
      }
      return End(q);
    }

    method MatchBracketClass(c: char, p0: nat, ec: nat) returns (res: bool)
      ensures res == InBrackets(g, c, p0, ec)
    {
      var sig, p := true, p0;
      if At(g.pat, p + 1) == '^' {
        sig := false;
        p := p + 1;
      }
      ghost var first := p;
      p := p + 1;
      while p < ec
        invariant p > 0 && InSet(g, c, first, ec) == InSet(g, c, p - 1, ec)
        decreases ec - p
      {
        if At(g.pat, p) == L_ESC {
          p := p + 1;
          if MatchClass(g, c, At(g.pat, p)) { return sig; }
        } else if At(g.pat, p + 1) == '-' && p + 2 < ec {
          p := p + 2;
          if At(g.pat, p - 2) <= c <= At(g.pat, p) { return sig; }
        } else if At(g.pat, p) == c {
          return sig;
        }
        p := p + 1;
      }
      return !sig;
    }

    method SingleMatch(s: nat, p: nat, ep: nat) returns (res: bool)
      requires ep > 0
      ensures res == Single(g, s, p, ep)
    {
      if s >= |g.src| {
        return false;
      }
      var c := g.src[s];
      if At(g.pat, p) == '.' {
        res := true;
      } else if At(g.pat, p) == L_ESC {
        res := MatchClass(g, c, At(g.pat, p + 1));
      } else if At(g.pat, p) == '[' {
        res := MatchBracketClass(c, p, ep - 1);
      } else {
        res := At(g.pat, p) == c;
      }
    }

    /** matchbalance: 0 stands for NULL. */
    method MatchBalance(s0: nat, p: nat) returns (r: nat)
      ensures r == Balance(g, s0, p)
    {
      if At(g.src, s0) != At(g.pat, p) { return 0; }
      var b, e, cont, s := At(g.pat, p), At(g.pat, p + 1), 1, s0 + 1;
      while s < |g.src|
        invariant cont > 0 && BalanceFrom(g.src, s, b, e, cont) == Balance(g, s0, p)
        decreases |g.src| - s
      {
        if g.src[s] == e {
          cont := cont - 1;
          if cont == 0 { return s + 1; }
        } else if g.src[s] == b {
          cont := cont + 1;
        }
        s := s + 1;
      }
      return 0;
    }

    // ---- Captures ------------------------------------------------------------------------------------

    method CaptureToClose() returns (l: int)
      requires Valid()
      ensures l == ToClose(Caps())
    {
      l := level - 1;
      while l >= 0
        invariant -1 <= l < level && ToClose(Caps()) == ToClose(Caps()[..l + 1])
      {
        assert Caps()[..l + 1][..l] == Caps()[..l];
        if capture[l].len == Unfinished { return; }
        l := l - 1;
      }
    }

    method CheckCapture(digit: char) returns (l: int)
      requires Valid() && '0' <= digit <= '9'
      ensures l == CaptureIndex(Caps(), digit)
    {
      l := digit as int - '1' as int;
      if l < 0 || l >= level || capture[l].len == Unfinished { return -1; }
    }

    // ---- Backtracking --------------------------------------------------------------------------------

    method MaxExpand(s: nat, p: nat, ep: nat) returns (res: Result)
      requires Valid() && s <= |g.src| && p < ep < |g.pat|
      modifies this, capture
      ensures Valid()
      ensures Done(g, res, Greedy(g, ep + 1, old(Caps()), s, RunEnd(g, s, p, ep)), old(Caps()), old(matchdepth),
                   Caps(), matchdepth,
                   |g.pat| - (ep + 1) < old(matchdepth))
      decreases |g.pat| - ep, 0
    {
      hide Ways, Open, ItemWays, Greedy, Lazy, Done, StepDone, IsFirst, FirstOf, RunEnd, Single, ClassEnd, SetEnd;
      hide InSet, InBrackets,
           Frontier, Balance, BalanceFrom, ToClose, CaptureIndex, Repeats, MatchClass;
      ghost var c0, d0 := Caps(), matchdepth;
      var i := 0;
      var single := SingleMatch(s, p, ep);
      while single
        invariant Valid() && Caps() == c0 && matchdepth == d0 && 0 <= i
        invariant s + i <= |g.src| && RunEnd(g, s + i, p, ep) == RunEnd(g, s, p, ep)
        invariant single == Single(g, s + i, p, ep)
        decreases |g.src| - s - i
      {
        SingleIn(g, s + i, p, ep);
        i := i + 1;
        single := SingleMatch(s + i, p, ep);
      }
      RunStops(g, s + i, p, ep);
      ghost var last := s + i;
      while i >= 0
        invariant -1 <= i && s + i <= last <= |g.src| && Valid() && Caps() == c0 && matchdepth == d0
        invariant FirstOf(Greedy(g, ep + 1, c0, s, last)) ==
                    FirstOf(if i < 0 then [] else Greedy(g, ep + 1, c0, s, s + i))
      {
        GreedySplit(g, ep + 1, c0, s, s + i);
        res := DoMatch(s + i, ep + 1);
        StillFirst(g, res, Ways(g, s + i, ep + 1, c0), if i == 0 then [] else Greedy(g, ep + 1, c0, s, s + i - 1),
                   Greedy(g, ep + 1, c0, s, last), c0, d0, Caps(), matchdepth, |g.pat| - (ep + 1) < d0);
        if res != NoMatch { return; }
        i := i - 1;
      }
      res := NoMatch;
      NothingLeft(g, Greedy(g, ep + 1, c0, s, last), c0, d0, |g.pat| - (ep + 1) < d0);
    }

    method MinExpand(s0: nat, p: nat, ep: nat) returns (res: Result)
      requires Valid() && s0 <= |g.src| && p < ep < |g.pat|
      modifies this, capture
      ensures Valid()
      ensures Done(g, res, Lazy(g, ep + 1, old(Caps()), s0, RunEnd(g, s0, p, ep)), old(Caps()), old(matchdepth),
                   Caps(), matchdepth,
                   |g.pat| - (ep + 1) < old(matchdepth))
      decreases |g.pat| - ep, 0
    {
      hide Ways, Open, ItemWays, Greedy, Lazy, Done, StepDone, IsFirst, FirstOf, RunEnd, Single, ClassEnd, SetEnd;
      hide InSet, InBrackets,
           Frontier, Balance, BalanceFrom, ToClose, CaptureIndex, Repeats, MatchClass;
      ghost var c0, d0, last := Caps(), matchdepth, RunEnd(g, s0, p, ep);
      ghost var short := |g.pat| - (ep + 1) < d0;
      var s := s0;
      RunFar(g, s0, p, ep);
      while true
        invariant s0 <= s <= last <= |g.src| && Valid() && Caps() == c0 && matchdepth == d0
        invariant RunEnd(g, s, p, ep) == last
        invariant FirstOf(Lazy(g, ep + 1, c0, s0, last)) == FirstOf(Lazy(g, ep + 1, c0, s, last))
        decreases last - s
      {
        LazySplit(g, ep + 1, c0, s, last);
        res := DoMatch(s, ep + 1);
        StillFirst(g, res, Ways(g, s, ep + 1, c0), Lazy(g, ep + 1, c0, s + 1, last), Lazy(g, ep + 1, c0, s0, last), c0,
                   d0, Caps(), matchdepth, short);
        if res != NoMatch { return; }
        var single := SingleMatch(s, p, ep);
        if !single {
          RunStops(g, s, p, ep);
          LazyOver(g, ep + 1, c0, s, last);
          NothingLeft(g, Lazy(g, ep + 1, c0, s0, last), c0, d0, short);
          return;
        }
        SingleIn(g, s, p, ep);
        RunFar(g, s + 1, p, ep);
        s := s + 1;
      }
    }

    method StartCapture(s: nat, p: nat, what: Len) returns (res: Result)
      requires Valid() && s <= |g.src| && 0 < p <= |g.pat|
      modifies this, capture
      ensures Valid()
      ensures Done(g, res, Open(g, s, p, old(Caps()), what), old(Caps()), old(matchdepth), Caps(), matchdepth,
                   |g.pat| - p < old(matchdepth))
      decreases |g.pat| - p, 5
    {
      hide Ways, Greedy, Lazy, ItemWays, Done, Open;
      ghost var c0, d0 := Caps(), matchdepth;
      if level >= LUA_MAXCAPTURES {
        BadDone(g, TooManyCaptures, c0, d0, |g.pat| - p < d0);
        OpenFull(g, s, p, c0, what);
        return Fails(TooManyCaptures);
      }
      capture[level] := Cap(s, what);
      level := level + 1;
      assert Caps() == c0 + [Cap(s, what)];
      OpenNext(g, s, p, c0, what);
      ghost var c1 := Caps();
      res := DoMatch(s, p);
      Undone(g, res, Ways(g, s, p, c1), c1, d0, Caps(), matchdepth, |g.pat| - p < d0, c0);
      if res == NoMatch {
        level := level - 1;
        assert Caps() == c0;
      }
    }

    method EndCapture(s: nat, p: nat) returns (res: Result)
      requires Valid() && s <= |g.src| && 0 < p <= |g.pat|
      modifies this, capture
      ensures Valid()
      ensures var l := ToClose(old(Caps()));
              Done(g, res, if l < 0 then [Bad(InvalidCapture)] else Ways(g, s, p, CloseAt(old(Caps()), l, s)),
                   old(Caps()), old(matchdepth), Caps(), matchdepth, |g.pat| - p < old(matchdepth))
      decreases |g.pat| - p, 5
    {
      hide Ways, Greedy, Lazy, ItemWays, ToClose, Done;
      ghost var c0, d0 := Caps(), matchdepth;
      var l := CaptureToClose();
      if l < 0 {
        BadDone(g, InvalidCapture, c0, d0, |g.pat| - p < d0);
        return Fails(InvalidCapture);
      }
      capture[l] := Cap(capture[l].init, Closed(s - capture[l].init));
      assert Caps() == CloseAt(c0, l, s);
      ghost var c1 := Caps();
      res := DoMatch(s, p);
      Undone(g, res, Ways(g, s, p, c1), c1, d0, Caps(), matchdepth, |g.pat| - p < d0, c0);
      if res == NoMatch {
        CapAt(c0, Caps(), l, s);
        capture[l] := Cap(capture[l].init, Unfinished);
        assert Caps() == c0;
      }
    }

    /** match_capture */
    method MatchCapture(s: nat, digit: char) returns (res: Result)
      requires Valid() && s <= |g.src| && '0' <= digit <= '9'
      ensures var l := CaptureIndex(Caps(), digit);
              res == if l < 0 then Fails(InvalidIndex)
                     else if Repeats(g.src, s, Caps()[l]) then Match(s + Caps()[l].len.n) else NoMatch
    {
      var l := CheckCapture(digit);
      if l < 0 {
        return Fails(InvalidIndex);
      }
      var cap := capture[l];
      if Repeats(g.src, s, cap) { return Match(s + cap.len.n); }
      return NoMatch;
    }

    /** A pattern class plus an optional suffix. */
    method MatchDefault(s: nat, p: nat) returns (step: Step)
      requires Valid() && s <= |g.src| && p < |g.pat|
      modifies this, capture
      ensures Valid()
      ensures StepDone(g, step, ItemWays(g, s, p, old(Caps())), p, old(Caps()), old(matchdepth), Caps(), matchdepth)
      decreases |g.pat| - p, 1
    {
      hide Ways, Open, ItemWays, Greedy, Lazy, Done, StepDone, IsFirst, FirstOf, RunEnd, Single, ClassEnd, SetEnd;
      hide InSet, InBrackets,
           Frontier, Balance, BalanceFrom, ToClose, CaptureIndex, Repeats, MatchClass;
      ghost var c0, d0 := Caps(), matchdepth;
      var end := FindClassEnd(p);
      ItemCases(g, s, p, c0);
      if end.BadEnd? {
        BadStep(g, end.err, ItemWays(g, s, p, c0), p, c0, d0);
        return Finish(Fails(end.err));
      }
      var ep := end.ep;
      var single := SingleMatch(s, p, ep);
      RunFar(g, s, p, ep);
      if !single {
        RunStops(g, s, p, ep);
        if At(g.pat, ep) == '*' || At(g.pat, ep) == '?' || At(g.pat, ep) == '-' {
          SuffixIn(g, ep);
          OnlyOne(g, ep + 1, c0, s);
          step := Goto(s, ep + 1);
          GotoStep(g, ItemWays(g, s, p, c0), s, ep + 1, p, c0, d0);
        } else {
          GreedyNone(g, if At(g.pat, ep) == '+' then ep + 1 else ep, c0, s + 1, s);
          step := Finish(NoMatch);
          NoStep(g, ItemWays(g, s, p, c0), p, c0, d0);
        }
      } else {
        SingleIn(g, s, p, ep);
        RunFar(g, s + 1, p, ep);
        if At(g.pat, ep) == '?' {
          SuffixIn(g, ep);
          GreedySplit(g, ep + 1, c0, s, s + 1);
          OnlyOne(g, ep + 1, c0, s);
          var res := DoMatch(s + 1, ep + 1);
          StillFirst(g, res, Ways(g, s + 1, ep + 1, c0), Ways(g, s, ep + 1, c0), ItemWays(g, s, p, c0), c0, d0, Caps(),
                     matchdepth,
                     |g.pat| - (ep + 1) < d0);
          if res != NoMatch {
            step := Finish(res);
            ResultStep(g, res, ItemWays(g, s, p, c0), p, c0, d0, Caps(), matchdepth, |g.pat| - (ep + 1) < d0);
          } else {
            step := Goto(s, ep + 1);
            GotoStep(g, ItemWays(g, s, p, c0), s, ep + 1, p, c0, d0);
          }
        } else if At(g.pat, ep) == '+' || At(g.pat, ep) == '*' {
          SuffixIn(g, ep);
          var s1 := if At(g.pat, ep) == '+' then s + 1 else s;
          var res := MaxExpand(s1, p, ep);
          step := Finish(res);
          ResultStep(g, res, ItemWays(g, s, p, c0), p, c0, d0, Caps(), matchdepth, |g.pat| - (ep + 1) < d0);
        } else if At(g.pat, ep) == '-' {
          SuffixIn(g, ep);
          var res := MinExpand(s, p, ep);
          step := Finish(res);
          ResultStep(g, res, ItemWays(g, s, p, c0), p, c0, d0, Caps(), matchdepth, |g.pat| - (ep + 1) < d0);
        } else {
          OnlyOne(g, ep, c0, s + 1);
          step := Goto(s + 1, ep);
          GotoStep(g, ItemWays(g, s, p, c0), s + 1, ep, p, c0, d0);
        }
      }
    }

    /** The pattern goes on with an item of its own kind; its cases all end, or go on after the item. */
    method MatchStep(s: nat, p: nat) returns (step: Step)
      requires Valid() && s <= |g.src| && p < |g.pat|
      modifies this, capture
      ensures Valid()
      ensures StepDone(g, step, Ways(g, s, p, old(Caps())), p, old(Caps()), old(matchdepth), Caps(), matchdepth)
      decreases |g.pat| - p, 3
    {
      hide Ways, Open, ItemWays, Greedy, Lazy, Done, StepDone, IsFirst, FirstOf, RunEnd, Single, ClassEnd, SetEnd;
      hide InSet, InBrackets,
           Frontier, Balance, BalanceFrom, ToClose, CaptureIndex, Repeats, MatchClass;
      ghost var c0, d0 := Caps(), matchdepth;
      ghost var ways := Ways(g, s, p, c0);
      WaysCases(g, s, p, c0);
      if g.pat[p] == '(' {
        var res;
        AtIn(g, p + 1);
        if At(g.pat, p + 1) == ')' {
          res := StartCapture(s, p + 2, Position);
          ResultStep(g, res, ways, p, c0, d0, Caps(), matchdepth, |g.pat| - (p + 2) < d0);
        } else {
          res := StartCapture(s, p + 1, Unfinished);
          ResultStep(g, res, ways, p, c0, d0, Caps(), matchdepth, |g.pat| - (p + 1) < d0);
        }
        step := Finish(res);
      } else if g.pat[p] == ')' {
        var res := EndCapture(s, p + 1);
        ResultStep(g, res, ways, p, c0, d0, Caps(), matchdepth, |g.pat| - (p + 1) < d0);
        step := Finish(res);
      } else if g.pat[p] == '$' && p + 1 == |g.pat| {
        if s == |g.src| {
          WayStep(g, s, ways, p, c0, d0);
          step := Finish(Match(s));
        } else {
          NoStep(g, ways, p, c0, d0);
          step := Finish(NoMatch);
        }
      } else if g.pat[p] == L_ESC && At(g.pat, p + 1) == 'b' {
        if p + 2 >= |g.pat| - 1 {
          BadStep(g, MissingArguments, ways, p, c0, d0);
          return Finish(Fails(MissingArguments));
        }
        var r := MatchBalance(s, p + 2);
        BalanceIn(g, s, p + 2);
        if r != 0 {
          GotoStep(g, ways, r, p + 4, p, c0, d0);
          step := Goto(r, p + 4);
        } else {
          NoStep(g, ways, p, c0, d0);
          step := Finish(NoMatch);
        }
      } else if g.pat[p] == L_ESC && At(g.pat, p + 1) == 'f' {
        AtIn(g, p + 2);
        if At(g.pat, p + 2) != '[' {
          BadStep(g, MissingSet, ways, p, c0, d0);
          return Finish(Fails(MissingSet));
        }
        var end := FindClassEnd(p + 2);
        if end.BadEnd? {
          BadStep(g, end.err, ways, p, c0, d0);
          return Finish(Fails(end.err));
        }
        EndIn(g, p + 2);
        var previous := if s == 0 then '\0' else At(g.src, s - 1);
        var before := MatchBracketClass(previous, p + 2, end.ep - 1);
        var after := MatchBracketClass(At(g.src, s), p + 2, end.ep - 1);
        FrontierIs(g, s, p + 2, end.ep);
        if !before && after {
          GotoStep(g, ways, s, end.ep, p, c0, d0);
          step := Goto(s, end.ep);
        } else {
          NoStep(g, ways, p, c0, d0);
          step := Finish(NoMatch);
        }
      } else if g.pat[p] == L_ESC && '0' <= At(g.pat, p + 1) <= '9' {
        AtIn(g, p + 1);
        var res := MatchCapture(s, At(g.pat, p + 1));
        IndexIn(c0, At(g.pat, p + 1), g.src, s);
        if res.Fails? {
          BadStep(g, InvalidIndex, ways, p, c0, d0);
          step := Finish(res);
        } else if res.Match? {
          GotoStep(g, ways, res.e, p + 2, p, c0, d0);
          step := Goto(res.e, p + 2);
        } else {
          NoStep(g, ways, p, c0, d0);
          step := Finish(NoMatch);
        }
      } else {
        step := MatchDefault(s, p);
      }
    }

    /** match */
    method DoMatch(s0: nat, p0: nat) returns (res: Result)
      requires Valid() && s0 <= |g.src| && p0 <= |g.pat|
      modifies this, capture
      ensures Valid()
      ensures Done(g, res, Ways(g, s0, p0, old(Caps())), old(Caps()), old(matchdepth), Caps(), matchdepth,
                   |g.pat| - p0 < old(matchdepth))
      decreases |g.pat| - p0, 4
    {
      hide Ways, Open, ItemWays, Greedy, Lazy, Done, StepDone, IsFirst, FirstOf, RunEnd, Single, ClassEnd, SetEnd;
      hide InSet, InBrackets,
           Frontier, Balance, BalanceFrom, ToClose, CaptureIndex, Repeats, MatchClass;
      ghost var c0, d0 := Caps(), matchdepth;
      if matchdepth == 0 {
        DepthDone(g, Ways(g, s0, p0, c0), c0, |g.pat| - p0 < d0, Caps());
        return Fails(TooComplex);
      }
      matchdepth := matchdepth - 1;
      var s: nat, p: nat := s0, p0;
      while p < |g.pat|
        invariant p0 <= p <= |g.pat| && s <= |g.src| && Valid() && Caps() == c0 && matchdepth == d0 - 1
        invariant FirstOf(Ways(g, s, p, c0)) == FirstOf(Ways(g, s0, p0, c0))
        decreases |g.pat| - p
      {
        var step := MatchStep(s, p);
        StepMeans(g, step, Ways(g, s, p, c0), Ways(g, s0, p0, c0), p0, p, c0, d0, Caps(), matchdepth);
        match step {
          case Goto(s', p') => s, p := s', p';
          case Finish(r) =>
            if !r.Fails? { matchdepth := matchdepth + 1; }
            return r;
        }
      }
      WayDone(g, s, p, Ways(g, s0, p0, c0), c0, d0, |g.pat| - p0 < d0);
      matchdepth := matchdepth + 1;
      res := Match(s);
    }
  }
}
