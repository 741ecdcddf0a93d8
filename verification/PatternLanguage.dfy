/**
 What patterns match, by how they are written: items with suffixes, groups, captured texts again, balanced texts and
 frontiers.  The matcher finds exactly the matches in this sense, with the captures of the groups as they are nested.
 */
module PatternLanguage {
  import opened PatternWays
  import opened PatternSets
  import opened PatternFind

  /** Any character, a character, a class, or a set of members. */
  datatype Single = Any | Char(c: char) | InClass(cl: char) | InSet(neg: bool, ms: seq<Member>)

  datatype Suffix = Once | AtMostOnce | AnyTimes | FewTimes | SomeTimes

  datatype Item = Item(x: Single, suffix: Suffix)

  /** An item, a position capture, a group, the text of a capture again, a balanced text, and a frontier. */
  datatype Part =
    | JustItem(i: Item) | Here | Group(parts: seq<Part>) | Again(k: nat) | Between(b: char, e: char)
    | Edge(neg: bool, ms: seq<Member>)

  // ---- How patterns are written ------------------------------------------------------------------------

  /** Characters that mean something else where an item may begin or its suffix may be. */
  const MAGIC := "^$*+?.([%-)"

  predicate SetOk(neg: bool, ms: seq<Member>)
  {
    ms != [] && Readable(ms) && Enclosed(ms) && (!neg ==> SetText(ms) != [] && SetText(ms)[0] != '^')
  }

  predicate Plain(x: Single)
  {
    match x
    case Char(c) => c !in MAGIC
    case InClass(cl) => cl != 'b' && cl != 'f' && !('0' <= cl <= '9')
    case InSet(neg, ms) => SetOk(neg, ms)
    case Any => true
  }

  function SingleText(x: Single): (t: string)
    ensures t != []
  {
    match x
    case Any => "."
    case Char(c) => [c]
    case InClass(cl) => ['%', cl]
    case InSet(neg, ms) => "[" + SetBody(neg, ms) + "]"
  }

  function SuffixText(f: Suffix): string
  {
    match f
    case Once => ""
    case AtMostOnce => "?"
    case AnyTimes => "*"
    case FewTimes => "-"
    case SomeTimes => "+"
  }

  function ItemText(i: Item): (t: string)
    ensures t != []
  {
    SingleText(i.x) + SuffixText(i.suffix)
  }

  const DIGITS := "0123456789"

  function PartText(x: Part): (t: string)
    ensures t != []
    decreases x
  {
    match x
    case JustItem(i) => ItemText(i)
    case Here => "()"
    case Group(parts) => "(" + Text(parts) + ")"
    case Again(k) => ['%', if k < 10 then DIGITS[k] else '0']
    case Between(b, e) => ['%', 'b', b, e]
    case Edge(neg, ms) => "%f[" + SetBody(neg, ms) + "]"
  }

  function Text(parts: seq<Part>): string
    decreases parts
  {
    if parts == [] then "" else PartText(parts[0]) + Text(parts[1..])
  }

  /** How many captures there are in it. */
  function Captures(x: Part): nat
    decreases x
  {
    match x
    case Here => 1
    case Group(parts) => 1 + AllCaptures(parts)
    case _ => 0
  }

  function AllCaptures(parts: seq<Part>): nat
    decreases parts
  {
    if parts == [] then 0 else Captures(parts[0]) + AllCaptures(parts[1..])
  }

  /** After 'n' captures, of which these are still open: not too many, and the ones to be repeated are complete. */
  predicate PartOk(x: Part, n: nat, open: set<nat>)
    decreases x
  {
    match x
    case JustItem(i) => Plain(i.x)
    case Here => n < LUA_MAXCAPTURES
    case Group(parts) => n < LUA_MAXCAPTURES && parts != [] && PartsOk(parts, n + 1, open + {n})
    case Again(k) => 1 <= k <= 9 && k <= n && k - 1 !in open
    case Between(_, _) => true
    case Edge(neg, ms) => SetOk(neg, ms)
  }

  predicate PartsOk(parts: seq<Part>, n: nat, open: set<nat>)
    decreases parts
  {
    parts == [] || (PartOk(parts[0], n, open) && PartsOk(parts[1..], n + Captures(parts[0]), open))
  }

  // ---- What they match ---------------------------------------------------------------------------------

  predicate Accepts(g: Subject, x: Single, c: char)
  {
    match x
    case Any => true
    case Char(d) => c == d
    case InClass(cl) => MatchClass(g, c, cl)
    case InSet(neg, ms) => (exists m :: m in ms && Has(g, c, m)) != neg
  }

  predicate Times(f: Suffix, n: nat)
  {
    match f
    case Once => n == 1
    case AtMostOnce => n <= 1
    case SomeTimes => n >= 1
    case AnyTimes => true
    case FewTimes => true
  }

  /** The item takes the characters of the subject from 's' to 'q'. */
  ghost predicate Reads(g: Subject, i: Item, s: nat, q: nat)
  {
    s <= q <= |g.src| && Times(i.suffix, q - s) && forall k :: s <= k < q ==> Accepts(g, i.x, g.src[k])
  }

  /** A text that begins with 'b' and ends with the first 'e' that leaves none of them open. */
  ghost predicate Balanced(src: string, s: nat, b: char, e: char, q: nat)
  {
    && s < q <= |src| && src[s] == b
    && var i := s + 1;
       Excess(src, i, q, b, e) == -1 && forall j :: i <= j < q ==> Excess(src, i, j, b, e) > -1
  }

  /** The subject goes on with the captured text; a position is no text. */
  ghost predicate SameText(src: string, s: nat, cap: Cap, q: nat)
  {
    && cap.len.Closed? && 0 <= cap.len.n == q - s && cap.init + cap.len.n <= |src| && q <= |src|
    && src[cap.init..cap.init + cap.len.n] == src[s..q]
  }

  /** The set has the next character and not the previous one; the ends of the subject count as zeros. */
  ghost predicate AtEdge(g: Subject, s: nat, neg: bool, ms: seq<Member>)
    requires s <= |g.src|
  {
    && SomeHas(g, if s == 0 then '\0' else g.src[s - 1], ms) == neg
    && SomeHas(g, if s == |g.src| then '\0' else g.src[s], ms) != neg
  }

  /** The part takes the subject from 's' to 'q', and then there are these captures. */
  ghost predicate Step(g: Subject, x: Part, s: nat, caps: seq<Cap>, q: nat, mid: seq<Cap>)
    requires s <= |g.src|
    decreases x
  {
    match x
    case JustItem(i) => Reads(g, i, s, q) && mid == caps
    case Here => q == s && mid == caps + [Cap(s, Position)]
    case Group(parts) =>
      exists inner: seq<Cap> ::
        && Means(g, parts, s, caps + [Cap(s, Unfinished)], q, inner) && |caps| < |inner|
        && mid == inner[|caps| := Cap(s, Closed(q - s))]
    case Again(k) => 1 <= k <= |caps| && SameText(g.src, s, caps[k - 1], q) && mid == caps
    case Between(b, e) => Balanced(g.src, s, b, e, q) && mid == caps
    case Edge(neg, ms) => q == s && mid == caps && AtEdge(g, s, neg, ms)
  }

  /** The parts take, one after the other, the subject from 's' to 'e'. */
  ghost predicate Means(g: Subject, parts: seq<Part>, s: nat, caps: seq<Cap>, e: nat, out: seq<Cap>)
    requires s <= |g.src|
    decreases parts
  {
    if parts == [] then e == s && out == caps
    else
      exists q: nat, mid: seq<Cap> ::
        q <= |g.src| && Step(g, parts[0], s, caps, q, mid) && Means(g, parts[1..], q, mid, e, out)
  }

  // ---- Captures ----------------------------------------------------------------------------------------

  /** There are 'n' captures, and these are open. */
  ghost predicate CapsAre(caps: seq<Cap>, n: nat, open: set<nat>)
  {
    && |caps| == n && (forall k :: k in open ==> k < n)
    && forall k: nat :: k < n ==> (k in open <==> caps[k].len == Unfinished)
  }

  lemma CapsMore(caps: seq<Cap>, n: nat, open: set<nat>, s: nat)
    requires CapsAre(caps, n, open)
    ensures CapsAre(caps + [Cap(s, Position)], n + 1, open)
    ensures CapsAre(caps + [Cap(s, Unfinished)], n + 1, open + {n})
  {
  }

  lemma CapsClosed(inner: seq<Cap>, n: nat, m: nat, open: set<nat>, cap: Cap)
    requires n < m && CapsAre(inner, m, open + {n}) && (forall k :: k in open ==> k < n) && cap.len.Closed?
    ensures CapsAre(inner[n := cap], m, open)
  {
  }

  /** What a part leaves of the captures: the ones before, and its own, complete. */
  lemma {:induction false} StepKeeps(g: Subject, x: Part, s: nat, caps: seq<Cap>, q: nat, mid: seq<Cap>, n: nat,
          open: set<nat>)
    requires s <= |g.src| && PartOk(x, n, open) && CapsAre(caps, n, open) && Step(g, x, s, caps, q, mid)
    ensures s <= q <= |g.src| && CapsAre(mid, n + Captures(x), open) && mid[..n] == caps
    decreases x
  {
    hide CapsAre, Plain, SetOk, AtEdge, Balanced, SameText, Reads;
    CapsLength(caps, n, open);
    match x
    case JustItem(i) =>
      ReadsBound(g, i, s, q);
    case Here =>
      CapsMore(caps, n, open, s);
    case Group(parts) =>
      var inner :| Means(g, parts, s, caps + [Cap(s, Unfinished)], q, inner) && |caps| < |inner|
                   && mid == inner[|caps| := Cap(s, Closed(q - s))];
      CapsMore(caps, n, open, s);
      MeansKeeps(g, parts, s, caps + [Cap(s, Unfinished)], q, inner, n + 1, open + {n});
      CapsLength(inner, n + 1 + AllCaptures(parts), open + {n});
      CapsClosed(inner, n, n + 1 + AllCaptures(parts), open, Cap(s, Closed(q - s)));
      CutPrefix(inner, caps, Cap(s, Unfinished), Cap(s, Closed(q - s)));
    case Again(k) =>
      SameTextBound(g.src, s, caps[k - 1], q);
    case Between(b, e) =>
      BalancedBound(g.src, s, b, e, q);
    case Edge(_, _) =>
  }

  lemma CapsLength(caps: seq<Cap>, n: nat, open: set<nat>)
    requires CapsAre(caps, n, open)
    ensures |caps| == n && forall k :: k in open ==> k < n
  {
  }

  lemma CutPrefix(inner: seq<Cap>, caps: seq<Cap>, cap: Cap, done: Cap)
    requires |caps| < |inner| && inner[..|caps| + 1] == caps + [cap]
    ensures inner[|caps| := done][..|caps|] == caps && inner[|caps|] == cap
  {
    assert inner[..|caps| + 1][..|caps|] == caps;
    assert inner[..|caps| + 1][|caps|] == cap;
  }

  lemma ReadsBound(g: Subject, i: Item, s: nat, q: nat)
    requires Reads(g, i, s, q)
    ensures s <= q <= |g.src|
  {
  }

  lemma SameTextBound(src: string, s: nat, cap: Cap, q: nat)
    requires SameText(src, s, cap, q)
    ensures s <= q <= |src|
  {
  }

  lemma BalancedBound(src: string, s: nat, b: char, e: char, q: nat)
    requires Balanced(src, s, b, e, q)
    ensures s <= q <= |src|
  {
  }

  lemma {:induction false} MeansKeeps(g: Subject, parts: seq<Part>, s: nat, caps: seq<Cap>, e: nat, out: seq<Cap>,
          n: nat, open: set<nat>)
    requires s <= |g.src| && PartsOk(parts, n, open) && CapsAre(caps, n, open) && Means(g, parts, s, caps, e, out)
    ensures s <= e <= |g.src| && CapsAre(out, n + AllCaptures(parts), open) && |out| >= n && out[..n] == caps
    decreases parts
  {
    hide CapsAre, PartOk, Step;
    CapsLength(caps, n, open);
    if parts != [] {
      var x, rest := parts[0], parts[1..];
      var q: nat, mid: seq<Cap> :| q <= |g.src| && Step(g, x, s, caps, q, mid) && Means(g, rest, q, mid, e, out);
      StepKeeps(g, x, s, caps, q, mid, n, open);
      CapsLength(mid, n + Captures(x), open);
      MeansKeeps(g, rest, q, mid, e, out, n + Captures(x), open);
      CapsLength(out, n + Captures(x) + AllCaptures(rest), open);
      assert out[..n] == out[..n + Captures(x)][..n] == mid[..n];
    }
  }

  // ---- Items -------------------------------------------------------------------------------------------

  lemma ThreeParts(t: string, a: string, b: string, c: string)
    requires t == a + b + c
    ensures |t| == |a| + |b| + |c| && t[..|a|] == a && t[|a|..|a| + |b|] == b && t[|a| + |b|..] == c
  {
  }

  lemma PartsFrom(pat: string, p: nat, a: string, b: string, c: string)
    requires p <= |pat| && pat[p..] == a + b + c
    ensures p + |a| + |b| <= |pat| && pat[p..p + |a|] == a && pat[p + |a|..p + |a| + |b|] == b
    ensures pat[p + |a| + |b|..] == c
  {
    var t := pat[p..];
    ThreeParts(t, a, b, c);
    assert |t| == |pat| - p;
    assert forall k :: 0 <= k < |t| ==> t[k] == pat[p + k];
    assert pat[p..p + |a|] == t[..|a|];
    assert pat[p + |a|..p + |a| + |b|] == t[|a|..|a| + |b|];
    assert pat[p + |a| + |b|..] == t[|a| + |b|..];
  }

  /** What comes next is no suffix. */
  predicate NotSuffix(tail: string)
  {
    tail == "" || tail[0] !in "?*+-"
  }

  /** From 'p' on the pattern is that text and the rest. */
  predicate Written(g: Subject, p: nat, t: string, tail: string)
  {
    p <= |g.pat| && g.pat[p..] == t + tail
  }

  lemma WrittenParts(g: Subject, p: nat, a: string, b: string, tail: string)
    requires Written(g, p, a + b, tail)
    ensures Written(g, p, a, b + tail) && p + |a| <= |g.pat| && Written(g, p + |a|, b, tail)
    ensures g.pat[p..p + |a|] == a && p + |a| + |b| <= |g.pat| && g.pat[p + |a|..p + |a| + |b|] == b
    ensures g.pat[p + |a| + |b|..] == tail
  {
    PartsFrom(g.pat, p, a, b, tail);
    assert a + b + tail == a + (b + tail);
    assert g.pat[p + |a|..] == g.pat[p + |a|..p + |a| + |b|] + g.pat[p + |a| + |b|..];
  }

  /** The characters of a text where it is written. */
  lemma WrittenAt(g: Subject, p: nat, t: string, tail: string)
    requires Written(g, p, t, tail)
    ensures p + |t| <= |g.pat| && g.pat[p..p + |t|] == t && g.pat[p + |t|..] == tail
    ensures forall i :: 0 <= i < |t| ==> g.pat[p + i] == t[i]
  {
    PartsFrom(g.pat, p, t, "", tail);
    assert t + "" + tail == t + tail;
    forall i | 0 <= i < |t| ensures g.pat[p + i] == t[i] {
      assert g.pat[p..p + |t|][i] == t[i];
    }
  }

  lemma ShortIs(g: Subject, s: nat, p: nat, x: Single)
    requires Plain(x) && (x.Any? || x.Char?) && p < |g.pat| && [g.pat[p]] == SingleText(x)
    ensures ClassEnd(g.pat, p) == End(p + 1)
    ensures PatternWays.Single(g, s, p, p + 1) <==> s < |g.src| && Accepts(g, x, g.src[s])
  {
    SingleMeaning(g, s, p);
    hide PatternWays.Single;
  }

  lemma ClassIs(g: Subject, s: nat, p: nat, cl: char)
    requires p + 1 < |g.pat| && g.pat[p] == '%' && g.pat[p + 1] == cl
    ensures ClassEnd(g.pat, p) == End(p + 2)
    ensures PatternWays.Single(g, s, p, p + 2) <==> s < |g.src| && Accepts(g, InClass(cl), g.src[s])
  {
    SingleMeaning(g, s, p);
    hide PatternWays.Single, MatchClass;
  }

  lemma SetIs(g: Subject, s: nat, p: nat, x: Single)
    requires Plain(x) && x.InSet? && p + |SingleText(x)| <= |g.pat| && g.pat[p..p + |SingleText(x)|] == SingleText(x)
    ensures ClassEnd(g.pat, p) == End(p + |SingleText(x)|) && |SingleText(x)| > 1
    ensures PatternWays.Single(g, s, p, p + |SingleText(x)|) <==> s < |g.src| && Accepts(g, x, g.src[s])
  {
    var b, n := SetBody(x.neg, x.ms), |SingleText(x)|;
    var ec := p + n - 1;
    assert g.pat[p..p + n] == "[" + b + "]" && n == |b| + 2;
    hide SetText, Readable, Enclosed, SetBody;
    SetPlaces(g.pat, p, b);
    hide PatternWays.Single, ClassEnd, InBrackets;
    SetMeaning(g, s, p, ec, x.neg, x.ms);
  }

  lemma SetPlaces(pat: string, p: nat, b: string)
    requires p + |b| + 2 <= |pat| && pat[p..p + |b| + 2] == "[" + b + "]"
    ensures pat[p] == '[' && pat[p + 1..p + 1 + |b|] == b && pat[p + 1 + |b|] == ']'
  {
    var t := pat[p..p + |b| + 2];
    assert pat[p] == t[0] && pat[p + 1 + |b|] == t[1 + |b|];
    forall i | 0 <= i < |b| ensures pat[p + 1 + i] == b[i] {
      assert pat[p + 1 + i] == t[1 + i] == b[i];
    }
  }

  /** An item where it is written: where it ends, and what it accepts. */
  lemma SingleIs(g: Subject, s: nat, p: nat, x: Single)
    requires Plain(x) && p + |SingleText(x)| <= |g.pat| && g.pat[p..p + |SingleText(x)|] == SingleText(x)
    ensures p < |g.pat| && ClassEnd(g.pat, p) == End(p + |SingleText(x)|)
    ensures PatternWays.Single(g, s, p, p + |SingleText(x)|) <==> s < |g.src| && Accepts(g, x, g.src[s])
  {
    hide Plain, Accepts, PatternWays.Single, ClassEnd;
    if x.InSet? {
      SetIs(g, s, p, x);
    } else {
      hide SetBody;
      assert g.pat[p] == g.pat[p..p + |SingleText(x)|][0];
      if x.InClass? {
        assert g.pat[p + 1] == g.pat[p..p + 2][1];
        ClassIs(g, s, p, x.cl);
      } else {
        ShortIs(g, s, p, x);
      }
    }
  }

  /** The character of a suffix, or none of those. */
  predicate SuffixChar(f: Suffix, c: char)
  {
    match f
    case Once => c !in "?*+-"
    case AtMostOnce => c == '?'
    case AnyTimes => c == '*'
    case FewTimes => c == '-'
    case SomeTimes => c == '+'
  }

  lemma CharAllows(f: Suffix, c: char, n: nat)
    requires SuffixChar(f, c)
    ensures Allows(c, n) <==> Times(f, n)
    ensures |SuffixText(f)| == if c in "?*+-" then 1 else 0
  {
  }

  /** The character after an item. */
  lemma SuffixAt(g: Subject, p: nat, i: Item, tail: string)
    requires Written(g, p, ItemText(i), tail) && NotSuffix(tail)
    ensures SuffixChar(i.suffix, At(g.pat, p + |SingleText(i.x)|))
  {
    var a, b := SingleText(i.x), SuffixText(i.suffix);
    hide SingleText, Written;
    WrittenParts(g, p, a, b, tail);
    var ep := p + |a|;
    if i.suffix == Once {
      assert g.pat[ep..] == tail;
      if tail != "" { assert g.pat[ep] == g.pat[ep..][0]; }
    } else {
      assert g.pat[ep] == g.pat[ep..ep + 1][0];
    }
  }

  /** The first character of an item, and the one after it, do not mean anything else. */
  predicate BeginsItem(pat: string, p: nat)
  {
    && p < |pat| && pat[p] !in "()$"
    && (pat[p] == '%' ==> var c := At(pat, p + 1); c != 'b' && c != 'f' && !('0' <= c <= '9'))
  }

  lemma WaysOfItem(g: Subject, s: nat, p: nat, caps: seq<Cap>)
    requires BeginsItem(g.pat, p)
    ensures Ways(g, s, p, caps) == ItemWays(g, s, p, caps)
  {
    hide ItemWays, Open, Frontier, Balance, ClassEnd, CaptureIndex, Repeats, ToClose, CloseAt;
  }

  lemma SingleBegins(pat: string, p: nat, x: Single)
    requires Plain(x) && p + |SingleText(x)| <= |pat| && pat[p..p + |SingleText(x)|] == SingleText(x)
    ensures BeginsItem(pat, p)
  {
    var t := SingleText(x);
    assert pat[p] == pat[p..p + |t|][0] == t[0];
    hide Readable, Enclosed, SetText;
    if x.InClass? { assert pat[p + 1] == pat[p..p + |t|][1]; }
  }

  lemma BeginsWithin(pat: string, p: nat)
    requires BeginsItem(pat, p)
    ensures p < |pat|
  {
  }

  lemma AllAccepted(g: Subject, p: nat, ep: nat, x: Single, s: nat, q: nat)
    requires s <= |g.src| && s <= q
    requires forall k: nat :: PatternWays.Single(g, k, p, ep) <==> k < |g.src| && Accepts(g, x, g.src[k])
    ensures (forall k :: s <= k < q ==> PatternWays.Single(g, k, p, ep)) <==>
              q <= |g.src| && forall k :: s <= k < q ==> Accepts(g, x, g.src[k])
  {
    hide PatternWays.Single, Accepts;
    if q > |g.src| { assert !PatternWays.Single(g, |g.src|, p, ep); }
  }

  lemma TakesParts(g: Subject, s: nat, q: nat, p: nat, ep: nat, i: Item)
    requires s <= q && (Allows(At(g.pat, ep), q - s) <==> Times(i.suffix, q - s))
    requires (forall k :: s <= k < q ==> PatternWays.Single(g, k, p, ep)) <==>
               q <= |g.src| && forall k :: s <= k < q ==> Accepts(g, i.x, g.src[k])
    ensures Takes(g, s, q, p, ep) <==> Reads(g, i, s, q)
  {
    hide PatternWays.Single, Accepts, Allows, Times;
  }

  lemma TakesOrder(g: Subject, s: nat, q: nat, p: nat, ep: nat, i: Item)
    requires s > q
    ensures !Takes(g, s, q, p, ep) && !Reads(g, i, s, q)
  {
  }

  lemma ItemTakes(g: Subject, p: nat, i: Item, tail: string, s: nat, q: nat)
    requires Written(g, p, ItemText(i), tail) && NotSuffix(tail) && Plain(i.x) && s <= |g.src|
    ensures Takes(g, s, q, p, p + |SingleText(i.x)|) <==> Reads(g, i, s, q)
  {
    hide *;
    var ep := p + |SingleText(i.x)|;
    if s > q {
      TakesOrder(g, s, q, p, ep, i);
    } else {
      SuffixAt(g, p, i, tail);
      CharAllows(i.suffix, At(g.pat, ep), q - s);
      ItemParts(g, p, i, tail);
      forall k: nat ensures PatternWays.Single(g, k, p, ep) <==> k < |g.src| && Accepts(g, i.x, g.src[k]) {
        SingleIs(g, k, p, i.x);
      }
      AllAccepted(g, p, ep, i.x, s, q);
      TakesParts(g, s, q, p, ep, i);
    }
  }

  lemma ItemParts(g: Subject, p: nat, i: Item, tail: string)
    requires Written(g, p, ItemText(i), tail)
    ensures p + |SingleText(i.x)| <= |g.pat| && g.pat[p..p + |SingleText(i.x)|] == SingleText(i.x)
    ensures |ItemText(i)| == |SingleText(i.x)| + |SuffixText(i.suffix)|
  {
    hide SingleText, SuffixText, Written;
    WrittenParts(g, p, SingleText(i.x), SuffixText(i.suffix), tail);
  }

  lemma AfterIs(g: Subject, p: nat, i: Item, tail: string)
    requires Written(g, p, ItemText(i), tail) && NotSuffix(tail)
    ensures AfterItem(g, p + |SingleText(i.x)|) == p + |ItemText(i)|
  {
    SuffixAt(g, p, i, tail);
    ItemParts(g, p, i, tail);
    CharAllows(i.suffix, At(g.pat, p + |SingleText(i.x)|), 0);
    hide Written, ItemText, SingleText, SuffixText, SuffixChar, Allows, Times;
  }

  // ---- The ways of a part ------------------------------------------------------------------------------

  /** The way goes through the part and then on. */
  ghost predicate Goes(g: Subject, s: nat, p: nat, caps: seq<Cap>, x: Part, w: Way)
    requires s <= |g.src|
  {
    exists q: nat, mid: seq<Cap> ::
      q <= |g.src| && Step(g, x, s, caps, q, mid) && w in Ways(g, q, p + |PartText(x)|, mid)
  }

  ghost predicate AllGo(g: Subject, s: nat, p: nat, caps: seq<Cap>, parts: seq<Part>, w: Way)
    requires s <= |g.src|
  {
    exists e: nat, out: seq<Cap> :: Means(g, parts, s, caps, e, out) && w in Ways(g, e, p + |Text(parts)|, out)
  }

  lemma ItemGoes(g: Subject, s: nat, p: nat, caps: seq<Cap>, i: Item, tail: string, w: Way)
    requires Written(g, p, ItemText(i), tail) && NotSuffix(tail) && Plain(i.x) && s <= |g.src|
    ensures w in Ways(g, s, p, caps) <==> Goes(g, s, p, caps, JustItem(i), w)
  {
    var ep := p + |SingleText(i.x)|;
    hide *;
    ItemParts(g, p, i, tail);
    SingleBegins(g.pat, p, i.x);
    BeginsWithin(g.pat, p);
    WaysOfItem(g, s, p, caps);
    SingleIs(g, s, p, i.x);
    ItemHas(g, s, p, caps, w);
    AfterIs(g, p, i, tail);
    forall q: nat ensures Takes(g, s, q, p, ep) <==> Reads(g, i, s, q) {
      ItemTakes(g, p, i, tail, s, q);
    }
    ItemIs(g, s, p, caps, i, w);
  }

  lemma ItemIs(g: Subject, s: nat, p: nat, caps: seq<Cap>, i: Item, w: Way)
    requires s <= |g.src| && AfterItem(g, p + |SingleText(i.x)|) == p + |ItemText(i)|
    requires forall q: nat :: Takes(g, s, q, p, p + |SingleText(i.x)|) <==> Reads(g, i, s, q)
    ensures FromTaken(g, s, p, p + |SingleText(i.x)|, caps, w) <==> Goes(g, s, p, caps, JustItem(i), w)
  {
    var ep := p + |SingleText(i.x)|;
    assert PartText(JustItem(i)) == ItemText(i);
    hide Ways, Takes, SingleText, ItemText, AfterItem;
    if FromTaken(g, s, p, ep, caps, w) {
      var q: nat :| Takes(g, s, q, p, ep) && w in Ways(g, q, AfterItem(g, ep), caps);
      assert Step(g, JustItem(i), s, caps, q, caps);
    }
  }

  lemma HereGoes(g: Subject, s: nat, p: nat, caps: seq<Cap>, tail: string, w: Way)
    requires Written(g, p, "()", tail) && |caps| < LUA_MAXCAPTURES && s <= |g.src|
    ensures w in Ways(g, s, p, caps) <==> Goes(g, s, p, caps, Here, w)
  {
    WrittenAt(g, p, "()", tail);
    var mid := caps + [Cap(s, Position)];
    assert Step(g, Here, s, caps, s, mid);
    assert Ways(g, s, p, caps) == Ways(g, s, p + 2, mid) by { hide ItemWays; }
    hide Ways;
  }

  /** The way goes on with the captured text again. */
  lemma AgainGoes(g: Subject, s: nat, p: nat, caps: seq<Cap>, k: nat, tail: string, w: Way, n: nat, open: set<nat>)
    requires Written(g, p, PartText(Again(k)), tail) && PartOk(Again(k), n, open) && CapsAre(caps, n, open)
    requires s <= |g.src|
    ensures w in Ways(g, s, p, caps) <==> Goes(g, s, p, caps, Again(k), w)
  {
    WrittenAt(g, p, PartText(Again(k)), tail);
    var cap := caps[k - 1];
    assert At(g.pat, p) == '%' && At(g.pat, p + 1) == DIGITS[k];
    DigitIs(k);
    AgainWays(g, s, p, caps, k);
    hide Ways;
    if Repeats(g.src, s, cap) { assert Step(g, Again(k), s, caps, s + cap.len.n, caps); }
  }

  lemma DigitIs(k: nat)
    requires k < 10
    ensures DIGITS[k] as int == '0' as int + k
  {
  }

  lemma AgainWays(g: Subject, s: nat, p: nat, caps: seq<Cap>, k: nat)
    requires p + 1 < |g.pat| && g.pat[p] == '%' && g.pat[p + 1] as int == '0' as int + k && 1 <= k <= 9 && k <= |caps|
    requires caps[k - 1].len != Unfinished
    ensures Ways(g, s, p, caps) ==
              if Repeats(g.src, s, caps[k - 1]) then Ways(g, s + caps[k - 1].len.n, p + 2, caps) else []
  {
    hide ItemWays, Balance, Frontier, Repeats;
  }

  lemma BalanceIs(g: Subject, s: nat, p: nat, q: nat)
    requires s <= |g.src| && q > 0
    ensures Balance(g, s, p) == q <==> Balanced(g.src, s, At(g.pat, p), At(g.pat, p + 1), q)
  {
    var b, e := At(g.pat, p), At(g.pat, p + 1);
    if s < |g.src| { BalanceMeaning(g.src, s + 1, b, e, 1); }
    hide BalanceFrom, Excess;
  }

  lemma BetweenWays(g: Subject, s: nat, p: nat, caps: seq<Cap>)
    requires p + 3 < |g.pat| && g.pat[p] == '%' && g.pat[p + 1] == 'b'
    ensures Ways(g, s, p, caps) ==
              if Balance(g, s, p + 2) > 0 then Ways(g, Balance(g, s, p + 2), p + 4, caps) else []
  {
    hide ItemWays, Balance, Frontier, Repeats;
  }

  lemma BetweenGoes(g: Subject, s: nat, p: nat, caps: seq<Cap>, b: char, e: char, tail: string, w: Way)
    requires Written(g, p, ['%', 'b', b, e], tail) && s <= |g.src|
    ensures w in Ways(g, s, p, caps) <==> Goes(g, s, p, caps, Between(b, e), w)
  {
    WrittenAt(g, p, ['%', 'b', b, e], tail);
    assert At(g.pat, p + 2) == b && At(g.pat, p + 3) == e;
    BetweenWays(g, s, p, caps);
    hide Ways, Balance, Balanced;
    var r := Balance(g, s, p + 2);
    forall q: nat | q > 0 ensures r == q <==> Balanced(g.src, s, b, e, q) {
      BalanceIs(g, s, p + 2, q);
    }
    if r > 0 { assert Step(g, Between(b, e), s, caps, r, caps); }
    forall q: nat | Balanced(g.src, s, b, e, q) ensures q > 0 {
      BalancedBound(g.src, s, b, e, q);
      NotEmpty(g.src, s, b, e, q);
    }
  }

  lemma NotEmpty(src: string, s: nat, b: char, e: char, q: nat)
    requires Balanced(src, s, b, e, q)
    ensures q > s
  {
  }

  lemma EdgeWays(g: Subject, s: nat, p: nat, caps: seq<Cap>)
    requires p + 2 < |g.pat| && g.pat[p] == '%' && g.pat[p + 1] == 'f' && g.pat[p + 2] == '['
    requires ClassEnd(g.pat, p + 2).End?
    ensures var ep := ClassEnd(g.pat, p + 2).ep;
            Ways(g, s, p, caps) == if Frontier(g, s, p + 2, ep) then Ways(g, s, ep, caps) else []
  {
    hide ItemWays, Balance, Frontier, Repeats, ClassEnd;
  }

  /** The places of a frontier. */
  lemma EdgePlaces(pat: string, p: nat, body: string)
    requires p + 4 + |body| <= |pat| && pat[p..p + 4 + |body|] == "%f[" + body + "]"
    ensures pat[p] == '%' && pat[p + 1] == 'f' && pat[p + 2] == '[' && pat[p + 3 + |body|] == ']'
    ensures pat[p + 3..p + 3 + |body|] == body
  {
    var t := pat[p..p + 4 + |body|];
    assert pat[p] == t[0] && pat[p + 1] == t[1] && pat[p + 2] == t[2] && pat[p + 3 + |body|] == t[3 + |body|];
    forall i | 0 <= i < |body| ensures pat[p + 3 + i] == body[i] {
      assert pat[p + 3 + i] == t[3 + i] == body[i];
    }
  }

  lemma EdgeText(neg: bool, ms: seq<Member>)
    ensures PartText(Edge(neg, ms)) == "%f[" + SetBody(neg, ms) + "]"
    ensures |PartText(Edge(neg, ms))| == |SetBody(neg, ms)| + 4
  {
  }

  lemma SetOkIs(neg: bool, ms: seq<Member>)
    requires SetOk(neg, ms)
    ensures ms != [] && Readable(ms) && Enclosed(ms) && (!neg ==> SetText(ms) != [] && SetText(ms)[0] != '^')
  {
  }

  lemma EdgeGoes(g: Subject, s: nat, p: nat, caps: seq<Cap>, neg: bool, ms: seq<Member>, tail: string, w: Way)
    requires Written(g, p, PartText(Edge(neg, ms)), tail) && SetOk(neg, ms) && s <= |g.src|
    ensures w in Ways(g, s, p, caps) <==> Goes(g, s, p, caps, Edge(neg, ms), w)
  {
    hide *;
    var body := SetBody(neg, ms);
    var ec := p + 3 + |body|;
    EdgeText(neg, ms);
    WrittenAt(g, p, PartText(Edge(neg, ms)), tail);
    EdgePlaces(g.pat, p, body);
    SetOkIs(neg, ms);
    SetMeaning(g, s, p + 2, ec, neg, ms);
    FrontierMeaning(g, s, p + 2, ec, neg, ms);
    EdgeWays(g, s, p, caps);
    EdgeIs(g, s, p, caps, neg, ms, w);
  }

  lemma EdgeIs(g: Subject, s: nat, p: nat, caps: seq<Cap>, neg: bool, ms: seq<Member>, w: Way)
    requires s <= |g.src|
    requires Ways(g, s, p, caps) ==
               if SomeHas(g, if s == 0 then '\0' else g.src[s - 1], ms) == neg
                  && SomeHas(g, if s == |g.src| then '\0' else g.src[s], ms) != neg
               then Ways(g, s, p + |PartText(Edge(neg, ms))|, caps) else []
    ensures w in Ways(g, s, p, caps) <==> Goes(g, s, p, caps, Edge(neg, ms), w)
  {
    hide Ways, SomeHas, PartText;
    if AtEdge(g, s, neg, ms) { assert Step(g, Edge(neg, ms), s, caps, s, caps); }
  }

  // ---- Groups and whole patterns -----------------------------------------------------------------------

  lemma OpenWays(g: Subject, s: nat, p: nat, caps: seq<Cap>)
    requires p < |g.pat| && g.pat[p] == '(' && At(g.pat, p + 1) != ')' && |caps| < LUA_MAXCAPTURES
    ensures Ways(g, s, p, caps) == Ways(g, s, p + 1, caps + [Cap(s, Unfinished)])
  {
    hide ItemWays;
  }

  /** The capture that is closed is the one of this group: all others that were begun since are complete. */
  lemma CloseWays(g: Subject, q: nat, p: nat, inner: seq<Cap>, n: nat, m: nat, open: set<nat>, s: nat)
    requires p < |g.pat| && g.pat[p] == ')' && n < m && CapsAre(inner, m, open + {n}) && inner[n] == Cap(s, Unfinished)
    requires forall k :: k in open ==> k < n
    ensures Ways(g, q, p, inner) == Ways(g, q, p + 1, inner[n := Cap(s, Closed(q - s))])
  {
    assert ToClose(inner) == n;
    hide ItemWays, ToClose;
  }

  /** What begins a part. */
  lemma FirstChar(x: Part, n: nat, open: set<nat>)
    requires PartOk(x, n, open)
    ensures PartText(x)[0] !in "?*+-)"
  {
  }

  lemma TextIs(parts: seq<Part>)
    requires parts != []
    ensures Text(parts) == PartText(parts[0]) + Text(parts[1..])
  {
  }

  lemma TextFirst(parts: seq<Part>, n: nat, open: set<nat>, tail: string)
    requires PartsOk(parts, n, open) && NotSuffix(tail)
    ensures NotSuffix(Text(parts) + tail) && (parts != [] ==> Text(parts) != [] && Text(parts)[0] != ')')
  {
    if parts != [] {
      assert PartOk(parts[0], n, open);
      hide PartOk, PartText;
      FirstChar(parts[0], n, open);
      TextIs(parts);
      assert (Text(parts) + tail)[0] == PartText(parts[0])[0];
    } else {
      assert Text(parts) + tail == tail;
    }
  }

  /** A part that is written at 'p' is matched as it means, whatever comes after it. */
  lemma {:induction false} PartWays(g: Subject, s: nat, p: nat, caps: seq<Cap>, x: Part, tail: string, n: nat,
          open: set<nat>, w: Way)
    requires Written(g, p, PartText(x), tail) && NotSuffix(tail) && s <= |g.src|
    requires PartOk(x, n, open) && CapsAre(caps, n, open)
    ensures w in Ways(g, s, p, caps) <==> Goes(g, s, p, caps, x, w)
    decreases x, 1
  {
    hide Written, NotSuffix, Ways, Goes, CapsAre, Plain, ItemText, Step, SetOk;
    CapsLength(caps, n, open);
    match x
    case JustItem(i) =>
      ItemGoes(g, s, p, caps, i, tail, w);
    case Here =>
      HereGoes(g, s, p, caps, tail, w);
    case Group(parts) =>
      GroupWays(g, s, p, caps, x, tail, n, open, w);
    case Again(k) =>
      AgainGoes(g, s, p, caps, k, tail, w, n, open);
    case Between(b, e) =>
      BetweenGoes(g, s, p, caps, b, e, tail, w);
    case Edge(neg, ms) =>
      EdgeGoes(g, s, p, caps, neg, ms, tail, w);
  }

  lemma GroupText(g: Subject, p: nat, parts: seq<Part>, tail: string)
    requires Written(g, p, "(" + Text(parts) + ")", tail)
    ensures p + 1 + |Text(parts)| < |g.pat| && g.pat[p] == '(' && g.pat[p + 1 + |Text(parts)|] == ')'
    ensures Written(g, p + 1, Text(parts), ")" + tail)
    ensures Text(parts) != [] ==> At(g.pat, p + 1) == Text(parts)[0]
  {
    var t := Text(parts);
    hide Text;
    assert "(" + t + ")" == "(" + (t + ")");
    hide Written;
    WrittenParts(g, p, "(", t + ")", tail);
    WrittenParts(g, p + 1, t, ")", tail);
    WrittenAt(g, p, "(", (t + ")") + tail);
    WrittenAt(g, p + 1, t, ")" + tail);
    WrittenAt(g, p + 1 + |t|, ")", tail);
  }

  lemma {:induction false} GroupWays(g: Subject, s: nat, p: nat, caps: seq<Cap>, x: Part, tail: string, n: nat,
          open: set<nat>, w: Way)
    requires x.Group? && Written(g, p, PartText(x), tail) && s <= |g.src|
    requires PartOk(x, n, open) && CapsAre(caps, n, open)
    ensures w in Ways(g, s, p, caps) <==> Goes(g, s, p, caps, x, w)
    decreases x, 0
  {
    var parts, begun := x.parts, caps + [Cap(s, Unfinished)];
    hide *;
    GroupHas(x, n, open);
    CapsLength(caps, n, open);
    GroupText(g, p, parts, tail);
    ClosingIsNone(tail);
    TextFirst(parts, n + 1, open + {n}, ")" + tail);
    OpenWays(g, s, p, caps);
    CapsMore(caps, n, open, s);
    Language(g, s, p + 1, begun, parts, ")" + tail, n + 1, open + {n}, w);
    GroupEnds(g, s, p, caps, x, n, open, w);
  }

  /** After the parts inside, the parenthesis that closes the group. */
  lemma GroupEnds(g: Subject, s: nat, p: nat, caps: seq<Cap>, x: Part, n: nat, open: set<nat>, w: Way)
    requires x.Group? && s <= |g.src| && PartsOk(x.parts, n + 1, open + {n}) && CapsAre(caps, n, open)
    requires var pc := p + 1 + |Text(x.parts)|; pc < |g.pat| && g.pat[pc] == ')' && pc + 1 == p + |PartText(x)|
    ensures AllGo(g, s, p + 1, caps + [Cap(s, Unfinished)], x.parts, w) <==> Goes(g, s, p, caps, x, w)
  {
    hide *;
    var parts, begun, pc := x.parts, caps + [Cap(s, Unfinished)], p + 1 + |Text(x.parts)|;
    if AllGo(g, s, p + 1, begun, parts, w) {
      var q, inner := FromAll(g, s, p + 1, begun, parts, w);
      AfterInner(g, s, pc, caps, parts, q, inner, n, open);
      IntoGroup(g, s, p, caps, x, q, inner, w);
    }
    if Goes(g, s, p, caps, x, w) {
      var q, inner := FromGroup(g, s, p, caps, x, w);
      AfterInner(g, s, pc, caps, parts, q, inner, n, open);
      IntoAll(g, s, p + 1, begun, parts, q, inner, w);
    }
  }

  lemma GroupHas(x: Part, n: nat, open: set<nat>)
    requires x.Group? && PartOk(x, n, open)
    ensures PartText(x) == "(" + Text(x.parts) + ")" && |PartText(x)| == |Text(x.parts)| + 2
    ensures PartsOk(x.parts, n + 1, open + {n}) && x.parts != [] && n < LUA_MAXCAPTURES
  {
    hide PartsOk, Text;
  }

  lemma ClosingIsNone(tail: string)
    ensures NotSuffix(")" + tail)
  {
  }

  lemma AfterInner(g: Subject, s: nat, pc: nat, caps: seq<Cap>, parts: seq<Part>, q: nat, inner: seq<Cap>, n: nat,
          open: set<nat>)
    requires pc < |g.pat| && g.pat[pc] == ')' && PartsOk(parts, n + 1, open + {n}) && CapsAre(caps, n, open)
    requires s <= |g.src| && Means(g, parts, s, caps + [Cap(s, Unfinished)], q, inner)
    ensures |caps| < |inner| && q <= |g.src|
    ensures Ways(g, q, pc, inner) == Ways(g, q, pc + 1, inner[|caps| := Cap(s, Closed(q - s))])
  {
    hide *;
    var begun, m := caps + [Cap(s, Unfinished)], n + 1 + AllCaptures(parts);
    CapsLength(caps, n, open);
    CapsMore(caps, n, open, s);
    MeansKeeps(g, parts, s, begun, q, inner, n + 1, open + {n});
    CapsLength(inner, m, open + {n});
    CutPrefix(inner, caps, Cap(s, Unfinished), Cap(s, Closed(q - s)));
    CloseWays(g, q, pc, inner, n, m, open, s);
  }

  lemma IntoGroup(g: Subject, s: nat, p: nat, caps: seq<Cap>, x: Part, q: nat, inner: seq<Cap>, w: Way)
    requires x.Group? && s <= |g.src| && q <= |g.src| && |caps| < |inner|
    requires Means(g, x.parts, s, caps + [Cap(s, Unfinished)], q, inner)
    requires w in Ways(g, q, p + |PartText(x)|, inner[|caps| := Cap(s, Closed(q - s))])
    ensures Goes(g, s, p, caps, x, w)
  {
    hide Ways, Means, PartText;
    assert Step(g, x, s, caps, q, inner[|caps| := Cap(s, Closed(q - s))]);
  }

  lemma FromGroup(g: Subject, s: nat, p: nat, caps: seq<Cap>, x: Part, w: Way) returns (q: nat, inner: seq<Cap>)
    requires x.Group? && s <= |g.src| && Goes(g, s, p, caps, x, w)
    ensures q <= |g.src| && |caps| < |inner| && Means(g, x.parts, s, caps + [Cap(s, Unfinished)], q, inner)
    ensures w in Ways(g, q, p + |PartText(x)|, inner[|caps| := Cap(s, Closed(q - s))])
  {
    hide *;
    var mid: seq<Cap>;
    q, mid := FromGoes(g, s, p, caps, x, w);
    inner := InnerOf(g, s, caps, x, q, mid);
  }

  lemma InnerOf(g: Subject, s: nat, caps: seq<Cap>, x: Part, q: nat, mid: seq<Cap>) returns (inner: seq<Cap>)
    requires x.Group? && s <= |g.src| && Step(g, x, s, caps, q, mid)
    ensures Means(g, x.parts, s, caps + [Cap(s, Unfinished)], q, inner) && |caps| < |inner|
    ensures mid == inner[|caps| := Cap(s, Closed(q - s))]
  {
    hide Means;
    inner :| Means(g, x.parts, s, caps + [Cap(s, Unfinished)], q, inner) && |caps| < |inner|
             && mid == inner[|caps| := Cap(s, Closed(q - s))];
  }

  lemma IntoAll(g: Subject, s: nat, p: nat, caps: seq<Cap>, parts: seq<Part>, e: nat, out: seq<Cap>, w: Way)
    requires s <= |g.src| && Means(g, parts, s, caps, e, out) && w in Ways(g, e, p + |Text(parts)|, out)
    ensures AllGo(g, s, p, caps, parts, w)
  {
    hide Ways, Means, Text;
  }

  lemma FromAll(g: Subject, s: nat, p: nat, caps: seq<Cap>, parts: seq<Part>, w: Way) returns (e: nat, out: seq<Cap>)
    requires s <= |g.src| && AllGo(g, s, p, caps, parts, w)
    ensures Means(g, parts, s, caps, e, out) && w in Ways(g, e, p + |Text(parts)|, out)
  {
    hide Ways, Means, Text;
    e, out :| Means(g, parts, s, caps, e, out) && w in Ways(g, e, p + |Text(parts)|, out);
  }

  lemma IntoGoes(g: Subject, s: nat, p: nat, caps: seq<Cap>, x: Part, q: nat, mid: seq<Cap>, w: Way)
    requires s <= |g.src| && q <= |g.src| && Step(g, x, s, caps, q, mid) && w in Ways(g, q, p + |PartText(x)|, mid)
    ensures Goes(g, s, p, caps, x, w)
  {
    hide Ways, Step, PartText;
  }

  lemma FromGoes(g: Subject, s: nat, p: nat, caps: seq<Cap>, x: Part, w: Way) returns (q: nat, mid: seq<Cap>)
    requires s <= |g.src| && Goes(g, s, p, caps, x, w)
    ensures q <= |g.src| && Step(g, x, s, caps, q, mid) && w in Ways(g, q, p + |PartText(x)|, mid)
  {
    hide Ways, Step, PartText;
    q, mid :| q <= |g.src| && Step(g, x, s, caps, q, mid) && w in Ways(g, q, p + |PartText(x)|, mid);
  }

  /** The matcher goes through the parts as they mean, and then on with the rest of the pattern. */
  lemma {:induction false} Language(g: Subject, s: nat, p: nat, caps: seq<Cap>, parts: seq<Part>, tail: string, n: nat,
          open: set<nat>, w: Way)
    requires Written(g, p, Text(parts), tail) && NotSuffix(tail) && s <= |g.src|
    requires PartsOk(parts, n, open) && CapsAre(caps, n, open)
    ensures w in Ways(g, s, p, caps) <==> AllGo(g, s, p, caps, parts, w)
    decreases parts, 2
  {
    hide *;
    if parts == [] {
      NoneGo(g, s, p, caps, w);
    } else {
      var x, rest := parts[0], parts[1..];
      var next := p + |PartText(x)|;
      OkParts(parts, n, open);
      TextIs(parts);
      WrittenParts(g, p, PartText(x), Text(rest), tail);
      TextFirst(rest, n + Captures(x), open, tail);
      PartWays(g, s, p, caps, x, Text(rest) + tail, n, open, w);
      if Goes(g, s, p, caps, x, w) {
        var q, mid := FromGoes(g, s, p, caps, x, w);
        StepKeeps(g, x, s, caps, q, mid, n, open);
        Language(g, q, next, mid, rest, tail, n + Captures(x), open, w);
        var e, out := FromAll(g, q, next, mid, rest, w);
        FirstMeans(g, parts, s, caps, q, mid, e, out);
        IntoAll(g, s, p, caps, parts, e, out, w);
      }
      if AllGo(g, s, p, caps, parts, w) {
        var e, out := FromAll(g, s, p, caps, parts, w);
        var q, mid := MeansFirst(g, parts, s, caps, e, out);
        StepKeeps(g, x, s, caps, q, mid, n, open);
        IntoAll(g, q, next, mid, rest, e, out, w);
        Language(g, q, next, mid, rest, tail, n + Captures(x), open, w);
        IntoGoes(g, s, p, caps, x, q, mid, w);
      }
    }
  }

  lemma OkParts(parts: seq<Part>, n: nat, open: set<nat>)
    requires parts != [] && PartsOk(parts, n, open)
    ensures PartOk(parts[0], n, open) && PartsOk(parts[1..], n + Captures(parts[0]), open)
  {
  }

  lemma NoneGo(g: Subject, s: nat, p: nat, caps: seq<Cap>, w: Way)
    requires s <= |g.src|
    ensures w in Ways(g, s, p, caps) <==> AllGo(g, s, p, caps, [], w)
  {
    assert Means(g, [], s, caps, s, caps) && |Text([])| == 0;
    hide Ways;
  }

  lemma FirstMeans(g: Subject, parts: seq<Part>, s: nat, caps: seq<Cap>, q: nat, mid: seq<Cap>, e: nat, out: seq<Cap>)
    requires parts != [] && s <= |g.src| && q <= |g.src|
    requires Step(g, parts[0], s, caps, q, mid) && Means(g, parts[1..], q, mid, e, out)
    ensures Means(g, parts, s, caps, e, out)
  {
    hide Step;
  }

  lemma MeansFirst(g: Subject, parts: seq<Part>, s: nat, caps: seq<Cap>, e: nat, out: seq<Cap>)
    returns (q: nat, mid: seq<Cap>)
    requires parts != [] && s <= |g.src| && Means(g, parts, s, caps, e, out)
    ensures q <= |g.src| && Step(g, parts[0], s, caps, q, mid) && Means(g, parts[1..], q, mid, e, out)
  {
    hide Step;
    q, mid :| q <= |g.src| && Step(g, parts[0], s, caps, q, mid) && Means(g, parts[1..], q, mid, e, out);
  }

  /**
   The ways to match such a pattern are exactly what its parts mean, up to the end of the subject if a '$' follows them;
   there is no error.
   */
  lemma MatchesLanguage(g: Subject, s: nat, p: nat, parts: seq<Part>, atEnd: bool, w: Way)
    requires s <= |g.src| && PartsOk(parts, 0, {}) && Written(g, p, Text(parts), if atEnd then "$" else "")
    ensures w in Ways(g, s, p, []) <==>
              w.Way? && Means(g, parts, s, [], w.e, w.caps) && (atEnd ==> w.e == |g.src|)
  {
    var tail, pe := if atEnd then "$" else "", p + |Text(parts)|;
    WrittenAt(g, p, Text(parts), tail);
    hide Ways, Text, Means, PartsOk, Written;
    assert NotSuffix(tail) && CapsAre([], 0, {});
    Language(g, s, p, [], parts, tail, 0, {}, w);
    assert if atEnd then pe + 1 == |g.pat| && g.pat[pe] == g.pat[pe..][0] == '$' else pe == |g.pat|;
    forall e: nat, out: seq<Cap>
      ensures Ways(g, e, pe, out) == if atEnd && e != |g.src| then [] else [Way(e, out)]
    {
      EndWays(g, e, pe, out, atEnd);
    }
    if w.Way? && Means(g, parts, s, [], w.e, w.caps) && (atEnd ==> w.e == |g.src|) {
      assert w in Ways(g, w.e, pe, w.caps);
    }
  }

  lemma EndWays(g: Subject, e: nat, pe: nat, out: seq<Cap>, atEnd: bool)
    requires if atEnd then pe + 1 == |g.pat| && g.pat[pe] == '$' else pe == |g.pat|
    ensures Ways(g, e, pe, out) == if atEnd && e != |g.src| then [] else [Way(e, out)]
  {
    hide ItemWays;
  }
}
