/**
 Operator precedence (lparser.c, "subexpr" and its priority table): an expression printed with the
 parentheses that the table asks for is parsed as the same expression.
 */
module Precedence {
  datatype BinOp =
    | Add | Sub | Mul | Mod | Pow | Div | IDiv | BAnd | BOr | BXor | Shl | Shr | Concat
    | Eq | Lt | Le | Ne | Gt | Ge | And | Or

  datatype UnOp = Minus | BNot | Not | Len

  /** Tokens; the minus sign and the tilde are both unary and binary operators. */
  datatype Token =
    | TMinus | TTilde | TNot | THash
    | TPlus | TStar | TPercent | TCaret | TSlash | TIDiv | TAmp | TBar | TShl | TShr | TConcat
    | TEq | TLt | TLe | TNe | TGt | TGe | TAnd | TOr
    | TOpen | TClose | TAtom(n: nat) | TOther(n: nat)

  datatype Option<T> = None | Some(v: T)

  function GetUnOpr(t: Token): Option<UnOp>
  {
    match t
    case TNot => Some(Not)
    case TMinus => Some(Minus)
    case TTilde => Some(BNot)
    case THash => Some(Len)
    case _ => None
  }

  function GetBinOpr(t: Token): Option<BinOp>
  {
    match t
    case TPlus => Some(Add)
    case TMinus => Some(Sub)
    case TStar => Some(Mul)
    case TPercent => Some(Mod)
    case TCaret => Some(Pow)
    case TSlash => Some(Div)
    case TIDiv => Some(IDiv)
    case TAmp => Some(BAnd)
    case TBar => Some(BOr)
    case TTilde => Some(BXor)
    case TShl => Some(Shl)
    case TShr => Some(Shr)
    case TConcat => Some(Concat)
    case TNe => Some(Ne)
    case TEq => Some(Eq)
    case TLt => Some(Lt)
    case TLe => Some(Le)
    case TGt => Some(Gt)
    case TGe => Some(Ge)
    case TAnd => Some(And)
    case TOr => Some(Or)
    case _ => None
  }

  function UnToken(op: UnOp): (t: Token)
    ensures GetUnOpr(t) == Some(op)
  {
    match op
    case Minus => TMinus
    case BNot => TTilde
    case Not => TNot
    case Len => THash
  }

  function BinToken(op: BinOp): (t: Token)
    ensures GetBinOpr(t) == Some(op)
  {
    match op
    case Add => TPlus
    case Sub => TMinus
    case Mul => TStar
    case Mod => TPercent
    case Pow => TCaret
    case Div => TSlash
    case IDiv => TIDiv
    case BAnd => TAmp
    case BOr => TBar
    case BXor => TTilde
    case Shl => TShl
    case Shr => TShr
    case Concat => TConcat
    case Eq => TEq
    case Lt => TLt
    case Le => TLe
    case Ne => TNe
    case Gt => TGt
    case Ge => TGe
    case And => TAnd
    case Or => TOr
  }

  /** The priority table. */
  function Left(op: BinOp): nat
  {
    match op
    case Add => 10
    case Sub => 10
    case Mul => 11
    case Mod => 11
    case Pow => 14
    case Div => 11
    case IDiv => 11
    case BAnd => 6
    case BOr => 4
    case BXor => 5
    case Shl => 7
    case Shr => 7
    case Concat => 9
    case And => 2
    case Or => 1
    case _ => 3
  }

  function Right(op: BinOp): nat
  {
    match op
    case Pow => 13
    case Concat => 8
    case _ => Left(op)
  }

  const UNARY_PRIORITY: nat := 12

  datatype Exp = Atom(n: nat) | Un(uop: UnOp, e: Exp) | Bin(bop: BinOp, l: Exp, r: Exp)

  // ---- Parsing -----------------------------------------------------------------------------------

  /** An expression and the position after it. */
  datatype Parsed = Parsed(e: Exp, p: nat) | SyntaxError | TooDeep

  /** The binary operator at a position. */
  function OpAt(t: seq<Token>, p: nat): Option<BinOp>
  {
    if p < |t| then GetBinOpr(t[p]) else None
  }

  /** simpleexp: an atom, or an expression in parentheses. */
  function SimpleExp(t: seq<Token>, p: nat): (r: Parsed)
    ensures r.Parsed? ==> p < r.p <= |t|
    ensures r != TooDeep
    decreases |t| - p, 0
  {
    if p >= |t| then SyntaxError
    else if t[p].TAtom? then Parsed(Atom(t[p].n), p + 1)
    else if t[p].TOpen? then
      var r := SubExpr(t, p + 1, 0);
      if r.Parsed? && r.p < |t| && t[r.p].TClose? then Parsed(r.e, r.p + 1) else SyntaxError
    else SyntaxError
  }

  /** subexpr: an operand, and then operators with priorities higher than the limit. */
  function SubExpr(t: seq<Token>, p: nat, limit: nat): (r: Parsed)
    ensures r.Parsed? ==> p < r.p <= |t|
    ensures r != TooDeep
    decreases |t| - p, 2
  {
    if p >= |t| then SyntaxError
    else if GetUnOpr(t[p]).Some? then
      var r := SubExpr(t, p + 1, UNARY_PRIORITY);
      if r.Parsed? then Operators(t, Un(GetUnOpr(t[p]).v, r.e), r.p, limit) else SyntaxError
    else
      var r := SimpleExp(t, p);
      if r.Parsed? then Operators(t, r.e, r.p, limit) else SyntaxError
  }

  /** The loop of subexpr: 'v' is the expression so far. */
  function Operators(t: seq<Token>, v: Exp, p: nat, limit: nat): (r: Parsed)
    requires p <= |t|
    ensures r.Parsed? ==> p <= r.p <= |t|
    ensures r != TooDeep
    decreases |t| - p, 1
  {
    var op := OpAt(t, p);
    if op.Some? && Left(op.v) > limit then
      var r := SubExpr(t, p + 1, Right(op.v));
      if r.Parsed? then Operators(t, Bin(op.v, v, r.e), r.p, limit) else SyntaxError
    else Parsed(v, p)
  }

  lemma SubStart(t: seq<Token>, p: nat, limit: nat)
    ensures p >= |t| ==> SubExpr(t, p, limit) == SyntaxError
    ensures p < |t| ==>
              var un := GetUnOpr(t[p]);
              var r := if un.Some? then SubExpr(t, p + 1, UNARY_PRIORITY) else SimpleExp(t, p);
              SubExpr(t, p, limit) ==
              (if r.Parsed? then Operators(t, if un.Some? then Un(un.v, r.e) else r.e, r.p, limit) else SyntaxError)
              && (r.Parsed? ==> p < r.p <= |t|) && (!r.Parsed? ==> r == SyntaxError)
  {
    hide GetUnOpr, SimpleExp, Operators;
  }

  lemma LoopStep(t: seq<Token>, v: Exp, p: nat, limit: nat)
    requires p <= |t|
    ensures var op := OpAt(t, p);
            if op.Some? && Left(op.v) > limit then
              var r := SubExpr(t, p + 1, Right(op.v));
              Operators(t, v, p,
                        limit) == (if r.Parsed? then Operators(t, Bin(op.v, v, r.e), r.p, limit) else SyntaxError)
              && (r.Parsed? ==> p < r.p <= |t|) && (!r.Parsed? ==> r == SyntaxError)
            else Operators(t, v, p, limit) == Parsed(v, p)
  {
    hide Left, Right, OpAt, SubExpr;
  }

  const LUAI_MAXCCALLS: nat := 200

  /** The parser, which advances in the tokens and counts its nested levels. */
  class LexState {
    const t: seq<Token>
    var p: nat
    var nCcalls: nat

    ghost predicate Valid()
      reads this
    {
      p <= |t|
    }

    constructor (t: seq<Token>, nCcalls: nat)
      ensures Valid() && this.t == t && p == 0 && this.nCcalls == nCcalls
    {
      this.t, p, this.nCcalls := t, 0, nCcalls;
    }

    /** What a call leaves: what the grammar says, unless it went too deep, which needs as many tokens as levels. */
    ghost predicate Done(r: Parsed, spec: Parsed, p0: nat, n0: nat)
      reads this
    {
      && Valid() && (r != TooDeep ==> r == spec) && (r.Parsed? ==> p == r.p && nCcalls == n0)
      && (r == TooDeep ==> n0 + (|t| - p0) >= LUAI_MAXCCALLS - 1)
    }

    method ParseSimple() returns (r: Parsed)
      requires Valid()
      modifies `p, `nCcalls
      ensures Done(r, SimpleExp(t, old(p)), old(p) + 1, old(nCcalls))
      decreases |t| - p, 0
    {
      if p >= |t| { return SyntaxError; }
      if t[p].TAtom? {
        p := p + 1;
        return Parsed(Atom(t[p - 1].n), p);
      } else if t[p].TOpen? {
        p := p + 1;
        r := ParseSubExpr(0);
        if !r.Parsed? { return; }
        if !(p < |t| && t[p].TClose?) { return SyntaxError; }
        p := p + 1;
        return Parsed(r.e, p);
      }
      return SyntaxError;
    }

    method ParseSubExpr(limit: nat) returns (r: Parsed)
      requires Valid()
      modifies `p, `nCcalls
      ensures Done(r, SubExpr(t, old(p), limit), old(p), old(nCcalls))
      decreases |t| - p, 1
    {
      hide Left, Right, GetBinOpr, GetUnOpr, SubExpr, Operators, SimpleExp;
      SubStart(t, p, limit);
      ghost var p0, n0 := p, nCcalls;
      nCcalls := nCcalls + 1;
      if nCcalls >= LUAI_MAXCCALLS { return TooDeep; }
      if p >= |t| { return SyntaxError; }
      var v: Exp;
      if GetUnOpr(t[p]).Some? {
        var uop := GetUnOpr(t[p]).v;
        p := p + 1;
        r := ParseSubExpr(UNARY_PRIORITY);
        if !r.Parsed? { return; }
        v := Un(uop, r.e);
      } else {
        r := ParseSimple();
        if !r.Parsed? { return; }
        v := r.e;
      }
      while OpAt(t, p).Some? && Left(OpAt(t, p).v) > limit
        invariant p0 < p <= |t| && nCcalls == n0 + 1 < LUAI_MAXCCALLS
        invariant Operators(t, v, p, limit) == SubExpr(t, p0, limit)
        decreases |t| - p
      {
        var op := OpAt(t, p).v;
        LoopStep(t, v, p, limit);
        p := p + 1;
        r := ParseSubExpr(Right(op));
        if !r.Parsed? { return; }
        v := Bin(op, v, r.e);
      }
      LoopStep(t, v, p, limit);
      nCcalls := nCcalls - 1;
      return Parsed(v, p);
    }
  }

  // ---- The levels ----------------------------------------------------------------------------------

  /** The operators by precedence, the weakest first; the unary operators come before the last level. */
  function Level(op: BinOp): (n: nat)
    ensures n <= 9 || n == 11
  {
    if op == Or then 0
    else if op == And then 1
    else if op in {Lt, Gt, Le, Ge, Ne, Eq} then 2
    else if op == BOr then 3
    else if op == BXor then 4
    else if op == BAnd then 5
    else if op in {Shl, Shr} then 6
    else if op == Concat then 7
    else if op in {Add, Sub} then 8
    else if op in {Mul, Div, IDiv, Mod} then 9
    else 11
  }

  const UNARY_LEVEL := 10

  /** The first of two operators takes the operand between them; all associate to the left but these two. */
  predicate FirstBinds(op1: BinOp, op2: BinOp)
  {
    Level(op1) > Level(op2) || (Level(op1) == Level(op2) && op1 != Concat && op1 != Pow)
  }

  lemma LevelPriority(op: BinOp)
    ensures var n := Level(op);
            && Left(op) == (if n <= 6 then n + 1 else if n == 11 then 14 else [9, 10, 11][n - 7])
            && Right(op) == if n == 7 then 8 else if n == 11 then 13 else Left(op)
    ensures (Level(op) == 7 <==> op == Concat) && (Level(op) == 11 <==> op == Pow)
  {
  }

  /** The priorities in the table mean these levels. */
  lemma LevelsAgree(op1: BinOp, op2: BinOp)
    ensures Left(op1) > 0 && (Left(op2) > Right(op1) <==> !FirstBinds(op1, op2))
    ensures Left(op1) > UNARY_PRIORITY <==> Level(op1) > UNARY_LEVEL
  {
    LevelPriority(op1);
    LevelPriority(op2);
    hide Level, Left, Right;
  }

  lemma AtomFirst(t: seq<Token>, p: nat, limit: nat)
    requires p < |t| && t[p].TAtom?
    ensures SubExpr(t, p, limit) == Operators(t, Atom(t[p].n), p + 1, limit)
  {
    hide Operators;
  }

  lemma AtEnd(t: seq<Token>, v: Exp, limit: nat)
    ensures Operators(t, v, |t|, limit) == Parsed(v, |t|)
  {
  }

  /** How 'a op1 b op2 c' groups. */
  lemma Grouping(op1: BinOp, op2: BinOp, a: nat, b: nat, c: nat)
    ensures SubExpr([TAtom(a), BinToken(op1), TAtom(b), BinToken(op2), TAtom(c)], 0, 0) ==
              Parsed(if FirstBinds(op1, op2) then Bin(op2, Bin(op1, Atom(a), Atom(b)), Atom(c))
                     else Bin(op1, Atom(a), Bin(op2, Atom(b), Atom(c))), 5)
  {
    var t := [TAtom(a), BinToken(op1), TAtom(b), BinToken(op2), TAtom(c)];
    LevelsAgree(op1, op2);
    LevelsAgree(op2, op1);
    assert OpAt(t, 1) == Some(op1) && OpAt(t, 3) == Some(op2) && |t| == 5;
    AtomFirst(t, 0, 0);
    AtomFirst(t, 2, Right(op1));
    AtomFirst(t, 4, Right(op2));
    AtEnd(t, Atom(c), Right(op2));
    hide *;
    LoopStep(t, Atom(a), 1, 0);
    LoopStep(t, Atom(b), 3, Right(op1));
    LoopStep(t, Bin(op1, Atom(a), Atom(b)), 3, 0);
    AtEnd(t, Bin(op2, Bin(op1, Atom(a), Atom(b)), Atom(c)), 0);
    AtEnd(t, Bin(op2, Atom(b), Atom(c)), Right(op1));
    AtEnd(t, Bin(op1, Atom(a), Bin(op2, Atom(b), Atom(c))), 0);
  }

  /** Only '^' binds stronger than a unary operator before it. */
  lemma UnaryGrouping(un: UnOp, op: BinOp, a: nat, b: nat)
    ensures SubExpr([UnToken(un), TAtom(a), BinToken(op), TAtom(b)], 0, 0) ==
              Parsed(if op == Pow then Un(un, Bin(op, Atom(a), Atom(b))) else Bin(op, Un(un, Atom(a)), Atom(b)), 4)
  {
    var t := [UnToken(un), TAtom(a), BinToken(op), TAtom(b)];
    LevelsAgree(op, op);
    assert (Level(op) > UNARY_LEVEL <==> op == Pow) && OpAt(t, 2) == Some(op) && GetUnOpr(t[0]) == Some(un) && |t| == 4;
    AtomFirst(t, 1, UNARY_PRIORITY);
    AtomFirst(t, 3, Right(op));
    AtEnd(t, Atom(b), Right(op));
    SubStart(t, 0, 0);
    hide *;
    LoopStep(t, Atom(a), 2, UNARY_PRIORITY);
    LoopStep(t, Un(un, Atom(a)), 2, 0);
    AtEnd(t, Bin(op, Atom(a), Atom(b)), UNARY_PRIORITY);
    AtEnd(t, Un(un, Bin(op, Atom(a), Atom(b))), 0);
    AtEnd(t, Bin(op, Un(un, Atom(a)), Atom(b)), 0);
  }

  // ---- Writing -----------------------------------------------------------------------------------

  /**
   Parentheses are needed where the operator would not be read at this level, or where the next operator would be read
   too early.
   */
  predicate NeedsParens(e: Exp, limit: nat, after: nat)
  {
    match e
    case Atom(_) => false
    case Un(_, _) => after > UNARY_PRIORITY
    case Bin(op, _, _) => Left(op) <= limit || after > Right(op)
  }

  /** An expression with the number of pairs of parentheses written around each part. */
  datatype Written =
    | WAtom(n: nat, parens: nat)
    | WUn(uop: UnOp, a: Written, parens: nat)
    | WBin(bop: BinOp, l: Written, r: Written, parens: nat)

  /** The expression that is meant. */
  function Meant(w: Written): Exp
  {
    match w
    case WAtom(n, _) => Atom(n)
    case WUn(op, a, _) => Un(op, Meant(a))
    case WBin(op, l, r, _) => Bin(op, Meant(l), Meant(r))
  }

  function Wrap(t: seq<Token>, k: nat): seq<Token>
    decreases k
  {
    if k == 0 then t else [TOpen] + Wrap(t, k - 1) + [TClose]
  }

  /** The tokens of an expression, its outer parentheses left out. */
  function Inner(w: Written): seq<Token>
    decreases w, 0
  {
    match w
    case WAtom(n, _) => [TAtom(n)]
    case WUn(op, a, _) => [UnToken(op)] + Text(a)
    case WBin(op, l, r, _) => Text(l) + [BinToken(op)] + Text(r)
  }

  function Text(w: Written): seq<Token>
    decreases w, 1
  {
    Wrap(Inner(w), w.parens)
  }

  /** There are parentheses wherever the context asks for them. */
  predicate Enough(w: Written, limit: nat, after: nat)
    decreases w, 1
  {
    if w.parens > 0 then EnoughInside(w, 0, 0)
    else !NeedsParens(Meant(w), limit, after) && EnoughInside(w, limit, after)
  }

  predicate EnoughInside(w: Written, limit: nat, after: nat)
    decreases w, 0
  {
    match w
    case WAtom(_, _) => true
    case WUn(_, a, _) => Enough(a, UNARY_PRIORITY, after)
    case WBin(op, l, r, _) => Enough(l, limit, Left(op)) && Enough(r, Right(op), after)
  }

  // ---- Reading what is written with enough parentheses -----------------------------------------------

  /** The left priority of what comes at a position; zero if it is no operator. */
  function LeftAt(t: seq<Token>, p: nat): nat
  {
    if OpAt(t, p).Some? then Left(OpAt(t, p).v) else 0
  }

  ghost predicate HasAt(t: seq<Token>, p: nat, w: seq<Token>)
  {
    p + |w| <= |t| && t[p..p + |w|] == w
  }

  lemma HasParts(t: seq<Token>, p: nat, a: seq<Token>, b: seq<Token>)
    requires HasAt(t, p, a + b)
    ensures HasAt(t, p, a) && HasAt(t, p + |a|, b)
  {
    assert t[p..p + |a|] == t[p..p + |a + b|][..|a|];
    assert t[p + |a|..p + |a| + |b|] == t[p..p + |a + b|][|a|..];
  }

  lemma HasOne(t: seq<Token>, p: nat, x: Token)
    requires HasAt(t, p, [x])
    ensures p < |t| && t[p] == x
  {
    assert t[p..p + 1][0] == t[p];
  }

  /** The loop ends at an operator of lower priority. */
  lemma LoopEnds(t: seq<Token>, v: Exp, p: nat, limit: nat)
    requires p <= |t| && LeftAt(t, p) <= limit
    ensures Operators(t, v, p, limit) == Parsed(v, p)
  {
  }

  lemma OpThere(t: seq<Token>, p: nat, op: BinOp)
    requires p < |t| && t[p] == BinToken(op)
    ensures OpAt(t, p) == Some(op) && LeftAt(t, p) == Left(op)
  {
  }

  lemma Starts(n: nat)
    ensures GetUnOpr(TAtom(n)).None? && GetUnOpr(TOpen).None? && GetBinOpr(TClose).None?
  {
  }

  /** After a part read at the lowest level the parser goes on behind its parentheses. */
  lemma {:induction false} ParsesWrapped(t: seq<Token>, p: nat, inner: seq<Token>, k: nat, e: Exp, limit: nat)
    requires k > 0 && HasAt(t, p, Wrap(inner, k)) && HasAt(t, p + k, inner)
    requires LeftAt(t, p + k + |inner|) == 0 ==> SubExpr(t, p + k, 0) == Parsed(e, p + k + |inner|)
    ensures SubExpr(t, p, limit) == Operators(t, e, p + |Wrap(inner, k)|, limit)
    decreases k
  {
    hide SubExpr, Operators, SimpleExp, HasAt, GetUnOpr, GetBinOpr, Left, LeftAt;
    var w := Wrap(inner, k - 1);
    HasParts(t, p, [TOpen] + w, [TClose]);
    HasParts(t, p, [TOpen], w);
    HasOne(t, p, TOpen);
    HasOne(t, p + 1 + |w|, TClose);
    CloseIsLow(t, p + 1 + |w|);
    Starts(0);
    if k > 1 {
      ParsesWrapped(t, p + 1, inner, k - 1, e, 0);
      LoopEnds(t, e, p + 1 + |w|, 0);
    }
    ParenthesesRead(t, p, e, p + 1 + |w|);
    SubStart(t, p, limit);
  }

  lemma ParenthesesRead(t: seq<Token>, p: nat, e: Exp, q: nat)
    requires q < |t| && p < q && t[p].TOpen? && t[q].TClose? && SubExpr(t, p + 1, 0) == Parsed(e, q)
    ensures SimpleExp(t, p) == Parsed(e, q + 1)
  {
    hide SubExpr;
  }

  /** After a part written with enough parentheses, the parser has read what is meant and goes on with what follows. */
  lemma {:induction false} Parses(t: seq<Token>, p: nat, w: Written, limit: nat, after: nat)
    requires Enough(w, limit, after) && HasAt(t, p, Text(w)) && LeftAt(t, p + |Text(w)|) <= after
    ensures SubExpr(t, p, limit) == Operators(t, Meant(w), p + |Text(w)|, limit)
    decreases w, 1
  {
    hide Left, Right, GetUnOpr, GetBinOpr, HasAt, NeedsParens, EnoughInside, SubExpr, Operators;
    if w.parens == 0 {
      ParsesInner(t, p, w, limit, after);
    } else {
      var inner, k := Inner(w), w.parens;
      InsideWrap(t, p, inner, k);
      NoneAtLowest(Meant(w));
      if LeftAt(t, p + k + |inner|) == 0 {
        ParsesInner(t, p + k, w, 0, 0);
        LoopEnds(t, Meant(w), p + k + |inner|, 0);
      }
      ParsesWrapped(t, p, inner, k, Meant(w), limit);
    }
  }

  lemma {:induction false} InsideWrap(t: seq<Token>, p: nat, inner: seq<Token>, k: nat)
    requires HasAt(t, p, Wrap(inner, k))
    ensures HasAt(t, p + k, inner)
    decreases k
  {
    if k > 0 {
      var w := Wrap(inner, k - 1);
      HasParts(t, p, [TOpen] + w, [TClose]);
      HasParts(t, p, [TOpen], w);
      InsideWrap(t, p + 1, inner, k - 1);
    }
  }

  lemma NoneAtLowest(e: Exp)
    ensures !NeedsParens(e, 0, 0)
  {
    if e.Bin? { assert Left(e.bop) > 0; }
  }

  lemma {:induction false} ParsesInner(t: seq<Token>, p: nat, w: Written, limit: nat, after: nat)
    requires !NeedsParens(Meant(w), limit, after) && EnoughInside(w, limit, after)
    requires HasAt(t, p, Inner(w)) && LeftAt(t, p + |Inner(w)|) <= after
    ensures SubExpr(t, p, limit) == Operators(t, Meant(w), p + |Inner(w)|, limit)
    decreases w, 0
  {
    hide Left, Right, UnToken, BinToken, GetUnOpr, GetBinOpr, HasAt, SubExpr, Operators, Text, Enough;
    match w
    case WAtom(n, _) =>
      HasOne(t, p, TAtom(n));
      Starts(n);
      SubStart(t, p, limit);
    case WUn(op, a, _) =>
      HasParts(t, p, [UnToken(op)], Text(a));
      HasOne(t, p, UnToken(op));
      Parses(t, p + 1, a, UNARY_PRIORITY, after);
      LoopEnds(t, Meant(a), p + 1 + |Text(a)|, UNARY_PRIORITY);
      SubStart(t, p, limit);
    case WBin(op, l, r, _) =>
      var wl, wr := Text(l), Text(r);
      HasParts(t, p, wl + [BinToken(op)], wr);
      HasParts(t, p, wl, [BinToken(op)]);
      HasOne(t, p + |wl|, BinToken(op));
      OpThere(t, p + |wl|, op);
      Parses(t, p, l, limit, Left(op));
      Parses(t, p + |wl| + 1, r, Right(op), after);
      LoopEnds(t, Meant(r), p + |wl| + 1 + |wr|, Right(op));
      LoopStep(t, Meant(l), p + |wl|, limit);
  }

  // ---- Whatever is read was written with enough parentheses -------------------------------------------

  /** The part of the tokens that a subexpression was read from. */
  ghost predicate ReadAs(t: seq<Token>, p: nat, q: nat, w: Written, e: Exp)
  {
    p <= q <= |t| && Text(w) == t[p..q] && Meant(w) == e
  }

  lemma {:induction false} Reads(t: seq<Token>, p: nat, limit: nat) returns (w: Written)
    requires SubExpr(t, p, limit).Parsed?
    ensures var r := SubExpr(t, p, limit);
            ReadAs(t, p, r.p, w, r.e) && Enough(w, limit, LeftAt(t, r.p)) && LeftAt(t, r.p) <= limit
    decreases |t| - p, 2
  {
    hide Left, GetUnOpr, GetBinOpr, Operators, Enough, Text;
    SubStart(t, p, limit);
    if GetUnOpr(t[p]).Some? {
      var op, r := GetUnOpr(t[p]).v, SubExpr(t, p + 1, UNARY_PRIORITY);
      var a := Reads(t, p + 1, UNARY_PRIORITY);
      UnTokenBack(t[p]);
      WriteUn(t, p, op, a, r.e, r.p, limit);
      w := ReadsMore(t, WUn(op, a, 0), Un(op, r.e), p, r.p, limit);
    } else {
      var r := SimpleExp(t, p);
      var a := ReadsSimple(t, p, limit);
      w := ReadsMore(t, a, r.e, p, r.p, limit);
    }
  }

  lemma WriteUn(t: seq<Token>, p: nat, op: UnOp, a: Written, e: Exp, q: nat, limit: nat)
    requires p < |t| && t[p] == UnToken(op) && ReadAs(t, p + 1, q, a, e)
    requires Enough(a, UNARY_PRIORITY, LeftAt(t, q)) && LeftAt(t, q) <= UNARY_PRIORITY
    ensures ReadAs(t, p, q, WUn(op, a, 0), Un(op, e)) && Enough(WUn(op, a, 0), limit, LeftAt(t, q))
  {
    hide Left, LeftAt, UnToken;
    var w := WUn(op, a, 0);
    assert Text(w) == Inner(w) == [UnToken(op)] + Text(a);
    assert EnoughInside(w, limit, LeftAt(t, q));
    assert t[p..q] == [t[p]] + t[p + 1..q];
  }

  lemma {:induction false} ReadsSimple(t: seq<Token>, p: nat, limit: nat) returns (w: Written)
    requires p < |t| && GetUnOpr(t[p]).None? && SimpleExp(t, p).Parsed?
    ensures var r := SimpleExp(t, p); ReadAs(t, p, r.p, w, r.e) && Enough(w, limit, LeftAt(t, r.p))
    decreases |t| - p, 0
  {
    hide Left, LeftAt, Operators, SubExpr, Enough, Text, Meant;
    if t[p].TAtom? {
      w := WAtom(t[p].n, 0);
      AtomEnough(t, p, limit);
    } else {
      var r := SubExpr(t, p + 1, 0);
      var a := Reads(t, p + 1, 0);
      CloseIsLow(t, r.p);
      w := a.(parens := a.parens + 1);
      WrapMore(a, w, limit, LeftAt(t, r.p + 1));
      assert t[p..r.p + 1] == [t[p]] + t[p + 1..r.p] + [t[r.p]];
    }
  }

  lemma AtomEnough(t: seq<Token>, p: nat, limit: nat)
    requires p < |t| && t[p].TAtom?
    ensures ReadAs(t, p, p + 1, WAtom(t[p].n, 0), Atom(t[p].n)) && Enough(WAtom(t[p].n, 0), limit, LeftAt(t, p + 1))
  {
    hide LeftAt;
    var w := WAtom(t[p].n, 0);
    assert t[p..p + 1] == [t[p]];
    assert Text(w) == Inner(w) == [TAtom(t[p].n)];
    assert EnoughInside(w, limit, LeftAt(t, p + 1)) && !NeedsParens(Meant(w), limit, LeftAt(t, p + 1));
  }

  lemma CloseIsLow(t: seq<Token>, p: nat)
    requires p < |t| && t[p].TClose?
    ensures LeftAt(t, p) == 0
  {
  }

  /** One more pair of parentheses. */
  lemma WrapMore(a: Written, w: Written, limit: nat, after: nat)
    requires w == a.(parens := a.parens + 1) && Enough(a, 0, 0)
    ensures Text(w) == [TOpen] + Text(a) + [TClose] && Meant(w) == Meant(a) && Enough(w, limit, after)
  {
    assert Inner(w) == Inner(a) && Meant(w) == Meant(a);
    assert Text(w) == Wrap(Inner(w), w.parens) && Text(a) == Wrap(Inner(a), a.parens);
    assert EnoughInside(a, 0, 0);
    assert EnoughInside(w, 0, 0);
  }

  lemma {:induction false} ReadsMore(t: seq<Token>, v: Written, e: Exp, p0: nat, p: nat, limit: nat)
    returns (w: Written)
    requires ReadAs(t, p0, p, v, e) && Enough(v, limit, LeftAt(t, p)) && Operators(t, e, p, limit).Parsed?
    ensures var r := Operators(t, e, p, limit);
            ReadAs(t, p0, r.p, w, r.e) && Enough(w, limit, LeftAt(t, r.p)) && LeftAt(t, r.p) <= limit
    decreases |t| - p, 1
  {
    hide Left, Right, GetBinOpr, SubExpr, Enough, Text;
    LoopStep(t, e, p, limit);
    var op := OpAt(t, p);
    if op.Some? && Left(op.v) > limit {
      var r := SubExpr(t, p + 1, Right(op.v));
      var b := Reads(t, p + 1, Right(op.v));
      BinTokenBack(t[p]);
      WriteBin(t, p0, p, op.v, v, b, e, r.e, r.p, limit);
      w := ReadsMore(t, WBin(op.v, v, b, 0), Bin(op.v, e, r.e), p0, r.p, limit);
    } else {
      w := v;
    }
  }

  lemma WriteBin(t: seq<Token>, p0: nat, p: nat, op: BinOp, v: Written, b: Written, e: Exp, eb: Exp, q: nat, limit: nat)
    requires p < |t| && t[p] == BinToken(op) && ReadAs(t, p0, p, v, e) && ReadAs(t, p + 1, q, b, eb) && Left(op) > limit
    requires Enough(v, limit, Left(op)) && Enough(b, Right(op), LeftAt(t, q)) && LeftAt(t, q) <= Right(op)
    ensures ReadAs(t, p0, q, WBin(op, v, b, 0), Bin(op, e, eb)) && Enough(WBin(op, v, b, 0), limit, LeftAt(t, q))
  {
    hide Left, Right, LeftAt, BinToken;
    var w := WBin(op, v, b, 0);
    assert Text(w) == Inner(w) == Text(v) + [BinToken(op)] + Text(b);
    assert EnoughInside(w, limit, LeftAt(t, q));
    assert t[p0..q] == t[p0..p] + [t[p]] + t[p + 1..q];
  }

  lemma UnTokenBack(x: Token)
    requires GetUnOpr(x).Some?
    ensures UnToken(GetUnOpr(x).v) == x && !x.TOpen? && !x.TClose?
  {
  }

  lemma BinTokenBack(x: Token)
    requires GetBinOpr(x).Some?
    ensures BinToken(GetBinOpr(x).v) == x && !x.TOpen? && !x.TClose?
  {
  }

  /** The tokens are read as an expression exactly when they are the expression written with enough parentheses. */
  lemma ParsedIff(t: seq<Token>, e: Exp)
    ensures SubExpr(t, 0, 0) == Parsed(e, |t|) <==> exists w :: Text(w) == t && Meant(w) == e && Enough(w, 0, 0)
  {
    hide SubExpr, Enough, Text, Meant;
    assert t[0..|t|] == t;
    if SubExpr(t, 0, 0) == Parsed(e, |t|) {
      var w := Reads(t, 0, 0);
      assert Text(w) == t && Meant(w) == e && Enough(w, 0, 0);
    }
    forall w | Text(w) == t && Meant(w) == e && Enough(w, 0, 0) ensures SubExpr(t, 0, 0) == Parsed(e, |t|) {
      Parses(t, 0, w, 0, 0);
      LoopEnds(t, e, |t|, 0);
    }
  }

  // ---- The same expression with other parentheses has another text -------------------------------------

  predicate IsParen(x: Token)
  {
    x.TOpen? || x.TClose?
  }

  /** The tokens before the one that is number 'n', not counting parentheses. */
  function Before(t: seq<Token>, n: nat): seq<Token>
  {
    if t == [] || (n == 0 && !IsParen(t[0])) then []
    else [t[0]] + Before(t[1..], if IsParen(t[0]) then n else n - 1)
  }

  /** How many parentheses are open at the end. */
  function Depth(t: seq<Token>): int
  {
    if t == [] then 0 else (if t[0].TOpen? then 1 else if t[0].TClose? then -1 else 0) + Depth(t[1..])
  }

  lemma {:induction false} DepthParts(a: seq<Token>, b: seq<Token>)
    ensures Depth(a + b) == Depth(a) + Depth(b)
    decreases |a|
  {
    if a == [] {
      assert a + b == b;
    } else {
      assert (a + b)[1..] == a[1..] + b;
      DepthParts(a[1..], b);
    }
  }

  /** How many tokens an expression has, not counting parentheses. */
  function Size(e: Exp): nat
  {
    match e
    case Atom(_) => 1
    case Un(_, a) => 1 + Size(a)
    case Bin(_, l, r) => Size(l) + 1 + Size(r)
  }

  function Opens(k: nat): seq<Token>
  {
    seq(k, _ => TOpen)
  }

  function Closes(k: nat): seq<Token>
  {
    seq(k, _ => TClose)
  }

  lemma {:induction false} WrapIs(t: seq<Token>, k: nat)
    ensures Wrap(t, k) == Opens(k) + t + Closes(k)
    decreases k
  {
    if k > 0 {
      WrapIs(t, k - 1);
      assert Opens(k) == [TOpen] + Opens(k - 1) && Closes(k) == Closes(k - 1) + [TClose];
    }
  }

  lemma {:induction false} OpensFacts(k: nat)
    ensures Depth(Opens(k)) == k && Depth(Closes(k)) == 0 - k
    decreases k
  {
    if k > 0 {
      OpensFacts(k - 1);
      assert Opens(k)[1..] == Opens(k - 1) && Closes(k)[1..] == Closes(k - 1);
    }
  }

  /** A sequence is passed over when 'n' counts its tokens and more follow. */
  ghost predicate Passes(a: seq<Token>, n: nat)
  {
    forall b, m: nat :: Before(a + b, n + m) == a + Before(b, m)
  }

  lemma PassesOne(x: Token)
    ensures Passes([x], if IsParen(x) then 0 else 1)
  {
    forall b, m: nat ensures Before([x] + b, (if IsParen(x) then 0 else 1) + m) == [x] + Before(b, m) {
      assert ([x] + b)[1..] == b;
    }
  }

  lemma PassesParts(a: seq<Token>, n: nat, b: seq<Token>, m: nat)
    requires Passes(a, n) && Passes(b, m)
    ensures Passes(a + b, n + m)
  {
    hide Before;
    forall c, k: nat ensures Before((a + b) + c, (n + m) + k) == (a + b) + Before(c, k) {
      assert (a + b) + c == a + (b + c);
      assert Before(a + (b + c), n + (m + k)) == a + Before(b + c, m + k);
      assert a + (b + Before(c, k)) == (a + b) + Before(c, k);
    }
  }

  lemma PassesNone()
    ensures Passes([], 0)
  {
    forall b, m: nat ensures Before([] + b, 0 + m) == [] + Before(b, m) {
      assert [] + b == b;
    }
  }

  lemma {:induction false} PassesParens(k: nat)
    ensures Passes(Opens(k), 0) && Passes(Closes(k), 0)
    decreases k
  {
    hide Passes;
    if k == 0 {
      PassesNone();
      assert Opens(0) == [] && Closes(0) == [];
    } else {
      PassesParens(k - 1);
      PassesOne(TOpen);
      PassesOne(TClose);
      PassesParts([TOpen], 0, Opens(k - 1), 0);
      PassesParts([TClose], 0, Closes(k - 1), 0);
      assert Opens(k) == [TOpen] + Opens(k - 1) && Closes(k) == [TClose] + Closes(k - 1);
    }
  }

  /** A text is balanced, and passing over it takes as many tokens as the expression has. */
  lemma {:induction false} TextFacts(w: Written)
    ensures Passes(Text(w), Size(Meant(w))) && Depth(Text(w)) == 0
    decreases w, 1
  {
    hide Passes, Depth, Wrap;
    var k := w.parens;
    InnerFacts(w);
    WrapIs(Inner(w), k);
    PassesParens(k);
    PassesParts(Opens(k), 0, Inner(w), Size(Meant(w)));
    PassesParts(Opens(k) + Inner(w), Size(Meant(w)), Closes(k), 0);
    OpensFacts(k);
    DepthParts(Opens(k), Inner(w));
    DepthParts(Opens(k) + Inner(w), Closes(k));
  }

  lemma {:induction false} InnerFacts(w: Written)
    ensures Passes(Inner(w), Size(Meant(w))) && Depth(Inner(w)) == 0
    decreases w, 0
  {
    hide Passes, Text, UnToken, BinToken;
    match w
    case WAtom(n, _) =>
      PassesOne(TAtom(n));
    case WUn(op, a, _) =>
      NotParens(op, Add);
      TextFacts(a);
      PassesOne(UnToken(op));
      PassesParts([UnToken(op)], 1, Text(a), Size(Meant(a)));
      DepthParts([UnToken(op)], Text(a));
    case WBin(op, l, r, _) =>
      NotParens(Minus, op);
      TextFacts(l);
      TextFacts(r);
      PassesOne(BinToken(op));
      PassesParts(Text(l), Size(Meant(l)), [BinToken(op)], 1);
      PassesParts(Text(l) + [BinToken(op)], Size(Meant(l)) + 1, Text(r), Size(Meant(r)));
      DepthParts(Text(l), [BinToken(op)]);
      DepthParts(Text(l) + [BinToken(op)], Text(r));
  }

  lemma NotParens(u: UnOp, b: BinOp)
    ensures !IsParen(UnToken(u)) && !IsParen(BinToken(b))
  {
  }

  /** What comes before the main token of an expression: its parentheses, and the first operand if there is one. */
  function Front(w: Written): seq<Token>
  {
    Opens(w.parens) + First(w)
  }

  function First(w: Written): seq<Token>
  {
    if w.WBin? then Text(w.l) else []
  }

  function FrontSize(w: Written): nat
  {
    if w.WBin? then Size(Meant(w.l)) else 0
  }

  function Mid(w: Written): Token
  {
    match w
    case WAtom(n, _) => TAtom(n)
    case WUn(op, _, _) => UnToken(op)
    case WBin(op, _, _, _) => BinToken(op)
  }

  function Back(w: Written): seq<Token>
  {
    match w
    case WAtom(n, _) => []
    case WUn(_, a, _) => Text(a)
    case WBin(_, _, r, _) => Text(r)
  }

  lemma Halves(w: Written)
    ensures Text(w) == Front(w) + [Mid(w)] + Back(w) + Closes(w.parens)
    ensures Before(Text(w), FrontSize(w)) == Front(w) && Depth(Front(w)) == w.parens
  {
    hide *;
    var k, n, first := w.parens, FrontSize(w), First(w);
    TextParts(w);
    FirstFacts(w);
    PassesParens(k);
    OpensFacts(k);
    PassesParts(Opens(k), 0, first, n);
    DepthParts(Opens(k), first);
    MidStops(w, Back(w) + Closes(k));
    PassedUpTo(Opens(k) + first, n, [Mid(w)] + (Back(w) + Closes(k)));
    assert Front(w) + [Mid(w)] + Back(w) + Closes(k) == Front(w) + ([Mid(w)] + (Back(w) + Closes(k)));
  }

  lemma PassedUpTo(a: seq<Token>, n: nat, rest: seq<Token>)
    requires Passes(a, n) && Before(rest, 0) == []
    ensures Before(a + rest, n) == a
  {
    hide Before;
    assert Before(a + rest, n + 0) == a + Before(rest, 0);
  }

  lemma FirstFacts(w: Written)
    ensures Passes(First(w), FrontSize(w)) && Depth(First(w)) == 0
  {
    hide Passes, Text;
    if w.WBin? { TextFacts(w.l); } else { PassesNone(); }
  }

  lemma TextParts(w: Written)
    ensures Text(w) == Front(w) + [Mid(w)] + Back(w) + Closes(w.parens) && Front(w) == Opens(w.parens) + First(w)
  {
    hide Opens, Closes, UnToken, BinToken, Wrap;
    WrapIs(Inner(w), w.parens);
    assert Text(w) == Wrap(Inner(w), w.parens);
    assert Inner(w) == First(w) + [Mid(w)] + Back(w);
  }

  lemma MidStops(w: Written, rest: seq<Token>)
    ensures Before([Mid(w)] + rest, 0) == []
  {
    if w.WUn? { NotParens(w.uop, Add); }
    if w.WBin? { NotParens(Minus, w.bop); }
    hide UnToken, BinToken;
    assert !IsParen(Mid(w));
  }

  lemma SplitSame(a1: seq<Token>, b1: seq<Token>, a2: seq<Token>, b2: seq<Token>)
    requires a1 + b1 == a2 + b2 && |a1| == |a2|
    ensures a1 == a2 && b1 == b2
  {
    assert a1 == (a1 + b1)[..|a1|] && b1 == (a1 + b1)[|a1|..];
    assert a2 == (a2 + b2)[..|a2|] && b2 == (a2 + b2)[|a2|..];
  }

  /** The text tells where the parentheses are, once the expression is known. */
  lemma {:induction false} SameText(w1: Written, w2: Written)
    requires Text(w1) == Text(w2) && Meant(w1) == Meant(w2)
    ensures w1 == w2
    decreases w1
  {
    hide Text, Before, Depth, UnToken, BinToken;
    Halves(w1);
    Halves(w2);
    assert w1.parens == w2.parens && Front(w1) == Front(w2);
    var k := w1.parens;
    var f, z := Front(w1) + [Mid(w1)], Closes(k);
    assert |Text(w1)| == |f| + |Back(w1)| + |z| && |Text(w2)| == |f| + |Back(w2)| + |z|;
    SplitSame(f + Back(w1), z, f + Back(w2), z);
    SplitSame(f, Back(w1), f, Back(w2));
    if w1.WUn? {
      SameText(w1.a, w2.a);
    } else if w1.WBin? {
      SplitSame(Opens(k), Text(w1.l), Opens(k), Text(w2.l));
      SameText(w1.l, w2.l);
      SameText(w1.r, w2.r);
    }
  }

  /**
   What is written is read as what is meant exactly when there are enough parentheses: no pair that is needed can be
   left out.
   */
  lemma ParensNeeded(w: Written)
    ensures SubExpr(Text(w), 0, 0) == Parsed(Meant(w), |Text(w)|) <==> Enough(w, 0, 0)
  {
    hide SubExpr, Enough, Text, Meant;
    var t, e := Text(w), Meant(w);
    ParsedIff(t, e);
    if SubExpr(t, 0, 0) == Parsed(e, |t|) {
      var w' :| Text(w') == t && Meant(w') == e && Enough(w', 0, 0);
      SameText(w, w');
    }
  }

  // ---- Printing ----------------------------------------------------------------------------------------

  /** An expression with parentheses just where they are needed. */
  function Needed(e: Exp, limit: nat, after: nat): (w: Written)
    ensures Meant(w) == e
    decreases e
  {
    var parens := NeedsParens(e, limit, after);
    var k, lo, hi := if parens then 1 else 0, if parens then 0 else limit, if parens then 0 else after;
    match e
    case Atom(n) => WAtom(n, k)
    case Un(op, a) => WUn(op, Needed(a, UNARY_PRIORITY, hi), k)
    case Bin(op, l, r) => WBin(op, Needed(l, lo, Left(op)), Needed(r, Right(op), hi), k)
  }

  lemma {:induction false} NeededEnough(e: Exp, limit: nat, after: nat)
    ensures Enough(Needed(e, limit, after), limit, after)
    decreases e
  {
    hide Left, Right;
    var parens := NeedsParens(e, limit, after);
    var lo, hi := if parens then 0 else limit, if parens then 0 else after;
    match e
    case Atom(n) =>
    case Un(op, a) =>
      NeededEnough(a, UNARY_PRIORITY, hi);
    case Bin(op, l, r) =>
      NeededEnough(l, lo, Left(op));
      NeededEnough(r, Right(op), hi);
  }

  function Print(e: Exp): seq<Token>
  {
    Text(Needed(e, 0, 0))
  }

  /** Printing and then parsing an expression gives the same expression back, up to its last token. */
  lemma PrintThenParse(e: Exp)
    ensures SubExpr(Print(e), 0, 0) == Parsed(e, |Print(e)|)
  {
    hide SubExpr, Text, Enough, Needed;
    NeededEnough(e, 0, 0);
    ParensNeeded(Needed(e, 0, 0));
  }

  /** The same with the parser itself, when there are not too many tokens. */
  method PrintAndParse(e: Exp) returns (r: Parsed)
    ensures r == Parsed(e, |Print(e)|) || r == TooDeep
    ensures |Print(e)| < LUAI_MAXCCALLS - 1 ==> r == Parsed(e, |Print(e)|)
  {
    hide SubExpr;
    var t := Print(e);
    PrintThenParse(e);
    var ls := new LexState(t, 0);
    r := ls.ParseSubExpr(0);
  }

  // ---- What is parsed ----------------------------------------------------------------------------

  /** The tokens without parentheses. */
  function Stripped(t: seq<Token>): seq<Token>
  {
    if t == [] then []
    else if t[0].TOpen? || t[0].TClose? then Stripped(t[1..])
    else [t[0]] + Stripped(t[1..])
  }

  /** The tokens of an expression in order, without parentheses. */
  function Yield(e: Exp): seq<Token>
  {
    match e
    case Atom(n) => [TAtom(n)]
    case Un(op, a) => [UnToken(op)] + Yield(a)
    case Bin(op, l, r) => Yield(l) + [BinToken(op)] + Yield(r)
  }

  lemma {:induction false} StrippedParts(a: seq<Token>, b: seq<Token>)
    ensures Stripped(a + b) == Stripped(a) + Stripped(b)
    decreases |a|
  {
    if a == [] {
      assert a + b == b;
    } else {
      assert (a + b)[1..] == a[1..] + b;
      StrippedParts(a[1..], b);
    }
  }

  lemma StrippedSlices(t: seq<Token>, p: nat, q: nat, r: nat)
    requires p <= q <= r <= |t|
    ensures Stripped(t[p..r]) == Stripped(t[p..q]) + Stripped(t[q..r])
  {
    assert t[p..r] == t[p..q] + t[q..r];
    StrippedParts(t[p..q], t[q..r]);
  }

  lemma StrippedOne(t: seq<Token>, p: nat)
    requires p < |t|
    ensures Stripped(t[p..p + 1]) == if t[p].TOpen? || t[p].TClose? then [] else [t[p]]
  {
    assert t[p..p + 1] == [t[p]];
  }

  /** Whatever is parsed, the expression has exactly the tokens that were read, in their order. */
  lemma {:induction false} ReadSubExpr(t: seq<Token>, p: nat, limit: nat)
    requires SubExpr(t, p, limit).Parsed?
    ensures var r := SubExpr(t, p, limit); Yield(r.e) == Stripped(t[p..r.p])
    decreases |t| - p, 2
  {
    hide GetBinOpr, Stripped;
    var r := SubExpr(t, p, limit);
    StrippedOne(t, p);
    if GetUnOpr(t[p]).Some? {
      var a := SubExpr(t, p + 1, UNARY_PRIORITY);
      ReadSubExpr(t, p + 1, UNARY_PRIORITY);
      StrippedSlices(t, p, p + 1, a.p);
      UnTokenBack(t[p]);
      ReadOperators(t, Un(GetUnOpr(t[p]).v, a.e), p, a.p, limit);
    } else {
      var a := SimpleExp(t, p);
      if t[p].TOpen? {
        var b := SubExpr(t, p + 1, 0);
        ReadSubExpr(t, p + 1, 0);
        StrippedSlices(t, p, p + 1, b.p);
        StrippedSlices(t, p, b.p, b.p + 1);
        StrippedOne(t, b.p);
      }
      ReadOperators(t, a.e, p, a.p, limit);
    }
  }

  lemma {:induction false} ReadOperators(t: seq<Token>, v: Exp, p0: nat, p: nat, limit: nat)
    requires p0 <= p <= |t| && Yield(v) == Stripped(t[p0..p]) && Operators(t, v, p, limit).Parsed?
    ensures var r := Operators(t, v, p, limit); Yield(r.e) == Stripped(t[p0..r.p])
    decreases |t| - p, 1
  {
    hide Stripped;
    var op := OpAt(t, p);
    if op.Some? && Left(op.v) > limit {
      var r := SubExpr(t, p + 1, Right(op.v));
      hide Left, Right;
      ReadSubExpr(t, p + 1, Right(op.v));
      StrippedSlices(t, p0, p, p + 1);
      StrippedSlices(t, p0, p + 1, r.p);
      StrippedOne(t, p);
      BinTokenBack(t[p]);
      ReadOperators(t, Bin(op.v, v, r.e), p0, r.p, limit);
    }
  }
}
