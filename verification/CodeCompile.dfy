/**
 Whole conditional expressions (lparser.c, "subexpr" with "luaK_prefix", "luaK_infix" and
 "luaK_posfix"): the code of any expression leaves its value where it is wanted.
 */
module CodeCompile {
  import opened CodeMachine
  import opened CodeJumps
  import opened CodeExps
  import opened CodeDischarge
  import opened CodeConds
  import opened CodeBinary
  import opened CodeCompare
  import opened CodeOperands

  /** The code can go on with an expression in this context. */
  ghost predicate CanCompile(fs: FuncState, x: Ctx)
    reads fs
  {
    && CtxOk(x) && CodeOk(fs.code, fs.lasttarget, x.pend) && x.c0 == fs.code && x.start <= fs.lasttarget
    && fs.freereg == x.base && fs.nvar <= x.base && x.but == -1 && RawEq(x.s)
  }

  /** The code of an expression was added in this context. */
  ghost predicate Compiled(fs: FuncState, x: Ctx, e: ExpDesc, t: seq<nat>, f: seq<nat>, exp: Exp)
    reads fs
  {
    && Good(x, fs.code, fs.lasttarget, e, t, f, exp) && RegsOk(fs, x.base, e.k) && !e.k.KThrough? && !e.k.KConst?
  }

  function Size(e: Exp): (n: nat)
    ensures n > 0
  {
    match e
    case ENot(a) => 1 + Size(a)
    case EAnd(a, b) => 1 + Size(a) + Size(b)
    case EOr(a, b) => 1 + Size(a) + Size(b)
    case ECmp(_, a, b) => 1 + Size(a) + Size(b)
    case _ => 1
  }

  predicate IsLeaf(exp: Exp)
  {
    !exp.ENot? && !exp.EAnd? && !exp.EOr? && !exp.ECmp?
  }

  function LeafKind(exp: Exp): Kind
    requires IsLeaf(exp)
  {
    match exp
    case ENil => KNil
    case EFalse => KFalse
    case ETrue => KTrue
    case EInt(n) => KInt(n)
    case EStr(s) => KStr(s)
    case ELocal(r) => KLocal(r)
    case EUp(u) => KUpVal(u)
  }

  lemma LeafGood(fs: FuncState, x: Ctx, exp: Exp)
    requires CanCompile(fs, x) && IsLeaf(exp) && Scoped(exp, fs.nvar)
    ensures Compiled(fs, x, ExpDesc(LeafKind(exp), NO_JUMP, NO_JUMP), [], [], exp)
  {
    hide Good;
    NoCode(x, fs.lasttarget, LeafKind(exp), exp);
  }

  /** luaK_prefix for 'not' */
  method Prefix(fs: FuncState, e: ExpDesc, ghost x: Ctx, ghost t: seq<nat>, ghost f: seq<nat>, ghost exp: Exp)
    returns (e': ExpDesc)
    requires Compiled(fs, x, e, t, f, exp)
    modifies fs`code, fs`freereg
    ensures Compiled(fs, x, e', f, t, ENot(exp))
  {
    hide Good;
    var e1 := DischargeVars(fs, e, x, t, f, exp);
    e' := CodeNot(fs, e1, x, t, f, exp);
  }

  lemma NextCompile(fs: FuncState, x: Ctx, e: ExpDesc, l: seq<nat>, a: Exp, isAnd: bool)
    requires Good(x, fs.code, fs.lasttarget, e, T1(isAnd, l), F1(isAnd, l), a) && e.k == KThrough(isAnd)
    requires fs.freereg == x.base && fs.nvar <= x.base && x.but == -1 && RawEq(x.s)
    ensures CanCompile(fs, Next(x, fs.code, l))
  {
    hide Good, RawEq;
    NextOk(x, fs.code, fs.lasttarget, e, l, a, isAnd);
  }

  lemma SeqLists(x: Ctx, c1: seq<Instr>, lt1: nat, e1: ExpDesc, l: seq<nat>, c: seq<Instr>, lasttarget: nat,
                 e: ExpDesc, t: seq<nat>, f: seq<nat>,
                 a: Exp, b: Exp, isAnd: bool)
    requires Good(x, c1, lt1, e1, T1(isAnd, l), F1(isAnd, l), a) && e1.k == KThrough(isAnd)
    requires Good(Next(x, c1, l), c, lasttarget, e, t, f, b)
    ensures ListIs(c, e.t, t) && ListIs(c, e.f, f) && ListIs(c, if isAnd then e1.f else e1.t, l)
    ensures forall j :: j in t || j in f ==> j !in l
    ensures x.start <= lasttarget
  {
    hide Shape, ListIs, Frame, OwnJumps, Delivered;
    FirstOwn(x, c1, lt1, e1, l, isAnd);
    SecondShape(Next(x, c1, l), c, lasttarget, e, t, f);
    FrameJumps(c1, c, |x.c0|, l);
    OwnBelow2(c, |c1|, Stop(c, e.k), t);
    OwnBelow2(c, |c1|, Stop(c, e.k), f);
    OwnBelow2(c, |x.c0|, |c1|, l);
    SameList(c1, c, if isAnd then e1.f else e1.t, l);
    StartLate(Next(x, c1, l), c, lasttarget, e, t, f);
  }

  lemma StartLate(y: Ctx, c: seq<Instr>, lasttarget: nat, e: ExpDesc, t: seq<nat>, f: seq<nat>)
    requires Shape(y, c, lasttarget, e, t, f)
    ensures y.start <= lasttarget
  {
  }

  /** luaK_posfix for 'and' and 'or': one of the lists takes the jumps of the first operand. */
  method PosfixLogic(fs: FuncState, isAnd: bool, e1: ExpDesc, e2: ExpDesc, ghost x: Ctx, ghost c1: seq<Instr>,
                     ghost lt1: nat, ghost l: seq<nat>,
                     ghost t: seq<nat>, ghost f: seq<nat>, ghost a: Exp, ghost b: Exp) returns (e': ExpDesc)
    requires Good(x, c1, lt1, e1, T1(isAnd, l), F1(isAnd, l), a) && e1.k == KThrough(isAnd)
    requires Compiled(fs, Next(x, c1, l), e2, t, f, b)
    requires Scoped(b, fs.nvar) && fs.nvar <= x.base && x.but == -1
    modifies fs`code
    ensures Compiled(fs, x, e', Ts(isAnd, t, l), Fs(isAnd, f, l), ShortCircuit(isAnd, a, b))
  {
    hide Good, ListIs, Linked, Scoped;
    ghost var y := Next(x, c1, l);
    var d := DischargeVars(fs, e2, y, t, f, b);
    SeqLists(x, c1, lt1, e1, l, fs.code, fs.lasttarget, d, t, f, a, b, isAnd);
    ghost var c := fs.code;
    var h: int;
    if isAnd {
      h := Concat(fs, d.f, e1.f, f, l);
      e' := d.(f := h);
    } else {
      h := Concat(fs, d.t, e1.t, t, l);
      e' := d.(t := h);
    }
    SeqGood(x, c1, lt1, e1, l, c, fs.lasttarget, d, t, f, a, b, isAnd, fs.nvar, h);
  }

  lemma AfterCompile(fs: FuncState, x: Ctx, e: ExpDesc, a: Exp)
    requires Good(x, fs.code, fs.lasttarget, e, [], [], a) && RegsOk(fs, x.base, e.k) && Simple(e)
    requires x.but == -1 && RawEq(x.s)
    ensures CanCompile(fs, After(x, fs.code, fs.freereg)) && Below(e.k, fs.freereg) && x.base <= fs.freereg
  {
    hide Good, RawEq;
    AfterOk(x, fs.code, fs.lasttarget, e, a, fs.freereg);
  }

  predicate IsEquality(rel: Rel)
  {
    rel == REq || rel == RNe
  }

  predicate IsSwapped(rel: Rel)
  {
    rel == RGt || rel == RGe
  }

  /** luaK_posfix for comparisons; 'a > b' is coded as 'b < a', and 'a >= b' as 'b <= a'. */
  method PosfixComparison(fs: FuncState, rel: Rel, e1: ExpDesc, e2: ExpDesc, ghost p: Pair) returns (e': ExpDesc)
    requires PairGood(p, fs.code, fs.lasttarget, e1, e2) && PairRegs(fs, p, e1, e2) && Simple(e1) && RawEq(p.x.s)
    requires IsEquality(rel) || e1.k.KNonReloc? || IsSCnumber(e1)
    modifies fs`code, fs`lasttarget, fs`freereg
    ensures Compiled(fs, p.x, e', [], [], ECmp(rel, p.a, p.b))
  {
    hide Good, RawEq, Below, Both, Scoped;
    var d := DischargeVars(fs, e2, After(p.x, p.c1, p.base), p.t, p.f, p.b);
    PairStart(fs, p, e1, d);
    hide Ready, PairGood, PairRegs;
    if IsEquality(rel) {
      e' := CodeEq(fs, rel == REq, e1, d, p);
    } else if IsSwapped(rel) {
      e' := CodeOrder(fs, rel == RGt, d, e1, p, true);
    } else {
      e' := CodeOrder(fs, rel == RLt, e1, d, p, false);
    }
  }

  /** The code of any expression computes its value. */
  method Compile(fs: FuncState, exp: Exp, ghost x: Ctx) returns (e: ExpDesc, ghost t: seq<nat>, ghost f: seq<nat>)
    requires CanCompile(fs, x) && Scoped(exp, fs.nvar)
    modifies fs`code, fs`lasttarget, fs`freereg
    ensures Compiled(fs, x, e, t, f, exp)
    decreases Size(exp)
  {
    hide Good, RawEq;
    if IsLeaf(exp) {
      LeafGood(fs, x, exp);
      return ExpDesc(LeafKind(exp), NO_JUMP, NO_JUMP), [], [];
    } else if exp.ENot? {
      var e1, t1, f1 := Compile(fs, exp.e, x);
      e := Prefix(fs, e1, x, t1, f1, exp.e);
      t, f := f1, t1;
    } else if exp.ECmp? {
      e := CompileComparison(fs, exp.rel, exp.a, exp.b, x);
      t, f := [], [];
    } else {
      e, t, f := CompileLogic(fs, exp.EAnd?, exp.a, exp.b, x);
    }
  }

  /** 'a and b', 'a or b' */
  method CompileLogic(fs: FuncState, isAnd: bool, a: Exp, b: Exp, ghost x: Ctx)
    returns (e: ExpDesc, ghost t: seq<nat>, ghost f: seq<nat>)
    requires CanCompile(fs, x) && Scoped(a, fs.nvar) && Scoped(b, fs.nvar)
    modifies fs`code, fs`lasttarget, fs`freereg
    ensures Compiled(fs, x, e, t, f, ShortCircuit(isAnd, a, b))
    decreases Size(a) + Size(b)
  {
    hide Good, RawEq, Scoped;
    var e0, t0, f0 := Compile(fs, a, x);
    var e1: ExpDesc;
    ghost var l;
    e0 := DischargeVars(fs, e0, x, t0, f0, a);
    if isAnd {
      e1, l := GoIfTrue(fs, e0, x, t0, f0, a);
    } else {
      e1, l := GoIfFalse(fs, e0, x, t0, f0, a);
    }
    ghost var c1, lt1 := fs.code, fs.lasttarget;
    NextCompile(fs, x, e1, l, a, isAnd);
    var e2, t2, f2 := Compile(fs, b, Next(x, c1, l));
    e := PosfixLogic(fs, isAnd, e1, e2, x, c1, lt1, l, t2, f2, a, b);
    t, f := Ts(isAnd, t2, l), Fs(isAnd, f2, l);
  }

  /** 'a rel b' */
  method CompileComparison(fs: FuncState, rel: Rel, a: Exp, b: Exp, ghost x: Ctx) returns (e: ExpDesc)
    requires CanCompile(fs, x) && Scoped(a, fs.nvar) && Scoped(b, fs.nvar)
    modifies fs`code, fs`lasttarget, fs`freereg
    ensures Compiled(fs, x, e, [], [], ECmp(rel, a, b))
    decreases Size(a) + Size(b)
  {
    hide Good, RawEq, Scoped;
    var e0, t0, f0 := Compile(fs, a, x);
    var e1 := InfixComparison(fs, IsEquality(rel), e0, x, t0, f0, a);
    ghost var c1, lt1, base := fs.code, fs.lasttarget, fs.freereg;
    AfterCompile(fs, x, e1, a);
    var e2, t2, f2 := Compile(fs, b, After(x, c1, base));
    e := PosfixComparison(fs, rel, e1, e2, Pair(x, c1, lt1, base, t2, f2, a, b, fs.nvar));
  }
}
