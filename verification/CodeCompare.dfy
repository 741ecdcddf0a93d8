/**
 Comparisons (lcode.c, "codeorder", "codeeq", and the cases of "luaK_infix" for them): both operands
 end in registers, or one of them is a constant, and a test with its jump is the value.
 */
module CodeCompare {
  import opened CodeMachine
  import opened CodeExps
  import opened CodeDischarge
  import opened CodeFinal
  import opened CodeBinary

  /** An operand that needs no more code. */
  predicate Settled(k: Kind)
  {
    k.KNonReloc? || IsConst(k)
  }

  /** The value of a settled operand, which is in a register or is a constant. */
  function OperandVal(k: Kind, r: Regs): Value
    requires Settled(k)
  {
    if k.KNonReloc? then R(r, k.reg) else ConstVal(k)
  }

  /** The register of an operand is a local variable or below 'limit'. */
  predicate Below(k: Kind, limit: nat)
  {
    k.KNonReloc? ==> k.reg < limit
  }

  /** A run ends with the values of both operands. */
  ghost predicate BothAt(x: Ctx, c: seq<Instr>, k1: Kind, k2: Kind, a: Exp, b: Exp, r0: Regs)
    requires Settled(k1) && Settled(k2)
  {
    BothOut(x.s, x.base, k1, k2, a, b, Old(x, r0), Exec(x.s, c, x.start, |c|, r0, x.pend))
  }

  ghost predicate BothOut(s: Sem, base: nat, k1: Kind, k2: Kind, a: Exp, b: Exp, o0: Out, o: Out)
    requires Settled(k1) && Settled(k2)
  {
    match o0
    case Fall(r) =>
      o.Fall? && AgreeBelow(r, o.r, base, -1) && OperandVal(k1, o.r) == Eval(s, a, r)
      && OperandVal(k2, o.r) == Eval(s, b, r)
    case Stuck => true
    case before => o == before
  }

  /** The same for one operand. */
  ghost predicate OneOut(s: Sem, base: nat, k: Kind, a: Exp, o0: Out, o: Out)
    requires Settled(k)
  {
    match o0
    case Fall(r) => o.Fall? && AgreeBelow(r, o.r, base, -1) && OperandVal(k, o.r) == Eval(s, a, r)
    case Stuck => true
    case before => o == before
  }

  ghost predicate Both(x: Ctx, c: seq<Instr>, lasttarget: nat, k1: Kind, k2: Kind, a: Exp, b: Exp)
  {
    && CtxOk(x) && Frame(x.c0, c) && x.start <= lasttarget && CodeOk(c, lasttarget, x.pend) && x.but == -1
    && Settled(k1) && Settled(k2) && ConstOk(k1) && ConstOk(k2)
    && forall r0: Regs :: BothAt(x, c, k1, k2, a, b, r0)
  }

  /** The context after a settled operand. */
  ghost function After(x: Ctx, c: seq<Instr>, base: nat): Ctx
  {
    x.(c0 := c, base := base)
  }

  lemma AfterOk(x: Ctx, c: seq<Instr>, lasttarget: nat, e: ExpDesc, a: Exp, base: nat)
    requires Good(x, c, lasttarget, e, [], [], a) && Settled(e.k)
    ensures CtxOk(After(x, c, base)) && CodeOk(c, lasttarget, x.pend) && x.start <= lasttarget && Frame(x.c0, c)
    ensures |x.c0| <= |c|
  {
    assert x.pend + Pending(e.k, [], []) == x.pend;
  }

  /** Good code of a settled operand, run by run. */
  lemma SettledRun(x: Ctx, c: seq<Instr>, k: Kind, a: Exp, r0: Regs)
    requires Delivered(x, c, k, [], [], a) && Settled(k) && x.but == -1
    ensures OneOut(x.s, x.base, k, a, Old(x, r0), Exec(x.s, c, x.start, |c|, r0, x.pend))
  {
    assert DeliversAt(x, c, k, [], [], a, r0, |c|);
    assert x.pend + Set([]) + Set([]) == x.pend;
  }

  /** The second operand was compiled after the first one, in a higher base. */
  lemma BothStart(x: Ctx, c1: seq<Instr>, lt1: nat, e1: ExpDesc, base: nat, c: seq<Instr>, lasttarget: nat, e2: ExpDesc,
          a: Exp, b: Exp, nvar: nat)
    requires Good(x, c1, lt1, e1, [], [], a) && Settled(e1.k) && ConstOk(e1.k) && Below(e1.k, base) && x.base <= base
    requires x.but == -1
    requires Good(After(x, c1, base), c, lasttarget, e2, [], [], b) && Settled(e2.k) && ConstOk(e2.k)
    requires Scoped(b, nvar) && nvar <= x.base
    ensures Both(x, c, lasttarget, e1.k, e2.k, a, b)
  {
    var y := After(x, c1, base);
    AfterOk(x, c1, lt1, e1, a, base);
    AfterOk(y, c, lasttarget, e2, b, base);
    FrameTrans(x.c0, c1, c);
    hide Shape, Frame, CodeOk;
    forall r0: Regs ensures BothAt(x, c, e1.k, e2.k, a, b, r0) {
      BothRun(x, c1, e1.k, base, c, e2.k, a, b, nvar, r0);
    }
  }

  /** Code that changes no register below the base carries the value of an operand on. */
  lemma Carry(k: Kind, r1: Regs, r2: Regs, base: nat)
    requires Settled(k) && Below(k, base) && AgreeBelow(r1, r2, base, -1)
    ensures OperandVal(k, r2) == OperandVal(k, r1)
  {
    if k.KNonReloc? { assert R(r2, k.reg) == R(r1, k.reg); }
  }

  lemma OneThenOther(s: Sem, k1: Kind, k2: Kind, a: Exp, b: Exp, nvar: nat, base0: nat, base: nat, o0: Out, o1: Out,
          o2: Out)
    requires Settled(k1) && Settled(k2) && Below(k1, base) && nvar <= base0 <= base && Scoped(b, nvar)
    requires OneOut(s, base0, k1, a, o0, o1) && OneOut(s, base, k2, b, o1, o2)
    ensures BothOut(s, base0, k1, k2, a, b, o0, o2)
  {
    hide Exec, Eval, AgreeBelow, OperandVal, Below, Scoped, Settled;
    if o0.Fall? {
      EvalLocalsBase(s, b, o0.r, o1.r, nvar, base0);
      AgreeTrans(o0.r, o1.r, o2.r, base0, base);
      Carry(k1, o1.r, o2.r, base);
    }
  }

  lemma BothRun(x: Ctx, c1: seq<Instr>, k1: Kind, base: nat, c: seq<Instr>, k2: Kind, a: Exp, b: Exp, nvar: nat,
          r0: Regs)
    requires Delivered(x, c1, k1, [], [], a) && Settled(k1) && Below(k1, base) && x.base <= base && x.but == -1
    requires Delivered(After(x, c1, base), c, k2, [], [], b) && Settled(k2) && Scoped(b, nvar) && nvar <= x.base
    ensures BothAt(x, c, k1, k2, a, b, r0)
  {
    hide Delivered, Exec, Eval, AgreeBelow, OperandVal, Below, Scoped, Settled, OneOut, BothOut;
    var y := After(x, c1, base);
    SettledRun(x, c1, k1, a, r0);
    SettledRun(y, c, k2, b, r0);
    OneThenOther(x.s, k1, k2, a, b, nvar, x.base, base, Old(x, r0), Old(y, r0), Exec(x.s, c, x.start, |c|, r0, x.pend));
  }

  /** The constant of an operand as an expression, to be loaded after the other operand. */
  function Literal(k: Kind): Exp
    requires IsConst(k)
  {
    match k
    case KNil => ENil
    case KFalse => EFalse
    case KTrue => ETrue
    case KInt(n) => EInt(n)
    case KStr(s) => EStr(s)
    case KConst(v) => (match v
                       case Nil => ENil
                       case Bool(b) => if b then ETrue else EFalse
                       case Num(n) => EInt(n)
                       case Str(s) => EStr(s)
                       case Obj(_) => ENil)
  }

  lemma LiteralVal(s: Sem, k: Kind, r: Regs)
    requires IsConst(k) && ConstOk(k)
    ensures Eval(s, Literal(k), r) == ConstVal(k)
  {
  }

  lemma BothParts(x: Ctx, c: seq<Instr>, lasttarget: nat, k1: Kind, k2: Kind, a: Exp, b: Exp, base: nat)
    requires Both(x, c, lasttarget, k1, k2, a, b)
    ensures CtxOk(After(x, c, base)) && CodeOk(c, lasttarget, x.pend) && x.start <= lasttarget
  {
  }

  /** The first operand, a constant, is loaded after the second one, which is settled. */
  lemma BothLate(x: Ctx, c1: seq<Instr>, lt1: nat, k1: Kind, k2: Kind, a: Exp, b: Exp, base: nat, c: seq<Instr>,
          lasttarget: nat, e: ExpDesc)
    requires Both(x, c1, lt1, k1, k2, a, b) && IsConst(k1) && Below(k2, base) && x.base <= base
    requires Good(After(x, c1, base), c, lasttarget, e, [], [], Literal(k1)) && e.k.KNonReloc?
    ensures Both(x, c, lasttarget, e.k, k2, a, b)
  {
    var y := After(x, c1, base);
    AfterOk(y, c, lasttarget, e, Literal(k1), base);
    FrameTrans(x.c0, c1, c);
    hide Shape, Frame, CodeOk, Exec, Eval, AgreeBelow, Delivered;
    forall r0: Regs ensures BothAt(x, c, e.k, k2, a, b, r0) {
      assert BothAt(x, c1, k1, k2, a, b, r0);
      LateRun(x, c1, base, c, k1, k2, e.k, a, b, r0);
    }
  }

  lemma ThenLate(s: Sem, k1: Kind, k2: Kind, k: Kind, a: Exp, b: Exp, base0: nat, base: nat, o0: Out, o1: Out, o2: Out)
    requires IsConst(k1) && ConstOk(k1) && Settled(k2) && k.KNonReloc? && Below(k2, base) && base0 <= base
    requires BothOut(s, base0, k1, k2, a, b, o0, o1) && OneOut(s, base, k, Literal(k1), o1, o2)
    ensures BothOut(s, base0, k, k2, a, b, o0, o2)
  {
    hide Exec, Eval, AgreeBelow, OperandVal, Below, Literal;
    if o0.Fall? {
      LiteralVal(s, k1, o1.r);
      OperandConst(k1, o1.r);
      AgreeTrans(o0.r, o1.r, o2.r, base0, base);
      Carry(k2, o1.r, o2.r, base);
    }
  }

  lemma LateRun(x: Ctx, c1: seq<Instr>, base: nat, c: seq<Instr>, k1: Kind, k2: Kind, k: Kind, a: Exp, b: Exp, r0: Regs)
    requires Settled(k2) && k.KNonReloc? && IsConst(k1) && ConstOk(k1) && BothAt(x, c1, k1, k2, a, b, r0)
    requires Below(k2, base) && x.base <= base && x.but == -1
    requires Delivered(After(x, c1, base), c, k, [], [], Literal(k1))
    ensures BothAt(x, c, k, k2, a, b, r0)
  {
    hide Delivered, Exec, Eval, AgreeBelow, OperandVal, Below, Literal, OneOut, BothOut;
    var y := After(x, c1, base);
    SettledRun(y, c, k, Literal(k1), r0);
    ThenLate(x.s, k1, k2, k, a, b, x.base, base, Old(x, r0), Old(y, r0), Exec(x.s, c, x.start, |c|, r0, x.pend));
  }

  lemma OperandConst(k: Kind, r: Regs)
    requires IsConst(k)
    ensures OperandVal(k, r) == ConstVal(k)
  {
  }

  // ---- The comparison itself -------------------------------------------------------------------------

  /** The instruction jumps exactly when the comparison holds. */
  ghost predicate Compares(s: Sem, i: Instr, k1: Kind, k2: Kind, rel: Rel)
    requires Settled(k1) && Settled(k2)
  {
    IsComparison(i) && forall r: Regs :: Taken(s, i, r) == Compare(s, rel, OperandVal(k1, r), OperandVal(k2, r))
  }

  /** The same for the registers at the end of one run. */
  ghost predicate ComparesAt(x: Ctx, c: seq<Instr>, k1: Kind, k2: Kind, i: Instr, rel: Rel, r0: Regs)
    requires Settled(k1) && Settled(k2)
  {
    var o := Exec(x.s, c, x.start, |c|, r0, x.pend);
    IsComparison(i) && (Old(x, r0).Fall? && o.Fall? ==>
                          Taken(x.s, i, o.r) == Compare(x.s, rel, OperandVal(k1, o.r), OperandVal(k2, o.r)))
  }

  lemma CompareDelivers(x: Ctx, c: seq<Instr>, k1: Kind, k2: Kind, a: Exp, b: Exp, i: Instr, rel: Rel, r0: Regs)
    requires Settled(k1) && Settled(k2) && BothAt(x, c, k1, k2, a, b, r0) && ComparesAt(x, c, k1, k2, i, rel, r0)
    requires x.but == -1
    ensures var c' := c + [i, Jmp(NO_JUMP)];
            DeliversAt(x, c', KJmp(|c| + 1), [], [], ECmp(rel, a, b), r0, |c|)
  {
    hide OperandVal, Taken, Compare;
    var c' := c + [i, Jmp(NO_JUMP)];
    assert x.pend + Set([]) + Set([]) == x.pend;
    if Exec(x.s, c, x.start, |c|, r0, x.pend) != Stuck {
      SameUpTo(c, |c|, x.pend, c', |c|);
      Patching(x.s, c, x.start, |c|, r0, x.pend, c', |c|, x.pend);
      OutPending(x.s, c, x.start, |c|, r0, x.pend);
    }
  }

  lemma CompareGood(x: Ctx, c: seq<Instr>, lasttarget: nat, k1: Kind, k2: Kind, a: Exp, b: Exp, i: Instr, rel: Rel)
    requires Both(x, c, lasttarget, k1, k2, a, b) && IsComparison(i)
    requires forall r0: Regs :: ComparesAt(x, c, k1, k2, i, rel, r0)
    ensures Good(x, c + [i, Jmp(NO_JUMP)], lasttarget, ExpDesc(KJmp(|c| + 1), NO_JUMP, NO_JUMP), [], [],
                 ECmp(rel, a, b))
  {
    hide ComparesAt, BothOut;
    var c', k := c + [i, Jmp(NO_JUMP)], KJmp(|c| + 1);
    forall r0: Regs ensures DeliversAt(x, c', k, [], [], ECmp(rel, a, b), r0, |c|) {
      assert BothAt(x, c, k1, k2, a, b, r0);
      assert ComparesAt(x, c, k1, k2, i, rel, r0);
      CompareDelivers(x, c, k1, k2, a, b, i, rel, r0);
    }
    CompareCode(c, lasttarget, x.pend, i);
    assert x.pend + Pending(k, [], []) == x.pend + {|c| + 1};
    EmptyLists(c', |x.c0|);
  }

  lemma ComparesRun(x: Ctx, c: seq<Instr>, k1: Kind, k2: Kind, i: Instr, rel: Rel)
    requires Settled(k1) && Settled(k2) && Compares(x.s, i, k1, k2, rel)
    ensures forall r0: Regs :: ComparesAt(x, c, k1, k2, i, rel, r0)
  {
    hide Exec, Taken, Compare, OperandVal;
  }

  lemma CompareCode(c: seq<Instr>, lasttarget: nat, pend: set<nat>, i: Instr)
    requires CodeOk(c, lasttarget, pend) && IsComparison(i)
    ensures CodeOk(c + [i, Jmp(NO_JUMP)], lasttarget, pend + {|c| + 1})
  {
    var c' := c + [i, Jmp(NO_JUMP)];
    forall p | 0 <= p < |c'| && IsTest(c'[p]) ensures p + 1 < |c'| && c'[p + 1].Jmp? {
      if p < |c| { assert IsTest(c[p]) && c[p + 1].Jmp?; }
    }
    forall p | 0 <= p < |c'| && c'[p].LFalseSkip? ensures p + 1 < |c'| && c'[p + 1].LoadTrue? {
      assert c[p].LFalseSkip? && c[p + 1].LoadTrue?;
    }
  }
}
