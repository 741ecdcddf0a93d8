/**
 The two operands of a comparison on their way to the comparison instruction (lcode.c, "codeorder",
 "codeeq", "exp2RK", and the cases of "luaK_infix" for comparisons).
 */
module CodeOperands {
  import opened CodeMachine
  import opened CodeJumps
  import opened CodeExps
  import opened CodeDischarge
  import opened CodeFinal
  import opened CodeConds
  import opened CodeCompare

  const MAXARG_C: int := 255
  const OFFSET_SC: int := 127

  /** isSCnumber, for integers: a numeral that fits an operand of the instruction. */
  predicate IsSCnumber(e: ExpDesc)
  {
    e.k.KInt? && !HasJumps(e) && 0 <= e.k.n + OFFSET_SC <= MAXARG_C
  }

  /** What the proofs know of the two operands: where the first one was compiled, and the jumps of the second one. */
  datatype Pair = Pair(x: Ctx, c1: seq<Instr>, lt1: nat, base: nat, t: seq<nat>, f: seq<nat>, a: Exp, b: Exp, nvar: nat)

  predicate Temp(k: Kind, nvar: nat)
  {
    k.KNonReloc? && k.reg >= nvar
  }

  /** The temporaries of the two operands are exactly the registers in use above 'base'. */
  ghost predicate TwoRegs(fs: FuncState, base: nat, k1: Kind, k2: Kind)
    reads fs`freereg, fs`nvar
  {
    && fs.nvar <= base
    && fs.freereg == base + (if Temp(k1, fs.nvar) then 1 else 0) + (if Temp(k2, fs.nvar) then 1 else 0)
    && (Temp(k1, fs.nvar) ==> base <= k1.reg < fs.freereg)
    && (Temp(k2, fs.nvar) ==> base <= k2.reg < fs.freereg)
    && (Temp(k1, fs.nvar) && Temp(k2, fs.nvar) ==> k1.reg != k2.reg)
  }

  predicate Simple(e: ExpDesc)
  {
    Settled(e.k) && ConstOk(e.k) && e.t == NO_JUMP && e.f == NO_JUMP
  }

  /** The second operand was compiled after the first one. */
  ghost predicate PairGood(p: Pair, c: seq<Instr>, lasttarget: nat, e1: ExpDesc, e2: ExpDesc)
  {
    && Good(p.x, p.c1, p.lt1, e1, [], [], p.a) && Below(e1.k, p.base) && p.x.base <= p.base && p.x.but == -1
    && Good(After(p.x, p.c1, p.base), c, lasttarget, e2, p.t, p.f, p.b) && !e2.k.KThrough? && ConstOk(e2.k)
    && Scoped(p.b, p.nvar) && p.nvar <= p.x.base
  }

  ghost predicate PairRegs(fs: FuncState, p: Pair, e1: ExpDesc, e2: ExpDesc)
    reads fs`freereg, fs`nvar
  {
    && fs.nvar <= p.x.base && RegsOk(fs, p.base, e2.k)
    && (if Temp(e1.k, fs.nvar) then e1.k.reg == p.x.base && p.base == p.x.base + 1 else p.base == p.x.base)
  }

  /** The operands as they are now: the first one is settled, and the second one may be. */
  ghost predicate Ready(fs: FuncState, p: Pair, e1: ExpDesc, e2: ExpDesc)
    reads fs
  {
    && Simple(e1) && p.x.but == -1
    && (if Simple(e2) then
          Both(p.x, fs.code, fs.lasttarget, e1.k, e2.k, p.a, p.b) && TwoRegs(fs, p.x.base, e1.k, e2.k)
        else PairGood(p, fs.code, fs.lasttarget, e1, e2) && PairRegs(fs, p, e1, e2))
  }

  lemma PairBoth(p: Pair, c: seq<Instr>, lasttarget: nat, e1: ExpDesc, e2: ExpDesc)
    requires PairGood(p, c, lasttarget, e1, e2) && Simple(e1) && Simple(e2)
    ensures Both(p.x, c, lasttarget, e1.k, e2.k, p.a, p.b)
  {
    hide Good, Both, Below, Scoped;
    SimpleLists(After(p.x, p.c1, p.base), c, lasttarget, e2, p.t, p.f, p.b);
    BothStart(p.x, p.c1, p.lt1, e1, p.base, c, lasttarget, e2, p.a, p.b, p.nvar);
  }

  lemma SimpleLists(x: Ctx, c: seq<Instr>, lasttarget: nat, e: ExpDesc, t: seq<nat>, f: seq<nat>, exp: Exp)
    requires Good(x, c, lasttarget, e, t, f, exp) && Simple(e)
    ensures t == [] && f == []
  {
    NoJumps(x, c, lasttarget, e, t, f, exp);
  }

  lemma PairStart(fs: FuncState, p: Pair, e1: ExpDesc, e2: ExpDesc)
    requires PairGood(p, fs.code, fs.lasttarget, e1, e2) && PairRegs(fs, p, e1, e2) && Simple(e1)
    ensures Ready(fs, p, e1, e2)
  {
    hide Good, Both;
    if Simple(e2) {
      PairBoth(p, fs.code, fs.lasttarget, e1, e2);
    }
  }

  /** A jump list of the descriptor is empty when it begins nowhere. */
  lemma NoJumpsSimple(x: Ctx, c: seq<Instr>, lasttarget: nat, e: ExpDesc, t: seq<nat>, f: seq<nat>, exp: Exp)
    requires Good(x, c, lasttarget, e, t, f, exp) && Settled(e.k) && ConstOk(e.k) && !HasJumps(e)
    ensures Simple(e)
  {
    NoJumps(x, c, lasttarget, e, t, f, exp);
  }

  // ---- Getting an operand into a register ------------------------------------------------------------

  /** Where an operand that still has to be put in a register is compiled: a constant, as an expression of its own. */
  datatype Side = Side(x: Ctx, t: seq<nat>, f: seq<nat>, exp: Exp)

  ghost function SideOf(p: Pair, e: ExpDesc, c: seq<Instr>, free: nat): Side
  {
    if IsConst(e.k) && Simple(e) then Side(After(p.x, c, free), [], [], Literal(e.k))
    else Side(After(p.x, p.c1, p.base), p.t, p.f, p.b)
  }

  lemma LateGood(x: Ctx, c: seq<Instr>, lasttarget: nat, k1: Kind, k2: Kind, a: Exp, b: Exp, base: nat)
    requires Both(x, c, lasttarget, k1, k2, a, b) && IsConst(k1)
    ensures Good(After(x, c, base), c, lasttarget, ExpDesc(k1, NO_JUMP, NO_JUMP), [], [], Literal(k1))
  {
    BothParts(x, c, lasttarget, k1, k2, a, b, base);
    var y := After(x, c, base);
    forall r: Regs ensures HasValue(y.s, y.c0, k1, r, Eval(y.s, Literal(k1), r)) {
      LiteralVal(y.s, k1, r);
    }
    NoCode(y, lasttarget, k1, Literal(k1));
  }

  lemma BothSwap(x: Ctx, c: seq<Instr>, lasttarget: nat, k1: Kind, k2: Kind, a: Exp, b: Exp)
    requires Both(x, c, lasttarget, k1, k2, a, b)
    ensures Both(x, c, lasttarget, k2, k1, b, a)
  {
    hide Exec, Eval, OperandVal;
    forall r0: Regs ensures BothAt(x, c, k2, k1, b, a, r0) {
      assert BothAt(x, c, k1, k2, a, b, r0);
    }
  }

  lemma LateReady(p: Pair, c: seq<Instr>, lasttarget: nat, e1: ExpDesc, e2: ExpDesc, first: bool, free: nat)
    requires Both(p.x, c, lasttarget, e1.k, e2.k, p.a, p.b) && Simple(e1) && Simple(e2)
    requires IsConst(if first then e1.k else e2.k)
    ensures var e := if first then e1 else e2; Good(After(p.x, c, free), c, lasttarget, e, [], [], Literal(e.k))
  {
    hide Both, Good;
    if first {
      LateGood(p.x, c, lasttarget, e1.k, e2.k, p.a, p.b, free);
    } else {
      BothSwap(p.x, c, lasttarget, e1.k, e2.k, p.a, p.b);
      LateGood(p.x, c, lasttarget, e2.k, e1.k, p.b, p.a, free);
    }
  }

  lemma LateDone(p: Pair, c: seq<Instr>, lt: nat, e1: ExpDesc, e2: ExpDesc, first: bool, free: nat, c': seq<Instr>,
          lt': nat, e': ExpDesc)
    requires Both(p.x, c, lt, e1.k, e2.k, p.a, p.b) && Simple(e1) && Simple(e2) && IsConst(if first then e1.k else e2.k)
    requires Below(if first then e2.k else e1.k, free) && p.x.base <= free && e'.k.KNonReloc?
    requires Good(After(p.x, c, free), c', lt', e', [], [], Literal(if first then e1.k else e2.k))
    ensures Both(p.x, c', lt', if first then e'.k else e1.k, if first then e2.k else e'.k, p.a, p.b)
  {
    hide Both, Good, Below;
    if first {
      BothLate(p.x, c, lt, e1.k, e2.k, p.a, p.b, free, c', lt', e');
    } else {
      BothSwap(p.x, c, lt, e1.k, e2.k, p.a, p.b);
      BothLate(p.x, c, lt, e2.k, e1.k, p.b, p.a, free, c', lt', e');
      BothSwap(p.x, c', lt', e'.k, e1.k, p.b, p.a);
    }
  }

  /** luaK_exp2anyreg on an operand; nothing happens to one that is in a register already. */
  method OperandToReg(fs: FuncState, e: ExpDesc, ghost other: ExpDesc, ghost p: Pair, ghost first: bool)
    returns (e': ExpDesc)
    requires Ready(fs, p, if first then e else other, if first then other else e)
    requires first && IsConst(e.k) ==> Simple(other)
    modifies fs`code, fs`lasttarget, fs`freereg
    ensures Ready(fs, p, if first then e' else other, if first then other else e')
    ensures e'.k.KNonReloc? && Simple(e')
  {
    hide Good, Both, OperandVal, Literal, Exec, Eval, Scoped;
    ghost var e1, e2 := if first then e else other, if first then other else e;
    ghost var s, c, lt, free := SideOf(p, e, fs.code, fs.freereg), fs.code, fs.lasttarget, fs.freereg;
    if e.k.KNonReloc? && !HasJumps(e) {
      if !first && !Simple(e) {
        NoJumpsSimple(s.x, fs.code, fs.lasttarget, e, s.t, s.f, s.exp);
      }
      return e;
    }
    if IsConst(e.k) && Simple(e) {
      LateReady(p, c, lt, e1, e2, first, free);
    }
    e' := Exp2AnyReg(fs, e, s.x, s.t, s.f, s.exp);
    if IsConst(e.k) && Simple(e) {
      LateDone(p, c, lt, e1, e2, first, free, fs.code, fs.lasttarget, e');
    } else {
      PairDone(p, fs.code, fs.lasttarget, e1, e');
    }
  }

  lemma PairDone(p: Pair, c: seq<Instr>, lt: nat, e1: ExpDesc, e': ExpDesc)
    requires Good(p.x, p.c1, p.lt1, e1, [], [], p.a) && Below(e1.k, p.base) && p.x.base <= p.base && p.x.but == -1
    requires Good(After(p.x, p.c1, p.base), c, lt, e', [], [], p.b) && e'.k.KNonReloc?
    requires Scoped(p.b, p.nvar) && p.nvar <= p.x.base && Simple(e1)
    ensures Both(p.x, c, lt, e1.k, e'.k, p.a, p.b)
  {
    hide Good, Both, Below, Scoped;
    BothStart(p.x, p.c1, p.lt1, e1, p.base, c, lt, e', p.a, p.b, p.nvar);
  }

  // ---- Constants as operands ---------------------------------------------------------------------------

  /** luaK_exp2K: whether the index of the constant fits depends on how many constants the function has. */
  method Exp2K(e: ExpDesc) returns (isK: bool, e': ExpDesc)
    ensures isK ==> IsConst(e.k) && !HasJumps(e) && e' == e.(k := KConst(ConstVal(e.k)))
    ensures !isK ==> e' == e
  {
    if !HasJumps(e) && IsConst(e.k) {
      var fits: bool := *;
      if fits {
        return true, e.(k := KConst(ConstVal(e.k)));
      }
    }
    return false, e;
  }

  lemma BothConst(x: Ctx, c: seq<Instr>, lasttarget: nat, k1: Kind, k2: Kind, a: Exp, b: Exp)
    requires Both(x, c, lasttarget, k1, k2, a, b) && IsConst(k1)
    ensures Both(x, c, lasttarget, KConst(ConstVal(k1)), k2, a, b)
  {
    hide Exec, Eval;
    forall r0: Regs ensures BothAt(x, c, KConst(ConstVal(k1)), k2, a, b, r0) {
      assert BothAt(x, c, k1, k2, a, b, r0);
    }
  }

  lemma ConstGood(x: Ctx, c: seq<Instr>, lasttarget: nat, e: ExpDesc, t: seq<nat>, f: seq<nat>, exp: Exp)
    requires Good(x, c, lasttarget, e, t, f, exp) && IsConst(e.k) && ConstOk(e.k)
    ensures Good(x, c, lasttarget, e.(k := KConst(ConstVal(e.k))), t, f, exp)
  {
    var k := KConst(ConstVal(e.k));
    ShapeKind(x, c, lasttarget, e, t, f, k);
    hide Shape;
    forall r0: Regs ensures DeliversAt(x, c, k, t, f, exp, r0, |c|) {
      assert DeliversAt(x, c, e.k, t, f, exp, r0, |c|);
    }
  }

  /** The first operand of a comparison, before the second one is read. */
  method InfixComparison(fs: FuncState, equality: bool, e: ExpDesc, ghost x: Ctx, ghost t: seq<nat>, ghost f: seq<nat>,
          ghost exp: Exp)
    returns (e': ExpDesc)
    requires Good(x, fs.code, fs.lasttarget, e, t, f, exp) && RegsOk(fs, x.base, e.k) && !e.k.KThrough? && ConstOk(e.k)
    modifies fs`code, fs`lasttarget, fs`freereg
    ensures Good(x, fs.code, fs.lasttarget, e', [], [], exp) && RegsOk(fs, x.base, e'.k) && Simple(e')
    ensures e'.k.KNonReloc? || (if equality then e'.k.KInt? || e'.k.KConst? else IsSCnumber(e'))
  {
    hide Good;
    var e1 := DischargeVars(fs, e, x, t, f, exp);
    if !HasJumps(e1) {
      NoJumps(x, fs.code, fs.lasttarget, e1, t, f, exp);
    }
    if equality {
      if e1.k.KInt? && !HasJumps(e1) {
        return e1;
      }
      var isK, e2 := Exp2K(e1);
      if isK {
        ConstGood(x, fs.code, fs.lasttarget, e1, t, f, exp);
        return e2;
      }
    } else if IsSCnumber(e1) {
      return e1;
    }
    e' := Exp2AnyReg(fs, e1, x, t, f, exp);
  }

  // ---- The comparison instruction ------------------------------------------------------------------------

  /** freereg */
  method FreeReg(fs: FuncState, reg: int)
    requires reg >= fs.nvar ==> fs.freereg == reg + 1
    modifies fs`freereg
    ensures fs.freereg == if reg >= fs.nvar then reg else old(fs.freereg)
  {
    if reg >= fs.nvar {
      fs.freereg := fs.freereg - 1;
    }
  }

  /** freeexps: the registers of both operands, the last one first. */
  method FreeExps(fs: FuncState, k1: Kind, k2: Kind, ghost base: nat)
    requires TwoRegs(fs, base, k1, k2)
    modifies fs`freereg
    ensures fs.freereg == base
  {
    var r1 := if k1.KNonReloc? then k1.reg else -1;
    var r2 := if k2.KNonReloc? then k2.reg else -1;
    if r1 > r2 {
      FreeReg(fs, r1);
      FreeReg(fs, r2);
    } else {
      FreeReg(fs, r2);
      FreeReg(fs, r1);
    }
  }

  /** condjump */
  method CondJump(fs: FuncState, i: Instr) returns (pc: nat)
    modifies fs`code
    ensures fs.code == old(fs.code) + [i, Jmp(NO_JUMP)] && pc == |old(fs.code)| + 1
  {
    fs.code := fs.code + [i];
    pc := |fs.code|;
    fs.code := fs.code + [Jmp(NO_JUMP)];
  }

  function OrderRel(strict: bool, swapped: bool): Rel
  {
    if swapped then (if strict then RGt else RGe) else (if strict then RLt else RLe)
  }

  /** The comparison of two operands, the greater one first when swapped. */
  lemma SwappedCompares(s: Sem, i: Instr, k1: Kind, k2: Kind, strict: bool)
    requires Settled(k1) && Settled(k2) && Compares(s, i, k1, k2, OrderRel(strict, false))
    ensures Compares(s, i, k2, k1, OrderRel(strict, true))
  {
    assert forall r: Regs :: Taken(s, i, r) == Compare(s, OrderRel(strict, false), OperandVal(k1, r),
                                                       OperandVal(k2, r));
  }

  lemma SidesCompare(x: Ctx, c: seq<Instr>, lasttarget: nat, k1: Kind, k2: Kind, a: Exp, b: Exp, i: Instr, strict: bool,
          swapped: bool)
    requires Both(x, c, lasttarget, if swapped then k2 else k1, if swapped then k1 else k2, a, b)
    requires Settled(k1) && Settled(k2) && Compares(x.s, i, k1, k2, OrderRel(strict, false))
    ensures Good(x, c + [i, Jmp(NO_JUMP)], lasttarget, ExpDesc(KJmp(|c| + 1), NO_JUMP, NO_JUMP), [], [],
                 ECmp(OrderRel(strict, swapped), a, b))
  {
    hide Both, Good, Compares, ComparesAt;
    BothSettled(x, c, lasttarget, if swapped then k2 else k1, if swapped then k1 else k2, a, b, i);
    if swapped {
      SwappedCompares(x.s, i, k1, k2, strict);
      ComparesRun(x, c, k2, k1, i, OrderRel(strict, true));
      CompareGood(x, c, lasttarget, k2, k1, a, b, i, OrderRel(strict, true));
    } else {
      ComparesRun(x, c, k1, k2, i, OrderRel(strict, false));
      CompareGood(x, c, lasttarget, k1, k2, a, b, i, OrderRel(strict, false));
    }
  }

  /** codeorder: 'e1 < e2', or 'e1 <= e2'; the operands of '>' and '>=' come swapped. */
  method CodeOrder(fs: FuncState, strict: bool, e1: ExpDesc, e2: ExpDesc, ghost p: Pair, ghost swapped: bool)
    returns (e': ExpDesc)
    requires Ready(fs, p, if swapped then e2 else e1, if swapped then e1 else e2)
    requires var first := if swapped then e2 else e1; first.k.KNonReloc? || IsSCnumber(first)
    modifies fs`code, fs`lasttarget, fs`freereg
    ensures Good(p.x, fs.code, fs.lasttarget, e', [], [], ECmp(OrderRel(strict, swapped), p.a, p.b))
    ensures e'.k.KJmp? && fs.freereg == p.x.base
  {
    hide Good, Both, Compares;
    var d1, d2 := e1, e2;
    var i: Instr;
    if IsSCnumber(e2) {
      ReadySimple(fs, p, e1, e2, swapped);
      d1 := OperandToReg(fs, e1, e2, p, !swapped);
      i := CmpRI(if strict then ILt else ILe, d1.k.reg, e2.k.n, true);
    } else if IsSCnumber(e1) {
      ReadySimple(fs, p, e2, e1, !swapped);
      d2 := OperandToReg(fs, e2, e1, p, swapped);
      i := CmpRI(if strict then IGt else IGe, d2.k.reg, e1.k.n, true);
    } else {
      d1 := OperandToReg(fs, e1, e2, p, !swapped);
      d2 := OperandToReg(fs, e2, d1, p, swapped);
      i := CmpRR(if strict then CLt else CLe, d1.k.reg, d2.k.reg, true);
    }
    OrderCompares(p.x.s, i, d1.k, d2.k, strict);
    SidesCompare(p.x, fs.code, fs.lasttarget, d1.k, d2.k, p.a, p.b, i, strict, swapped);
    TwoRegsSwap(fs, p.x.base, d1.k, d2.k);
    FreeExps(fs, d1.k, d2.k, p.x.base);
    var pc := CondJump(fs, i);
    e' := ExpDesc(KJmp(pc), d1.t, d1.f);
  }

  lemma ReadySimple(fs: FuncState, p: Pair, e: ExpDesc, n: ExpDesc, second: bool)
    requires Ready(fs, p, if second then n else e, if second then e else n) && IsSCnumber(n)
    ensures Simple(n)
  {
    hide Good, Both;
    if !second && !Simple(n) {
      NoJumpsSimple(After(p.x, p.c1, p.base), fs.code, fs.lasttarget, n, p.t, p.f, p.b);
    }
  }

  lemma TwoRegsSwap(fs: FuncState, base: nat, k1: Kind, k2: Kind)
    ensures TwoRegs(fs, base, k1, k2) == TwoRegs(fs, base, k2, k1)
  {
  }

  lemma OrderCompares(s: Sem, i: Instr, k1: Kind, k2: Kind, strict: bool)
    requires Settled(k1) && Settled(k2)
    requires || (k1.KNonReloc? && k2.KInt? && i == CmpRI(if strict then ILt else ILe, k1.reg, k2.n, true))
             || (k2.KNonReloc? && k1.KInt? && i == CmpRI(if strict then IGt else IGe, k2.reg, k1.n, true))
             || (k1.KNonReloc? && k2.KNonReloc? && i == CmpRR(if strict then CLt else CLe, k1.reg, k2.reg, true))
    ensures Compares(s, i, k1, k2, OrderRel(strict, false))
  {
  }

  function EqRel(eq: bool): Rel { if eq then REq else RNe }

  lemma EqCompares(s: Sem, i: Instr, k1: Kind, k2: Kind, eq: bool)
    requires Settled(k1) && Settled(k2)
    requires k1.KNonReloc? && (if k2.KNonReloc? then i == CmpRR(CEq, k1.reg, k2.reg, eq)
                               else (k2.KInt? && i == CmpRI(IEq, k1.reg, k2.n, eq))
                                    || i == CmpRK(k1.reg, ConstVal(k2), eq))
    ensures Compares(s, i, k1, k2, EqRel(eq))
  {
  }

  /** The value of the expression is always that of the constant 'k'. */
  ghost predicate AlwaysConst(x: Ctx, k: Kind, a: Exp)
  {
    IsConst(k) && ConstOk(k) && forall r0: Regs :: Old(x, r0).Fall? ==> Eval(x.s, a, Old(x, r0).r) == ConstVal(k)
  }

  lemma GoodConst(x: Ctx, c: seq<Instr>, lasttarget: nat, e: ExpDesc, a: Exp)
    requires Good(x, c, lasttarget, e, [], [], a) && IsConst(e.k) && ConstOk(e.k) && x.but == -1
    ensures AlwaysConst(x, e.k, a)
  {
    hide Eval, Exec, Shape;
    forall r0: Regs | Old(x, r0).Fall? ensures Eval(x.s, a, Old(x, r0).r) == ConstVal(e.k) {
      SettledRun(x, c, e.k, a, r0);
    }
  }

  lemma BothAlways(x: Ctx, c: seq<Instr>, lasttarget: nat, k1: Kind, k2: Kind, a: Exp, b: Exp)
    requires Both(x, c, lasttarget, k1, k2, a, b) && IsConst(k1)
    ensures AlwaysConst(x, k1, a)
  {
    hide Eval, Exec;
    forall r0: Regs | Old(x, r0).Fall? ensures Eval(x.s, a, Old(x, r0).r) == ConstVal(k1) {
      assert BothAt(x, c, k1, k2, a, b, r0);
    }
  }

  lemma ReadyAlways(fs: FuncState, p: Pair, e1: ExpDesc, e2: ExpDesc)
    requires Ready(fs, p, e1, e2) && IsConst(e1.k)
    ensures AlwaysConst(p.x, e1.k, p.a)
  {
    hide Good, Both, AlwaysConst;
    if Simple(e2) {
      BothAlways(p.x, fs.code, fs.lasttarget, e1.k, e2.k, p.a, p.b);
    } else {
      GoodConst(p.x, p.c1, p.lt1, e1, p.a);
    }
  }

  /** Equality with a constant does not depend on the order of the operands, as it calls no metamethod. */
  lemma EqSwapped(x: Ctx, c: seq<Instr>, lasttarget: nat, k1: Kind, k2: Kind, a: Exp, b: Exp, i: Instr, eq: bool,
          k: Kind)
    requires Both(x, c, lasttarget, k1, k2, a, b) && Compares(x.s, i, k2, k1, EqRel(eq))
    requires RawEq(x.s) && AlwaysConst(x, k, a)
    ensures forall r0: Regs :: ComparesAt(x, c, k1, k2, i, EqRel(eq), r0)
  {
    hide Exec, Taken, Eval, OperandVal, AgreeBelow, CtxOk, Frame, CodeOk;
    forall r0: Regs ensures ComparesAt(x, c, k1, k2, i, EqRel(eq), r0) {
      assert BothAt(x, c, k1, k2, a, b, r0);
    }
  }

  lemma BothKinds(x: Ctx, c: seq<Instr>, lasttarget: nat, k1: Kind, k2: Kind, a: Exp, b: Exp)
    requires Both(x, c, lasttarget, k1, k2, a, b)
    ensures Settled(k1) && Settled(k2)
  {
    hide CtxOk, Frame, CodeOk, ConstOk, BothAt;
  }

  lemma OnlyComparisons(s: Sem, i: Instr, k1: Kind, k2: Kind)
    requires Settled(k1) && Settled(k2)
    ensures forall rel: Rel :: Compares(s, i, k1, k2, rel) ==> IsComparison(i)
  {
    hide Settled, OperandVal, Taken, Compare;
  }

  lemma BothSettled(x: Ctx, c: seq<Instr>, lasttarget: nat, k1: Kind, k2: Kind, a: Exp, b: Exp, i: Instr)
    requires Both(x, c, lasttarget, k1, k2, a, b)
    ensures Settled(k1) && Settled(k2)
    ensures forall rel: Rel :: Compares(x.s, i, k1, k2, rel) || Compares(x.s, i, k2, k1, rel) ==> IsComparison(i)
  {
    hide *;
    BothKinds(x, c, lasttarget, k1, k2, a, b);
    OnlyComparisons(x.s, i, k1, k2);
    OnlyComparisons(x.s, i, k2, k1);
  }

  lemma EqGood(x: Ctx, c: seq<Instr>, lasttarget: nat, k1: Kind, k2: Kind, a: Exp, b: Exp, i: Instr, eq: bool,
          swapped: bool, k: Kind)
    requires Both(x, c, lasttarget, if swapped then k2 else k1, if swapped then k1 else k2, a, b)
    requires Settled(k1) && Settled(k2) && Compares(x.s, i, k1, k2, EqRel(eq))
    requires RawEq(x.s) && (swapped ==> AlwaysConst(x, k, a))
    ensures Good(x, c + [i, Jmp(NO_JUMP)], lasttarget, ExpDesc(KJmp(|c| + 1), NO_JUMP, NO_JUMP), [], [],
                 ECmp(EqRel(eq), a, b))
  {
    hide Both, Good, Compares, ComparesAt, AlwaysConst, RawEq;
    BothSettled(x, c, lasttarget, if swapped then k2 else k1, if swapped then k1 else k2, a, b, i);
    var rel := EqRel(eq);
    if swapped {
      EqSwapped(x, c, lasttarget, k2, k1, a, b, i, eq, k);
      CompareGood(x, c, lasttarget, k2, k1, a, b, i, rel);
    } else {
      ComparesRun(x, c, k1, k2, i, rel);
      CompareGood(x, c, lasttarget, k1, k2, a, b, i, rel);
    }
  }

  /** codeeq: '==' and '~='. */
  method CodeEq(fs: FuncState, eq: bool, e1: ExpDesc, e2: ExpDesc, ghost p: Pair) returns (e': ExpDesc)
    requires Ready(fs, p, e1, e2) && RawEq(p.x.s)
    modifies fs`code, fs`lasttarget, fs`freereg
    ensures Good(p.x, fs.code, fs.lasttarget, e', [], [], ECmp(EqRel(eq), p.a, p.b))
    ensures e'.k.KJmp? && fs.freereg == p.x.base
  {
    hide Good, Both, Compares, AlwaysConst, RawEq;
    var d1, d2 := e1, e2;
    ghost var swapped := false;
    if !e1.k.KNonReloc? {
      d1, d2 := e2, e1;
      swapped := true;
      ReadyAlways(fs, p, e1, e2);
    }
    d1 := OperandToReg(fs, d1, d2, p, !swapped);
    var i: Instr;
    if IsSCnumber(d2) {
      ReadySimple(fs, p, d1, d2, swapped);
      i := CmpRI(IEq, d1.k.reg, d2.k.n, eq);
    } else {
      var isK, k2 := Exp2K(d2);
      if isK {
        ReadyConst(fs, p, d1, d2, swapped);
        d2 := k2;
        i := CmpRK(d1.k.reg, ConstVal(d2.k), eq);
      } else {
        d2 := OperandToReg(fs, d2, d1, p, swapped);
        i := CmpRR(CEq, d1.k.reg, d2.k.reg, eq);
      }
    }
    EqCompares(p.x.s, i, d1.k, d2.k, eq);
    EqGood(p.x, fs.code, fs.lasttarget, d1.k, d2.k, p.a, p.b, i, eq, swapped, e1.k);
    TwoRegsSwap(fs, p.x.base, d1.k, d2.k);
    FreeExps(fs, d1.k, d2.k, p.x.base);
    var pc := CondJump(fs, i);
    e' := ExpDesc(KJmp(pc), d1.t, d1.f);
  }

  /** The second operand of the instruction becomes a constant of the function. */
  lemma ReadyConst(fs: FuncState, p: Pair, e: ExpDesc, n: ExpDesc, first: bool)
    requires Ready(fs, p, if first then n else e, if first then e else n)
    requires IsConst(n.k) && !HasJumps(n) && Simple(e)
    ensures Simple(n) && Ready(fs, p, if first then n.(k := KConst(ConstVal(n.k))) else e,
                               if first then e else n.(k := KConst(ConstVal(n.k))))
  {
    hide Good, Both;
    if !first && !Simple(n) {
      NoJumpsSimple(After(p.x, p.c1, p.base), fs.code, fs.lasttarget, n, p.t, p.f, p.b);
    }
    if first {
      BothConst(p.x, fs.code, fs.lasttarget, n.k, e.k, p.a, p.b);
    } else {
      BothSwap(p.x, fs.code, fs.lasttarget, e.k, n.k, p.a, p.b);
      BothConst(p.x, fs.code, fs.lasttarget, n.k, e.k, p.b, p.a);
      BothSwap(p.x, fs.code, fs.lasttarget, KConst(ConstVal(n.k)), e.k, p.b, p.a);
    }
  }
}
