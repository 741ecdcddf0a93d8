/**
 Expressions while they are compiled (lcode.c, lparser.h): what an expression descriptor promises
 about the code emitted so far.
 */
module CodeExps {
  import opened CodeMachine
  import opened CodeJumps

  // ---- The source language -----------------------------------------------------------------------

  datatype Rel = REq | RNe | RLt | RLe | RGt | RGe

  datatype Exp =
    | ENil | EFalse | ETrue | EInt(n: int) | EStr(s: nat)
    | ELocal(r: nat) | EUp(u: nat)
    | ENot(e: Exp) | EAnd(a: Exp, b: Exp) | EOr(a: Exp, b: Exp) | ECmp(rel: Rel, a: Exp, b: Exp)

  function Compare(s: Sem, rel: Rel, va: Value, vb: Value): bool
  {
    match rel
    case REq => s.eq(va, vb)
    case RNe => !s.eq(va, vb)
    case RLt => s.lt(va, vb)
    case RLe => s.le(va, vb)
    case RGt => s.lt(vb, va)
    case RGe => s.le(vb, va)
  }

  /** The value of an expression, when local variables are in registers. */
  function Eval(s: Sem, e: Exp, r: Regs): Value
  {
    match e
    case ENil => Nil
    case EFalse => Bool(false)
    case ETrue => Bool(true)
    case EInt(n) => Num(n)
    case EStr(k) => Str(k)
    case ELocal(x) => R(r, x)
    case EUp(u) => s.up(u)
    case ENot(a) => Bool(!Truthy(Eval(s, a, r)))
    case EAnd(a, b) => if Truthy(Eval(s, a, r)) then Eval(s, b, r) else Eval(s, a, r)
    case EOr(a, b) => if Truthy(Eval(s, a, r)) then Eval(s, a, r) else Eval(s, b, r)
    case ECmp(rel, a, b) => Bool(Compare(s, rel, Eval(s, a, r), Eval(s, b, r)))
  }

  /** What the manual says of the value 'v' of an expression, in terms of those of its operands. */
  ghost predicate HasMeaning(s: Sem, e: Exp, r: Regs, v: Value)
  {
    match e
    case ENil => v == Nil
    case EFalse => v == Bool(false)
    case ETrue => v == Bool(true)
    case EInt(n) => v == Num(n)
    case EStr(k) => v == Str(k)
    case ELocal(x) => v == if x in r then r[x] else Nil
    case EUp(u) => v == s.up(u)
    case ENot(a) =>
      var va := Eval(s, a, r);
      v == Bool(va == Nil || va == Bool(false))
    case EAnd(a, b) =>
      var va := Eval(s, a, r);
      v == if va == Nil || va == Bool(false) then va else Eval(s, b, r)
    case EOr(a, b) =>
      var va := Eval(s, a, r);
      v == if va == Nil || va == Bool(false) then Eval(s, b, r) else va
    case ECmp(rel, a, b) =>
      var va, vb := Eval(s, a, r), Eval(s, b, r);
      match rel
      case REq => v == Bool(s.eq(va, vb))
      case RNe => v == Bool(!s.eq(va, vb))
      case RLt => v == Bool(s.lt(va, vb))
      case RLe => v == Bool(s.le(va, vb))
      case RGt => v == Bool(s.lt(vb, va))
      case RGe => v == Bool(s.le(vb, va))
  }

  /** 'Eval' gives the one value with that meaning: nil and false, and no other values, count as false. */
  lemma EvalMeans(s: Sem, e: Exp, r: Regs, v: Value)
    ensures HasMeaning(s, e, r, v) <==> v == Eval(s, e, r)
  {
  }

  /** All local variables of the expression are below 'nvar'. */
  predicate Scoped(e: Exp, nvar: nat)
  {
    match e
    case ELocal(x) => x < nvar
    case ENot(a) => Scoped(a, nvar)
    case EAnd(a, b) => Scoped(a, nvar) && Scoped(b, nvar)
    case EOr(a, b) => Scoped(a, nvar) && Scoped(b, nvar)
    case ECmp(_, a, b) => Scoped(a, nvar) && Scoped(b, nvar)
    case _ => true
  }

  ghost predicate AgreeBelow(r: Regs, r': Regs, n: nat, but: int)
  {
    forall a: nat :: a < n && a != but ==> R(r', a) == R(r, a)
  }

  lemma {:induction false} EvalLocals(s: Sem, e: Exp, r: Regs, r': Regs, nvar: nat)
    requires Scoped(e, nvar) && AgreeBelow(r, r', nvar, -1)
    ensures Eval(s, e, r') == Eval(s, e, r)
  {
    match e
    case ELocal(x) => assert R(r', x) == R(r, x);
    case ENot(a) => EvalLocals(s, a, r, r', nvar);
    case EAnd(a, b) => EvalLocals(s, a, r, r', nvar); EvalLocals(s, b, r, r', nvar);
    case EOr(a, b) => EvalLocals(s, a, r, r', nvar); EvalLocals(s, b, r, r', nvar);
    case ECmp(_, a, b) => EvalLocals(s, a, r, r', nvar); EvalLocals(s, b, r, r', nvar);
    case _ =>
  }

  // ---- Descriptors -------------------------------------------------------------------------------

  /**
   The kinds of expdesc that conditional expressions need; and KThrough, for an expression that was only
   tested: the code goes through when its value is true, or when it is false.
   */
  datatype Kind =
    | KNil | KFalse | KTrue | KInt(n: int) | KStr(sk: nat)
    | KConst(v: Value)
    | KLocal(r: nat) | KUpVal(u: nat)
    | KNonReloc(reg: nat) | KReloc(pc: nat) | KJmp(jpc: nat)
    | KThrough(b: bool)

  datatype ExpDesc = ExpDesc(k: Kind, t: int, f: int)

  predicate IsConst(k: Kind)
  {
    k.KNil? || k.KFalse? || k.KTrue? || k.KInt? || k.KStr? || k.KConst?
  }

  function ConstVal(k: Kind): Value
    requires IsConst(k)
  {
    match k
    case KNil => Nil
    case KFalse => Bool(false)
    case KTrue => Bool(true)
    case KInt(n) => Num(n)
    case KStr(s) => Str(s)
    case KConst(v) => v
  }

  /** Constants are not objects. */
  predicate ConstOk(k: Kind)
  {
    k.KConst? ==> !k.v.Obj?
  }

  /** hasjumps(e) */
  predicate HasJumps(e: ExpDesc)
  {
    e.t != e.f
  }

  /** Instructions whose result register is still open. */
  predicate Relocatable(i: Instr)
  {
    i.GetUpVal? || i.NotOp?
  }

  function Produces(s: Sem, i: Instr, r: Regs): Value
    requires Relocatable(i)
  {
    match i
    case GetUpVal(_, u) => s.up(u)
    case NotOp(_, b) => Bool(!Truthy(R(r, b)))
  }

  /** Up to where the code is a complete piece: an open instruction or comparison at its end is left out. */
  function Stop(c: seq<Instr>, k: Kind): nat
  {
    match k
    case KReloc(pc) => pc
    case KJmp(pc) => if pc > 0 then pc - 1 else 0
    case _ => |c|
  }

  ghost function Set(l: seq<nat>): set<nat>
  {
    set j | j in l
  }

  /** The pending jumps of a descriptor. */
  ghost function Pending(k: Kind, t: seq<nat>, f: seq<nat>): set<nat>
  {
    Set(t) + Set(f) + (if k.KJmp? then {k.jpc} else {})
  }

  /** After a run of the complete piece with registers 'r', the expression has value 'v'. */
  ghost predicate HasValue(s: Sem, c: seq<Instr>, k: Kind, r: Regs, v: Value)
  {
    match k
    case KLocal(x) => v == R(r, x)
    case KUpVal(u) => v == s.up(u)
    case KNonReloc(x) => v == R(r, x)
    case KReloc(pc) => pc < |c| && Relocatable(c[pc]) && v == Produces(s, c[pc], r)
    case KJmp(pc) => 0 < pc <= |c| && IsTest(c[pc - 1]) && v == Bool(Taken(s, c[pc - 1], r))
    case KThrough(b) => Truthy(v) == b
    case _ => v == ConstVal(k)
  }

  /**
   The context of an expression: the code before it, which runs from 'start' and may have pending jumps
   of enclosing expressions; and the registers below 'base' that it must not change, but for 'but'.
   */
  datatype Ctx = Ctx(s: Sem, c0: seq<Instr>, start: nat, pend: set<nat>, base: nat, but: int)

  ghost function Old(x: Ctx, r0: Regs): Out
  {
    Exec(x.s, x.c0, x.start, |x.c0|, r0, x.pend)
  }

  /**
   A pending jump is taken with the value of the expression: in the register of its test, or the boolean 'b' itself.
   */
  ghost predicate JumpValue(c: seq<Instr>, j: nat, r: Regs, v: Value, b: bool)
  {
    && 0 < j < |c| && IsTest(c[j - 1]) && Truthy(v) == b
    && (if c[j - 1].TestSet? then v == R(r, c[j - 1].b) else v == Bool(b))
  }

  /** How a run with the code of the expression ends, when the code before it ends with registers 'r'. */
  ghost predicate Delivers(x: Ctx, c: seq<Instr>, k: Kind, t: seq<nat>, f: seq<nat>, v: Value, r: Regs, o: Out)
  {
    match o
    case Fall(r') => AgreeBelow(r, r', x.base, x.but) && HasValue(x.s, c, k, r', v)
    case Cond(j, r') =>
      && AgreeBelow(r, r', x.base, x.but)
      && ((j in t && JumpValue(c, j, r', v, true)) || (j in f && JumpValue(c, j, r', v, false)))
    case _ => false
  }

  ghost predicate DeliversAt(x: Ctx, c: seq<Instr>, k: Kind, t: seq<nat>, f: seq<nat>, e: Exp, r0: Regs, stop: nat)
    requires stop <= |c|
  {
    var o := Exec(x.s, c, x.start, stop, r0, x.pend + Set(t) + Set(f));
    match Old(x, r0)
    case Fall(r) => Delivers(x, c, k, t, f, Eval(x.s, e, r), r, o)
    case Stuck => true
    case before => o == before
  }

  /** All runs deliver the value of the expression. */
  ghost predicate Delivered(x: Ctx, c: seq<Instr>, k: Kind, t: seq<nat>, f: seq<nat>, e: Exp)
  {
    Stop(c, k) <= |c| && forall r0: Regs :: DeliversAt(x, c, k, t, f, e, r0, Stop(c, k))
  }

  // ---- Shape of the code -------------------------------------------------------------------------

  /** The code before the expression is the same, but for a last OP_LOADNIL that may have got wider. */
  ghost predicate Frame(c0: seq<Instr>, c: seq<Instr>)
  {
    |c0| <= |c| && forall i :: 0 <= i < |c0| ==> c[i] == c0[i] || (c0[i].LoadNil? && c[i].LoadNil?)
  }

  /** Tests come with their jumps, and only labels are jumped to. */
  ghost predicate CodeOk(c: seq<Instr>, lasttarget: nat, pend: set<nat>)
  {
    && lasttarget <= |c|
    && (forall i :: 0 <= i < |c| && IsTest(c[i]) ==> i + 1 < |c| && c[i + 1].Jmp?)
    && (forall i :: 0 <= i < |c| && c[i].LFalseSkip? ==> i + 1 < |c| && c[i + 1].LoadTrue?)
    && (forall i :: 0 <= i < |c| && c[i].Jmp? && i !in pend ==> Target(c, i) <= lasttarget)
  }

  /** The jumps of a list belong to tests of the expression's own code. */
  ghost predicate OwnJumps(c: seq<Instr>, from: nat, stop: nat, l: seq<nat>)
  {
    forall j :: j in l ==> from < j < stop <= |c| && c[j].Jmp? && IsTest(c[j - 1])
  }

  ghost predicate KindOk(c: seq<Instr>, from: nat, k: Kind)
  {
    match k
    case KReloc(pc) => pc == |c| - 1 >= from && Relocatable(c[pc])
    case KJmp(pc) => pc == |c| - 1 && pc > from && IsTest(c[pc - 1]) && c[pc] == Jmp(NO_JUMP)
    case KConst(v) => !v.Obj?
    case _ => true
  }

  ghost predicate CtxOk(x: Ctx)
  {
    && x.start <= |x.c0| && forall j :: j in x.pend ==> j < |x.c0| && x.c0[j].Jmp?
  }

  ghost predicate Shape(x: Ctx, c: seq<Instr>, lasttarget: nat, e: ExpDesc, t: seq<nat>, f: seq<nat>)
  {
    && CtxOk(x) && Frame(x.c0, c) && x.start <= lasttarget
    && KindOk(c, |x.c0|, e.k) && |x.c0| <= Stop(c, e.k) <= |c|
    && ListIs(c, e.t, t) && ListIs(c, e.f, f) && (forall j :: j in t ==> j !in f)
    && OwnJumps(c, |x.c0|, Stop(c, e.k), t) && OwnJumps(c, |x.c0|, Stop(c, e.k), f)
    && CodeOk(c, lasttarget, x.pend + Pending(e.k, t, f))
  }

  /** The code emitted so far computes the expression, as its descriptor says. */
  ghost predicate Good(x: Ctx, c: seq<Instr>, lasttarget: nat, e: ExpDesc, t: seq<nat>, f: seq<nat>, exp: Exp)
  {
    && Shape(x, c, lasttarget, e, t, f) && Delivered(x, c, e.k, t, f, exp)
    && (e.k.KJmp? ==> IsComparison(c[e.k.jpc - 1]))
  }

  // ---- Going on from delivered code --------------------------------------------------------------

  /** A run of the delivered code goes on in any code that patches it. */
  lemma GoesOn(x: Ctx, c: seq<Instr>, k: Kind, t: seq<nat>, f: seq<nat>, e: Exp, r0: Regs, c': seq<Instr>, end': nat,
          pend': set<nat>)
    requires Delivered(x, c, k, t, f, e) && Old(x, r0) != Stuck
    requires Patches(c, Stop(c, k), x.pend + Set(t) + Set(f), c', end', pend')
    ensures var o := Exec(x.s, c, x.start, Stop(c, k), r0, x.pend + Set(t) + Set(f));
            o != Stuck && Exec(x.s, c', x.start, end', r0, pend') == Goes(x.s, o, Stop(c, k), c', end', pend')
            && (o.Cond? || o.Bare? ==> o.j in x.pend + Set(t) + Set(f) && o.j < Stop(c, k) && c[o.j].Jmp?)
            && (Old(x, r0).Cond? || Old(x, r0).Bare? ==> o == Old(x, r0) && o.j in x.pend)
  {
    OutPending(x.s, x.c0, x.start, |x.c0|, r0, x.pend);
    OutPending(x.s, c, x.start, Stop(c, k), r0, x.pend + Set(t) + Set(f));
    assert DeliversAt(x, c, k, t, f, e, r0, Stop(c, k));
    Patching(x.s, c, x.start, Stop(c, k), r0, x.pend + Set(t) + Set(f), c', end', pend');
  }

  /** Code with the same piece up to its end, and the same pending jumps. */
  lemma SameUpTo(c: seq<Instr>, end: nat, pend: set<nat>, c': seq<Instr>, end': nat)
    requires end <= |c| && end <= end' <= |c'| && forall i :: 0 <= i < end ==> c'[i] == c[i]
    ensures Patches(c, end, pend, c', end', pend)
  {
  }

  /** Code of the same shape, whose jumps that are not pending go to labels. */
  lemma CodeOkLike(c: seq<Instr>, lasttarget: nat, pend: set<nat>, c': seq<Instr>, lasttarget': nat, pend': set<nat>)
    requires CodeOk(c, lasttarget, pend) && |c'| == |c| && lasttarget <= lasttarget' <= |c|
    requires forall i :: 0 <= i < |c| ==> (IsTest(c'[i]) ==> IsTest(c[i])) && c'[i].Jmp? == c[i].Jmp?
    requires forall i :: 0 <= i < |c| ==>
        (c'[i].LFalseSkip? ==> c[i].LFalseSkip?) && (c[i].LoadTrue? ==> c'[i].LoadTrue?)
    requires forall i :: 0 <= i < |c| && c'[i].Jmp? && i !in pend' ==>
        (i !in pend && c'[i] == c[i]) || Target(c', i) <= lasttarget'
    ensures CodeOk(c', lasttarget', pend')
  {
  }

  /** A jump taken with the value is still so in code with the same tests, whose lists have at least the same jumps. */
  lemma KeepJump(x: Ctx, c: seq<Instr>, k: Kind, t: seq<nat>, f: seq<nat>, v: Value, c': seq<Instr>, k': Kind,
                 t': seq<nat>, f': seq<nat>,
                 end: nat, r0: Regs, j: nat, r: Regs)
    requires Delivers(x, c, k, t, f, v, r0, Cond(j, r)) && end <= |c| && end <= |c'|
    requires OwnJumps(c, |x.c0|, end, t) && OwnJumps(c, |x.c0|, end, f)
    requires forall i :: 0 <= i < end && IsTest(c[i]) ==> c'[i] == c[i]
    requires (j in t ==> j in t') && (j in f ==> j in f')
    ensures Delivers(x, c', k', t', f', v, r0, Cond(j, r))
  {
    assert (j in t || j in f) && j < end && c'[j - 1] == c[j - 1];
  }
}
