/**
 Putting the value of an expression in a register (lcode.c, "luaK_dischargevars", "discharge2reg",
 "luaK_nil").
 */
module CodeDischarge {
  import opened CodeMachine
  import opened CodeJumps
  import opened CodeExps

  /** An expression without code of its own: a constant or a variable. */
  lemma NoCode(x: Ctx, lasttarget: nat, k: Kind, e: Exp)
    requires CtxOk(x) && x.start <= lasttarget && CodeOk(x.c0, lasttarget, x.pend)
    requires !k.KNonReloc? && !k.KReloc? && !k.KJmp? && ConstOk(k)
    requires forall r: Regs :: HasValue(x.s, x.c0, k, r, Eval(x.s, e, r))
    ensures Good(x, x.c0, lasttarget, ExpDesc(k, NO_JUMP, NO_JUMP), [], [], e)
  {
    assert x.pend + Set([]) + Set([]) == x.pend;
    assert x.pend + Pending(k, [], []) == x.pend;
    forall r0: Regs ensures DeliversAt(x, x.c0, k, [], [], e, r0, |x.c0|) {
    }
  }

  // ---- Adding an instruction that computes the value ---------------------------------------------

  /** The instruction puts 'v' in 'reg' and changes no other register. */
  ghost predicate PutsAt(s: Sem, i: Instr, reg: nat, r: Regs, v: Value)
  {
    Effect(s, i, r) == r[reg := v]
  }

  predicate IsPlain(i: Instr)
  {
    !i.Jmp? && !IsTest(i) && !i.LFalseSkip?
  }

  lemma PlainEnd(s: Sem, c: seq<Instr>, p: nat, r: Regs, pend: set<nat>)
    requires p + 1 == |c| && IsPlain(c[p])
    ensures Exec(s, c, p, |c|, r, pend) == Fall(Effect(s, c[p], r))
  {
    assert Exec(s, c, p + 1, |c|, Effect(s, c[p], r), pend) == Fall(Effect(s, c[p], r));
  }

  /** The value of the instruction, when the run came to it or left before it. */
  lemma PutOut(x: Ctx, c: seq<Instr>, k: Kind, t: seq<nat>, f: seq<nat>, c': seq<Instr>, reg: nat, v: Value, r: Regs,
          o: Out, pend: set<nat>)
    requires Delivers(x, c, k, t, f, v, r, o) && (reg >= x.base || reg == x.but) && Stop(c, k) <= |c|
    requires Stop(c, k) + 1 == |c'| && IsPlain(c'[Stop(c, k)]) && (o.Cond? ==> o.j in pend)
    requires forall i :: 0 <= i < Stop(c, k) ==> c'[i] == c[i]
    requires o.Fall? ==> PutsAt(x.s, c'[Stop(c, k)], reg, o.r, v)
    requires OwnJumps(c, |x.c0|, Stop(c, k), t) && OwnJumps(c, |x.c0|, Stop(c, k), f)
    ensures Delivers(x, c', KNonReloc(reg), t, f, v, r, Goes(x.s, o, Stop(c, k), c', |c'|, pend))
  {
    hide OwnJumps, Exec, IsTest, IsPlain, Effect;
    if o.Fall? {
      PlainEnd(x.s, c', Stop(c, k), o.r, pend);
    } else {
      assert o.Cond?;
      KeepJump(x, c, k, t, f, v, c', KNonReloc(reg), t, f, Stop(c, k), r, o.j, o.r);
    }
  }

  /** Running 'c' with the instruction at its end: the value goes to 'reg'. */
  lemma PutDelivers(x: Ctx, c: seq<Instr>, k: Kind, t: seq<nat>, f: seq<nat>, e: Exp, c': seq<Instr>, reg: nat,
          r0: Regs)
    requires Delivered(x, c, k, t, f, e) && !k.KJmp? && (reg >= x.base || reg == x.but)
    requires Stop(c, k) + 1 == |c'| && IsPlain(c'[Stop(c, k)])
    requires forall i :: 0 <= i < Stop(c, k) ==> c'[i] == c[i]
    requires forall r: Regs, v: Value :: HasValue(x.s, c, k, r, v) ==> PutsAt(x.s, c'[Stop(c, k)], reg, r, v)
    requires OwnJumps(c, |x.c0|, Stop(c, k), t) && OwnJumps(c, |x.c0|, Stop(c, k), f)
    ensures DeliversAt(x, c', KNonReloc(reg), t, f, e, r0, |c'|)
  {
    hide Exec, Eval, HasValue, OwnJumps, PutsAt, IsPlain, Patches;
    var end, pend := Stop(c, k), x.pend + Set(t) + Set(f);
    if Old(x, r0) != Stuck {
      SameUpTo(c, end, pend, c', |c'|);
      GoesOn(x, c, k, t, f, e, r0, c', |c'|, pend);
      assert DeliversAt(x, c, k, t, f, e, r0, end);
      if Old(x, r0).Fall? {
        var v, r, o := Eval(x.s, e, Old(x, r0).r), Old(x, r0).r, Exec(x.s, c, x.start, end, r0, pend);
        assert o.Fall? ==> HasValue(x.s, c, k, o.r, v);
        hide Delivers, Delivered;
        PutOut(x, c, k, t, f, c', reg, v, r, o, pend);
      }
    }
  }

  lemma AppendFrame(c0: seq<Instr>, c: seq<Instr>, c': seq<Instr>, from: nat)
    requires Frame(c0, c) && |c0| <= from <= |c| && from <= |c'| && forall i :: 0 <= i < from ==> c'[i] == c[i]
    ensures Frame(c0, c')
  {
  }

  lemma OwnSame(c: seq<Instr>, from: nat, stop: nat, l: seq<nat>, c': seq<Instr>, stop': nat)
    requires OwnJumps(c, from, stop, l) && stop <= |c| && stop <= |c'| && forall i :: 0 <= i < stop ==> c'[i] == c[i]
    requires stop <= stop' <= |c'|
    ensures OwnJumps(c', from, stop', l)
  {
  }

  /** Code with one more plain instruction after 'end'. */
  lemma CodeOkPlain(c: seq<Instr>, lasttarget: nat, pend: set<nat>, end: nat, c': seq<Instr>, lasttarget': nat)
    requires CodeOk(c, lasttarget, pend) && end <= |c| && |c'| == end + 1 && lasttarget <= lasttarget' <= |c'|
    requires (forall i :: 0 <= i < end ==> c'[i] == c[i]) && IsPlain(c'[end])
    requires end < |c| ==> IsPlain(c[end]) && !c[end].LoadTrue?
    ensures CodeOk(c', lasttarget', pend)
  {
    forall i | 0 <= i < |c'| && IsTest(c'[i]) ensures i + 1 < |c'| && c'[i + 1].Jmp? {
      assert IsTest(c[i]);
    }
    forall i | 0 <= i < |c'| && c'[i].LFalseSkip? ensures i + 1 < |c'| && c'[i + 1].LoadTrue? {
      assert c[i].LFalseSkip?;
    }
  }

  /** discharge2reg with an instruction added after the code, or completing the last one. */
  lemma PutGood(x: Ctx, c: seq<Instr>, lasttarget: nat, e: ExpDesc, t: seq<nat>, f: seq<nat>, exp: Exp, c': seq<Instr>,
          reg: nat)
    requires Good(x, c, lasttarget, e, t, f, exp) && !e.k.KJmp? && (reg >= x.base || reg == x.but)
    requires Stop(c, e.k) + 1 == |c'| && IsPlain(c'[Stop(c, e.k)])
    requires forall i :: 0 <= i < Stop(c, e.k) ==> c'[i] == c[i]
    requires forall r: Regs, v: Value :: HasValue(x.s, c, e.k, r, v) ==> PutsAt(x.s, c'[Stop(c, e.k)], reg, r, v)
    ensures Good(x, c', lasttarget, e.(k := KNonReloc(reg)), t, f, exp)
  {
    var end := Stop(c, e.k);
    forall r0: Regs ensures DeliversAt(x, c', KNonReloc(reg), t, f, exp, r0, |c'|) {
      PutDelivers(x, c, e.k, t, f, exp, c', reg, r0);
    }
    AppendFrame(x.c0, c, c', end);
    OwnSame(c, |x.c0|, end, t, c', |c'|);
    OwnSame(c, |x.c0|, end, f, c', |c'|);
    SameList(c, c', e.t, t);
    SameList(c, c', e.f, f);
    assert Pending(KNonReloc(reg), t, f) == Pending(e.k, t, f);
    CodeOkPlain(c, lasttarget, x.pend + Pending(e.k, t, f), end, c', lasttarget);
  }

  // ---- luaK_nil ----------------------------------------------------------------------------------

  /** luaK_nil may widen the previous instruction: it is OP_LOADNIL, no jump comes here, and the ranges touch. */
  predicate CanMergeNil(c: seq<Instr>, lasttarget: nat, from: nat, n: nat)
  {
    |c| > lasttarget && c[|c| - 1].LoadNil? && CanConnect(c[|c| - 1].a, c[|c| - 1].n, from, n)
  }

  function Merged(c: seq<Instr>, lasttarget: nat, from: nat, n: nat): seq<Instr>
    requires CanMergeNil(c, lasttarget, from, n)
  {
    c[|c| - 1 := Connected(c[|c| - 1].a, c[|c| - 1].n, from, n)]
  }

  /** What the new code does: in all runs, what adding OP_LOADNIL for these registers would do. */
  lemma NilRuns(s: Sem, c: seq<Instr>, lasttarget: nat, p: nat, r: Regs, pend: set<nat>, from: nat, n: nat)
    requires p < |c| && CanMergeNil(c, lasttarget, from, n) && CodeOk(c, lasttarget, pend)
    requires Exec(s, c, p, |c|, r, pend) != Stuck
    ensures Exec(s, Merged(c, lasttarget, from, n), p, |c|, r, pend) ==
              WithNil(Exec(s, c, p, |c|, r, pend), from, n)
  {
    assert OnlyByLast(c, pend);
    NilMerge(s, c, p, r, pend, from, n);
  }

  lemma MergeDelivers(x: Ctx, c: seq<Instr>, lasttarget: nat, t: seq<nat>, f: seq<nat>, e: Exp, reg: nat, r0: Regs)
    requires Delivered(x, c, KNil, t, f, e) && (reg >= x.base || reg == x.but) && CanMergeNil(c, lasttarget, reg, 0)
    requires CodeOk(c, lasttarget, x.pend + Set(t) + Set(f)) && x.start <= lasttarget
    ensures DeliversAt(x, Merged(c, lasttarget, reg, 0), KNonReloc(reg), t, f, e, r0, |c|)
  {
    var pend := x.pend + Set(t) + Set(f);
    assert DeliversAt(x, c, KNil, t, f, e, r0, |c|);
    if Old(x, r0) != Stuck {
      NilRuns(x.s, c, lasttarget, x.start, r0, pend, reg, 0);
      OutPending(x.s, x.c0, x.start, |x.c0|, r0, x.pend);
    }
  }

  lemma MergeGood(x: Ctx, c: seq<Instr>, lasttarget: nat, e: ExpDesc, t: seq<nat>, f: seq<nat>, exp: Exp, reg: nat)
    requires Good(x, c, lasttarget, e, t, f, exp) && e.k == KNil && (reg >= x.base || reg == x.but)
    requires CanMergeNil(c, lasttarget, reg, 0)
    ensures Good(x, Merged(c, lasttarget, reg, 0), lasttarget, e.(k := KNonReloc(reg)), t, f, exp)
  {
    hide ListIs, CodeOk;
    var c' := Merged(c, lasttarget, reg, 0);
    assert x.pend + Pending(e.k, t, f) == x.pend + Set(t) + Set(f) == x.pend + Pending(KNonReloc(reg), t, f);
    forall r0: Regs ensures DeliversAt(x, c', KNonReloc(reg), t, f, exp, r0, |c'|) {
      MergeDelivers(x, c, lasttarget, t, f, exp, reg, r0);
    }
    OwnMerged(c, |x.c0|, t, lasttarget, reg);
    OwnMerged(c, |x.c0|, f, lasttarget, reg);
    SameList(c, c', e.t, t);
    SameList(c, c', e.f, f);
    MergeFrame(x.c0, c, lasttarget, reg);
    hide Frame, OwnJumps, Merged, CanMergeNil;
    MergeCodeOk(c, lasttarget, x.pend + Set(t) + Set(f), reg);
  }

  lemma OwnMerged(c: seq<Instr>, from: nat, l: seq<nat>, lasttarget: nat, reg: nat)
    requires OwnJumps(c, from, |c|, l) && CanMergeNil(c, lasttarget, reg, 0)
    ensures OwnJumps(Merged(c, lasttarget, reg, 0), from, |c|, l)
    ensures forall j :: j in l ==> j < |c| && Merged(c, lasttarget, reg, 0)[j] == c[j]
  {
  }

  lemma MergeFrame(c0: seq<Instr>, c: seq<Instr>, lasttarget: nat, reg: nat)
    requires Frame(c0, c) && CanMergeNil(c, lasttarget, reg, 0)
    ensures Frame(c0, Merged(c, lasttarget, reg, 0))
  {
  }

  lemma MergeCodeOk(c: seq<Instr>, lasttarget: nat, pend: set<nat>, reg: nat)
    requires CodeOk(c, lasttarget, pend) && CanMergeNil(c, lasttarget, reg, 0)
    ensures CodeOk(Merged(c, lasttarget, reg, 0), lasttarget, pend)
  {
  }

  /** luaK_nil */
  method Nil(fs: FuncState, from: nat, n: nat)
    requires n > 0
    modifies fs`code
    ensures fs.code == if CanMergeNil(old(fs.code), fs.lasttarget, from, n - 1)
                       then Merged(old(fs.code), fs.lasttarget, from, n - 1)
                       else old(fs.code) + [LoadNil(from, n - 1)]
  {
    var first, l := from, from + n - 1;
    if |fs.code| > fs.lasttarget && fs.code[|fs.code| - 1].LoadNil? {
      var previous := fs.code[|fs.code| - 1];
      var pfrom := previous.a;
      var pl := pfrom + previous.n;
      if (pfrom <= first && first <= pl + 1) || (first <= pfrom && pfrom <= l + 1) {
        if pfrom < first { first := pfrom; }
        if pl > l { l := pl; }
        fs.code := fs.code[|fs.code| - 1 := LoadNil(first, l - first)];
        return;
      }
    }
    fs.code := fs.code + [LoadNil(from, n - 1)];
  }

  // ---- Discharging -------------------------------------------------------------------------------

  /** luaK_dischargevars: the expression is no longer a variable. */
  method DischargeVars(fs: FuncState, e: ExpDesc, ghost x: Ctx, ghost t: seq<nat>, ghost f: seq<nat>, ghost exp: Exp)
    returns (e': ExpDesc)
    requires Good(x, fs.code, fs.lasttarget, e, t, f, exp)
    modifies fs`code
    ensures Good(x, fs.code, fs.lasttarget, e', t, f, exp) && !e'.k.KLocal? && !e'.k.KUpVal?
    ensures e'.t == e.t && e'.f == e.f
    ensures if e.k.KLocal? then e'.k == KNonReloc(e.k.r) && fs.code == old(fs.code)
            else if e.k.KUpVal? then e'.k.KReloc? && fs.code == old(fs.code) + [GetUpVal(0, e.k.u)]
            else e' == e && fs.code == old(fs.code)
  {
    e' := e;
    match e.k {
      case KLocal(r) =>
        LocalGood(x, fs.code, fs.lasttarget, e, t, f, exp);
        e' := e.(k := KNonReloc(r));
      case KUpVal(u) =>
        UpValGood(x, fs.code, fs.lasttarget, e, t, f, exp);
        e' := e.(k := KReloc(|fs.code|));
        fs.code := fs.code + [GetUpVal(0, u)];
      case _ =>
    }
  }

  lemma LocalGood(x: Ctx, c: seq<Instr>, lasttarget: nat, e: ExpDesc, t: seq<nat>, f: seq<nat>, exp: Exp)
    requires Good(x, c, lasttarget, e, t, f, exp) && e.k.KLocal?
    ensures Good(x, c, lasttarget, e.(k := KNonReloc(e.k.r)), t, f, exp)
  {
    forall r0: Regs ensures DeliversAt(x, c, KNonReloc(e.k.r), t, f, exp, r0, |c|) {
      assert DeliversAt(x, c, e.k, t, f, exp, r0, |c|);
    }
    assert Pending(KNonReloc(e.k.r), t, f) == Pending(e.k, t, f);
  }

  lemma UpValGood(x: Ctx, c: seq<Instr>, lasttarget: nat, e: ExpDesc, t: seq<nat>, f: seq<nat>, exp: Exp)
    requires Good(x, c, lasttarget, e, t, f, exp) && e.k.KUpVal?
    ensures Good(x, c + [GetUpVal(0, e.k.u)], lasttarget, e.(k := KReloc(|c|)), t, f, exp)
  {
    var c', k' := c + [GetUpVal(0, e.k.u)], KReloc(|c|);
    forall r0: Regs ensures DeliversAt(x, c', k', t, f, exp, r0, |c|) {
      OpenDelivers(x, c, e.k, t, f, exp, c', k', r0);
    }
    AppendFrame(x.c0, c, c', |c|);
    OwnSame(c, |x.c0|, |c|, t, c', |c|);
    OwnSame(c, |x.c0|, |c|, f, c', |c|);
    SameList(c, c', e.t, t);
    SameList(c, c', e.f, f);
    assert Pending(k', t, f) == Pending(e.k, t, f);
    CodeOkPlain(c, lasttarget, x.pend + Pending(e.k, t, f), |c|, c', lasttarget);
  }

  /** The same piece of code, with its value in another form. */
  lemma OpenDelivers(x: Ctx, c: seq<Instr>, k: Kind, t: seq<nat>, f: seq<nat>, e: Exp, c': seq<Instr>, k': Kind,
          r0: Regs)
    requires Delivered(x, c, k, t, f, e) && Stop(c, k) <= |c'| && Stop(c', k') == Stop(c, k)
    requires forall i :: 0 <= i < Stop(c, k) ==> c'[i] == c[i]
    requires forall r: Regs, v: Value :: HasValue(x.s, c, k, r, v) ==> HasValue(x.s, c', k', r, v)
    requires OwnJumps(c, |x.c0|, Stop(c, k), t) && OwnJumps(c, |x.c0|, Stop(c, k), f)
    ensures DeliversAt(x, c', k', t, f, e, r0, Stop(c', k'))
  {
    var end, pend := Stop(c, k), x.pend + Set(t) + Set(f);
    assert DeliversAt(x, c, k, t, f, e, r0, end);
    if Old(x, r0) != Stuck {
      SameUpTo(c, end, pend, c', end);
      GoesOn(x, c, k, t, f, e, r0, c', end, pend);
      match Exec(x.s, c, x.start, end, r0, pend)
      case Cond(j, r) =>
        if Old(x, r0).Fall? {
          KeepJump(x, c, k, t, f, Eval(x.s, e, Old(x, r0).r), c', k', t, f, end, Old(x, r0).r, j, r);
        }
      case _ =>
    }
  }

  /** The instruction that loads a value that is already known, or moves it. */
  function LoadInstr(k: Kind, reg: nat): Instr
    requires IsConst(k) || k.KNonReloc?
  {
    match k
    case KNil => LoadNil(reg, 0)
    case KFalse => LoadFalse(reg)
    case KTrue => LoadTrue(reg)
    case KNonReloc(b) => Move(reg, b)
    case _ => LoadK(reg, ConstVal(k))
  }

  lemma LoadGood(x: Ctx, c: seq<Instr>, lasttarget: nat, e: ExpDesc, t: seq<nat>, f: seq<nat>, exp: Exp, reg: nat)
    requires Good(x, c, lasttarget, e, t, f, exp) && (reg >= x.base || reg == x.but) && (IsConst(e.k) || e.k.KNonReloc?)
    ensures Good(x, c + [LoadInstr(e.k, reg)], lasttarget, e.(k := KNonReloc(reg)), t, f, exp)
  {
    hide Good;
    var c' := c + [LoadInstr(e.k, reg)];
    forall r: Regs, v: Value | HasValue(x.s, c, e.k, r, v) ensures PutsAt(x.s, c'[|c|], reg, r, v) {
    }
    PutGood(x, c, lasttarget, e, t, f, exp, c', reg);
  }

  /** SETARG_A on an instruction whose register was still open. */
  function WithRegister(i: Instr, reg: nat): Instr
    requires Relocatable(i)
  {
    match i
    case GetUpVal(_, u) => GetUpVal(reg, u)
    case NotOp(_, b) => NotOp(reg, b)
  }

  lemma RelocGood(x: Ctx, c: seq<Instr>, lasttarget: nat, e: ExpDesc, t: seq<nat>, f: seq<nat>, exp: Exp, reg: nat)
    requires Good(x, c, lasttarget, e, t, f, exp) && (reg >= x.base || reg == x.but) && e.k.KReloc?
    ensures e.k.pc == |c| - 1 && Relocatable(c[e.k.pc])
    ensures Good(x, c[e.k.pc := WithRegister(c[e.k.pc], reg)], lasttarget, e.(k := KNonReloc(reg)), t, f, exp)
  {
    RelocAt(x, c, lasttarget, e, t, f);
    hide Good;
    var c' := c[e.k.pc := WithRegister(c[e.k.pc], reg)];
    forall r: Regs, v: Value | HasValue(x.s, c, e.k, r, v) ensures PutsAt(x.s, c'[e.k.pc], reg, r, v) {
    }
    PutGood(x, c, lasttarget, e, t, f, exp, c', reg);
  }

  lemma RelocAt(x: Ctx, c: seq<Instr>, lasttarget: nat, e: ExpDesc, t: seq<nat>, f: seq<nat>)
    requires Shape(x, c, lasttarget, e, t, f) && e.k.KReloc?
    ensures e.k.pc == |c| - 1 && Relocatable(c[e.k.pc])
  {
  }

  /** discharge2reg: the value goes to 'reg'; a comparison stays a jump. */
  method Discharge2Reg(fs: FuncState, e: ExpDesc, reg: nat, ghost x: Ctx, ghost t: seq<nat>, ghost f: seq<nat>,
          ghost exp: Exp)
    returns (e': ExpDesc)
    requires Good(x, fs.code, fs.lasttarget, e, t, f, exp) && (reg >= x.base || reg == x.but)
    requires !e.k.KThrough?
    modifies fs`code
    ensures Good(x, fs.code, fs.lasttarget, e', t, f, exp) && e'.t == e.t && e'.f == e.f
    ensures if e.k.KJmp? then e' == e && fs.code == old(fs.code) else e'.k == KNonReloc(reg)
  {
    hide Good;
    e' := DischargeVars(fs, e, x, t, f, exp);
    if e'.k.KJmp? {
      return;
    } else if e'.k.KReloc? {
      RelocGood(x, fs.code, fs.lasttarget, e', t, f, exp, reg);
      fs.code := fs.code[e'.k.pc := WithRegister(fs.code[e'.k.pc], reg)];
    } else if e'.k.KNil? {
      if CanMergeNil(fs.code, fs.lasttarget, reg, 0) {
        MergeGood(x, fs.code, fs.lasttarget, e', t, f, exp, reg);
      } else {
        LoadGood(x, fs.code, fs.lasttarget, e', t, f, exp, reg);
      }
      Nil(fs, reg, 1);
    } else if e'.k != KNonReloc(reg) {
      LoadGood(x, fs.code, fs.lasttarget, e', t, f, exp, reg);
      fs.code := fs.code + [LoadInstr(e'.k, reg)];
    }
    e' := e'.(k := KNonReloc(reg));
  }

  /** Which registers are in use above 'base': one, if the value of the expression is in a temporary. */
  ghost predicate RegsOk(fs: FuncState, base: nat, k: Kind)
    reads fs`freereg, fs`nvar
  {
    && fs.nvar <= base
    && (if k.KNonReloc? && k.reg >= fs.nvar then k.reg == base && fs.freereg == base + 1 else fs.freereg == base)
    && (k.KLocal? ==> k.r < fs.nvar)
  }

  /** freeexp */
  method FreeExp(fs: FuncState, e: ExpDesc, ghost base: nat)
    requires RegsOk(fs, base, e.k)
    modifies fs`freereg
    ensures fs.freereg == base
  {
    if e.k.KNonReloc? && e.k.reg >= fs.nvar {
      fs.freereg := fs.freereg - 1;
      assert fs.freereg == e.k.reg;
    }
  }

  /** discharge2anyreg */
  method Discharge2AnyReg(fs: FuncState, e: ExpDesc, ghost x: Ctx, ghost t: seq<nat>, ghost f: seq<nat>, ghost exp: Exp)
    returns (e': ExpDesc)
    requires Good(x, fs.code, fs.lasttarget, e, t, f, exp) && RegsOk(fs, x.base, e.k) && !e.k.KJmp? && !e.k.KLocal?
    requires !e.k.KUpVal?
    requires !e.k.KThrough?
    modifies fs`code, fs`freereg
    ensures Good(x, fs.code, fs.lasttarget, e', t, f, exp) && e'.t == e.t && e'.f == e.f
    ensures e'.k.KNonReloc? && RegsOk(fs, x.base, e'.k)
  {
    hide Good;
    e' := e;
    if !e.k.KNonReloc? {
      fs.freereg := fs.freereg + 1;
      e' := Discharge2Reg(fs, e, fs.freereg - 1, x, t, f, exp);
    }
  }
}
