/**
 Binary operators of conditions (lcode.c, "luaK_infix", "luaK_posfix", "codeorder", "codeeq"):
 how the code of the second operand goes on from the code of the first one.
 */
module CodeBinary {
  import opened CodeMachine
  import opened CodeJumps
  import opened CodeExps
  import opened CodeFinal
  import opened CodeConds

  lemma AgreeTrans(r: Regs, r1: Regs, r2: Regs, n: nat, m: nat)
    requires AgreeBelow(r, r1, n, -1) && AgreeBelow(r1, r2, m, -1) && n <= m
    ensures AgreeBelow(r, r2, n, -1)
  {
    forall a: nat | a < n ensures R(r2, a) == R(r, a) {
      assert R(r1, a) == R(r, a) && R(r2, a) == R(r1, a);
    }
  }

  lemma AgreeLess(r: Regs, r1: Regs, n: nat, m: nat)
    requires AgreeBelow(r, r1, m, -1) && n <= m
    ensures AgreeBelow(r, r1, n, -1)
  {
    forall a: nat | a < n ensures R(r1, a) == R(r, a) {
    }
  }

  // ---- 'and' and 'or' ------------------------------------------------------------------------------

  /** The context of the second operand: the jumps out of the first one are pending. */
  ghost function Next(x: Ctx, c: seq<Instr>, l: seq<nat>): Ctx
  {
    x.(c0 := c, pend := x.pend + Set(l))
  }

  /** The value of 'a and b', or of 'a or b'. */
  function ShortCircuit(isAnd: bool, a: Exp, b: Exp): Exp
  {
    if isAnd then EAnd(a, b) else EOr(a, b)
  }

  /** The lists of the first operand once the code goes through: one is empty. */
  function T1(isAnd: bool, l: seq<nat>): seq<nat> { if isAnd then [] else l }

  function F1(isAnd: bool, l: seq<nat>): seq<nat> { if isAnd then l else [] }

  /** The lists of the operation: one is that of the second operand, the other has the jumps of both. */
  function Ts(isAnd: bool, t: seq<nat>, l: seq<nat>): seq<nat> { if isAnd then t else t + l }

  function Fs(isAnd: bool, f: seq<nat>, l: seq<nat>): seq<nat> { if isAnd then f + l else f }

  lemma NextOk(x: Ctx, c: seq<Instr>, lasttarget: nat, e: ExpDesc, l: seq<nat>, a: Exp, isAnd: bool)
    requires Good(x, c, lasttarget, e, T1(isAnd, l), F1(isAnd, l), a) && e.k == KThrough(isAnd)
    ensures CtxOk(Next(x, c, l)) && CodeOk(c, lasttarget, Next(x, c, l).pend) && x.start <= lasttarget
  {
    assert x.pend + Pending(e.k, T1(isAnd, l), F1(isAnd, l)) == Next(x, c, l).pend;
  }

  /** The outcome of the first operand is what the code of the second one starts from. */
  lemma FirstOutcome(x: Ctx, c: seq<Instr>, l: seq<nat>, a: Exp, isAnd: bool, r0: Regs)
    requires Delivered(x, c, KThrough(isAnd), T1(isAnd, l), F1(isAnd, l), a)
    requires |x.c0| <= |c|
    ensures Old(x, r0).Fall? ==>
              Delivers(x, c, KThrough(isAnd), T1(isAnd, l), F1(isAnd, l), Eval(x.s, a, Old(x, r0).r), Old(x, r0).r,
                       Old(Next(x, c, l), r0))
    ensures Old(x, r0).Cond? || Old(x, r0).Bare? ==> Old(Next(x, c, l), r0) == Old(x, r0)
  {
    assert DeliversAt(x, c, KThrough(isAnd), T1(isAnd, l), F1(isAnd, l), a, r0, |c|);
    assert x.pend + Set(T1(isAnd, l)) + Set(F1(isAnd, l)) == Next(x, c, l).pend;
  }

  lemma SeqOut(x: Ctx, c1: seq<Instr>, l: seq<nat>, c: seq<Instr>, k: Kind, t: seq<nat>, f: seq<nat>, a: Exp, b: Exp,
               isAnd: bool, nvar: nat,
               r: Regs, o1: Out, o: Out)
    requires Scoped(b, nvar) && nvar <= x.base && x.but == -1
    requires Delivers(x, c1, KThrough(isAnd), T1(isAnd, l), F1(isAnd, l), Eval(x.s, a, r), r, o1)
    requires o1.Fall? ==> Delivers(Next(x, c1, l), c, k, t, f, Eval(x.s, b, o1.r), o1.r, o)
    requires o1.Cond? ==> o == o1
    requires |c1| <= |c| && forall j :: j in l && 0 < j < |c1| && IsTest(c1[j - 1]) ==> c[j - 1] == c1[j - 1]
    ensures Delivers(x, c, k, Ts(isAnd, t, l), Fs(isAnd, f, l), Eval(x.s, ShortCircuit(isAnd, a, b), r), r, o)
  {
    hide Eval, HasValue, AgreeBelow;
    EvalShort(x.s, isAnd, a, b, r);
    if o1.Fall? {
      hide ShortCircuit, IsTest;
      assert Truthy(Eval(x.s, a, r)) == isAnd by { ThroughValue(x.s, c1, isAnd, o1.r, Eval(x.s, a, r)); }
      EvalLocalsBase(x.s, b, r, o1.r, nvar, x.base);
      if o.Fall? || o.Cond? { AgreeTrans(r, o1.r, o.r, x.base, x.base); }
    }
  }

  lemma EvalShort(s: Sem, isAnd: bool, a: Exp, b: Exp, r: Regs)
    ensures Eval(s, ShortCircuit(isAnd, a, b), r) ==
              if Truthy(Eval(s, a, r)) == isAnd then Eval(s, b, r) else Eval(s, a, r)
  {
  }

  lemma ThroughValue(s: Sem, c: seq<Instr>, b: bool, r: Regs, v: Value)
    requires HasValue(s, c, KThrough(b), r, v)
    ensures Truthy(v) == b
  {
  }

  lemma EvalLocalsBase(s: Sem, e: Exp, r: Regs, r': Regs, nvar: nat, base: nat)
    requires Scoped(e, nvar) && AgreeBelow(r, r', base, -1) && nvar <= base
    ensures Eval(s, e, r') == Eval(s, e, r)
  {
    AgreeLess(r, r', nvar, base);
    EvalLocals(s, e, r, r', nvar);
  }

  /** The jumps of the two operands in one list: links change, but they are still pending. */
  lemma LinkPatches(c: seq<Instr>, end: nat, l1: seq<nat>, l2: seq<nat>, pend: set<nat>)
    requires end <= |c| && Set(l1) <= pend && forall j :: j in l1 ==> j < |c| && c[j].Jmp?
    ensures var c' := Linked(c, l1, l2);
            && Patches(c, end, pend, c', end, pend) && |c'| == |c|
            && (forall i :: 0 <= i < |c| && !c[i].Jmp? ==> c'[i] == c[i])
            && (forall i :: 0 <= i < |c| && i !in l1 ==> c'[i] == c[i])
            && (forall i :: 0 <= i < |c| && c[i].Jmp? ==> c'[i].Jmp?)
  {
    if l1 != [] { assert l1[|l1| - 1] in l1; }
    var c' := Linked(c, l1, l2);
    forall i | 0 <= i < end ensures PatchAt(c[i], c'[i], i in pend, i + 1 in pend) {
      if i in l1 { assert i in Set(l1); }
    }
  }

  /** Whatever way the first operand ends, the code of both delivers the value of the operation. */
  lemma SeqDelivers(x: Ctx, c1: seq<Instr>, l: seq<nat>, c: seq<Instr>, k: Kind, t: seq<nat>, f: seq<nat>, a: Exp,
          b: Exp, isAnd: bool, nvar: nat, r0: Regs)
    requires Scoped(b, nvar) && nvar <= x.base && x.but == -1 && |x.c0| <= |c1| <= |c|
    requires Delivered(x, c1, KThrough(isAnd), T1(isAnd, l), F1(isAnd, l), a)
    requires Delivered(Next(x, c1, l), c, k, t, f, b)
    requires forall j :: j in l && 0 < j < |c1| && IsTest(c1[j - 1]) ==> c[j - 1] == c1[j - 1]
    ensures DeliversAt(x, c, k, Ts(isAnd, t, l), Fs(isAnd, f, l), ShortCircuit(isAnd, a, b), r0, Stop(c, k))
  {
    var y := Next(x, c1, l);
    var t', f' := Ts(isAnd, t, l), Fs(isAnd, f, l);
    var end := Stop(c, k);
    assert x.pend + Set(t') + Set(f') == y.pend + Set(t) + Set(f);
    FirstOutcome(x, c1, l, a, isAnd, r0);
    assert DeliversAt(y, c, k, t, f, b, r0, end);
    if Old(x, r0).Fall? {
      hide Delivered;
      SeqOut(x, c1, l, c, k, t, f, a, b, isAnd, nvar, Old(x, r0).r, Old(y, r0),
             Exec(x.s, c, x.start, end, r0, y.pend + Set(t) + Set(f)));
    }
  }

  lemma LinkExec(x: Ctx, c: seq<Instr>, k: Kind, t: seq<nat>, f: seq<nat>, e: Exp, l1: seq<nat>, l2: seq<nat>, r0: Regs)
    requires Delivered(x, c, k, t, f, e) && Set(l1) <= Set(t) + Set(f) && (forall j :: j in l1 ==> j < |c| && c[j].Jmp?)
    requires Old(x, r0) != Stuck
    ensures var c', pend := Linked(c, l1, l2), x.pend + Set(t) + Set(f);
            && |c'| == |c| && (forall i :: 0 <= i < |c| && !c[i].Jmp? ==> c'[i] == c[i])
            && Exec(x.s, c', x.start, Stop(c, k), r0, pend) == Exec(x.s, c, x.start, Stop(c, k), r0, pend)
  {
    var c', pend, end := Linked(c, l1, l2), x.pend + Set(t) + Set(f), Stop(c, k);
    LinkPatches(c, end, l1, l2, pend);
    GoesOn(x, c, k, t, f, e, r0, c', end, pend);
  }

  lemma LinkDelivers(x: Ctx, c: seq<Instr>, k: Kind, t: seq<nat>, f: seq<nat>, e: Exp, l1: seq<nat>, l2: seq<nat>,
          r0: Regs)
    requires Delivered(x, c, k, t, f, e) && Set(l1) <= Set(t) + Set(f) && (forall j :: j in l1 ==> j < |c| && c[j].Jmp?)
    requires k.KReloc? && k.pc < |c| ==> !c[k.pc].Jmp?
    requires k.KJmp? && 0 < k.jpc <= |c| ==> !c[k.jpc - 1].Jmp?
    ensures var c' := Linked(c, l1, l2);
            |c'| == |c| && Stop(c', k) == Stop(c, k) && DeliversAt(x, c', k, t, f, e, r0, Stop(c', k))
  {
    hide Linked;
    LinkLength(c, l1, l2);
    if Old(x, r0) != Stuck {
      LinkExec(x, c, k, t, f, e, l1, l2, r0);
      assert DeliversAt(x, c, k, t, f, e, r0, Stop(c, k));
      if Old(x, r0).Fall? {
        SameTests(x, c, Linked(c, l1, l2), k, t, f, Eval(x.s, e, Old(x, r0).r), Old(x, r0).r,
                  Exec(x.s, c, x.start, Stop(c, k), r0, x.pend + Set(t) + Set(f)));
      }
    }
  }

  lemma LinkLength(c: seq<Instr>, l1: seq<nat>, l2: seq<nat>)
    ensures |Linked(c, l1, l2)| == |c|
  {
  }

  lemma SameTests(x: Ctx, c: seq<Instr>, c': seq<Instr>, k: Kind, t: seq<nat>, f: seq<nat>, v: Value, r: Regs, o: Out)
    requires Delivers(x, c, k, t, f, v, r, o) && |c'| == |c| && forall i :: 0 <= i < |c| && !c[i].Jmp? ==> c'[i] == c[i]
    ensures Delivers(x, c', k, t, f, v, r, o)
  {
  }

  /** Code like 'c' but with some pending jumps linked in another way. */
  lemma LinkCode(c: seq<Instr>, lasttarget: nat, pend: set<nat>, l1: seq<nat>, l2: seq<nat>)
    requires CodeOk(c, lasttarget, pend) && Set(l1) <= pend && (forall j :: j in l1 ==> j < |c| && c[j].Jmp?)
    ensures CodeOk(Linked(c, l1, l2), lasttarget, pend)
  {
    LinkPatches(c, |c|, l1, l2, pend);
    assert forall i :: i in l1 ==> i in Set(l1);
    CodeOkLike(c, lasttarget, pend, Linked(c, l1, l2), lasttarget, pend);
  }

  lemma FrameTrans(c0: seq<Instr>, c1: seq<Instr>, c2: seq<Instr>)
    requires Frame(c0, c1) && Frame(c1, c2)
    ensures Frame(c0, c2)
  {
    forall i | 0 <= i < |c0| ensures c2[i] == c0[i] || (c0[i].LoadNil? && c2[i].LoadNil?) {
      assert c1[i] == c0[i] || (c0[i].LoadNil? && c1[i].LoadNil?);
      assert c2[i] == c1[i] || (c1[i].LoadNil? && c2[i].LoadNil?);
    }
  }

  /** The jumps of the first operand are still there after the code of the second one. */
  lemma FrameJumps(c1: seq<Instr>, c: seq<Instr>, from: nat, l: seq<nat>)
    requires Frame(c1, c) && OwnJumps(c1, from, |c1|, l)
    ensures forall j :: j in l ==> c[j] == c1[j] && c[j - 1] == c1[j - 1]
    ensures OwnJumps(c, from, |c1|, l)
    ensures forall j :: j in l && 0 < j < |c1| && IsTest(c1[j - 1]) ==> c[j - 1] == c1[j - 1]
  {
  }

  lemma LinkOwn(c: seq<Instr>, from: nat, end: nat, l: seq<nat>, l1: seq<nat>, l2: seq<nat>, from': nat)
    requires OwnJumps(c, from, end, l) && (forall j :: j in l1 ==> j < |c| && c[j].Jmp?) && from' <= from && end <= |c|
    ensures OwnJumps(Linked(c, l1, l2), from', end, l)
  {
    LinkPatches(c, |c|, l1, l2, Set(l1));
  }

  /** The descriptor of the operation is the one of the second operand, with the two lists in one. */
  function SeqDesc(e: ExpDesc, h: int, isAnd: bool): ExpDesc
  {
    if isAnd then e.(f := h) else e.(t := h)
  }

  lemma SeqShape(x: Ctx, c1: seq<Instr>, lt1: nat, e1: ExpDesc, l: seq<nat>, c: seq<Instr>, lasttarget: nat,
                 e: ExpDesc, t: seq<nat>, f: seq<nat>,
                 isAnd: bool, h: int)
    requires Shape(x, c1, lt1, e1, T1(isAnd, l), F1(isAnd, l)) && e1.k == KThrough(isAnd)
    requires Shape(Next(x, c1, l), c, lasttarget, e, t, f) && x.start <= lasttarget
    requires ListIs(Linked(c, if isAnd then f else t, l), h, if isAnd then f + l else t + l)
    ensures Shape(x, Linked(c, if isAnd then f else t, l), lasttarget, SeqDesc(e, h, isAnd), Ts(isAnd, t, l),
                  Fs(isAnd, f, l))
  {
    hide ListIs, CodeOk, Frame, OwnJumps, AllOwn;
    var y, m := Next(x, c1, l), if isAnd then f else t;
    var c', t', f' := Linked(c, m, l), Ts(isAnd, t, l), Fs(isAnd, f, l);
    var end := Stop(c, e.k);
    hide Linked;
    SeqPieces(x, c1, lt1, e1, l, c, lasttarget, e, t, f, isAnd, h);
  }

  /** The parts of the shape of the operation, one by one. */
  lemma SeqPieces(x: Ctx, c1: seq<Instr>, lt1: nat, e1: ExpDesc, l: seq<nat>, c: seq<Instr>, lasttarget: nat,
                  e: ExpDesc, t: seq<nat>, f: seq<nat>,
                  isAnd: bool, h: int)
    requires Shape(x, c1, lt1, e1, T1(isAnd, l), F1(isAnd, l)) && e1.k == KThrough(isAnd)
    requires Shape(Next(x, c1, l), c, lasttarget, e, t, f) && x.start <= lasttarget
    ensures var m := if isAnd then f else t;
            var c', t', f' := Linked(c, m, l), Ts(isAnd, t, l), Fs(isAnd, f, l);
            && Frame(x.c0, c') && |c'| == |c| && |x.c0| <= Stop(c, e.k) <= |c| && Stop(c', e.k) == Stop(c, e.k)
            && OwnJumps(c', |x.c0|, Stop(c, e.k), t') && OwnJumps(c', |x.c0|, Stop(c, e.k), f')
            && (forall j :: j in t' ==> j !in f')
            && ListIs(c', if isAnd then e.t else e.f, if isAnd then t else f)
            && CodeOk(c', lasttarget, x.pend + Pending(e.k, t', f')) && KindOk(c', |x.c0|, e.k)
  {
    hide Shape, ListIs, CodeOk, Frame, OwnJumps, AllOwn, Linked;
    var y, m := Next(x, c1, l), if isAnd then f else t;
    var c', t', f' := Linked(c, m, l), Ts(isAnd, t, l), Fs(isAnd, f, l);
    var end := Stop(c, e.k);
    FirstOwn(x, c1, lt1, e1, l, isAnd);
    SecondShape(y, c, lasttarget, e, t, f);
    ShapeOwn(y, c, lasttarget, e, t, f);
    AllOwnL(c, t, f);
    FrameJumps(c1, c, |x.c0|, l);
    SeqOwn(c, |x.c0|, |c1|, end, t, f, l, isAnd);
    LinkPatches(c, |c|, m, l, Set(m));
    FrameTrans(x.c0, c1, c);
    LinkFrame(x.c0, c, m, l, |c1|);
    SameList(c, c', if isAnd then e.t else e.f, if isAnd then t else f);
    assert x.pend + Pending(e.k, t', f') == y.pend + Pending(e.k, t, f);
    LinkCode(c, lasttarget, y.pend + Pending(e.k, t, f), m, l);
    SeqDisjoint(c, |c1|, end, |x.c0|, t, f, l, isAnd);
    OwnBelow2(c, |c1|, end, t);
    OwnBelow2(c, |c1|, end, f);
  }

  lemma OwnBelow2(c: seq<Instr>, from: nat, end: nat, l: seq<nat>)
    requires OwnJumps(c, from, end, l)
    ensures forall j :: j in l ==> from < j < end
  {
  }

  lemma LinkFrame(c0: seq<Instr>, c: seq<Instr>, m: seq<nat>, l: seq<nat>, from: nat)
    requires Frame(c0, c) && |c0| <= from && forall j :: j in m ==> from < j < |c| && c[j].Jmp?
    ensures Frame(c0, Linked(c, m, l))
  {
    LinkPatches(c, |c|, m, l, Set(m));
  }

  lemma SeqOwn(c: seq<Instr>, from: nat, mid: nat, end: nat, t: seq<nat>, f: seq<nat>, l: seq<nat>, isAnd: bool)
    requires OwnJumps(c, mid, end, t) && OwnJumps(c, mid, end, f) && OwnJumps(c, from, mid, l)
    requires from <= mid <= end <= |c|
    ensures var c' := Linked(c, if isAnd then f else t, l);
            OwnJumps(c', from, end, Ts(isAnd, t, l)) && OwnJumps(c', from, end, Fs(isAnd, f, l))
  {
    var m := if isAnd then f else t;
    LinkOwn(c, mid, end, t, m, l, from);
    LinkOwn(c, mid, end, f, m, l, from);
    LinkOwn(c, from, mid, l, m, l, from);
    LinkLength(c, m, l);
  }

  lemma SeqDisjoint(c: seq<Instr>, mid: nat, end: nat, from: nat, t: seq<nat>, f: seq<nat>, l: seq<nat>, isAnd: bool)
    requires OwnJumps(c, mid, end, t) && OwnJumps(c, mid, end, f) && OwnJumps(c, from, mid, l)
    requires forall j :: j in t ==> j !in f
    ensures forall j :: j in Ts(isAnd, t, l) ==> j !in Fs(isAnd, f, l)
  {
  }

  /** 'a and b' and 'a or b'. */
  lemma SeqGood(x: Ctx, c1: seq<Instr>, lt1: nat, e1: ExpDesc, l: seq<nat>, c: seq<Instr>, lasttarget: nat, e: ExpDesc,
                t: seq<nat>, f: seq<nat>,
                a: Exp, b: Exp, isAnd: bool, nvar: nat, h: int)
    requires Good(x, c1, lt1, e1, T1(isAnd, l), F1(isAnd, l), a) && e1.k == KThrough(isAnd)
    requires Good(Next(x, c1, l), c, lasttarget, e, t, f, b) && x.start <= lasttarget
    requires Scoped(b, nvar) && nvar <= x.base && x.but == -1
    requires ListIs(Linked(c, if isAnd then f else t, l), h, if isAnd then f + l else t + l)
    ensures Good(x, Linked(c, if isAnd then f else t, l), lasttarget, SeqDesc(e, h, isAnd), Ts(isAnd, t, l),
                 Fs(isAnd, f, l),
                 ShortCircuit(isAnd, a, b))
  {
    hide Shape, Linked, OwnJumps, ListIs, Frame, AllOwn, DeliversAt;
    var y, m := Next(x, c1, l), if isAnd then f else t;
    SeqShape(x, c1, lt1, e1, l, c, lasttarget, e, t, f, isAnd, h);
    SeqFrame(x, c1, lt1, e1, l, c, lasttarget, e, t, f, isAnd);
    ShapeOwn(y, c, lasttarget, e, t, f);
    AllOwnL(c, t, f);
    var t', f', exp := Ts(isAnd, t, l), Fs(isAnd, f, l), ShortCircuit(isAnd, a, b);
    var k := e.k;
    forall r0: Regs ensures DeliversAt(x, c, k, t', f', exp, r0, Stop(c, k)) {
      SeqDelivers(x, c1, l, c, k, t, f, a, b, isAnd, nvar, r0);
    }
    var c' := Linked(c, m, l);
    forall r0: Regs
      ensures |c'| == |c| && Stop(c', k) == Stop(c, k) && DeliversAt(x, c', k, t', f', exp, r0, Stop(c', k))
    {
      LinkDelivers(x, c, k, t', f', exp, m, l, r0);
    }
    LinkLength(c, m, l);
    KeepComparison(c, m, l, k);
  }

  lemma KeepComparison(c: seq<Instr>, m: seq<nat>, l: seq<nat>, k: Kind)
    requires k.KJmp? ==> 0 < k.jpc <= |c| && IsComparison(c[k.jpc - 1])
    requires forall j :: j in m ==> j < |c| && c[j].Jmp?
    ensures k.KJmp? ==> IsComparison(Linked(c, m, l)[k.jpc - 1])
  {
    LinkPatches(c, |c|, m, l, Set(m));
  }

  /** The jumps of the first operand belong to its own code. */
  lemma FirstOwn(x: Ctx, c1: seq<Instr>, lt1: nat, e1: ExpDesc, l: seq<nat>, isAnd: bool)
    requires Shape(x, c1, lt1, e1, T1(isAnd, l), F1(isAnd, l)) && e1.k == KThrough(isAnd)
    ensures OwnJumps(c1, |x.c0|, |c1|, l) && |x.c0| <= |c1| && Frame(x.c0, c1) && CtxOk(x) && x.start <= lt1
    ensures Stop(c1, e1.k) == |c1| && ListIs(c1, if isAnd then e1.f else e1.t, l)
  {
    hide ListIs, CodeOk, OwnJumps, Frame;
  }

  /** What the shape of the second operand says. */
  lemma SecondShape(y: Ctx, c: seq<Instr>, lasttarget: nat, e: ExpDesc, t: seq<nat>, f: seq<nat>)
    requires Shape(y, c, lasttarget, e, t, f)
    ensures Frame(y.c0, c) && |y.c0| <= Stop(c, e.k) <= |c| && KindOk(c, |y.c0|, e.k)
    ensures OwnJumps(c, |y.c0|, Stop(c, e.k), t) && OwnJumps(c, |y.c0|, Stop(c, e.k), f)
    ensures ListIs(c, e.t, t) && ListIs(c, e.f, f) && (forall j :: j in t ==> j !in f)
    ensures CodeOk(c, lasttarget, y.pend + Pending(e.k, t, f))
  {
    hide ListIs, CodeOk, OwnJumps, Frame;
  }

  lemma SeqFrame(x: Ctx, c1: seq<Instr>, lt1: nat, e1: ExpDesc, l: seq<nat>, c: seq<Instr>, lasttarget: nat, e: ExpDesc,
          t: seq<nat>, f: seq<nat>, isAnd: bool)
    requires Shape(x, c1, lt1, e1, T1(isAnd, l), F1(isAnd, l)) && e1.k == KThrough(isAnd)
    requires Shape(Next(x, c1, l), c, lasttarget, e, t, f)
    ensures |x.c0| <= |c1| <= |c| && forall j :: j in l && 0 < j < |c1| && IsTest(c1[j - 1]) ==> c[j - 1] == c1[j - 1]
    ensures e.k.KReloc? && e.k.pc < |c| ==> !c[e.k.pc].Jmp?
    ensures e.k.KJmp? ==> 0 < e.k.jpc <= |c| && !c[e.k.jpc - 1].Jmp?
    ensures Stop(c, e.k) <= |c| && Stop(c1, e1.k) == |c1|
  {
    hide Shape, OwnJumps, Frame, ListIs, CodeOk;
    FirstOwn(x, c1, lt1, e1, l, isAnd);
    SecondShape(Next(x, c1, l), c, lasttarget, e, t, f);
    FrameJumps(c1, c, |x.c0|, l);
  }
}
