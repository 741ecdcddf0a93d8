/**
 The end of a conditional expression (lcode.c, "exp2reg", "luaK_exp2nextreg", "luaK_exp2anyreg"): all
 its pending jumps are patched, so that whatever path was taken the value is in one register.
 */
module CodeFinal {
  import opened CodeMachine
  import opened CodeJumps
  import opened CodeExps
  import opened CodeDischarge

  // ---- A comparison whose jump joins a list --------------------------------------------------------

  lemma OneJump(c: seq<Instr>, j: nat)
    requires j < |c| && c[j] == Jmp(NO_JUMP)
    ensures ListIs(c, j, [j])
  {
  }

  /** Running the test at the end of the code. */
  lemma RunComparison(s: Sem, c: seq<Instr>, p: nat, r: Regs, pend: set<nat>)
    requires p + 2 == |c| && IsTest(c[p]) && c[p + 1].Jmp? && p + 1 in pend
    ensures Exec(s, c, p, |c|, r, pend) == if Taken(s, c[p], r) then Cond(p + 1, r) else Fall(r)
  {
    assert Exec(s, c, p + 2, |c|, r, pend) == Fall(r);
  }

  /** A test with the opposite condition. */
  function Negated(i: Instr): Instr
  {
    match i
    case CmpRR(op, a, b, k) => CmpRR(op, a, b, !k)
    case CmpRI(op, a, im, k) => CmpRI(op, a, im, !k)
    case CmpRK(a, kv, k) => CmpRK(a, kv, !k)
    case Test(a, k) => Test(a, !k)
    case TestSet(ra, b, k) => TestSet(ra, b, !k)
    case _ => i
  }

  lemma NegatedTaken(s: Sem, i: Instr, r: Regs)
    requires IsTest(i)
    ensures IsTest(Negated(i)) && Taken(s, Negated(i), r) == !Taken(s, i, r)
  {
  }

  /** The code whose last comparison jumps when its value is 'cond', with that jump in list 'l'. */
  function Joined(c: seq<Instr>, j: nat, l: seq<nat>, cond: bool): seq<Instr>
  {
    Linked(if cond || !(0 < j <= |c|) then c else c[j - 1 := Negated(c[j - 1])], l, [j])
  }

  /** The lists and the descriptor after that: what falls through is the other boolean. */
  function JoinT(t: seq<nat>, j: nat, cond: bool): seq<nat> { if cond then t + [j] else t }

  function JoinF(f: seq<nat>, j: nat, cond: bool): seq<nat> { if cond then f else f + [j] }

  function JoinKind(cond: bool): Kind { if cond then KFalse else KTrue }

  function JoinDesc(e: ExpDesc, t: seq<nat>, f: seq<nat>, j: nat, cond: bool): ExpDesc
  {
    ExpDesc(JoinKind(cond), if cond && t == [] then j else e.t, if !cond && f == [] then j else e.f)
  }

  /** A test at the end of the code, whose jump is not in 'l'. */
  ghost predicate CanJoin(c: seq<Instr>, j: nat, l: seq<nat>)
  {
    && j == |c| - 1 && j > 0 && IsTest(c[j - 1]) && c[j] == Jmp(NO_JUMP)
    && forall i :: i in l ==> i < j - 1 && c[i].Jmp?
  }

  lemma ShapeJoins(x: Ctx, c: seq<Instr>, lasttarget: nat, e: ExpDesc, t: seq<nat>, f: seq<nat>)
    requires Shape(x, c, lasttarget, e, t, f) && e.k.KJmp?
    ensures CanJoin(c, e.k.jpc, t) && CanJoin(c, e.k.jpc, f) && Stop(c, e.k) == e.k.jpc - 1
    ensures OwnJumps(c, |x.c0|, Stop(c, e.k), t) && OwnJumps(c, |x.c0|, Stop(c, e.k), f)
    ensures forall i :: i in t || i in f ==> |x.c0| < i
  {
  }

  lemma JoinedAt(c: seq<Instr>, j: nat, l: seq<nat>, cond: bool)
    requires CanJoin(c, j, l)
    ensures l != [] ==> l[|l| - 1] < |c|
    ensures var c' := Joined(c, j, l, cond);
            && |c'| == |c| && c'[j] == c[j] && c'[j - 1] == (if cond then c[j - 1] else Negated(c[j - 1]))
            && (forall i :: 0 <= i < |c| && i != j - 1 && !c[i].Jmp? ==> c'[i] == c[i])
            && (forall i :: 0 <= i < |c| && c[i].Jmp? ==> c'[i].Jmp? && (i !in l ==> c'[i] == c[i]))
  {
    if l != [] {
      assert l[|l| - 1] in l;
    }
  }

  lemma JoinPatches(c: seq<Instr>, j: nat, l: seq<nat>, cond: bool, pend: set<nat>)
    requires CanJoin(c, j, l) && Set(l) <= pend
    ensures Patches(c, j - 1, pend, Joined(c, j, l, cond), |c|, pend + {j})
  {
    JoinedAt(c, j, l, cond);
    var c' := Joined(c, j, l, cond);
    forall i | 0 <= i < j - 1 ensures PatchAt(c[i], c'[i], i in pend, i + 1 in pend) {
      if i in l { assert i in Set(l); }
    }
  }

  lemma JoinFall(x: Ctx, c: seq<Instr>, t: seq<nat>, f: seq<nat>, cond: bool, j: nat, c': seq<Instr>, v: Value,
          r0: Regs, r: Regs, pend: set<nat>)
    requires |c'| == |c| && j == |c| - 1 > 0 && IsComparison(c[j - 1]) && c'[j].Jmp? && j in pend
    requires c'[j - 1] == (if cond then c[j - 1] else Negated(c[j - 1]))
    requires AgreeBelow(r0, r, x.base, x.but) && v == Bool(Taken(x.s, c[j - 1], r))
    ensures Delivers(x, c', JoinKind(cond), JoinT(t, j, cond), JoinF(f, j, cond), v, r0,
                     Exec(x.s, c', j - 1, |c'|, r, pend))
  {
    RunComparison(x.s, c', j - 1, r, pend);
    NegatedTaken(x.s, c[j - 1], r);
  }

  lemma JoinPending(pend: set<nat>, t: seq<nat>, f: seq<nat>, j: nat, cond: bool)
    ensures pend + Set(JoinT(t, j, cond)) + Set(JoinF(f, j, cond)) == pend + Set(t) + Set(f) + {j}
    ensures if cond then j in JoinT(t, j, cond) else j in JoinF(f, j, cond)
    ensures (forall i :: i in t ==> i in JoinT(t, j, cond)) && (forall i :: i in f ==> i in JoinF(f, j, cond))
    ensures Set(if cond then t else f) <= pend + Set(t) + Set(f)
  {
  }

  /** The value of the comparison, when the run came to it or left before it. */
  lemma JoinOut(x: Ctx, c: seq<Instr>, t: seq<nat>, f: seq<nat>, cond: bool, j: nat, c': seq<Instr>, v: Value, r: Regs,
          o: Out, pend: set<nat>)
    requires 0 < j == |c| - 1 && Delivers(x, c, KJmp(j), t, f, v, r, o) && IsComparison(c[j - 1])
    requires OwnJumps(c, |x.c0|, j - 1, t) && OwnJumps(c, |x.c0|, j - 1, f)
    requires |c'| == |c| && c'[j].Jmp? && j in pend && (o.Cond? ==> o.j in pend)
    requires c'[j - 1] == (if cond then c[j - 1] else Negated(c[j - 1]))
    requires forall p :: 0 <= p < j - 1 && IsTest(c[p]) ==> c'[p] == c[p]
    requires (forall p :: p in t ==> p in JoinT(t, j, cond)) && (forall p :: p in f ==> p in JoinF(f, j, cond))
    ensures Delivers(x, c', JoinKind(cond), JoinT(t, j, cond), JoinF(f, j, cond), v, r,
                     Goes(x.s, o, j - 1, c', |c'|, pend))
  {
    hide OwnJumps, JoinT, JoinF, Exec, IsTest, Negated, Taken;
    if o.Fall? {
      JoinFall(x, c, t, f, cond, j, c', v, r, o.r, pend);
    } else {
      assert o.Cond?;
      KeepJump(x, c, KJmp(j), t, f, v, c', JoinKind(cond), JoinT(t, j, cond), JoinF(f, j, cond), j - 1, r, o.j, o.r);
    }
  }

  lemma TestsKept(c: seq<Instr>, c': seq<Instr>, n: nat)
    requires n <= |c| && n <= |c'| && forall i :: 0 <= i < n && !c[i].Jmp? ==> c'[i] == c[i]
    ensures forall i :: 0 <= i < n && IsTest(c[i]) ==> c'[i] == c[i]
  {
  }

  lemma JoinDelivers(x: Ctx, c: seq<Instr>, k: Kind, t: seq<nat>, f: seq<nat>, exp: Exp, cond: bool, j: nat, r0: Regs)
    requires Delivered(x, c, k, t, f, exp) && k == KJmp(j) && CanJoin(c, j, t) && CanJoin(c, j, f)
    requires IsComparison(c[j - 1])
    requires OwnJumps(c, |x.c0|, j - 1, t) && OwnJumps(c, |x.c0|, j - 1, f)
    ensures var c' := Joined(c, j, if cond then t else f, cond);
            |c'| == |c| && DeliversAt(x, c', JoinKind(cond), JoinT(t, j, cond), JoinF(f, j, cond), exp, r0, |c'|)
  {
    hide Exec, Eval, HasValue, Truthy, JoinT, JoinF, Joined, Patches, OwnJumps, Taken, Negated, IsTest, IsComparison;
    var l := if cond then t else f;
    var c' := Joined(c, j, l, cond);
    var pend := x.pend + Set(t) + Set(f);
    JoinedAt(c, j, l, cond);
    JoinPending(x.pend, t, f, j, cond);
    JoinPatches(c, j, l, cond, pend);
    TestsKept(c, c', j - 1);
    assert 0 < j == |c| - 1 && c'[j].Jmp?;
    hide CanJoin;
    if Old(x, r0) != Stuck {
      GoesOn(x, c, k, t, f, exp, r0, c', |c'|, pend + {j});
      assert DeliversAt(x, c, k, t, f, exp, r0, j - 1);
      if Old(x, r0).Fall? {
        hide Delivers, Delivered;
        var v, r := Eval(x.s, exp, Old(x, r0).r), Old(x, r0).r;
        JoinOut(x, c, t, f, cond, j, c', v, r, Exec(x.s, c, x.start, j - 1, r0, pend), pend + {j});
      }
    }
  }

  lemma JoinShape(x: Ctx, c: seq<Instr>, lasttarget: nat, e: ExpDesc, t: seq<nat>, f: seq<nat>, cond: bool)
    requires Shape(x, c, lasttarget, e, t, f) && e.k.KJmp?
    ensures var j, l := e.k.jpc, if cond then t else f;
            Shape(x, Joined(c, j, l, cond), lasttarget, JoinDesc(e, t, f, j, cond), JoinT(t, j, cond),
                  JoinF(f, j, cond))
  {
    hide ListIs, CodeOk, OwnJumps, CanJoin, Frame, Joined;
    var j, l := e.k.jpc, if cond then t else f;
    ShapeJoins(x, c, lasttarget, e, t, f);
    JoinLists(c, e, t, f, j, cond);
    JoinCode(c, lasttarget, x.pend, e.k, t, f, j, cond);
    JoinOwn(c, |x.c0|, t, f, j, cond);
    JoinFrame(x.c0, c, j, l, cond);
  }

  lemma JoinFrame(c0: seq<Instr>, c: seq<Instr>, j: nat, l: seq<nat>, cond: bool)
    requires Frame(c0, c) && CanJoin(c, j, l) && |c0| <= j - 1 && forall i :: i in l ==> |c0| < i
    ensures Frame(c0, Joined(c, j, l, cond)) && |Joined(c, j, l, cond)| == |c|
  {
    JoinedAt(c, j, l, cond);
  }

  lemma JoinGood(x: Ctx, c: seq<Instr>, lasttarget: nat, e: ExpDesc, t: seq<nat>, f: seq<nat>, exp: Exp, cond: bool)
    requires Good(x, c, lasttarget, e, t, f, exp) && e.k.KJmp?
    ensures var j, l := e.k.jpc, if cond then t else f;
            Good(x, Joined(c, j, l, cond), lasttarget, JoinDesc(e, t, f, j, cond), JoinT(t, j, cond),
                 JoinF(f, j, cond), exp)
  {
    hide ListIs, CodeOk, OwnJumps, CanJoin, Shape, Joined;
    var j, l := e.k.jpc, if cond then t else f;
    ShapeJoins(x, c, lasttarget, e, t, f);
    JoinShape(x, c, lasttarget, e, t, f, cond);
    var c', k', t', f' := Joined(c, j, l, cond), JoinKind(cond), JoinT(t, j, cond), JoinF(f, j, cond);
    forall r0: Regs ensures DeliversAt(x, c', k', t', f', exp, r0, |c'|) {
      JoinDelivers(x, c, e.k, t, f, exp, cond, j, r0);
    }
  }

  lemma JoinLists(c: seq<Instr>, e: ExpDesc, t: seq<nat>, f: seq<nat>, j: nat, cond: bool)
    requires CanJoin(c, j, t) && CanJoin(c, j, f) && ListIs(c, e.t, t) && ListIs(c, e.f, f)
    requires forall i :: i in t ==> i !in f
    ensures var c' := Joined(c, j, if cond then t else f, cond);
            && ListIs(c', JoinDesc(e, t, f, j, cond).t, JoinT(t, j, cond))
            && ListIs(c', JoinDesc(e, t, f, j, cond).f, JoinF(f, j, cond))
            && (forall i :: i in JoinT(t, j, cond) ==> i !in JoinF(f, j, cond))
  {
    hide ListIs, IsTest, Negated, Joined, Linked;
    var l := if cond then t else f;
    JoinedAt(c, j, l, cond);
    var c1 := if cond then c else c[j - 1 := Negated(c[j - 1])];
    var c' := Joined(c, j, l, cond);
    JoinedIs(c, j, l, cond);
    OneJump(c1, j);
    SameList(c, c1, e.t, t);
    SameList(c, c1, e.f, f);
    LinkedList(c1, if cond then e.t else e.f, l, j, [j]);
    ListHead(c, if cond then e.t else e.f, l);
    if cond { SameList(c1, c', e.f, f); } else { SameList(c1, c', e.t, t); }
  }

  lemma JoinedIs(c: seq<Instr>, j: nat, l: seq<nat>, cond: bool)
    requires 0 < j < |c|
    ensures Joined(c, j, l, cond) == Linked(if cond then c else c[j - 1 := Negated(c[j - 1])], l, [j])
  {
  }

  lemma JoinCode(c: seq<Instr>, lasttarget: nat, pend: set<nat>, k: Kind, t: seq<nat>, f: seq<nat>, j: nat, cond: bool)
    requires CodeOk(c, lasttarget, pend + Pending(k, t, f)) && k == KJmp(j) && CanJoin(c, j, t) && CanJoin(c, j, f)
    ensures CodeOk(Joined(c, j, if cond then t else f, cond), lasttarget,
                   pend + Pending(JoinKind(cond), JoinT(t, j, cond), JoinF(f, j, cond)))
  {
    hide Joined, CodeOk, Pending;
    var l := if cond then t else f;
    var c', pend' := Joined(c, j, l, cond), pend + Pending(k, t, f);
    JoinedAt(c, j, l, cond);
    JoinedPending(k, t, f, j, cond);
    forall i | 0 <= i < |c|
      ensures (IsTest(c'[i]) ==> IsTest(c[i])) && c'[i].Jmp? == c[i].Jmp?
      ensures (c'[i].LFalseSkip? ==> c[i].LFalseSkip?) && (c[i].LoadTrue? ==> c'[i].LoadTrue?)
      ensures c'[i].Jmp? && i !in pend' ==> i !in pend' && c'[i] == c[i]
    {
      if i == j - 1 { NegatedKind(c[i]); }
    }
    assert lasttarget <= |c| by { CodeOkLength(c, lasttarget, pend'); }
    CodeOkLike(c, lasttarget, pend', c', lasttarget, pend');
  }

  lemma CodeOkLength(c: seq<Instr>, lasttarget: nat, pend: set<nat>)
    requires CodeOk(c, lasttarget, pend)
    ensures lasttarget <= |c|
  {
  }

  lemma JoinedPending(k: Kind, t: seq<nat>, f: seq<nat>, j: nat, cond: bool)
    requires k == KJmp(j)
    ensures Pending(JoinKind(cond), JoinT(t, j, cond), JoinF(f, j, cond)) == Pending(k, t, f)
    ensures forall i :: i in (if cond then t else f) ==> i in Pending(k, t, f)
  {
  }

  lemma NegatedKind(i: Instr)
    requires IsTest(i)
    ensures IsTest(Negated(i)) && !i.Jmp? && !i.LFalseSkip? && !i.LoadTrue?
    ensures !Negated(i).Jmp? && !Negated(i).LFalseSkip?
  {
  }

  lemma JoinOwn(c: seq<Instr>, from: nat, t: seq<nat>, f: seq<nat>, j: nat, cond: bool)
    requires CanJoin(c, j, t) && CanJoin(c, j, f) && j - 1 >= from && OwnJumps(c, from, j - 1, t)
    requires OwnJumps(c, from, j - 1, f)
    ensures var c' := Joined(c, j, if cond then t else f, cond);
            OwnJumps(c', from, |c|, JoinT(t, j, cond)) && OwnJumps(c', from, |c|, JoinF(f, j, cond))
  {
    hide Joined;
    var c' := Joined(c, j, if cond then t else f, cond);
    JoinedAt(c, j, if cond then t else f, cond);
    JoinedOwn(c, from, j, cond, c', t);
    JoinedOwn(c, from, j, cond, c', f);
    assert OwnJumps(c', from, |c|, [j]);
  }

  /** Lists keep their jumps in the joined code. */
  lemma JoinedOwn(c: seq<Instr>, from: nat, j: nat, cond: bool, c': seq<Instr>, l: seq<nat>)
    requires 0 < j == |c| - 1 == |c'| - 1 && OwnJumps(c, from, j - 1, l)
    requires forall i :: 0 <= i < |c| && i != j - 1 && !c[i].Jmp? ==> c'[i] == c[i]
    requires forall i :: 0 <= i < |c| && c[i].Jmp? ==> c'[i].Jmp?
    ensures OwnJumps(c', from, |c|, l)
  {
    forall i | i in l ensures from < i < |c| && c'[i].Jmp? && IsTest(c'[i - 1]) {
      assert IsTest(c[i - 1]) && c'[i - 1] == c[i - 1];
    }
  }

  // ---- Patching all the jumps ------------------------------------------------------------------------

  /** The instructions after the expression: a jump around the loads of booleans, unless it is a test, and the loads. */
  function Loads(need: bool, isJmp: bool, reg: nat): seq<Instr>
  {
    if need then (if isJmp then [] else [Jmp(2)]) + [LFalseSkip(reg), LoadTrue(reg)] else []
  }

  /** Where a jump of the expression goes: to the end with its value, or to the load of its boolean. */
  function Destination(c: seq<Instr>, t: seq<nat>, j: nat, final: int): int
    requires j < |c|
  {
    if HasValueTest(c, j) then final else if j in t then final - 1 else final - 2
  }

  function FinishedAt(c: seq<Instr>, t: seq<nat>, f: seq<nat>, final: int, reg: nat, i: nat): Instr
    requires i < |c|
  {
    if i in t || i in f then LinkTo(i, Destination(c, t, i, final))
    else if i + 1 < |c| && (i + 1 in t || i + 1 in f) && c[i].TestSet? then PatchedTest(c[i], reg)
    else c[i]
  }

  ghost predicate Finished(c: seq<Instr>, t: seq<nat>, f: seq<nat>, extra: seq<Instr>, reg: nat, c': seq<Instr>)
  {
    && |c'| == |c| + |extra| && c'[|c|..] == extra
    && forall i :: 0 <= i < |c| ==> c'[i] == FinishedAt(c, t, f, |c'|, reg, i)
  }

  /** All jumps of the expression. */
  ghost predicate AllOwn(c: seq<Instr>, t: seq<nat>, f: seq<nat>)
  {
    forall j :: j in t || j in f ==> 0 < j < |c| && c[j].Jmp? && IsTest(c[j - 1])
  }

  /** No value is needed when every jump comes from a TESTSET. */
  ghost predicate NoNeed(c: seq<Instr>, t: seq<nat>, f: seq<nat>)
  {
    forall j :: (j in t || j in f) && j < |c| ==> HasValueTest(c, j)
  }

  lemma FinishPatches(c: seq<Instr>, t: seq<nat>, f: seq<nat>, extra: seq<Instr>, reg: nat, c': seq<Instr>,
          pend: set<nat>)
    requires Finished(c, t, f, extra, reg, c') && AllOwn(c, t, f)
    requires NoNeed(c, t, f) || |extra| >= 2
    requires forall j :: j in pend ==> j !in t && j !in f
    ensures Patches(c, |c|, pend + Set(t) + Set(f), c', |c'|, pend)
  {
    forall i | 0 <= i < |c| ensures PatchAt(c[i], c'[i], i in pend + Set(t) + Set(f), i + 1 in pend + Set(t) + Set(f)) {
      assert c'[i] == FinishedAt(c, t, f, |c'|, reg, i);
    }
    forall j | 0 <= j < |c| && j in pend + Set(t) + Set(f) && j !in pend && c[j].Jmp?
      ensures c'[j].Jmp? && |c| <= Target(c', j) <= |c'|
    {
      assert c'[j] == FinishedAt(c, t, f, |c'|, reg, j);
    }
  }

  lemma RunLoadTrue(s: Sem, c: seq<Instr>, r: Regs, pend: set<nat>)
    requires |c| > 0 && c[|c| - 1].LoadTrue?
    ensures Exec(s, c, |c| - 1, |c|, r, pend) == Fall(r[c[|c| - 1].a := Bool(true)])
  {
    PlainEnd(s, c, |c| - 1, r, pend);
  }

  lemma RunFalseSkip(s: Sem, c: seq<Instr>, r: Regs, pend: set<nat>)
    requires |c| > 1 && c[|c| - 2].LFalseSkip?
    ensures Exec(s, c, |c| - 2, |c|, r, pend) == Fall(r[c[|c| - 2].a := Bool(false)])
  {
    assert Exec(s, c, |c|, |c|, r[c[|c| - 2].a := Bool(false)], pend) == Fall(r[c[|c| - 2].a := Bool(false)]);
  }

  /** The value is in its register, and no other register that matters has changed. */
  ghost predicate InRegister(x: Ctx, reg: nat, v: Value, r: Regs, o: Out)
  {
    o.Fall? && AgreeBelow(r, o.r, x.base, x.but) && R(o.r, reg) == v
  }

  lemma RunNothing(s: Sem, c: seq<Instr>, r: Regs, pend: set<nat>)
    ensures Exec(s, c, |c|, |c|, r, pend) == Fall(r)
  {
  }

  /** A jump of the finished expression, and its test. */
  lemma FinishedJump(c: seq<Instr>, t: seq<nat>, f: seq<nat>, extra: seq<Instr>, reg: nat, c': seq<Instr>, j: nat)
    requires Finished(c, t, f, extra, reg, c') && AllOwn(c, t, f) && (j in t || j in f)
    ensures 0 < j < |c| && |c'| == |c| + |extra| && c'[j].Jmp? && HasValueTest(c, j) == c[j - 1].TestSet?
    ensures Target(c', j) == Destination(c, t, j, |c'|)
    ensures c'[j - 1] == if c[j - 1].TestSet? then PatchedTest(c[j - 1], reg) else c[j - 1]
  {
    assert IsTest(c[j - 1]) && c[j].Jmp?;
    assert !(j - 1 in t) && !(j - 1 in f);
    assert c'[j] == FinishedAt(c, t, f, |c'|, reg, j) && c'[j - 1] == FinishedAt(c, t, f, |c'|, reg, j - 1);
  }

  lemma FinishedLoads(c: seq<Instr>, t: seq<nat>, f: seq<nat>, extra: seq<Instr>, reg: nat, c': seq<Instr>)
    requires Finished(c, t, f, extra, reg, c') && |extra| >= 2
    requires extra[|extra| - 2..] == [LFalseSkip(reg), LoadTrue(reg)]
    ensures |c'| >= 2 && c'[|c'| - 2] == LFalseSkip(reg) && c'[|c'| - 1] == LoadTrue(reg)
  {
    assert c'[|c'| - 2..] == c'[|c|..][|extra| - 2..] == extra[|extra| - 2..];
    assert c'[|c'| - 2] == c'[|c'| - 2..][0] && c'[|c'| - 1] == c'[|c'| - 2..][1];
  }

  lemma WrittenIn(x: Ctx, reg: nat, v: Value, r0: Regs, r: Regs, i: Instr)
    requires AgreeBelow(r0, r, x.base, x.but) && (reg >= x.base || reg == x.but) && i.TestSet? && v == R(r, i.b)
    ensures InRegister(x, reg, v, r0, Fall(Write(PatchedTest(i, reg), r)))
  {
  }

  lemma LoadedIn(x: Ctx, reg: nat, v: Value, r0: Regs, r: Regs)
    requires AgreeBelow(r0, r, x.base, x.but) && (reg >= x.base || reg == x.but)
    ensures InRegister(x, reg, v, r0, Fall(r[reg := v]))
  {
  }

  /** A run that leaves through a pending jump ends with the value in the register. */
  lemma FinishJump(x: Ctx, c: seq<Instr>, k: Kind, t: seq<nat>, f: seq<nat>, extra: seq<Instr>, reg: nat,
                   c': seq<Instr>,
                   v: Value, r0: Regs, j: nat, r: Regs)
    requires Finished(c, t, f, extra, reg, c') && AllOwn(c, t, f) && (reg >= x.base || reg == x.but)
    requires Delivers(x, c, k, t, f, v, r0, Cond(j, r)) && (forall i :: i in t ==> i !in f)
    requires (NoNeed(c, t, f) && extra == [])
             || (|extra| >= 2 && extra[|extra| - 2..] == [LFalseSkip(reg), LoadTrue(reg)])
    ensures 0 < j < |c| && c'[j].Jmp? && |c| <= Target(c', j) <= |c'|
    ensures InRegister(x, reg, v, r0, Exec(x.s, c', Target(c', j), |c'|, Write(c'[j - 1], r), x.pend))
  {
    hide Exec, Finished, AgreeBelow, InRegister, Control;
    FinishedJump(c, t, f, extra, reg, c', j);
    if c[j - 1].TestSet? {
      RunNothing(x.s, c', Write(c'[j - 1], r), x.pend);
      WrittenIn(x, reg, v, r0, r, c[j - 1]);
    } else {
      assert |extra| >= 2;
      FinishedLoads(c, t, f, extra, reg, c');
      LoadedIn(x, reg, v, r0, r);
      if j in t { RunLoadTrue(x.s, c', r, x.pend); } else { RunFalseSkip(x.s, c', r, x.pend); }
    }
  }

  /** A run that gets to the end of the expression ends with the value in the register. */
  lemma FinishFall(x: Ctx, c: seq<Instr>, k: Kind, need: bool, reg: nat, c': seq<Instr>, v: Value, r0: Regs, r: Regs)
    requires AgreeBelow(r0, r, x.base, x.but) && HasValue(x.s, c, k, r, v) && (reg >= x.base || reg == x.but)
    requires k == KNonReloc(reg) || (k == KFalse && need)
    requires |c'| == |c| + |Loads(need, k == KFalse, reg)| && c'[|c|..] == Loads(need, k == KFalse, reg)
    requires |c| !in x.pend
    ensures InRegister(x, reg, v, r0, Exec(x.s, c', |c|, |c'|, r, x.pend))
  {
    if k == KFalse {
      assert c'[|c|] == c'[|c|..][0];
      RunFalseSkip(x.s, c', r, x.pend);
    } else if need {
      assert c'[|c|] == c'[|c|..][0] == Jmp(2);
      assert Exec(x.s, c', |c| + 3, |c'|, r, x.pend) == Fall(r);
    }
  }

  lemma FinishDelivers(x: Ctx, c: seq<Instr>, k: Kind, t: seq<nat>, f: seq<nat>, exp: Exp, need: bool, reg: nat,
          c': seq<Instr>, r0: Regs)
    requires Delivered(x, c, k, t, f, exp) && AllOwn(c, t, f) && (reg >= x.base || reg == x.but)
    requires k == KNonReloc(reg) || (k == KFalse && need)
    requires Finished(c, t, f, Loads(need, k == KFalse, reg), reg, c') && (need || NoNeed(c, t, f))
    requires (forall i :: i in t ==> i !in f) && forall j :: j in x.pend ==> j !in t && j !in f && j < |c|
    ensures DeliversAt(x, c', KNonReloc(reg), [], [], exp, r0, |c'|)
  {
    var extra := Loads(need, k == KFalse, reg);
    var pend := x.pend + Set(t) + Set(f);
    assert x.pend + Set([]) + Set([]) == x.pend;
    FinishPatches(c, t, f, extra, reg, c', x.pend);
    if Old(x, r0) != Stuck {
      GoesOn(x, c, k, t, f, exp, r0, c', |c'|, x.pend);
      assert DeliversAt(x, c, k, t, f, exp, r0, |c|);
      if Old(x, r0).Fall? {
        FinishOut(x, c, k, t, f, need, reg, c', Eval(x.s, exp, Old(x, r0).r), Old(x, r0).r,
                  Exec(x.s, c, x.start, |c|, r0, pend));
      }
    }
  }

  lemma FinishOut(x: Ctx, c: seq<Instr>, k: Kind, t: seq<nat>, f: seq<nat>, need: bool, reg: nat, c': seq<Instr>,
          v: Value, r: Regs, o: Out)
    requires Delivers(x, c, k, t, f, v, r, o) && AllOwn(c, t, f) && (reg >= x.base || reg == x.but)
    requires k == KNonReloc(reg) || (k == KFalse && need)
    requires Finished(c, t, f, Loads(need, k == KFalse, reg), reg, c') && (need || NoNeed(c, t, f))
    requires (forall i :: i in t ==> i !in f) && forall j :: j in x.pend ==> j !in t && j !in f && j < |c|
    ensures InRegister(x, reg, v, r, Goes(x.s, o, |c|, c', |c'|, x.pend))
  {
    hide Finished, AllOwn, NoNeed, Frame;
    if o.Fall? {
      FinishedEnd(c, t, f, Loads(need, k == KFalse, reg), reg, c');
      FinishFall(x, c, k, need, reg, c', v, r, o.r);
    } else {
      FinishJump(x, c, k, t, f, Loads(need, k == KFalse, reg), reg, c', v, r, o.j, o.r);
    }
  }

  lemma FinishedEnd(c: seq<Instr>, t: seq<nat>, f: seq<nat>, extra: seq<Instr>, reg: nat, c': seq<Instr>)
    requires Finished(c, t, f, extra, reg, c')
    ensures |c'| == |c| + |extra| && c'[|c|..] == extra
  {
  }

  lemma FinishCode(c: seq<Instr>, lasttarget: nat, pend: set<nat>, t: seq<nat>, f: seq<nat>, need: bool, isJmp: bool,
          reg: nat, c': seq<Instr>)
    requires CodeOk(c, lasttarget, pend + Set(t) + Set(f)) && AllOwn(c, t, f)
    requires Finished(c, t, f, Loads(need, isJmp, reg), reg, c') && (need || NoNeed(c, t, f))
    ensures CodeOk(c', |c'|, pend)
  {
    hide *;
    forall i | 0 <= i < |c'| ensures CodeOkAt(c', |c'|, pend, i) {
      FinishCodeAt(c, lasttarget, pend, t, f, need, isJmp, reg, c', i);
    }
    CodeOkFold(c', pend);
  }

  lemma CodeOkFold(c: seq<Instr>, pend: set<nat>)
    requires forall i :: 0 <= i < |c| ==> CodeOkAt(c, |c|, pend, i)
    ensures CodeOk(c, |c|, pend)
  {
    forall i | 0 <= i < |c| && IsTest(c[i]) ensures i + 1 < |c| && c[i + 1].Jmp? {
      assert CodeOkAt(c, |c|, pend, i);
    }
    forall i | 0 <= i < |c| && c[i].LFalseSkip? ensures i + 1 < |c| && c[i + 1].LoadTrue? {
      assert CodeOkAt(c, |c|, pend, i);
    }
    forall i | 0 <= i < |c| && c[i].Jmp? && i !in pend ensures Target(c, i) <= |c| {
      assert CodeOkAt(c, |c|, pend, i);
    }
  }

  /** What 'CodeOk' says of one instruction. */
  ghost predicate CodeOkAt(c: seq<Instr>, n: nat, pend: set<nat>, i: nat)
    requires i < |c|
  {
    && (IsTest(c[i]) ==> i + 1 < |c| && c[i + 1].Jmp?)
    && (c[i].LFalseSkip? ==> i + 1 < |c| && c[i + 1].LoadTrue?)
    && (c[i].Jmp? && i !in pend ==> Target(c, i) <= n)
  }

  lemma FinishCodeAt(c: seq<Instr>, lasttarget: nat, pend: set<nat>, t: seq<nat>, f: seq<nat>, need: bool, isJmp: bool,
          reg: nat, c': seq<Instr>, i: nat)
    requires CodeOk(c, lasttarget, pend + Set(t) + Set(f)) && AllOwn(c, t, f) && i < |c'|
    requires Finished(c, t, f, Loads(need, isJmp, reg), reg, c') && (need || NoNeed(c, t, f))
    ensures CodeOkAt(c', |c'|, pend, i)
  {
    var extra := Loads(need, isJmp, reg);
    if i < |c| {
      assert c'[i] == FinishedAt(c, t, f, |c'|, reg, i);
      if i + 1 < |c| { assert c'[i + 1] == FinishedAt(c, t, f, |c'|, reg, i + 1); }
    } else {
      assert c'[i] == extra[i - |c|] by { assert c'[|c|..][i - |c|] == c'[i]; }
      if i + 1 < |c'| { assert c'[|c|..][i + 1 - |c|] == c'[i + 1]; }
    }
  }

  lemma FinishFrame(c0: seq<Instr>, c: seq<Instr>, t: seq<nat>, f: seq<nat>, extra: seq<Instr>, reg: nat,
          c': seq<Instr>)
    requires Frame(c0, c) && Finished(c, t, f, extra, reg, c') && forall j :: j in t || j in f ==> |c0| < j
    ensures Frame(c0, c')
  {
    forall i | 0 <= i < |c0| ensures c'[i] == c[i] {
      assert c'[i] == FinishedAt(c, t, f, |c'|, reg, i);
    }
  }

  lemma ShapeOwn(x: Ctx, c: seq<Instr>, lasttarget: nat, e: ExpDesc, t: seq<nat>, f: seq<nat>)
    requires Shape(x, c, lasttarget, e, t, f)
    ensures AllOwn(c, t, f) && (forall j :: j in t || j in f ==> |x.c0| < j) && (forall i :: i in t ==> i !in f)
    ensures forall j :: j in x.pend ==> j !in t && j !in f && j < |c|
  {
  }

  /** After all is patched the expression is just a value in a register. */
  lemma FinishGood(x: Ctx, c: seq<Instr>, lasttarget: nat, e: ExpDesc, t: seq<nat>, f: seq<nat>, exp: Exp, need: bool,
          reg: nat, c': seq<Instr>)
    requires Good(x, c, lasttarget, e, t, f, exp) && (reg >= x.base || reg == x.but)
    requires e.k == KNonReloc(reg) || (e.k == KFalse && need)
    requires Finished(c, t, f, Loads(need, e.k == KFalse, reg), reg, c') && (need || NoNeed(c, t, f))
    ensures Good(x, c', |c'|, ExpDesc(KNonReloc(reg), NO_JUMP, NO_JUMP), [], [], exp)
  {
    hide ListIs, OwnJumps, Finished, NoNeed, CodeOk, Frame;
    ShapeOwn(x, c, lasttarget, e, t, f);
    hide AllOwn;
    forall r0: Regs ensures DeliversAt(x, c', KNonReloc(reg), [], [], exp, r0, |c'|) {
      FinishDelivers(x, c, e.k, t, f, exp, need, reg, c', r0);
    }
    assert x.pend + Pending(e.k, t, f) == x.pend + Set(t) + Set(f);
    FinishCode(c, lasttarget, x.pend, t, f, need, e.k == KFalse, reg, c');
    FinishFrame(x.c0, c, t, f, Loads(need, e.k == KFalse, reg), reg, c');
    FinishedEnd(c, t, f, Loads(need, e.k == KFalse, reg), reg, c');
    EmptyLists(c', |x.c0|);
    assert x.pend + Pending(KNonReloc(reg), [], []) == x.pend;
  }

  lemma EmptyLists(c: seq<Instr>, from: nat)
    ensures ListIs(c, NO_JUMP, []) && OwnJumps(c, from, |c|, [])
  {
  }

  /** The two passes of patchlistaux, put together. */
  lemma TwoPatches(c: seq<Instr>, t: seq<nat>, f: seq<nat>, extra: seq<Instr>, reg: nat, c1: seq<Instr>, c2: seq<Instr>,
          vtarget: int, pf: int, pt: int)
    requires AllOwn(c, t, f) && (forall i :: i in t ==> i !in f) && vtarget == |c| + |extra|
    requires NoNeed(c, t, f) || (pf == vtarget - 2 && pt == vtarget - 1)
    requires PatchedAll(c + extra, f, vtarget, reg, pf, c1) && PatchedAll(c1, t, vtarget, reg, pt, c2)
    ensures Finished(c, t, f, extra, reg, c2)
  {
    var c0 := c + extra;
    forall i | 0 <= i < |c| ensures c2[i] == FinishedAt(c, t, f, |c2|, reg, i) {
      TwoPatchesAt(c, t, f, extra, reg, c1, c2, vtarget, pf, pt, i);
    }
    forall i | |c| <= i < |c2| ensures c2[i] == extra[i - |c|] {
      assert c1[i] == PatchedAt(c0, f, vtarget, reg, pf, i) && c2[i] == PatchedAt(c1, t, vtarget, reg, pt, i);
    }
  }

  lemma TwoPatchesAt(c: seq<Instr>, t: seq<nat>, f: seq<nat>, extra: seq<Instr>, reg: nat, c1: seq<Instr>,
          c2: seq<Instr>, vtarget: int, pf: int, pt: int, i: nat)
    requires AllOwn(c, t, f) && (forall i :: i in t ==> i !in f) && vtarget == |c| + |extra| && i < |c|
    requires NoNeed(c, t, f) || (pf == vtarget - 2 && pt == vtarget - 1)
    requires PatchedAll(c + extra, f, vtarget, reg, pf, c1) && PatchedAll(c1, t, vtarget, reg, pt, c2)
    ensures c2[i] == FinishedAt(c, t, f, |c2|, reg, i)
  {
    var c0 := c + extra;
    assert c1[i] == PatchedAt(c0, f, vtarget, reg, pf, i);
    assert c2[i] == PatchedAt(c1, t, vtarget, reg, pt, i);
    if i > 0 {
      assert c1[i - 1] == PatchedAt(c0, f, vtarget, reg, pf, i - 1);
    }
    if i in t || i in f {
      assert i > 0 && IsTest(c[i - 1]) && !(i - 1 in f) && !(i - 1 in t);
      assert HasValueTest(c0, i) == HasValueTest(c, i);
    }
  }

  /** The jump around the loads goes to here: it has no test of its own. */
  lemma JumpAround(c: seq<Instr>, lasttarget: nat, pend: set<nat>, reg: nat, c': seq<Instr>)
    requires CodeOk(c, lasttarget, pend)
    requires PatchedAll(c + [Jmp(NO_JUMP), LFalseSkip(reg), LoadTrue(reg)], [|c|], |c| + 3, NO_REG, |c| + 3, c')
    ensures c' == c + Loads(true, false, reg)
  {
    var c0 := c + [Jmp(NO_JUMP), LFalseSkip(reg), LoadTrue(reg)];
    assert |c| > 0 ==> !IsTest(c[|c| - 1]);
    forall i | 0 <= i < |c0| ensures c'[i] == (c + Loads(true, false, reg))[i] {
      assert c'[i] == PatchedAt(c0, [|c|], |c| + 3, NO_REG, |c| + 3, i);
    }
  }

  /** luaK_patchtohere */
  method PatchToHere(fs: FuncState, head: int, ghost l: seq<nat>)
    requires ListIs(fs.code, head, l)
    modifies fs`code, fs`lasttarget
    ensures PatchedAll(old(fs.code), l, |fs.code|, NO_REG, |fs.code|, fs.code) && fs.lasttarget == |fs.code|
  {
    fs.lasttarget := |fs.code|;
    PatchListAux(fs, head, fs.lasttarget, NO_REG, fs.lasttarget, l);
  }

  /** The loads of booleans in exp2reg, with their labels. */
  method CodeLoads(fs: FuncState, isJmp: bool, reg: nat, ghost pend: set<nat>) returns (pf: nat, pt: nat)
    requires CodeOk(fs.code, fs.lasttarget, pend)
    modifies fs`code, fs`lasttarget
    ensures fs.code == old(fs.code) + Loads(true, isJmp, reg) && pf == |fs.code| - 2 && pt == |fs.code| - 1
  {
    ghost var c, lt := fs.code, fs.lasttarget;
    var fj := NO_JUMP;
    if !isJmp {
      fj := |fs.code|;
      fs.code := fs.code + [Jmp(NO_JUMP)];
    }
    fs.lasttarget := |fs.code|;
    pf := |fs.code|;
    fs.code := fs.code + [LFalseSkip(reg)];
    fs.lasttarget := |fs.code|;
    pt := |fs.code|;
    fs.code := fs.code + [LoadTrue(reg)];
    if isJmp {
      assert ListIs(fs.code, fj, []);
      assert fs.code == c + Loads(true, true, reg);
      PatchToHere(fs, fj, []);
      NoPatch(c + Loads(true, true, reg), |fs.code|, fs.code);
    } else {
      OneJump(fs.code, fj);
      assert fs.code == c + [Jmp(NO_JUMP), LFalseSkip(reg), LoadTrue(reg)];
      PatchToHere(fs, fj, [fj]);
      JumpAround(c, lt, pend, reg, fs.code);
    }
  }

  lemma NoPatch(c: seq<Instr>, here: nat, c': seq<Instr>)
    requires PatchedAll(c, [], here, NO_REG, here, c')
    ensures c' == c
  {
    forall i | 0 <= i < |c| ensures c'[i] == c[i] {
      assert c'[i] == PatchedAt(c, [], here, NO_REG, here, i);
    }
  }

  lemma ListsAfter(c: seq<Instr>, extra: seq<Instr>, head: int, l: seq<nat>)
    requires ListIs(c, head, l)
    ensures ListIs(c + extra, head, l)
  {
    SameList(c, c + extra, head, l);
  }

  lemma ListAfterPatch(c: seq<Instr>, l: seq<nat>, vtarget: int, reg: int, dtarget: int, c': seq<Instr>, head: int,
          l': seq<nat>)
    requires ListIs(c, head, l') && PatchedAll(c, l, vtarget, reg, dtarget, c') && forall j :: j in l' ==> j !in l
    ensures ListIs(c', head, l')
  {
    forall j | j in l' ensures j < |c'| && c'[j] == c[j] {
      assert c'[j] == PatchedAt(c, l, vtarget, reg, dtarget, j);
    }
    SameList(c, c', head, l');
  }

  /** The patching part of exp2reg, for an expression with jumps. */
  method FinishJumps(fs: FuncState, e: ExpDesc, isJmp: bool, reg: nat, ghost x: Ctx, ghost t: seq<nat>,
          ghost f: seq<nat>, ghost exp: Exp)
    requires Good(x, fs.code, fs.lasttarget, e, t, f, exp) && (reg >= x.base || reg == x.but)
    requires e.k == if isJmp then KFalse else KNonReloc(reg)
    requires isJmp ==> !NoNeed(fs.code, t, f)
    modifies fs`code, fs`lasttarget
    ensures Good(x, fs.code, fs.lasttarget, ExpDesc(KNonReloc(reg), NO_JUMP, NO_JUMP), [], [], exp)
  {
    hide Good, Shape, Finished, NoNeed, PatchedAll, ListIs, CodeOk, AllOwn, Delivered;
    ghost var c, lt := fs.code, fs.lasttarget;
    GoodParts(x, c, lt, e, t, f, exp);
    var need := NeedValue(fs, e.t, t);
    if !need {
      need := NeedValue(fs, e.f, f);
    }
    NeedIs(c, t, f, need);
    var pf, pt := NO_JUMP, NO_JUMP;
    if need {
      pf, pt := CodeLoads(fs, isJmp, reg, x.pend + Pending(e.k, t, f));
    }
    ghost var extra := Loads(need, isJmp, reg);
    assert fs.code == c + extra;
    ListsAfter(c, extra, e.t, t);
    ListsAfter(c, extra, e.f, f);
    NeedAfter(c, extra, t, f, need);
    fs.lasttarget := |fs.code|;
    var final := fs.lasttarget;
    PatchListAux(fs, e.f, final, reg, pf, f);
    ghost var c1 := fs.code;
    ListAfterPatch(c + extra, f, final, reg, pf, c1, e.t, t);
    NeedBetween(c, extra, t, f, final, reg, pf, c1, need);
    PatchListAux(fs, e.t, final, reg, pt, t);
    TwoPatches(c, t, f, extra, reg, c1, fs.code, final, pf, pt);
    FinishedEnd(c, t, f, extra, reg, fs.code);
    FinishGood(x, c, lt, e, t, f, exp, need, reg, fs.code);
  }

  lemma GoodParts(x: Ctx, c: seq<Instr>, lasttarget: nat, e: ExpDesc, t: seq<nat>, f: seq<nat>, exp: Exp)
    requires Good(x, c, lasttarget, e, t, f, exp)
    ensures ListIs(c, e.t, t) && ListIs(c, e.f, f) && AllOwn(c, t, f) && (forall i :: i in t ==> i !in f)
    ensures CodeOk(c, lasttarget, x.pend + Pending(e.k, t, f))
  {
    ShapeOwn(x, c, lasttarget, e, t, f);
  }

  lemma NeedIs(c: seq<Instr>, t: seq<nat>, f: seq<nat>, need: bool)
    requires need <==> (exists j :: j in t && j < |c| && !HasValueTest(c, j))
                       || (exists j :: j in f && j < |c| && !HasValueTest(c, j))
    ensures need <==> !NoNeed(c, t, f)
  {
  }

  lemma NeedAfter(c: seq<Instr>, extra: seq<Instr>, t: seq<nat>, f: seq<nat>, need: bool)
    requires AllOwn(c, t, f) && (need || NoNeed(c, t, f))
    ensures !need ==> forall j :: j in f && j < |c + extra| ==> HasValueTest(c + extra, j)
  {
    if !need {
      forall j | j in f ensures HasValueTest(c + extra, j) {
        assert HasValueTest(c, j);
      }
    }
  }

  lemma NeedBetween(c: seq<Instr>, extra: seq<Instr>, t: seq<nat>, f: seq<nat>, vtarget: int, reg: nat, pf: int,
          c1: seq<Instr>, need: bool)
    requires AllOwn(c, t, f) && (need || NoNeed(c, t, f)) && (forall i :: i in t ==> i !in f)
    requires PatchedAll(c + extra, f, vtarget, reg, pf, c1)
    ensures !need ==> forall j :: j in t && j < |c1| ==> HasValueTest(c1, j)
  {
    if !need {
      forall j | j in t ensures HasValueTest(c1, j) {
        assert HasValueTest(c, j);
        assert c1[j - 1] == PatchedAt(c + extra, f, vtarget, reg, pf, j - 1);
      }
    }
  }

  lemma FirstIn(l: seq<nat>)
    ensures l != [] ==> l[0] in l
  {
  }

  lemma NoJumps(x: Ctx, c: seq<Instr>, lasttarget: nat, e: ExpDesc, t: seq<nat>, f: seq<nat>, exp: Exp)
    requires Good(x, c, lasttarget, e, t, f, exp) && !HasJumps(e)
    ensures t == [] && f == [] && e.t == NO_JUMP && e.f == NO_JUMP
  {
    FirstIn(t);
    FirstIn(f);
  }

  /** exp2reg: whatever way the expression is computed, its value ends in 'reg'. */
  method Exp2Reg(fs: FuncState, e: ExpDesc, reg: nat, ghost x: Ctx, ghost t: seq<nat>, ghost f: seq<nat>,
          ghost exp: Exp)
    returns (e': ExpDesc)
    requires Good(x, fs.code, fs.lasttarget, e, t, f, exp) && (reg >= x.base || reg == x.but)
    requires !e.k.KThrough?
    modifies fs`code, fs`lasttarget
    ensures e' == ExpDesc(KNonReloc(reg), NO_JUMP, NO_JUMP) && Good(x, fs.code, fs.lasttarget, e', [], [], exp)
  {
    hide Good, NoNeed, ListIs;
    var e1 := Discharge2Reg(fs, e, reg, x, t, f, exp);
    e' := ExpDesc(KNonReloc(reg), NO_JUMP, NO_JUMP);
    if e1.k.KJmp? {
      ghost var c := fs.code;
      JoinGood(x, c, fs.lasttarget, e1, t, f, exp, true);
      JoinFacts(x, c, fs.lasttarget, e1, t, f, exp);
      var h := Concat(fs, e1.t, e1.k.jpc, t, [e1.k.jpc]);
      HeadOf(fs.code, h, t + [e1.k.jpc]);
      FinishJumps(fs, ExpDesc(KFalse, h, e1.f), true, reg, x, t + [e1.k.jpc], f, exp);
    } else if HasJumps(e1) {
      FinishJumps(fs, e1, false, reg, x, t, f, exp);
    } else {
      NoJumps(x, fs.code, fs.lasttarget, e1, t, f, exp);
    }
  }

  lemma HeadOf(c: seq<Instr>, h: int, l: seq<nat>)
    requires ListIs(c, h, l) && l != []
    ensures h == l[0]
  {
  }

  lemma JoinFacts(x: Ctx, c: seq<Instr>, lasttarget: nat, e: ExpDesc, t: seq<nat>, f: seq<nat>, exp: Exp)
    requires Good(x, c, lasttarget, e, t, f, exp) && e.k.KJmp?
    ensures ListIs(c, e.t, t) && ListIs(c, e.f, f) && e.k.jpc !in t && e.k.jpc !in f && e.k.jpc < |c|
    ensures ListIs(c, e.k.jpc, [e.k.jpc])
    ensures (t != [] ==> e.t == t[0]) && (f != [] ==> e.f == f[0])
    ensures !NoNeed(Joined(c, e.k.jpc, t, true), t + [e.k.jpc], f)
  {
    OneJump(c, e.k.jpc);
    ShapeJoins(x, c, lasttarget, e, t, f);
    JoinedAt(c, e.k.jpc, t, true);
    assert e.k.jpc in t + [e.k.jpc];
    assert !HasValueTest(Joined(c, e.k.jpc, t, true), e.k.jpc);
  }
}
