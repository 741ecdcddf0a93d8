/**
 Conditions (lcode.c, "jumponcond", "luaK_goiftrue", "luaK_goiffalse", "codenot").
 */
module CodeConds {
  import opened CodeMachine
  import opened CodeJumps
  import opened CodeExps
  import opened CodeDischarge
  import opened CodeFinal

  /** luaK_exp2nextreg */
  method Exp2NextReg(fs: FuncState, e: ExpDesc, ghost x: Ctx, ghost t: seq<nat>, ghost f: seq<nat>, ghost exp: Exp)
    returns (e': ExpDesc)
    requires Good(x, fs.code, fs.lasttarget, e, t, f, exp) && RegsOk(fs, x.base, e.k) && !e.k.KThrough?
    modifies fs`code, fs`lasttarget, fs`freereg
    ensures e' == ExpDesc(KNonReloc(x.base), NO_JUMP, NO_JUMP) && Good(x, fs.code, fs.lasttarget, e', [], [], exp)
    ensures fs.freereg == x.base + 1
  {
    hide Good;
    var e1 := DischargeVars(fs, e, x, t, f, exp);
    FreeExp(fs, e1, x.base);
    fs.freereg := fs.freereg + 1;
    e' := Exp2Reg(fs, e1, fs.freereg - 1, x, t, f, exp);
  }

  /** luaK_exp2anyreg: a local variable stays where it is, unless jumps must leave their values. */
  method Exp2AnyReg(fs: FuncState, e: ExpDesc, ghost x: Ctx, ghost t: seq<nat>, ghost f: seq<nat>, ghost exp: Exp)
    returns (e': ExpDesc)
    requires Good(x, fs.code, fs.lasttarget, e, t, f, exp) && RegsOk(fs, x.base, e.k) && !e.k.KThrough?
    modifies fs`code, fs`lasttarget, fs`freereg
    ensures e'.k.KNonReloc? && e' == ExpDesc(e'.k, NO_JUMP, NO_JUMP) && Good(x, fs.code, fs.lasttarget, e', [], [], exp)
    ensures RegsOk(fs, x.base, e'.k)
  {
    hide Good;
    var e1 := DischargeVars(fs, e, x, t, f, exp);
    if e1.k.KNonReloc? {
      if !HasJumps(e1) {
        NoJumps(x, fs.code, fs.lasttarget, e1, t, f, exp);
        return e1;
      }
      if e1.k.reg >= fs.nvar {
        e' := Exp2Reg(fs, e1, e1.k.reg, x, t, f, exp);
        return;
      }
    }
    e' := Exp2NextReg(fs, e1, x, t, f, exp);
  }

  // ---- Tests ---------------------------------------------------------------------------------------

  /** The test jumps when the value is 'cond', with that value: in its register, or as a boolean. */
  ghost predicate TestsValue(s: Sem, c: seq<Instr>, k: Kind, i: Instr, cond: bool)
  {
    IsTest(i) && forall r: Regs, v: Value :: HasValue(s, c, k, r, v) ==>
      Taken(s, i, r) == (Truthy(v) == cond) && (if i.TestSet? then v == R(r, i.b) else v == Bool(Truthy(v)))
  }

  /** The code up to the value, and then the test with its jump. */
  function WithTest(c: seq<Instr>, k: Kind, i: Instr): seq<Instr>
  {
    (if Stop(c, k) <= |c| then c[..Stop(c, k)] else c) + [i, Jmp(NO_JUMP)]
  }

  /** How the test ends: through, or with its jump. */
  lemma TestFall(x: Ctx, c: seq<Instr>, k: Kind, t: seq<nat>, f: seq<nat>, t': seq<nat>, f': seq<nat>, i: Instr,
                 cond: bool, j: nat, c': seq<Instr>,
                 v: Value, r0: Regs, r: Regs, pend: set<nat>)
    requires |c'| == j + 1 && j > 0 && c'[j - 1] == i && c'[j].Jmp? && j in pend && TestsValue(x.s, c, k, i, cond)
    requires AgreeBelow(r0, r, x.base, x.but) && HasValue(x.s, c, k, r, v)
    requires if cond then j in t' else j in f'
    ensures Delivers(x, c', KThrough(!cond), t', f', v, r0, Exec(x.s, c', j - 1, |c'|, r, pend))
  {
    RunComparison(x.s, c', j - 1, r, pend);
  }

  /** The code with a test whose jump is in list 'l'. */
  lemma TestPatches(c: seq<Instr>, k: Kind, i: Instr, l: seq<nat>, pend: set<nat>)
    requires Stop(c, k) <= |c| && Set(l) <= pend && (forall j :: j in l ==> j < Stop(c, k) && c[j].Jmp?)
    ensures var c', j := Linked(WithTest(c, k, i), l, [Stop(c, k) + 1]), Stop(c, k) + 1;
            && Patches(c, Stop(c, k), pend, c', |c'|, pend + {j}) && |c'| == j + 1 && c'[j - 1] == i && c'[j].Jmp?
            && (forall p :: 0 <= p < Stop(c, k) && !c[p].Jmp? ==> c'[p] == c[p])
            && (forall p :: 0 <= p < Stop(c, k) && c[p].Jmp? ==> c'[p].Jmp? && (p !in l ==> c'[p] == c[p]))
  {
    var c1, j := WithTest(c, k, i), Stop(c, k) + 1;
    var c' := Linked(c1, l, [j]);
    if l != [] { assert l[|l| - 1] in l; }
    forall p | 0 <= p < Stop(c, k) ensures PatchAt(c[p], c'[p], p in pend, p + 1 in pend) {
      if p in l { assert p in Set(l); }
    }
  }

  /** The value of the test, when the run came to it or left before it. */
  lemma TestOut(x: Ctx, c: seq<Instr>, k: Kind, t: seq<nat>, f: seq<nat>, i: Instr, cond: bool, c': seq<Instr>,
          v: Value, r: Regs, o: Out, pend: set<nat>)
    requires Delivers(x, c, k, t, f, v, r, o) && TestsValue(x.s, c, k, i, cond) && Stop(c, k) <= |c|
    requires OwnJumps(c, |x.c0|, Stop(c, k), t) && OwnJumps(c, |x.c0|, Stop(c, k), f)
    requires var j := Stop(c, k) + 1;
             && |c'| == j + 1 && c'[j - 1] == i && c'[j].Jmp? && j in pend && (o.Cond? ==> o.j in pend)
             && (forall p :: 0 <= p < j - 1 && IsTest(c[p]) ==> c'[p] == c[p])
             && (if cond then j in JoinT(t, j, cond) else j in JoinF(f, j, cond))
             && (forall p :: p in t ==> p in JoinT(t, j, cond)) && (forall p :: p in f ==> p in JoinF(f, j, cond))
    ensures var j := Stop(c, k) + 1;
            Delivers(x, c', KThrough(!cond), JoinT(t, j, cond), JoinF(f, j, cond), v, r,
                     Goes(x.s, o, j - 1, c', |c'|, pend))
  {
    hide OwnJumps, TestsValue, HasValue, JoinT, JoinF, Exec, IsTest;
    var j := Stop(c, k) + 1;
    if o.Fall? {
      TestFall(x, c, k, t, f, JoinT(t, j, cond), JoinF(f, j, cond), i, cond, j, c', v, r, o.r, pend);
    } else {
      assert o.Cond?;
      KeepJump(x, c, k, t, f, v, c', KThrough(!cond), JoinT(t, j, cond), JoinF(f, j, cond), j - 1, r, o.j, o.r);
    }
  }

  lemma TestDelivers(x: Ctx, c: seq<Instr>, k: Kind, t: seq<nat>, f: seq<nat>, exp: Exp, i: Instr, cond: bool, r0: Regs)
    requires Delivered(x, c, k, t, f, exp) && TestsValue(x.s, c, k, i, cond)
    requires OwnJumps(c, |x.c0|, Stop(c, k), t) && OwnJumps(c, |x.c0|, Stop(c, k), f)
    ensures var j := Stop(c, k) + 1;
            var c' := Linked(WithTest(c, k, i), if cond then t else f, [j]);
            DeliversAt(x, c', KThrough(!cond), JoinT(t, j, cond), JoinF(f, j, cond), exp, r0, |c'|)
  {
    hide Exec, Eval, HasValue, Truthy, JoinT, JoinF, Linked, WithTest, TestsValue, Patches;
    var end, j, l := Stop(c, k), Stop(c, k) + 1, if cond then t else f;
    var c' := Linked(WithTest(c, k, i), l, [j]);
    var pend := x.pend + Set(t) + Set(f);
    JoinPending(x.pend, t, f, j, cond);
    TestPatches(c, k, i, l, pend);
    if Old(x, r0) != Stuck {
      GoesOn(x, c, k, t, f, exp, r0, c', |c'|, pend + {j});
      assert DeliversAt(x, c, k, t, f, exp, r0, end);
      if Old(x, r0).Fall? {
        hide Delivers, Delivered, OwnJumps;
        var v, r := Eval(x.s, exp, Old(x, r0).r), Old(x, r0).r;
        TestOut(x, c, k, t, f, i, cond, c', v, r, Exec(x.s, c, x.start, end, r0, pend), pend + {j});
      }
    }
  }

  lemma TestCode(c: seq<Instr>, lasttarget: nat, pend: set<nat>, k: Kind, i: Instr)
    requires CodeOk(c, lasttarget, pend) && Stop(c, k) <= |c| && !k.KJmp? && IsTest(i) && lasttarget <= Stop(c, k) + 2
    requires Stop(c, k) < |c| ==> Stop(c, k) + 1 == |c| && IsPlain(c[Stop(c, k)]) && !c[Stop(c, k)].LoadTrue?
    ensures CodeOk(WithTest(c, k, i), lasttarget, pend + {Stop(c, k) + 1})
  {
    var end, c' := Stop(c, k), WithTest(c, k, i);
    assert forall p :: 0 <= p < end ==> c'[p] == c[p];
    forall p | 0 <= p < |c'| ensures IsTest(c'[p]) ==> p + 1 < |c'| && c'[p + 1].Jmp? {
      if p < end && IsTest(c[p]) { assert c[p + 1].Jmp?; }
    }
    forall p | 0 <= p < |c'| && c'[p].LFalseSkip? ensures p + 1 < |c'| && c'[p + 1].LoadTrue? {
      assert c[p].LFalseSkip? && c[p + 1].LoadTrue?;
    }
  }

  lemma TestShape0(x: Ctx, c: seq<Instr>, lasttarget: nat, e: ExpDesc, t: seq<nat>, f: seq<nat>, i: Instr)
    requires Shape(x, c, lasttarget, e, t, f) && !e.k.KJmp? && IsTest(i)
    ensures Shape(x, WithTest(c, e.k, i), lasttarget, ExpDesc(KJmp(Stop(c, e.k) + 1), e.t, e.f), t, f)
  {
    hide ListIs, CodeOk, OwnJumps, Frame, WithTest, Pending;
    CodeOkLength(c, lasttarget, x.pend + Pending(e.k, t, f));
    var c', end := WithTest(c, e.k, i), Stop(c, e.k);
    WithTestAt(c, e.k, i);
    AppendFrame(x.c0, c, c', end);
    OwnSame(c, |x.c0|, end, t, c', end);
    OwnSame(c, |x.c0|, end, f, c', end);
    OwnBefore(c, |x.c0|, end, t);
    OwnBefore(c, |x.c0|, end, f);
    SameList(c, c', e.t, t);
    SameList(c, c', e.f, f);
    TestPending(x.pend, e.k, t, f, end + 1);
    TestCode(c, lasttarget, x.pend + Pending(e.k, t, f), e.k, i);
  }

  lemma WithTestAt(c: seq<Instr>, k: Kind, i: Instr)
    requires Stop(c, k) <= |c|
    ensures var c', end := WithTest(c, k, i), Stop(c, k);
            && |c'| == end + 2 && c'[end] == i && c'[end + 1] == Jmp(NO_JUMP)
            && forall p :: 0 <= p < end ==> c'[p] == c[p]
  {
  }

  lemma OwnBefore(c: seq<Instr>, from: nat, end: nat, l: seq<nat>)
    requires OwnJumps(c, from, end, l)
    ensures forall j :: j in l ==> j < end <= |c|
  {
  }

  lemma TestPending(pend: set<nat>, k: Kind, t: seq<nat>, f: seq<nat>, j: nat)
    requires !k.KJmp?
    ensures pend + Pending(KJmp(j), t, f) == pend + Pending(k, t, f) + {j}
  {
  }

  /** Only the kind of the descriptor changes, and the code is complete in both. */
  lemma ShapeKind(x: Ctx, c: seq<Instr>, lasttarget: nat, e: ExpDesc, t: seq<nat>, f: seq<nat>, k: Kind)
    requires Shape(x, c, lasttarget, e, t, f) && !e.k.KJmp? && !e.k.KReloc? && !k.KJmp? && !k.KReloc? && ConstOk(k)
    ensures Shape(x, c, lasttarget, e.(k := k), t, f)
  {
    hide ListIs, CodeOk, OwnJumps, Frame;
    assert Pending(k, t, f) == Pending(e.k, t, f);
  }

  lemma TestShape(x: Ctx, c: seq<Instr>, lasttarget: nat, e: ExpDesc, t: seq<nat>, f: seq<nat>, i: Instr, cond: bool)
    requires Shape(x, c, lasttarget, e, t, f) && !e.k.KJmp? && IsTest(i)
    ensures var j := Stop(c, e.k) + 1;
            Shape(x, Linked(WithTest(c, e.k, i), if cond then t else f, [j]), lasttarget,
                  JoinDesc(e, t, f, j, cond).(k := KThrough(!cond)), JoinT(t, j, cond), JoinF(f, j, cond))
  {
    hide Shape;
    var j, i0 := Stop(c, e.k) + 1, if cond then i else Negated(i);
    var c1, e1 := WithTest(c, e.k, i0), ExpDesc(KJmp(j), e.t, e.f);
    TestShape0(x, c, lasttarget, e, t, f, i0);
    JoinShape(x, c1, lasttarget, e1, t, f, cond);
    StopIn(x, c, lasttarget, e, t, f);
    assert Negated(Negated(i)) == i;
    assert cond || c1[j - 1 := Negated(c1[j - 1])] == WithTest(c, e.k, i);
    ShapeKind(x, Linked(WithTest(c, e.k, i), if cond then t else f, [j]), lasttarget, JoinDesc(e1, t, f, j, cond),
              JoinT(t, j, cond), JoinF(f, j, cond), KThrough(!cond));
  }

  lemma StopIn(x: Ctx, c: seq<Instr>, lasttarget: nat, e: ExpDesc, t: seq<nat>, f: seq<nat>)
    requires Shape(x, c, lasttarget, e, t, f)
    ensures Stop(c, e.k) <= |c|
    ensures OwnJumps(c, |x.c0|, Stop(c, e.k), t) && OwnJumps(c, |x.c0|, Stop(c, e.k), f)
  {
  }

  /** A test on the value, with its jump in one of the lists: true values in 't', false ones in 'f'. */
  lemma TestGood(x: Ctx, c: seq<Instr>, lasttarget: nat, e: ExpDesc, t: seq<nat>, f: seq<nat>, exp: Exp, i: Instr,
          cond: bool)
    requires Good(x, c, lasttarget, e, t, f, exp) && !e.k.KJmp? && TestsValue(x.s, c, e.k, i, cond)
    ensures var j := Stop(c, e.k) + 1;
            Good(x, Linked(WithTest(c, e.k, i), if cond then t else f, [j]), lasttarget,
                 JoinDesc(e, t, f, j, cond).(k := KThrough(!cond)), JoinT(t, j, cond), JoinF(f, j, cond), exp)
  {
    hide Shape, OwnJumps, Linked, WithTest, DeliversAt, JoinDesc, JoinT, JoinF;
    var j := Stop(c, e.k) + 1;
    var c' := Linked(WithTest(c, e.k, i), if cond then t else f, [j]);
    TestShape(x, c, lasttarget, e, t, f, i, cond);
    StopIn(x, c, lasttarget, e, t, f);
    var k', t', f' := KThrough(!cond), JoinT(t, j, cond), JoinF(f, j, cond);
    forall r0: Regs ensures DeliversAt(x, c', k', t', f', exp, r0, |c'|) {
      TestDelivers(x, c, e.k, t, f, exp, i, cond, r0);
    }
  }

  /** A constant, or a value known to be true or false, goes through with that truth. */
  lemma ThroughGood(x: Ctx, c: seq<Instr>, lasttarget: nat, e: ExpDesc, t: seq<nat>, f: seq<nat>, exp: Exp, b: bool)
    requires Good(x, c, lasttarget, e, t, f, exp) && IsConst(e.k) && Truthy(ConstVal(e.k)) == b
    ensures Good(x, c, lasttarget, e.(k := KThrough(b)), t, f, exp)
  {
    ShapeKind(x, c, lasttarget, e, t, f, KThrough(b));
    hide Shape;
    forall r0: Regs ensures DeliversAt(x, c, KThrough(b), t, f, exp, r0, |c|) {
      assert DeliversAt(x, c, e.k, t, f, exp, r0, |c|);
    }
  }

  // ---- Going through -------------------------------------------------------------------------------

  /** The jumps of 'l' come to the end of the code, with no value. */
  lemma HerePatches(c: seq<Instr>, l: seq<nat>, c': seq<Instr>, pend: set<nat>, pend': set<nat>)
    requires PatchedAll(c, l, |c|, NO_REG, |c|, c') && pend == pend' + Set(l)
    requires (forall j :: j in l ==> 0 < j < |c| && c[j].Jmp? && IsTest(c[j - 1])) && forall j :: j in pend' ==> j !in l
    ensures Patches(c, |c|, pend, c', |c'|, pend')
    ensures forall j :: j in l ==> c'[j].Jmp? && Target(c', j) == |c| && !c'[j - 1].TestSet?
    ensures forall i :: 0 <= i < |c| && i !in l && (i + 1 < |c| ==> i + 1 !in l) ==> c'[i] == c[i]
    ensures forall i :: 0 <= i < |c| && i in l ==> c'[i].Jmp?
    ensures forall i :: 0 <= i < |c| && i !in l ==> SameTest(c[i], c'[i])
  {
    forall i | 0 <= i < |c|
      ensures PatchAt(c[i], c'[i], i in pend, i + 1 in pend)
      ensures (i !in l && (i + 1 < |c| ==> i + 1 !in l) ==> c'[i] == c[i])
      ensures i in l ==> c'[i].Jmp? && Target(c', i) == |c|
      ensures i + 1 < |c| && i + 1 in l ==> !c'[i].TestSet?
      ensures i !in l ==> SameTest(c[i], c'[i])
    {
      assert c'[i] == PatchedAt(c, l, |c|, NO_REG, |c|, i);
    }
  }

  lemma HereOut(x: Ctx, c: seq<Instr>, b: bool, t: seq<nat>, f: seq<nat>, c': seq<Instr>, v: Value, r: Regs, o: Out,
          pend': set<nat>)
    requires Delivers(x, c, KThrough(b), t, f, v, r, o) && |c'| == |c| && AllOwn(c, t, f)
    requires (forall j :: j in t ==> j !in f)
    requires var l, m := if b then t else f, if b then f else t;
             && (forall j :: j in l ==> c'[j].Jmp? && Target(c', j) == |c| && !c'[j - 1].TestSet? && j !in pend')
             && (forall j :: j in m ==> c'[j - 1] == c[j - 1] && j in pend')
    ensures Delivers(x, c', KThrough(b), if b then [] else t, if b then f else [], v, r,
                     Goes(x.s, o, |c|, c', |c'|, pend'))
  {
    if o.Cond? {
      assert Write(c'[o.j - 1], o.r) == o.r || !(o.j in if b then t else f);
    }
  }

  lemma HereDelivers(x: Ctx, c: seq<Instr>, b: bool, t: seq<nat>, f: seq<nat>, exp: Exp, c': seq<Instr>, r0: Regs)
    requires Delivered(x, c, KThrough(b), t, f, exp) && AllOwn(c, t, f) && (forall j :: j in t ==> j !in f)
    requires forall j :: j in x.pend ==> j !in t && j !in f && j < |c|
    requires PatchedAll(c, if b then t else f, |c|, NO_REG, |c|, c')
    ensures DeliversAt(x, c', KThrough(b), if b then [] else t, if b then f else [], exp, r0, |c'|)
  {
    var l, m := if b then t else f, if b then f else t;
    var pend, pend' := x.pend + Set(t) + Set(f), x.pend + Set(m);
    assert pend == pend' + Set(l);
    assert pend' == x.pend + Set(if b then [] else t) + Set(if b then f else []);
    HerePatches(c, l, c', pend, pend');
    if Old(x, r0) != Stuck {
      GoesOn(x, c, KThrough(b), t, f, exp, r0, c', |c'|, pend');
      assert DeliversAt(x, c, KThrough(b), t, f, exp, r0, |c|);
      if Old(x, r0).Fall? {
        HereTests(c, l, m, c');
        HereOut(x, c, b, t, f, c', Eval(x.s, exp, Old(x, r0).r), Old(x, r0).r, Exec(x.s, c, x.start, |c|, r0, pend),
                pend');
      }
    }
  }

  lemma HereTests(c: seq<Instr>, l: seq<nat>, m: seq<nat>, c': seq<Instr>)
    requires |c'| == |c| && forall i :: 0 <= i < |c| && i !in l && (i + 1 < |c| ==> i + 1 !in l) ==> c'[i] == c[i]
    requires forall j :: j in l || j in m ==> 0 < j < |c| && c[j].Jmp? && IsTest(c[j - 1])
    requires forall j :: j in m ==> j !in l
    ensures forall j :: j in m ==> c'[j - 1] == c[j - 1] && c'[j] == c[j]
  {
    forall j | j in m ensures c'[j - 1] == c[j - 1] && c'[j] == c[j] {
      assert !(j - 1 in l) && !IsTest(c[j]);
      var n := j + 1;
      assert n - 1 == j && n !in l;
    }
  }

  /** The descriptor after the jumps that go through were patched. */
  function HereDesc(e: ExpDesc, b: bool): ExpDesc
  {
    if b then e.(t := NO_JUMP) else e.(f := NO_JUMP)
  }

  lemma HereCode(c: seq<Instr>, lasttarget: nat, pend: set<nat>, pend': set<nat>, l: seq<nat>, c': seq<Instr>)
    requires CodeOk(c, lasttarget, pend) && PatchedAll(c, l, |c|, NO_REG, |c|, c') && pend == pend' + Set(l)
    requires forall j :: j in l ==> 0 < j < |c| && c[j].Jmp? && IsTest(c[j - 1])
    ensures CodeOk(c', |c'|, pend')
  {
    forall i | 0 <= i < |c|
      ensures (IsTest(c'[i]) ==> IsTest(c[i])) && c'[i].Jmp? == c[i].Jmp?
      ensures (c'[i].LFalseSkip? ==> c[i].LFalseSkip?) && (c[i].LoadTrue? ==> c'[i].LoadTrue?)
      ensures c'[i].Jmp? && i !in pend' ==> (i !in pend && c'[i] == c[i]) || Target(c', i) <= |c|
    {
      assert c'[i] == PatchedAt(c, l, |c|, NO_REG, |c|, i);
    }
    CodeOkLike(c, lasttarget, pend, c', |c|, pend');
  }

  lemma HereFrame(c0: seq<Instr>, c: seq<Instr>, l: seq<nat>, c': seq<Instr>)
    requires Frame(c0, c) && PatchedAll(c, l, |c|, NO_REG, |c|, c') && forall j :: j in l ==> |c0| < j
    ensures Frame(c0, c')
  {
    forall i | 0 <= i < |c0| ensures c'[i] == c[i] {
      assert c'[i] == PatchedAt(c, l, |c|, NO_REG, |c|, i);
    }
  }

  lemma HereOwn(c: seq<Instr>, from: nat, l: seq<nat>, m: seq<nat>, c': seq<Instr>)
    requires PatchedAll(c, l, |c|, NO_REG, |c|, c') && OwnJumps(c, from, |c|, l) && OwnJumps(c, from, |c|, m)
    requires forall j :: j in m ==> j !in l
    ensures OwnJumps(c', from, |c'|, m) && forall j :: j in m ==> j < |c| && c'[j] == c[j]
  {
    forall j | j in m ensures c'[j - 1] == c[j - 1] && c'[j] == c[j] {
      assert c'[j - 1] == PatchedAt(c, l, |c|, NO_REG, |c|, j - 1) && c'[j] == PatchedAt(c, l, |c|, NO_REG, |c|, j);
      var n := j + 1;
      assert !(j - 1 in l) && !IsTest(c[j]);
      assert n - 1 == j && n !in l;
    }
  }

  lemma HereShape(x: Ctx, c: seq<Instr>, lasttarget: nat, e: ExpDesc, t: seq<nat>, f: seq<nat>, b: bool, c': seq<Instr>)
    requires Shape(x, c, lasttarget, e, t, f) && e.k == KThrough(b)
    requires PatchedAll(c, if b then t else f, |c|, NO_REG, |c|, c')
    ensures Shape(x, c', |c'|, HereDesc(e, b), if b then [] else t, if b then f else [])
  {
    hide ListIs, CodeOk, Frame, PatchedAll, OwnJumps;
    var l, m := if b then t else f, if b then f else t;
    ShapeOwn(x, c, lasttarget, e, t, f);
    AllOwnL(c, t, f);
    PatchedLength(c, l, |c|, NO_REG, |c|, c');
    HereFrame(x.c0, c, l, c');
    HereOwn(c, |x.c0|, l, m, c');
    SameList(c, c', if b then e.f else e.t, m);
    EmptyLists(c', |x.c0|);
    var pend := x.pend + Pending(e.k, t, f);
    var pend' := x.pend + Pending(KThrough(b), if b then [] else t, if b then f else []);
    assert pend == pend' + Set(l);
    HereCode(c, lasttarget, pend, pend', l, c');
  }

  lemma AllOwnL(c: seq<Instr>, t: seq<nat>, f: seq<nat>)
    requires AllOwn(c, t, f)
    ensures forall j :: j in t || j in f ==> 0 < j < |c| && c[j].Jmp? && IsTest(c[j - 1])
  {
  }

  lemma PatchedLength(c: seq<Instr>, l: seq<nat>, vtarget: int, reg: int, dtarget: int, c': seq<Instr>)
    requires PatchedAll(c, l, vtarget, reg, dtarget, c')
    ensures |c'| == |c|
  {
  }

  /** luaK_patchtohere on the list of the values that go through. */
  lemma HereGood(x: Ctx, c: seq<Instr>, lasttarget: nat, e: ExpDesc, t: seq<nat>, f: seq<nat>, exp: Exp, b: bool,
          c': seq<Instr>)
    requires Good(x, c, lasttarget, e, t, f, exp) && e.k == KThrough(b)
    requires PatchedAll(c, if b then t else f, |c|, NO_REG, |c|, c')
    ensures Good(x, c', |c'|, HereDesc(e, b), if b then [] else t, if b then f else [], exp)
  {
    hide Shape, PatchedAll, AllOwn;
    HereShape(x, c, lasttarget, e, t, f, b, c');
    ShapeOwn(x, c, lasttarget, e, t, f);
    var t', f' := if b then [] else t, if b then f else [];
    forall r0: Regs ensures DeliversAt(x, c', KThrough(b), t', f', exp, r0, |c'|) {
      HereDelivers(x, c, b, t, f, exp, c', r0);
    }
  }

  // ---- jumponcond, luaK_goiftrue and luaK_goiffalse ------------------------------------------------

  /** The test of jumponcond when the last instruction is a NOT: it is removed and the condition inverted. */
  lemma NotTest(x: Ctx, c: seq<Instr>, lasttarget: nat, e: ExpDesc, t: seq<nat>, f: seq<nat>, cond: bool)
    requires Shape(x, c, lasttarget, e, t, f) && e.k.KReloc? && e.k.pc < |c| && c[e.k.pc].NotOp?
    ensures TestsValue(x.s, c, e.k, Test(c[e.k.pc].b, !cond), cond) && e.k.pc == |c| - 1
  {
  }

  lemma ValueTest(x: Ctx, c: seq<Instr>, reg: nat, cond: bool)
    ensures TestsValue(x.s, c, KNonReloc(reg), TestSet(NO_REG, reg, cond), cond)
  {
  }

  /** jumponcond: a test for the value, whose jump is taken when the value is 'cond'. */
  method JumpOnCond(fs: FuncState, e: ExpDesc, cond: bool, ghost x: Ctx, ghost t: seq<nat>, ghost f: seq<nat>,
          ghost exp: Exp)
    returns (pc: nat, ghost c: seq<Instr>, ghost k: Kind, ghost i: Instr)
    requires Good(x, fs.code, fs.lasttarget, e, t, f, exp) && RegsOk(fs, x.base, e.k)
    requires !e.k.KJmp? && !e.k.KLocal? && !e.k.KUpVal? && !e.k.KThrough?
    modifies fs`code, fs`freereg
    ensures fs.freereg == x.base && Good(x, c, fs.lasttarget, e.(k := k), t, f, exp) && !k.KJmp?
    ensures TestsValue(x.s, c, k, i, cond) && fs.code == WithTest(c, k, i) && pc == Stop(c, k) + 1
  {
    hide Good, Shape, TestsValue;
    c, k := fs.code, e.k;
    if e.k.KReloc? {
      GoodShape(x, fs.code, fs.lasttarget, e, t, f, exp);
      RelocAt(x, fs.code, fs.lasttarget, e, t, f);
      var ie := fs.code[e.k.pc];
      if ie.NotOp? {
        NotTest(x, c, fs.lasttarget, e, t, f, cond);
        i := Test(ie.b, !cond);
        fs.code := fs.code[..|fs.code| - 1];
        fs.code := fs.code + [Test(ie.b, !cond), Jmp(NO_JUMP)];
        pc := |fs.code| - 1;
        return;
      }
    }
    var e1 := Discharge2AnyReg(fs, e, x, t, f, exp);
    FreeExp(fs, e1, x.base);
    c, k := fs.code, e1.k;
    assert e.(k := k) == e1;
    ValueTest(x, c, e1.k.reg, cond);
    i := TestSet(NO_REG, e1.k.reg, cond);
    fs.code := fs.code + [TestSet(NO_REG, e1.k.reg, cond), Jmp(NO_JUMP)];
    pc := |fs.code| - 1;
    assert c[..|c|] == c;
  }

  lemma GoodShape(x: Ctx, c: seq<Instr>, lasttarget: nat, e: ExpDesc, t: seq<nat>, f: seq<nat>, exp: Exp)
    requires Good(x, c, lasttarget, e, t, f, exp)
    ensures Shape(x, c, lasttarget, e, t, f)
  {
  }

  /** negatecondition */
  method NegateCondition(fs: FuncState, j: nat)
    requires 0 < j < |fs.code| && IsComparison(fs.code[j - 1])
    modifies fs`code
    ensures fs.code == old(fs.code)[j - 1 := Negated(old(fs.code[j - 1]))]
  {
    var pc := Control(fs.code, j);
    match fs.code[pc] {
      case CmpRR(op, a, b, k) => fs.code := fs.code[pc := CmpRR(op, a, b, !k)];
      case CmpRI(op, a, im, k) => fs.code := fs.code[pc := CmpRI(op, a, im, !k)];
      case CmpRK(a, kv, k) => fs.code := fs.code[pc := CmpRK(a, kv, !k)];
    }
  }

  lemma NegatedLists(x: Ctx, c: seq<Instr>, lasttarget: nat, e: ExpDesc, t: seq<nat>, f: seq<nat>, exp: Exp)
    requires Good(x, c, lasttarget, e, t, f, exp) && e.k.KJmp?
    ensures 0 < e.k.jpc < |c| && IsComparison(c[e.k.jpc - 1]) && e.k.jpc !in f && e.k.jpc !in t
    ensures var c1 := c[e.k.jpc - 1 := Negated(c[e.k.jpc - 1])];
            ListIs(c1, e.t, t) && ListIs(c1, e.f, f) && ListIs(c1, e.k.jpc, [e.k.jpc])
  {
    var c1 := c[e.k.jpc - 1 := Negated(c[e.k.jpc - 1])];
    OneJump(c1, e.k.jpc);
    SameList(c, c1, e.t, t);
    SameList(c, c1, e.f, f);
  }

  lemma NoElements(l: seq<nat>, j: nat)
    requires l == [j]
    ensures forall i :: i in l ==> i == j
  {
  }

  /** The lists of the code with the test, before its jump is linked. */
  lemma TestLists(x: Ctx, c: seq<Instr>, lasttarget: nat, e: ExpDesc, t: seq<nat>, f: seq<nat>, exp: Exp, i: Instr,
          cond: bool)
    requires Good(x, c, lasttarget, e, t, f, exp) && !e.k.KJmp? && TestsValue(x.s, c, e.k, i, cond)
    ensures var c1, j := WithTest(c, e.k, i), Stop(c, e.k) + 1;
            && ListIs(c1, e.t, t) && ListIs(c1, e.f, f) && ListIs(c1, j, [j])
            && (forall n :: n in t ==> n !in [j]) && (forall n :: n in f ==> n !in [j])
  {
    hide *;
    GoodShape(x, c, lasttarget, e, t, f, exp);
    TestsIsTest(x.s, c, e.k, i, cond);
    TestShape0(x, c, lasttarget, e, t, f, i);
    WithTestJump(c, e.k, i);
    OneJump(WithTest(c, e.k, i), Stop(c, e.k) + 1);
    ShapeLists(x, WithTest(c, e.k, i), lasttarget, ExpDesc(KJmp(Stop(c, e.k) + 1), e.t, e.f), t, f);
  }

  lemma WithTestJump(c: seq<Instr>, k: Kind, i: Instr)
    ensures var c1 := WithTest(c, k, i);
            |c1| >= 2 && c1[|c1| - 1] == Jmp(NO_JUMP) && (Stop(c, k) <= |c| ==> |c1| == Stop(c, k) + 2)
  {
  }

  lemma ShapeLists(x: Ctx, c: seq<Instr>, lasttarget: nat, e: ExpDesc, t: seq<nat>, f: seq<nat>)
    requires Shape(x, c, lasttarget, e, t, f)
    ensures ListIs(c, e.t, t) && ListIs(c, e.f, f)
    ensures e.k.KJmp? ==> e.k.jpc !in t && e.k.jpc !in f
  {
  }

  lemma TestsIsTest(s: Sem, c: seq<Instr>, k: Kind, i: Instr, cond: bool)
    requires TestsValue(s, c, k, i, cond)
    ensures IsTest(i)
  {
  }

  /** The lists of a descriptor, and where they begin. */
  lemma Heads(x: Ctx, c: seq<Instr>, lasttarget: nat, e: ExpDesc, t: seq<nat>, f: seq<nat>, exp: Exp)
    requires Good(x, c, lasttarget, e, t, f, exp)
    ensures ListIs(c, e.t, t) && ListIs(c, e.f, f)
    ensures e.t == ElementAt(t, 0) && e.f == ElementAt(f, 0)
  {
  }

  /** The descriptor that concat makes is the one expected. */
  lemma ConcatDesc(c: seq<Instr>, h: int, l: seq<nat>, j: nat)
    requires ListIs(c, h, l + [j])
    ensures h == if l == [] then j else l[0]
  {
    ListHead(c, h, l + [j]);
  }

  /** The descriptor after the jump of the test was linked: its list now begins at 'h'. */
  lemma TestLinked(x: Ctx, c: seq<Instr>, lasttarget: nat, e: ExpDesc, k: Kind, t: seq<nat>, f: seq<nat>, exp: Exp,
          i: Instr, cond: bool, h: int)
    requires Good(x, c, lasttarget, e.(k := k), t, f, exp) && !k.KJmp? && TestsValue(x.s, c, k, i, cond)
    requires var l, j := if cond then t else f, Stop(c, k) + 1;
             ListIs(Linked(WithTest(c, k, i), l, [j]), h, l + [j])
    ensures var j := Stop(c, k) + 1;
            Good(x, Linked(WithTest(c, k, i), if cond then t else f, [j]), lasttarget,
                 if cond then ExpDesc(KThrough(!cond), h, e.f) else ExpDesc(KThrough(!cond), e.t, h),
                 JoinT(t, j, cond), JoinF(f, j, cond), exp)
  {
    hide *;
    var l, j := if cond then t else f, Stop(c, k) + 1;
    Heads(x, c, lasttarget, e.(k := k), t, f, exp);
    TestGood(x, c, lasttarget, e.(k := k), t, f, exp, i, cond);
    ConcatDesc(Linked(WithTest(c, k, i), l, [j]), h, l, j);
    JoinDescIs(e, k, t, f, j, cond, h);
  }

  lemma JoinDescIs(e: ExpDesc, k: Kind, t: seq<nat>, f: seq<nat>, j: nat, cond: bool, h: int)
    requires e.t == ElementAt(t, 0) && e.f == ElementAt(f, 0)
    requires var l := if cond then t else f; h == if l == [] then j else l[0]
    ensures JoinDesc(e.(k := k), t, f, j, cond).(k := KThrough(!cond))
         == if cond then ExpDesc(KThrough(!cond), h, e.f) else ExpDesc(KThrough(!cond), e.t, h)
  {
  }

  /** Emits the test and links its jump: the common part of luaK_goiftrue and luaK_goiffalse. */
  method TestAndLink(fs: FuncState, e: ExpDesc, cond: bool, ghost x: Ctx, ghost t: seq<nat>, ghost f: seq<nat>,
          ghost exp: Exp)
    returns (e': ExpDesc, ghost t': seq<nat>, ghost f': seq<nat>)
    requires Good(x, fs.code, fs.lasttarget, e, t, f, exp) && RegsOk(fs, x.base, e.k)
    requires !e.k.KJmp? && !e.k.KLocal? && !e.k.KUpVal? && !e.k.KThrough?
    modifies fs`code, fs`freereg
    ensures fs.freereg == x.base && Good(x, fs.code, fs.lasttarget, e', t', f', exp) && e'.k == KThrough(!cond)
  {
    hide *;
    ghost var c, k, i;
    var pc;
    pc, c, k, i := JumpOnCond(fs, e, cond, x, t, f, exp);
    t', f' := JoinT(t, pc, cond), JoinF(f, pc, cond);
    TestLists(x, c, fs.lasttarget, e.(k := k), t, f, exp, i, cond);
    var h := Concat(fs, if cond then e.t else e.f, pc, if cond then t else f, [pc]);
    TestLinked(x, c, fs.lasttarget, e, k, t, f, exp, i, cond, h);
    e' := if cond then ExpDesc(KThrough(!cond), h, e.f) else ExpDesc(KThrough(!cond), e.t, h);
  }

  /** The same for a comparison, which already has its jump. */
  method LinkComparison(fs: FuncState, e: ExpDesc, cond: bool, ghost x: Ctx, ghost t: seq<nat>, ghost f: seq<nat>,
          ghost exp: Exp)
    returns (e': ExpDesc, ghost t': seq<nat>, ghost f': seq<nat>)
    requires Good(x, fs.code, fs.lasttarget, e, t, f, exp) && e.k.KJmp?
    modifies fs`code
    ensures Good(x, fs.code, fs.lasttarget, e', t', f', exp) && e'.k == KThrough(!cond)
  {
    hide Good, ListIs;
    ghost var c := fs.code;
    var pc := e.k.jpc;
    t', f' := JoinT(t, pc, cond), JoinF(f, pc, cond);
    Heads(x, c, fs.lasttarget, e, t, f, exp);
    JoinGood(x, c, fs.lasttarget, e, t, f, exp, cond);
    ThroughGood(x, Joined(c, pc, if cond then t else f, cond), fs.lasttarget, JoinDesc(e, t, f, pc, cond), t', f', exp,
                !cond);
    NegatedLists(x, c, fs.lasttarget, e, t, f, exp);
    JoinFacts(x, c, fs.lasttarget, e, t, f, exp);
    if !cond {
      NegateCondition(fs, pc);
    }
    var h := Concat(fs, if cond then e.t else e.f, pc, if cond then t else f, [pc]);
    ConcatDesc(fs.code, h, if cond then t else f, pc);
    e' := if cond then ExpDesc(KThrough(!cond), h, e.f) else ExpDesc(KThrough(!cond), e.t, h);
  }

  /** luaK_goiftrue: the code goes through when the value is true, and jumps in the false list otherwise. */
  method GoIfTrue(fs: FuncState, e: ExpDesc, ghost x: Ctx, ghost t: seq<nat>, ghost f: seq<nat>, ghost exp: Exp)
    returns (e': ExpDesc, ghost f': seq<nat>)
    requires Good(x, fs.code, fs.lasttarget, e, t, f, exp) && RegsOk(fs, x.base, e.k) && !e.k.KThrough? && !e.k.KConst?
    modifies fs`code, fs`lasttarget, fs`freereg
    ensures Good(x, fs.code, fs.lasttarget, e', [], f', exp) && e'.k == KThrough(true)
    ensures fs.freereg == x.base && fs.lasttarget == |fs.code|
  {
    hide Good, PatchedAll, ListIs;
    var e1 := DischargeVars(fs, e, x, t, f, exp);
    ghost var t1;
    if e1.k.KJmp? {
      e1, t1, f' := LinkComparison(fs, e1, false, x, t, f, exp);
    } else if e1.k.KInt? || e1.k.KStr? || e1.k.KTrue? {
      ThroughGood(x, fs.code, fs.lasttarget, e1, t, f, exp, true);
      e1, t1, f' := e1.(k := KThrough(true)), t, f;
    } else {
      e1, t1, f' := TestAndLink(fs, e1, false, x, t, f, exp);
    }
    ghost var c, lt := fs.code, fs.lasttarget;
    Heads(x, c, lt, e1, t1, f', exp);
    PatchToHere(fs, e1.t, t1);
    PatchedLength(c, t1, |fs.code|, NO_REG, |fs.code|, fs.code);
    HereGood(x, c, lt, e1, t1, f', exp, true, fs.code);
    e' := e1.(t := NO_JUMP);
  }

  /** luaK_goiffalse: the code goes through when the value is false, and jumps in the true list otherwise. */
  method GoIfFalse(fs: FuncState, e: ExpDesc, ghost x: Ctx, ghost t: seq<nat>, ghost f: seq<nat>, ghost exp: Exp)
    returns (e': ExpDesc, ghost t': seq<nat>)
    requires Good(x, fs.code, fs.lasttarget, e, t, f, exp) && RegsOk(fs, x.base, e.k) && !e.k.KThrough? && !e.k.KConst?
    modifies fs`code, fs`lasttarget, fs`freereg
    ensures Good(x, fs.code, fs.lasttarget, e', t', [], exp) && e'.k == KThrough(false)
    ensures fs.freereg == x.base && fs.lasttarget == |fs.code|
  {
    hide Good, PatchedAll, ListIs;
    var e1 := DischargeVars(fs, e, x, t, f, exp);
    ghost var f1;
    if e1.k.KJmp? {
      e1, t', f1 := LinkComparison(fs, e1, true, x, t, f, exp);
    } else if e1.k.KNil? || e1.k.KFalse? {
      ThroughGood(x, fs.code, fs.lasttarget, e1, t, f, exp, false);
      e1, t', f1 := e1.(k := KThrough(false)), t, f;
    } else {
      e1, t', f1 := TestAndLink(fs, e1, true, x, t, f, exp);
    }
    ghost var c, lt := fs.code, fs.lasttarget;
    Heads(x, c, lt, e1, t', f1, exp);
    PatchToHere(fs, e1.f, f1);
    PatchedLength(c, f1, |fs.code|, NO_REG, |fs.code|, fs.code);
    HereGood(x, c, lt, e1, t', f1, exp, false, fs.code);
    e' := e1.(f := NO_JUMP);
  }

  // ---- codenot -------------------------------------------------------------------------------------

  function NotAt(c: seq<Instr>, t: seq<nat>, f: seq<nat>, i: nat): Instr
    requires i < |c|
  {
    if i + 1 < |c| && (i + 1 in t || i + 1 in f) && c[i].TestSet? then Test(c[i].b, c[i].k) else c[i]
  }

  /** The code of the operand, with values removed from all its jumps. */
  ghost predicate NotCode(c: seq<Instr>, t: seq<nat>, f: seq<nat>, end: nat, c': seq<Instr>)
  {
    end <= |c| && end <= |c'| && forall i :: 0 <= i < end ==> c'[i] == NotAt(c, t, f, i)
  }

  lemma NotPatches(c: seq<Instr>, t: seq<nat>, f: seq<nat>, end: nat, c': seq<Instr>, pend: set<nat>)
    requires NotCode(c, t, f, end, c') && Set(t) + Set(f) <= pend && (forall j :: j in t || j in f ==> j < end)
    ensures Patches(c, end, pend, c', end, pend)
  {
    forall i | 0 <= i < end ensures PatchAt(c[i], c'[i], i in pend, i + 1 in pend) {
      assert c'[i] == NotAt(c, t, f, i);
      if i + 1 in t || i + 1 in f { assert i + 1 in Set(t) + Set(f); }
    }
  }

  function NotVal(v: Value): Value
  {
    Bool(!Truthy(v))
  }

  lemma NotOut(x: Ctx, c: seq<Instr>, k: Kind, t: seq<nat>, f: seq<nat>, c': seq<Instr>, k': Kind, v: Value, r: Regs,
          o: Out, end: nat)
    requires Delivers(x, c, k, t, f, v, r, o) && NotCode(c, t, f, end, c') && OwnJumps(c, |x.c0|, end, t)
    requires OwnJumps(c, |x.c0|, end, f)
    requires forall r: Regs, v: Value :: HasValue(x.s, c, k, r, v) ==> HasValue(x.s, c', k', r, NotVal(v))
    ensures Delivers(x, c', k', f, t, NotVal(v), r, o)
  {
    if o.Cond? {
      assert c'[o.j - 1] == NotAt(c, t, f, o.j - 1);
    }
  }

  lemma PatchesEnd(c: seq<Instr>, end: nat, pend: set<nat>, c': seq<Instr>, end': nat, pend': set<nat>)
    requires Patches(c, end, pend, c', end', pend')
    ensures end' <= |c'|
  {
  }

  lemma NotDelivers(x: Ctx, c: seq<Instr>, k: Kind, t: seq<nat>, f: seq<nat>, exp: Exp, c': seq<Instr>, k': Kind,
          r0: Regs)
    requires Delivered(x, c, k, t, f, exp) && NotCode(c, t, f, Stop(c, k), c') && Stop(c', k') == Stop(c, k)
    requires OwnJumps(c, |x.c0|, Stop(c, k), t) && OwnJumps(c, |x.c0|, Stop(c, k), f)
    requires forall r: Regs, v: Value :: HasValue(x.s, c, k, r, v) ==> HasValue(x.s, c', k', r, NotVal(v))
    ensures DeliversAt(x, c', k', f, t, ENot(exp), r0, Stop(c', k'))
  {
    hide HasValue, NotCode, Patches;
    var end, pend := Stop(c, k), x.pend + Set(t) + Set(f);
    assert x.pend + Set(f) + Set(t) == pend;
    NotPatches(c, t, f, end, c', pend);
    PatchesEnd(c, end, pend, c', end, pend);
    if Old(x, r0) != Stuck {
      GoesOn(x, c, k, t, f, exp, r0, c', end, pend);
      assert DeliversAt(x, c, k, t, f, exp, r0, end);
      hide Patches, Delivered, NotCode, OwnJumps, HasValue;
      if Old(x, r0).Fall? {
        NotOut(x, c, k, t, f, c', k', Eval(x.s, exp, Old(x, r0).r), Old(x, r0).r, Exec(x.s, c, x.start, end, r0, pend),
               end);
      }
    }
  }

  /** Two passes of removevalues. */
  lemma RemovedTwice(c: seq<Instr>, t: seq<nat>, f: seq<nat>, end: nat, c1: seq<Instr>, c2: seq<Instr>, c3: seq<Instr>)
    requires end <= |c| && end <= |c1| && (forall i :: 0 <= i < end ==> c1[i] == c[i]) && ValuesRemoved(c1, t, c2)
    requires ValuesRemoved(c2, f, c3)
    requires forall j :: j in t || j in f ==> j < end
    ensures NotCode(c, t, f, end, c3) && |c3| == |c1| && forall i :: end <= i < |c1| ==> c3[i] == c1[i]
  {
    forall i | 0 <= i < |c1| ensures c3[i] == if i < end then NotAt(c, t, f, i) else c1[i] {
      assert c2[i] == ValueRemovedAt(c1, t, i) && c3[i] == ValueRemovedAt(c2, f, i);
    }
  }

  lemma NotOwn(c: seq<Instr>, from: nat, t: seq<nat>, f: seq<nat>, end: nat, c': seq<Instr>, l: seq<nat>)
    requires NotCode(c, t, f, end, c') && OwnJumps(c, from, end, l)
    ensures OwnJumps(c', from, end, l) && forall j :: j in l ==> c'[j] == c[j]
  {
    forall j | j in l ensures c'[j].Jmp? && c'[j] == c[j] && IsTest(c'[j - 1]) {
      assert c'[j] == NotAt(c, t, f, j) && c'[j - 1] == NotAt(c, t, f, j - 1);
    }
  }

  lemma NotFrame(c0: seq<Instr>, c: seq<Instr>, t: seq<nat>, f: seq<nat>, end: nat, c': seq<Instr>)
    requires Frame(c0, c) && NotCode(c, t, f, end, c') && |c0| <= end && forall j :: j in t || j in f ==> |c0| < j
    ensures Frame(c0, c')
  {
    forall i | 0 <= i < |c0| ensures c'[i] == c[i] {
      assert c'[i] == NotAt(c, t, f, i);
    }
  }

  /**
   The end of the code after 'not': nothing for constants, a NOT still without register, or the negated comparison.
   */
  ghost predicate NotEnd(c: seq<Instr>, k: Kind, c': seq<Instr>, k': Kind)
  {
    match k
    case KNonReloc(b) => k' == KReloc(|c|) && |c'| == |c| + 1 && c'[|c|] == NotOp(0, b)
    case KJmp(j) =>
      && k' == k && |c'| == |c| && 0 < j < |c| && IsComparison(c[j - 1])
      && c'[j - 1] == Negated(c[j - 1]) && c'[j] == c[j]
    case _ => IsConst(k) && |c'| == |c| && k' == if Truthy(ConstVal(k)) then KFalse else KTrue
  }

  lemma NotCodeOk(c: seq<Instr>, lasttarget: nat, pend: set<nat>, k: Kind, t: seq<nat>, f: seq<nat>, c': seq<Instr>,
          k': Kind)
    requires CodeOk(c, lasttarget, pend) && NotCode(c, t, f, Stop(c, k), c') && NotEnd(c, k, c', k')
    requires (k.KJmp? ==> k.jpc == |c| - 1) && Set(t) + Set(f) + (if k.KJmp? then {k.jpc} else {}) <= pend
    ensures CodeOk(c', lasttarget, pend)
  {
    forall i | 0 <= i < Stop(c, k)
      ensures (IsTest(c'[i]) <==> IsTest(c[i])) && (c[i].Jmp? ==> c'[i] == c[i]) && (c'[i].Jmp? ==> c[i].Jmp?)
      ensures c'[i].LFalseSkip? == c[i].LFalseSkip? && c'[i].LoadTrue? == c[i].LoadTrue?
    {
      assert c'[i] == NotAt(c, t, f, i);
    }
  }

  lemma NotShape(x: Ctx, c: seq<Instr>, lasttarget: nat, e: ExpDesc, t: seq<nat>, f: seq<nat>, c': seq<Instr>, k': Kind)
    requires Shape(x, c, lasttarget, e, t, f) && NotCode(c, t, f, Stop(c, e.k), c') && NotEnd(c, e.k, c', k')
    ensures Shape(x, c', lasttarget, ExpDesc(k', e.f, e.t), f, t) && Stop(c', k') == Stop(c, e.k)
  {
    hide ListIs, CodeOk, Frame, OwnJumps, NotCode;
    ShapeOwn(x, c, lasttarget, e, t, f);
    hide AllOwn;
    NotFrame(x.c0, c, t, f, Stop(c, e.k), c');
    NotOwn(c, |x.c0|, t, f, Stop(c, e.k), c', t);
    NotOwn(c, |x.c0|, t, f, Stop(c, e.k), c', f);
    OwnBelow(c, |x.c0|, Stop(c, e.k), t);
    OwnBelow(c, |x.c0|, Stop(c, e.k), f);
    NotLength(c, t, f, Stop(c, e.k), c');
    SameList(c, c', e.t, t);
    SameList(c, c', e.f, f);
    assert Pending(k', f, t) == Pending(e.k, t, f);
    NotCodeOk(c, lasttarget, x.pend + Pending(e.k, t, f), e.k, t, f, c', k');
  }

  lemma OwnBelow(c: seq<Instr>, from: nat, end: nat, l: seq<nat>)
    requires OwnJumps(c, from, end, l)
    ensures forall j :: j in l ==> j < end
  {
  }

  lemma NotLength(c: seq<Instr>, t: seq<nat>, f: seq<nat>, end: nat, c': seq<Instr>)
    requires NotCode(c, t, f, end, c')
    ensures end <= |c'|
  {
  }

  lemma NotValue(s: Sem, c: seq<Instr>, k: Kind, c': seq<Instr>, k': Kind)
    requires NotEnd(c, k, c', k')
    ensures forall r: Regs, v: Value :: HasValue(s, c, k, r, v) ==> HasValue(s, c', k', r, NotVal(v))
  {
    forall r: Regs, v: Value | HasValue(s, c, k, r, v) ensures HasValue(s, c', k', r, NotVal(v)) {
      if k.KJmp? { NegatedTaken(s, c[k.jpc - 1], r); }
    }
  }

  lemma NotGood(x: Ctx, c: seq<Instr>, lasttarget: nat, e: ExpDesc, t: seq<nat>, f: seq<nat>, exp: Exp, c': seq<Instr>,
          k': Kind)
    requires Good(x, c, lasttarget, e, t, f, exp) && NotCode(c, t, f, Stop(c, e.k), c') && NotEnd(c, e.k, c', k')
    ensures Good(x, c', lasttarget, ExpDesc(k', e.f, e.t), f, t, ENot(exp))
  {
    hide Shape, NotCode, OwnJumps;
    NotShape(x, c, lasttarget, e, t, f, c', k');
    NotValue(x.s, c, e.k, c', k');
    StopIn(x, c, lasttarget, e, t, f);
    forall r0: Regs ensures DeliversAt(x, c', k', f, t, ENot(exp), r0, Stop(c', k')) {
      NotDelivers(x, c, e.k, t, f, exp, c', k', r0);
    }
    NotJump(c, e.k, c', k');
  }

  lemma NotJump(c: seq<Instr>, k: Kind, c': seq<Instr>, k': Kind)
    requires NotEnd(c, k, c', k')
    ensures k'.KJmp? ==> IsComparison(c'[k'.jpc - 1])
    ensures Stop(c', k') <= |c'| || !k'.KReloc?
  {
  }

  lemma NotStart(x: Ctx, c: seq<Instr>, lasttarget: nat, e: ExpDesc, t: seq<nat>, f: seq<nat>, exp: Exp)
    requires Good(x, c, lasttarget, e, t, f, exp)
    ensures forall j :: j in t || j in f ==> j < Stop(c, e.k)
    ensures Stop(c, e.k) <= |c| && ListIs(c, e.t, t) && ListIs(c, e.f, f)
    ensures e.k.KJmp? ==> 0 < e.k.jpc == |c| - 1 && IsComparison(c[e.k.jpc - 1]) && c[e.k.jpc].Jmp?
  {
  }

  lemma FoldNotEnd(c: seq<Instr>, k: Kind, c1: seq<Instr>, c': seq<Instr>, k': Kind)
    requires NotEnd(c, k, c1, k') && |c'| == |c1| && Stop(c, k) <= |c|
    requires forall i :: Stop(c, k) <= i < |c1| ==> c'[i] == c1[i]
    ensures NotEnd(c, k, c', k')
  {
  }

  /** codenot: constants are folded, comparisons negated, and the two lists exchanged, without their values. */
  method CodeNot(fs: FuncState, e: ExpDesc, ghost x: Ctx, ghost t: seq<nat>, ghost f: seq<nat>, ghost exp: Exp)
    returns (e': ExpDesc)
    requires Good(x, fs.code, fs.lasttarget, e, t, f, exp) && RegsOk(fs, x.base, e.k)
    requires !e.k.KLocal? && !e.k.KUpVal? && !e.k.KThrough? && !e.k.KConst?
    modifies fs`code, fs`freereg
    ensures Good(x, fs.code, fs.lasttarget, e', f, t, ENot(exp)) && RegsOk(fs, x.base, e'.k)
    ensures !e'.k.KLocal? && !e'.k.KUpVal? && !e'.k.KThrough? && !e'.k.KConst?
  {
    hide Good, NotCode, ListIs, ValuesRemoved;
    ghost var c, k := fs.code, e.k;
    var k' := e.k;
    NotStart(x, fs.code, fs.lasttarget, e, t, f, exp);
    if e.k.KNil? || e.k.KFalse? {
      k' := KTrue;
    } else if e.k.KInt? || e.k.KStr? || e.k.KTrue? {
      k' := KFalse;
    } else if e.k.KJmp? {
      NegateCondition(fs, e.k.jpc);
    } else {
      var e1 := Discharge2AnyReg(fs, e, x, t, f, exp);
      FreeExp(fs, e1, x.base);
      c, k := fs.code, e1.k;
      NotStart(x, fs.code, fs.lasttarget, e1, t, f, exp);
      k' := KReloc(|fs.code|);
      fs.code := fs.code + [NotOp(0, e1.k.reg)];
    }
    ghost var c1 := fs.code;
    NotLists(c, c1, e, k, t, f);
    RemoveValues(fs, e.t, t);
    ghost var c2 := fs.code;
    RemovedList2(c1, t, c2, e.f, f);
    RemoveValues(fs, e.f, f);
    RemovedTwice(c, t, f, Stop(c, k), c1, c2, fs.code);
    FoldNotEnd(c, k, c1, fs.code, k');
    e' := ExpDesc(k', e.f, e.t);
    NotGood(x, c, fs.lasttarget, e.(k := k), t, f, exp, fs.code, k');
  }

  lemma NotLists(c: seq<Instr>, c1: seq<Instr>, e: ExpDesc, k: Kind, t: seq<nat>, f: seq<nat>)
    requires ListIs(c, e.t, t) && ListIs(c, e.f, f) && Stop(c, k) <= |c|
    requires (forall j :: j in t || j in f ==> j < Stop(c, k))
    requires Stop(c, k) <= |c1| && forall i :: 0 <= i < Stop(c, k) ==> c1[i] == c[i]
    ensures ListIs(c1, e.t, t) && ListIs(c1, e.f, f)
  {
    SameList(c, c1, e.t, t);
    SameList(c, c1, e.f, f);
  }

  lemma RemovedList2(c: seq<Instr>, l: seq<nat>, c': seq<Instr>, head: int, m: seq<nat>)
    requires ListIs(c, head, m) && ValuesRemoved(c, l, c')
    ensures ListIs(c', head, m)
  {
    forall j | j in m ensures j < |c'| && c'[j] == c[j] {
      assert c'[j] == ValueRemovedAt(c, l, j);
    }
    SameList(c, c', head, m);
  }
}
