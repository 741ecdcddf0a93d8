/**
 What the compiled code does: the value of any conditional expression gets to a register, or decides
 which way the code goes; and the last pass over the code (lcode.c, "luaK_finish") changes no run.
 */
module CodeResult {
  import opened CodeMachine
  import opened CodeJumps
  import opened CodeExps
  import opened CodeDischarge
  import opened CodeFinal
  import opened CodeConds
  import opened CodeCompile

  /** Code that may go on, in a function whose code runs from 'start', with the pending jumps 'pend'. */
  ghost predicate Open(fs: FuncState, start: nat, pend: set<nat>)
    reads fs
  {
    && CodeOk(fs.code, fs.lasttarget, pend) && start <= fs.lasttarget && fs.nvar <= fs.freereg
    && forall j :: j in pend ==> j < |fs.code| && fs.code[j].Jmp?
  }

  /**
   Every run that got to the end of 'c' with registers 'r' gets to the end of 'c'' with the value of the
   expression in 'reg', and with the other registers below 'base' as in 'r'; other runs are the same.
   */
  ghost predicate PutsValue(s: Sem, c: seq<Instr>, c': seq<Instr>, start: nat, pend: set<nat>, base: nat, reg: nat,
          exp: Exp)
  {
    forall r0: Regs :: PutsValueAt(s, c, c', start, pend, base, reg, exp, r0)
  }

  ghost predicate PutsValueAt(s: Sem, c: seq<Instr>, c': seq<Instr>, start: nat, pend: set<nat>, base: nat, reg: nat,
          exp: Exp, r0: Regs)
  {
    var o, o' := Exec(s, c, start, |c|, r0, pend), Exec(s, c', start, |c'|, r0, pend);
    if o.Fall? then
      && o'.Fall? && HasMeaning(s, exp, o.r, R(o'.r, reg))
      && forall a: nat :: a < base && a != reg ==> R(o'.r, a) == R(o.r, a)
    else if o.Stuck? then true
    else o' == o
  }

  lemma GoodPuts(x: Ctx, c: seq<Instr>, lasttarget: nat, e: ExpDesc, exp: Exp)
    requires Good(x, c, lasttarget, e, [], [], exp) && e.k.KNonReloc? && (x.but == -1 || x.but == e.k.reg)
    ensures PutsValue(x.s, x.c0, c, x.start, x.pend, x.base, e.k.reg, exp)
    ensures CodeOk(c, lasttarget, x.pend) && x.start <= lasttarget && forall j :: j in x.pend ==> j < |c| && c[j].Jmp?
  {
    hide Eval, HasMeaning, Exec, ListIs, OwnJumps;
    assert x.pend + Set([]) + Set([]) == x.pend;
    assert x.pend + Pending(e.k, [], []) == x.pend;
    forall r0: Regs ensures PutsValueAt(x.s, x.c0, c, x.start, x.pend, x.base, e.k.reg, exp, r0) {
      assert DeliversAt(x, c, e.k, [], [], exp, r0, |c|);
      var o := Exec(x.s, x.c0, x.start, |x.c0|, r0, x.pend);
      if o.Fall? { EvalMeans(x.s, exp, o.r, Eval(x.s, exp, o.r)); }
    }
  }

  lemma OpenCompile(fs: FuncState, s: Sem, start: nat, pend: set<nat>)
    requires Open(fs, start, pend) && RawEq(s)
    ensures CanCompile(fs, Ctx(s, fs.code, start, pend, fs.freereg, -1))
  {
  }

  /** The value of an expression goes to the next free register, and nothing else changes. */
  method ExpToNextReg(fs: FuncState, exp: Exp, ghost s: Sem, ghost start: nat, ghost pend: set<nat>) returns (reg: nat)
    requires Open(fs, start, pend) && Scoped(exp, fs.nvar) && RawEq(s)
    modifies fs`code, fs`lasttarget, fs`freereg
    ensures reg == old(fs.freereg) && fs.freereg == old(fs.freereg) + 1 && Open(fs, start, pend)
    ensures PutsValue(s, old(fs.code), fs.code, start, pend, old(fs.freereg), reg, exp)
  {
    hide Good, PutsValue, RawEq, CodeOk;
    ghost var x := Ctx(s, fs.code, start, pend, fs.freereg, -1);
    OpenCompile(fs, s, start, pend);
    var e, t, f := Compile(fs, exp, x);
    e := Exp2NextReg(fs, e, x, t, f, exp);
    GoodPuts(x, fs.code, fs.lasttarget, e, exp);
    reg := e.k.reg;
  }

  /** The value of an expression gets to some register: a local variable may stay where it is. */
  method ExpToAnyReg(fs: FuncState, exp: Exp, ghost s: Sem, ghost start: nat, ghost pend: set<nat>) returns (reg: nat)
    requires Open(fs, start, pend) && Scoped(exp, fs.nvar) && RawEq(s)
    modifies fs`code, fs`lasttarget, fs`freereg
    ensures if reg < fs.nvar then fs.freereg == old(fs.freereg) else reg == old(fs.freereg) && fs.freereg == reg + 1
    ensures Open(fs, start, pend)
    ensures PutsValue(s, old(fs.code), fs.code, start, pend, if reg < fs.nvar then 0 else old(fs.freereg), reg, exp)
    ensures KeepsRegs(s, old(fs.code), fs.code, start, pend, old(fs.freereg))
  {
    hide Good, PutsValue, RawEq, CodeOk, KeepsRegs;
    ghost var x := Ctx(s, fs.code, start, pend, fs.freereg, -1);
    OpenCompile(fs, s, start, pend);
    var e, t, f := Compile(fs, exp, x);
    e := Exp2AnyReg(fs, e, x, t, f, exp);
    GoodPuts(x, fs.code, fs.lasttarget, e, exp);
    PutsLess(s, x.c0, fs.code, start, pend, x.base, e.k.reg, exp);
    GoodKeeps(x, fs.code, fs.lasttarget, e, exp);
    reg := e.k.reg;
  }

  /** Runs leave all registers below 'base' as they were. */
  ghost predicate KeepsRegs(s: Sem, c: seq<Instr>, c': seq<Instr>, start: nat, pend: set<nat>, base: nat)
  {
    forall r0: Regs :: Exec(s, c, start, |c|, r0, pend).Fall? ==> KeepsAt(s, c, c', start, pend, base, r0)
  }

  ghost predicate KeepsAt(s: Sem, c: seq<Instr>, c': seq<Instr>, start: nat, pend: set<nat>, base: nat, r0: Regs)
  {
    var o, o' := Exec(s, c, start, |c|, r0, pend), Exec(s, c', start, |c'|, r0, pend);
    o.Fall? && o'.Fall? && forall a: nat :: a < base ==> R(o'.r, a) == R(o.r, a)
  }

  lemma GoodKeeps(x: Ctx, c: seq<Instr>, lasttarget: nat, e: ExpDesc, exp: Exp)
    requires Good(x, c, lasttarget, e, [], [], exp) && e.k.KNonReloc? && x.but == -1
    ensures KeepsRegs(x.s, x.c0, c, x.start, x.pend, x.base)
  {
    hide Eval, Exec, ListIs, OwnJumps, Shape;
    assert x.pend + Set([]) + Set([]) == x.pend;
    forall r0: Regs | Exec(x.s, x.c0, x.start, |x.c0|, r0, x.pend).Fall? ensures KeepsAt(x.s, x.c0, c, x.start, x.pend,
            x.base, r0) {
      assert DeliversAt(x, c, e.k, [], [], exp, r0, |c|);
    }
  }

  lemma PutsLess(s: Sem, c: seq<Instr>, c': seq<Instr>, start: nat, pend: set<nat>, base: nat, reg: nat, exp: Exp)
    requires PutsValue(s, c, c', start, pend, base, reg, exp)
    ensures PutsValue(s, c, c', start, pend, 0, reg, exp)
  {
    hide Exec, Eval, HasMeaning;
    forall r0: Regs ensures PutsValueAt(s, c, c', start, pend, 0, reg, exp, r0) {
      assert PutsValueAt(s, c, c', start, pend, base, reg, exp, r0);
    }
  }

  /** An expression that changes no register at all may also change one. */
  lemma GoodBut(x: Ctx, c: seq<Instr>, lasttarget: nat, e: ExpDesc, t: seq<nat>, f: seq<nat>, exp: Exp, v: nat)
    requires Good(x, c, lasttarget, e, t, f, exp) && x.but == -1
    ensures Good(x.(but := v), c, lasttarget, e, t, f, exp)
  {
    hide Exec, Eval, ListIs, OwnJumps, CodeOk, HasValue, JumpValue;
    var y := x.(but := v);
    forall r0: Regs ensures DeliversAt(y, c, e.k, t, f, exp, r0, Stop(c, e.k)) {
      assert DeliversAt(x, c, e.k, t, f, exp, r0, Stop(c, e.k));
      assert Old(y, r0) == Old(x, r0);
    }
  }

  /** An assignment to a local variable (luaK_storevar): the expression may still use its old value. */
  method AssignLocal(fs: FuncState, v: nat, exp: Exp, ghost s: Sem, ghost start: nat, ghost pend: set<nat>)
    requires Open(fs, start, pend) && Scoped(exp, fs.nvar) && RawEq(s) && v < fs.nvar
    modifies fs`code, fs`lasttarget, fs`freereg
    ensures fs.freereg == old(fs.freereg) && Open(fs, start, pend)
    ensures PutsValue(s, old(fs.code), fs.code, start, pend, old(fs.freereg), v, exp)
  {
    hide Good, PutsValue, RawEq, CodeOk;
    ghost var x := Ctx(s, fs.code, start, pend, fs.freereg, -1);
    OpenCompile(fs, s, start, pend);
    var e, t, f := Compile(fs, exp, x);
    FreeExp(fs, e, x.base);
    GoodBut(x, fs.code, fs.lasttarget, e, t, f, exp, v);
    e := Exp2Reg(fs, e, v, x.(but := v), t, f, exp);
    GoodPuts(x.(but := v), fs.code, fs.lasttarget, e, exp);
  }

  /** A run gets to the end when the condition is true, and to one of the pending jumps 'f' when it is false. */
  ghost predicate Branches(s: Sem, c: seq<Instr>, c': seq<Instr>, start: nat, pend: set<nat>, base: nat, exp: Exp,
          f: seq<nat>)
  {
    forall r0: Regs :: BranchesAt(s, c, c', start, pend, base, exp, f, r0)
  }

  ghost predicate BranchesAt(s: Sem, c: seq<Instr>, c': seq<Instr>, start: nat, pend: set<nat>, base: nat, exp: Exp,
          f: seq<nat>, r0: Regs)
  {
    var o, o' := Exec(s, c, start, |c|, r0, pend), Exec(s, c', start, |c'|, r0, pend + Set(f));
    if o.Fall? then
      && (if Eval(s, exp, o.r) in {Nil, Bool(false)} then o'.Cond? && o'.j in f else o'.Fall?)
      && forall a: nat :: a < base ==> R(o'.r, a) == R(o.r, a)
    else if o.Stuck? then true
    else o' == o
  }

  lemma GoodBranches(x: Ctx, c: seq<Instr>, lasttarget: nat, e: ExpDesc, f: seq<nat>, exp: Exp)
    requires Good(x, c, lasttarget, e, [], f, exp) && e.k == KThrough(true) && x.but == -1
    ensures Branches(x.s, x.c0, c, x.start, x.pend, x.base, exp, f)
    ensures ListIs(c, e.f, f) && CodeOk(c, lasttarget, x.pend + Set(f)) && x.start <= lasttarget
    ensures forall j :: j in x.pend + Set(f) ==> j < |c| && c[j].Jmp?
    ensures forall j :: j in f ==> j !in x.pend
  {
    hide Eval, Exec, ListIs;
    assert x.pend + Set([]) + Set(f) == x.pend + Set(f);
    assert x.pend + Pending(e.k, [], f) == x.pend + Set(f);
    forall r0: Regs ensures BranchesAt(x.s, x.c0, c, x.start, x.pend, x.base, exp, f, r0) {
      assert DeliversAt(x, c, e.k, [], f, exp, r0, |c|);
    }
  }

  /** A condition: the code goes on when it is true, and the list of jumps out of it is returned. */
  method GoIfCondition(fs: FuncState, exp: Exp, ghost s: Sem, ghost start: nat, ghost pend: set<nat>)
    returns (head: int, ghost f: seq<nat>)
    requires Open(fs, start, pend) && Scoped(exp, fs.nvar) && RawEq(s)
    modifies fs`code, fs`lasttarget, fs`freereg
    ensures fs.freereg == old(fs.freereg) && ListIs(fs.code, head, f) && (forall j :: j in f ==> j !in pend)
    ensures Branches(s, old(fs.code), fs.code, start, pend, old(fs.freereg), exp, f) && Open(fs, start, pend + Set(f))
  {
    hide Good, Branches, RawEq, CodeOk, ListIs;
    ghost var x := Ctx(s, fs.code, start, pend, fs.freereg, -1);
    OpenCompile(fs, s, start, pend);
    var e, t0, f0 := Compile(fs, exp, x);
    e, f := GoIfTrue(fs, e, x, t0, f0, exp);
    GoodBranches(x, fs.code, fs.lasttarget, e, f, exp);
    head := e.f;
  }

  // ---- luaK_finish -------------------------------------------------------------------------------------

  /** finaltarget: the destination of a jump, skipping jumps to jumps, at most 'count' of them. */
  function FinalTarget(c: seq<Instr>, i: int, count: nat): int
    decreases count
  {
    if count == 0 || !(0 <= i < |c|) || !c[i].Jmp? then i else FinalTarget(c, Target(c, i), count - 1)
  }

  method FindFinalTarget(c: seq<Instr>, i: nat) returns (t: int)
    requires i < |c|
    ensures t == FinalTarget(c, i, 100)
  {
    t := i;
    var count := 0;
    while count < 100
      invariant 0 <= count <= 100 && FinalTarget(c, t, 100 - count) == FinalTarget(c, i, 100)
    {
      if !(0 <= t < |c|) || !c[t].Jmp? {
        return;
      }
      t := Target(c, t);
      count := count + 1;
    }
  }

  // Finished code has loops, so its runs are sequences of steps, with jumps in both directions.

  datatype Conf = Conf(p: int, r: Regs)

  /** One step; a run out of the code has ended.  A test that is taken goes on with its jump. */
  function Next(s: Sem, c: seq<Instr>, k: Conf): Conf
  {
    if !(0 <= k.p < |c|) then k
    else
      var i := c[k.p];
      if i.Jmp? then Conf(Target(c, k.p), k.r)
      else if IsTest(i) then (if Taken(s, i, k.r) then Conf(k.p + 1, Write(i, k.r)) else Conf(k.p + 2, k.r))
      else Conf(if i.LFalseSkip? then k.p + 2 else k.p + 1, Effect(s, i, k.r))
  }

  function Steps(s: Sem, c: seq<Instr>, k: Conf, n: nat): Conf
    decreases n
  {
    if n == 0 then k else Steps(s, c, Next(s, c, k), n - 1)
  }

  /** The run from 'k' ends in 'e', out of the code. */
  ghost predicate Ends(s: Sem, c: seq<Instr>, k: Conf, e: Conf)
  {
    !(0 <= e.p < |c|) && exists n: nat :: Steps(s, c, k, n) == e
  }

  lemma {:induction false} StepsAdd(s: Sem, c: seq<Instr>, k: Conf, a: nat, b: nat)
    ensures Steps(s, c, k, a + b) == Steps(s, c, Steps(s, c, k, a), b)
    decreases a
  {
    if a > 0 {
      StepsAdd(s, c, Next(s, c, k), a - 1, b);
    }
  }

  lemma {:induction false} StaysOut(s: Sem, c: seq<Instr>, k: Conf, n: nat)
    requires !(0 <= k.p < |c|)
    ensures Steps(s, c, k, n) == k
    decreases n
  {
    if n > 0 {
      StaysOut(s, c, k, n - 1);
    }
  }

  /** The forward runs of an expression are runs of this kind. */
  lemma {:induction false} ExecEnds(s: Sem, c: seq<Instr>, p: nat, r: Regs) returns (n: nat)
    requires p <= |c| && Exec(s, c, p, |c|, r, {}).Fall?
    ensures Steps(s, c, Conf(p, r), n) == Conf(|c|, Exec(s, c, p, |c|, r, {}).r)
    decreases |c| - p
  {
    hide Effect, Write, Taken;
    n := 0;
    if p < |c| {
      var k := Conf(p, r);
      var next := Next(s, c, k);
      if IsTest(c[p]) && Taken(s, c[p], r) {
        assert Next(s, c, next) == Conf(Target(c, p + 1), next.r);
        n := ExecEnds(s, c, Target(c, p + 1), next.r);
        n := n + 2;
      } else {
        n := ExecEnds(s, c, next.p, next.r);
        n := n + 1;
      }
    }
  }

  /** Following jumps leads to the final target, with the same registers. */
  lemma {:induction false} RunToFinal(s: Sem, c: seq<Instr>, i: int, r: Regs, count: nat) returns (m: nat)
    ensures Steps(s, c, Conf(i, r), m) == Conf(FinalTarget(c, i, count), r)
    ensures 0 <= i < |c| && c[i].Jmp? && count > 0 ==> m > 0
    decreases count
  {
    m := 0;
    if count > 0 && 0 <= i < |c| && c[i].Jmp? {
      m := RunToFinal(s, c, Target(c, i), r, count - 1);
      m := m + 1;
    }
  }

  /** The code with one jump going directly to its final target. */
  function Shortened(c: seq<Instr>, i: nat): seq<Instr>
    requires i < |c| && c[i].Jmp?
  {
    c[i := LinkTo(i, FinalTarget(c, i, 100))]
  }

  lemma ShortenedNext(s: Sem, c: seq<Instr>, i: nat, k: Conf)
    requires i < |c| && c[i].Jmp?
    ensures Next(s, Shortened(c, i), k) == if k.p == i then Conf(FinalTarget(c, i, 100), k.r) else Next(s, c, k)
  {
  }

  /** A run that ends does so in the new code too. */
  lemma {:induction false} ShortenedEnds(s: Sem, c: seq<Instr>, i: nat, k: Conf, n: nat, e: Conf)
    requires i < |c| && c[i].Jmp? && Steps(s, c, k, n) == e && !(0 <= e.p < |c|)
    ensures Ends(s, Shortened(c, i), k, e)
    decreases n
  {
    hide Next, Shortened, FinalTarget;
    var c' := Shortened(c, i);
    assert |c'| == |c| by { ShortenedIs(c, i); }
    if n == 0 {
      assert Steps(s, c', k, 0) == e;
    } else {
      ShortenedNext(s, c, i, k);
      var next := Next(s, c', k);
      if k.p == i {
        var m := RunToFinal(s, c, i, k.r, 100);
        if n <= m {
          StepsAdd(s, c, k, n, m - n);
          StaysOut(s, c, e, m - n);
          assert Steps(s, c', k, 1) == Steps(s, c', next, 0) == e;
          return;
        }
        StepsAdd(s, c, k, m, n - m);
        ShortenedEnds(s, c, i, next, n - m, e);
      } else {
        ShortenedEnds(s, c, i, next, n - 1, e);
      }
      var n': nat :| Steps(s, c', next, n') == e;
      assert Steps(s, c', k, n' + 1) == e;
    }
  }

  /** And the other way around. */
  lemma {:induction false} ShortenedEnded(s: Sem, c: seq<Instr>, i: nat, k: Conf, n: nat, e: Conf)
    requires i < |c| && c[i].Jmp? && Steps(s, Shortened(c, i), k, n) == e && !(0 <= e.p < |c|)
    ensures Ends(s, c, k, e)
    decreases n
  {
    hide Next, Shortened, FinalTarget;
    if n == 0 {
      assert Steps(s, c, k, 0) == e;
    } else {
      ShortenedNext(s, c, i, k);
      var next := Next(s, Shortened(c, i), k);
      ShortenedEnded(s, c, i, next, n - 1, e);
      var n': nat :| Steps(s, c, next, n') == e;
      var m := 1;
      if k.p == i {
        m := RunToFinal(s, c, i, k.r, 100);
      } else {
        assert Steps(s, c, k, 1) == Steps(s, c, next, 0) == next;
      }
      StepsAdd(s, c, k, m, n');
      assert Steps(s, c, k, m + n') == e;
    }
  }

  /** The same runs end, in the same places with the same registers; so the same runs never end. */
  ghost predicate SameRuns(s: Sem, c: seq<Instr>, c': seq<Instr>)
  {
    |c'| == |c| && forall k: Conf, e: Conf :: Ends(s, c', k, e) <==> Ends(s, c, k, e)
  }

  lemma ShortenedSame(s: Sem, c0: seq<Instr>, c: seq<Instr>, i: nat)
    requires SameRuns(s, c0, c) && i < |c| && c[i].Jmp?
    ensures SameRuns(s, c0, Shortened(c, i))
  {
    hide Steps;
    var c' := Shortened(c, i);
    forall k: Conf, e: Conf ensures Ends(s, c', k, e) <==> Ends(s, c0, k, e) {
      if Ends(s, c', k, e) {
        var n: nat :| Steps(s, c', k, n) == e;
        ShortenedEnded(s, c, i, k, n, e);
      }
      if Ends(s, c, k, e) {
        var n: nat :| Steps(s, c, k, n) == e;
        ShortenedEnds(s, c, i, k, n, e);
      }
    }
  }

  /** luaK_finish, for jumps: all of them go directly to their final targets, forward or backward. */
  method Finish(fs: FuncState, ghost s: Sem)
    modifies fs`code
    ensures SameRuns(s, old(fs.code), fs.code)
    ensures forall i :: 0 <= i < |fs.code| && !fs.code[i].Jmp? ==> fs.code[i] == old(fs.code)[i]
  {
    hide SameRuns, Shortened, Steps;
    ghost var c := fs.code;
    SameSelf(s, c);
    var i := 0;
    while i < |fs.code|
      invariant |fs.code| == |c| && SameRuns(s, c, fs.code)
      invariant forall k :: 0 <= k < |c| ==> fs.code[k] == c[k] || (fs.code[k].Jmp? && c[k].Jmp?)
    {
      if fs.code[i].Jmp? {
        ShortenedSame(s, c, fs.code, i);
        ShortenedIs(fs.code, i);
        var target := FindFinalTarget(fs.code, i);
        fs.code := fs.code[i := LinkTo(i, target)];
      }
      i := i + 1;
    }
  }

  lemma ShortenedIs(c: seq<Instr>, i: nat)
    requires i < |c| && c[i].Jmp?
    ensures Shortened(c, i) == c[i := LinkTo(i, FinalTarget(c, i, 100))]
  {
  }

  lemma SameSelf(s: Sem, c: seq<Instr>)
    ensures SameRuns(s, c, c)
  {
  }
}
