/**
 The part of the virtual machine that runs conditional expressions, with the meanings that
 lopcodes.h gives to its opcodes, and how code with pending jumps behaves.
 */
module CodeMachine {
  datatype Value = Nil | Bool(b: bool) | Num(n: int) | Str(s: nat) | Obj(id: nat)

  predicate Truthy(v: Value)
  {
    v != Nil && v != Bool(false)
  }

  /** What the program does not decide: comparisons, which may call metamethods, and the values of upvalues. */
  datatype Sem = Sem(eq: (Value, Value) -> bool, lt: (Value, Value) -> bool, le: (Value, Value) -> bool,
                     up: nat -> Value)

  /** No metamethod is called to compare with a constant. */
  ghost predicate RawEq(s: Sem)
  {
    forall v, k: Value :: !k.Obj? ==> s.eq(v, k) == (v == k) && s.eq(k, v) == (v == k)
  }

  type Regs = map<nat, Value>

  function R(r: Regs, a: nat): Value
  {
    if a in r then r[a] else Nil
  }

  datatype CmpOp = CEq | CLt | CLe
  datatype CmpImm = IEq | ILt | ILe | IGt | IGe

  const NO_JUMP: int := -1
  const NO_REG: int := -1

  /** Operands are named as in lopcodes.h; constants are shown by their values. */
  datatype Instr =
    | Move(a: nat, b: nat)
    | LoadK(a: nat, kv: Value)
    | LoadNil(a: nat, n: nat)
    | LoadFalse(a: nat)
    | LFalseSkip(a: nat)
    | LoadTrue(a: nat)
    | GetUpVal(a: nat, u: nat)
    | NotOp(a: nat, b: nat)
    | Jmp(sj: int)
    | Test(a: nat, k: bool)
    | TestSet(ra: int, b: nat, k: bool)
    | CmpRR(op: CmpOp, a: nat, b: nat, k: bool)
    | CmpRI(opi: CmpImm, a: nat, im: int, k: bool)
    | CmpRK(a: nat, kv: Value, k: bool)

  /** testTMode: the next instruction must be a jump. */
  predicate IsTest(i: Instr)
  {
    i.Test? || i.TestSet? || i.CmpRR? || i.CmpRI? || i.CmpRK?
  }

  predicate IsComparison(i: Instr)
  {
    i.CmpRR? || i.CmpRI? || i.CmpRK?
  }

  /** The condition that a test computes. */
  function Condition(s: Sem, i: Instr, r: Regs): bool
    requires IsTest(i)
  {
    match i
    case Test(a, _) => Truthy(R(r, a))
    case TestSet(_, b, _) => Truthy(R(r, b))
    case CmpRR(op, a, b, _) =>
      (match op
       case CEq => s.eq(R(r, a), R(r, b))
       case CLt => s.lt(R(r, a), R(r, b))
       case CLe => s.le(R(r, a), R(r, b)))
    case CmpRI(op, a, im, _) =>
      (match op
       case IEq => s.eq(R(r, a), Num(im))
       case ILt => s.lt(R(r, a), Num(im)) case ILe => s.le(R(r, a), Num(im))
       case IGt => s.lt(Num(im), R(r, a)) case IGe => s.le(Num(im), R(r, a)))
    case CmpRK(a, kv, _) => s.eq(R(r, a), kv)
  }

  /** The jump after the test is executed; otherwise it is skipped. */
  predicate Taken(s: Sem, i: Instr, r: Regs)
    requires IsTest(i)
  {
    Condition(s, i, r) == i.k
  }

  /** TESTSET assigns when it does not skip. */
  function Write(i: Instr, r: Regs): Regs
  {
    if i.TestSet? && i.ra >= 0 then r[i.ra := R(r, i.b)] else r
  }

  function SetNil(r: Regs, a: nat, n: nat): Regs
    decreases n
  {
    if n == 0 then r[a := Nil] else SetNil(r, a, n - 1)[a + n := Nil]
  }

  /** The effect of an instruction that neither jumps nor tests. */
  function Effect(s: Sem, i: Instr, r: Regs): Regs
  {
    match i
    case Move(a, b) => r[a := R(r, b)]
    case LoadK(a, kv) => r[a := kv]
    case LoadNil(a, n) => SetNil(r, a, n)
    case LoadFalse(a) => r[a := Bool(false)]
    case LFalseSkip(a) => r[a := Bool(false)]
    case LoadTrue(a) => r[a := Bool(true)]
    case GetUpVal(a, u) => r[a := s.up(u)]
    case NotOp(a, b) => r[a := Bool(!Truthy(R(r, b)))]
    case _ => r
  }

  /**
   How a run of a piece of code ends: at its end; at a pending jump, whose destination is not known
   yet, reached through its test or on its own; or badly.
   */
  datatype Out = Fall(r: Regs) | Cond(j: nat, r: Regs) | Bare(j: nat, r: Regs) | Stuck

  /**
   Runs code from 'p' up to 'end'.  Jumps only go forward here.  A pending TESTSET assigns nothing,
   as its register is not known either.
   */
  function Exec(s: Sem, c: seq<Instr>, p: nat, end: nat, r: Regs, pend: set<nat>): Out
    requires end <= |c|
    decreases end - p
  {
    if p > end then Stuck
    else if p == end then Fall(r)
    else if c[p].Jmp? then
      if p in pend then Bare(p, r)
      else if p < p + 1 + c[p].sj <= end then Exec(s, c, p + 1 + c[p].sj, end, r, pend) else Stuck
    else if IsTest(c[p]) then
      if p + 1 >= end || !c[p + 1].Jmp? then Stuck
      else if !Taken(s, c[p], r) then Exec(s, c, p + 2, end, r, pend)
      else if p + 1 in pend then Cond(p + 1, r)
      else if p < p + 2 + c[p + 1].sj <= end then Exec(s, c, p + 2 + c[p + 1].sj, end, Write(c[p], r), pend)
      else Stuck
    else if c[p].LFalseSkip? then
      if p + 2 <= end then Exec(s, c, p + 2, end, Effect(s, c[p], r), pend) else Stuck
    else Exec(s, c, p + 1, end, Effect(s, c[p], r), pend)
  }

  /** nil and false count as false, and no other values do (l_isfalse). */
  predicate IsFalse(v: Value)
  {
    v == Nil || v == Bool(false)
  }

  /** A test at 'p' whose jump stays in the code and is not pending. */
  ghost predicate TestThenJump(c: seq<Instr>, p: nat, end: nat, pend: set<nat>)
  {
    && p + 2 <= end <= |c| && IsTest(c[p]) && c[p + 1].Jmp? && p + 1 !in pend
    && p < p + 2 + c[p + 1].sj <= end
  }

  /** OP_TEST: if 'not R[A]' is k the jump is skipped. */
  lemma TestRuns(s: Sem, c: seq<Instr>, p: nat, end: nat, r: Regs, pend: set<nat>)
    requires TestThenJump(c, p, end, pend) && c[p].Test?
    ensures Exec(s, c, p, end, r, pend) ==
              Exec(s, c, if IsFalse(R(r, c[p].a)) == c[p].k then p + 2 else p + 2 + c[p + 1].sj, end, r, pend)
  {
  }

  /** OP_TESTSET: if 'not R[B]' is k the jump is skipped, and otherwise R[A] gets R[B]. */
  lemma TestSetRuns(s: Sem, c: seq<Instr>, p: nat, end: nat, r: Regs, pend: set<nat>)
    requires TestThenJump(c, p, end, pend) && c[p].TestSet? && c[p].ra >= 0
    ensures Exec(s, c, p, end, r, pend) ==
              if IsFalse(R(r, c[p].b)) == c[p].k then Exec(s, c, p + 2, end, r, pend)
              else Exec(s, c, p + 2 + c[p + 1].sj, end, r[c[p].ra := R(r, c[p].b)], pend)
  {
  }

  /** OP_NOT */
  lemma NotRuns(s: Sem, c: seq<Instr>, p: nat, end: nat, r: Regs, pend: set<nat>)
    requires p < end <= |c| && c[p].NotOp?
    ensures Exec(s, c, p, end, r, pend) ==
              Exec(s, c, p + 1, end, r[c[p].a := Bool(IsFalse(R(r, c[p].b)))], pend)
  {
  }

  /** OP_EQ, OP_LT and OP_LE: if the comparison is not k the jump is skipped. */
  lemma CompareRuns(s: Sem, c: seq<Instr>, p: nat, end: nat, r: Regs, pend: set<nat>)
    requires TestThenJump(c, p, end, pend) && c[p].CmpRR?
    ensures var x, y, op := R(r, c[p].a), R(r, c[p].b), c[p].op;
            var holds := (op == CEq && s.eq(x, y)) || (op == CLt && s.lt(x, y)) || (op == CLe && s.le(x, y));
            Exec(s, c, p, end, r, pend) ==
              Exec(s, c, if holds != c[p].k then p + 2 else p + 2 + c[p + 1].sj, end, r, pend)
  {
  }

  /** OP_EQI, OP_LTI, OP_LEI, OP_GTI, OP_GEI and OP_EQK: the same with an immediate or constant operand. */
  lemma CompareConstRuns(s: Sem, c: seq<Instr>, p: nat, end: nat, r: Regs, pend: set<nat>)
    requires TestThenJump(c, p, end, pend) && (c[p].CmpRI? || c[p].CmpRK?)
    ensures var x, y := R(r, c[p].a), if c[p].CmpRK? then c[p].kv else Num(c[p].im);
            var holds := if c[p].CmpRK? || c[p].opi == IEq then s.eq(x, y) else if c[p].opi == ILt then s.lt(x, y)
                         else if c[p].opi == ILe then s.le(x, y) else if c[p].opi == IGt then s.lt(y, x)
                         else s.le(y, x);
            Exec(s, c, p, end, r, pend) ==
              Exec(s, c, if holds != c[p].k then p + 2 else p + 2 + c[p + 1].sj, end, r, pend)
  {
  }

  /** A run that does not get to the end stops at a pending jump. */
  lemma {:induction false} OutPending(s: Sem, c: seq<Instr>, p: nat, end: nat, r: Regs, pend: set<nat>)
    requires end <= |c|
    ensures var o := Exec(s, c, p, end, r, pend);
            (o.Cond? || o.Bare? ==> o.j in pend && o.j < end && c[o.j].Jmp?) && (o.Cond? ==> 0 < o.j)
    decreases end - p
  {
    if p < end {
      if c[p].Jmp? {
        if p !in pend && p < p + 1 + c[p].sj <= end { OutPending(s, c, p + 1 + c[p].sj, end, r, pend); }
      } else if IsTest(c[p]) {
        if p + 1 < end && c[p + 1].Jmp? {
          if !Taken(s, c[p], r) {
            OutPending(s, c, p + 2, end, r, pend);
          } else if p + 1 !in pend && p < p + 2 + c[p + 1].sj <= end {
            OutPending(s, c, p + 2 + c[p + 1].sj, end, Write(c[p], r), pend);
          }
        }
      } else if c[p].LFalseSkip? {
        if p + 2 <= end { OutPending(s, c, p + 2, end, Effect(s, c[p], r), pend); }
      } else {
        OutPending(s, c, p + 1, end, Effect(s, c[p], r), pend);
      }
    }
  }

  /** Where a jump goes. */
  function Target(c: seq<Instr>, j: nat): int
    requires j < |c| && c[j].Jmp?
  {
    j + 1 + c[j].sj
  }

  /** The test before a pending jump may be patched: another register, or no register at all. */
  predicate SameTest(i: Instr, i': Instr)
  {
    i' == i || (i.TestSet? && ((i'.TestSet? && i'.b == i.b && i'.k == i.k) || i' == Test(i.b, i.k)))
  }

  predicate PatchAt(i: Instr, i': Instr, pending: bool, controls: bool)
  {
    i' == i || (pending && i.Jmp? && i'.Jmp?) || (controls && SameTest(i, i'))
  }

  /** Code 'c'' is 'c' up to 'end', with some pending jumps linked or patched, and their tests too. */
  ghost predicate Patches(c: seq<Instr>, end: nat, pend: set<nat>, c': seq<Instr>, end': nat, pend': set<nat>)
  {
    && end <= |c| && end <= end' <= |c'|
    && (forall i :: 0 <= i < end ==> PatchAt(c[i], c'[i], i in pend, i + 1 in pend))
    && (forall j :: 0 <= j < end && j in pend' ==> j in pend)
    && (forall j :: 0 <= j < end && j in pend && j !in pend' && c[j].Jmp? ==>
          c'[j].Jmp? && end <= Target(c', j) <= end')
  }

  /** How a run of 'c' goes on in 'c''. */
  ghost function Goes(s: Sem, o: Out, end: nat, c': seq<Instr>, end': nat, pend': set<nat>): Out
    requires end' <= |c'|
  {
    match o
    case Fall(r) => Exec(s, c', end, end', r, pend')
    case Cond(j, r) =>
      if j in pend' || !(0 < j < |c'| && c'[j].Jmp? && Target(c', j) >= 0) then o
      else Exec(s, c', Target(c', j), end', Write(c'[j - 1], r), pend')
    case Bare(j, r) =>
      if j in pend' || !(j < |c'| && c'[j].Jmp? && Target(c', j) >= 0) then o
      else Exec(s, c', Target(c', j), end', r, pend')
    case Stuck => Stuck
  }

  lemma SameTaken(s: Sem, i: Instr, i': Instr, r: Regs)
    requires IsTest(i) && SameTest(i, i')
    ensures IsTest(i') && Taken(s, i', r) == Taken(s, i, r)
  {
  }

  /** Where a run goes after a test that is not at a pending jump, or whose jump is not taken. */
  function AfterTest(s: Sem, c: seq<Instr>, p: nat, r: Regs): int
    requires p + 1 < |c| && IsTest(c[p]) && c[p + 1].Jmp?
  {
    if Taken(s, c[p], r) then Target(c, p + 1) else p + 2
  }

  lemma PatchedTestRun(s: Sem, c: seq<Instr>, p: nat, end: nat, r: Regs, pend: set<nat>, c': seq<Instr>, end': nat,
          pend': set<nat>)
    requires Patches(c, end, pend, c', end', pend') && Exec(s, c, p, end, r, pend) != Stuck
    requires p < end && IsTest(c[p])
    ensures p + 1 < end && c[p + 1].Jmp?
    ensures !Taken(s, c[p], r) || p + 1 !in pend ==>
              var q, r1 := AfterTest(s, c, p, r), if Taken(s, c[p], r) then Write(c[p], r) else r;
              && p < q <= end && Exec(s, c, p, end, r, pend) == Exec(s, c, q, end, r1, pend)
              && Exec(s, c', p, end', r, pend') == Exec(s, c', q, end', r1, pend')
    ensures Taken(s, c[p], r) && p + 1 in pend ==>
              Exec(s, c', p, end', r, pend') == Goes(s, Exec(s, c, p, end, r, pend), end, c', end', pend')
  {
    hide Effect, Write, Taken;
    assert PatchAt(c[p], c'[p], p in pend, p + 1 in pend) && PatchAt(c[p + 1], c'[p + 1], p + 1 in pend, p + 2 in pend);
    SameTaken(s, c[p], c'[p], r);
  }

  /**
   Patching pending jumps lets the runs that ended at them go on from the new destinations, and changes no other run.
   */
  lemma {:induction false} Patching(s: Sem, c: seq<Instr>, p: nat, end: nat, r: Regs, pend: set<nat>, c': seq<Instr>,
          end': nat, pend': set<nat>)
    requires Patches(c, end, pend, c', end', pend') && Exec(s, c, p, end, r, pend) != Stuck
    ensures Exec(s, c', p, end', r, pend') == Goes(s, Exec(s, c, p, end, r, pend), end, c', end', pend')
    decreases end - p
  {
    hide Effect, Write, Taken;
    if p < end {
      assert PatchAt(c[p], c'[p], p in pend, p + 1 in pend);
    }
    if p < end && IsTest(c[p]) {
      PatchedTestRun(s, c, p, end, r, pend, c', end', pend');
      hide Exec, AfterTest;
      if !Taken(s, c[p], r) || p + 1 !in pend {
        Patching(s, c, AfterTest(s, c, p, r), end, if Taken(s, c[p], r) then Write(c[p], r) else r, pend, c', end',
                 pend');
      }
    } else if p < end && c[p].Jmp? {
      if p !in pend {
        Patching(s, c, p + 1 + c[p].sj, end, r, pend, c', end', pend');
      }
    } else if p < end && c[p].LFalseSkip? {
      Patching(s, c, p + 2, end, Effect(s, c[p], r), pend, c', end', pend');
    } else if p < end {
      Patching(s, c, p + 1, end, Effect(s, c[p], r), pend, c', end', pend');
    }
  }

  // ---- Merging OP_LOADNIL ----------------------------------------------------------------------------

  lemma {:induction false} SetNilAt(r: Regs, a: nat, n: nat)
    ensures forall x :: x in SetNil(r, a, n) <==> x in r || a <= x <= a + n
    ensures forall x :: x in SetNil(r, a, n) ==> SetNil(r, a, n)[x] == if a <= x <= a + n then Nil else r[x]
    decreases n
  {
    if n > 0 {
      SetNilAt(r, a, n - 1);
    }
  }

  /** Two ranges that touch make one range. */
  predicate CanConnect(pfrom: nat, pn: nat, from: nat, n: nat)
  {
    (pfrom <= from && from <= pfrom + pn + 1) || (from <= pfrom && pfrom <= from + n + 1)
  }

  function Connected(pfrom: nat, pn: nat, from: nat, n: nat): Instr
  {
    var first := if pfrom < from then pfrom else from;
    var l := if pfrom + pn > from + n then pfrom + pn else from + n;
    LoadNil(first, l - first)
  }

  predicate InRange(x: nat, a: nat, n: nat)
  {
    a <= x <= a + n
  }

  lemma SetNilOne(r: Regs, a: nat, n: nat, x: nat)
    ensures x in SetNil(r, a, n) <==> x in r || InRange(x, a, n)
    ensures x in SetNil(r, a, n) ==> SetNil(r, a, n)[x] == if InRange(x, a, n) then Nil else r[x]
  {
    SetNilAt(r, a, n);
  }

  lemma ConnectedRange(pfrom: nat, pn: nat, from: nat, n: nat, x: nat)
    requires CanConnect(pfrom, pn, from, n)
    ensures var i := Connected(pfrom, pn, from, n);
            i.LoadNil? && (InRange(x, i.a, i.n) <==> InRange(x, pfrom, pn) || InRange(x, from, n))
  {
  }

  lemma ConnectedAt(r: Regs, i: Instr, pfrom: nat, pn: nat, from: nat, n: nat, k: nat)
    requires CanConnect(pfrom, pn, from, n) && i == Connected(pfrom, pn, from, n)
    ensures i.LoadNil?
    ensures var x, y := SetNil(r, i.a, i.n), SetNil(SetNil(r, pfrom, pn), from, n);
            (k in x <==> k in y) && (k in x ==> x[k] == y[k])
  {
    hide SetNil, InRange, Connected;
    ConnectedRange(pfrom, pn, from, n, k);
    SetNilOne(r, i.a, i.n, k);
    SetNilOne(r, pfrom, pn, k);
    SetNilOne(SetNil(r, pfrom, pn), from, n, k);
  }

  lemma ConnectedEffect(s: Sem, r: Regs, pfrom: nat, pn: nat, from: nat, n: nat)
    requires CanConnect(pfrom, pn, from, n)
    ensures Effect(s, Connected(pfrom, pn, from, n), r) == SetNil(Effect(s, LoadNil(pfrom, pn), r), from, n)
  {
    var i := Connected(pfrom, pn, from, n);
    ConnectedRange(pfrom, pn, from, n, 0);
    var x, y := SetNil(r, i.a, i.n), SetNil(SetNil(r, pfrom, pn), from, n);
    assert x == y by {
      hide SetNil, Connected, CanConnect;
      forall k ensures (k in x <==> k in y) && (k in x ==> x[k] == y[k]) {
        ConnectedAt(r, i, pfrom, pn, from, n, k);
      }
    }
    hide SetNil;
  }

  /** No run gets to the end of the code but through its last instruction. */
  ghost predicate OnlyByLast(c: seq<Instr>, pend: set<nat>)
  {
    && |c| > 0 && c[|c| - 1].LoadNil? && (|c| > 1 ==> !c[|c| - 2].LFalseSkip?)
    && forall i :: 0 <= i < |c| && c[i].Jmp? && i !in pend ==> Target(c, i) < |c|
  }

  /** A run that gets to the end also sets the registers from 'from' to 'from + n' to nil. */
  function WithNil(o: Out, from: nat, n: nat): Out
  {
    match o
    case Fall(r) => Fall(SetNil(r, from, n))
    case _ => o
  }

  /**
   Widening the last OP_LOADNIL is the same as adding another one, as long as nothing jumps to the end of the code.
   */
  lemma {:induction false} NilMerge(s: Sem, c: seq<Instr>, p: nat, r: Regs, pend: set<nat>, from: nat, n: nat)
    requires p < |c| && OnlyByLast(c, pend) && CanConnect(c[|c| - 1].a, c[|c| - 1].n, from, n)
    requires Exec(s, c, p, |c|, r, pend) != Stuck
    ensures var c' := c[|c| - 1 := Connected(c[|c| - 1].a, c[|c| - 1].n, from, n)];
            Exec(s, c', p, |c|, r, pend) == WithNil(Exec(s, c, p, |c|, r, pend), from, n)
    decreases |c| - p
  {
    var c' := c[|c| - 1 := Connected(c[|c| - 1].a, c[|c| - 1].n, from, n)];
    if p == |c| - 1 {
      ConnectedEffect(s, r, c[p].a, c[p].n, from, n);
      assert Exec(s, c, p, |c|, r, pend) == Exec(s, c, p + 1, |c|, Effect(s, c[p], r), pend);
      assert Exec(s, c', p, |c|, r, pend) == Exec(s, c', p + 1, |c|, Effect(s, c'[p], r), pend);
    } else if c[p].Jmp? {
      if p !in pend {
        assert Target(c, p) < |c|;
        NilMerge(s, c, p + 1 + c[p].sj, r, pend, from, n);
      }
    } else if IsTest(c[p]) {
      if !Taken(s, c[p], r) {
        NilMerge(s, c, p + 2, r, pend, from, n);
      } else if p + 1 !in pend {
        assert Target(c, p + 1) < |c|;
        NilMerge(s, c, p + 2 + c[p + 1].sj, Write(c[p], r), pend, from, n);
      }
    } else if c[p].LFalseSkip? {
      NilMerge(s, c, p + 2, Effect(s, c[p], r), pend, from, n);
    } else {
      NilMerge(s, c, p + 1, Effect(s, c[p], r), pend, from, n);
    }
  }
}
