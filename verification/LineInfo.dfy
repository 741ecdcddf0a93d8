/**
 The line of each instruction: how the compiler saves it (lcode.c, "savelineinfo") and how it is found
 again (ldebug.c, "luaG_getfuncline").
 */
module LineInfo {
  const LIMLINEDIFF: int := 0x80
  const ABSLINEINFO: int := -0x80
  const MAXIWTHABS: nat := 128

  datatype AbsLineInfo = AbsLineInfo(pc: nat, line: int)

  /** The line information of a function (Proto), with what the compiler keeps to add to it (FuncState). */
  datatype Info = Info(linedefined: int, lineinfo: seq<int>, abslineinfo: seq<AbsLineInfo>, previousline: int,
                       iwthabs: int)

  function Empty(linedefined: int): Info
  {
    Info(linedefined, [], [], linedefined, 0)
  }

  // ---- What the information means --------------------------------------------------------------------

  /** The line of an absolute entry. */
  function AbsLine(abs: seq<AbsLineInfo>, pc: nat): int
  {
    if abs == [] then -1
    else if abs[|abs| - 1].pc == pc then abs[|abs| - 1].line
    else AbsLine(abs[..|abs| - 1], pc)
  }

  /** The line of an instruction; the one before the first has the line where the function begins. */
  function LineAt(i: Info, pc: int): int
    requires pc < |i.lineinfo|
    decreases pc
  {
    if pc < 0 then i.linedefined
    else if i.lineinfo[pc] == ABSLINEINFO then AbsLine(i.abslineinfo, pc)
    else LineAt(i, pc - 1) + i.lineinfo[pc]
  }

  /** How many instructions there are since the last absolute entry, or since the beginning. */
  function SinceAbs(i: Info): int
  {
    if i.abslineinfo == [] then |i.lineinfo| else |i.lineinfo| - i.abslineinfo[|i.abslineinfo| - 1].pc
  }

  /** Absolute entries are in order, and exactly where they are announced. */
  ghost predicate Marked(i: Info)
  {
    && (forall k :: 0 <= k < |i.abslineinfo| ==> i.abslineinfo[k].pc < |i.lineinfo|)
    && (forall k :: 0 <= k < |i.abslineinfo| ==> i.lineinfo[i.abslineinfo[k].pc] == ABSLINEINFO)
    && (forall k, m :: 0 <= k < m < |i.abslineinfo| ==> i.abslineinfo[k].pc < i.abslineinfo[m].pc)
    && (forall pc :: 0 <= pc < |i.lineinfo| && i.lineinfo[pc] == ABSLINEINFO ==> Announced(i.abslineinfo, pc))
  }

  ghost predicate Announced(abs: seq<AbsLineInfo>, pc: int)
  {
    exists k :: 0 <= k < |abs| && abs[k].pc == pc
  }

  /** How far an absolute entry is from the one before, or from the beginning. */
  function Gap(abs: seq<AbsLineInfo>, k: nat): int
    requires k < |abs|
  {
    abs[k].pc - (if k == 0 then 0 else abs[k - 1].pc)
  }

  /** There is an absolute entry at least every MAXIWTHABS instructions. */
  ghost predicate Spaced(i: Info)
  {
    && (forall k :: 0 <= k < |i.abslineinfo| ==> Gap(i.abslineinfo, k) <= MAXIWTHABS)
    && SinceAbs(i) <= i.iwthabs <= MAXIWTHABS + 1 && SinceAbs(i) <= MAXIWTHABS
  }

  ghost predicate Valid(i: Info)
  {
    Marked(i) && Spaced(i)
  }

  // ---- Saving ------------------------------------------------------------------------------------------

  function Abs(x: int): nat
  {
    if x < 0 then -x else x
  }

  /** The next entry is absolute. */
  predicate NeedsAbs(i: Info, line: int)
  {
    Abs(line - i.previousline) >= LIMLINEDIFF || i.iwthabs >= MAXIWTHABS
  }

  /** savelineinfo */
  function Saved(i: Info, line: int): Info
  {
    if NeedsAbs(i, line) then
      i.(lineinfo := i.lineinfo + [ABSLINEINFO], abslineinfo := i.abslineinfo + [AbsLineInfo(|i.lineinfo|, line)],
         previousline := line, iwthabs := 1)
    else
      i.(lineinfo := i.lineinfo + [line - i.previousline], previousline := line, iwthabs := i.iwthabs + 1)
  }

  /** removelastlineinfo, and the instruction with it. */
  function Removed(i: Info): Info
    requires i.lineinfo != [] && Marked(i)
  {
    var last := |i.lineinfo| - 1;
    if i.lineinfo[last] != ABSLINEINFO then
      i.(lineinfo := i.lineinfo[..last], previousline := i.previousline - i.lineinfo[last], iwthabs := i.iwthabs - 1)
    else
      assert Announced(i.abslineinfo, last);
      i.(lineinfo := i.lineinfo[..last], abslineinfo := i.abslineinfo[..|i.abslineinfo| - 1], iwthabs := MAXIWTHABS + 1)
  }

  lemma AnnouncedMore(abs: seq<AbsLineInfo>, a: AbsLineInfo, pc: int)
    ensures Announced(abs + [a], pc) <==> Announced(abs, pc) || a.pc == pc
  {
    var b := abs + [a];
    if Announced(abs, pc) {
      var k :| 0 <= k < |abs| && abs[k].pc == pc;
      assert b[k].pc == pc;
    }
    if a.pc == pc { assert b[|abs|].pc == pc; }
  }

  lemma MarkedAbs(i: Info, s: Info, line: int)
    requires Marked(i)
    requires s.lineinfo == i.lineinfo + [ABSLINEINFO]
    requires s.abslineinfo == i.abslineinfo + [AbsLineInfo(|i.lineinfo|, line)]
    ensures Marked(s)
  {
    forall pc | 0 <= pc < |s.lineinfo| && s.lineinfo[pc] == ABSLINEINFO ensures Announced(s.abslineinfo, pc) {
      AnnouncedMore(i.abslineinfo, AbsLineInfo(|i.lineinfo|, line), pc);
    }
  }

  lemma MarkedRel(i: Info, s: Info, d: int)
    requires Marked(i) && d != ABSLINEINFO && s.lineinfo == i.lineinfo + [d] && s.abslineinfo == i.abslineinfo
    ensures Marked(s)
  {
  }

  lemma SavedValid(i: Info, line: int)
    requires Valid(i)
    ensures Valid(Saved(i, line))
  {
    var s := Saved(i, line);
    if NeedsAbs(i, line) {
      MarkedAbs(i, s, line);
      hide Marked;
      forall k | 0 <= k < |s.abslineinfo| ensures Gap(s.abslineinfo, k) <= MAXIWTHABS {
        if k < |i.abslineinfo| { assert Gap(i.abslineinfo, k) <= MAXIWTHABS; }
      }
    } else {
      MarkedRel(i, s, line - i.previousline);
    }
  }

  /** The last absolute entry is the one of the last instruction, if that one is absolute. */
  lemma LastAbs(i: Info)
    requires Marked(i) && i.lineinfo != [] && i.lineinfo[|i.lineinfo| - 1] == ABSLINEINFO
    ensures i.abslineinfo != [] && i.abslineinfo[|i.abslineinfo| - 1].pc == |i.lineinfo| - 1
  {
    assert Announced(i.abslineinfo, |i.lineinfo| - 1);
  }

  lemma AnnouncedLess(abs: seq<AbsLineInfo>, pc: int)
    requires abs != []
    ensures Announced(abs, pc) && abs[|abs| - 1].pc != pc ==> Announced(abs[..|abs| - 1], pc)
  {
    if Announced(abs, pc) && abs[|abs| - 1].pc != pc {
      var k :| 0 <= k < |abs| && abs[k].pc == pc;
      assert abs[..|abs| - 1][k].pc == pc;
    }
  }

  lemma UnmarkedAbs(i: Info, s: Info)
    requires Marked(i) && i.lineinfo != [] && i.lineinfo[|i.lineinfo| - 1] == ABSLINEINFO && i.abslineinfo != []
    requires s.lineinfo == i.lineinfo[..|i.lineinfo| - 1] && s.abslineinfo == i.abslineinfo[..|i.abslineinfo| - 1]
    ensures Marked(s)
  {
    LastAbs(i);
    forall pc | 0 <= pc < |s.lineinfo| && s.lineinfo[pc] == ABSLINEINFO ensures Announced(s.abslineinfo, pc) {
      AnnouncedLess(i.abslineinfo, pc);
    }
  }

  lemma UnmarkedRel(i: Info, s: Info)
    requires Marked(i) && i.lineinfo != [] && i.lineinfo[|i.lineinfo| - 1] != ABSLINEINFO
    requires s.lineinfo == i.lineinfo[..|i.lineinfo| - 1] && s.abslineinfo == i.abslineinfo
    ensures Marked(s)
  {
  }

  lemma SpacedLess(i: Info, r: Info)
    requires Spaced(i) && i.abslineinfo != [] && r.abslineinfo == i.abslineinfo[..|i.abslineinfo| - 1]
    requires |r.lineinfo| == i.abslineinfo[|i.abslineinfo| - 1].pc && r.iwthabs == MAXIWTHABS + 1
    ensures Spaced(r)
  {
    var n := |i.abslineinfo|;
    assert Gap(i.abslineinfo, n - 1) <= MAXIWTHABS;
    assert forall k :: 0 <= k < n - 1 ==> Gap(r.abslineinfo, k) == Gap(i.abslineinfo, k);
  }

  lemma RemovedValid(i: Info)
    requires Valid(i) && i.lineinfo != []
    ensures Valid(Removed(i))
  {
    var r, last := Removed(i), |i.lineinfo| - 1;
    hide Marked, Gap;
    if i.lineinfo[last] == ABSLINEINFO {
      LastAbs(i);
      UnmarkedAbs(i, r);
      SpacedLess(i, r);
    } else {
      UnmarkedRel(i, r);
    }
  }

  // ---- Saving keeps the lines ----------------------------------------------------------------------------

  /** The information gives the lines that were recorded. */
  ghost predicate Records(i: Info, lines: seq<int>)
  {
    |i.lineinfo| == |lines| && forall pc :: 0 <= pc < |lines| ==> LineAt(i, pc) == lines[pc]
  }

  /** The line of the last instruction. */
  function LastLine(i: Info): int
  {
    LineAt(i, |i.lineinfo| - 1)
  }

  /** The compiler knows the line of the last instruction. */
  predicate Synced(i: Info)
  {
    i.previousline == LastLine(i)
  }

  lemma AbsLineMore(abs: seq<AbsLineInfo>, a: AbsLineInfo, pc: nat)
    ensures AbsLine(abs + [a], pc) == if a.pc == pc then a.line else AbsLine(abs, pc)
  {
    assert (abs + [a])[..|abs|] == abs;
  }

  /** Older entries do not depend on what is added, or removed, after them. */
  lemma {:induction false} LinePrefix(i: Info, s: Info, pc: int)
    requires pc < |i.lineinfo| <= |s.lineinfo| && s.lineinfo[..|i.lineinfo|] == i.lineinfo
    requires s.linedefined == i.linedefined
    requires s.abslineinfo == i.abslineinfo
             || (|s.abslineinfo| == |i.abslineinfo| + 1 && s.abslineinfo[..|i.abslineinfo|] == i.abslineinfo
                 && s.abslineinfo[|i.abslineinfo|].pc == |i.lineinfo|)
    ensures LineAt(s, pc) == LineAt(i, pc)
    decreases pc
  {
    if pc >= 0 {
      assert s.lineinfo[pc] == s.lineinfo[..|i.lineinfo|][pc];
      if s.lineinfo[pc] == ABSLINEINFO {
        if s.abslineinfo != i.abslineinfo {
          AbsLineMore(i.abslineinfo, s.abslineinfo[|i.abslineinfo|], pc);
          assert s.abslineinfo == i.abslineinfo + [s.abslineinfo[|i.abslineinfo|]];
        }
      } else {
        LinePrefix(i, s, pc - 1);
      }
    }
  }

  /** The new entry will give its line. */
  predicate SafeToSave(i: Info, line: int)
  {
    Synced(i) || NeedsAbs(i, line)
  }

  lemma SavedLast(i: Info, line: int)
    ensures LineAt(Saved(i, line), |i.lineinfo|) ==
              if NeedsAbs(i, line) then line else LastLine(i) + line - i.previousline
  {
    var s, n := Saved(i, line), |i.lineinfo|;
    if NeedsAbs(i, line) {
      AbsLineMore(i.abslineinfo, AbsLineInfo(n, line), n);
    } else {
      LinePrefix(i, s, n - 1);
    }
  }

  /** savelineinfo records the line exactly when the compiler knows the last line, or the entry is absolute. */
  lemma SavedRecords(i: Info, lines: seq<int>, line: int)
    requires Records(i, lines)
    ensures Records(Saved(i, line), lines + [line]) <==> SafeToSave(i, line)
    ensures SafeToSave(i, line) ==> Synced(Saved(i, line))
  {
    var s, n := Saved(i, line), |i.lineinfo|;
    SavedLast(i, line);
    forall pc | 0 <= pc < n ensures LineAt(s, pc) == lines[pc] {
      LinePrefix(i, s, pc);
    }
    if Records(s, lines + [line]) {
      assert LineAt(s, n) == (lines + [line])[n];
    }
  }

  lemma RemovedRecords(i: Info, lines: seq<int>)
    requires Records(i, lines) && Marked(i) && i.lineinfo != []
    ensures Records(Removed(i), lines[..|lines| - 1])
    ensures Synced(i) ==> Synced(Removed(i)) || Removed(i).iwthabs == MAXIWTHABS + 1
  {
    var r, last := Removed(i), |i.lineinfo| - 1;
    if i.lineinfo[last] == ABSLINEINFO { LastAbs(i); }
    forall pc | pc < last ensures LineAt(r, pc) == LineAt(i, pc) {
      LinePrefix(r, i, pc);
    }
    LinePrefix(r, i, last - 1);
  }

  // ---- Any sequence of changes ---------------------------------------------------------------------------

  /** luaK_code, luaK_fixline and removelastinstruction */
  datatype Op = Emit(line: int) | Fix(line: int) | Remove

  /** A state, with the lines last recorded and how many entries were removed since the last one was saved. */
  datatype State = State(info: Info, lines: seq<int>, removals: nat)

  function Begin(linedefined: int): State
  {
    State(Empty(linedefined), [], 0)
  }

  ghost predicate StateOk(s: State)
  {
    Valid(s.info) && Records(s.info, s.lines)
  }

  function Pop(s: State): State
    requires s.info.lineinfo != [] && Marked(s.info) && s.lines != []
  {
    State(Removed(s.info), s.lines[..|s.lines| - 1], s.removals + 1)
  }

  function Push(s: State, line: int): State
  {
    State(Saved(s.info, line), s.lines + [line], 0)
  }

  /** The state after an operation; nothing can be removed or fixed when there is no instruction. */
  function Apply(s: State, op: Op): State
    requires Marked(s.info) && |s.lines| == |s.info.lineinfo|
  {
    match op
    case Emit(line) => Push(s, line)
    case Fix(line) => if s.lines == [] then s else Push(Pop(s), line)
    case Remove => if s.lines == [] then s else Pop(s)
  }

  /** No more than two entries are removed in a row before another one is saved. */
  predicate Moderate(s: State, op: Op)
  {
    match op
    case Emit(_) => true
    case Fix(_) => s.removals <= 1
    case Remove => s.removals <= 1
  }

  /** After one or two removals the compiler knows the last line, or the next entry will be absolute. */
  ghost predicate Steady(s: State)
  {
    StateOk(s) && s.removals <= 2 && (Synced(s.info) || s.info.iwthabs >= MAXIWTHABS + 2 - s.removals)
  }

  lemma PushSteady(s: State, line: int)
    requires Steady(s)
    ensures Steady(Push(s, line))
  {
    hide Valid, Records, LineAt;
    SavedValid(s.info, line);
    SavedRecords(s.info, s.lines, line);
  }

  lemma RecordsLength(i: Info, lines: seq<int>)
    requires Records(i, lines)
    ensures |i.lineinfo| == |lines|
  {
  }

  lemma ValidMarked(i: Info)
    requires Valid(i)
    ensures Marked(i)
  {
  }

  lemma PopSteady(s: State)
    requires Steady(s) && s.lines != [] && s.removals <= 1
    requires Marked(s.info) && |s.lines| == |s.info.lineinfo|
    ensures Steady(Pop(s))
  {
    hide Valid, Records, LineAt, Marked;
    RemovedValid(s.info);
    RemovedRecords(s.info, s.lines);
  }

  lemma ApplySteady(s: State, op: Op)
    requires Steady(s) && Moderate(s, op)
    ensures Marked(s.info) && |s.lines| == |s.info.lineinfo| && Steady(Apply(s, op))
  {
    hide Valid, Records, Marked;
    RecordsLength(s.info, s.lines);
    ValidMarked(s.info);
    if s.lines != [] && !op.Emit? {
      PopSteady(s);
      if op.Fix? { PushSteady(Pop(s), op.line); }
    } else if op.Emit? {
      PushSteady(s, op.line);
    }
  }

  /** A run of operations. */
  ghost predicate Run(s: State, ops: seq<Op>, s': State)
    decreases ops
  {
    if ops == [] then s' == s
    else Marked(s.info) && |s.lines| == |s.info.lineinfo| && Run(Apply(s, ops[0]), ops[1..], s')
  }

  /** What the operations must meet, one by one. */
  ghost predicate All(s: State, ops: seq<Op>, meets: (State, Op) -> bool)
    decreases ops
  {
    ops == []
    || (Marked(s.info) && |s.lines| == |s.info.lineinfo| && meets(s, ops[0]) && All(Apply(s, ops[0]), ops[1..], meets))
  }

  lemma ApplyValid(s: State, op: Op)
    requires Valid(s.info) && |s.lines| == |s.info.lineinfo|
    ensures Valid(Apply(s, op).info) && |Apply(s, op).lines| == |Apply(s, op).info.lineinfo|
  {
    hide Marked, Spaced, NeedsAbs;
    if s.lines != [] && !op.Emit? {
      RemovedValid(s.info);
      if op.Fix? { SavedValid(Removed(s.info), op.line); }
    } else if op.Emit? {
      SavedValid(s.info, op.line);
    }
  }

  /** Absolute entries stay where they are announced, and near enough, whatever the operations. */
  lemma {:induction false} RunValid(s: State, ops: seq<Op>, s': State)
    requires Valid(s.info) && |s.lines| == |s.info.lineinfo| && Run(s, ops, s')
    ensures Valid(s'.info) && |s'.lines| == |s'.info.lineinfo|
    decreases ops
  {
    if ops != [] {
      ApplyValid(s, ops[0]);
      hide Valid, Apply;
      RunValid(Apply(s, ops[0]), ops[1..], s');
    }
  }

  /**
   Whatever is emitted, fixed and removed, two entries in a row at most, every instruction has the line last recorded
   for it.
   */
  lemma {:induction false} RunSteady(s: State, ops: seq<Op>, s': State)
    requires Steady(s) && Run(s, ops, s') && All(s, ops, Moderate)
    ensures Steady(s')
    decreases ops
  {
    hide Valid, Records, Marked, Synced;
    if ops != [] {
      ApplySteady(s, ops[0]);
      RunSteady(Apply(s, ops[0]), ops[1..], s');
    }
  }

  /**
   So for every run of the compiler: it removes an instruction only in "jumponcond", which emits one at
   once, and entries only there and in luaK_fixline, which saves one at once.
   */
  lemma RunRecords(linedefined: int, ops: seq<Op>, s: State)
    requires Run(Begin(linedefined), ops, s) && All(Begin(linedefined), ops, Moderate)
    ensures Valid(s.info) && Records(s.info, s.lines)
  {
    RunSteady(Begin(linedefined), ops, s);
  }

  // ---- The compiler's side -------------------------------------------------------------------------------

  /** The fields of the function and of its compiler state that hold line information. */
  class LineSaver {
    const linedefined: int
    var lineinfo: seq<int>
    var abslineinfo: seq<AbsLineInfo>
    var previousline: int
    var iwthabs: int

    function Value(): Info
      reads this
    {
      Info(linedefined, lineinfo, abslineinfo, previousline, iwthabs)
    }

    constructor (linedefined: int)
      ensures Value() == Empty(linedefined)
    {
      this.linedefined, lineinfo, abslineinfo, previousline, iwthabs := linedefined, [], [], linedefined, 0;
    }

    method SaveLineInfo(line: int)
      requires Valid(Value())
      modifies this
      ensures Value() == Saved(old(Value()), line) && Valid(Value())
    {
      SavedValid(Value(), line);
      var linedif := line - previousline;
      var absolute := (if linedif < 0 then -linedif else linedif) >= LIMLINEDIFF;
      if !absolute {
        absolute := iwthabs >= MAXIWTHABS;
        iwthabs := iwthabs + 1;
      }
      if absolute {
        abslineinfo := abslineinfo + [AbsLineInfo(|lineinfo|, line)];
        linedif := ABSLINEINFO;
        iwthabs := 1;
      }
      lineinfo := lineinfo + [linedif];
      previousline := line;
    }

    method RemoveLastLineInfo()
      requires Valid(Value()) && lineinfo != []
      modifies this
      ensures Value() == Removed(old(Value())) && Valid(Value())
    {
      RemovedValid(Value());
      var pc := |lineinfo| - 1;
      if lineinfo[pc] != ABSLINEINFO {
        previousline := previousline - lineinfo[pc];
        iwthabs := iwthabs - 1;
      } else {
        LastAbs(Value());
        assert abslineinfo[|abslineinfo| - 1].pc == pc;
        abslineinfo := abslineinfo[..|abslineinfo| - 1];
        iwthabs := MAXIWTHABS + 1;
      }
      lineinfo := lineinfo[..pc];
    }

    /** luaK_fixline, right after an instruction was emitted, changes the line of that instruction and no other. */
    method FixLine(line: int, ghost lines: seq<int>)
      requires Valid(Value()) && Records(Value(), lines) && lines != [] && Synced(Value())
      modifies this
      ensures Valid(Value()) && Records(Value(), lines[..|lines| - 1] + [line]) && Synced(Value())
    {
      hide Valid, Records, Synced;
      RecordsLength(Value(), lines);
      ValidMarked(Value());
      RemovedRecords(Value(), lines);
      RemoveLastLineInfo();
      FixSafe(Value(), line);
      SavedRecords(Value(), lines[..|lines| - 1], line);
      SaveLineInfo(line);
    }
  }

  lemma FixSafe(i: Info, line: int)
    requires Synced(i) || i.iwthabs == MAXIWTHABS + 1
    ensures SafeToSave(i, line)
  {
  }

  // ---- Finding lines --------------------------------------------------------------------------------------

  /** The entry for 'pc' is the last one at or before it. */
  ghost predicate IsBase(i: Info, pc: nat, k: int)
  {
    && -1 <= k < |i.abslineinfo|
    && (k >= 0 ==> i.abslineinfo[k].pc <= pc)
    && (k + 1 < |i.abslineinfo| ==> pc < i.abslineinfo[k + 1].pc)
  }

  /** With an entry every MAXIWTHABS instructions, entry 'k' is at most at (k + 1) * MAXIWTHABS. */
  lemma {:induction false} EntryBound(i: Info, k: nat)
    requires Spaced(i) && k < |i.abslineinfo|
    ensures i.abslineinfo[k].pc <= (k + 1) * MAXIWTHABS
    decreases k
  {
    assert Gap(i.abslineinfo, k) <= MAXIWTHABS;
    if k > 0 { EntryBound(i, k - 1); }
  }

  /** The estimate of getbaseline never goes beyond the right entry. */
  lemma EstimateIsLow(i: Info, pc: nat)
    requires Valid(i) && pc < |i.lineinfo|
    ensures var k := pc / MAXIWTHABS - 1; k >= 0 ==> k < |i.abslineinfo| && i.abslineinfo[k].pc <= pc
  {
    hide Marked, Gap;
    var k := pc / MAXIWTHABS - 1;
    var n := |i.abslineinfo|;
    if k >= 0 {
      assert (k + 1) * MAXIWTHABS <= pc;
      if k >= n {
        if n > 0 {
          EntryBound(i, n - 1);
        }
      } else {
        EntryBound(i, k);
      }
    }
  }

  lemma {:induction false} AbsLineAt(abs: seq<AbsLineInfo>, k: nat)
    requires k < |abs| && forall a, b :: 0 <= a < b < |abs| ==> abs[a].pc < abs[b].pc
    ensures AbsLine(abs, abs[k].pc) == abs[k].line
    decreases |abs|
  {
    if k < |abs| - 1 {
      AbsLineAt(abs[..|abs| - 1], k);
    }
  }

  /** getbaseline */
  method GetBaseLine(i: Info, pc: nat) returns (basepc: int, baseline: int)
    requires Valid(i) && pc < |i.lineinfo|
    ensures -1 <= basepc <= pc && baseline == LineAt(i, basepc)
    ensures forall q :: basepc < q <= pc ==> i.lineinfo[q] != ABSLINEINFO
  {
    if |i.abslineinfo| == 0 || pc < i.abslineinfo[0].pc {
      NoneBetween(i, pc, -1);
      return -1, i.linedefined;
    }
    var k := pc / MAXIWTHABS - 1;
    EstimateIsLow(i, pc);
    assert k < 0 || (k < |i.abslineinfo| && i.abslineinfo[k].pc <= pc);
    hide Valid, Marked, Spaced;
    while k + 1 < |i.abslineinfo| && pc >= i.abslineinfo[k + 1].pc
      invariant -1 <= k < |i.abslineinfo| && (k >= 0 ==> i.abslineinfo[k].pc <= pc)
      decreases |i.abslineinfo| - k
    {
      k := k + 1;
    }
    NoneBetween(i, pc, k);
    return i.abslineinfo[k].pc, i.abslineinfo[k].line;
  }

  lemma NoneBetween(i: Info, pc: nat, k: int)
    requires Valid(i) && pc < |i.lineinfo| && IsBase(i, pc, k)
    ensures var base := if k < 0 then -1 else i.abslineinfo[k].pc as int;
            forall q :: base < q <= pc ==> i.lineinfo[q] != ABSLINEINFO
    ensures k >= 0 ==> LineAt(i, i.abslineinfo[k].pc) == i.abslineinfo[k].line
  {
    var base := if k < 0 then -1 else i.abslineinfo[k].pc as int;
    forall q | base < q <= pc ensures i.lineinfo[q] != ABSLINEINFO {
      assert !Announced(i.abslineinfo, q);
    }
    if k >= 0 { AbsLineAt(i.abslineinfo, k); }
  }

  /** luaG_getfuncline */
  method GetFuncLine(i: Info, pc: nat) returns (line: int)
    requires Valid(i) && pc < |i.lineinfo|
    ensures line == LineAt(i, pc)
  {
    var basepc, baseline := GetBaseLine(i, pc);
    while basepc < pc
      invariant -1 <= basepc <= pc && baseline == LineAt(i, basepc)
      invariant forall q :: basepc < q <= pc ==> i.lineinfo[q] != ABSLINEINFO
    {
      basepc := basepc + 1;
      baseline := baseline + i.lineinfo[basepc];
    }
    return baseline;
  }

  /** changedline agrees with comparing the lines. */
  method ChangedLine(i: Info, oldpc: nat, newpc: nat) returns (changed: bool)
    requires Valid(i) && oldpc < newpc < |i.lineinfo|
    ensures changed <==> LineAt(i, oldpc) != LineAt(i, newpc)
  {
    if newpc - oldpc < MAXIWTHABS / 2 {
      var delta, pc := 0, oldpc;
      while true
        invariant oldpc <= pc < newpc && LineAt(i, pc) == LineAt(i, oldpc) + delta
        decreases newpc - pc
      {
        pc := pc + 1;
        var lineinfo := i.lineinfo[pc];
        if lineinfo == ABSLINEINFO {
          break;
        }
        delta := delta + lineinfo;
        if pc == newpc {
          return delta != 0;
        }
      }
    }
    var l1 := GetFuncLine(i, oldpc);
    var l2 := GetFuncLine(i, newpc);
    return l1 != l2;
  }

  /** nextline */
  method NextLine(i: Info, currentline: int, pc: nat) returns (line: int)
    requires Valid(i) && pc < |i.lineinfo| && currentline == LineAt(i, pc - 1)
    ensures line == LineAt(i, pc)
  {
    if i.lineinfo[pc] != ABSLINEINFO {
      return currentline + i.lineinfo[pc];
    } else {
      line := GetFuncLine(i, pc);
    }
  }

  /** The lines of the instructions from 'lo' up to 'hi'. */
  function LinesBetween(i: Info, lo: nat, hi: nat): set<int>
    requires hi <= |i.lineinfo|
  {
    set pc | lo <= pc < hi :: LineAt(i, pc)
  }

  lemma LinesGrow(i: Info, lo: nat, hi: nat)
    requires lo <= hi < |i.lineinfo|
    ensures LinesBetween(i, lo, hi + 1) == LinesBetween(i, lo, hi) + {LineAt(i, hi)}
  {
    hide LineAt;
  }

  /**
   collectvalidlines: the lines of all instructions, in one pass; a vararg function does not count its first
   instruction.
   */
  method CollectValidLines(i: Info, isVararg: bool) returns (lines: set<int>)
    requires Valid(i) && (isVararg ==> i.lineinfo != [])
    ensures lines == LinesBetween(i, if isVararg then 1 else 0, |i.lineinfo|)
  {
    lines := {};
    var currentline, pc := i.linedefined, 0;
    assert currentline == LineAt(i, -1);
    hide Valid, LineAt, LinesBetween;
    if isVararg {
      currentline := NextLine(i, currentline, 0);
      pc := 1;
    }
    ghost var first := pc;
    NoLines(i, first);
    while pc < |i.lineinfo|
      invariant first <= pc <= |i.lineinfo| && currentline == LineAt(i, pc - 1) && lines == LinesBetween(i, first, pc)
    {
      LinesGrow(i, first, pc);
      currentline := NextLine(i, currentline, pc);
      lines := lines + {currentline};
      pc := pc + 1;
    }
  }

  lemma NoLines(i: Info, lo: nat)
    requires lo <= |i.lineinfo|
    ensures LinesBetween(i, lo, lo) == {}
  {
  }

  /** From the first instruction to the last: what luaG_getfuncline finds is the line last recorded. */
  method FindRecorded(linedefined: int, ghost ops: seq<Op>, s: State, pc: nat) returns (line: int)
    requires Run(Begin(linedefined), ops, s) && All(Begin(linedefined), ops, Moderate) && pc < |s.lines|
    ensures line == s.lines[pc]
  {
    RunRecords(linedefined, ops, s);
    line := GetFuncLine(s.info, pc);
  }
}
