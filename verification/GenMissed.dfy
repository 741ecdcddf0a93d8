/**
 Two places where the code does not do what lgc.h describes: a run in which a barrier misses a store, so that a
 minor collection frees an object that can be reached, and a thread that gets black.
 */
module GenMissed {
  import opened GenHeap
  import opened GenMark
  import opened GenMutator
  import opened GenCycle
  import opened GenMinor
  import opened GenRun

  /** The main thread, an old closure and an old table, and a new closed upvalue with a new table. */
  function Start(): State
  {
    State(map[0 := Thread({1, 2, 3, 4}), 1 := Closure({}), 2 := Block({}), 3 := Inline(To(4)), 4 := Block({})],
          map[0 := Gray, 1 := Black, 2 := Black, 3 := White, 4 := White],
          map[0 := Old, 1 := Old, 2 := Old, 3 := New, 4 := New],
          Lists([4, 3, 2, 1, 0], 3, 3, 3, Null), [], [0], 0, {})
  }

  /**
   The closure gets the upvalue, and the forward barrier marks the table in it too; then that table is stored in
   the old one, and as it is not white there is no barrier.  The stack of the thread lets both go.  After a
   collection the upvalue gets another value.  The next collection does not look into the old table, which now
   is the only one to refer to the new one.
   */
  function Ops(): seq<Op>
  {
    [Write(1, {}, To(3), true), Write(2, {}, To(4), false), SetThread(0, {1, 2}), Collect, Write(3, {}, Null, true),
     Collect]
  }

  /** Generational mode was just entered with the thread, the closure and the table. */
  function JustEntered(): State
  {
    State(map[0 := Thread({1, 2}), 1 := Closure({}), 2 := Block({})], map[0 := Gray, 1 := Black, 2 := Black],
          map[0 := Old, 1 := Old, 2 := Old], Lists([2, 1, 0], 3, 3, 3, Null), [], [0], 0, {})
  }

  /** The two new objects were created. */
  function BothMade(): State
  {
    State(map[0 := Thread({1, 2}), 1 := Closure({}), 2 := Block({}), 3 := Inline(Null), 4 := Block({})],
          Start().color, Start().age, Start().lists, [], [0], 0, {})
  }

  lemma EnteredOld()
    ensures var s := JustEntered(); OldState(s.body, s.body.Keys, s)
  {
    EnteredList();
    hide Once, Elems;
    assert JustEntered().body.Keys == {0, 1, 2};
  }

  lemma EnteredList()
    ensures Elems([2, 1, 0]) == {0, 1, 2} && Once([2, 1, 0]) && Once([0])
  {
  }

  lemma TwoCreated()
    ensures var s, a, b := JustEntered(), Create(3, Inline(Null)), Create(4, Block({}));
            Can(s, a) && Can(After(s, a), b) && After(After(s, a), b) == BothMade()
  {
    var s, t := JustEntered(), BothMade();
    assert t.body == s.body[3 := Inline(Null)][4 := Block({})];
    assert t.color == s.color[3 := White][4 := White] && t.age == s.age[3 := New][4 := New];
    assert [4] + ([3] + [2, 1, 0]) == [4, 3, 2, 1, 0];
  }

  lemma ValueSet()
    ensures var s, a, b := BothMade(), Write(3, {}, To(4), true), SetThread(0, {1, 2, 3, 4});
            Can(s, a) && Can(After(s, a), b) && After(After(s, a), b) == Start()
  {
    var s, t := BothMade(), Start();
    assert t.body == s.body[3 := Inline(To(4))][0 := Thread({1, 2, 3, 4})];
    assert !Hit(s, 3, To(4)) && Stored(s.body[3], {}, To(4)) == Inline(To(4));
  }

  /** A program gets to the start: it creates the two new objects, and has all four on its stack. */
  lemma StartReached()
    ensures var s0 := JustEntered();
            && OldState(s0.body, s0.body.Keys, s0)
            && Can(s0, Create(3, Inline(Null))) && var s1 := After(s0, Create(3, Inline(Null)));
               && Can(s1, Create(4, Block({}))) && var s2 := After(s1, Create(4, Block({})));
                  && Can(s2, Write(3, {}, To(4), true)) && var s3 := After(s2, Write(3, {}, To(4), true));
                     Can(s3, SetThread(0, {1, 2, 3, 4})) && After(s3, SetThread(0, {1, 2, 3, 4})) == Start()
  {
    hide *;
    EnteredOld();
    TwoCreated();
    ValueSet();
  }

  // ---- The start ---------------------------------------------------------------------------------------

  /** The start in terms of its objects. */
  ghost predicate IsStart(s: State)
  {
    && s.body.Keys == {0, 1, 2, 3, 4} && s.color.Keys == s.body.Keys && s.age.Keys == s.body.Keys
    && s.body[0] == Thread({1, 2, 3, 4}) && s.body[1] == Closure({}) && s.body[2] == Block({})
    && s.body[3] == Inline(To(4)) && s.body[4] == Block({})
    && s.color[0].Gray? && s.color[1].Black? && s.color[2].Black? && s.color[3].White? && s.color[4].White?
    && s.age[0].Old? && s.age[1].Old? && s.age[2].Old? && s.age[3].New? && s.age[4].New?
    && s.gray == [] && s.again == [0] && s.main == 0 && s.roots == {}
    && s.lists == Lists([4, 3, 2, 1, 0], 3, 3, 3, Null)
  }

  lemma StartColors(s: State)
    requires IsStart(s)
    ensures GraysOk(s.body, s.color, s.age, s.gray, s.again) && ColorsOk(s.body, s.color, s.age, s.gray, s.again)
    ensures YoungWhite(s.color, s.age)
  {
  }

  lemma StartRefs(s: State)
    requires IsStart(s)
    ensures RootsOk(s.body, s.color, s.age, s.main, s.roots) && AgesOk(s.body, s.age) && Closed(s.body, s.body.Keys)
    ensures Tricolor(s.body, s.color, s.age, s.gray, s.again) && NoOldToNew(s.body, s.age)
  {
    hide *;
    StartHas(s);
    StartTricolor(s);
    StartAges(s);
    AgesEnough(s.body, s.age);
  }

  lemma StartHas(s: State)
    requires IsStart(s)
    ensures forall o :: Refs(s.body, o) == if o == 0 then {1, 2, 3, 4} else if o == 3 then {4} else {}
    ensures RootsOk(s.body, s.color, s.age, s.main, s.roots) && Closed(s.body, s.body.Keys)
  {
  }

  lemma StartTricolor(s: State)
    requires IsStart(s)
    requires forall o :: Refs(s.body, o) == if o == 0 then {1, 2, 3, 4} else if o == 3 then {4} else {}
    ensures Tricolor(s.body, s.color, s.age, s.gray, s.again)
  {
    hide Refs;
  }

  lemma StartAges(s: State)
    requires IsStart(s)
    requires forall o :: Refs(s.body, o) == if o == 0 then {1, 2, 3, 4} else if o == 3 then {4} else {}
    ensures AgesOk(s.body, s.age)
  {
    hide Refs;
  }

  lemma StartLists(s: State)
    requires IsStart(s)
    ensures ListOk(s.body, s.age, s.lists)
  {
    assert Elems(s.lists.all) == {0, 1, 2, 3, 4};
    StartParts(s);
    StartFirst(s);
    hide PartsOk, FirstOk, Elems;
  }

  lemma StartParts(s: State)
    requires IsStart(s)
    ensures PartsOk(s.age, s.lists)
  {
    assert s.lists.all[2..] == [2, 1, 0];
    hide IsStart;
  }

  lemma StartFirst(s: State)
    requires IsStart(s)
    ensures FirstOk(s.age, s.lists)
  {
    forall o | o in s.lists.all ensures !AgeOf(s.age, o).Old1? {
    }
  }

  /** All objects can be reached, and the heap is in order. */
  lemma StartInv()
    ensures var s := Start();
            && Inv(s) && AgesOk(s.body, s.age) && YoungWhite(s.color, s.age)
            && Reach(s.body, s.roots + {s.main}) == s.body.Keys
  {
    var s := Start();
    assert IsStart(s);
    StartReach(s);
    hide *;
    StartColors(s);
    StartRefs(s);
    StartLists(s);
    MutFold(s);
    InvFold(s);
  }

  lemma InvFold(s: State)
    requires Traced(s) && NoOldToNew(s.body, s.age)
    ensures Inv(s)
  {
  }

  lemma StartReach(s: State)
    requires IsStart(s)
    ensures Reach(s.body, s.roots + {s.main}) == s.body.Keys
  {
    StartRefs(s);
    assert s.roots + {s.main} == {0} <= s.body.Keys;
    ReachClosed(s.body, {0});
    var r := Reach(s.body, {0});
    assert 0 in r && Refs(s.body, 0) == {1, 2, 3, 4} && Refs(s.body, 0) <= r;
  }

  // ---- The run -----------------------------------------------------------------------------------------

  /** The closure refers to the upvalue, which is marked with the table in it. */
  ghost predicate Joined(s: State)
  {
    && s.body.Keys == {0, 1, 2, 3, 4} && s.color.Keys == s.body.Keys && s.age.Keys == s.body.Keys
    && s.body[0] == Thread({1, 2, 3, 4}) && s.body[1] == Closure({3}) && s.body[2] == Block({})
    && s.body[3] == Inline(To(4)) && s.body[4] == Block({})
    && s.color[0].Gray? && s.color[1].Black? && s.color[2].Black? && s.color[3].Black? && s.color[4].Gray?
    && s.age[0].Old? && s.age[1].Old? && s.age[2].Old? && s.age[3].Old0? && s.age[4].New?
    && s.gray == [4] && s.again == [0] && s.main == 0 && s.roots == {}
  }

  lemma JoinStep(s: State, t: State)
    requires IsStart(s) && Next(s, Write(1, {}, To(3), true), t)
    ensures Joined(t) && Exposing(s, Write(1, {}, To(3), true)) && !Missing(s, Write(1, {}, To(3), true))
  {
    var b := s.body[1 := Closure({3})];
    assert Stored(Closure({}), {}, To(3)) == Closure({3});
    assert t == BarrierForward(s.(body := b), 1, 3);
    assert b[3] == Inline(To(4)) && b[4] == Block({}) && [4] + [] == [4];
    assert ReallyMark(b, s.color[3 := Black], [], 4) == (s.color[3 := Black][4 := Gray], [4]);
    assert ReallyMark(b, s.color, [], 3) == (s.color[3 := Black][4 := Gray], [4]);
  }

  lemma MissStep(s: State, t: State)
    requires Joined(s) && Next(s, Write(2, {}, To(4), false), t)
    ensures Missing(s, Write(2, {}, To(4), false)) && !AgesOk(t.body, t.age)
    ensures t == s.(body := s.body[2 := Block({4})])
  {
    assert Stored(Block({}), {}, To(4)) == Block({4});
    assert !AgesAt(t.body, t.age, 2) by {
      assert 4 in Refs(t.body, 2);
    }
  }

  /** The state before the first collection. */
  ghost predicate Before(s: State)
  {
    && s.body.Keys == {0, 1, 2, 3, 4} && s.color.Keys == s.body.Keys && s.age.Keys == s.body.Keys
    && s.body[0] == Thread({1, 2}) && s.body[1] == Closure({3}) && s.body[2] == Block({4})
    && s.body[3] == Inline(To(4)) && s.body[4] == Block({})
    && s.color[0].Gray? && s.color[1].Black? && s.color[2].Black? && s.color[3].Black? && s.color[4].Gray?
    && s.age[0].Old? && s.age[1].Old? && s.age[2].Old? && s.age[3].Old0? && s.age[4].New?
    && s.gray == [4] && s.again == [0] && s.main == 0 && s.roots == {}
  }

  /** After the first collection the table is young and white. */
  ghost predicate Between(s: State)
  {
    && s.body.Keys == {0, 1, 2, 3, 4} && s.color.Keys == s.body.Keys && s.age.Keys == s.body.Keys
    && s.body[0] == Thread({1, 2}) && s.body[1] == Closure({3}) && s.body[2] == Block({4}) && s.body[3].Inline?
    && s.body[4] == Block({})
    && s.color[0].Gray? && s.color[1].Black? && s.color[2].Black? && s.color[3].Black? && s.color[4].White?
    && s.age[0].Old? && s.age[1].Old? && s.age[2].Old? && s.age[3].Old1? && s.age[4].Survival?
    && s.gray == [] && (forall o :: o in s.again <==> o == 0) && s.main == 0 && s.roots == {}
  }

  lemma BeforeAt(s: State, o: Ref)
    requires Before(s)
    ensures Stays(s.body, s.age, o) <==> o == 0
    ensures o in s.body ==> NextColor(s.body, s.age, o) == if o == 0 then Gray else if o == 4 then White else Black
  {
  }

  lemma FirstCollection(s: State, t: State)
    requires Shape(s) && Before(s) && Next(s, Collect, t)
    ensures Between(t) && t.body[3] == s.body[3]
  {
    var m := {0, 1, 2, 3, 4};
    KeptIs(s);
    KeptAll(s);
    assert Collected(s, m, t);
    CollectedRoots(s, m, t);
    ShapeFields(s);
    assert s.body.Keys == m && t.body.Keys == m && t.color.Keys == m && t.age.Keys == m;
    assert t.gray == [] && t.main == 0 && t.roots == {};
    hide *;
    forall o
      ensures o in t.again <==> o == 0
      ensures o in m ==> t.body[o] == s.body[o] && t.age[o] == NextAge(s.age[o])
                         && t.color[o] == if o == 0 then Gray else if o == 4 then White else Black
    {
      CollectedAt(s, m, t, o);
      BeforeAt(s, o);
    }
    BetweenFold(s, t);
  }

  lemma BetweenFold(s: State, t: State)
    requires Before(s)
    requires t.body.Keys == {0, 1, 2, 3, 4} && t.color.Keys == {0, 1, 2, 3, 4} && t.age.Keys == {0, 1, 2, 3, 4}
    requires forall o :: o in t.body ==> t.body[o] == s.body[o] && t.age[o] == NextAge(s.age[o])
                                         && t.color[o] == if o == 0 then Gray else if o == 4 then White else Black
    requires t.gray == [] && t.main == 0 && t.roots == {} && forall o :: o in t.again <==> o == 0
    ensures Between(t) && t.body[3] == s.body[3]
  {
  }

  lemma KeptAll(s: State)
    requires Shape(s) && Before(s)
    ensures Kept(s) == {0, 1, 2, 3, 4}
  {
    BeforeMarked(s);
    SeenClosed(s);
    var m := {0, 1, 2, 3, 4};
    assert s.roots == {} && s.body.Keys == m && m + {} == m;
    hide Shape, Closed, Reach, Before, Seen;
    ReachClosed(Seen(s), Marked(s.color) + s.roots);
  }

  lemma BeforeMarked(s: State)
    requires Before(s)
    ensures Marked(s.color) == {0, 1, 2, 3, 4}
  {
  }

  lemma SecondCollection(s: State, t: State)
    requires Shape(s) && Between(s) && s.body[3] == Inline(Null) && Next(s, Collect, t)
    ensures 4 in Reach(s.body, s.roots + {s.main}) && 4 !in t.body && 2 in t.body && t.body[2] == Block({4})
  {
    KeptIs(s);
    assert Collected(s, Kept(s), t);
    KeptFew(s);
    StillReached(s);
    ShapeFields(s);
    hide Next, Collected, Shape, Kept, Reach;
    assert Kept(s) <= s.body.Keys;
    CollectedAt(s, Kept(s), t, 4);
    CollectedAt(s, Kept(s), t, 2);
  }

  /** The old table is marked and in no list: the collection does not see its reference. */
  lemma KeptFew(s: State)
    requires Between(s) && s.body[3] == Inline(Null)
    ensures 4 !in Kept(s) && 2 in Marked(s.color) && (2 in Seen(s) ==> 2 in Kept(s))
  {
    var m := {0, 1, 2, 3};
    assert Skipped(s, 1) && Skipped(s, 2);
    assert Refs(Seen(s), 0) == {1, 2} && Refs(Seen(s), 1) == {} && Refs(Seen(s), 2) == {} && Refs(Seen(s), 3) == {};
    assert Marked(s.color) + s.roots == m;
    ReachLeast(Seen(s), m, m);
    assert InAllClosed(Seen(s), m, 2);
  }

  lemma StillReached(s: State)
    requires Shape(s) && Between(s)
    ensures 4 in Reach(s.body, s.roots + {s.main})
  {
    assert s.roots + {s.main} == {0} <= s.body.Keys;
    ShapeFields(s);
    hide Shape;
    ReachClosed(s.body, {0});
    var r := Reach(s.body, {0});
    hide Reach;
    assert Refs(s.body, 0) == {1, 2} && Refs(s.body, 0) <= r && 2 in r;
    assert Refs(s.body, 2) == {4} && Refs(s.body, 2) <= r;
  }

  lemma LetGo(s: State, t: State)
    requires Joined(s.(body := s.body[2 := Block({})])) && 2 in s.body && s.body[2] == Block({4})
    requires Next(s, SetThread(0, {1, 2}), t)
    ensures Before(t)
  {
    assert s.body[2 := Block({})].Keys == s.body.Keys;
  }

  lemma OtherValue(s: State, t: State)
    requires Between(s) && s.body[3] == Inline(To(4)) && Next(s, Write(3, {}, Null, true), t)
    ensures Between(t) && t.body[3] == Inline(Null)
  {
    assert t == s.(body := s.body[3 := Inline(Null)]);
  }

  /** The six steps of such a run. */
  ghost predicate Steps(trace: seq<State>)
  {
    && |trace| == 7 && Inv(trace[0]) && IsStart(trace[0]) && (forall i :: 0 <= i < 6 ==> Shape(trace[i]))
    && Next(trace[0], Write(1, {}, To(3), true), trace[1]) && Next(trace[1], Write(2, {}, To(4), false), trace[2])
    && Next(trace[2], SetThread(0, {1, 2}), trace[3]) && Next(trace[3], Collect, trace[4])
    && Next(trace[4], Write(3, {}, Null, true), trace[5]) && Next(trace[5], Collect, trace[6])
  }

  lemma RunSteps(trace: seq<State>)
    requires IsRun(trace, Ops()) && trace[0] == Start()
    ensures Steps(trace)
  {
    hide *;
    StartInv();
    OpsAre();
    StartIs();
    RunAt(trace, Ops(), 0);
    RunAt(trace, Ops(), 1);
    RunAt(trace, Ops(), 2);
    RunAt(trace, Ops(), 3);
    RunAt(trace, Ops(), 4);
    RunAt(trace, Ops(), 5);
    StepsFold(trace);
  }

  lemma StartIs()
    ensures IsStart(Start())
  {
  }

  lemma StepsFold(trace: seq<State>)
    requires |trace| == 7 && Inv(trace[0]) && IsStart(trace[0]) && (forall i :: 0 <= i < 6 ==> Shape(trace[i]))
    requires Next(trace[0], Write(1, {}, To(3), true), trace[1]) && Next(trace[1], Write(2, {}, To(4), false), trace[2])
    requires Next(trace[2], SetThread(0, {1, 2}), trace[3]) && Next(trace[3], Collect, trace[4])
    requires Next(trace[4], Write(3, {}, Null, true), trace[5]) && Next(trace[5], Collect, trace[6])
    ensures Steps(trace)
  {
    hide Inv, IsStart, Shape, Next;
  }

  lemma StepsAre(trace: seq<State>)
    requires Steps(trace)
    ensures |trace| == 7 && IsStart(trace[0]) && Shape(trace[3]) && Shape(trace[5])
    ensures Next(trace[0], Write(1, {}, To(3), true), trace[1]) && Next(trace[1], Write(2, {}, To(4), false), trace[2])
    ensures Next(trace[2], SetThread(0, {1, 2}), trace[3]) && Next(trace[3], Collect, trace[4])
    ensures Next(trace[4], Write(3, {}, Null, true), trace[5]) && Next(trace[5], Collect, trace[6])
  {
    hide Inv, IsStart, Shape, Next;
  }

  /**
   In every such run all objects can be reached in the beginning, and the last collection frees object 4, which
   can still be reached from the main thread, and to which object 2 still refers.
   */
  lemma ObjectLost(trace: seq<State>)
    requires IsRun(trace, Ops()) && trace[0] == Start()
    ensures |trace| == 7 && Inv(trace[0])
    ensures Reach(trace[0].body, trace[0].roots + {trace[0].main}) == trace[0].body.Keys
    ensures var s, t := trace[5], trace[6];
            4 in Reach(s.body, s.roots + {s.main}) && 4 !in t.body && 2 in t.body && t.body[2] == Block({4})
  {
    hide *;
    StartInv();
    RunSteps(trace);
    StepsAre(trace);
    FirstHalf(trace);
    FirstCollection(trace[3], trace[4]);
    BeforeInline(trace[3]);
    OtherValue(trace[4], trace[5]);
    SecondCollection(trace[5], trace[6]);
  }

  /** Only the second store is missed; it is the barrier of the first one that makes it possible. */
  lemma OneMissed(trace: seq<State>, i: nat)
    requires IsRun(trace, Ops()) && trace[0] == Start() && i < 6
    ensures |trace| == 7 && (Missing(trace[i], Ops()[i]) <==> i == 1) && (Exposing(trace[i], Ops()[i]) <==> i == 0)
  {
    hide *;
    RunSteps(trace);
    OpsAre();
    StepsAre(trace);
    FirstHalf(trace);
    NullKept(trace[4]);
    OthersMiss(trace);
  }

  lemma OpsAre()
    ensures var o := Ops();
            && |o| == 6 && o[0] == Write(1, {}, To(3), true) && o[1] == Write(2, {}, To(4), false)
            && o[2] == SetThread(0, {1, 2}) && o[3] == Collect && o[4] == Write(3, {}, Null, true) && o[5] == Collect
  {
  }

  lemma RunAt(trace: seq<State>, ops: seq<Op>, i: nat)
    requires IsRun(trace, ops) && i < |ops|
    ensures |trace| == |ops| + 1 && Shape(trace[i]) && Next(trace[i], ops[i], trace[i + 1])
  {
  }

  lemma FirstHalf(trace: seq<State>)
    requires |trace| == 7 && IsStart(trace[0]) && Next(trace[0], Write(1, {}, To(3), true), trace[1])
    requires Next(trace[1], Write(2, {}, To(4), false), trace[2]) && Next(trace[2], SetThread(0, {1, 2}), trace[3])
    ensures Before(trace[3])
    ensures Exposing(trace[0], Write(1, {}, To(3), true)) && !Missing(trace[0], Write(1, {}, To(3), true))
    ensures Missing(trace[1], Write(2, {}, To(4), false)) && !Exposing(trace[1], Write(2, {}, To(4), false))
  {
    hide *;
    JoinStep(trace[0], trace[1]);
    MissStep(trace[1], trace[2]);
    MissedPut(trace[1], trace[2]);
    LetGo(trace[2], trace[3]);
  }

  lemma OthersMiss(trace: seq<State>)
    requires |trace| == 7
    ensures !Missing(trace[2], SetThread(0, {1, 2})) && !Exposing(trace[2], SetThread(0, {1, 2}))
    ensures forall s :: !Missing(s, Collect) && !Exposing(s, Collect)
  {
  }

  lemma MissedPut(s: State, t: State)
    requires Joined(s) && t == s.(body := s.body[2 := Block({4})])
    ensures Joined(t.(body := t.body[2 := Block({})])) && 2 in t.body && t.body[2] == Block({4})
    ensures !Exposing(s, Write(2, {}, To(4), false))
  {
    assert t.body[2 := Block({})] == s.body;
  }

  lemma BeforeInline(s: State)
    requires Before(s)
    ensures 3 in s.body && s.body[3] == Inline(To(4))
  {
  }

  lemma NullKept(s: State)
    ensures !Missing(s, Write(3, {}, Null, true)) && !Exposing(s, Write(3, {}, Null, true))
  {
  }

  // ---- The collector does this run ---------------------------------------------------------------------

  lemma ValueShape(s: State, t: State)
    requires Shape(s) && Between(s) && s.body[3] == Inline(To(4)) && Next(s, Write(3, {}, Null, true), t)
    ensures Shape(t)
  {
    assert Writable(s, 3, Null, true);
    WrittenIs(s, 3, {}, Null, true);
    PlainShape(s, 3, Null, s.body[3 := Stored(s.body[3], {}, Null)]);
  }

  lemma CanJoin(s: State)
    requires IsStart(s)
    ensures Can(s, Write(1, {}, To(3), true))
  {
  }

  lemma CanMiss(s: State)
    requires Joined(s)
    ensures Can(s, Write(2, {}, To(4), false))
  {
  }

  lemma CanLetGo(s: State)
    requires Joined(s.(body := s.body[2 := Block({})])) && 2 in s.body && s.body[2] == Block({4})
    ensures Can(s, SetThread(0, {1, 2}))
  {
    assert s.body[2 := Block({})].Keys == s.body.Keys && s.body[2 := Block({})][0] == s.body[0];
  }

  lemma CanCollect(s: State)
    ensures Can(s, Collect)
  {
  }

  lemma CanValue(s: State)
    requires Between(s)
    ensures Can(s, Write(3, {}, Null, true))
  {
  }

  lemma RunFold(trace: seq<State>)
    requires Steps(trace)
    ensures IsRun(trace, Ops())
  {
    OpsAre();
    hide Next, Inv, Shape, IsStart, Ops;
  }

  lemma KeepsShape(s: State, op: Op, t: State)
    requires Traced(s) && Next(s, op, t)
    ensures Shape(t) && (!op.Collect? ==> Traced(t))
  {
    NextKeeps(s, op, t);
    if !op.Collect? { TracedShape(t); }
  }

  /** The three operations before the first collection. */
  method BeforeCollection(g: Collector) returns (ghost trace: seq<State>)
    requires StateOf(g) == Start()
    modifies g
    ensures |trace| == 4 && trace[0] == Start() && trace[3] == StateOf(g) && Before(trace[3]) && Traced(trace[3])
    ensures Inv(trace[0]) && IsStart(trace[0]) && Shape(trace[0]) && Shape(trace[1]) && Shape(trace[2])
    ensures Shape(trace[3])
    ensures Next(trace[0], Write(1, {}, To(3), true), trace[1]) && Next(trace[1], Write(2, {}, To(4), false), trace[2])
    ensures Next(trace[2], SetThread(0, {1, 2}), trace[3])
  {
    hide *;
    ghost var s0 := StateOf(g);
    StartInv();
    StartIs();
    InvParts(s0);
    CanJoin(s0);
    Step(g, Write(1, {}, To(3), true));
    ghost var s1 := StateOf(g);
    JoinStep(s0, s1);
    KeepsShape(s0, Write(1, {}, To(3), true), s1);
    CanMiss(s1);
    Step(g, Write(2, {}, To(4), false));
    ghost var s2 := StateOf(g);
    MissStep(s1, s2);
    MissedPut(s1, s2);
    KeepsShape(s1, Write(2, {}, To(4), false), s2);
    CanLetGo(s2);
    Step(g, SetThread(0, {1, 2}));
    ghost var s3 := StateOf(g);
    LetGo(s2, s3);
    KeepsShape(s2, SetThread(0, {1, 2}), s3);
    trace := [s0, s1, s2, s3];
  }

  method LoseObject() returns (g: Collector, ghost trace: seq<State>)
    ensures fresh(g) && IsRun(trace, Ops()) && trace[0] == Start() && trace[6] == StateOf(g)
  {
    hide *;
    g := new Collector(Start());
    trace := BeforeCollection(g);
    ghost var s3 := StateOf(g);
    CanCollect(s3);
    BeforeInline(s3);
    Step(g, Collect);
    ghost var s4 := StateOf(g);
    FirstCollection(s3, s4);
    KeepsShape(s3, Collect, s4);
    CanValue(s4);
    Step(g, Write(3, {}, Null, true));
    ghost var s5 := StateOf(g);
    ValueShape(s4, s5);
    CanCollect(s5);
    Step(g, Collect);
    trace := trace + [s4, s5, StateOf(g)];
    StepsFold(trace);
    RunFold(trace);
    LastOf(trace);
  }

  lemma LastOf(trace: seq<State>)
    requires Steps(trace)
    ensures |trace| == 7
  {
  }

  // ---- A black thread ----------------------------------------------------------------------------------

  /** The main thread and another one, which survived a collection. */
  ghost predicate TwoThreads(s: State)
  {
    && s.body.Keys == {0, 1} && s.color.Keys == {0, 1} && s.age.Keys == {0, 1}
    && s.body[0] == Thread({1}) && s.body[1] == Thread({}) && s.color[0].Gray? && s.color[1].White?
    && s.age[0].Old? && s.age[1].Survival? && s.gray == [] && s.again == [0] && s.main == 0 && s.roots == {}
    && s.lists == Lists([1, 0], 2, 1, 1, Null)
  }

  lemma TwoThreadsInv(s: State)
    requires TwoThreads(s)
    ensures Inv(s) && AgesOk(s.body, s.age) && YoungWhite(s.color, s.age)
  {
    assert forall o :: Refs(s.body, o) == if o == 0 then {1} else {};
    assert RootsOk(s.body, s.color, s.age, s.main, s.roots) && Closed(s.body, s.body.Keys);
    TwoLists(s);
    TwoColors(s);
    assert Tricolor(s.body, s.color, s.age, s.gray, s.again) && NoOldToNew(s.body, s.age);
    hide ListOk, RootsOk, Closed, GraysOk, ColorsOk, Tricolor, NoOldToNew;
  }

  lemma TwoColors(s: State)
    requires TwoThreads(s)
    ensures GraysOk(s.body, s.color, s.age, s.gray, s.again) && ColorsOk(s.body, s.color, s.age, s.gray, s.again)
  {
  }

  lemma TwoLists(s: State)
    requires TwoThreads(s)
    ensures ListOk(s.body, s.age, s.lists)
  {
    var l := s.lists;
    assert Elems(l.all) == {0, 1};
    TwoThreadParts(s);
    assert AgeOf(s.age, 0).Old? && AgeOf(s.age, 1).Survival?;
    hide TwoThreads, PartsOk, Elems, AgeOf;
  }

  lemma TwoThreadParts(s: State)
    requires TwoThreads(s)
    ensures PartsOk(s.age, s.lists)
  {
    var l := s.lists;
    assert l.all[1..] == [0] && l.all[0..] == [1, 0] && AgeOf(s.age, 0).Old? && AgeOf(s.age, 1).Survival?;
    hide TwoThreads, AgeOf;
  }

  /** The thread that survives again gets old and black, in no list, although threads have no barriers. */
  lemma BlackThread(s: State, t: State)
    requires TwoThreads(s) && Next(s, Collect, t)
    ensures Inv(s) && Inv(t) && 1 in t.color && 1 in t.age && t.color[1].Black? && t.age[1].Old1? && 1 !in t.again
  {
    hide *;
    TwoThreadsInv(s);
    InvParts(s);
    TwoThreadsHave(s);
    NextKeeps(s, Collect, t);
    KeptIs(s);
    KeptReach(s);
    NotMissing(s, Collect);
    ThreadKept(s, t);
    ThreadColor(s, Kept(s), t, 1);
  }

  lemma TwoThreadsHave(s: State)
    requires TwoThreads(s)
    ensures IsThread(s.body, 1) && 0 in Marked(s.color)
  {
  }

  lemma ThreadKept(s: State, t: State)
    requires TwoThreads(s) && LiveSet(s, Kept(s)) && Closed(s.body, Kept(s)) && Next(s, Collect, t)
    ensures 1 in Kept(s) && Collected(s, Kept(s), t) && 1 in s.age && s.age[1].Survival?
  {
    assert 0 in Kept(s) && Refs(s.body, 0) == {1};
  }
}
