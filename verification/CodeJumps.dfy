/**
 Jump lists (lcode.c): pending jumps are threaded through their own operands, to be patched when their
 destination is known.
 */
module CodeJumps {
  import opened CodeMachine

  /** The state of the compiler for a function, as far as conditional expressions need it. */
  class FuncState {
    var code: seq<Instr>
    var lasttarget: nat
    var freereg: nat
    var nvar: nat        // luaY_nvarstack: registers below are local variables

    constructor (nvar: nat)
      ensures code == [] && lasttarget == 0 && freereg == nvar && this.nvar == nvar
    {
      code, lasttarget, freereg, this.nvar := [], 0, nvar, nvar;
    }
  }

  // ---- The lists -------------------------------------------------------------------------------------

  /** getjump: the next jump in a list; a jump to itself ends the list. */
  function GetJump(c: seq<Instr>, pc: nat): int
    requires pc < |c| && c[pc].Jmp?
  {
    if c[pc].sj == NO_JUMP then NO_JUMP else Target(c, pc)
  }

  function ElementAt(l: seq<nat>, i: nat): int
  {
    if i < |l| then l[i] else NO_JUMP
  }

  /** The elements of the list that begins at 'head' are those of 'l', all different. */
  ghost predicate ListIs(c: seq<Instr>, head: int, l: seq<nat>)
  {
    && head == ElementAt(l, 0)
    && (forall i :: 0 <= i < |l| ==> l[i] < |c| && c[l[i]].Jmp?)
    && (forall i {:trigger GetJump(c, l[i])} :: 0 <= i < |l| ==> GetJump(c, l[i]) == ElementAt(l, i + 1))
    && (forall i, j :: 0 <= i < j < |l| ==> l[i] != l[j])
  }

  /** Code that only differs out of the list has the same list. */
  lemma SameList(c: seq<Instr>, c': seq<Instr>, head: int, l: seq<nat>)
    requires ListIs(c, head, l) && forall j :: j in l ==> j < |c'| && c'[j] == c[j]
    ensures ListIs(c', head, l)
  {
    forall i | 0 <= i < |l| ensures l[i] < |c'| && c'[l[i]].Jmp? && GetJump(c', l[i]) == ElementAt(l, i + 1) {
      assert l[i] in l && GetJump(c, l[i]) == ElementAt(l, i + 1);
    }
  }

  /** fixjump */
  method FixJump(fs: FuncState, pc: nat, dest: nat)
    requires pc < |fs.code| && fs.code[pc].Jmp?
    modifies fs`code
    ensures fs.code == old(fs.code)[pc := LinkTo(pc, dest)]
    ensures fs.code[pc].Jmp? && Target(fs.code, pc) == dest
  {
    fs.code := fs.code[pc := LinkTo(pc, dest)];
  }

  /** The jump at 'pc' that goes to 'dest'. */
  function LinkTo(pc: int, dest: int): Instr
  {
    Jmp(dest - (pc + 1))
  }

  /** The code with the last jump of 'l1' linked to the list of 'l2'. */
  function Linked(c: seq<Instr>, l1: seq<nat>, l2: seq<nat>): seq<Instr>
  {
    if l1 == [] || l2 == [] || l1[|l1| - 1] >= |c| then c else c[l1[|l1| - 1] := LinkTo(l1[|l1| - 1], l2[0])]
  }

  lemma LinkedList(c: seq<Instr>, h1: int, l1: seq<nat>, h2: int, l2: seq<nat>)
    requires ListIs(c, h1, l1) && ListIs(c, h2, l2) && forall j :: j in l1 ==> j !in l2
    ensures ListIs(Linked(c, l1, l2), if l1 == [] then h2 else h1, l1 + l2)
  {
    if l1 != [] && l2 != [] {
      var c', l, z := Linked(c, l1, l2), l1 + l2, l1[|l1| - 1];
      assert z in l1;
      forall i | 0 <= i < |l|
        ensures l[i] < |c'| && c'[l[i]].Jmp? && GetJump(c', l[i]) == ElementAt(l, i + 1)
      {
        if i >= |l1| {
          assert l[i] == l2[i - |l1|] && l[i] in l2;
          assert GetJump(c, l2[i - |l1|]) == ElementAt(l2, i - |l1| + 1);
        } else if i == |l1| - 1 {
          assert l2[0] in l2;
        } else {
          assert GetJump(c, l1[i]) == ElementAt(l1, i + 1);
        }
      }
      forall i, j | 0 <= i < j < |l| ensures l[i] != l[j] {
        if i < |l1| <= j { assert l[i] in l1 && l[j] in l2; }
      }
    } else if l1 == [] {
      assert l1 + l2 == l2;
    } else {
      assert l1 + l2 == l1;
    }
  }

  /** luaK_concat: walks to the end of the first list and links it to the second one. */
  method Concat(fs: FuncState, h1: int, h2: int, ghost l1: seq<nat>, ghost l2: seq<nat>) returns (h: int)
    requires ListIs(fs.code, h1, l1) && ListIs(fs.code, h2, l2) && forall j :: j in l1 ==> j !in l2
    modifies fs`code
    ensures ListIs(fs.code, h, l1 + l2) && (l1 != [] && l2 != [] ==> l1[|l1| - 1] < |old(fs.code)|)
    ensures fs.code == Linked(old(fs.code), l1, l2)
  {
    LinkedList(fs.code, h1, l1, h2, l2);
    if h2 == NO_JUMP {
      h := h1;
      assert l1 + l2 == l1;
    } else if h1 == NO_JUMP {
      h := h2;
    } else {
      var list := h1;
      ghost var i := 0;
      while GetJump(fs.code, list) != NO_JUMP
        invariant 0 <= i < |l1| && list == l1[i] && fs.code == old(fs.code)
        decreases |l1| - i
      {
        list := GetJump(fs.code, list);
        i := i + 1;
      }
      FixJump(fs, list, h2);
      h := h1;
    }
  }

  // ---- Patching --------------------------------------------------------------------------------------

  /** getjumpcontrol: the test that controls a jump, or the jump itself. */
  function Control(c: seq<Instr>, pc: nat): nat
    requires pc < |c|
  {
    if pc >= 1 && IsTest(c[pc - 1]) then pc - 1 else pc
  }

  /** Whether the jump comes from a test that can produce a value. */
  predicate HasValueTest(c: seq<Instr>, j: nat)
    requires j < |c|
  {
    c[Control(c, j)].TestSet?
  }

  /** What patchtestreg makes of a TESTSET. */
  function PatchedTest(i: Instr, reg: int): Instr
    requires i.TestSet?
  {
    if reg != NO_REG && reg != i.b then TestSet(reg, i.b, i.k) else Test(i.b, i.k)
  }

  /** patchtestreg: whether the jump has a TESTSET, which gets the register, or loses it. */
  method PatchTestReg(fs: FuncState, node: nat, reg: int) returns (b: bool)
    requires node < |fs.code| && fs.code[node].Jmp?
    modifies fs`code
    ensures b == HasValueTest(old(fs.code), node)
    ensures fs.code == if b then old(fs.code)[node - 1 := PatchedTest(old(fs.code[node - 1]), reg)] else old(fs.code)
  {
    var i := Control(fs.code, node);
    if !fs.code[i].TestSet? {
      return false;
    }
    if reg != NO_REG && reg != fs.code[i].b {
      fs.code := fs.code[i := fs.code[i].(ra := reg)];
    } else {
      fs.code := fs.code[i := Test(fs.code[i].b, fs.code[i].k)];
    }
    return true;
  }

  /** All the jumps of a list are preceded by their tests, which are no part of the list. */
  ghost predicate Jumps(c: seq<Instr>, l: seq<nat>)
  {
    && (forall j :: j in l ==> j < |c| && c[j].Jmp?)
    && (forall i, j :: 0 <= i < j < |l| ==> l[i] != l[j])
  }

  /** What one position of the code becomes when the jumps of 'l' are patched. */
  function PatchedAt(c: seq<Instr>, l: seq<nat>, vtarget: int, reg: int, dtarget: int, i: nat): Instr
    requires i < |c|
  {
    if i in l then LinkTo(i, if HasValueTest(c, i) then vtarget else dtarget)
    else if i + 1 < |c| && i + 1 in l && c[i].TestSet? then PatchedTest(c[i], reg)
    else c[i]
  }

  ghost predicate PatchedAll(c: seq<Instr>, l: seq<nat>, vtarget: int, reg: int, dtarget: int, c': seq<Instr>)
  {
    |c'| == |c| && forall i :: 0 <= i < |c| ==> c'[i] == PatchedAt(c, l, vtarget, reg, dtarget, i)
  }

  lemma PatchNext(c: seq<Instr>, l: seq<nat>, n: nat, vtarget: int, reg: int, dtarget: int, c1: seq<Instr>,
          c2: seq<Instr>)
    requires Jumps(c, l) && n < |l| && PatchedAll(c, l[..n], vtarget, reg, dtarget, c1) && l[n] < |c1|
    requires var j := l[n]; var v := HasValueTest(c1, j);
             var c0 := if v then c1[j - 1 := PatchedTest(c1[j - 1], reg)] else c1;
             c2 == c0[j := LinkTo(j, if v then vtarget else dtarget)]
    ensures PatchedAll(c, l[..n + 1], vtarget, reg, dtarget, c2)
    ensures HasValueTest(c1, l[n]) == HasValueTest(c, l[n])
  {
    var j := l[n];
    assert j in l && l[..n + 1] == l[..n] + [j];
    assert j !in l[..n];
    forall i | i in l[..n] ensures i != j && i in l {}
    if j >= 1 {
      assert c1[j - 1] == PatchedAt(c, l[..n], vtarget, reg, dtarget, j - 1);
      assert IsTest(c[j - 1]) ==> !(j - 1 in l);
    }
    forall i | 0 <= i < |c| ensures c2[i] == PatchedAt(c, l[..n + 1], vtarget, reg, dtarget, i) {
      assert c1[i] == PatchedAt(c, l[..n], vtarget, reg, dtarget, i);
    }
  }

  /** The links of the jumps not patched yet are still there. */
  lemma NextLink(c: seq<Instr>, head: int, l: seq<nat>, n: nat, vtarget: int, reg: int, dtarget: int, c1: seq<Instr>)
    requires ListIs(c, head, l) && n < |l| && PatchedAll(c, l[..n], vtarget, reg, dtarget, c1)
    ensures l[n] < |c1| && c1[l[n]] == c[l[n]] && c[l[n]].Jmp? && GetJump(c, l[n]) == ElementAt(l, n + 1)
  {
    assert l[n] !in l[..n];
    assert c1[l[n]] == PatchedAt(c, l[..n], vtarget, reg, dtarget, l[n]);
  }

  lemma ListJumps(c: seq<Instr>, head: int, l: seq<nat>)
    requires ListIs(c, head, l)
    ensures Jumps(c, l)
  {
  }

  /**
   patchlistaux: jumps whose tests produce a value go to 'vtarget', with the value put in 'reg'; the
   others go to 'dtarget'.
   */
  method PatchListAux(fs: FuncState, head: int, vtarget: nat, reg: int, dtarget: int, ghost l: seq<nat>)
    requires ListIs(fs.code, head, l)
    requires dtarget < 0 ==> forall j :: j in l && j < |fs.code| ==> HasValueTest(fs.code, j)
    modifies fs`code
    ensures PatchedAll(old(fs.code), l, vtarget, reg, dtarget, fs.code)
  {
    ghost var c := fs.code;
    ListJumps(c, head, l);
    var list := head;
    ghost var n := 0;
    while list != NO_JUMP
      invariant 0 <= n <= |l| && list == ElementAt(l, n)
      invariant PatchedAll(c, l[..n], vtarget, reg, dtarget, fs.code)
      decreases |l| - n
    {
      ghost var c1 := fs.code;
      NextLink(c, head, l, n, vtarget, reg, dtarget, c1);
      assert l[n] in l;
      var next := GetJump(fs.code, list);
      var v := PatchTestReg(fs, list, reg);
      PatchNext(c, l, n, vtarget, reg, dtarget, c1,
                (if v then c1[list - 1 := PatchedTest(c1[list - 1], reg)]
                 else c1)[list := LinkTo(list, if v then vtarget else dtarget)]);
      if v {
        FixJump(fs, list, vtarget);
      } else {
        FixJump(fs, list, dtarget);
      }
      list := next;
      n := n + 1;
    }
    assert l[..n] == l;
  }

  function ValueRemovedAt(c: seq<Instr>, l: seq<nat>, i: nat): Instr
    requires i < |c|
  {
    if i + 1 < |c| && i + 1 in l && c[i].TestSet? then Test(c[i].b, c[i].k) else c[i]
  }

  /** What removevalues makes of the code. */
  ghost predicate ValuesRemoved(c: seq<Instr>, l: seq<nat>, c': seq<Instr>)
  {
    |c'| == |c| && forall i :: 0 <= i < |c| ==> c'[i] == ValueRemovedAt(c, l, i)
  }

  lemma RemoveNext(c: seq<Instr>, head: int, l: seq<nat>, n: nat, c1: seq<Instr>, c2: seq<Instr>)
    requires ListIs(c, head, l) && n < |l| && ValuesRemoved(c, l[..n], c1) && l[n] < |c1|
    requires c2 == if HasValueTest(c1, l[n]) then c1[l[n] - 1 := PatchedTest(c1[l[n] - 1], NO_REG)] else c1
    ensures ValuesRemoved(c, l[..n + 1], c2) && c2[l[n]] == c[l[n]]
  {
    hide ListIs;
    var j := l[n];
    ListAt(c, head, l, n);
    assert c1[j] == ValueRemovedAt(c, l[..n], j);
    if j >= 1 {
      assert c1[j - 1] == ValueRemovedAt(c, l[..n], j - 1);
    }
    forall i | 0 <= i < |c| ensures c2[i] == ValueRemovedAt(c, l[..n + 1], i) {
      assert c1[i] == ValueRemovedAt(c, l[..n], i);
      assert i + 1 in l[..n + 1] <==> i + 1 in l[..n] || i + 1 == j;
    }
  }

  lemma ListAt(c: seq<Instr>, head: int, l: seq<nat>, n: nat)
    requires ListIs(c, head, l) && n < |l|
    ensures l[n] < |c| && c[l[n]].Jmp? && l[n] !in l[..n]
    ensures forall x :: x in l[..n + 1] <==> x in l[..n] || x == l[n]
  {
    assert l[..n + 1] == l[..n] + [l[n]];
  }

  lemma RemovedList(c: seq<Instr>, head: int, l: seq<nat>, c': seq<Instr>)
    requires ListIs(c, head, l) && ValuesRemoved(c, l, c')
    ensures ListIs(c', head, l)
  {
    forall j | j in l ensures j < |c'| && c'[j] == c[j] {
      assert c'[j] == ValueRemovedAt(c, l, j);
    }
    SameList(c, c', head, l);
  }

  lemma UnremovedNext(c: seq<Instr>, head: int, l: seq<nat>, n: nat, c1: seq<Instr>)
    requires ListIs(c, head, l) && n < |l| && ValuesRemoved(c, l[..n], c1)
    ensures l[n] < |c1| && c1[l[n]] == c[l[n]] && c[l[n]].Jmp? && GetJump(c, l[n]) == ElementAt(l, n + 1)
  {
    assert c1[l[n]] == ValueRemovedAt(c, l[..n], l[n]);
  }

  /** removevalues: no test of the list produces a value any more. */
  method RemoveValues(fs: FuncState, head: int, ghost l: seq<nat>)
    requires ListIs(fs.code, head, l)
    modifies fs`code
    ensures ValuesRemoved(old(fs.code), l, fs.code) && ListIs(fs.code, head, l)
  {
    hide ListIs, ValuesRemoved;
    ghost var c := fs.code;
    ListHead(c, head, l);
    NoneRemoved(c, l);
    var list := head;
    ghost var n := 0;
    while list != NO_JUMP
      invariant 0 <= n <= |l| && list == ElementAt(l, n)
      invariant ValuesRemoved(c, l[..n], fs.code)
      decreases |l| - n
    {
      ghost var c1 := fs.code;
      UnremovedNext(c, head, l, n, c1);
      var v := PatchTestReg(fs, list, NO_REG);
      RemoveNext(c, head, l, n, c1, fs.code);
      list := GetJump(fs.code, list);
      n := n + 1;
    }
    assert l[..n] == l;
    RemovedList(c, head, l, fs.code);
  }

  lemma ListHead(c: seq<Instr>, head: int, l: seq<nat>)
    requires ListIs(c, head, l)
    ensures head == ElementAt(l, 0)
  {
  }

  lemma NoneRemoved(c: seq<Instr>, l: seq<nat>)
    ensures ValuesRemoved(c, l[..0], c)
  {
  }

  /** need_value: whether some jump of the list does not produce a value. */
  method NeedValue(fs: FuncState, head: int, ghost l: seq<nat>) returns (b: bool)
    requires ListIs(fs.code, head, l)
    ensures b <==> exists j :: j in l && j < |fs.code| && !HasValueTest(fs.code, j)
  {
    var list := head;
    ghost var n := 0;
    while list != NO_JUMP
      invariant 0 <= n <= |l| && list == ElementAt(l, n)
      invariant forall i :: 0 <= i < n ==> HasValueTest(fs.code, l[i])
      decreases |l| - n
    {
      assert l[n] in l;
      if !fs.code[Control(fs.code, list)].TestSet? {
        return true;
      }
      list := GetJump(fs.code, list);
      n := n + 1;
    }
    return false;
  }
}
