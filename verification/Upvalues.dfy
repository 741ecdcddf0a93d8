/**
 The stack of a thread (lfunc.c, ldo.c): open upvalues, to-be-closed variables, and what happens to both
 when upvalues are closed, when errors unwind the stack, and when the stack moves.
 */
module Upvalues {
  import opened TbcList
  import opened UpvalueList

  datatype CallInfo = CallInfo(func: Place, top: Place)

  const EXTRA_STACK: nat := 5

  function DeltasOf(s: seq<StackValue>): Deltas
  {
    seq(|s|, i requires 0 <= i < |s| => s[i].delta)
  }

  /** The value that is read through an upvalue, with the stack 's'. */
  function ValueOf(m: Memory, u: nat, s: seq<StackValue>): Value
  {
    if u !in m then Nil
    else if m[u].v.At? && m[u].v.i < |s| then s[m[u].v.i].val
    else m[u].value
  }

  /** Upvalues that are not in the list have their own values. */
  ghost predicate ClosedOwn(m: Memory, o: seq<nat>, n: nat)
  {
    forall u :: u in m ==> u < n && (u !in o ==> m[u].v == Own)
  }

  ghost predicate UpOk(m: Memory, head: Ref, o: seq<nat>, block: Block, n: nat)
  {
    Linked(m, head, o) && Descends(m, o, block) && ClosedOwn(m, o, n)
  }

  class LuaThread {
    var stack: Block
    var top: Place
    var tbclist: Place
    var cis: seq<CallInfo>
    var openupval: Ref
    var uvs: Memory
    var nuvs: nat
    ghost var open: seq<nat>
    ghost var levels: seq<nat>

    ghost predicate TbcOk()
      reads `stack, `tbclist, `levels, stack
    {
      Inside(tbclist, stack) && IsList(DeltasOf(stack[..]), tbclist.i, levels)
    }

    ghost predicate PointersOk()
      reads `stack, `top, `cis
    {
      Inside(top, stack) && forall c :: c in cis ==> Inside(c.func, stack) && Inside(c.top, stack)
    }

    ghost predicate Valid()
      reads this, stack
    {
      UpOk(uvs, openupval, open, stack, nuvs) && TbcOk() && PointersOk()
    }

    // ---- Open upvalues -------------------------------------------------------------------------------

    /** The search of luaF_findupval: the upvalue for the slot, or the place for a new one. */
    method Search(level: nat) returns (found: Ref, pp: Link, ghost k: nat)
      requires Linked(uvs, openupval, open) && Descends(uvs, open, stack)
      ensures found.To? ==> found.uv in open && found.uv in uvs && uvs[found.uv].v == At(stack, level)
      ensures found.Null? ==> k <= |open| && pp == ListPrev(open, k)
      ensures found.Null? ==> (forall i :: 0 <= i < k ==> Level(uvs, open[i]) > level)
                              && (forall i :: k <= i < |open| ==> Level(uvs, open[i]) < level)
    {
      hide Linked, Descends, Level, Inside, ListPrev;
      var p := openupval;
      pp, k := Head, 0;
      LinkedHead(uvs, openupval, open);
      PrevStep(open);
      while p.To? && Level(uvs, p.uv) >= level
        invariant k <= |open| && pp == ListPrev(open, k) && p == (if k < |open| then To(open[k]) else Null)
        invariant forall i :: 0 <= i < k ==> Level(uvs, open[i]) > level
        decreases |open| - k
      {
        ElementIs(uvs, openupval, open, stack, k);
        if Level(uvs, p.uv) == level {
          return p, pp, k;
        }
        pp := NextOf(p.uv);
        p := uvs[p.uv].next;
        k := k + 1;
      }
      found := Null;
      if k < |open| { ElementIs(uvs, openupval, open, stack, k); }
    }

    /** newupval: the new upvalue takes the place of what 'prev' points to, which comes after it. */
    method NewUpVal(level: nat, prev: Link) returns (uv: nat)
      requires prev.NextOf? ==> prev.prev in uvs && prev.prev != nuvs
      requires var next := Follow(uvs, openupval, prev); next.To? ==> next.uv in uvs
      modifies `uvs, `nuvs, `openupval
      ensures uv == old(nuvs) && nuvs == uv + 1
      ensures uvs == LinkedIn(old(uvs), uv, At(stack, level), prev, Follow(old(uvs), old(openupval), prev))
      ensures openupval == HeadAfter(old(openupval), prev, To(uv))
    {
      uv := nuvs;
      nuvs := nuvs + 1;
      var next := if prev.Head? then openupval else uvs[prev.prev].next;
      uvs := uvs[uv := UpVal(At(stack, level), next, prev, Nil)];
      if next.To? {
        uvs := uvs[next.uv := uvs[next.uv].(previous := NextOf(uv))];
      }
      if prev.Head? {
        openupval := To(uv);
      } else {
        uvs := uvs[prev.prev := uvs[prev.prev].(next := To(uv))];
      }
    }

    /** luaF_findupval: the upvalue for a slot, which is the same one as long as it is open. */
    method FindUpVal(level: nat) returns (uv: nat)
      requires Valid() && level < stack.Length
      modifies `uvs, `nuvs, `openupval, `open
      ensures Valid() && uv in open && uv in uvs && uvs[uv].v == At(stack, level)
      ensures uv in old(open) ==> open == old(open) && uvs == old(uvs)
      ensures uvs.Keys == old(uvs.Keys) + {uv}
      ensures uv !in old(open) ==>
          uv !in old(uvs) && (forall u :: u in old(open) && u in old(uvs) ==> old(uvs)[u].v != At(stack, level))
      ensures forall u :: u in old(uvs) ==> u in uvs && uvs[u].v == old(uvs)[u].v && uvs[u].value == old(uvs)[u].value
    {
      hide TbcOk, PointersOk, UpOk, Linked, Descends, ListPrev, LinkedIn, HeadAfter, With, Follow;
      UpParts(uvs, openupval, open, stack, nuvs);
      var found, pp, k := Search(level);
      if found.To? {
        return found.uv;
      }
      ghost var m, o := uvs, open;
      NewPlace(m, openupval, o, stack, nuvs, level, pp, k);
      uv := NewUpVal(level, pp);
      open := With(open, uv, k);
    }

    /** luaF_unlinkupval */
    method UnlinkUpVal(uv: nat)
      requires uv in uvs && (uvs[uv].previous.NextOf? ==> uvs[uv].previous.prev in uvs)
      requires (uvs[uv].next.To? ==> uvs[uv].next.uv in uvs)
      modifies `uvs, `openupval
      ensures uvs == LinkedOut(old(uvs), uv)
      ensures openupval == HeadAfter(old(openupval), old(uvs)[uv].previous, old(uvs)[uv].next)
    {
      var previous, next := uvs[uv].previous, uvs[uv].next;
      if previous.Head? {
        openupval := next;
      } else {
        uvs := uvs[previous.prev := uvs[previous.prev].(next := next)];
      }
      if next.To? {
        uvs := uvs[next.uv := uvs[next.uv].(previous := previous)];
      }
    }

    /** The first open upvalue leaves the list with its value. */
    method CloseFirst(uv: nat)
      requires openupval == To(uv) && open != [] && UpOk(uvs, openupval, open, stack, nuvs)
      modifies `uvs, `openupval, `open
      ensures UpOk(uvs, openupval, open, stack, nuvs) && uv == old(open)[0] && open == old(open)[1..]
      ensures SameValues(old(uvs), uvs, stack[..]) && uv in uvs && uvs[uv].v == Own
      ensures forall u :: u in old(uvs) && u != uv ==> uvs[u].v == old(uvs)[u].v
    {
      hide UpOk, LinkedOut, SameValues, HeadAfter;
      ghost var m := uvs;
      FirstFacts(uvs, openupval, open, stack, nuvs, uv);
      FirstCloses(uvs, openupval, open, stack, nuvs);
      UnlinkUpVal(uv);
      assert uvs == LinkedOut(m, uv);
      var value := uvs[uv].v.block[uvs[uv].v.i].val;
      assert value == stack[..][m[uv].v.i].val;
      uvs := uvs[uv := uvs[uv].(value := value, v := Own)];
      open := open[1..];
    }

    /** luaF_closeupval: upvalues at or above the level are closed, and all upvalues keep their values. */
    method CloseUpVal(level: nat)
      requires Valid()
      modifies `uvs, `openupval, `open
      ensures Valid() && SameValues(old(uvs), uvs, stack[..]) && OpenBelow(uvs, level)
      ensures forall u :: u in old(uvs) ==>
          u in uvs && uvs[u].v == if old(uvs)[u].v.At? && old(uvs)[u].v.i >= level then Own else old(uvs)[u].v
    {
      hide TbcOk, PointersOk, UpOk, SameValues;
      ghost var m := uvs;
      SameRefl(m, stack[..]);
      while openupval.To? && Level(uvs, openupval.uv) >= level
        invariant UpOk(uvs, openupval, open, stack, nuvs) && SameValues(m, uvs, stack[..]) && TbcOk() && PointersOk()
        invariant forall u :: u in m ==>
            u in uvs && (uvs[u].v == m[u].v || (uvs[u].v == Own && m[u].v.At? && m[u].v.i >= level))
        decreases |open|
      {
        ghost var m1 := uvs;
        HeadOpen(uvs, openupval, open, stack, nuvs);
        CloseFirst(openupval.uv);
        SameTrans(m, m1, uvs, stack[..]);
      }
      RestBelow(uvs, openupval, open, stack, nuvs, level);
    }

    // ---- Moving the stack ----------------------------------------------------------------------------

    /** relstack: all pointers to the stack become offsets. */
    method RelStack()
      requires Linked(uvs, openupval, open) && PointersOk() && Inside(tbclist, stack)
      modifies `top, `tbclist, `uvs, `cis
      ensures uvs == Moved(old(uvs), Elems(open), Offset(0)) && Linked(uvs, openupval, open)
      ensures top == Offset(old(top).i) && tbclist == Offset(old(tbclist).i) && cis == MovedCis(old(cis), Offset(0))
    {
      hide Linked, Moved;
      top, tbclist := Offset(top.i), Offset(tbclist.i);
      MoveUpvalues(Offset(0));
      MoveCallInfos(Offset(0));
    }

    /** The loop over the active calls. */
    method MoveCallInfos(like: Place)
      modifies `cis
      ensures cis == MovedCis(old(cis), like)
    {
      ghost var cis0 := cis;
      var k := 0;
      while k < |cis|
        invariant 0 <= k <= |cis| == |cis0|
        invariant forall j :: 0 <= j < k ==> cis[j] == MovedCi(cis0[j], like)
        invariant forall j :: k <= j < |cis| ==> cis[j] == cis0[j]
      {
        cis := cis[k := CallInfo(MovePlace(cis[k].func, like), MovePlace(cis[k].top, like))];
        k := k + 1;
      }
    }

    /** The loop over the open upvalues, in relstack and in correctstack. */
    method MoveUpvalues(like: Place)
      requires Linked(uvs, openupval, open)
      modifies `uvs
      ensures uvs == Moved(old(uvs), Elems(open), like) && Linked(uvs, openupval, open)
    {
      hide Linked, Moved;
      ghost var m := uvs;
      ghost var k := 0;
      MovedNone(m, like);
      LinkedHead(m, openupval, open);
      var up := openupval;
      while up.To?
        invariant k <= |open| && up == (if k < |open| then To(open[k]) else Null)
        invariant uvs == Moved(m, Elems(open[..k]), like)
        decreases |open| - k
      {
        MovedNext(m, openupval, open, k, like);
        uvs := uvs[up.uv := uvs[up.uv].(v := MovePlace(uvs[up.uv].v, like))];
        up := uvs[up.uv].next;
        k := k + 1;
      }
      assert open[..k] == open;
      MovedLinks(m, openupval, open, Elems(open), like);
    }

    /** correctstack: all offsets become pointers to the new stack. */
    method CorrectStack()
      requires Linked(uvs, openupval, open) && top.Offset? && tbclist.Offset?
      modifies `top, `tbclist, `uvs, `cis
      ensures uvs == Moved(old(uvs), Elems(open), At(stack, 0)) && Linked(uvs, openupval, open)
      ensures top == At(stack, old(top).off) && tbclist == At(stack, old(tbclist).off)
      ensures cis == MovedCis(old(cis), At(stack, 0))
    {
      hide Linked, Moved;
      top, tbclist := At(stack, top.off), At(stack, tbclist.off);
      MoveUpvalues(At(stack, 0));
      MoveCallInfos(At(stack, 0));
    }

    /** All that is in use fits in a stack of that length. */
    ghost predicate Fits(length: nat)
      reads this
    {
      && top.At? && top.i < length && tbclist.At? && tbclist.i < length
      && (forall c :: c in cis ==> c.func.At? && c.func.i < length && c.top.At? && c.top.i < length)
      && (forall u :: u in open ==> Level(uvs, u) < length)
    }

    /** luaM_reallocvector: a new block with the contents of the old one; what is beyond gets erased by the caller. */
    method NewBlock(length: nat) returns (block: Block)
      ensures fresh(block) && block.Length == length
      ensures forall i :: 0 <= i < length ==> block[i] == if i < stack.Length then stack[i] else StackValue(Nil, 0)
    {
      block := new StackValue[length](_ => StackValue(Nil, 0));
      var i := 0;
      while i < length && i < stack.Length
        invariant 0 <= i <= length && i <= stack.Length
        invariant forall j :: 0 <= j < i ==> block[j] == stack[j]
        invariant forall j :: i <= j < length ==> block[j] == StackValue(Nil, 0)
      {
        block[i] := stack[i];
        i := i + 1;
      }
    }

    /**
     luaD_reallocstack: the stack moves, and everything that points to it moves with it, so that all
     upvalues keep their values.  When there is no memory everything is as it was.
     */
    method ReallocStack(newsize: nat, nomemory: bool) returns (ok: bool)
      requires Valid() && Fits(newsize + EXTRA_STACK)
      modifies `stack, `top, `tbclist, `uvs, `cis
      ensures Valid() && ok == !nomemory
      ensures top == At(stack, old(top).i) && tbclist == At(stack, old(tbclist).i) && cis == Rebased(old(cis), stack)
      ensures SameUpvalues(old(uvs), uvs, stack)
      ensures forall u :: u in uvs ==> ValueOf(uvs, u, stack[..]) == ValueOf(old(uvs), u, old(stack[..]))
      ensures ok ==> stack.Length == newsize + EXTRA_STACK
      ensures ok ==> forall i :: 0 <= i < stack.Length && i < old(stack).Length ==> stack[i] == old(stack[i])
      ensures !ok ==>
          stack == old(stack) && top == old(top) && tbclist == old(tbclist) && uvs == old(uvs) && cis == old(cis)
    {
      hide UpOk, Linked, Moved, SameUpvalues, IsList, DeltasOf, ValueOf, Rebased, MovedCis;
      ghost var m, head, o, block0, n := uvs, openupval, open, stack, nuvs;
      UpParts(m, head, o, stack, n);
      AtInside(m, head, o, stack, n);
      ghost var cis0, s0, top0, tbclist0 := cis, stack[..], top, tbclist;
      RelStack();
      if nomemory {
        CorrectStack();
        BackAgain(m, head, o, block0, n, cis0);
        SameBlock(m, block0);
        return false;
      }
      var newstack := NewBlock(newsize + EXTRA_STACK);
      stack := newstack;
      CorrectStack();
      MovedUp(m, head, o, block0, n, stack);
      MovedCi2(cis0, block0, stack);
      TbcMoves(s0, stack[..], tbclist0.i, levels);
      ValuesMove(m, uvs, s0, stack, o, block0);
      ok := true;
    }

    /**
     luaD_growstack: room for 'n' more values, if the limit allows it; otherwise some extra room to handle the error.
     */
    method GrowStack(n: nat, nomemory: bool) returns (r: Growth)
      requires Valid() && stack.Length >= EXTRA_STACK
      modifies `stack, `top, `tbclist, `uvs, `cis
      ensures Valid() && top == At(stack, old(top).i) && stack.Length >= EXTRA_STACK
      ensures forall u :: u in uvs ==>
          u in old(uvs) && ValueOf(uvs, u, stack[..]) == ValueOf(old(uvs), u, old(stack[..]))
      ensures r == Grown ==> top.i + n <= stack.Length - EXTRA_STACK <= MAXSTACK
      ensures old(stack.Length) - EXTRA_STACK <= MAXSTACK ==>
          (r == Overflow <==> n >= MAXSTACK || old(top).i + n > MAXSTACK) && r != ErrorInError
      ensures r == Overflow && !nomemory ==> stack.Length - EXTRA_STACK == ERRORSTACKSIZE
    {
      hide UpOk, TbcOk, ValueOf, SameUpvalues, Rebased;
      var size := stack.Length - EXTRA_STACK;
      if size > MAXSTACK {
        return ErrorInError;
      } else if n < MAXSTACK {
        var newsize := size + size / 2;
        var needed := top.i + n;
        if newsize > MAXSTACK { newsize := MAXSTACK; }
        if newsize < needed { newsize := needed; }
        if newsize <= MAXSTACK {
          FitsMore(newsize + EXTRA_STACK);
          var ok := ReallocStack(newsize, nomemory);
          SameKeys(old(uvs), uvs, stack);
          return if ok then Grown else NoMemory;
        }
      }
      FitsMore(ERRORSTACKSIZE + EXTRA_STACK);
      var ok := ReallocStack(ERRORSTACKSIZE, nomemory);
      SameKeys(old(uvs), uvs, stack);
      return Overflow;
    }

    lemma FitsMore(length: nat)
      requires Valid() && length >= stack.Length
      ensures Fits(length)
    {
      forall u | u in open ensures Level(uvs, u) < length {
        OpenInside(uvs, open, stack, u);
      }
    }

    // ---- To-be-closed variables ----------------------------------------------------------------------

    /** luaF_newtbcupval: false values need no closing, and others need a closing method. */
    method NewTbcUpVal(level: nat, hasClose: bool) returns (ok: bool)
      requires Valid() && Last(levels) < level < stack.Length
      modifies `tbclist, `levels, stack
      ensures Valid() && forall i :: 0 <= i < stack.Length ==> stack[i].val == old(stack[i].val)
      ensures ok == (stack[level].val == Nil || stack[level].val == False || hasClose)
      ensures levels == if stack[level].val == Nil || stack[level].val == False || !hasClose then old(levels)
                        else old(levels) + [level]
    {
      if stack[level].val == Nil || stack[level].val == False { return true; }
      if !hasClose { return false; }
      LinkTbc(level);
      ok := true;
    }

    /** The variable at the level joins the list, with as many dummy nodes as the distance needs. */
    method LinkTbc(level: nat)
      requires Valid() && Last(levels) < level < stack.Length
      modifies `tbclist, `levels, stack
      ensures Valid() && levels == old(levels) + [level]
      ensures forall i :: 0 <= i < stack.Length ==> stack[i].val == old(stack[i].val)
    {
      hide UpOk, IsList, PointersOk, Dummies;
      ghost var b := tbclist.i;
      ListLast(DeltasOf(stack[..]), b, levels);
      DummiesStart(DeltasOf(stack[..]), b);
      while level - tbclist.i > MAXDELTA
        invariant Inside(tbclist, stack) && b == Last(levels) <= tbclist.i < level && levels == old(levels)
        invariant stack == old(stack)
        invariant IsList(DeltasOf(stack[..]), b, levels) && Dummies(DeltasOf(stack[..]), b, tbclist.i)
        invariant forall i :: 0 <= i < stack.Length ==> stack[i].val == old(stack[i].val)
        invariant UpOk(uvs, openupval, open, stack, nuvs) && PointersOk()
        decreases level - tbclist.i
      {
        ghost var d, x := DeltasOf(stack[..]), tbclist.i;
        OneMoreDummy(d, levels, x);
        tbclist := At(stack, tbclist.i + MAXDELTA);
        stack[tbclist.i] := stack[tbclist.i].(delta := 0);
        assert DeltasOf(stack[..]) == d[x + MAXDELTA := 0];
      }
      ghost var d, x := DeltasOf(stack[..]), tbclist.i;
      OneMoreLevel(d, levels, x, level);
      stack[level] := stack[level].(delta := level - tbclist.i);
      assert DeltasOf(stack[..]) == d[level := level - x];
      tbclist := At(stack, level);
      levels := levels + [level];
    }

    /** poptbclist: the last variable leaves the list, with its dummy nodes. */
    method PopTbcList()
      requires Valid() && levels != []
      modifies `tbclist, `levels
      ensures Valid() && levels == Front(old(levels))
    {
      hide UpOk, PointersOk;
      ghost var d := DeltasOf(stack[..]);
      var tbc := tbclist.i;
      assert stack[tbc].delta == d[tbc] > 0;
      tbc := tbc - stack[tbc].delta;
      while tbc > 0 && stack[tbc].delta == 0
        invariant levels == old(levels) && tbclist == old(tbclist)
        invariant 0 <= tbc < stack.Length && SkipDummies(d, tbc) == Last(Front(levels))
        decreases tbc
      {
        assert d[tbc] == stack[tbc].delta;
        SkipZero(d, tbc, levels);
        tbc := tbc - MAXDELTA;
      }
      assert tbc > 0 ==> d[tbc] == stack[tbc].delta;
      tbclist := At(stack, tbc);
      levels := Front(levels);
    }

    // ---- Closing under errors ------------------------------------------------------------------------

    /** What a closing method writes, above its variable. */
    method WriteSlots(l: nat, ws: seq<Write>)
      requires Valid() && Last(levels) < l && forall k :: 0 <= k < |ws| ==> l < ws[k].i < stack.Length
      modifies stack
      ensures Valid() && forall i :: 0 <= i <= l && i < stack.Length ==> stack[i] == old(stack[i])
    {
      hide UpOk, PointersOk, IsList, DeltasOf;
      ghost var s := stack[..];
      ListLast(DeltasOf(s), tbclist.i, levels);
      var k := 0;
      while k < |ws|
        invariant 0 <= k <= |ws| && forall i :: 0 <= i <= l && i < stack.Length ==> stack[i] == s[i]
      {
        stack[ws[k].i] := ws[k].x;
        k := k + 1;
      }
      TbcAbove(s, stack[..], tbclist.i, levels);
    }

    /** The upvalues that a closing method opened and, because of an error, did not close. */
    method OpenAll(l: nat, os: seq<nat>)
      requires Valid() && forall k :: 0 <= k < |os| ==> l < os[k] < stack.Length
      modifies `uvs, `nuvs, `openupval, `open
      ensures Valid() && Kept(old(uvs), uvs) && NewAbove(old(uvs), uvs, l) && (os == [] ==> uvs == old(uvs))
    {
      hide UpOk, TbcOk, PointersOk;
      ghost var m := uvs;
      var k := 0;
      while k < |os|
        invariant 0 <= k <= |os| && Valid() && Kept(m, uvs) && NewAbove(m, uvs, l) && (k == 0 ==> uvs == m)
      {
        ghost var m1 := uvs;
        var uv := FindUpVal(os[k]);
        k := k + 1;
      }
    }

    /** The variables that its callees left pending. */
    method LinkAll(l: nat, ps: seq<nat>)
      requires Valid() && Last(levels) < l && (forall i :: 0 <= i < |ps| ==> l < ps[i] < stack.Length) && Ascends(ps)
      modifies `tbclist, `levels, stack
      ensures Valid() && levels == old(levels) + ps
      ensures forall i :: 0 <= i < stack.Length ==> stack[i].val == old(stack[i].val)
    {
      hide UpOk, PointersOk, IsList;
      ghost var levels0 := levels;
      var k := 0;
      while k < |ps|
        invariant 0 <= k <= |ps| && levels == levels0 + ps[..k] && Valid()
        invariant forall i :: 0 <= i < stack.Length ==> stack[i].val == old(stack[i].val)
      {
        assert k > 0 ==> Last(levels) == ps[k - 1];
        LinkTbc(ps[k]);
        assert ps[..k + 1] == ps[..k] + [ps[k]];
        k := k + 1;
      }
      assert ps[..k] == ps;
    }

    /**
     A call to a closing method, which uses the stack above its variable; when it throws, its callees may
     leave variables pending and upvalues open there.
     */
    method CallCloseMethod(l: nat, script: seq<Outcome>) returns (thrown: Thrown)
      requires Valid() && Last(levels) < l && OutcomeFits(l, script, stack.Length)
      modifies `tbclist, `levels, `uvs, `nuvs, `openupval, `open, stack
      ensures Valid() && levels == old(levels) + ThrownBy(script) && thrown == ThrownIn(script)
      ensures forall i :: 0 <= i <= l && i < stack.Length ==> stack[i].val == old(stack[i].val)
      ensures Kept(old(uvs), uvs) && NewAbove(old(uvs), uvs, l) && (thrown == NoError ==> uvs == old(uvs))
    {
      hide UpOk, TbcOk, PointersOk, Kept, NewAbove;
      WriteSlots(l, WritesOf(script));
      OpenAll(l, CapturedBy(script));
      LinkAll(l, ThrownBy(script));
      thrown := ThrownIn(script);
    }

    /** The last pending variable leaves the list and is closed. */
    method CloseLast(level: nat, status: nat, script: seq<Outcome>, ghost base: seq<nat>, ghost pend: seq<nat>)
      returns (thrown: Thrown, call: Call)
      requires Valid() && tbclist.i >= level > 0 && levels == base + pend && Split(base, pend, level)
      requires ScriptFits(pend, script, stack.Length)
      modifies `tbclist, `levels, `uvs, `nuvs, `openupval, `open, stack
      ensures Valid() && pend != [] && call == Call(Last(pend), status) && thrown == ThrownIn(script)
      ensures levels == base + NextPending(pend, script) && Split(base, NextPending(pend, script), level)
      ensures ScriptFits(NextPending(pend, script), Rest(script), stack.Length)
      ensures forall i :: 0 <= i < level && i < stack.Length ==> stack[i].val == old(stack[i].val)
      ensures Kept(old(uvs), uvs) && (thrown == NoError ==> uvs == old(uvs))
    {
      hide UpOk, PointersOk, IsList, Split, OutcomeFits, DeltasOf, Kept, NewAbove;
      ListLast(DeltasOf(stack[..]), tbclist.i, levels);
      SplitLast(base, pend, level);
      SplitNext(base, pend, level, script, stack.Length);
      var tbc := tbclist.i;
      PopTbcList();
      thrown := CallCloseMethod(tbc, script);
      call := Call(tbc, status);
    }

    /**
     luaF_close: upvalues are closed first, and then pending variables, from the last one, until one of them throws an
     error.
     */
    method Close(level: nat, status: nat, script: seq<Outcome>, ghost base: seq<nat>, ghost pend: seq<nat>)
      returns (thrown: Thrown, calls: seq<Call>, rest: seq<Outcome>, ghost left: seq<nat>)
      requires Valid() && level > 0 && levels == base + pend && Split(base, pend, level)
      requires ScriptFits(pend, script, stack.Length)
      modifies this, stack
      ensures Valid() && levels == base + left && Split(base, left, level) && ScriptFits(left, rest, stack.Length)
      ensures stack == old(stack) && cis == old(cis)
      ensures forall i :: 0 <= i < level && i < stack.Length ==> stack[i].val == old(stack[i].val)
      ensures KeepsValues(old(uvs), old(stack[..]), uvs, stack[..]) && (thrown == NoError ==> OpenBelow(uvs, level))
      ensures thrown == NoError ==> left == [] && CloseAll(pend, status, script) == Closing(calls, status)
      ensures thrown.Error? ==> CloseAll(pend, status, script) == After(calls, CloseAll(left, thrown.status, rest))
                                && Pushed(rest) + |left| < Pushed(script) + |pend|
    {
      hide *;
      ghost var m, s := uvs, stack[..];
      CloseUpVal(level);
      ghost var m1 := uvs;
      left, rest, calls, thrown := pend, script, [], NoError;
      AfterNone(CloseAll(pend, status, script));
      thrown, calls, rest, left := ClosePending(level, status, script, base, pend);
      ClosingKeeps(m, s, m1, uvs, stack[..], level);
    }

    /** The loop of luaF_close over the pending variables. */
    method ClosePending(level: nat, status: nat, script: seq<Outcome>, ghost base: seq<nat>, ghost pend: seq<nat>)
      returns (thrown: Thrown, calls: seq<Call>, rest: seq<Outcome>, ghost left: seq<nat>)
      requires Valid() && level > 0 && levels == base + pend && Split(base, pend, level)
      requires ScriptFits(pend, script, stack.Length)
      modifies `tbclist, `levels, `uvs, `nuvs, `openupval, `open, stack
      ensures Valid() && levels == base + left && Split(base, left, level) && ScriptFits(left, rest, stack.Length)
      ensures forall i :: 0 <= i < level && i < stack.Length ==> stack[i].val == old(stack[i].val)
      ensures Kept(old(uvs), uvs) && (thrown == NoError ==> uvs == old(uvs))
      ensures thrown == NoError ==> left == [] && CloseAll(pend, status, script) == Closing(calls, status)
      ensures thrown.Error? ==> CloseAll(pend, status, script) == After(calls, CloseAll(left, thrown.status, rest))
                                && Pushed(rest) + |left| < Pushed(script) + |pend|
    {
      hide UpOk, CloseAll, Pushed, After, IsList, Split, ScriptFits, NextPending, Rest, PointersOk, DeltasOf, Kept;
      left, rest, calls, thrown := pend, script, [], NoError;
      AfterNone(CloseAll(pend, status, script));
      KeptRefl(uvs);
      while tbclist.i >= level
        invariant Valid() && levels == base + left && Split(base, left, level) && ScriptFits(left, rest, stack.Length)
        invariant forall i :: 0 <= i < level && i < stack.Length ==> stack[i].val == old(stack[i].val)
        invariant CloseAll(pend, status, script) == After(calls, CloseAll(left, status, rest))
        invariant Pushed(rest) + |left| <= Pushed(script) + |pend| && thrown == NoError && uvs == old(uvs)
        decreases Pushed(rest) + |left|
      {
        var call;
        thrown, call := CloseLast(level, status, rest, base, left);
        CloseStep(left, status, rest, calls, CloseAll(pend, status, script));
        calls := calls + [call];
        left, rest := NextPending(left, rest), Rest(rest);
        if thrown.Error? { return; }
      }
      ListLast(DeltasOf(stack[..]), tbclist.i, levels);
      SplitNone(base, left, level);
      CloseEmpty(status, rest, calls);
    }

    /**
     luaD_closeprotected: closing goes on after each error, with its status, until there are no more
     pending variables at or above the level.
     */
    method CloseProtected(level: nat, status: nat, script: seq<Outcome>, ghost base: seq<nat>, ghost pend: seq<nat>)
      returns (st: nat, calls: seq<Call>)
      requires Valid() && level > 0 && levels == base + pend && Split(base, pend, level)
      requires ScriptFits(pend, script, stack.Length)
      modifies this, stack
      ensures Valid() && levels == base && CloseAll(pend, status, script) == Closing(calls, st)
      ensures stack == old(stack) && cis == old(cis)
      ensures forall i :: 0 <= i < level && i < stack.Length ==> stack[i].val == old(stack[i].val)
      ensures OpenBelow(uvs, level) && KeepsValues(old(uvs), old(stack[..]), uvs, stack[..])
    {
      hide *;
      var rest := script;
      ghost var left, m, s := pend, uvs, stack[..];
      st, calls := status, [];
      AfterNone(CloseAll(pend, status, script));
      KeepsRefl(m, s);
      while true
        invariant Valid() && levels == base + left && Split(base, left, level) && ScriptFits(left, rest, stack.Length)
        invariant stack == old(stack) && cis == old(cis)
        invariant forall i :: 0 <= i < level && i < stack.Length ==> stack[i].val == old(stack[i].val)
        invariant CloseAll(pend, status, script) == After(calls, CloseAll(left, st, rest))
        invariant KeepsValues(m, s, uvs, stack[..])
        decreases Pushed(rest) + |left|
      {
        ghost var m1, s1, calls1 := uvs, stack[..], calls;
        var thrown, more, rest2;
        ghost var left2;
        thrown, more, rest2, left2 := Close(level, st, rest, base, left);
        KeepsTrans(m, s, m1, s1, uvs, stack[..]);
        calls := calls + more;
        match thrown {
          case NoError =>
            AfterDone(calls1, more, st);
            assert base + [] == base;
            return;
          case Error(e) =>
            AfterAfter(calls1, more, CloseAll(left2, e, rest2));
            st, rest, left := e, rest2, left2;
        }
      }
    }

    // ---- Protected calls -------------------------------------------------------------------------------

    /** stackinuse: one more than the highest top of the calls and of the stack, but no less than a minimum. */
    method StackInUse() returns (res: nat)
      requires PointersOk()
      ensures res == InUse(top.i, cis)
    {
      var lim: nat := top.i;
      assert cis[..|cis|] == cis;
      var k := |cis|;
      while k > 0
        invariant 0 <= k <= |cis| && MaxTop(lim, cis[..k]) == MaxTop(top.i, cis)
      {
        k := k - 1;
        assert cis[..k + 1] == cis[..k] + [cis[k]] && cis[k] in cis;
        CiInside(k);
        if lim < cis[k].top.i { lim := cis[k].top.i; }
      }
      res := lim + 1;
      if res < LUA_MINSTACK { res := LUA_MINSTACK; }
    }

    lemma CiInside(k: nat)
      requires PointersOk() && k < |cis|
      ensures cis[k].top.At? && cis[k].func.At?
    {
      assert cis[k] in cis;
    }

    /** What is in use is below the tops: functions, pending variables and the slots of open upvalues. */
    ghost predicate Contained()
      reads this
    {
      && TopsAbove(cis) && top.At? && tbclist.At? && tbclist.i < InUse(top.i, cis)
      && (forall u :: u in open ==> Level(uvs, u) < InUse(top.i, cis))
    }

    lemma ContainedFits(length: nat)
      requires Valid() && Contained() && InUse(top.i, cis) <= length
      ensures Fits(length)
    {
      hide UpOk, TbcOk;
      TopsInUse(top.i, cis);
    }

    /**
     luaD_shrinkstack: a stack that is mostly unused, or that was handling an overflow, is reallocated; no upvalue
     changes its value.
     */
    method ShrinkStack(nomemory: bool)
      requires Valid() && Contained() && stack.Length >= EXTRA_STACK
      modifies `stack, `top, `tbclist, `uvs, `cis
      ensures Valid() && top == At(stack, old(top).i) && stack.Length >= EXTRA_STACK && levels == old(levels)
      ensures uvs.Keys == old(uvs.Keys)
      ensures KeepsValues(old(uvs), old(stack[..]), uvs, stack[..]) && SameLevels(old(uvs), uvs)
      ensures cis == Rebased(old(cis), stack)
      ensures forall i :: 0 <= i < stack.Length && i < old(stack).Length ==> stack[i] == old(stack[i])
      ensures var inuse, size := InUse(old(top).i, old(cis)), old(stack).Length - EXTRA_STACK;
              stack.Length - EXTRA_STACK == if inuse <= MAXSTACK && size > Reasonable(inuse) && !nomemory
              then Target(inuse) else size
    {
      hide UpOk, TbcOk, PointersOk, ValueOf, SameUpvalues, Rebased, InUse;
      ghost var m, s := uvs, stack[..];
      TopIs();
      KeepsRefl(m, s);
      SameLevelsRefl(m);
      CisSame();
      var inuse := StackInUse();
      var max := if inuse > MAXSTACK / 3 then MAXSTACK else inuse * 3;
      if inuse <= MAXSTACK && stack.Length - EXTRA_STACK > max {
        var nsize := if inuse > MAXSTACK / 2 then MAXSTACK else inuse * 2;
        ContainedFits(nsize + EXTRA_STACK);
        var ok := ReallocStack(nsize, nomemory);
        SameKeys(m, uvs, stack);
        LevelsSame(m, uvs, stack);
        ValuesKept(m, s, uvs, stack[..]);
      }
    }

    lemma TopIs()
      requires Valid()
      ensures top == At(stack, top.i) && top.i < stack.Length
    {
    }

    lemma CisSame()
      requires Valid()
      ensures Rebased(cis, stack) == cis
    {
      RebasedSame(cis, stack);
    }

    /** luaD_seterrorobj */
    method SetErrorObj(oldtop: nat, err: Value)
      requires Valid() && oldtop + 1 < stack.Length && Last(levels) < oldtop
      modifies `top, stack
      ensures Valid() && top == At(stack, oldtop + 1) && stack[oldtop].val == err
      ensures forall i :: 0 <= i < stack.Length && i != oldtop ==> stack[i] == old(stack[i])
    {
      hide UpOk, IsList, DeltasOf;
      ghost var s := stack[..];
      stack[oldtop] := stack[oldtop].(val := err);
      top := At(stack, oldtop + 1);
      TbcAbove(s, stack[..], tbclist.i, levels);
    }

    /**
     luaD_pcall, after an error in the call: the calls go back to the first 'keep', everything from 'oldtop' on
     is closed, the error object is left there, and the stack may shrink.
     */
    method PCallError(oldtop: nat, keep: nat, status: nat, err: Value, script: seq<Outcome>, nomemory: bool,
            ghost base: seq<nat>, ghost pend: seq<nat>)
      returns (st: nat, calls: seq<Call>)
      requires Valid() && 0 < oldtop < oldtop + 1 < stack.Length && stack.Length >= EXTRA_STACK && keep <= |cis|
      requires TopsAbove(cis[..keep])
      requires levels == base + pend && Split(base, pend, oldtop) && ScriptFits(pend, script, stack.Length)
      modifies this, stack
      ensures Valid() && levels == base && CloseAll(pend, status, script) == Closing(calls, st)
      ensures OpenBelow(uvs, oldtop)
      ensures top == At(stack, oldtop + 1) && cis == Rebased(old(cis)[..keep], stack)
      ensures KeepsValues(old(uvs), old(stack[..]), uvs, stack[..])
      ensures stack.Length > oldtop && stack[oldtop].val == err
      ensures forall i :: 0 <= i < oldtop ==> stack[i].val == old(stack[i].val)
    {
      hide *;
      ghost var m, s := uvs, stack[..];
      DropCalls(keep);
      st, calls := CloseProtected(oldtop, status, script, base, pend);
      ghost var m1, s1 := uvs, stack[..];
      BaseBelow(base, pend, oldtop);
      SetErrorObj(oldtop, err);
      AboveKeeps(m1, s1, stack[..], oldtop);
      KeepsTrans(m, s, m1, s1, uvs, stack[..]);
      ghost var s2 := stack[..];
      NowContained(oldtop);
      ShrinkStack(nomemory);
      KeepsTrans(m, s, m1, s2, uvs, stack[..]);
      LevelsBelow(m1, uvs, oldtop);
      TopIs();
    }

    /** The calls that the error unwinds. */
    method DropCalls(keep: nat)
      requires Valid() && keep <= |cis|
      modifies `cis
      ensures Valid() && cis == old(cis)[..keep]
    {
      hide UpOk, TbcOk;
      cis := cis[..keep];
    }

    /** After closing and setting the error object everything in use is below the new top. */
    lemma NowContained(oldtop: nat)
      requires Valid() && top == At(stack, oldtop + 1) && Last(levels) < oldtop && OpenBelow(uvs, oldtop)
      requires TopsAbove(cis)
      ensures Contained()
    {
      TopsInUse(top.i, cis);
      ListLast(DeltasOf(stack[..]), tbclist.i, levels);
      forall u | u in open ensures Level(uvs, u) < oldtop {
        OpenInside(uvs, open, stack, u);
      }
    }
  }

  /** How the first call of a script ends. */
  function ThrownIn(script: seq<Outcome>): Thrown
  {
    if script != [] && script[0].Throws? then Error(script[0].status) else NoError
  }

  lemma AfterDone(calls: seq<Call>, more: seq<Call>, status: nat)
    ensures After(calls, Closing(more, status)) == Closing(calls + more, status)
  {
  }

  lemma AfterAfter(calls: seq<Call>, more: seq<Call>, c: Closing)
    ensures After(calls, After(more, c)) == After(calls + more, c)
  {
    assert calls + (more + c.calls) == (calls + more) + c.calls;
  }

  datatype Thrown = NoError | Error(status: nat)

  predicate Ascends(ps: seq<nat>)
  {
    forall i, j :: 0 <= i < j < |ps| ==> ps[i] < ps[j]
  }

  /** All that a call does is above its variable; what an error leaves pending is in ascending order. */
  ghost predicate OutcomeFits(l: nat, script: seq<Outcome>, limit: nat)
  {
    var ps, os, ws := ThrownBy(script), CapturedBy(script), WritesOf(script);
    && (forall i :: 0 <= i < |ps| ==> l < ps[i] < limit) && Ascends(ps)
    && (forall i :: 0 <= i < |os| ==> l < os[i] < limit)
    && (forall i :: 0 <= i < |ws| ==> l < ws[i].i < limit)
  }

  // ---- What closing does to upvalues -----------------------------------------------------------------

  /** Open upvalues stay open, and closed ones stay as they are. */
  ghost predicate Kept(m: Memory, m': Memory)
  {
    forall u :: u in m ==> u in m' && m'[u].v == m[u].v && m'[u].value == m[u].value
  }

  /** New upvalues are for slots above 'l'. */
  ghost predicate NewAbove(m: Memory, m': Memory, l: nat)
  {
    forall u :: u in m' && u !in m && m'[u].v.At? ==> m'[u].v.i > l
  }

  ghost predicate OpenBelow(m: Memory, level: nat)
  {
    forall u :: u in m && m[u].v.At? ==> m[u].v.i < level
  }

  /** All upvalues read the values that they did. */
  ghost predicate KeepsValues(m: Memory, s: seq<StackValue>, m': Memory, s': seq<StackValue>)
  {
    forall u :: u in m ==> u in m' && ValueOf(m', u, s') == ValueOf(m, u, s)
  }

  /** Open upvalues are for the same slots, maybe of another block. */
  ghost predicate SameLevels(m: Memory, m': Memory)
  {
    && m'.Keys == m.Keys
    && forall u :: u in m ==> m'[u].v.At? == m[u].v.At? && (m[u].v.At? ==> m'[u].v.i == m[u].v.i)
  }

  lemma KeptRefl(m: Memory)
    ensures Kept(m, m)
  {
  }

  lemma KeepsRefl(m: Memory, s: seq<StackValue>)
    ensures KeepsValues(m, s, m, s)
  {
  }

  lemma KeepsTrans(m: Memory, s: seq<StackValue>, m1: Memory, s1: seq<StackValue>, m2: Memory, s2: seq<StackValue>)
    requires KeepsValues(m, s, m1, s1) && KeepsValues(m1, s1, m2, s2)
    ensures KeepsValues(m, s, m2, s2)
  {
  }

  /** Closing from a level, and then changes above it. */
  lemma ClosingKeeps(m: Memory, s: seq<StackValue>, m1: Memory, m': Memory, s': seq<StackValue>, level: nat)
    requires SameValues(m, m1, s) && OpenBelow(m1, level) && Kept(m1, m') && |s'| == |s|
    requires forall i :: 0 <= i < level && i < |s| ==> s'[i].val == s[i].val
    ensures KeepsValues(m, s, m', s') && (m' == m1 ==> OpenBelow(m', level))
  {
    forall u | u in m ensures u in m' && ValueOf(m', u, s') == ValueOf(m, u, s) {
      assert u in m1 && ValueOf(m1, u, s) == ValueOf(m, u, s);
    }
  }

  lemma AboveKeeps(m: Memory, s: seq<StackValue>, s': seq<StackValue>, level: nat)
    requires OpenBelow(m, level) && |s'| == |s| && forall i :: 0 <= i < |s| && i != level ==> s'[i] == s[i]
    ensures KeepsValues(m, s, m, s')
  {
  }

  lemma ValuesKept(m: Memory, s: seq<StackValue>, m': Memory, s': seq<StackValue>)
    requires m'.Keys == m.Keys && forall u :: u in m' ==> ValueOf(m', u, s') == ValueOf(m, u, s)
    ensures KeepsValues(m, s, m', s')
  {
  }

  lemma SameLevelsRefl(m: Memory)
    ensures SameLevels(m, m)
  {
  }

  lemma LevelsSame(m: Memory, m': Memory, block: Block)
    requires SameUpvalues(m, m', block)
    ensures SameLevels(m, m')
  {
  }

  lemma LevelsBelow(m: Memory, m': Memory, level: nat)
    requires SameLevels(m, m') && OpenBelow(m, level)
    ensures OpenBelow(m', level)
  {
  }

  /** The list does not depend on the slots above its last variable. */
  lemma TbcAbove(s: seq<StackValue>, s': seq<StackValue>, tbc: nat, levels: seq<nat>)
    requires IsList(DeltasOf(s), tbc, levels) && |s'| == |s|
    requires forall i :: 0 <= i <= tbc && i < |s| ==> s'[i].delta == s[i].delta
    ensures IsList(DeltasOf(s'), tbc, levels)
  {
    ListLast(DeltasOf(s), tbc, levels);
    ListSame(DeltasOf(s), DeltasOf(s'), tbc, levels);
  }

  lemma BaseBelow(base: seq<nat>, pend: seq<nat>, level: nat)
    requires Split(base, pend, level) && level > 0
    ensures Last(base) < level
  {
    if base != [] { assert Last(base) in base; }
  }

  // ---- How much of the stack is in use ----------------------------------------------------------------

  const LUA_MINSTACK: nat := 20

  function TopOf(c: CallInfo): nat
  {
    if c.top.At? then c.top.i else 0
  }

  function MaxTop(lim: nat, cis: seq<CallInfo>): nat
    decreases |cis|
  {
    if cis == [] then lim
    else
      var t := TopOf(cis[|cis| - 1]);
      MaxTop(if lim < t then t else lim, cis[..|cis| - 1])
  }

  function InUse(top: nat, cis: seq<CallInfo>): nat
  {
    var res := MaxTop(top, cis) + 1;
    if res < LUA_MINSTACK then LUA_MINSTACK else res
  }

  /** Stacks larger than this shrink, to the size below. */
  function Reasonable(inuse: nat): nat
  {
    if inuse > MAXSTACK / 3 then MAXSTACK else inuse * 3
  }

  function Target(inuse: nat): nat
  {
    if inuse > MAXSTACK / 2 then MAXSTACK else inuse * 2
  }

  predicate TopsAbove(cis: seq<CallInfo>)
  {
    forall c :: c in cis ==> c.func.At? && c.top.At? && c.func.i <= c.top.i
  }

  lemma {:induction false} MaxTopIs(lim: nat, cis: seq<CallInfo>)
    ensures MaxTop(lim, cis) >= lim && forall c :: c in cis ==> TopOf(c) <= MaxTop(lim, cis)
    decreases |cis|
  {
    if cis != [] {
      var last, t := cis[|cis| - 1], TopOf(cis[|cis| - 1]);
      MaxTopIs(if lim < t then t else lim, cis[..|cis| - 1]);
      assert forall c :: c in cis ==> c == last || c in cis[..|cis| - 1];
    }
  }

  /** The top of the stack and the tops of all calls are in use. */
  lemma TopsInUse(top: nat, cis: seq<CallInfo>)
    ensures top < InUse(top, cis) && forall c :: c in cis ==> TopOf(c) < InUse(top, cis)
  {
    MaxTopIs(top, cis);
  }

  lemma RebasedSame(cis: seq<CallInfo>, block: Block)
    requires forall c :: c in cis ==> Inside(c.func, block) && Inside(c.top, block)
    ensures Rebased(cis, block) == cis
  {
    assert forall k :: 0 <= k < |cis| ==> cis[k] in cis;
  }

  ghost predicate ScriptFits(pending: seq<nat>, script: seq<Outcome>, limit: nat)
    decreases Pushed(script) + |pending|
  {
    pending == []
    || (OutcomeFits(Last(pending), script, limit) && ScriptFits(NextPending(pending, script), Rest(script), limit))
  }

  /** The pending variables are those at or above the level. */
  ghost predicate Split(base: seq<nat>, pend: seq<nat>, level: nat)
  {
    && (forall l :: l in base ==> l < level) && (forall l :: l in pend ==> l >= level)
    && (forall i, j :: 0 <= i < j < |pend| ==> pend[i] < pend[j])
  }

  /** Calls, and what comes after them. */
  function After(calls: seq<Call>, c: Closing): Closing
  {
    Closing(calls + c.calls, c.status)
  }

  lemma AfterNone(c: Closing)
    ensures After([], c) == c
  {
  }

  lemma LastAppend(a: seq<nat>, b: seq<nat>)
    requires b != []
    ensures Last(a + b) == Last(b) && Front(a + b) == a + Front(b)
  {
    assert (a + b)[|a + b| - 1] == b[|b| - 1];
  }

  lemma SplitLast(base: seq<nat>, left: seq<nat>, level: nat)
    requires Split(base, left, level) && Last(base + left) >= level > 0
    ensures left != [] && Last(base + left) == Last(left) && Front(base + left) == base + Front(left)
    ensures Last(base + Front(left)) < Last(left)
  {
    assert base != [] ==> Last(base) in base;
    assert left == [] ==> base + left == base;
    if left != [] {
      LastAppend(base, left);
      if Front(left) == [] { assert base + Front(left) == base; } else { LastAppend(base, Front(left)); }
      assert Last(left) in left;
    }
  }

  lemma SplitNone(base: seq<nat>, left: seq<nat>, level: nat)
    requires Split(base, left, level) && Last(base + left) < level
    ensures left == [] && base + left == base
  {
    assert left != [] ==> Last(left) in left;
    if left != [] {
      LastAppend(base, left);
    }
  }

  /** What is left after a call is still at or above the level. */
  lemma SplitNext(base: seq<nat>, left: seq<nat>, level: nat, script: seq<Outcome>, limit: nat)
    requires Split(base, left, level) && left != [] && OutcomeFits(Last(left), script, limit)
    ensures Split(base, NextPending(left, script), level)
    ensures base + NextPending(left, script) == base + Front(left) + ThrownBy(script)
  {
    assert Last(left) in left;
    var next := NextPending(left, script);
    forall l | l in next ensures l >= level {
      if l in Front(left) { assert l in left; }
    }
  }

  lemma CloseEmpty(status: nat, rest: seq<Outcome>, calls: seq<Call>)
    ensures After(calls, CloseAll([], status, rest)) == Closing(calls, status)
  {
  }

  lemma CloseStep(left: seq<nat>, status: nat, rest: seq<Outcome>, pre: seq<Call>, all: Closing)
    requires left != [] && all == After(pre, CloseAll(left, status, rest))
    ensures all == After(pre + [Call(Last(left), status)],
                         CloseAll(NextPending(left, rest), NextStatus(status, rest), Rest(rest)))
    ensures Pushed(Rest(rest)) + |NextPending(left, rest)| < Pushed(rest) + |left|
  {
    hide *;
    CloseUnfold(left, status, rest);
    CallsAssoc(pre, Call(Last(left), status), CloseAll(NextPending(left, rest), NextStatus(status, rest), Rest(rest)));
  }

  lemma CallsAssoc(pre: seq<Call>, c: Call, next: Closing)
    ensures After(pre, Closing([c] + next.calls, next.status)) == After(pre + [c], next)
  {
    assert pre + ([c] + next.calls) == (pre + [c]) + next.calls;
  }

  // ---- Sizes -----------------------------------------------------------------------------------------

  const MAXSTACK: nat := 1000000
  const ERRORSTACKSIZE: nat := MAXSTACK + 200

  datatype Growth = Grown | Overflow | ErrorInError | NoMemory

  // ---- The list of to-be-closed variables --------------------------------------------------------------

  lemma ListLast(d: Deltas, tbc: nat, levels: seq<nat>)
    requires IsList(d, tbc, levels)
    ensures tbc == Last(levels) < |d|
  {
  }

  lemma DummiesStart(d: Deltas, b: nat)
    ensures b < |d| ==> Dummies(d, b, b)
  {
  }

  /** A node with no distance is a dummy, so there is another node at maximum distance. */
  lemma SkipZero(d: Deltas, x: nat, levels: seq<nat>)
    requires 0 < x < |d| && d[x] == 0 && levels != [] && IsList(d, Last(levels), levels)
    requires SkipDummies(d, x) == Last(Front(levels))
    ensures x >= MAXDELTA && SkipDummies(d, x - MAXDELTA) == Last(Front(levels))
  {
  }

  // ---- Moving pointers -----------------------------------------------------------------------------------

  /** A pointer becomes an offset, or an offset becomes a pointer into a block. */
  function MovePlace(p: Place, like: Place): Place
  {
    if like.Offset? && p.At? then Offset(p.i)
    else if like.At? && p.Offset? then At(like.block, p.off)
    else p
  }

  ghost function Elems(o: seq<nat>): set<nat>
  {
    set u | u in o
  }

  function Moved(m: Memory, s: set<nat>, like: Place): Memory
  {
    map u | u in m :: if u in s then m[u].(v := MovePlace(m[u].v, like)) else m[u]
  }

  function MovedCi(c: CallInfo, like: Place): CallInfo
  {
    CallInfo(MovePlace(c.func, like), MovePlace(c.top, like))
  }

  function MovedCis(s: seq<CallInfo>, like: Place): seq<CallInfo>
  {
    seq(|s|, k requires 0 <= k < |s| => MovedCi(s[k], like))
  }

  lemma MovedNone(m: Memory, like: Place)
    ensures forall o: seq<nat> :: Moved(m, Elems(o[..0]), like) == m
  {
  }

  lemma LinkedHead(m: Memory, head: Ref, o: seq<nat>)
    requires Linked(m, head, o)
    ensures head == if o == [] then Null else To(o[0])
  {
  }

  lemma MovedNext(m: Memory, head: Ref, o: seq<nat>, k: nat, like: Place)
    requires Linked(m, head, o) && k < |o|
    ensures var m' := Moved(m, Elems(o[..k]), like);
            && o[k] in m' && m'[o[k]].next == (if k + 1 < |o| then To(o[k + 1]) else Null)
            && m'[o[k] := m'[o[k]].(v := MovePlace(m'[o[k]].v, like))] == Moved(m, Elems(o[..k + 1]), like)
  {
    LinkedAt(m, head, o, k);
    LinkedDistinct(m, head, o);
    assert o[k] !in o[..k];
    assert o[..k + 1] == o[..k] + [o[k]];
    assert Elems(o[..k + 1]) == Elems(o[..k]) + {o[k]};
    hide Linked, Distinct;
    MovedOne(m, Elems(o[..k]), o[k], like);
  }

  lemma MovedOne(m: Memory, s: set<nat>, u: nat, like: Place)
    requires u in m && u !in s
    ensures var m' := Moved(m, s, like);
            m'[u] == m[u] && m'[u := m'[u].(v := MovePlace(m'[u].v, like))] == Moved(m, s + {u}, like)
  {
    var m' := Moved(m, s, like);
    var l, r := m'[u := m'[u].(v := MovePlace(m'[u].v, like))], Moved(m, s + {u}, like);
    assert forall w :: w in l <==> w in m;
    assert forall w :: w in r <==> w in m;
    assert forall w :: w in m ==> l[w] == r[w];
  }

  lemma MovedLinks(m: Memory, head: Ref, o: seq<nat>, s: set<nat>, like: Place)
    requires Linked(m, head, o)
    ensures Linked(Moved(m, s, like), head, o)
  {
    SameLinks(m, Moved(m, s, like), head, o);
  }

  /** The calls, with their pointers into another block. */
  function Rebased(s: seq<CallInfo>, block: Block): seq<CallInfo>
  {
    seq(|s|, k requires 0 <= k < |s| => CallInfo(if s[k].func.At? then At(block, s[k].func.i) else s[k].func,
                                                 if s[k].top.At? then At(block, s[k].top.i) else s[k].top))
  }

  /** The same upvalues, which point to the same slots of another block. */
  ghost predicate SameUpvalues(m: Memory, m': Memory, block: Block)
  {
    && m'.Keys == m.Keys
    && forall u :: u in m ==> m'[u] == if m[u].v.At? then m[u].(v := At(block, m[u].v.i)) else m[u]
  }

  lemma SameKeys(m: Memory, m': Memory, block: Block)
    requires SameUpvalues(m, m', block)
    ensures m'.Keys == m.Keys
  {
  }

  /** Every pointer into the stack comes from an open upvalue. */
  lemma AtInside(m: Memory, head: Ref, o: seq<nat>, block: Block, n: nat)
    requires UpOk(m, head, o, block, n)
    ensures forall u :: u in m ==>
        (u in o <==> m[u].v.At?) && (m[u].v.At? ==> Inside(m[u].v, block)) && (!m[u].v.At? ==> m[u].v == Own)
  {
    hide Linked;
    forall u | u in m ensures (u in o <==> m[u].v.At?) && (m[u].v.At? ==> Inside(m[u].v, block)) {
      if u in o { OpenInside(m, o, block, u); }
    }
  }

  lemma MovedSame(m: Memory, o: seq<nat>, block': Block)
    requires forall u :: u in m ==> (u in o <==> m[u].v.At?)
    ensures SameUpvalues(m, Moved(Moved(m, Elems(o), Offset(0)), Elems(o), At(block', 0)), block')
  {
    assert forall u :: u in Elems(o) <==> u in o;
    hide Elems;
    var m1 := Moved(m, Elems(o), Offset(0));
    var m' := Moved(m1, Elems(o), At(block', 0));
    assert forall u :: u in m ==> u in m1 && u in m';
    assert m'.Keys == m.Keys;
  }

  lemma SameDescends(m: Memory, m': Memory, o: seq<nat>, block: Block, block': Block)
    requires Descends(m, o, block) && SameUpvalues(m, m', block') && forall u :: u in o ==> Level(m, u) < block'.Length
    ensures Descends(m', o, block')
  {
    forall k | 0 <= k < |o| ensures o[k] in m' && Inside(m'[o[k]].v, block') && Level(m', o[k]) == Level(m, o[k]) {
      assert Inside(m[o[k]].v, block) && Level(m, o[k]) < block'.Length;
    }
  }

  lemma SameClosed(m: Memory, m': Memory, o: seq<nat>, n: nat, block': Block)
    requires ClosedOwn(m, o, n) && SameUpvalues(m, m', block')
    ensures ClosedOwn(m', o, n)
  {
  }

  lemma MovedUp(m: Memory, head: Ref, o: seq<nat>, block: Block, n: nat, block': Block)
    requires UpOk(m, head, o, block, n) && forall u :: u in o ==> Level(m, u) < block'.Length
    ensures var m' := Moved(Moved(m, Elems(o), Offset(0)), Elems(o), At(block', 0));
            UpOk(m', head, o, block', n) && SameUpvalues(m, m', block')
  {
    hide Moved, Linked, Descends, ClosedOwn;
    AtInside(m, head, o, block, n);
    MovedSame(m, o, block');
    var m' := Moved(Moved(m, Elems(o), Offset(0)), Elems(o), At(block', 0));
    SameDescends(m, m', o, block, block');
    SameLinks(m, m', head, o);
    SameClosed(m, m', o, n, block');
  }

  lemma OpenInside(m: Memory, o: seq<nat>, block: Block, u: nat)
    requires Descends(m, o, block) && u in o
    ensures u in m && Inside(m[u].v, block)
  {
  }

  /** Without a new block, all pointers are back as they were. */
  lemma BackAgain(m: Memory, head: Ref, o: seq<nat>, block: Block, n: nat, cis: seq<CallInfo>)
    requires UpOk(m, head, o, block, n) && forall c :: c in cis ==> Inside(c.func, block) && Inside(c.top, block)
    ensures Moved(Moved(m, Elems(o), Offset(0)), Elems(o), At(block, 0)) == m
    ensures MovedCis(MovedCis(cis, Offset(0)), At(block, 0)) == cis && Rebased(cis, block) == cis
  {
    var m' := Moved(Moved(m, Elems(o), Offset(0)), Elems(o), At(block, 0));
    assert forall u :: u in m' <==> u in m;
    forall u | u in m ensures m'[u] == m[u] {
      if u in o { OpenInside(m, o, block, u); }
    }
    assert forall k :: 0 <= k < |cis| ==> cis[k] in cis;
  }

  lemma SameBlock(m: Memory, block: Block)
    requires forall u :: u in m && m[u].v.At? ==> m[u].v.block == block
    ensures SameUpvalues(m, m, block)
  {
  }

  lemma MovedCi2(cis: seq<CallInfo>, block: Block, block': Block)
    requires forall c :: c in cis ==>
        Inside(c.func, block) && Inside(c.top, block) && c.func.i < block'.Length && c.top.i < block'.Length
    ensures MovedCis(MovedCis(cis, Offset(0)), At(block', 0)) == Rebased(cis, block')
    ensures forall c :: c in Rebased(cis, block') ==> Inside(c.func, block') && Inside(c.top, block')
  {
    assert forall k :: 0 <= k < |cis| ==> cis[k] in cis;
  }

  lemma TbcMoves(s: seq<StackValue>, s': seq<StackValue>, tbc: nat, levels: seq<nat>)
    requires IsList(DeltasOf(s), tbc, levels) && tbc < |s'| && forall i :: 0 <= i < |s'| && i < |s| ==> s'[i] == s[i]
    ensures IsList(DeltasOf(s'), tbc, levels)
  {
    ListSame(DeltasOf(s), DeltasOf(s'), tbc, levels);
  }

  lemma ValuesMove(m: Memory, m': Memory, s: seq<StackValue>, block': Block, o: seq<nat>, block: Block)
    requires SameUpvalues(m, m', block') && |s| == block.Length
    requires (forall i :: 0 <= i < block'.Length && i < |s| ==> block'[i] == s[i])
    requires forall u :: u in m && m[u].v.At? ==> m[u].v.i < |s| && m[u].v.i < block'.Length
    ensures forall u :: u in m' ==> ValueOf(m', u, block'[..]) == ValueOf(m, u, s)
  {
  }

  // ---- Closing upvalues ------------------------------------------------------------------------------------

  /** All upvalues read the same values. */
  ghost predicate SameValues(m: Memory, m': Memory, s: seq<StackValue>)
  {
    forall u :: u in m ==> u in m' && ValueOf(m', u, s) == ValueOf(m, u, s)
  }

  lemma SameRefl(m: Memory, s: seq<StackValue>)
    ensures SameValues(m, m, s)
  {
  }

  lemma SameTrans(m: Memory, m1: Memory, m2: Memory, s: seq<StackValue>)
    requires SameValues(m, m1, s) && SameValues(m1, m2, s)
    ensures SameValues(m, m2, s)
  {
  }

  lemma HeadOpen(m: Memory, head: Ref, o: seq<nat>, block: Block, n: nat)
    requires UpOk(m, head, o, block, n)
    ensures head.To? <==> o != []
    ensures o != [] ==> head == To(o[0]) && o[0] in m && m[o[0]].v.At?
  {
  }

  lemma RestBelow(m: Memory, head: Ref, o: seq<nat>, block: Block, n: nat, level: nat)
    requires UpOk(m, head, o, block, n) && !(head.To? && Level(m, head.uv) >= level)
    ensures forall u :: u in m && m[u].v.At? ==> m[u].v.i < level
  {
    forall u | u in m && m[u].v.At? ensures m[u].v.i < level {
      assert u in o;
      var i :| 0 <= i < |o| && o[i] == u;
      assert Level(m, o[i]) <= Level(m, o[0]);
    }
  }

  lemma FirstFacts(m: Memory, head: Ref, o: seq<nat>, block: Block, n: nat, uv: nat)
    requires UpOk(m, head, o, block, n) && head == To(uv) && o != []
    ensures uv == o[0] && uv in m && m[uv].previous == Head && (m[uv].next.To? ==> m[uv].next.uv in m)
    ensures Inside(m[uv].v, block)
  {
    if |o| > 1 { LinkedAt(m, head, o, 1); }
  }

  /** What closing the first upvalue leaves. */
  lemma FirstCloses(m: Memory, head: Ref, o: seq<nat>, block: Block, n: nat)
    requires UpOk(m, head, o, block, n) && o != []
    ensures var uv := o[0]; uv in m && m[uv].v.At? && m[uv].v.i < block.Length && var m1 := LinkedOut(m, uv);
            && uv in m1 && m1[uv].v == m[uv].v
            && var m' := m1[uv := m1[uv].(value := block[..][m[uv].v.i].val, v := Own)];
               && UpOk(m', HeadAfter(head, m[uv].previous, m[uv].next), o[1..], block, n)
               && SameValues(m, m', block[..])
               && forall u :: u in m && u != uv ==> u in m' && m'[u].v == m[u].v
  {
    hide LinkedOut, HeadAfter, SameValues, Linked, Descends, ClosedOwn, Without;
    FirstParts(m, head, o, block, n);
    var uv := o[0];
    RemoveLinks(m, head, o, 0);
    OnlyLinksOut(m, uv);
    var m1 := LinkedOut(m, uv);
    var m' := m1[uv := m1[uv].(value := block[..][m[uv].v.i].val, v := Own)];
    SameLinks(m1, m', HeadAfter(head, m[uv].previous, m[uv].next), o[1..]);
    RemoveDescends(m, o, block, m', 0);
    FirstOwn(m, o, n, m');
    FirstValues(m, m1, m', uv, block[..]);
  }

  lemma FirstParts(m: Memory, head: Ref, o: seq<nat>, block: Block, n: nat)
    requires UpOk(m, head, o, block, n) && o != []
    ensures Linked(m, head, o) && Descends(m, o, block) && ClosedOwn(m, o, n) && Distinct(o)
    ensures o[0] in m && Inside(m[o[0]].v, block) && Without(o, 0) == o[1..]
  {
  }

  /** The closed upvalue has the value of its slot, and the others have theirs. */
  lemma FirstValues(m: Memory, m1: Memory, m': Memory, uv: nat, s: seq<StackValue>)
    requires uv in m && m[uv].v.At? && m[uv].v.i < |s|
    requires forall u :: u in m ==> u in m1 && m1[u].v == m[u].v && m1[u].value == m[u].value
    requires m' == m1[uv := m1[uv].(value := s[m[uv].v.i].val, v := Own)]
    ensures SameValues(m, m', s)
  {
  }

  lemma FirstOwn(m: Memory, o: seq<nat>, n: nat, m': Memory)
    requires ClosedOwn(m, o, n) && o != [] && m'.Keys <= m.Keys && o[0] in m' && m'[o[0]].v == Own
    requires forall u :: u in m' && u != o[0] ==> m'[u].v == m[u].v
    ensures ClosedOwn(m', o[1..], n)
  {
    assert o == [o[0]] + o[1..];
  }

  // ---- New upvalues --------------------------------------------------------------------------------------------

  /** What a link points to. */
  function Follow(m: Memory, head: Ref, prev: Link): Ref
  {
    if prev.Head? then head else if prev.prev in m then m[prev.prev].next else Null
  }

  lemma PrevStep(o: seq<nat>)
    ensures ListPrev(o, 0) == Head && forall k :: 0 <= k < |o| ==> ListPrev(o, k + 1) == NextOf(o[k])
  {
  }

  lemma ElementIs(m: Memory, head: Ref, o: seq<nat>, block: Block, k: nat)
    requires Linked(m, head, o) && Descends(m, o, block) && k < |o|
    ensures o[k] in m && m[o[k]].next == (if k + 1 < |o| then To(o[k + 1]) else Null)
    ensures m[o[k]].v == At(block, Level(m, o[k]))
    ensures forall i :: k < i < |o| ==> Level(m, o[i]) < Level(m, o[k])
  {
    LinkedAt(m, head, o, k);
  }

  lemma UpParts(m: Memory, head: Ref, o: seq<nat>, block: Block, n: nat)
    requires UpOk(m, head, o, block, n)
    ensures Linked(m, head, o) && Descends(m, o, block) && ClosedOwn(m, o, n)
  {
  }

  /** A new upvalue in its place in the list. */
  lemma NewPlace(m: Memory, head: Ref, o: seq<nat>, block: Block, n: nat, level: nat, prev: Link, k: nat)
    requires UpOk(m, head, o, block, n) && level < block.Length && k <= |o| && prev == ListPrev(o, k)
    requires (forall i :: 0 <= i < k ==> Level(m, o[i]) > level)
    requires (forall i :: k <= i < |o| ==> Level(m, o[i]) < level)
    ensures prev.NextOf? ==> prev.prev in m && prev.prev != n
    ensures Follow(m, head, prev).To? ==> Follow(m, head, prev).uv in m
    ensures var m', o' := LinkedIn(m, n, At(block, level), prev, Follow(m, head, prev)), With(o, n, k);
            && n !in m && n in m' && m'[n].v == At(block, level) && n in o'
            && UpOk(m', HeadAfter(head, prev, To(n)), o', block, n + 1)
            && m'.Keys == m.Keys + {n}
            && (forall u :: u in m ==> u in m' && m'[u].v == m[u].v && m'[u].value == m[u].value)
    ensures forall u :: u in o && u in m ==> m[u].v != At(block, level)
  {
    hide *;
    var next := if k < |o| then To(o[k]) else Null;
    var v := At(block, level);
    PlaceFacts(m, head, o, n, prev, k, block);
    UpParts(m, head, o, block, n);
    InsertLinks(m, head, o, n, v, k);
    OnlyLinks(m, n, v, prev, next);
    var m' := LinkedIn(m, n, v, prev, next);
    assert m'.Keys == m.Keys + {n};
    InsertDescends(m, o, block, m', n, k, level);
    NewClosed(m, o, n, m', k);
    UpFold(m', HeadAfter(head, prev, To(n)), With(o, n, k), block, n + 1);
    LevelsDiffer(m, o, block, level, k);
    InWith(o, n, k);
  }

  lemma UpFold(m: Memory, head: Ref, o: seq<nat>, block: Block, n: nat)
    requires Linked(m, head, o) && Descends(m, o, block) && ClosedOwn(m, o, n)
    ensures UpOk(m, head, o, block, n)
  {
  }

  lemma PlaceFacts(m: Memory, head: Ref, o: seq<nat>, n: nat, prev: Link, k: nat, block: Block)
    requires UpOk(m, head, o, block, n) && k <= |o| && prev == ListPrev(o, k)
    ensures n !in m && Follow(m, head, prev) == (if k < |o| then To(o[k]) else Null)
    ensures prev.NextOf? ==> prev.prev in m && prev.prev != n
    ensures k < |o| ==> o[k] in m && o[k] != n
  {
    if k > 0 { LinkedAt(m, head, o, k - 1); }
    if k < |o| { LinkedAt(m, head, o, k); }
  }

  lemma NewClosed(m: Memory, o: seq<nat>, n: nat, m': Memory, k: nat)
    requires ClosedOwn(m, o, n) && k <= |o|
    requires forall u :: u in m' ==> u == n || (u in m && m'[u].v == m[u].v)
    ensures ClosedOwn(m', With(o, n, k), n + 1)
  {
    InWith(o, n, k);
  }

  lemma InWith(o: seq<nat>, n: nat, k: nat)
    requires k <= |o|
    ensures forall u :: u in With(o, n, k) <==> u in o || u == n
  {
    assert o == o[..k] + o[k..];
  }

  lemma LevelsDiffer(m: Memory, o: seq<nat>, block: Block, level: nat, k: nat)
    requires k <= |o| && Descends(m, o, block)
    requires (forall i :: 0 <= i < k ==> Level(m, o[i]) > level)
    requires (forall i :: k <= i < |o| ==> Level(m, o[i]) < level)
    ensures forall u :: u in o && u in m ==> m[u].v != At(block, level)
  {
    forall u | u in o && u in m ensures m[u].v != At(block, level) {
      var i :| 0 <= i < |o| && o[i] == u;
      assert Level(m, o[i]) != level;
    }
  }
}
