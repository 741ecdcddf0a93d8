/**
 The list of to-be-closed variables (lfunc.c): it lives in the stack itself, as the distance from each
 variable to the one before, with dummy nodes where a distance is too big.
 */
module TbcList {
  import opened UpvalueList

  const MAXDELTA: nat := 65535

  /** The distances stored in the stack. */
  type Deltas = seq<nat>

  /** Where the dummy nodes from 'x' down end. */
  function SkipDummies(d: Deltas, x: nat): (b: nat)
    requires x < |d|
    ensures b <= x
    decreases x
  {
    if x >= MAXDELTA && d[x] == 0 then SkipDummies(d, x - MAXDELTA) else x
  }

  /** The variable at level 'l' comes right after the one at level 'b', or is the first one when that is zero. */
  predicate Follows(d: Deltas, b: nat, l: nat)
  {
    && l < |d| && 0 < d[l] <= l && d[l] <= MAXDELTA
    && (b > 0 ==> b < |d| && d[b] > 0)
    && SkipDummies(d, l - d[l]) == b
  }

  function Last(levels: seq<nat>): nat
  {
    if levels == [] then 0 else levels[|levels| - 1]
  }

  function Front(levels: seq<nat>): seq<nat>
    requires levels != []
  {
    levels[..|levels| - 1]
  }

  /** The list that ends at 'tbc' has the variables at these levels, in the order they were created. */
  predicate IsList(d: Deltas, tbc: nat, levels: seq<nat>)
    decreases |levels|
  {
    && tbc == Last(levels) < |d|
    && (levels != [] ==> Follows(d, Last(Front(levels)), tbc) && IsList(d, Last(Front(levels)), Front(levels)))
  }

  lemma {:induction false} SkipSame(d: Deltas, d': Deltas, x: nat)
    requires x < |d| && x < |d'| && forall y :: 0 <= y <= x ==> d'[y] == d[y]
    ensures SkipDummies(d', x) == SkipDummies(d, x)
    decreases x
  {
    if x >= MAXDELTA && d[x] == 0 { SkipSame(d, d', x - MAXDELTA); }
  }

  /** Nothing above the last variable matters to the list. */
  lemma {:induction false} ListSame(d: Deltas, d': Deltas, tbc: nat, levels: seq<nat>)
    requires IsList(d, tbc, levels) && tbc < |d'| && forall y :: 0 <= y <= tbc ==> d'[y] == d[y]
    ensures IsList(d', tbc, levels)
    decreases |levels|
  {
    if levels != [] {
      SkipSame(d, d', tbc - d[tbc]);
      ListSame(d, d', Last(Front(levels)), Front(levels));
    }
  }

  /** Levels are in strictly ascending order, and all above the base of the stack. */
  lemma {:induction false} ListAscends(d: Deltas, tbc: nat, levels: seq<nat>)
    requires IsList(d, tbc, levels)
    ensures forall i :: 0 <= i < |levels| ==> 0 < levels[i] <= tbc && d[levels[i]] > 0
    ensures forall i, j :: 0 <= i < j < |levels| ==> levels[i] < levels[j]
    decreases |levels|
  {
    if levels != [] {
      ListAscends(d, Last(Front(levels)), Front(levels));
    }
  }

  /** Dummy nodes from 'b' up to 'x'. */
  ghost predicate Dummies(d: Deltas, b: nat, x: nat)
    requires x < |d| && b <= x
    decreases x - b
  {
    x == b || (x - b >= MAXDELTA && d[x] == 0 && Dummies(d, b, x - MAXDELTA))
  }

  lemma {:induction false} SkipToBase(d: Deltas, b: nat, x: nat)
    requires b <= x < |d| && Dummies(d, b, x) && (b == 0 || d[b] > 0)
    ensures SkipDummies(d, x) == b
    decreases x
  {
    if x > b { SkipToBase(d, b, x - MAXDELTA); }
  }

  lemma {:induction false} DummiesSame(d: Deltas, d': Deltas, b: nat, x: nat)
    requires b <= x < |d| && x < |d'| && Dummies(d, b, x) && forall y :: b <= y <= x ==> d'[y] == d[y]
    ensures Dummies(d', b, x)
    decreases x
  {
    if x > b { DummiesSame(d, d', b, x - MAXDELTA); }
  }

  /** A dummy node at maximum distance from the last node. */
  lemma OneMoreDummy(d: Deltas, levels: seq<nat>, x: nat)
    requires IsList(d, Last(levels), levels) && Last(levels) <= x && x + MAXDELTA < |d| && Dummies(d, Last(levels), x)
    ensures var d' := d[x + MAXDELTA := 0]; IsList(d', Last(levels), levels) && Dummies(d', Last(levels), x + MAXDELTA)
  {
    var d' := d[x + MAXDELTA := 0];
    ListSame(d, d', Last(levels), levels);
    DummiesSame(d, d', Last(levels), x);
  }

  /** The new variable closes the list. */
  lemma OneMoreLevel(d: Deltas, levels: seq<nat>, x: nat, level: nat)
    requires IsList(d, Last(levels), levels) && Last(levels) <= x < level < |d| && level - x <= MAXDELTA
    requires Dummies(d, Last(levels), x)
    ensures IsList(d[level := level - x], level, levels + [level])
  {
    var d', b := d[level := level - x], Last(levels);
    ListSame(d, d', b, levels);
    ListAscends(d, b, levels);
    DummiesSame(d, d', b, x);
    SkipToBase(d', b, x);
    assert Front(levels + [level]) == levels;
  }

  // ---- Closing ---------------------------------------------------------------------------------------------

  /** A slot above the variable gets another content: the error object, or what the call uses. */
  datatype Write = Write(i: nat, x: StackValue)

  /**
   How a closing method ends: well, or with an error, which may leave other variables pending and other
   upvalues open above its own variable.
   */
  datatype Outcome =
    | Returns(writes: seq<Write>)
    | Throws(status: nat, pending: seq<nat>, captured: seq<nat>, writes: seq<Write>)

  function WritesOf(script: seq<Outcome>): seq<Write>
  {
    if script != [] then script[0].writes else []
  }

  /** The upvalues that the first call leaves open. */
  function CapturedBy(script: seq<Outcome>): seq<nat>
  {
    if script != [] && script[0].Throws? then script[0].captured else []
  }

  datatype Call = Call(level: nat, status: nat)

  /** The calls to closing methods, and the final status. */
  datatype Closing = Closing(calls: seq<Call>, status: nat)

  function Rest(script: seq<Outcome>): seq<Outcome>
  {
    if script == [] then [] else script[1..]
  }

  /** What the call to the last method leaves pending. */
  function NextPending(pending: seq<nat>, script: seq<Outcome>): seq<nat>
    requires pending != []
  {
    Front(pending) + ThrownBy(script)
  }

  /** The variables that the first call leaves pending. */
  function ThrownBy(script: seq<Outcome>): seq<nat>
  {
    if script != [] && script[0].Throws? then script[0].pending else []
  }

  function NextStatus(status: nat, script: seq<Outcome>): nat
  {
    if script != [] && script[0].Throws? then script[0].status else status
  }

  /**
   Each pending variable is closed, the last one first, with the status of the last error; 'script' is how the calls
   end.
   */
  function CloseAll(pending: seq<nat>, status: nat, script: seq<Outcome>): Closing
    decreases Pushed(script) + |pending|
  {
    if pending == [] then Closing([], status)
    else
      var next := CloseAll(NextPending(pending, script), NextStatus(status, script), Rest(script));
      Closing([Call(Last(pending), status)] + next.calls, next.status)
  }

  /** How many variables the errors of a script leave pending. */
  function Pushed(script: seq<Outcome>): nat
  {
    if script == [] then 0 else |ThrownBy(script)| + Pushed(script[1..])
  }

  function LevelsOf(calls: seq<Call>): seq<nat>
  {
    seq(|calls|, i requires 0 <= i < |calls| => calls[i].level)
  }

  function Reversed(s: seq<nat>): seq<nat>
  {
    if s == [] then [] else [Last(s)] + Reversed(Front(s))
  }

  lemma CloseUnfold(pending: seq<nat>, status: nat, script: seq<Outcome>)
    requires pending != []
    ensures CloseAll(pending, status, script) ==
            (var next := CloseAll(NextPending(pending, script), NextStatus(status, script), Rest(script));
             Closing([Call(Last(pending), status)] + next.calls, next.status))
    ensures Pushed(Rest(script)) + |NextPending(pending, script)| < Pushed(script) + |pending|
  {
  }

  /**
   The errors only change the status: without more variables, all are closed once, in the reverse order of their
   creation.
   */
  lemma {:induction false} CloseReverses(pending: seq<nat>, status: nat, script: seq<Outcome>)
    requires Pushed(script) == 0
    ensures LevelsOf(CloseAll(pending, status, script).calls) == Reversed(pending)
    decreases |pending|
  {
    if pending != [] {
      assert NextPending(pending, script) == Front(pending);
      CloseReverses(Front(pending), NextStatus(status, script), Rest(script));
      LevelsCons(Call(Last(pending), status), CloseAll(Front(pending), NextStatus(status, script), Rest(script)).calls);
    }
  }

  /** The status of the last of the errors, or the one there was before. */
  function LastError(status: nat, script: seq<Outcome>, n: nat): nat
    decreases n
  {
    if n == 0 || script == [] then status
    else LastError(NextStatus(status, script), script[1..], n - 1)
  }

  /** The last of the first 'n' calls that throws. */
  ghost predicate LastThrow(script: seq<Outcome>, n: nat, i: nat)
  {
    && i < n && i < |script| && script[i].Throws?
    && forall j :: i < j < n && j < |script| ==> !script[j].Throws?
  }

  /** None of the first 'n' calls throws. */
  ghost predicate NoThrow(script: seq<Outcome>, n: nat)
  {
    forall j :: 0 <= j < n && j < |script| ==> !script[j].Throws?
  }

  lemma {:induction false} LastErrorIs(status: nat, script: seq<Outcome>, n: nat)
    ensures NoThrow(script, n) ==> LastError(status, script, n) == status
    ensures forall i: nat :: LastThrow(script, n, i) ==> LastError(status, script, n) == script[i].status
    decreases n
  {
    if n > 0 && script != [] {
      var next, rest := NextStatus(status, script), script[1..];
      LastErrorIs(next, rest, n - 1);
      forall j | 0 <= j < |rest| ensures rest[j] == script[j + 1] {
      }
      if NoThrow(script, n) {
        assert !script[0].Throws? && NoThrow(rest, n - 1);
      }
      forall i: nat | LastThrow(script, n, i) ensures LastError(status, script, n) == script[i].status {
        if i == 0 {
          assert NoThrow(rest, n - 1);
        } else {
          assert LastThrow(rest, n - 1, i - 1);
        }
      }
    }
  }

  /**
   The final status is that of the last call that throws, or the first status if none does; and each method was
   called with the status of the last one before it that threw.
   */
  lemma {:induction false} CloseStatus(pending: seq<nat>, status: nat, script: seq<Outcome>)
    ensures var c := CloseAll(pending, status, script);
            && (NoThrow(script, |c.calls|) ==> c.status == status)
            && (forall i: nat :: LastThrow(script, |c.calls|, i) ==> c.status == script[i].status)
            && forall k :: 0 <= k < |c.calls| ==>
                 && (NoThrow(script, k) ==> c.calls[k].status == status)
                 && forall i: nat :: LastThrow(script, k, i) ==> c.calls[k].status == script[i].status
  {
    var c := CloseAll(pending, status, script);
    StatusFolds(pending, status, script);
    hide CloseAll, LastError, NoThrow;
    LastErrorIs(status, script, |c.calls|);
    forall k | 0 <= k < |c.calls|
      ensures NoThrow(script, k) ==> c.calls[k].status == status
      ensures forall i: nat :: LastThrow(script, k, i) ==> c.calls[k].status == script[i].status
    {
      LastErrorIs(status, script, k);
    }
  }

  lemma {:induction false} StatusFolds(pending: seq<nat>, status: nat, script: seq<Outcome>)
    ensures var c := CloseAll(pending, status, script);
            && c.status == LastError(status, script, |c.calls|)
            && forall i :: 0 <= i < |c.calls| ==> c.calls[i].status == LastError(status, script, i)
    decreases Pushed(script) + |pending|
  {
    if pending != [] {
      StatusFolds(NextPending(pending, script), NextStatus(status, script), Rest(script));
    }
  }

  /** The variables left pending by the first 'n' calls. */
  function LeftBy(script: seq<Outcome>, n: nat): seq<nat>
    decreases n
  {
    if n == 0 || script == [] then []
    else (if script[0].Throws? then script[0].pending else []) + LeftBy(script[1..], n - 1)
  }

  lemma MultisetFront(s: seq<nat>)
    requires s != []
    ensures multiset(s) == multiset(Front(s)) + multiset{Last(s)}
  {
    assert s == Front(s) + [Last(s)];
  }

  lemma LevelsCons(c: Call, calls: seq<Call>)
    ensures LevelsOf([c] + calls) == [c.level] + LevelsOf(calls)
  {
  }

  /** Every variable that was pending, or was left so by an error, is closed exactly once. */
  lemma {:induction false} CloseOnce(pending: seq<nat>, status: nat, script: seq<Outcome>)
    ensures var c := CloseAll(pending, status, script);
            multiset(LevelsOf(c.calls)) == multiset(pending) + multiset(LeftBy(script, |c.calls|))
    decreases Pushed(script) + |pending|
  {
    if pending != [] {
      var next := CloseAll(NextPending(pending, script), NextStatus(status, script), Rest(script));
      CloseOnce(NextPending(pending, script), NextStatus(status, script), Rest(script));
      assert CloseAll(pending, status, script).calls == [Call(Last(pending), status)] + next.calls;
      hide CloseAll, LevelsOf, LeftBy;
      MultisetFront(pending);
      LevelsCons(Call(Last(pending), status), next.calls);
      LeftNext(script, |next.calls|);
    }
  }

  lemma LeftNext(script: seq<Outcome>, n: nat)
    ensures LeftBy(script, n + 1) == ThrownBy(script) + LeftBy(Rest(script), n)
  {
    NothingLeft(n);
  }

  lemma NothingLeft(n: nat)
    ensures LeftBy([], n) == []
  {
  }
}
