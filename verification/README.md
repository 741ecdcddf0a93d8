# Verified models of the Lua core

This project models the parts of the Lua 5.5 interpreter under `apps/lua` whose correctness is hardest to
see from the code, and proves what their comments, headers and manual promise.

- **Collector** (`Gc*.dfy`): the incremental collector of `lgc.c` as steps over a heap of tables, userdata,
  closures and prototypes (blocks), strings, threads and upvalues, with weak tables, ephemerons, finalizers, both
  barriers, and every interleaving of the program with `singlestep`; and whole collections (`GcProgress`), which come to
  an end and leave exactly what is alive.
- **Generational mode** (`Gen*.dfy`): the ages of objects, minor collections, the way into the mode, both barriers,
  and runs of all that.  Two places of `lgc.h:126-160` do not hold of the code, which the model follows.  A thread
  that reaches age OLD1 by surviving is black, and in no list, until the next collection marks it again
  (`GenCycle.ThreadColor`, `GenMissed.BlackThread`).  And an old object can come to refer to a new one: a forward
  barrier that marks a closed upvalue, or userdata without user values, marks what it holds too, and that object
  stays young without being white, so that no later barrier sees it.  The collection after that is still safe, but a
  later one can free an object that the program can reach (`GenMissed.ObjectLost`).  `GenMutator.StoreKeeps` and
  `GenRun.AfterKeeps` say exactly which stores do this, `GenRun.RunSafety` that runs without them lose nothing,
  `GenRun.RunTraced` exactly which runs keep their collections safe, and `GenRun.CalmRun` that there are no such
  stores until such a barrier has acted.
- **Tables** (`TableNodes`, `TableSizes`, `LuaTable`, `TableRehash`, `TableNext`, `TableLength`): the array part,
  the chained scatter hash with its relative links, rehashing, traversal and borders of `ltable.c`.
- **Code generator** (`Code*.dfy`): `and`, `or`, `not` and comparisons in `lcode.c`, with jump lists threaded
  through the jumps themselves, against a machine with the meanings that `lopcodes.h` gives to the opcodes.
- **Line information** (`LineInfo`): the encoder in `lcode.c` and the decoder in `ldebug.c`.
- **Stack** (`UpvalueList`, `TbcList`, `Upvalues`): open upvalues, to-be-closed variables, stack moves, and
  closing under errors, in `lfunc.c` and `ldo.c`.
- **Strings** (`Pattern*`, `Pack*`, `Quote*`): the pattern matcher, its users and the language of its patterns,
  `string.pack` and `string.unpack` with the layout of what they write, and `%q` together with the lexer that reads it
  back and its escape sequences.
- **Sort, parser, string table** (`Sort`, `Precedence`, `StringChains`, `StringTable`).

Objects that the code updates in place are classes with the same fields, and loops are loops; methods are proved
against functions and predicates on values, and the lemmas are about those.  Comparison functions, `__gc`,
`__close`, replacement functions, hash functions, character classes and allocation failures are arbitrary
parameters, so what is proved holds for all of them.

`dafny verify dfyconfig.toml` checks the whole project.

## Model

| member | source | states |
|---|---|---|
| `GcMark.ReallyMark` | apps/lua/lgc.c:339-372 | A white object gets marked, with what strings, closed upvalues and plain userdata need at once; the marking invariant holds again, what was marked stays so, and nothing outside the closed set given is marked. |
| `GcMark.TraverseEphemeron` | apps/lua/lgc.c:541-573 | Keeps the marking invariant in either direction; when it reports no new mark, only strings were marked and every entry with a marked key has a marked value; the table goes to at most one list. |
| `GcMark.TraverseTable` | apps/lua/lgc.c:608-628 | Keeps the marking invariant for tables of every mode: what the table holds strongly is marked, or the table waits in the list that its mode and state ask for. |
| `GcMark.TraverseThread` | apps/lua/lgc.c:695-720 | The stack and the open upvalues get marked; in the propagate phase the thread goes back to `grayagain`, and in the atomic one back to `twups` if it has open upvalues. |
| `GcMark.PropagateMark` | apps/lua/lgc.c:727-740 | One gray object leaves the list with the marking invariant kept, so its references are marked or its table waits in a weak list; only growing marks can lengthen the list. |
| `GcMark.ConvergeEphemerons` | apps/lua/lgc.c:755-774 | Terminates, and leaves no ephemeron table with a marked key and an unmarked value, whatever the order of the list and the direction of the passes. |
| `GcLive.LiveIsLeast` | apps/lua/lgc.c:541-573 | `Live` is the least set with the roots that is closed under strong references and under "key marked implies value marked". |
| `GcLive.MarkedIsLive` | apps/lua/lgc.c:755-774 | When marking is over the marked objects are, up to strings, exactly `Live` of the roots and of what was marked before: marking is least, and does not depend on any order. |
| `GcLive.HoldsMeaning` | apps/lua/lgc.c:541-628 | What `Live` asks of each object, field by field: strong tables, userdata, blocks, threads and upvalues hold all that they refer to; weak values hold only strings, weak keys their metatable and array, and ephemerons the values of entries whose keys are held. |
| `GcExact.SameRevived` | apps/lua/lgc.c:1543-1581 | Clearing dead weak values before the objects to be finalized are marked makes no difference, up to strings, to what is marked in the end. |
| `GcAtomic.RemarkUpvals` | apps/lua/lgc.c:406-426 | Values of visited open upvalues of unmarked threads get marked; `twups` then has marked threads with open upvalues only, among them all those that were marked before. |
| `GcAtomic.MarkLive` | apps/lua/lgc.c:1543-1565 | The first half of `atomic`: no object is left gray or pending, ephemerons have converged, the roots are marked, nothing outside the closed set given is, and `twups` has the marked threads with open upvalues. |
| `GcClear.ClearByValues` | apps/lua/lgc.c:808-826 | Exactly the entries with lost values leave the tables of the list; strings found on the way are marked. |
| `GcClear.ClearByKeys` | apps/lua/lgc.c:789-801 | Exactly the entries with lost keys leave the tables of the list. |
| `GcFinish.SeparateToBeFnz` | apps/lua/lgc.c:1023-1040 | The unmarked objects of `finobj` move to the end of `tobefnz`, both parts in their old order. |
| `GcFinish.OnlySplits` | apps/lua/lgc.c:1023-1040 | That split loses and repeats no object. |
| `GcFinish.AtomicStep` | apps/lua/lgc.c:1543-1581 | After `atomic` what is marked is, up to strings, exactly what is alive or is brought back to life by the objects to be finalized; every reference of a marked object, weak ones included, is to a marked object; what went to `tobefnz` is what was not alive; an entry left a weak table only because its value was not alive or its key not even resurrected, and no such entry is left in one that is alive; the white is flipped. |
| `GcMutator.StoreBack` | apps/lua/lgc.c:268-279 | A store with the backward barrier keeps the invariant of the collector in every state. |
| `GcMutator.BarrierMark` | apps/lua/lgc.c:246-261 | The forward barrier while marking restores the invariant that the store had broken. |
| `GcMutator.StoreForward` | apps/lua/lgc.c:246-261 | A store with the forward barrier keeps the invariant of the collector in every state. |
| `GcAlloc.NewObject` | apps/lua/lgc.c:297-306 | A new object has the current white and the invariant holds, also in the middle of a sweep. |
| `GcAlloc.CloseUpVal` | apps/lua/lfunc.c:197-210 | The upvalue leaves its thread with the value of its slot, and the invariant of the collector holds, whether or not the upvalue was visited. |
| `GcAlloc.FindString` | apps/lua/lstring.c:214-226 | Finding a dead string that is not collected yet brings it back to life and keeps the invariant. |
| `GcAlloc.Fix` | apps/lua/lgc.c:282-290 | The first object of `allgc`, a string, moves to `fixedgc`, where it stays marked; the invariant holds. |
| `GcSweep.SweepOne` | apps/lua/lgc.c:892-909 | One turn of the loop of `sweeplist` removes an object or goes past it, one step nearer to the end; the pointer stays in the list, and nothing that is kept changes but for open upvalues of freed threads. |
| `GcSweep.SweepList` | apps/lua/lgc.c:892-909 | Exactly that many objects are swept, or all there are left, and the pointer is gone exactly when none is left; nothing that is kept changes, but for open upvalues of freed threads, which are closed with their values. |
| `GcSweep.SweepToLive` | apps/lua/lgc.c:915-921 | The sweep goes on until the pointer moves, and keeps the invariant. |
| `GcSweep.EnterSweep` | apps/lua/lgc.c:1504-1509 | The first sweep state begins with the pointer off the head of the list, so that newer objects are not swept; nothing kept is lost. |
| `GcSweep.SweepStep` | apps/lua/lgc.c:1588-1596 | Sweeps GCSWEEPMAX more objects of the current list, or all of them in a hurry, or when there are none left goes on to the head of the next list; nothing kept is lost. |
| `GcFinalize.CheckFinalizer` | apps/lua/lgc.c:1068-1090 | An object without the bit and with a finalizer goes to the head of `finobj` and gets marked once, and the invariant holds, so the sweep pointer is still in the list being swept; otherwise nothing happens. |
| `GcFinalize.PointerInList` | apps/lua/lgc.c:1077-1080 | The sweep pointer can only be at an object of `allgc` while `allgc` is being swept. |
| `GcFinalize.Udata2Finalize` | apps/lua/lgc.c:947-959 | The first object of `tobefnz` goes back to `allgc`, alive and without the bit, and its call is what the log of calls gets. |
| `GcFinalize.CallFinalizer` | apps/lua/lgc.c:968-993 | Exactly the first object of `tobefnz` is handed to its finalizer: it is on the stack of the running thread, alive, and the next in the log of calls. |
| `GcCycle.RestartCollection` | apps/lua/lgc.c:440-447 | A new cycle starts: the invariant of the propagate phase holds, and nothing dies. |
| `GcCycle.AtomicStepSafe` | apps/lua/lgc.c:1634-1640 | The step to the first sweep state: the invariant holds, nothing reachable is lost, exactly the dead objects of `finobj` follow those of `tobefnz`, and what is kept is what the roots and these keep alive. |
| `GcCycle.SingleStep` | apps/lua/lgc.c:1617-1686 | Any step, in any state, keeps the invariant, frees nothing that is strongly accessible from the roots or waits for its finalizer, and changes live objects only by weak entries that go, upvalues that close with their values, and the finalizer argument on the running stack.  And it does the work of the state: it marks the roots, traverses the first gray object, finishes the marking, sweeps GCSWEEPMAX more objects, or hands over exactly the first object of `tobefnz`; the state changes exactly when nothing of that is left. |
| `GcCycle.BodiesAtomic` | apps/lua/lgc.c:1543-1581 | The atomic step leaves live objects as they were, but for entries of weak tables whose key or value was not alive. |
| `GcCycle.BodiesSwept` | apps/lua/lgc.c:892-909 | Sweeping leaves live objects as they were, but for upvalues of freed threads, which keep their values. |
| `GcCycle.AbandonMarking` | apps/lua/lgc.c:1770-1778 | Restarting a full collection while marking sweeps the marks away and frees nothing. |
| `GcCycle.FinalizedOnce` | apps/lua/lgc.c:947-959 | In every state each object was handed to its finalizer once for each time it was marked for that, but for the last mark while it is in `finobj` or `tobefnz`. |
| `GcCycle.FinalizedInTurn` | apps/lua/lgc.c:1015-1040 | Over a whole run the objects handed to their finalizers, followed by those that wait, go cycle by cycle and, in each cycle, in the reverse order of their marks. |
| `GcCycle.NoDeadLeft` | apps/lua/lgc.c:892-909 | Once `allgc` was swept, everything in the heap is kept: no dead object is left. |
| `GcProgress.EachStepAdvances` | apps/lua/lgc.c:1617-1686 | Each step goes to the next state, in the order of `lgc.h`, or leaves less work in the same state: fewer objects unmarked or gray, fewer to sweep, or fewer to be finalized. |
| `GcProgress.ComesBack` | apps/lua/lgc.c:1617-1686 | From any state, with steps in a hurry or not, enough steps come to the pause. |
| `GcProgress.CycleIsComplete` | apps/lua/lgc.c:1617-1686 | From one pause to the next: what is left in the heap is, up to strings, exactly what was alive at the start or brought back to life by the objects to be finalized; the calls since then and the objects that still wait are, in order, those that waited and those of `finobj` that were not alive; and none waits if the last step could call finalizers. |
| `GcProgress.RunTilState` | apps/lua/lgc.c:1694-1698 | Terminates in the state asked for, from any state, and takes the collection under way there. |
| `GcProgress.FullInc` | apps/lua/lgc.c:1770-1779 | From any state ends in the pause after one whole collection that started in a pause: exactly what was alive in that pause, or brought back to life, is left, and everything else with a finalizer was handed over, if finalizers can be called. |
| `GcPhase.ReachableIsKept` | apps/lua/lgc.h:17-29 | Whatever the program can reach, through weak references too, is not dead. |
| `GcPhase.ReadsKept` | apps/lua/lgc.h:17-29 | Every field of an object that is not dead, of any kind, holds no dead object. |
| `GcRun.Step` | apps/lua/lgc.h:17-29 | Each operation of the program has exactly the effect asked for, and keeps the invariant; each step of the collector does what `GcCycle.SingleStep` says. |
| `GcRun.Run` | apps/lua/lgc.h:17-29 | In any run of operations and steps of the collector in any order, from each state to the next: everything reachable is in the heap, operations do exactly what they say, and steps of the collector get it further and leave the bodies of live objects as `GcCycle.SingleStep` says. |
| `GenMark.MarkKeeps` | apps/lua/lgc.c:339-372 | Marking an object, white or an old one to be visited again, keeps the invariant of marking: every marked object is in a gray list, still to be looked at, or refers to marked objects only; and it marks nothing outside any closed set that holds the object. |
| `GenMark.Traverse` | apps/lua/lgc.c:695-741 | An object taken from the gray list is done once its references are marked: touched objects and old threads go to `grayagain`, and what was touched in the last cycle becomes old. |
| `GenAtomic.MarkingStarts` | apps/lua/lgc.h:126-160 | Before a minor collection, the OLD1 objects and those in `grayagain` and `gray` are all that is going to be visited: with every other marked object taken as one that is not looked into, the invariant of marking holds. |
| `GenAtomic.MarkOld` | apps/lua/lgc.c:1276-1286 | All OLD1 objects from `firstold1` on become old, and those that are black are marked again. |
| `GenAtomic.MarkYoung` | apps/lua/lgc.c:1335-1351 | Marking from the roots and these objects alone ends with everything marked, but for objects that are not looked into, referring to marked objects, and marks nothing that cannot be reached in this way from the roots or the objects that were already marked. |
| `GenSweep.SweepGen` | apps/lua/lgc.c:1172-1212 | Frees exactly the white objects of a part of the list, keeps the order of the others, takes their ages further, makes new ones white, and finds the first that becomes OLD1. |
| `GenCorrect.CorrectGrayList` | apps/lua/lgc.c:1227-1254 | Keeps in the list, in order, the objects touched in this cycle and the threads that are not white; what it removes and is not white becomes black, and old if it was touched in the last cycle. |
| `GenCorrect.Sweep2Old` | apps/lua/lgc.c:1136-1160 | Frees exactly the white objects; the others become old, threads gray and listed once, and everything else black. |
| `GenCycle.CollectedBase` | apps/lua/lgc.h:126-160 | A heap whose live objects have taken one step in age, with the colors and lists that go with it: ages agree with the places in `allgc`, old objects are not white, gray ones are listed, and no young object is marked. |
| `GenCycle.CollectedTricolor` | apps/lua/lgc.c:1335-1380 | After a minor collection, what the next one will not look into refers to marked objects only, if and only if no kept object of age OLD1, OLD or TOUCHED2, threads apart, referred to a new one. |
| `GenCycle.CollectedAges` | apps/lua/lgc.h:126-160 | Where the ages of objects and of their references are as described there, they are so again after a minor collection. |
| `GenCycle.ThreadColor` | apps/lua/lgc.h:126-160 | A minor collection leaves a live thread black if and only if it had age SURVIVAL; then it has age OLD1 and is in no list. |
| `GenMissed.BlackThread` | apps/lua/lgc.h:126-160 | A state with all invariants in which a collection makes a thread black, in no list, and of age OLD1. |
| `GenMinor.YoungCollection` | apps/lua/lgc.c:1335-1380 | From any heap without references to freed objects, a minor collection leaves exactly what can be reached from the roots and the marked objects without looking into black objects that are neither listed nor OLD1, unchanged and each one age older, with `grayagain` holding the touched objects and the old threads, and no young object marked. |
| `GenMinor.NothingLost` | apps/lua/lgc.c:1335-1380 | If the marked objects that are not looked into refer to marked objects only, what a minor collection frees was white and out of reach, and everything that can be reached from the roots stays, with its references. |
| `GenMinor.NoDangling` | apps/lua/lgc.c:1335-1380 | Without that condition: no reference to a freed object is left if and only if the objects that were not looked into refer to kept objects. |
| `GenMinor.StaysTraced` | apps/lua/lgc.c:1335-1380 | That condition holds again after a minor collection if and only if no kept object of age OLD1, OLD or TOUCHED2, threads apart, referred to a new one. |
| `GenMinor.InvStays` | apps/lua/lgc.c:1335-1380 | If in addition no such object refers to a new one, that too holds again. |
| `GenMinor.AtomicToGen` | apps/lua/lgc.c:1389-1414 | Entering generational mode frees exactly what is not marked, makes everything else old, and establishes the invariant. |
| `GenMutator.StoreKeeps` | apps/lua/lgc.h:126-160 | A store with its barrier leaves the next collection safe whatever is stored; it keeps the invariant for all collections if and only if it is not one of a marked new object in a black object of age OLD1, OLD or TOUCHED2; and it keeps the ages of `lgc.h` if and only if the barrier acts, the object is not black, or its age may refer to the other. |
| `GenMutator.BackStore` | apps/lua/lgc.c:268-280 | When the back barrier acts, the object ends gray, TOUCHED1 and listed, lists have no repetitions, and what held before the store holds again: the marking condition, no settled object with a new one, and the ages. |
| `GenMutator.ForwardStore` | apps/lua/lgc.c:246-263 | When the forward barrier acts, the object stored ends marked, and OLD0 if the other is old, and what held before the store holds again: the marking condition, no settled object with a new one, and the ages. |
| `GenMutator.StoreExposes` | apps/lua/lgc.c:246-263 | A store leaves a young object marked exactly when its forward barrier marks a closed upvalue or userdata without user values that holds a white object. |
| `GenRun.AfterKeeps` | apps/lua/lgc.h:126-160 | Creating objects, writing to threads, changing roots and stores all leave the next collection safe, and keep the invariant if and only if no barrier misses the store; none does as long as no young object is marked. |
| `GenRun.Run` | apps/lua/lgc.h:126-160 | Any run of operations and minor collections goes on, keeping the invariant, up to the first operation that is impossible, or the first store of a marked new object in a black object of age OLD1, OLD or TOUCHED2. |
| `GenRun.CalmRun` | apps/lua/lgc.h:126-160 | In a run that never leaves a young object marked, no store is missed, whatever comes next, the invariant holds, and the ages are those of `lgc.h` all along. |
| `GenRun.RunSafety` | apps/lua/lgc.h:126-160 | A minor collection frees or changes no object that can be reached from the roots, if in the run no earlier collection came after a store of a marked new object in a black object of age OLD1, OLD or TOUCHED2. |
| `GenRun.RunTraced` | apps/lua/lgc.h:126-160 | The condition that makes a collection safe holds all along a run if and only if no collection before finds a kept object of age OLD1, OLD or TOUCHED2, threads apart, that refers to a new one. |
| `GenMissed.ObjectLost` | apps/lua/lgc.c:246-263 | A run of six operations from a state with all invariants and all objects in reach: the last collection frees an object that can be reached from the main thread, and an old table is left with a reference to it. |
| `GenMissed.OneMissed` | apps/lua/lgc.c:246-263 | In this run exactly the second store is missed, and exactly the forward barrier of the first one leaves a young object marked. |
| `GenMissed.StartInv` | apps/lua/lgc.c:1389-1414 | The first state of that run meets all invariants of the mode, no young object is marked, and every object can be reached. |
| `GenMissed.StartReached` | apps/lua/lgc.c:1389-1414 | A program gets to that state from one where the mode was just entered: it creates two objects, sets the upvalue, and has all of them on its stack. |
| `GenMissed.LoseObject` | apps/lua/lgc.c:1335-1380 | The collector, doing these operations, goes through such a run. |
| `TableNodes.PutAtEmpty` | apps/lua/ltable.c:890-894 | An insertion at an empty main position: the map gets the new entry, and chains and owners stay right. |
| `TableNodes.RelocateIntruder` | apps/lua/ltable.c:867-884 | An insertion that moves a colliding node out of its position to a free one: the map gets the new entry and loses none. |
| `TableNodes.LinkAfterOwner` | apps/lua/ltable.c:885-892 | An insertion chained after the owner of the main position: the map gets the new entry and loses none. |
| `TableNodes.HashPart.GetGeneric` | apps/lua/ltable.c:291-303 | The search from the main position finds the node of a key exactly when there is one; with `deadok` also a dead key with the same identity. |
| `TableNodes.HashPart.GetFreePos` | apps/lua/ltable.c:828-846 | A node never used, or none when all were used. |
| `TableNodes.HashPart.InsertKey` | apps/lua/ltable.c:858-894 | The map gets exactly one more entry; or nothing changes, because the position is taken and all nodes are in use. |
| `TableNodes.HashPart.InsertReserved` | apps/lua/ltable.c:901-910 | An insertion in a part with room reserved for its keys cannot fail. |
| `TableNodes.HashPart.ClearKey` | apps/lua/lgc.c:209-213 | Killing the key of an empty entry keeps all chains and entries. |
| `TableNodes.ChainShape` | apps/lua/ltable.c:13-24 | Chains are acyclic, no node has two predecessors, every key in use is found from its main position, a key elsewhere collides with one that is in its own position, and no live key is in two nodes. |
| `TableSizes.CeilLog2` | apps/lua/lobject.c:37-52 | The least exponent whose power of two is not below the argument. |
| `TableSizes.ComputeSizes` | apps/lua/ltable.c:446-467 | The smallest eligible power of two that holds the most integer keys, and how many it holds; eligible means at most three slots for each key, as the macro `arrayXhash` says. |
| `LuaTable.Table.Resize` | apps/lua/ltable.c:715-747 | The contents stay exactly the same with the new sizes, or nothing changes: a table overflow exactly when the hash part would be too big, and no memory exactly when an allocation that is needed fails; putting entries back never fails. |
| `LuaTable.Table.ReinsertHash` | apps/lua/ltable.c:637-650 | All entries of the old hash part go back. |
| `LuaTable.Table.ReinsertOldSlice` | apps/lua/ltable.c:675-687 | The entries of the slice that vanishes from the array go to the new hash part. |
| `TableRehash.NumUseArray` | apps/lua/ltable.c:488-513 | Counts the used slots of the array, slice by slice between powers of two. |
| `TableRehash.NumUseHash` | apps/lua/ltable.c:521-537 | Counts the live keys of the hash part, and the integer ones in their slices. |
| `TableRehash.ComputeNewSizes` | apps/lua/ltable.c:761-790 | The array gets the best size for all integer keys including the new one, or its old one, the hash part has room for all the other keys, and both are bounded by the number of keys. |
| `TableRehash.Rehash` | apps/lua/ltable.c:761-791 | The contents stay the same, and after success there is room for the new key; it can only fail because an allocation did, or because the table with the new key has too many keys for its hash part. |
| `TableRehash.NewKey` | apps/lua/ltable.c:913-925 | The key gets its value and nothing else changes, also when the table has to grow; there is no memory only if an allocation failed, and an overflow only if there are too many keys, so with memory the key is always stored; in an error nothing changes. |
| `TableRehash.Get` | apps/lua/ltable.c:1019-1041 | The value of the key in the contents, or nothing. |
| `TableRehash.Set` | apps/lua/ltable.c:1195-1199 | The contents with the key set, or removed when the value is empty; with memory and not too many keys it never fails. |
| `TableNext.Next` | apps/lua/ltable.c:361-381 | The first entry after the slot of the key, in the order of the slots; a key that a traversal returned is never an error, and one that no slot has, even as a dead key, always is. |
| `TableNext.Traverse` | apps/lua/ltable.c:361-381 | A traversal visits each live entry exactly once with its value, even when visited entries are cleared and their keys die meanwhile. |
| `TableLength.HashSearch` | apps/lua/ltable.c:1239-1268 | A border in the hash part, whatever the seed. |
| `TableLength.Getn` | apps/lua/ltable.c:1301-1343 | Always a border of the table, whatever the hint and the seed; only the hint changes. |
| `CodeJumps.Concat` | apps/lua/lcode.c:182-193 | The list now has the jumps of both lists, in that order, linked through the jumps themselves. |
| `CodeJumps.PatchListAux` | apps/lua/lcode.c:290-300 | Each jump of the list is patched once, by whether its test produces a value; tests get their register or become TEST; nothing else changes. |
| `CodeMachine.Patching` | apps/lua/lcode.c:290-300 | A run that stopped at a pending jump goes on from where the jump was patched to; other runs are the same. |
| `CodeMachine.TestRuns` | apps/lua/lopcodes.h:317 | OP_TEST goes on or jumps by whether the value is nil or false. |
| `CodeMachine.TestSetRuns` | apps/lua/lopcodes.h:318 | OP_TESTSET goes on, or copies the value and jumps, by whether it is nil or false. |
| `CodeMachine.NotRuns` | apps/lua/lopcodes.h:298 | OP_NOT gives true exactly for nil and false. |
| `CodeMachine.CompareRuns` | apps/lua/lopcodes.h:306-308 | Comparisons of registers jump by whether the relation of the opcode holds. |
| `CodeMachine.CompareConstRuns` | apps/lua/lopcodes.h:310-315 | Comparisons with constants and immediate operands jump by whether their relation holds, the greater ones with the operands exchanged. |
| `CodeMachine.NilMerge` | apps/lua/lcode.c:132-148 | Widening the last OP_LOADNIL gives the runs that one more OP_LOADNIL would, as long as no jump goes to the end of the code. |
| `CodeDischarge.Nil` | apps/lua/lcode.c:132-148 | The previous instruction is widened when it is OP_LOADNIL, no jump comes here, and the ranges touch, and otherwise a new one is emitted; `CodeDischarge.NilRuns` says that both do the same. |
| `CodeDischarge.NilRuns` | apps/lua/lcode.c:132-148 | With the previous instruction widened, every run sets the registers of the range to nil and does everything else as before. |
| `CodeDischarge.Discharge2Reg` | apps/lua/lcode.c:882-929 | The value of the expression goes to the register; its jumps stay as they are. |
| `CodeFinal.Exp2Reg` | apps/lua/lcode.c:971-993 | However the expression is computed, in all runs its value ends in the register, with all jumps of both lists patched. |
| `CodeFinal.FinishGood` | apps/lua/lcode.c:971-993 | Patching the lists to the final position and to the loads of booleans gives code for a value in a register. |
| `CodeConds.JumpOnCond` | apps/lua/lcode.c:1160-1172 | Emits a test that jumps exactly when the value has that truth, or inverts the condition of a NOT that it removes. |
| `CodeConds.GoIfTrue` | apps/lua/lcode.c:1178-1199 | The code goes through when the value is true and leaves by the false list, with the value, otherwise. |
| `CodeConds.GoIfFalse` | apps/lua/lcode.c:1205-1225 | The same with the truths exchanged. |
| `CodeConds.CodeNot` | apps/lua/lcode.c:1231-1259 | The code computes the negation, which is true exactly for nil and false: constants folded, comparisons negated, lists exchanged and without values. |
| `CodeExps.EvalMeans` | apps/lua/lobject.h:258 | The value of an expression, in one sentence for each operator: `and` and `or` give the first operand or the second by whether the first is nil or false, and `not` gives true exactly for nil and false. |
| `CodeBinary.SeqGood` | apps/lua/lcode.c:1787-1804 | The codes of both operands together, with their lists joined, compute `and` or `or`. |
| `CodeOperands.CodeOrder` | apps/lua/lcode.c:1634-1659 | The code computes the comparison, with immediate operands and swapped ones. |
| `CodeOperands.CodeEq` | apps/lua/lcode.c:1666-1691 | The code computes equality or inequality, with immediate and constant operands. |
| `CodeOperands.InfixComparison` | apps/lua/lcode.c:1735-1758 | The first operand is kept as a constant or put in a register before the second is read. |
| `CodeCompile.PosfixLogic` | apps/lua/lcode.c:1787-1804 | The descriptor of `and` and `or`, with the lists of both operands, computes the operation. |
| `CodeCompile.PosfixComparison` | apps/lua/lcode.c:1836-1858 | The descriptor of the comparison computes it, `>` and `>=` by swapping operands. |
| `CodeCompile.Compile` | apps/lua/lcode.c:1697-1861 | For every expression of `and`, `or`, `not`, comparisons, locals, upvalues and constants, the code computes its value in all runs, in whatever form its descriptor says. |
| `CodeResult.ExpToNextReg` | apps/lua/lcode.c:999-1004 | Running the emitted code leaves the value of the expression, as `and`, `or`, `not` and comparisons mean, in the next register, changes no register in use, and leaves no pending jump. |
| `CodeResult.ExpToAnyReg` | apps/lua/lcode.c:1011-1026 | The value is in the register returned, which for a local variable may be its own. |
| `CodeResult.AssignLocal` | apps/lua/lcode.c:1105-1112 | The variable gets the value that the expression has with the old values of all variables, itself included. |
| `CodeResult.GoIfCondition` | apps/lua/lcode.c:1178-1199 | The code goes on exactly when the value of the condition is neither nil nor false, and otherwise stops at one of the jumps of the list returned. |
| `CodeResult.Finish` | apps/lua/lcode.c:1911-1971 | Redirecting every jump to its final target, forward or backward, up to 100 hops, keeps which runs end, where, and with what registers. |
| `CodeResult.ExecEnds` | apps/lua/lopcodes.h:303-318 | A run of an expression that gets to its end is a run of the machine with steps in both directions. |
| `LineInfo.SavedRecords` | apps/lua/lcode.c:331-346 | The new entry gives its line exactly when the compiler knows the line of the last instruction or the entry is absolute; older entries keep theirs. |
| `LineInfo.RunValid` | apps/lua/lcode.c:331-377 | After any operations the absolute entries are where they are announced, and at most MAXIWTHABS apart. |
| `LineInfo.RunRecords` | apps/lua/lcode.c:331-392 | After any run that removes at most two entries in a row, as all runs of the compiler do, every instruction has the line last recorded for it. |
| `LineInfo.LineSaver.SaveLineInfo` | apps/lua/lcode.c:331-346 | Appends the relative or absolute entry of the line. |
| `LineInfo.LineSaver.RemoveLastLineInfo` | apps/lua/lcode.c:355-367 | The state without the last entry, valid again; `LineInfo.RemovedRecords` says what it means. |
| `LineInfo.RemovedRecords` | apps/lua/lcode.c:355-367 | Without the last entry all others still give their lines, and the compiler knows the last line, unless it makes the next entry an absolute one. |
| `LineInfo.LineSaver.FixLine` | apps/lua/lcode.c:1868-1871 | Changes the line of the last instruction and no other. |
| `LineInfo.EstimateIsLow` | apps/lua/ldebug.c:62-77 | The estimate of `getbaseline` is never beyond the right entry. |
| `LineInfo.GetBaseLine` | apps/lua/ldebug.c:62-77 | The last absolute entry not after the instruction, or the start of the function. |
| `LineInfo.GetFuncLine` | apps/lua/ldebug.c:85-97 | The line of the instruction. |
| `LineInfo.ChangedLine` | apps/lua/ldebug.c:881-899 | Agrees with comparing the two lines. |
| `LineInfo.CollectValidLines` | apps/lua/ldebug.c:292-320 | Exactly the lines of all instructions, but for the first one of a vararg function. |
| `LineInfo.FindRecorded` | apps/lua/ldebug.c:85-97 | For any run of the compiler, the line found is the one last recorded. |
| `UpvalueList.InsertLinks` | apps/lua/lfunc.c:65-80 | A new element, with its links both ways, is in its place in the list. |
| `UpvalueList.RemoveLinks` | apps/lua/lfunc.c:186-191 | The list without the element, with links both ways. |
| `UpvalueList.OnePerSlot` | apps/lua/lfunc.c:82-99 | Open upvalues of the same slot are the same one. |
| `Upvalues.LuaThread.FindUpVal` | apps/lua/lfunc.c:87-99 | The upvalue of the slot: the one in the list, or a new one only when there is none; the list stays sorted and other upvalues unchanged. |
| `Upvalues.LuaThread.CloseUpVal` | apps/lua/lfunc.c:197-210 | Exactly the upvalues at or above the level are closed, and all upvalues read the values that they did. |
| `Upvalues.LuaThread.ReallocStack` | apps/lua/ldo.c:330-354 | The stack moves with its contents, everything that points to it moves along, and no upvalue changes its value; without memory nothing changes. |
| `Upvalues.LuaThread.GrowStack` | apps/lua/ldo.c:361-388 | Room for the values asked for when the limit allows it; an overflow exactly when it does not. |
| `Upvalues.LuaThread.StackInUse` | apps/lua/ldo.c:395-407 | One more than the highest top, with a minimum. |
| `Upvalues.LuaThread.ShrinkStack` | apps/lua/ldo.c:419-431 | Reallocates exactly the stacks that are too big for their use, to the size said; no upvalue changes its value. |
| `Upvalues.LuaThread.NewTbcUpVal` | apps/lua/lfunc.c:172-183 | The list of levels gets the new one, with dummy nodes as needed, unless the value is false; without a closing method it is an error. |
| `Upvalues.LuaThread.PopTbcList` | apps/lua/lfunc.c:216-223 | The last level leaves the list, with its dummy nodes. |
| `TbcList.ListAscends` | apps/lua/lfunc.c:172-183 | The levels that the distances stand for are in strictly ascending order. |
| `TbcList.OneMoreLevel` | apps/lua/lfunc.c:179-182 | A distance stored at a level above adds that level to the list. |
| `Upvalues.LuaThread.Close` | apps/lua/lfunc.c:230-240 | Closes upvalues and then pending variables in turn, until one throws; what is left is what the script of calls says, and no upvalue changes its value. |
| `Upvalues.LuaThread.CloseProtected` | apps/lua/ldo.c:1067-1081 | Terminates under any pattern of errors, which may leave more variables pending and more upvalues open above; makes exactly the calls of `CloseAll`, with the status of the last error, leaves no variable pending and no upvalue open at or above the level, and no upvalue changes its value. |
| `Upvalues.LuaThread.SetErrorObj` | apps/lua/ldo.c:112-122 | The error object is at the old top, and the top right after it. |
| `Upvalues.LuaThread.PCallError` | apps/lua/ldo.c:1089-1106 | After an error everything from the old top on is closed, the error object is there, the calls are those from before, and no upvalue changes its value, also if the stack shrinks. |
| `TbcList.CloseOnce` | apps/lua/lfunc.c:230-240 | Each variable pending, at the start or because of an error, is closed exactly once. |
| `TbcList.CloseReverses` | apps/lua/lfunc.c:230-240 | Without more variables the order is last in, first out. |
| `TbcList.CloseStatus` | apps/lua/ldo.c:1067-1081 | The final status is that of the last method that threw, or the first one if none did, and so is the status that each method gets for the methods before it. |
| `PatternWays.BalanceMeaning` | apps/lua/lstrlib.c:488-505 | `%b` ends at the first position where everything opened was closed. |
| `PatternSets.ClassMeaning` | apps/lua/lstrlib.c:429-446 | A lower-case letter after `%` is its class, and the upper-case one all other characters. |
| `PatternSets.OtherClasses` | apps/lua/lstrlib.c:429-446 | `%z` is the zero, and any other character after `%` stands for itself. |
| `PatternSets.SetHas` | apps/lua/lstrlib.c:449-470 | A set written from any list of characters, ranges, both ends included, and classes has a character exactly when one of its members does. |
| `PatternSets.SetMeaning` | apps/lua/lstrlib.c:449-470 | The set ends where it was written to end, and matches what some member has, or with `^` what none has. |
| `PatternSets.FrontierMeaning` | apps/lua/lstrlib.c:604-616 | `%f` matches where the set does not have the previous character and has the next one, with zeros at both ends. |
| `PatternSets.SingleMeaning` | apps/lua/lstrlib.c:472-485 | A `.` matches any character, and a character without a meaning itself. |
| `Pattern.MatchState.DoMatch` | apps/lua/lstrlib.c:572-671 | Terminates with the first way to match in backtracking order, or no match exactly when there is none, or the error that comes first; on failure captures and depth are as before; "too complex" needs a pattern as long as the depth left. |
| `PatternLanguage.MatchesLanguage` | apps/lua/lstrlib.c:572-671 | For any pattern written from items with suffixes, groups inside each other, position captures, back references, `%b` and `%f`, with `$` at the end or not, the ways to match are exactly what these parts mean, with the captures of the groups as they are nested, and there is no error. |
| `PatternLanguage.Language` | apps/lua/lstrlib.c:572-671 | The same in the middle of a pattern: the matcher goes through the parts as they mean and then on with the rest. |
| `Pattern.MatchState.MaxExpand` | apps/lua/lstrlib.c:508-520 | The first success from the longest repetition to the shortest. |
| `Pattern.MatchState.MinExpand` | apps/lua/lstrlib.c:523-533 | The first success from the shortest repetition to the longest. |
| `Pattern.MatchState.StartCapture` | apps/lua/lstrlib.c:536-547 | The capture is open while the rest is matched, and undone on failure. |
| `Pattern.MatchState.EndCapture` | apps/lua/lstrlib.c:550-558 | The last open capture is closed while the rest is matched, and open again on failure. |
| `PatternFind.ItemHas` | apps/lua/lstrlib.c:625-663 | An item with its suffix matches any number of characters that the suffix allows and that all match it, and nothing else, whatever the order of trying. |
| `PatternFind.PlainParenthesis` | apps/lua/lstrlib.c:749-757 | For the pattern ")" the plain search finds what the matcher complains about. |
| `PatternFind.PlainAgrees` | apps/lua/lstrlib.c:749-757 | For a pattern without special characters the plain search gives what the matcher would, exactly when nothing makes the matcher come to a ")". |
| `PatternFind.MemFind` | apps/lua/lstrlib.c:675-694 | The first occurrence, or none. |
| `PatternFind.SearchPattern` | apps/lua/lstrlib.c:789-806 | The leftmost match with the first way to match there, at the start only for an anchored pattern. |
| `PatternFind.StrFind` | apps/lua/lstrlib.c:776-819 | The leftmost match; for a pattern without special characters exactly unless a ")" is reached; with `plain`, the first occurrence. |
| `PatternFind.Gsub` | apps/lua/lstrlib.c:945-987 | The text is the subject with the matches of its pieces replaced and everything else kept, with the number of matches, at most the maximum. |
| `PatternFind.PiecesTile` | apps/lua/lstrlib.c:945-987 | The pieces are a partition of the subject up to where the search stopped: no character is lost or repeated. |
| `PatternFind.KeepsText` | apps/lua/lstrlib.c:980-983 | Replacements that keep all matches keep the text. |
| `PatternFind.GMatchState.Next` | apps/lua/lstrlib.c:841-854 | The next match, which is not the empty one where the last match ended. |
| `PatternFind.PiecesByMatch` | apps/lua/lstrlib.c:841-854 | The matches of `gmatch`, one after the other, are those that `gsub` replaces. |
| `PackInts.PackInt` | apps/lua/lstrlib.c:1578-1592 | The digits of the integer in base 256, sign extended, in the order asked for. |
| `PackInts.UnpackInt` | apps/lua/lstrlib.c:1746-1769 | The integer with those digits, or an error when it does not fit. |
| `PackInts.IntRoundTrip` | apps/lua/lstrlib.c:1746-1769 | An integer that str_pack accepts for a size of 1 to 16 bytes is read back as the same one, in both orders. |
| `PackLayout.ReadIff` | apps/lua/lstrlib.c:1746-1769 | Bytes, of 1 to 16, are read as an integer exactly if that is the one, in the range of the size, that is packed into them; so they do not fit exactly if there is none. |
| `PackLayout.AcceptedIff` | apps/lua/lstrlib.c:1628-1647 | An integer is accepted for a size exactly when it can be read back from its bytes. |
| `Pack.StrPack` | apps/lua/lstrlib.c:1611-1714 | The bytes of all items with their alignment, or the first error. |
| `Pack.StrUnpack` | apps/lua/lstrlib.c:1772-1845 | The items read and the position after them, or the first error. |
| `Pack.PackThenUnpack` | apps/lua/lstrlib.c:1611-1845 | Whatever is packed is unpacked with as many items as the format has, the same values, only fixed strings padded with zeros, and the position one after the length. |
| `Pack.StoredAre` | apps/lua/lstrlib.c:1661-1672 | One item is stored for each option that takes one, equal to its argument but for the padding of `c` options. |
| `Pack.SizeAgrees` | apps/lua/lstrlib.c:1717-1735 | The size that packsize computes is the length of everything packed with the format. |
| `PackLayout.OrderOfBytes` | apps/lua/lstrlib.c:1528-1529 | After `<` byte `i` of the integer, in two's complement of any length, is at place `i`, and after `>` at that place from the end. |
| `PackLayout.NativeOrder` | apps/lua/lstrlib.c:1530 | After `=` the order is that of the machine. |
| `PackLayout.ItemStart` | apps/lua/lstrlib.c:1545-1572 | An item starts at the next multiple of its size, or of the maximum alignment if that is less; strings of fixed size are not aligned; an alignment that is no power of two is an error. |
| `PackLayout.AlignOnly` | apps/lua/lstrlib.c:1545-1572 | An `X` aligns as the option after it would, and takes no room. |
| `PackLayout.FirstBytes` | apps/lua/lstrlib.c:1611-1714 | The result begins with the padding, zeros, and then come the bytes of the item. |
| `PackLayout.SizeGiven` | apps/lua/lstrlib.c:1453-1475 | A numeral in decimal after `i`, `I` or `s` is the size, if it is from 1 to 16, and otherwise an error. |
| `PackLayout.IntegerSizes` | apps/lua/lstrlib.c:1492-1512 | The sizes of integers without a numeral, signed for lower-case letters and unsigned for upper-case ones. |
| `Quote.AddQuoted` | apps/lua/lstrlib.c:1126-1146 | The quoted text of any bytes. |
| `Quote.LexState.ReadString` | apps/lua/llex.c:404-464 | Reads the string that the grammar of escapes gives, with lines counted, or the first error. |
| `Quote.QuoteRoundTrip` | apps/lua/lstrlib.c:1126-1146 | Whatever comes after it, the quoted text is read back as the original bytes, when the carriage return is a control character. |
| `Quote.RoundTripIff` | apps/lua/lstrlib.c:1133-1140 | All strings come back exactly if the locale says that the carriage return is a control character. |
| `Quote.QuoteAndRead` | apps/lua/llex.c:404-464 | Written by addquoted and read by read_string, the bytes are the same and the lines are counted. |
| `QuoteEscapes.LetterEscapes` | apps/lua/llex.c:415-432 | The escapes of one letter are the control characters with those names, and a backslash or quote stands for itself. |
| `QuoteEscapes.HexEscape` | apps/lua/llex.c:336-348 | Two hexadecimal digits of either case after `x` are the byte. |
| `QuoteEscapes.NoHexEscape` | apps/lua/llex.c:336-348 | Anything else there is an error. |
| `QuoteEscapes.CodeEscape` | apps/lua/llex.c:356-380 | Hexadecimal digits in braces after `u` give the encoding of that code, if it has at most 31 bits, and otherwise an error. |
| `QuoteEscapes.Utf8Meaning` | apps/lua/lobject.c:386-401 | The encoding of codes of up to 31 bits in one to six bytes: the number of bytes, the mark of the first one, and six bits in each of the others. |
| `QuoteEscapes.DecimalEscape` | apps/lua/llex.c:389-401 | Up to three decimal digits, as many as there are, are the byte, and too big ones an error. |
| `QuoteEscapes.SpaceEscape` | apps/lua/llex.c:434-442 | A `z` takes all the spaces after it, and gives nothing. |
| `Precedence.LexState.ParseSubExpr` | apps/lua/lparser.c:1374-1401 | Reads the expression that the priorities give, or an error, or gives up when there are at least as many tokens as levels left. |
| `Precedence.ParsedIff` | apps/lua/lparser.c:1351-1401 | Tokens are read as an expression exactly when they are that expression written with enough parentheses by the priority table. |
| `Precedence.ParensNeeded` | apps/lua/lparser.c:1351-1401 | An expression written with any parentheses is read as itself exactly when there are enough: none that the table asks for can be left out, and more do no harm. |
| `Precedence.SameText` | apps/lua/lparser.c:1262-1306 | The text and the expression tell where the parentheses are. |
| `Precedence.PrintThenParse` | apps/lua/lparser.c:1351-1401 | Printing with parentheses just where needed and parsing gives the same tree, for right-associative and unary operators too. |
| `Precedence.ReadSubExpr` | apps/lua/lparser.c:1374-1401 | Whatever is parsed, the expression has exactly the tokens that were read, in order. |
| `Precedence.Grouping` | apps/lua/lparser.c:1351-1365 | Two operators in a row group by the levels of the manual: the one of the higher level first, and on the same level the left one first, but the right one for `^` and `..`. |
| `Precedence.UnaryGrouping` | apps/lua/lparser.c:1367-1386 | A unary operator is applied before any binary one but `^`. |
| `Sort.Partition` | apps/lua/ltablib.c:294-323 | Elements not above the pivot are before it and those not below after it; with an inconsistent order function an error or a permutation, always inside the interval. |
| `Sort.ChoosePivot` | apps/lua/ltablib.c:330-335 | An element in the second or third quarter of the interval. |
| `Sort.OneRound` | apps/lua/ltablib.c:341-383 | Up to three elements are sorted; otherwise two intervals around the pivot are left. |
| `Sort.AuxSort` | apps/lua/ltablib.c:341-391 | With any order function the elements are only permuted and no index leaves the interval; with a strict weak order the result is sorted and there is no error; the depth is at most the binary logarithm of the size. |
| `Sort.TableSort` | apps/lua/ltablib.c:394-404 | The same for the elements from 1 to n. |
| `StringTable.StringTable.TableRehash` | apps/lua/lstring.c:72-87 | In place between powers of two, growing or shrinking: no string is lost or repeated, and each is in the bucket of its hash. |
| `StringTable.StringTable.Resize` | apps/lua/lstring.c:95-113 | The table with its new size, or as it was when there is no memory. |
| `StringTable.StringTable.CheckSizes` | apps/lua/lgc.c:935-940 | A table much bigger than needed shrinks to half, without losing strings. |
| `StringTable.StringTable.Intern` | apps/lua/lstring.c:214-243 | The object with those bytes: the old one if there was one, and otherwise a new one. |
| `StringTable.StringTable.Remove` | apps/lua/lstring.c:190-197 | Exactly that string leaves the table. |
| `StringTable.SameObject` | apps/lua/lstring.c:210-243 | Two strings of the table are the same object exactly when their bytes are equal. |

## Left out

- Generational mode has no weak tables, finalizers, open upvalues or fixed objects here, and minor collections always go on in this mode: `minor2inc`, `checkminormajor`, `checkmajorminor` and `fullgen` are not part of this model.
- GenMark.Traverse: objects with strong references and threads only; weak tables and open upvalues have no case in this mode.
- GenAtomic.MarkYoung: `atomic` without ephemerons, weak tables, finalizers and upvalues of unmarked threads, which the incremental model has (`GcAtomic`, `GcClear`, `GcFinish`).
- GenCorrect.Sweep2Old: open upvalues, which stay gray, have no case.
- GenMinor.YoungCollection: the lists of objects with finalizers are not swept, and the mode does not change at the end.
- GenMinor.AtomicToGen: starts from what a complete marking leaves; the lists of objects with finalizers are not swept.
- GenRun.RunSafety: false without its condition, as `GenMissed.ObjectLost` shows.
- Closing a state: `luaC_freeallobjects`, `separatetobefnz` for all objects, and the `GCSTPCLS` flag.
- In `GcProgress` only the collector runs, and finalizers do nothing; that they can be called stands for no emergency and enough stack.  `GcRun` has what programs and finalizers do between two steps.
- The collector counts work, debts and pauses to pace itself; here any step may come at any time.
- Bodies of objects are kept apart from their place in memory: sizes, addresses and byte counts are not modelled, and dead keys only where traversals need them.
- Recursion of `reallymarkobject` is one call deep in C and recursive here; stack shrinking during a traversal is in the stack model only.
- Hash functions, floats as keys and the inverted memory layout of arrays; keys are integers, collectable objects or other values with an arbitrary hash.
- CodeCompile.Compile: expressions are made of atoms, `and`, `or`, `not` and comparisons; calls, indexing, arithmetic and constructors are not part of this model.
- Codegen keeps constants by their values: whether a constant index fits an operand is arbitrary, and the limits on registers, constants, jump distances and code size are not reached. A missing register is shown as -1.
- `cond` in `lparser.c`, which turns nil into false before a test, and metamethod follow-ups of arithmetic; comparisons may call any metamethod but with no effect on registers.
- Line numbers are unbounded, so their differences do not overflow.
- Upvalues of a thread are identities in a map instead of objects, and the barrier of closing is in the collector model only.
- Upvalues.LuaThread.CallCloseMethod: a closing method does what it wants above its variable; what it assigns to other variables, arguments and results of the call, and stack moves during it, are not modelled.
- Upvalues.LuaThread.Close: closing methods are as in `CallCloseMethod`.
- Upvalues.LuaThread.CloseProtected: closing methods are as in `CallCloseMethod`, and the stack stays where it is while they run.
- Upvalues.LuaThread.PCallError: closing methods are as in `CallCloseMethod`.
- `luaE_shrinkCI`, yields across closing, coroutine resumption and the C stack.
- PatternFind.Gsub: replacement strings with `%`, "unfinished capture" errors when captures are pushed, and conversions of captures to values; a replacement is an arbitrary function of the match.
- Character classes are an arbitrary function, as the locale decides them.
- Floats in `string.pack` are shown by their bytes; sizes and alignment are those of the usual 64-bit machines, and lengths that do not fit memory are not reached.
- The lexer reads short strings only; the limits on buffer sizes and on the number of lines are not reached.
- Precedence.LexState.ParseSubExpr: `simpleexp` is reduced to atoms and expressions in parentheses; prefix expressions, constructors and functions are atoms.
- `l_randomizePivot` and the comparison function of `sort` are arbitrary; element access goes through no metamethods.
- Long strings, the string cache, and the emergency collection in `growstrtab`.
- Bit layout of instructions in `lopcodes.h`, `tmove` in `ltablib.c`, and codes of collector parameters in `lobject.c`: they are simple next to what is modelled.
