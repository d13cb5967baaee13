# A verified model of the Ephippion harness generator

Ephippion takes a function `F` (the extracted body of a loop, its first parameter the iteration
number) and generates a *harness* for symbolic execution. The harness allocates two sets of
arguments, makes the inputs arbitrary and equal, calls `F` for the iterations `0 .. N-1` in ascending
order on the first set and in descending order on the second, compares the outbound arguments of the
two sets, and frees everything. A run that reaches a fail block shows that the iterations cannot be
reordered.

This project models the generator as Dafny methods that build blocks step by step, gives the blocks a
small-step meaning, and proves that what is built does what a few lines of specification say.

## How it is organised

| file | what is in it |
|---|---|
| `ArgSpec.dfy` | directions as raw bytes, argument specifications |
| `IR.dfy` | instructions, blocks, the mutable `Function`, `Module` and `IRBuilder` |
| `Semantics.dfy` | the machine: values, regions, one block per step, faults |
| `LoopIRBuilder.dfy`, `LoopRuns.dfy` | `CreateLoop`, the loop theorem |
| `CallCounts.dfy`, `LoopWiring.dfy` | how often blocks and runs call the function, body wiring and calls per trip |
| `HarnessLayout.dfy` | the harness block by block, declaratively |
| `BuildSteps.dfy`, `HarnessAssembly.dfy`, `SymbolicEncapsulation.dfy` | the generator, proved to arrive at the layout |
| `HarnessSpec.dfy` | what a harness means: two folds and a comparison |
| `HarnessMemory.dfy`, `RunSetup.dfy` ... `RunTeardown.dfy`, `HarnessRuns.dfy` | the run, phase by phase, and the end-to-end theorem |
| `WholeRuns.dfy` | the run, visit by visit |
| `HarnessPromises.dfy` | blocks, memory, calls and comparisons in terms of what was asked for |
| `HarnessMeaning.dfy`, `Commutativity.dfy`, `Precision.dfy`, `Leftovers.dfy`, `Pairing.dfy`, `Iterations.dfy` | what a verdict says, and when it can be relied on |
| `WellFormed.dfy`, `SsaForm.dfy` | control-flow graph, dominance, SSA form |
| `EncapsulationPass.dfy`, `PassRuns.dfy` | the pass over a module and what its harnesses do |

The chain of results is: the generator methods leave exactly `Job.Blocks()` behind whatever the
function held (`HarnessIsLaidOut`, `BuildHarness`); a run of those blocks ends as `VerdictOf` says
(`HarnessRefinesSpec`), for every encapsulated function, every fill of memory and every specification
list; and statements about `VerdictOf` are then statements about runs. `HarnessPromises` says the main
points once more with nothing but parameters, specifications and the number of iterations.

Arithmetic is explicit: loop variables and sizes are 64 bits and wrap, bounds are 32 bits, comparisons
of the loop variable are signed. Statements that need sizes not to wrap are for types of at most `2^32`
bytes (`Commutativity.Small`, `Commutativity.SmallSizes`).

Some things the source suggests are not true of it. They are proved false, with the exact condition
under which they hold:

- The second loop reverses the first only for at least two iterations; the default of
  `lib/Passes/PassCommandLineOptions.cpp:28-31` is one (`Iterations.ReversedIff`). The generator
  asserts that bounds differ, so `Job.Valid` asks for two.
- Acceptance does not mean equal data. `memcmp` is given the size of the type of the stored value,
  which for a `malloc` result is `i8`, so one byte per element is compared
  (`Precision.AcceptanceIsEqualityIff`).
- An outbound scalar that is marked iterator dependent is compared out of bounds
  (`Precision.SafeIff`).
- Code whose iterations commute can be rejected: because of an argument that is only outbound, and
  because inbound buffers are shared between the two sets (`Commutativity.NoFalseAlarmIff`,
  `Precision.NoFalseAlarmAtAllIff`). With arguments that are only outbound it is accepted exactly if
  what it leaves does not depend on uninitialised memory (`Leftovers.AcceptedIffIndependent`).
- A call created in a body block after the loop is reached on every visit, unless the block is the
  loop's preheader, which then has two terminators (`LoopWiring.CallReachedIff`).

## Model

| member | source | states |
|---|---|---|
| ArgSpecs.DirectionKinds | include/Ephippion/Support/IR/ArgDirection.hpp:14-36 | what every raw byte means as a number: inbound if it is odd, outbound if its half is, so remainder by four is 1 for only inbound, 2 for only outbound, 3 for both, 0 for neither |
| IR.Module.DeclareFunc | lib/Support/Utils/FuncUtils.cpp:29-33 | returns the function of that name, unchanged, or appends a new empty one; names stay distinct |
| LoopBuilding.LoopIRBuilder.CreateLoop | lib/Support/IR/LoopIRBuilder.cpp:21-98 | for every list of body blocks, repeats included, the function afterwards is the old one with each unterminated body block branching to the latch once and the preheader to the header, followed by exactly header, latch and exit for the bounds; the header enters the first block of the list; returns the induction phi |
| LoopBuilding.LoopIRBuilder.BuildControl | lib/Support/IR/LoopIRBuilder.cpp:44-79 | header (phi with both inputs, signed test for the direction, branch) and latch (step for the direction, back edge) |
| LoopBuilding.LoopIRBuilder.WireBody | lib/Support/IR/LoopIRBuilder.cpp:81-87 | each unterminated block of the list gets one branch to the latch, all others keep what they had |
| LoopRuns.TripsExact | lib/Support/IR/LoopIRBuilder.cpp:50-61 | the bound test holds before exactly the first `ceil((end-start)/step)` trips going up and `floor((start-end)/step)+1` going down |
| Semantics.SignedExact | lib/Support/IR/LoopIRBuilder.cpp:46-61 | the signed value of 64 bits is in the two's complement range and has those bits |
| LoopRuns.TestIsExact | lib/Support/IR/LoopIRBuilder.cpp:46-61 | on every value a run goes through, negative ones included, the signed 64-bit comparison agrees with the mathematical one |
| LoopRuns.StepIsExact | lib/Support/IR/LoopIRBuilder.cpp:63-73 | no step of a loop that is still running wraps away from the mathematical value |
| LoopRuns.LoopRunsExactly | lib/Support/IR/LoopIRBuilder.cpp:37-97 | for all bounds, every positive step and every body that comes back to the latch: trip `k` enters the body with the value of trip `k`, there are exactly the computed number of trips, and control then leaves through the exit block, all at computed numbers of block visits |
| LoopRuns.ZeroStepDiverges | lib/Support/IR/LoopIRBuilder.cpp:63-75 | with step zero and different bounds the loop never ends |
| LoopWiring.CreatedLoopIsLoop | lib/Support/IR/LoopIRBuilder.cpp:40-95 | what `CreateLoop` leaves satisfies the hypothesis of the loop theorem, and still does once a call is created in a body block |
| LoopWiring.WiringIgnoresOrder | lib/Support/IR/LoopIRBuilder.cpp:81-87 | order and repetition of body blocks do not matter to the wiring |
| LoopWiring.CallInBody | lib/Transforms/SymbolicEncapsulation.cpp:429-433 | a call created in a body block after the loop stands before exactly one terminator, the branch to the latch or the block's own, and behind all the block held; in a preheader that is itself in the list, it stands behind the preheader's first terminator |
| LoopWiring.CallReachedIff | lib/Transforms/SymbolicEncapsulation.cpp:429-433 | of the calls before a block's first terminator, the block gets one more if and only if it is not the preheader (and held no early terminator); no other block gets or loses one |
| CallCounts.VisitCalls | lib/Transforms/SymbolicEncapsulation.cpp:457-462 | a visit of any block that goes on or returns makes exactly the calls before its first terminator |
| CallCounts.CallsAreVisits | lib/Transforms/SymbolicEncapsulation.cpp:457-462 | if one block makes one call and no other block makes any, every run makes as many calls as it visits that block |
| LoopWiring.OneCallPerTrip | lib/Support/IR/LoopIRBuilder.cpp:81-87 | for any body list, bounds and step: every trip enters the first block of the list, and a call created in a body block that each trip comes through once is made once per trip, `k` times by the time trip `k` starts and as often as the loop makes trips when it is left |
| Iterations.ReversedIff | lib/Transforms/SymbolicEncapsulation.cpp:139-147 | for every 32-bit number of iterations, the second loop's iteration arguments are the reverse of the first's if and only if there are at least two |
| Iterations.SameIterations | lib/Transforms/SymbolicEncapsulation.cpp:139-143 | both orders make each iteration once |
| Encapsulation.SymbolicEncapsulation.PadSpecs | lib/Transforms/SymbolicEncapsulation.cpp:77-91 | the list is kept and padded up to one entry per parameter; every entry added is only inbound and not iterator dependent |
| HarnessAssembly.OnlyNormalisedSpecsMatter | lib/Transforms/SymbolicEncapsulation.cpp:77-91 | the harness is that of the list cut to the number of parameters and padded; lists that agree up to there make the same harness |
| HarnessAssembly.BlocksAsked | lib/Transforms/SymbolicEncapsulation.cpp:100-170 | in terms of parameters and specifications alone, a harness has 18 blocks and two more for each parameter that is specified outbound |
| HarnessPromises.DataAsked | lib/Transforms/SymbolicEncapsulation.cpp:194-323 | in the same terms, after the symbolic setup: one region for each parameter and a second for each specified outbound, where they are, on heap or stack, of how many bytes (a 64-bit integer 8, a buffer one element or one per iteration), and with which bytes; a parameter behind the end of the list has one region and is symbolic |
| HarnessPromises.ElementsAsked | lib/Transforms/SymbolicEncapsulation.cpp:213-224 | with elements of at most `2^32` bytes an iterator dependent buffer has exactly one element for each iteration |
| HarnessPromises.CallsAsked | lib/Transforms/SymbolicEncapsulation.cpp:139-150 | in every run, when the comparisons start the function has been called for `0 .. N-1` and then for `N-1 .. 0`, `N` being the number asked for |
| HarnessPromises.VerdictAsked | lib/Transforms/SymbolicEncapsulation.cpp:348-421 | a run returns if and only if, when the comparisons start, the two regions of every parameter specified outbound agree, on one byte of a buffer or as many as there are iterations, on the whole of a scalar; no other parameter is compared |
| HarnessPromises.ReturnAsked | lib/Transforms/SymbolicEncapsulation.cpp:139-170 | a run that returns does so with 0 after `6N + 14` visits and one for each parameter specified outbound, having made exactly those calls |
| HarnessPromises.HeapAsked | lib/Transforms/SymbolicEncapsulation.cpp:224-243 | and having freed each region it allocated once, in reverse order of allocation; those are the heap regions, and all others are live |
| Encapsulation.SymbolicEncapsulation.AllocateArg | lib/Transforms/SymbolicEncapsulation.cpp:195-233 | one allocation, or two equal ones for an outbound argument: 8 bytes of stack for a 64-bit integer, a scalar's size, or a `malloc` of one element, of as many as there are iterations if iterator dependent, the product wrapped to 64 bits; and the values and heap allocations recorded |
| Encapsulation.SymbolicEncapsulation.FreeAll | lib/Transforms/SymbolicEncapsulation.cpp:239-243 | one free per recorded allocation, in reverse order |
| Encapsulation.SymbolicEncapsulation.SetupHarnessArgs | lib/Transforms/SymbolicEncapsulation.cpp:175-244 | setup and teardown blocks and both value vectors are those of the layout, for every parameter list, the empty one included |
| Encapsulation.SymbolicEncapsulation.DeclareArg | lib/Transforms/SymbolicEncapsulation.cpp:276-319 | first copy made symbolic; for an outbound argument also the second, which is then overwritten with the first |
| Encapsulation.SymbolicEncapsulation.CreateSymbolicDeclarations | lib/Transforms/SymbolicEncapsulation.cpp:246-324 | the block gets exactly the layout's declarations; only outbound arguments get none |
| Encapsulation.SymbolicEncapsulation.CreateTest | lib/Transforms/SymbolicEncapsulation.cpp:360-387 | comparison in the condition block and assertion call in the fail block, for pointers and for plain values |
| Encapsulation.SymbolicEncapsulation.LinkAssertions | lib/Transforms/SymbolicEncapsulation.cpp:390-421 | the two linking passes over the parallel vectors and the final hook-up arrive at the complete chain, also when nothing is selected |
| Encapsulation.SymbolicEncapsulation.CreateSymbolicAssertions | lib/Transforms/SymbolicEncapsulation.cpp:326-422 | the function is extended by exactly one condition and one fail block per outbound argument, linked in argument order |
| Encapsulation.SymbolicEncapsulation.CreateCall | lib/Transforms/SymbolicEncapsulation.cpp:424-463 | loads slots, casts heap pointers, passes integers as they are, and inserts all of it before the block's terminator, or at its end if it has none |
| Encapsulation.SymbolicEncapsulation.BuildCalls | lib/Transforms/SymbolicEncapsulation.cpp:134-150 | both loops, the induction variables put in place of argument 0 afterwards, both calls |
| Encapsulation.SymbolicEncapsulation.BuildHarness | lib/Transforms/SymbolicEncapsulation.cpp:100-170 | the function keeps its blocks and gets exactly the blocks of the layout behind them |
| Encapsulation.SymbolicEncapsulation.Encapsulate | lib/Transforms/SymbolicEncapsulation.cpp:68-173 | false and no change for a declaration; otherwise only the function named after the encapsulated one changes, and by exactly one harness, of 18 blocks and two more for each parameter specified outbound |
| HarnessAssembly.HarnessIsLaidOut | lib/Transforms/SymbolicEncapsulation.cpp:100-170 | the generator's parts, run in its order, compose to the declarative layout |
| WellFormed.BlocksTerminated | lib/Transforms/SymbolicEncapsulation.cpp:125-170 | every block has exactly one terminator, in last position |
| WellFormed.EdgesInside | lib/Transforms/SymbolicEncapsulation.cpp:152-165 | every edge of a fresh harness stays inside it and none leads to the setup block |
| HarnessLayout.OneCheckEach | lib/Transforms/SymbolicEncapsulation.cpp:348-357 | there are as many checks as outbound arguments |
| WellFormed.BlockCount | lib/Transforms/SymbolicEncapsulation.cpp:100-170 | a harness has `18 + 2k` blocks for `k` outbound arguments |
| WellFormed.AllReachable | lib/Transforms/SymbolicEncapsulation.cpp:100-170 | all blocks of a fresh harness are reachable |
| SsaForm.HeaderPredecessors | lib/Support/IR/LoopIRBuilder.cpp:77-91 | the predecessors of a loop header are its preheader and its latch |
| SsaForm.HarnessInSsaForm | lib/Transforms/SymbolicEncapsulation.cpp:100-170 | each phi has exactly its block's predecessors as inputs, and every use is dominated by its definition on every path |
| RunSetup.SetupBlockRuns | lib/Transforms/SymbolicEncapsulation.cpp:194-237 | after the setup block every argument has its regions, of the allocated size, and pointers to them |
| RunDeclare.DeclareBlockRuns | lib/Transforms/SymbolicEncapsulation.cpp:261-323 | after the symbolic setup memory holds the two initial sets: symbolic bytes, a bytewise copy for both-direction arguments, leftovers for only outbound ones |
| Pairing.PairedAtStart | lib/Transforms/SymbolicEncapsulation.cpp:194-237 | two visits into every run: outbound arguments have two regions, others one, both-direction ones hold equal bytes, and different arguments share no region |
| RunLoops.BodyBlockRuns | lib/Transforms/SymbolicEncapsulation.cpp:440-462 | a body block is one call on one set: buffers behind pointers change as the function says, scalars and the other set's own regions do not |
| RunLoops.CallLoopRuns | lib/Transforms/SymbolicEncapsulation.cpp:139-150 | a call loop folds the function over its set in its order, in `3N + 2` visits |
| Pairing.SecondSetUntouched | lib/Transforms/SymbolicEncapsulation.cpp:228-233 | when the second set's calls start, outbound regions of the second set hold what they held before the first call |
| RunChecks.ChecksRun | lib/Transforms/SymbolicEncapsulation.cpp:340-421 | from any condition block on, the run ends as the short-circuit conjunction of the remaining comparisons says, after a computed number of visits |
| RunChecks.PlainTestRuns | lib/Transforms/SymbolicEncapsulation.cpp:360-366 | a condition block for two plain integers goes on if and only if they are equal |
| RunTeardown.HeapRegionsSorted | lib/Transforms/SymbolicEncapsulation.cpp:224-233 | no heap region is recorded twice |
| RunTeardown.TeardownBlockRuns | lib/Transforms/SymbolicEncapsulation.cpp:239-243 | every heap region is freed once, last allocated first, without a fault; stack slots are left alone |
| HarnessRuns.HarnessRefinesSpec | lib/Transforms/SymbolicEncapsulation.cpp:68-173 | end to end: every run ends; accepted runs return 0 after exactly `6N + 14 + k` visits, with both sets holding their folds and all heap regions freed in reverse order of allocation, rejected ones stop in the fail block the verdict names with both sets in place and nothing freed, and the only fault is the comparison the verdict names |
| WholeRuns.RunFollowsPlaces | lib/Transforms/SymbolicEncapsulation.cpp:139-170 | from the symbolic setup on, every run is, visit by visit, the run of a machine of places that has no memory and consults only the two folds |
| WholeRuns.MemoryFollowsCalls | lib/Transforms/SymbolicEncapsulation.cpp:139-170 | at every visit from there on, memory is exactly the two sets after the calls made so far, all of it live until the frees have run; then the heap regions are dead and nothing else has changed |
| WholeRuns.ScalarSlotsKept | lib/Transforms/SymbolicEncapsulation.cpp:440-462 | at every visit of every run up to its end, accepted or rejected, both slots of a scalar are live and hold what they held when the symbolic setup was done |
| HarnessMeaning.ChecksInOrder | lib/Transforms/SymbolicEncapsulation.cpp:348-396 | checks correspond to outbound arguments one to one and in argument order |
| HarnessMeaning.VerdictIsFirstFailure | lib/Transforms/SymbolicEncapsulation.cpp:396-421 | the verdict names the least outbound argument that does not pass, and why it does not |
| HarnessMeaning.ReturnsIff | lib/Transforms/SymbolicEncapsulation.cpp:152-170 | a run returns if and only if for every outbound argument the compared bytes after the ascending and the descending fold agree in bounds, and it returns 0 |
| HarnessMeaning.FailsInFailBlock | lib/Transforms/SymbolicEncapsulation.cpp:340-421 | whatever fail block a run stops in is that of the least outbound argument that does not pass, and its compared bytes differ |
| HarnessMeaning.FailsIff | lib/Transforms/SymbolicEncapsulation.cpp:340-421 | a run stops in the fail block of outbound argument `i` if and only if every outbound argument before `i` passes, and `i` is in bounds and its compared bytes differ |
| Commutativity.ReverseFold | lib/Transforms/SymbolicEncapsulation.cpp:139-150 | iterations that commute give the same data in descending as in ascending order |
| Commutativity.CommutingCodeIsAccepted | lib/Transforms/SymbolicEncapsulation.cpp:228-233 | commuting iterations that leave inbound arguments alone are accepted if no argument is only outbound and comparisons are in bounds |
| Commutativity.NoFalseAlarmIff | lib/Transforms/SymbolicEncapsulation.cpp:263-291 | all such functions are accepted, whatever memory holds, if and only if no argument is only outbound and no outbound scalar is iterator dependent |
| Commutativity.CommutingRunReturns | lib/Transforms/SymbolicEncapsulation.cpp:139-170 | the run of such a harness returns 0 after `6N + 14 + k` visits |
| Commutativity.SmallSizes | lib/Transforms/SymbolicEncapsulation.cpp:213-222 | with types of at most `2^32` bytes no size computation wraps, at least one byte is compared, and a comparison exceeds its region exactly for an iterator dependent scalar |
| Leftovers.AcceptedIffIndependent | lib/Transforms/SymbolicEncapsulation.cpp:263-291 | for every argument list, a function whose iterations commute and that leaves inbound arguments alone is accepted whatever uninitialised memory holds if and only if the compared bytes of its ascending fold do not depend on what it holds |
| Leftovers.OverwritingIsAccepted | lib/Transforms/SymbolicEncapsulation.cpp:263-291 | in particular if each call overwrites the arguments that are only outbound, and comparisons are in bounds |
| Leftovers.LeftoversSeenIff | lib/Transforms/SymbolicEncapsulation.cpp:263-266 | what the calls start from depends on uninitialised memory if and only if some argument is only outbound |
| Precision.NoFalseAlarmAtAllIff | lib/Transforms/SymbolicEncapsulation.cpp:228-233 | without assuming that inbound arguments are left alone, all commuting functions are accepted if and only if in addition no shared buffer stands beside an outbound one |
| Precision.OutOfBoundsIff | lib/Transforms/SymbolicEncapsulation.cpp:368-381 | some run compares out of bounds if and only if an outbound argument's compared size exceeds its region, for all sizes, wrapping included |
| Precision.FaultsIffOutOfBounds | lib/Transforms/SymbolicEncapsulation.cpp:373-381 | a run ends in a fault if and only if the first outbound argument that does not pass is compared out of bounds |
| Precision.SafeIff | lib/Transforms/SymbolicEncapsulation.cpp:373-381 | no run ever faults (access outside a region or to freed memory, a register never computed) if and only if no outbound scalar is iterator dependent |
| Precision.ScalarNeverRejected | lib/Transforms/SymbolicEncapsulation.cpp:282-291 | the check of a scalar that goes both ways never rejects |
| Precision.DifferenceMissed | lib/Transforms/SymbolicEncapsulation.cpp:368-369 | for every outbound pointer to elements of more than one byte there is a function whose two orders leave different data and which is accepted |
| Precision.AcceptanceIsEqualityIff | lib/Transforms/SymbolicEncapsulation.cpp:368-381 | acceptance means equal outbound data if and only if every outbound pointer is to one-byte elements (or nothing can be accepted at all) |
| EncapsulationPass.SymbolicEncapsulationPass.CollectWork | lib/Transforms/Passes/SymbolicEncapsulationPass.cpp:140-153 | the work list is exactly the defined functions whose name is on the whitelist, or all defined ones if there is none |
| EncapsulationPass.SymbolicEncapsulationPass.AnyOutbound | lib/Transforms/Passes/SymbolicEncapsulationPass.cpp:212-214 | whether any specification is outbound |
| EncapsulationPass.SymbolicEncapsulationPass.ProcessReport | lib/Transforms/Passes/SymbolicEncapsulationPass.cpp:195-226 | a report changes the module exactly if its function is on the work list and some specification is outbound or encapsulation is forced, and then by one harness |
| EncapsulationPass.SymbolicEncapsulationPass.Run | lib/Transforms/Passes/SymbolicEncapsulationPass.cpp:113-231 | the result is true exactly if some report is about a function that was defined and allowed, with an outbound specification or forced; each such report's harness function is there and has grown, no other function is new or changed; every function ends up as the reports, in order, make it from a work list fixed before the first |
| EncapsulationPass.GrowsIff | lib/Transforms/Passes/SymbolicEncapsulationPass.cpp:195-225 | a function changes if and only if some accepted report's harness has its name, and then its old blocks stay in front |
| PassRuns.SameRun | lib/Support/Utils/FuncUtils.cpp:29-33 | blocks behind a graph whose branches stay inside it make no difference to its runs |
| PassRuns.FirstHarnessStands | lib/Transforms/Passes/SymbolicEncapsulationPass.cpp:195-225 | after any further reports on the same function, runs of the harness are, visit by visit, those of the first report's harness alone |

## Left out

- `lib/Transforms/SymbolicEncapsulation.cpp:46-55`, encapsulating a whole module: it iterates over a
  list that grows meanwhile, and the pass does not use it.
- Reading reports and whitelists, walking directories, command-line options, pass registration and the
  pass-manager wrappers: the pass takes whitelist and reports as values, and a report that cannot be
  read is one that is not in the list.
- Declaring `malloc`, `free`, `memcpy`, `memcmp`, `klee_make_symbolic` and `__assert_fail` in the
  module, symbol-name strings and debug output: calls of these functions are instructions of the model.
- The encapsulated function's body: it is any function from its arguments to the bytes it leaves in the
  buffers passed to it. It ends, keeps buffer sizes, and touches no globals, nested pointers or
  unrelated memory.
- Uninitialised bytes as such: a load from a slot or buffer that was never written gives the leftover
  bytes of the run and is not a fault (`Leftovers.LeftoversSeenIff` says when that matters).
- LLVM types beyond "64-bit integer, other scalar of a size, pointer to elements of a size". A cast to
  the type a value already has is an instruction here, not folded away, and the argument types of
  `memcpy` and `free` are not checked.
- A first parameter that is not a 64-bit integer, a parameter list that is empty, a type of size zero,
  and fewer than two iterations: the source asserts against them or creates a cast it never inserts, so
  `Job.Valid` and `GoodParams` exclude them.
- Block objects: a block is its position in its function, so two pointers to one block are two equal
  labels. A value is named by its block and its position there.
- Functions of several steps in the source are cut into several methods here, in the same order.
- `malloc` never fails, regions are disjoint, and a region is made symbolic at most once, so symbolic
  bytes are named by region and offset. `memcmp` returns the difference of the first two bytes that
  differ.
- An existing function of the harness's name but another type: LLVM returns a cast, which the source
  takes for a function.
