# scratch-vm-native in Dafny

A model of the core of scratch-vm-native. That repository turns Scratch projects into C programs that run natively, and it carries several prototypes of the runtime those programs use. The model covers five parts, each with what its proofs establish:

- **The value store** (`Variables`, `Heap`): `ScratchVariable` of templates/scratch-vm-variables.c.
  - A value holds a number, and optionally a text buffer that it owns or borrows.
  - Character buffers live in a `Memory` object. Ghost sets in it record which heap buffers are live, which are released, and which are string literals.
  - So every operation is proved to release only live heap buffers it owns: never a literal, never twice.
- **The template runtime** (`TemplateRuntime`): what templates/scratch-transpiler-main-template.c puts into every generated program.
  - Its own copy of the value functions, which differ from the current ones in how they treat the borrowed flag.
  - The inplace-block helpers, which evaluate an expression tree through temporaries. Each helper returns a fresh temporary holding the expression's value, and releases every other temporary exactly once.
  - The wiring done by `Scratch_Init`, and `Scratch_FindVariable`.
- **The older runtime** (`LegacyVariables`, `DigitalClock`, `RepeatUntilX`): the value functions of digital_clock.c and repeat_until_x.c, which have no borrowed flag, plus the concrete `Scratch_Init` of both programs.
- **The stack-cursor interpreter** (`StackVm`): `Advance` of scratch-vm.c.
  - The recursion becomes a loop over single activations, on arrays (`Vm`). It is proved equal to a ghost function `Run`, whose termination follows from rank and depth witnesses on the block graph.
  - The demo of `main` is proved to print 12, 20 and 28.
- **The tick runner** (`TickRunner`): test_program.c.
  - The `Runner` class runs one pass of the `while (1)` loop at a time. That pass is proved equal to a pure `TickSpec`.
  - Wait and glide are proved to hold the script for exactly `WaitTicks(d)` and `GlideTicks(d)` ticks.
  - The whole glide-wait-glide script reaches `exit(2)` on its 112th pass of the loop. That is 108 clock ticks of 33 ms, 3564 ms after it started.
- **The block-graph builder** (`Transpiler`): `extract_blocks_and_variables` of scratch-transpiler.py.
  - The recursive builder is a ghost function; the `Extraction` class and its loops are proved equal to it.
  - Its output is proved well formed:
    - block names are unique when no opcode ends in a digit (`OpcodesEndInLetters`), because each name ends with the number of blocks emitted before it;
    - every link names a later block;
    - no `Inplace` block links to another `Inplace` block;
    - every `Inplace` block has one helper entry per in-place block;
    - the collected variables have distinct names.
  - Its output is also proved to be the block graph of the project (`ProjectBuilt`), against the reference predicate `Built`:
    - every top-level block of every target has the block built from it;
    - an `Inplace` block lists exactly the maximal chain of in-place blocks along `next` (`Chain`), and links to the block built from the first block after the chain (`Follower`), or to nothing when the chain ends the sequence;
    - any other block has the known opcode of its block, and links to the blocks built from its `SUBSTACK` input and its `next`;
    - every emitted block is built from some block of some target.
  - `TemplateRuntime.BuilderGraphWires` connects this output to the `Scratch_Init` wiring.

Numbers (`float`, `double`) are Dafny `real`s, with no rounding. The C pointers to blocks are indices, with -1 for null.

### Timed blocks

test_program.c times its blocks in this way, and the model follows it:
- The wait latches the absolute deadline `time + duration` on its first visit (test_program.c:180-184). It finishes on the first tick where the clock is no longer below that deadline (test_program.c:185-193).
- The glide clamps the elapsed time to its duration, and it finishes only once the elapsed time is strictly greater than the duration (test_program.c:154-174). It reaches its end point on the first pass after its duration, and that pass moves on without advancing the clock.

## Model

| member | source | states |
|---|---|---|
| `Heap.Memory.Literal` | tests/scratch-vm-variables_gtest.cpp:10-13 | a string literal is a new buffer in static storage, never live and never released |
| `Heap.Memory.Allocate` | templates/scratch-vm-variables.c:83-85 | `malloc` plus fill: one new live buffer with the given contents, nothing else changes |
| `Heap.Memory.Duplicate` | templates/scratch-vm-variables.c:58 | `strdup` of a readable buffer: a new live buffer equal to it |
| `Heap.Memory.Release` | templates/scratch-vm-variables.c:33 | `free` is applied only to a live heap buffer, which moves to the released set |
| `Variables.ScratchVariable.InitVariable` | templates/scratch-vm-variables.c:14-19 | number 0, no text, not borrowed |
| `Variables.ScratchVariable.InitNumber` | templates/scratch-vm-variables.c:21-26 | the number, no text, not borrowed |
| `Variables.ScratchVariable.InitString` | templates/scratch-vm-variables.c:51-61 | with the const flag the literal is borrowed and memory is untouched; otherwise the value owns a fresh copy; number 0 |
| `Variables.ScratchVariable.AssignNumber` | templates/scratch-vm-variables.c:28-38 | number set, text cleared, exactly the owned buffer released (a borrowed one never), flag cleared when there was text |
| `Variables.ScratchVariable.ReadNumber` | templates/scratch-vm-variables.c:40-42 | the stored number, whether or not the value holds text; the assign and init methods state what it is after each of them |
| `Variables.ScratchVariable.ReadString` | templates/scratch-vm-variables.c:44-49 | the buffer's contents, or `""` without text whatever the number |
| `Variables.ScratchVariable.AssignString` | templates/scratch-vm-variables.c:63-75 | number 0, owned text released, then an owned fresh buffer whose contents equal the argument |
| `Variables.ScratchVariable.AssignVariable` | templates/scratch-vm-variables.c:93-99 | copies the text of the source into one new buffer when it has text, otherwise takes its number and leaves memory contents alone, with the flag as `AssignNumber` leaves it; exactly the buffer the target owned is released |
| `Variables.ScratchVariable.Free` | templates/scratch-vm-variables.c:101-111 | owned text released once, number 0, no text; from that state a second call releases nothing |
| `Variables.JoinStringVariables` | templates/scratch-vm-variables.c:77-91 | owned result reading as read(a) followed by read(b); the intermediate buffer stays live without an owner |
| `Variables.StringsScenario` | tests/scratch-vm-variables_gtest.cpp:5-37 | the reads give `""`, `"chicken"`, `"banana"`, `"banana"`, `" "` and `"chicken banana"` |
| `Variables.ScenarioDeclarations` | tests/scratch-vm-variables_gtest.cpp:6-22 | two borrowed literals, a copy of a borrowed value, and their read-backs; no buffer owned except by the copy |
| `Variables.ScenarioAssignSpace` | tests/scratch-vm-variables_gtest.cpp:24-25 | assigning `" "` gives a fresh owned buffer that reads back as `" "` |
| `Variables.ScenarioJoins` | tests/scratch-vm-variables_gtest.cpp:27-29 | the two joins own disjoint fresh buffers and read back `"chicken banana"` |
| `Variables.ScenarioRelease` | tests/scratch-vm-variables_gtest.cpp:31-36 | freeing three values releases exactly their owned buffers and no literal |
| `TemplateRuntime.ScratchVariable.InitVariable` | templates/scratch-transpiler-main-template.c:37-42 | number 0, no text, not borrowed |
| `TemplateRuntime.ScratchVariable.InitNumber` | templates/scratch-transpiler-main-template.c:44-47 | the number and no text; the borrowed flag keeps its old value |
| `TemplateRuntime.ScratchVariable.AssignNumber` | templates/scratch-transpiler-main-template.c:49-58 | number set, text cleared, exactly the owned buffer released; the borrowed flag keeps its old value |
| `TemplateRuntime.ScratchVariable.ReadNumber` | templates/scratch-transpiler-main-template.c:60-62 | the stored number, whether or not the value holds text |
| `TemplateRuntime.ScratchVariable.ReadString` | templates/scratch-transpiler-main-template.c:64-69 | the buffer's contents, or `""` without text |
| `TemplateRuntime.ScratchVariable.InitString` | templates/scratch-transpiler-main-template.c:71-75 | stores the pointer as given with the caller's flag, no copy; owns it exactly when the flag is clear |
| `TemplateRuntime.ScratchVariable.AssignString` | templates/scratch-transpiler-main-template.c:77-92 | number 0, owned text released, then a fresh owned `malloc` copy equal to the argument |
| `TemplateRuntime.ScratchVariable.AssignVariable` | templates/scratch-transpiler-main-template.c:110-116 | copies the source's text into one new buffer when it has text, otherwise takes its number and keeps the flag; exactly the buffer the target owned is released |
| `TemplateRuntime.ScratchVariable.Free` | templates/scratch-transpiler-main-template.c:118-127 | owned text released once, number 0, no text, flag kept |
| `TemplateRuntime.JoinStringVariables` | templates/scratch-transpiler-main-template.c:94-108 | the result owns exactly the one new buffer, whose contents are read(a) followed by read(b) |
| `TemplateRuntime.DefinedMonotone` | templates/scratch-transpiler-main-template.c:193-194 | an expression stays evaluable while only new live buffers appear, so the second operand can still be evaluated after the first |
| `TemplateRuntime.DefinedResolved` | templates/scratch-transpiler-main-template.c:150-265 | an evaluable expression reads only buffers that exist |
| `TemplateRuntime.Denote` | templates/scratch-transpiler-main-template.c:150-265 | the value a helper computes, with no temporaries: literals and arithmetic give no text, a string literal and a join give number 0 and a text, a variable has text exactly when it holds some. `Evaluate` is proved to return it |
| `TemplateRuntime.DenoteStable` | templates/scratch-transpiler-main-template.c:193-194 | allocating the first temporary does not change what the second operand denotes |
| `TemplateRuntime.ReadValueNumber` | templates/scratch-transpiler-main-template.c:152-158 | a fresh temporary holding the number, owning nothing |
| `TemplateRuntime.ReadValueString` | templates/scratch-transpiler-main-template.c:161-167 | a fresh temporary that borrows the literal; nothing allocated |
| `TemplateRuntime.ReadVariable` | templates/scratch-transpiler-main-template.c:170-177 | a fresh temporary with the variable's value, owning at most its own new copy |
| `TemplateRuntime.EvaluateOperands` | templates/scratch-transpiler-main-template.c:193-194 | two fresh temporaries with the operands' values, owning disjoint new buffers, with nothing else left live |
| `TemplateRuntime.TemporariesReleased` | templates/scratch-transpiler-main-template.c:196-201 | once both temporaries are freed, only the result's buffers are added to what was live |
| `TemplateRuntime.OperatorArithmetic` | templates/scratch-transpiler-main-template.c:189-235 | add, multiply and divide return the operation on the operands' numbers; both temporaries are released exactly once, after the result is computed |
| `TemplateRuntime.ArithmeticOfOperands` | templates/scratch-transpiler-main-template.c:196-201 | the result is computed from both numbers before either temporary is freed, and owns nothing |
| `TemplateRuntime.OperatorJoin` | templates/scratch-transpiler-main-template.c:237-250 | the join's value; the temporaries are released exactly once and only the result's buffer remains |
| `TemplateRuntime.JoinOfOperands` | templates/scratch-transpiler-main-template.c:244-249 | the result owns the buffer created by the join, and both temporaries are released |
| `TemplateRuntime.SquareRoot` | templates/scratch-transpiler-main-template.c:252-264 | the square root of the operand's number; the temporary is released |
| `TemplateRuntime.Evaluate` | templates/scratch-transpiler-main-template.c:150-265 | calling the helper named by an argument yields a fresh temporary equal to the expression's denotation, owning only buffers created for it |
| `TemplateRuntime.SetVariable` | templates/scratch-transpiler-main-template.c:179-187 | the target takes the expression's value (text copied into a new owned buffer, or the number); the temporary is released, so only the target's new buffer stays live |
| `TemplateRuntime.OpCodeNamed` | templates/scratch-transpiler-main-template.c:13-19 | the enumerator is `kScratchInPlace` exactly for the builder's in-place opcode name |
| `TemplateRuntime.IndexOfName` | templates/scratch-transpiler-main-template.c:304 | `&name` is the first block so named, or -1 when there is none |
| `TemplateRuntime.Link` | templates/scratch-transpiler-main-template.c:303-307 | null exactly for an empty name, otherwise a block with that name |
| `TemplateRuntime.Wire` | templates/scratch-transpiler-main-template.c:302-317 | the opcode, next, substack and inplace-function assignments `Scratch_Init` makes to one block; `WireLinks` states what they mean and `InitBlocks` is proved to make them |
| `TemplateRuntime.WireLinks` | templates/scratch-transpiler-main-template.c:302-317 | next and substack are null exactly when the name is empty, otherwise they point at the named block; an inplace function is set exactly for `kScratchInPlace` |
| `TemplateRuntime.InitBlocks` | templates/scratch-transpiler-main-template.c:301-318 | every block is wired as `Wire` says |
| `TemplateRuntime.BuilderRenderable` | templates/scratch-transpiler-main-template.c:301-318 | when every opcode is known, each non-empty `next` and substack name in the builder's output names a block of the array, so the wiring loop can render it |
| `TemplateRuntime.BuilderGraphWires` | templates/scratch-transpiler-main-template.c:301-318 | the builder's output is wired with every link pointing forward, and an `Inplace` block never continues into another |
| `TemplateRuntime.LinkForward` | templates/scratch-transpiler-main-template.c:303-312 | a link of an emitted block resolves to a later block |
| `TemplateRuntime.InitVariables` | templates/scratch-transpiler-main-template.c:292-299 | each global is initialised and then holds its collected value; text values get their own new buffers, pairwise disjoint, and nothing is released |
| `TemplateRuntime.InitGlobal` | templates/scratch-transpiler-main-template.c:293-298 | one global is initialised and then holds its collected value; a text value gets its own new buffer, and nothing is released |
| `TemplateRuntime.FindVariable` | templates/scratch-transpiler-main-template.c:321-328 | the first entry whose scope and name both match; -1 exactly when none matches |
| `LegacyVariables.ScratchVariable.constructor` | digital_clock.c:58-62 | a static global starts with number 0 and no text |
| `LegacyVariables.ScratchVariable.AssignNumber` | digital_clock.c:35-42 | frees the text exactly when there is one, leaves no text, sets the number |
| `LegacyVariables.ScratchVariable.AssignString` | digital_clock.c:44-53 | frees prior text, stores a fresh buffer equal to the argument, leaves the number unchanged |
| `DigitalClock.Program.constructor` | digital_clock.c:58-73 | five distinct globals, each with number 0 and no text, and seven fresh blocks |
| `DigitalClock.Program.Init` | digital_clock.c:105-139 | the numbers 0, 4, 1, 20.096 and 21.845, no text, nothing released, and the seven-block graph flag → Inplace1 → forever2 {Inplace3 → if4 {Inplace5} → Inplace6} |
| `DigitalClock.InitialGraph` | digital_clock.c:111-139 | the seven blocks as `Scratch_Init` wires them; `Program.Init` is proved to leave exactly this graph |
| `DigitalClock.FindVariable` | digital_clock.c:141-143 | always null: the lookup over an empty table |
| `RepeatUntilX.Program.constructor` | repeat_until_x.c:40-42 | three distinct globals, each with number 0 and no text |
| `RepeatUntilX.Program.Init` | repeat_until_x.c:51-55 | the numbers 0, 51 and 0 with no text; any text held before is freed |
| `StackVm.Step` | scratch-vm.c:29-63 | one activation moves the index by at most one and changes only the stack entry at the new index. A return leaves blocks, sprites and stack alone. In a body a null cursor returns at once, and the run never leaves the body or drops below its frame. At the top level, with no frame left under a null cursor, the index becomes -1 and the call returns |
| `StackVm.StepVisits` | scratch-vm.c:35-62 | at the block under the cursor, a `Repeat` below `times` counts one iteration, pushes its body and enters it. Any other block leaves the counters alone and moves the cursor to `next`. A `MoveSteps` adds `steps` to its own sprite's x and changes no other sprite. At the top level a null cursor first pops to the frame below |
| `StackVm.Moved` | scratch-vm.c:56-59 | the machine with one sprite moved by a `MoveSteps` block's steps; `StepVisits` proves that it is the only sprite that moves |
| `StackVm.SameGraphShaped` | scratch-vm.c:45-49 | a machine whose blocks differ only in iteration counts stays runnable |
| `StackVm.StepNext` | scratch-vm.c:51-63 | an activation that recurses keeps the graph, leaves a runnable machine, and decreases the termination measure |
| `StackVm.Run` | scratch-vm.c:29-64 | `Advance` terminates on every runnable machine and keeps the sizes of blocks, sprites and stack |
| `StackVm.StepCounters` | scratch-vm.c:45-49 | an activation keeps the graph, never lowers a counter, and never takes one past `times` |
| `StackVm.RunCounters` | scratch-vm.c:45-52 | over a whole call no counter goes down, and none passes `times` when none did before |
| `StackVm.BodyRunKeepsOuterFrames` | scratch-vm.c:30-33 | a call inside a body never pops its frame and leaves the frames under it untouched |
| `StackVm.Vm.constructor` | scratch-vm.c:123-125 | the machine over the given block, sprite and cursor arrays and stack index |
| `StackVm.Vm.Advance` | scratch-vm.c:29-64 | the loop leaves the arrays and the index exactly as `Run` says; `dt_millis` plays no part |
| `StackVm.Vm.Activate` | scratch-vm.c:30-63 | one activation on the arrays is `Step`: the same new machine, a return exactly when `Step` returns, and its new flag |
| `StackVm.DemoStart` | scratch-vm.c:66-125 | the demo machine is runnable with a stack of capacity 5: four moves of 1, then a `Repeat` of 4 over four moves of 2 |
| `StackVm.DemoAfter` | scratch-vm.c:127-134 | the machine after n calls is runnable: the sprite at 4 + 8n, the counter at n, and the index at 1, above the `Repeat`'s frame, on a null cursor |
| `StackVm.Follows` | scratch-vm.c:63 | when an activation recurses, the call's result is that of the recursive call |
| `StackVm.DemoState` | scratch-vm.c:66-125 | every intermediate demo state is runnable |
| `StackVm.DemoTopStep` | scratch-vm.c:82-97 | each of the four first moves adds 1 at the top level and goes on to the next block |
| `StackVm.DemoEnter` | scratch-vm.c:45-51 | the `Repeat` enters its body, counting one more iteration, while its counter is below 4 |
| `StackVm.DemoBodyStep` | scratch-vm.c:104-119 | each body move adds 2, and the last leaves a null cursor |
| `StackVm.DemoBody` | scratch-vm.c:30-33 | a run of the body adds 8 and returns without popping |
| `StackVm.DemoTop` | scratch-vm.c:124-127 | from the first block the four single moves add 4 and reach the `Repeat` at the top level |
| `StackVm.DemoScript` | scratch-vm.c:124-127 | from the first block one call adds 12, sets the counter to 1, and leaves the index at 1, above the `Repeat`'s frame, on a null cursor |
| `StackVm.DemoFirstCall` | scratch-vm.c:127 | the first call leaves the demo after one call, x = 12 |
| `StackVm.DemoLaterCall` | scratch-vm.c:130-133 | while the counter is below 4, each later call pops, re-enters the body once and adds 8 |
| `StackVm.RunDemo` | scratch-vm.c:123-134 | the three calls leave x at 12, 20 and 28 |
| `TickRunner.Wait` | test_program.c:177-194 | `BlockControlWait` on one block and the clock, returning the new block and the continue flag; `WaitLatch` states its meaning |
| `TickRunner.WaitLatch` | test_program.c:177-194 | the deadline `time + duration` is latched only on an inactive block, and a latched block is left alone; the result is 1 exactly while `time` is below the deadline, else 0 |
| `TickRunner.Glide` | test_program.c:134-175 | `BlockMotionGlideSecsToXY` on one block, the clock and the sprite, returning the new block, position and flag; `GlideLatch` states its meaning |
| `TickRunner.GlideLatch` | test_program.c:134-175 | start time and position are latched only on an inactive block. The result is 0 exactly when the elapsed time exceeds the duration; the position is then the path's end point, otherwise it is interpolated at the elapsed time |
| `TickRunner.Update` | test_program.c:98 | the update of the current block keeps the world valid and its block count |
| `TickRunner.UpdateFrame` | test_program.c:98-132 | every block returns 0 or 1, so the error stop cannot happen. Only the current block's state changes, the clock and the current block stay, and only a glide moves the sprite. The hat block returns 0 at once and changes nothing (test_program.c:127-132) |
| `TickRunner.TickSpec` | test_program.c:92-124 | a pass keeps the world valid and its block count |
| `TickRunner.TickOutcome` | test_program.c:92-124 | a pass continues exactly when the update returns 1, and then the clock gains 33 ms on the same block. A return of 0 leaves the clock alone: it either makes `next` current with `isActive` cleared, or, on a block without `next`, exits with the first block current |
| `TickRunner.TickKeepsProgram` | test_program.c:92-124 | a pass changes only latched block state, the clock and the sprite, never the script |
| `TickRunner.Pass` | test_program.c:92-124 | the world after one pass is valid and keeps its block count |
| `TickRunner.Passes` | test_program.c:92 | any number of passes keeps the world valid and its block count |
| `TickRunner.Iterate` | test_program.c:92 | any number of passes keeps the world valid and its block count |
| `TickRunner.IterateZero` | test_program.c:92 | no pass leaves the world as it is |
| `TickRunner.IterateLast` | test_program.c:92 | n + 1 passes are n passes followed by one more |
| `TickRunner.RepeatAdd` | test_program.c:92 | a + b applications of any step are a applications followed by b more |
| `TickRunner.IterateRepeat` | test_program.c:92 | n passes from a valid world are n applications of one pass as a step |
| `TickRunner.IterateAdd` | test_program.c:92 | a + b passes are a passes followed by b passes |
| `TickRunner.WaitTicksBound` | test_program.c:185 | k < `WaitTicks(d)` exactly when 33k < d: the number of 33 ms ticks that stay below a deadline d ahead |
| `TickRunner.WaitedValid` | test_program.c:180-190 | every waited state of a valid world is valid |
| `TickRunner.WaitStep` | test_program.c:180-190 | before that count is reached, one more pass of a wait entered inactive continues and reaches the next waited state |
| `TickRunner.WaitSteps` | test_program.c:180-190 | k passes of a wait entered inactive, up to `WaitTicks(d)`, reach the k-th waited state |
| `TickRunner.WaitStepsNext` | test_program.c:180-190 | if k - 1 passes reach the (k - 1)-th waited state, k passes reach the k-th, up to `WaitTicks(d)` |
| `TickRunner.WaitContinues` | test_program.c:185-190 | each of those passes continues |
| `TickRunner.WaitDuration` | test_program.c:177-194 | for n = `WaitTicks(d)`, the first n passes continue, with the block current and the sprite still. The clock is then at t + 33n, no earlier than t + d, and the next pass stops the wait without advancing it |
| `TickRunner.GlideTicksBound` | test_program.c:156 | k < `GlideTicks(d)` exactly when 33k ≤ d: the number of ticks whose elapsed time does not exceed d |
| `TickRunner.GlidedValid` | test_program.c:154-174 | every glided state of a valid world is valid |
| `TickRunner.GlideStep` | test_program.c:154-174 | before that count is reached, one more pass of a glide entered inactive continues and reaches the next glided state |
| `TickRunner.GlideSteps` | test_program.c:154-174 | k passes of a glide entered inactive, up to `GlideTicks(d)`, reach the k-th glided state |
| `TickRunner.GlideStepsNext` | test_program.c:154-174 | if k - 1 passes reach the (k - 1)-th glided state, k passes reach the k-th, up to `GlideTicks(d)` |
| `TickRunner.GlideContinues` | test_program.c:167-174 | each of those passes continues |
| `TickRunner.GlideDuration` | test_program.c:134-175 | for n = `GlideTicks(d)`, the first n passes continue on the block, and the clock is then at t + 33n. The next pass moves on, or exits without a `next`; it leaves the clock alone and puts the sprite on the path's end point |
| `TickRunner.GlideFinish` | test_program.c:99-114 | after `GlideTicks(d) + 1` passes, `next` is current with `isActive` cleared, the clock is at t + 33·`GlideTicks(d)`, the sprite is on the end point, and every other block is untouched |
| `TickRunner.WaitFinish` | test_program.c:99-114 | after `WaitTicks(d) + 1` passes, `next` is current with `isActive` cleared, the clock is at t + 33·`WaitTicks(d)`, the sprite has not moved, and every other block is untouched |
| `TickRunner.Scenario` | test_program.c:47-78 | the script: on the flag, glide to (100, 100) in 1000 ms, wait 500 ms, glide to (0, 0) in 2000 ms; a valid world |
| `TickRunner.ScenarioFirstGlide` | test_program.c:61-72 | after 33 passes the wait is current, the clock is at t0 + 1023, the sprite is on the first glide's end point, and the later blocks are untouched |
| `TickRunner.ScenarioWait` | test_program.c:55-59 | after 50 passes the second glide is current, the clock is at t0 + 1551, and the sprite has not moved since |
| `TickRunner.ScenarioRun` | test_program.c:82-124 | pass 112 is `exit(2)`, at t0 + 3564 with the sprite on the second glide's end point |
| `TickRunner.Runner.constructor` | test_program.c:80-89 | the clock at 0, the sprite at the origin, the first block current |
| `TickRunner.Runner.ControlWait` | test_program.c:177-194 | the update in place is `Update` on the state: `Wait` on the current block |
| `TickRunner.Runner.GlideSecsToXY` | test_program.c:134-175 | the update in place is `Update` on the state: `Glide` on the current block |
| `TickRunner.Runner.Tick` | test_program.c:94-123 | one pass on the mutable state is `TickSpec` |
| `Transpiler.ReplaceSpaces` | scratch-transpiler.py:30 | same length; each space becomes `_` and every other character is kept |
| `Transpiler.ExtractSpriteName` | scratch-transpiler.py:29-30 | the target's name, character by character, with each space turned into `_` and every other character kept |
| `Transpiler.ExtractVariableName` | scratch-transpiler.py:33-38 | fails, with the id, exactly when the target has no such variable (the `KeyError`). Otherwise the sprite name, `_`, then the variable's name with its spaces turned into `_`; no space is left |
| `Transpiler.CanRunInplace` | scratch-transpiler.py:155-161 | the two opcodes, `data_setvariableto` and `motion_setx`, that become in-place blocks; `ExtractGood` proves a block is `Inplace` exactly when its start can run in place |
| `Transpiler.HasSubstack` | scratch-transpiler.py:164-170 | the two opcodes, `control_forever` and `control_if`, whose `SUBSTACK` input is followed; `ToKnownOpCodes` proves each of them has an enumerator |
| `Transpiler.ToKnownOpCodes` | scratch-transpiler.py:176-182 | an enumerator exactly for the flag, forever and if opcodes: `kScratchWhenFlagClicked`, `kScratchControlForever` and `kScratchControlIf`. Never `kScratchInPlace`; every opcode with a substack is known |
| `Transpiler.InplaceEntry` | scratch-transpiler.py:104-139 | the helper entry of one in-place block, collecting the variable of a `data_setvariableto` first; `InplaceEntriesValid` proves the collected variables stay valid |
| `Transpiler.InplaceEntries` | scratch-transpiler.py:104-139 | on success, one opcode and one helper entry per in-place block, the opcodes being the blocks' own, in order |
| `Transpiler.InplaceErrorPropagates` | scratch-transpiler.py:104-113 | once a prefix of the run fails, the whole run fails with the same error |
| `Transpiler.Extract` | scratch-transpiler.py:185-270 | a builder call only appends blocks, and returns the first one it appended; on success it returns a block exactly when it was given one |
| `Transpiler.Walk` | scratch-transpiler.py:193-256 | the loop only appends, and on success returns the first block it appended |
| `Transpiler.Trailing` | scratch-transpiler.py:258-268 | the trailing run only appends, and returns the block it appended |
| `Transpiler.EmitInplace` | scratch-transpiler.py:202-223 | the `Inplace` branch only appends, and returns the first block it appended |
| `Transpiler.EmitBlock` | scratch-transpiler.py:224-256 | the opcode branch only appends, and returns the first block it appended |
| `Transpiler.Substack` | scratch-transpiler.py:233-244 | building the substack keeps every block up to the parent and never shrinks the list |
| `Transpiler.TopLevelIds` | scratch-transpiler.py:277-280 | an id is listed exactly when it is in `blockOrder` and its block is top level, in the order of `blockOrder`; `TopsCovered` proves these are all the top-level blocks of a target whose `blockOrder` lists each of its blocks once |
| `Transpiler.ExtractTops` | scratch-transpiler.py:282-289 | the loop over top-level blocks only appends |
| `Transpiler.ExtractTargets` | scratch-transpiler.py:276-289 | the loop over targets only appends |
| `Transpiler.Extraction.constructor` | scratch-transpiler.py:274-275 | no blocks, no variables, an empty cache |
| `Transpiler.MakeVariable` | scratch-transpiler.py:42-49 | `Variable(name, value)`: a number when the value parses as one, the text otherwise |
| `Transpiler.Access` | scratch-transpiler.py:58-69 | what `access_variable` does to the variables and the cache, or the `KeyError` of an unknown id; `AccessCollectsOnce` proves the invariant it keeps |
| `Transpiler.Extraction.AccessVariable` | scratch-transpiler.py:58-69 | blocks unchanged; the variables and cache change exactly as `Access` says, and its error is returned |
| `Transpiler.Extraction.SetInplaceBlocks` | scratch-transpiler.py:96-139 | blocks unchanged; the lists built and the variables collected are exactly those of `InplaceEntries`, error included |
| `Transpiler.Extraction.ExtractR` | scratch-transpiler.py:185-270 | the appended blocks, the collected variables and the returned block are exactly those of `Extract` |
| `Transpiler.Extraction.EmitInplaceR` | scratch-transpiler.py:202-223 | the same for the `Inplace` branch and `EmitInplace` |
| `Transpiler.Extraction.EmitBlockR` | scratch-transpiler.py:224-256 | the same for the opcode branch and `EmitBlock` |
| `Transpiler.CollectTopLevelIds` | scratch-transpiler.py:277-280 | the loop yields `TopLevelIds` |
| `Transpiler.ExtractTopsR` | scratch-transpiler.py:282-289 | the loop's state and error are those of `ExtractTops` |
| `Transpiler.ExtractProject` | scratch-transpiler.py:273-290 | the blocks and variables of all targets, or the first error; `ProjectWellformed` proves a successful result well formed |
| `Transpiler.ExtractBlocksAndVariables` | scratch-transpiler.py:273-290 | the blocks and variables returned are those of `ExtractProject` |
| `Transpiler.DecimalIsDigits` | scratch-transpiler.py:210 | `str(n)` is a non-empty string of digits |
| `Transpiler.DecimalString` | scratch-transpiler.py:210 | `str(n)` of a non-negative count; `DecimalIsDigits` and `DigitsValueOfDecimal` prove it a digit string that reads back as `n` |
| `Transpiler.DigitsValueOfDecimal` | scratch-transpiler.py:210 | `str(n)` reads back as n |
| `Transpiler.TrailingDigitsOfSuffix` | scratch-transpiler.py:230 | after a prefix that does not end in a digit, the trailing digits of a name are exactly the appended digits |
| `Transpiler.NameIndexOf` | scratch-transpiler.py:230 | a prefix that does not end in a digit, followed by `str(n)`, carries the index n |
| `Transpiler.NamesUnique` | scratch-transpiler.py:210 | in a well-formed list, two blocks with the same name are the same block |
| `Transpiler.AppendWellformed` | scratch-transpiler.py:211 | appending a well-shaped block, still unlinked and named with the current count, keeps the list well formed |
| `Transpiler.LinkedCarries` | scratch-transpiler.py:221 | a link stays resolved when blocks change without changing their names |
| `Transpiler.SetNextWellformed` | scratch-transpiler.py:221 | pointing a block's `next` at a later block keeps the list well formed, unless that would chain two `Inplace` blocks |
| `Transpiler.SetNextLinked` | scratch-transpiler.py:221 | after that change every `next` and substack link still names a later block |
| `Transpiler.SetNextSeparate` | scratch-transpiler.py:221 | after that change no `Inplace` block links to another, given the new target is not `Inplace` when block `idx` is |
| `Transpiler.SetSubstackWellformed` | scratch-transpiler.py:244 | pointing the substack of a non-`Inplace` block at a later block keeps the list well formed |
| `Transpiler.NamesAppend` | scratch-transpiler.py:68 | appending a variable adds exactly its name |
| `Transpiler.AccessCollectsOnce` | scratch-transpiler.py:58-69 | keeps the cache equal to the collected names and the names distinct; a cached name changes nothing; a new one is appended once and cached with its id |
| `Transpiler.InplaceEntriesValid` | scratch-transpiler.py:104-113 | collecting a run's variables keeps that invariant |
| `Transpiler.PrefixEndsInLetter` | scratch-transpiler.py:230 | sprite + `_` + opcode does not end in a digit when the opcode does not |
| `Transpiler.InplaceNameIndex` | scratch-transpiler.py:210 | `<sprite>_Inplace<n>` is non-empty and carries the index n |
| `Transpiler.BlockNameIndex` | scratch-transpiler.py:230 | `<sprite>_<opcode><n>` is non-empty and carries the index n |
| `Transpiler.ExtractGood` | scratch-transpiler.py:185-270 | a successful builder call keeps the blocks well formed and the variables valid; its block is `Inplace` exactly when the start block can run in place |
| `Transpiler.WalkGood` | scratch-transpiler.py:193-256 | the same for the loop; its block is `Inplace` exactly when a run is pending or the current block can run in place |
| `Transpiler.TrailingGood` | scratch-transpiler.py:258-268 | the trailing run keeps the invariant, and yields an `Inplace` block |
| `Transpiler.EmitInplaceGood` | scratch-transpiler.py:202-223 | the `Inplace` branch keeps the invariant, and yields an `Inplace` block |
| `Transpiler.EmitBlockGood` | scratch-transpiler.py:224-256 | the opcode branch keeps the invariant, and yields a non-`Inplace` block |
| `Transpiler.SubstackGood` | scratch-transpiler.py:233-244 | the substack keeps the invariant and leaves the parent's opcode alone |
| `Transpiler.ExtractTopsGood` | scratch-transpiler.py:282-289 | the top-level loop keeps the invariant |
| `Transpiler.ExtractTargetsGood` | scratch-transpiler.py:276-289 | the target loop keeps the invariant |
| `Transpiler.ProjectWellformed` | scratch-transpiler.py:273-290 | a successful build is well formed when no opcode of the project ends in a digit (`OpcodesEndInLetters`). Names are then pairwise distinct and each ends with the block's index. Links name later blocks. No `Inplace` block continues into another. Each `Inplace` block has one opcode and one helper per in-place block. Variable names are distinct |
| `Transpiler.NextOf` | scratch-transpiler.py:195-198 | no next block exactly when `next` is null or empty, otherwise the id in `next` |
| `Transpiler.Chain` | scratch-transpiler.py:193-200 | the in-place blocks met from a block along `next` until a block that cannot run in place or the end: empty exactly when the block itself cannot run in place, otherwise starting with it, and every member can run in place |
| `Transpiler.Follower` | scratch-transpiler.py:193-202 | the block the loop stops at: the block itself when it cannot run in place; otherwise a block of lower rank that cannot run in place and is the `next` of the chain's last block, or none when that last block ends the sequence |
| `Transpiler.ExtractBuilt` | scratch-transpiler.py:185-270 | the block a successful call returns is the block `Built` from its start. For an in-place start that is an `Inplace` block listing exactly `Chain`, linked to the block built from `Follower` (or `""` without one), with `topLevel` from the follower or from the chain's last block. Otherwise it has the start's known opcode and `topLevel`, and its substack and `next` link to the blocks built from the `SUBSTACK` input and from `next`. Every block the call appends is built from some block of the target |
| `Transpiler.WalkBuilt` | scratch-transpiler.py:193-268 | the same for the loop: with a pending run, the `Inplace` block lists the run followed by the chain from the current block |
| `Transpiler.InplaceStep` | scratch-transpiler.py:199-200 | adding an in-place block to the run and moving on to its `next` describes the same `Inplace` block |
| `Transpiler.TrailingBuilt` | scratch-transpiler.py:258-268 | a run that reaches the end of the sequence gives one `Inplace` block listing it, with no `next` and the `topLevel` of its last block |
| `Transpiler.EmitInplaceBuilt` | scratch-transpiler.py:202-223 | the `Inplace` block of a run links `next` to the block built from the block that ended the run, and takes that block's `topLevel` |
| `Transpiler.EmitBlockBuilt` | scratch-transpiler.py:224-256 | an opcode block is the block built from its block, with substack and `next` linked to the blocks built from them |
| `Transpiler.EmitBlockLinked` | scratch-transpiler.py:246-256 | setting the `next` link last completes the block built from it, and keeps what the blocks after it were built from |
| `Transpiler.SubstackBuilt` | scratch-transpiler.py:233-244 | only the parent's substack link changes, to the block built from `SUBSTACK`; without a substack nothing changes |
| `Transpiler.ExtractTopsBuilt` | scratch-transpiler.py:282-289 | every id of the loop gets a block built from it |
| `Transpiler.ExtractTopsOrigins` | scratch-transpiler.py:282-289 | every block the loop appends is built from some block of the target |
| `Transpiler.TopsCovered` | scratch-transpiler.py:277-280 | when each id of the first loop has a block built from it, so does every top-level block of the target |
| `Transpiler.ExtractTargetsBuilt` | scratch-transpiler.py:276-289 | every top-level block of every target gets a block built from it |
| `Transpiler.ExtractTargetsOrigins` | scratch-transpiler.py:276-289 | every appended block is built from a block of one of the targets |
| `Transpiler.ProjectBuilt` | scratch-transpiler.py:273-290 | a successful build holds, for every top-level block of every target, the block built from it, with the whole graph below it as `Built` describes; and every block it holds is built from some block of some target. No condition on opcodes is needed |

## Left out

- File and process plumbing is not modelled: `argparse`, reading the zip and project.json, Jinja2 rendering and file writing (scratch-transpiler.py:7-22, 293-327). The Jinja placeholders that the generator never fills are left out too.
- `Variable.__init__` float parsing (scratch-transpiler.py:44-49) is an abstract `parsesAsNumber`/`parseNumber` pair of the `Environment`.
- `extract_sprites` (scratch-transpiler.py:78-82) is not modelled; it builds a dict and never returns it.
- The monitor lookup in `set_inplace_blocks` (scratch-transpiler.py:115-136) is the abstract `monitorHelper` of the `Environment`. Only the one-entry-per-block shape is modelled: line 124 tests `monitor` rather than `found_monitor`, and the conditional binds tighter than the `+`.
- The key order of a target's `"blocks"` is its `blockOrder`; `WellFormedTarget` requires it to list every block of the target once, as the keys of a Python dict are.
- Text is any `string`, so a buffer may hold `'\0'`, but the C code's `strdup`, `strlen`, `memcpy` and `strcpy` stop at the first `'\0'`. The model agrees with the C code only for text without an embedded NUL; the truncation a NUL would cause is not modelled.
- `Transpiler.InplaceEntry`: `monitorHelper` never fails, so the model's builder succeeds where the source raises in three cases:
  - an `UnboundLocalError` at scratch-transpiler.py:124 when the project has no monitors and no earlier block bound `monitor`;
  - a `TypeError` at scratch-transpiler.py:127 when no monitor matches but `monitor` is still bound;
  - a `ValueError` from `float(...)` at scratch-transpiler.py:133 when the value is not a number.
- `Transpiler.ProjectWellformed`: unique block names are proved only when no opcode of the project ends in a digit (`OpcodesEndInLetters`), and `ExtractGood`, `WalkGood`, `EmitBlockGood`, `SubstackGood`, `ExtractTopsGood` and `ExtractTargetsGood` require the same. scratch-transpiler.py:230 does not check it: an opcode `foo1` at index 0 and an opcode `foo` at index 10 both give the name `S_foo10`.
- `Variables.ScratchVariable.AssignString` requires that the text assigned is not the variable's own owned buffer. The source frees that buffer and then calls `strdup` on it (templates/scratch-vm-variables.c:66-73), which reads freed memory; the model does not cover that case.
- `Variables.ScratchVariable.AssignVariable` requires the same of the source variable's text, for the same reason (templates/scratch-vm-variables.c:93-99).
- `TemplateRuntime.ScratchVariable.AssignString` requires the same: the template frees the buffer and then calls `strlen` and `memcpy` on it (templates/scratch-transpiler-main-template.c:80-89).
- `TemplateRuntime.ScratchVariable.AssignVariable` requires the same of the source variable's text, for the same reason (templates/scratch-transpiler-main-template.c:110-116).
- `LegacyVariables.ScratchVariable.AssignString` requires the same: digital_clock.c:45-52 frees the buffer and then reads it.
- Floating-point arithmetic is abstract:
  - the add, multiply, divide and sqrt helpers are the `Numerics` functions;
  - the timer `Scratch_sensing_timer` and `current_time` are not modelled;
  - the glide's interpolation in doubles is an `Interpolation` parameter.
- The velocities `state0.d` and `state1.d` that the glide latches are part of the interpolation, not fields.
- `TickRunner.GlideLatch`: the conversion of the interpolated double back to `int` is part of the interpolation parameter.
- Integer widths are not modelled:
  - `globalTime` and deadlines are `nat`, not `uint64_t`;
  - the glide's `int dt` and the sprite's `int x` are unbounded;
  - so wrap-around after 2^64 ms, or 2^31 steps, is not modelled.
- `printf` output and `exit` are not modelled; `exit(2)` is the `Exited` outcome. The error stop on a negative return is not a separate state: `TickRunner.UpdateFrame` proves no block returns one.
- The `while (1)` loop of test_program.c is modelled one pass at a time: `Runner.Tick`, with `Iterate` on values.
- The `next` of the demo's `Repeat` is left uninitialised at scratch-vm.c:76-80; the model sets it to null. Nothing is claimed about the repeat exhausting, only about the three calls `main` makes.
- The stack slots that the demo leaves uninitialised (scratch-vm.c:123) are null in the model.
- Termination of `Advance` and of the builder rests on ghost witnesses: an acyclic `next` chain (a rank), and a nesting depth below the stack capacity. Callers give these as preconditions.
- `Variables.JoinStringVariables`: no freedom from leaks is claimed. Its buffer from `malloc` (templates/scratch-vm-variables.c:83) is copied by `Scratch_InitStringVariable` and stays live without an owner, and the contract says so.
- There is no runtime for `kScratchControlWait`, Forever or If in the shown code, and the declared `Scratch_Advance` has no body shown, so none of these is modelled.
- The headers, frontend/sdl/sdl_main.cpp and scripts/update_launchjson.py are not modelled; the headers are used only for field names. tests/variables_gtest.cpp is not part of this model, because it needs a generated `variables.c`.
- The inplace functions of digital_clock.c (lines 78-91) have empty bodies, so they are modelled only as `hasInplaceFunction`.
- `DigitalClock.Program.Init`: the variables are assumed to hold no text beforehand, as static storage guarantees.
