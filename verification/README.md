# rWasm in Dafny

A model of the rWasm compiler and its flat stack machine, with proofs. rWasm turns validated WebAssembly into a linear
list of opcodes over 32-bit words in one pass: it resolves structured control flow into relative branches, splits every
64-bit value into two words, lowers "drop d, keep k" into local moves, collects fuel costs per basic block into earlier
charge opcodes, and calls shared code snippets for 64-bit arithmetic. The project follows the code from the operators of
one function to a linked, encoded and verified module.

How the files build on each other:

* `Words`, `Opcodes`, `Machine`, `Store`, `Blocks`, `ValueStacks`: words and limbs, the opcode table, the machine with
  its fuel counter, call stack and reserved stack room, straight-line code in isolation, and the array-backed value stack.
* `Source`, `Validation`, `Typing`, `Layout`, `SourceCosts`: structured code with a step-indexed big-step semantics in
  the style of section 4.4.8 of the WebAssembly Core Specification 2.0, the validator and the typing rules it decides,
  the word layout, and the price of loops.
* `Translator`: the one-pass translator as functions from translation state to translation state, on symbolic code whose
  branches name labels. `DropKeeps`, `Sequences`, `Locals` are the code it emits.
* `Invariants`, `Progress`, `Frames`, `Control`, `Branches`, `Structure`, `Bodies`, `Functions`: what every translation
  state satisfies; the translator never panics on valid code.
* `Images`, `SimpleRuns`, `Simulation`, `BranchRuns`, `JumpTables`, `BlockRuns`, `BodyRuns`, `Calls`, `Prefixes`, `Limits`:
  finished code simulates the source, with exact fuel, up to whole calls under a fuel limit.
* `Outlines`: what a function comes to, told from its operators and types alone: opcodes, words on the stack, charges,
  branch offsets, and the limits it must keep to. `Surveys`, `SurveySteps`, `SurveyBranches`, `SurveyTables`,
  `SurveySimple`, `SurveyBlocks`, `SurveyBodies`, `Forecasts`, `ModuleForecasts`: translation and compilation come to
  exactly that, failures included. `Bounds`: plain bounds under which nothing fails.
* `Metering`, `MeteredBodies`, `Termination`: the shape of metered code and the step bound it gives.
* `Labels`, `Builders`, `Pending`, `InstructionTranslators`, `Emissions`, `FunctionBuilders`: the translator as the mutable
  object it is, with its label registry, instruction set, height and frame stack. Every method agrees with the function on
  states, and back-patching completes what was left pending.
* `Linking`, `Modules`: snippets, relocation, whole modules, and exactly when compiling one fails.
* `Configs`, `Executions`, `Spin`: calls of compiled functions under any limits, the stack bound at every step, calls that
  end exactly as the source does, and the function that shows why the largest fuel limit is excluded from termination.
* `Operators`, `Numerics`, `Limbs`, `Multiplication`, `Division`: what the source operators compute, and 64-bit arithmetic
  on 32-bit limbs, as opcode sequences and as loops.
* `Bytes`, `Codec`, `OpcodeTable`, `Verifier`, `Acceptance`, `FuncTypes`: the binary format and its literal bytes, the
  static verifier and the compiled modules it accepts, and the registry of function types.

Modelling assumptions. `BrTable(n)` pops a selector i and continues at pc + 1 + 2 * min(i, n - 1), and the widening
opcodes push low word, then high word, as the executors do. Fuel costs come from another crate and are parameters: a basic
cost, charged for `if`, branches, `select`, locals, constants and numeric operators, and two entry costs. The wire format
is that of the legacy configuration of bincode: fixed-width little-endian integers and 64-bit lengths; a trap code is
written as the number of its variant. A machine step that the original leaves undefined (an access outside the allocated
stack entries, a program counter outside the code, an operand missing from the stack) is the outcome `Stuck`, and the
theorems show it does not occur. Where the code and its comments disagree, the model follows the code.

For the proofs a machine configuration may watch one activation, which must then neither hold more words than a given
bound nor return; `Configs.WatchedStep` shows that the machine without the watch does the same as long as the watch is
kept. Theorems about compiled calls speak about configurations without one.

Three properties fail in general and are stated with their exact limits. Metering bounds the steps of a call under every fuel
limit below the largest counter value (`Termination.FuelBoundsSteps`, `Executions.MeteredCallEnds`). At the largest value
it does not, because the counter saturates there: a compiled `loop br 0 end` goes on forever (`Spin.AloneNeverEnds`), and a
call ends if and only if the source does (`Executions.EndsAlike`). And an accepted module can run past its last opcode
(`Verifier.MayFallOff`): all its runs stay inside the code if and only if none of them gets to a last opcode that falls
through (`Verifier.SafetyNeedsSealing`), so always when the last opcode does not. And not every compiled module is
accepted: without metering, a loop that starts with a branch to itself becomes a jump by zero, which the verifier refuses
(`Acceptance.StutteringOutline`); all others are accepted, given an entrypoint in order (`Acceptance.CompiledAccepted`).

## Model

| member | source | states |
|---|---|---|
| `Modules.Compile` | src/compiler/parser.rs:96-198 | For when it fails see ModuleForecasts.ModuleDiagnosed, which tells it from the source alone. Compiling a module of validated functions never panics and fails exactly as the first function that cannot be compiled does (translation failure, branch too far, height of 2^32), or because entrypoint, functions and called snippets together have 2^32 opcodes or more; when it succeeds, its size is that sum, every function is linked as its correctness theorem asks (branches at their labels, snippet calls at their snippets, stack checks filled in), and entrypoint callees and element entries are function addresses |
| `ModuleForecasts.ModuleDiagnosed` | src/compiler/parser.rs:96-198 | When compiling a module succeeds, told from the operators and their types: it fails if and only if some function does, with the failure of the first one, or else if entrypoint, function sizes and the literal sizes of the 64-bit routines that are called reach 2^32; on success the size is that sum |
| `ModuleForecasts.Compilable` | src/compiler/parser.rs:96-198 | A sufficient condition without failures: all functions valid, each with fewer than 2^16 words of stack, fewer than 2^31 opcodes and total prices below 2^32, and room for the routines in the module |
| `Forecasts.Diagnosed` | src/compiler/func_builder.rs:47-60 | A function is built if and only if its outline says so, wherever it is put, and otherwise fails with the first unmet demand (drop or keep of 16 bits, a charge of 32 bits, a local depth or a table offset, a loop offset, the count of a table), else because a branch spans too far, else because of its height; when built it has exactly the counted opcodes, and the operand of its stack check is exactly the peak of the words on the stack beyond the parameters, neither less nor more |
| `Forecasts.Forecast` | src/compiler/translator.rs:646-1142 | The translation of a function fails exactly at the first demand that is not met; otherwise its size, its maximum height, the offsets of its branches and the routines it calls are those of the outline |
| `Bounds.Suffices` | src/compiler/drop_keep.rs:52-57 | Every valid function with a peak below 2^16 words, fewer than 2^31 opcodes and, if metered, entry cost and operator prices below 2^32 together is compiled without failure |
| `SurveyBodies.BodySurveyed` | src/compiler/translator.rs:646-1142 | The induction behind it, over all validated bodies, with their unreachable parts: code size, height, running maximum, open charge, loop positions, pending branches and settled offsets of the translator agree with the outline after every operator, and the translator fails where the first demand is not met |
| `SurveyBodies.SkipSurveyed` | src/compiler/translator.rs:557-565 | Unreachable code costs one empty charge per block end, if metered, and the words of the results it leaves on the emulated stack |
| `SurveyBranches.BrSurveyed` | src/compiler/translator.rs:902-926 | `br` succeeds exactly if drop and keep have 16 bits, the charge fits and the offset to a loop fits |
| `SurveyBranches.BrIfSurveyed` | src/compiler/translator.rs:928-987 | `br_if`, direct or over its moves, likewise, with the fresh charge behind it |
| `SurveyTables.TableSurveyed` | src/compiler/translator.rs:989-1129 | `br_table`: the targets are refused in order for their drop-keep, the offset to their trampoline or the offset to a loop, and the table for its count |
| `SurveySimple.SimpleSurveyed` | src/compiler/translator.rs:1243-1338 | Every operator without control flow has the literal number of opcodes and temporary words of the outline; only a charge or the depth of a local can be refused |
| `SurveyBlocks.EndSurveyed` | src/compiler/translator.rs:817-900 | At `end` the branches to the block get their distance to this place, and the height is that of the frame with the results |
| `SurveyBlocks.ElseSurveyed` | src/compiler/translator.rs:728-799 | At `else` the jump of the `if` gets its distance to the second branch |
| `Executions.CallRuns` | src/compiler/translator.rs:646-1142 | Main theorem, end to end: a call of any function of a compiled module, metered or not, under any fuel, stack and call limit, leaves exactly the source results on top of the caller's words at `return`, charged entry cost plus the cost of the executed operators, and is out of fuel exactly if that exceeds the limit; a source trap is that trap or out of fuel; the only other answer is a stack overflow, and only if the stack limit leaves fewer words than the function and a snippet ask for or no call level is left |
| `Executions.NeverStuck` | src/compiler/func_builder.rs:62-124 | Stack-bound soundness, for every call, metered or not, ending or not, and every number of steps: until the function returns the machine is never stuck (no write outside the reserved stack, no jump outside the code), the return addresses of its callers stay, and whenever the function itself runs the stack holds at most the height on entry plus the operand of its stack check |
| `Executions.DivergesToo` | src/compiler/translator.rs:671-694 | If the source never ends, then after every number of steps the call still goes on, within its stack bound and without returning; only a fuel limit below the largest counter value or too small a stack can stop it |
| `Executions.EndsAlike` | src/compiler/translator.rs:671-694 | With ample room and no fuel limit, or one that the counter cannot pass, the machine ends the call if and only if the source does |
| `Executions.MeteredCallEnds` | src/vm/store.rs:87-96 | With metering on and a limit below the largest counter value every call ends: source results, source trap, out of fuel, or a stack overflow if the stack limit does not leave the room the function and a snippet ask for |
| `Spin.LargestLimitNeverEnds` | src/vm/store.rs:87-96 | At the largest limit metered calls need not end: for every linked translation of `loop br 0 end`, at any place in a module, and every number of steps, the call goes on; the saturating counter cannot exceed the limit |
| `Spin.AloneNeverEnds` | src/vm/store.rs:87-96 | The concrete failing input: that function compiled on its own, for all costs, is a linked call with ample room, and it never ends |
| `Spin.ForeverTranslated` | src/compiler/translator.rs:671-926 | The translation of `loop br 0 end` in closed form: charges before the loop, in it and behind it, and the jump back to the loop header |
| `Prefixes.PaidInAdvance` | src/compiler/translator.rs:286-300 | In the middle of a call: once any first part of the body has completed, the machine holds the flattened source state and has already been charged for the entry and for every operator executed so far |
| `Configs.CutSteps` | src/vm/value_stack.rs:259-273 | Step by step, what a run with ample room becomes under tighter stack, call and fuel limits: the same, or a stack overflow, or out of fuel |
| `Modules.Link` | src/compiler/parser.rs:266-304 | From compiled functions with pending snippet calls to linked ones: all snippet calls, callees and elements resolved; it fails if and only if the module has 2^32 opcodes or more, with one copy of each called snippet counted |
| `Modules.CompileFunctions` | src/compiler/parser.rs:875-896 | Functions are appended one behind the other, up to the first that fails, whose failure is returned; otherwise the code, the pieces and the recorded snippet calls are exactly those of translating each function behind the settled code of the ones before, and later functions leave earlier ones untouched |
| `Modules.Counted` | src/compiler/parser.rs:875-896 | Compiled code has at least as many opcodes as functions and snippet calls together, so function indices fit whenever the code does |
| `Calls.FunctionRuns` | src/compiler/translator.rs:646-1142 | Meaning preservation for one function: for all arguments the machine, entering at the signature check, reaches `return` with the caller's words followed by the flattened results and the fuel counter raised by entry cost plus source cost; before a trap at least that much has been charged; if the source goes round loops for n rounds, the machine takes at least n steps inside the call and is charged what was executed |
| `BodyRuns.Runs` | src/compiler/translator.rs:646-1142 | The simulation theorem behind it, for every validated sequence of operators, every split of the stack into locals, hidden words and operands, and every outcome of the step-indexed source semantics; every branch to a label takes a step, so a source run that goes on makes the machine go on |
| `BodyRuns.RunsLoop` | src/compiler/translator.rs:671-694 | A loop body translated once simulates every number of iterations, with at least one machine step for each |
| `BodyRuns.RunsIf` | src/compiler/translator.rs:696-726 | `if` without `else`: the branch not taken falls to the pinned else label with the stack unchanged |
| `Calls.ReservationRuns` | src/compiler/func_builder.rs:62-124 | The patched stack check makes room for everything the function will push, and the bulk constants leave exactly the zeroed words of the declared locals |
| `Functions.NeverPanics` | src/compiler/func_builder.rs:47-60 | Translation of a valid function fails only with a reported limit, never by a panic of labels, frames, types or heights |
| `Functions.ParamsFit` | src/compiler/translator.rs:242-246 | The charge for parameters, whose overflow would be a panic, always fits |
| `Bodies.LiveTranslate` | src/compiler/translator.rs:316-327 | Emulated-stack invariant over whole bodies: no panic, the word widths of the type stack equal parameter words plus height after every operator, every live frame's height falls on a type boundary, reachability follows validation, earlier code only gains fuel, pinned labels stay |
| `Control.DeadTranslate` | src/compiler/translator.rs:557-565 | Unreachable code, well typed or not, emits nothing but frame bookkeeping and cannot panic |
| `Control.EndKeeps` | src/compiler/translator.rs:817-900 | `end` lands exactly on the type boundary of its frame and keeps all invariants |
| `Structure.IfEntered` | src/compiler/translator.rs:696-726 | Entering `if`: condition popped, cost charged before the branch, two fresh labels, frame height below the parameters |
| `Bodies.ElseStarts` | src/compiler/translator.rs:728-799 | `else` restores the stack of the `if` entry, pins the else label behind the jump over the second branch and takes a fresh charge |
| `Functions.PrologueIs` | src/compiler/translator.rs:209-247 | The prologue in closed form: signature check, one charge for parameters, basic cost and locals, stack check, one bulk constant per group of locals |
| `Functions.FunctionEnds` | src/compiler/translator.rs:817-900 | The end of the outermost frame returns with the drop-keep of the whole frame and pins the function's own label |
| `Simulation.SimpleFollows` | src/compiler/translator.rs:1243-1338 | Every operator without control flow, inline or by a snippet call, does to the flattened stack what the source does to typed values |
| `Simulation.SnippetCall` | src/compiler/snippets.rs:28-95 | Calling a snippet function replaces the four operand words by the result words, restores the return address and leaves the rest of the stack alone |
| `BranchRuns.BrFollows` | src/compiler/translator.rs:902-926 | `br` runs its moves and lands at the label (or at `return` for the outermost frame) with exactly the label's arguments kept |
| `BranchRuns.BrIfFollows` | src/compiler/translator.rs:928-987 | `br_if`: taken, it lands like `br`; not taken, the skip leads behind the moves with the stack unchanged |
| `BranchRuns.ReturnFollows` | src/compiler/translator.rs:1131-1142 | `return` keeps the results and drops locals, parameters and operands |
| `JumpTables.BrTableFollows` | src/compiler/translator.rs:989-1129 | `br_table` reaches the destination of the selected target, and of the default for every selector out of range |
| `JumpTables.TableLayout` | src/compiler/translator.rs:1016-1129 | For every list of targets, slot i leads, directly or through its trampoline, to the moves and destination of target i; later targets do not disturb earlier slots |
| `JumpTables.TargetPicked` | src/compiler/translator.rs:1092-1122 | The dispatch rule of the table opcode meets the slot of the selected target |
| `Locals.GetRuns` | src/compiler/translator.rs:1284-1300 | `local.get` with any mix of one- and two-word types pushes exactly the words of that local |
| `Locals.SetRuns` | src/compiler/translator.rs:1302-1316 | `local.set` replaces exactly the words of that local, low word first, and nothing else |
| `Locals.TeeRuns` | src/compiler/translator.rs:1318-1338 | `local.tee` writes both words of a wide local and keeps the operand |
| `Locals.SelectRuns` | src/compiler/translator.rs:1256-1276 | `select` on one- and two-word operands keeps the chosen value, the six-opcode form included |
| `Locals.DropRuns` | src/compiler/translator.rs:1243-1254 | `drop` removes one or two words |
| `Locals.ConstRuns` | src/compiler/translator.rs:1565-1583 | Constants push the low word below the high word |
| `DropKeeps.LowerRuns` | src/compiler/drop_keep.rs:59-88 | For all drop, keep and stacks the lowered code removes exactly the dropped words under the kept ones, in order, within one word of room above when the moves overlap |
| `DropKeeps.LowerLength` | src/compiler/drop_keep.rs:59-88 | The number of opcodes, on which the skip of `br_if` relies |
| `Builders.TranslateDropKeep` | src/compiler/drop_keep.rs:59-88 | The two loops emit that code, return its length and raise the maximum height by the temporary word only |
| `Builders.PushOverwrite` | src/compiler/drop_keep.rs:70-76 | First branch: one local.set per kept word |
| `Builders.PushMoves` | src/compiler/drop_keep.rs:77-86 | Second branch: the kept words move down one by one |
| `InstructionTranslators.InstructionTranslator.constructor` | src/compiler/translator.rs:175-194 | A translator starts on the code of the earlier functions with no labels, frames or types |
| `InstructionTranslators.InstructionTranslator.PushJump` | src/compiler/translator.rs:337-358 | A branch gets its offset at once or a user for it; same outcome as the function on states |
| `InstructionTranslators.InstructionTranslator.NewLabel` | src/compiler/labels.rs:78-86 | Allocates the next label |
| `InstructionTranslators.InstructionTranslator.PinLabel` | src/compiler/translator.rs:259-264 | Pins a label here; pinned twice is a panic |
| `InstructionTranslators.InstructionTranslator.TryPinLabel` | src/compiler/labels.rs:119-123 | Pins a label unless it is pinned |
| `InstructionTranslators.InstructionTranslator.BumpFuelConsumption` | src/compiler/translator.rs:286-300 | Adds to the charge of the innermost frame, in place |
| `InstructionTranslators.InstructionTranslator.PushConsumeFuelEmpty` | src/compiler/translator.rs:266-270 | Emits an empty charge and returns its position |
| `InstructionTranslators.InstructionTranslator.Recharge` | src/compiler/translator.rs:978-983 | A fresh charge becomes the one of the innermost frame |
| `InstructionTranslators.InstructionTranslator.PushDropKeep` | src/compiler/translator.rs:908-911 | Drop-keep code through the builder |
| `InstructionTranslators.InstructionTranslator.PushTypes` | src/compiler/translator.rs:862-875 | Pushes types one by one with their words |
| `InstructionTranslators.InstructionTranslator.ShrinkTo` | src/compiler/translator.rs:851-861 | The pop loop of `else` and `end` as a function of types and heights |
| `InstructionTranslators.InstructionTranslator.ExpressedDepth` | src/compiler/translator.rs:576-590 | The summed widths of the topmost types |
| `InstructionTranslators.InstructionTranslator.PushLocalGet` | src/compiler/translator.rs:1284-1300 | Emits `local.get` |
| `InstructionTranslators.InstructionTranslator.PushLocalSet` | src/compiler/translator.rs:1302-1316 | Emits `local.set` |
| `InstructionTranslators.InstructionTranslator.PushLocalTee` | src/compiler/translator.rs:1318-1338 | Emits `local.tee` |
| `InstructionTranslators.InstructionTranslator.PushDropped` | src/compiler/translator.rs:1243-1254 | Emits `drop` |
| `InstructionTranslators.InstructionTranslator.PushSelect` | src/compiler/translator.rs:1256-1276 | Emits `select` |
| `InstructionTranslators.InstructionTranslator.PushConst` | src/compiler/translator.rs:1565-1583 | Emits a constant |
| `InstructionTranslators.InstructionTranslator.TranslateUnary` | src/compiler/translator.rs:4076-4095 | Unary operators, with their temporary room |
| `InstructionTranslators.InstructionTranslator.TranslateUnaryCompare` | src/compiler/translator.rs:4097-4116 | Unary tests |
| `InstructionTranslators.InstructionTranslator.TranslateBinary` | src/compiler/translator.rs:3988-4014 | Binary operators |
| `InstructionTranslators.InstructionTranslator.TranslateBinaryCompare` | src/compiler/translator.rs:4049-4074 | Comparisons |
| `InstructionTranslators.InstructionTranslator.TranslateConversion` | src/compiler/translator.rs:3945-3968 | i32 to i64 extensions |
| `InstructionTranslators.InstructionTranslator.TranslateWrap` | src/compiler/translator.rs:2043-2053 | i64 to i32 |
| `InstructionTranslators.InstructionTranslator.TranslateToSnippetCall` | src/compiler/translator.rs:4016-4047 | A call with a placeholder callee, recorded with its position |
| `InstructionTranslators.InstructionTranslator.VisitSimple` | src/compiler/translator.rs:557-565 | Skipped when unreachable; otherwise charged and translated |
| `InstructionTranslators.InstructionTranslator.VisitUnreachable` | src/compiler/translator.rs:634-640 | `unreachable` |
| `InstructionTranslators.InstructionTranslator.VisitReturn` | src/compiler/translator.rs:1131-1142 | `return` |
| `InstructionTranslators.InstructionTranslator.VisitBlock` | src/compiler/translator.rs:646-669 | `block` inherits the charge of its parent |
| `InstructionTranslators.InstructionTranslator.VisitLoop` | src/compiler/translator.rs:671-694 | `loop` pins its header before its charge |
| `InstructionTranslators.InstructionTranslator.VisitIf` | src/compiler/translator.rs:696-726 | `if` |
| `InstructionTranslators.InstructionTranslator.VisitElse` | src/compiler/translator.rs:728-799 | `else`, with its pop loop and its panics |
| `InstructionTranslators.InstructionTranslator.VisitEnd` | src/compiler/translator.rs:817-900 | `end` |
| `InstructionTranslators.InstructionTranslator.VisitBr` | src/compiler/translator.rs:902-926 | `br` |
| `InstructionTranslators.InstructionTranslator.PushSkippedMoves` | src/compiler/translator.rs:939-955 | The conditional branch over the moves is patched once they have been counted |
| `InstructionTranslators.InstructionTranslator.VisitBrIf` | src/compiler/translator.rs:928-987 | `br_if` |
| `InstructionTranslators.InstructionTranslator.EncodeTarget` | src/compiler/translator.rs:1038-1091 | One target of a branch table, slots and trampolines kept apart from the code; label users registered at the positions the branches will have |
| `InstructionTranslators.InstructionTranslator.VisitBrTable` | src/compiler/translator.rs:989-1129 | `br_table`: slots and trampolines appended behind the opcode, every user at the absolute position where its branch sits |
| `InstructionTranslators.InstructionTranslator.TranslateBody` | src/compiler/func_builder.rs:129-142 | The operator loop agrees with the translation function on whole bodies, failures included |
| `InstructionTranslators.InstructionTranslator.InitFuncBodyBlock` | src/compiler/translator.rs:209-247 | The frame around the body |
| `InstructionTranslators.InstructionTranslator.TranslateLocals` | src/compiler/func_builder.rs:62-115 | Groups of locals, typed one by one and reserved in one opcode each |
| `InstructionTranslators.InstructionTranslator.Finish` | src/compiler/translator.rs:374-399 | Back-patching: afterwards every branch at u for label l has u + offset = position of l and the stack check holds the maximum height; it fails exactly if an offset does not fit, or else if the height is no word |
| `FunctionBuilders.BuildFunction` | src/compiler/func_builder.rs:47-60 | A whole function on the mutable builder: never a panic; it fails exactly when, and as, the pure translation or the final patching does; on success each opcode is the settled one of the pure translation and all earlier code is unchanged |
| `FunctionBuilders.EndPinsAll` | src/compiler/labels.rs:165-170 | When a function ends every label used by a branch has been pinned |
| `FunctionBuilders.HeadStays` | src/compiler/translator.rs:380-398 | The stack check is where `finish` looks for it, and there is no other |
| `Emissions.AddsBody` | src/compiler/translator.rs:646-1142 | Translating any body, valid or not, only raises charges and appends opcodes that name no function and check no stack |
| `Pending.PatchesUser` | src/compiler/labels.rs:186-200 | Filling in one deferred user gives its branch the offset of eager resolution and leaves all other users pending |
| `Labels.LabelRegistry.PinLabel` | src/compiler/labels.rs:105-117 | A label is pinned at most once and then stays |
| `Labels.LabelRegistry.TryPinLabel` | src/compiler/labels.rs:119-123 | A pinned label stays where it is |
| `Labels.LabelRegistry.TryResolveLabel` | src/compiler/labels.rs:132-146 | A pinned label resolves to the checked offset, another one registers a user |
| `Labels.FromSrcToDst` | src/types/branch_offset.rs:32-38 | An offset exists exactly if it fits, and adds up |
| `Builders.InstructionSet.BumpFuelConsumption` | src/isa/mod.rs:332-345 | Raises a charge in place, with both of its errors |
| `Builders.InstructionSet.UpdateLastNth` | src/isa/mod.rs:140-142 | Patches the branch that many opcodes back |
| `Builders.ValueStackHeight.PushN` | src/compiler/value_stack.rs:41-51 | Height and running maximum |
| `Builders.ControlFlowStack.UpdateConsumeFuelInstr` | src/compiler/control_flow.rs:617-626 | The innermost live frame moves on to another charge |
| `Limits.UnderLimit` | src/vm/store.rs:87-96 | A limited run is the unlimited one until its counter would exceed the limit, and out of fuel then |
| `Limits.NeverExceeds` | src/vm/store.rs:87-96 | Consumed fuel never exceeds the limit |
| `Limits.MeteredCall` | src/vm/store.rs:87-96 | Fuel conservation at the end of a call turned into an exact condition for running out |
| `MeteredBodies.LiveMetered` | src/compiler/translator.rs:978-983 | Shape invariant of metered code: whenever code is reachable the innermost frame's charge is the latest one emitted and no label lies strictly behind it; every label is a charge; every backward jump has paid the basic cost since the last charge |
| `Termination.FuelBoundsSteps` | src/vm/store.rs:87-96 | Whatever the stack holds, a metered call-free function under a limit L below the largest counter value is over within (L / base + 1) * length steps; at the largest limit a call ends exactly if its source does (Executions.EndsAlike) |
| `SourceCosts.CallPays` | src/compiler/translator.rs:902-987 | A source run is given up only after as many rounds of a loop as allowed, and each round costs at least the basic cost of the branch that repeats it |
| `Store.FuelStore.TryConsumeFuel` | src/vm/store.rs:87-96 | Saturating charge; on failure the counter is left alone |
| `Store.FuelStore.RemainingFuel` | src/vm/store.rs:98-100 | Saturating remainder |
| `Numerics.SnippetRuns` | src/isa/compare.rs:26-197 | The sequences of all ten i64 comparisons, add, sub and mul leave exactly the 64-bit result as words within their declared room |
| `Numerics.NumRuns` | src/isa/bitwise.rs:17-85 | The inline sequences (eqz, and, or, xor, clz, ctz, popcnt, wrap, extend, all i32 operators) compute the source operator within their declared room, traps included |
| `Numerics.AddMeans` | src/isa/add_sub.rs:8-21 | The limb formula of add is addition modulo 2^64 |
| `Numerics.SubMeans` | src/isa/add_sub.rs:23-41 | The limb formula of sub is subtraction modulo 2^64 |
| `Numerics.MulMeans` | src/isa/mul.rs:7-23 | The limb formula of mul is multiplication modulo 2^64 |
| `Limbs.CompareLimbs` | src/isa/compare.rs:48-197 | Comparing high words first, low words unsigned, is comparing the numbers, signed and unsigned |
| `Numerics.CountMeans` | src/isa/bitwise.rs:17-56 | Counting zeros or ones limb by limb |
| `Operators.SignedDivision` | src/types/untyped_value.rs:605-627 | i32.div_s and i32.rem_s: n = q * d + r with the remainder smaller than the divisor and of the sign of n; traps for zero and for the smallest number by minus one, whose remainder is zero |
| `Operators.UnsignedDivision` | src/types/untyped_value.rs:615-637 | i32.div_u and i32.rem_u: the division equation; trap for zero |
| `Operators.Arithmetic32` | src/types/untyped_value.rs:575-597 | i32.add, sub and mul up to multiples of 2^32 |
| `Operators.Arithmetic64` | src/types/untyped_value.rs:580-592 | i64.add, sub and mul up to multiples of 2^64 |
| `Operators.ShiftBits` | src/types/untyped_value.rs:655-667 | Every bit of shl, shr_u and shr_s as a bit of the operand, the sign bit repeated by shr_s |
| `Operators.RotationBits` | src/types/untyped_value.rs:685-692 | Every bit of rotl and rotr as a bit of the operand |
| `Operators.LogicBits32` | src/types/untyped_value.rs:640-652 | i32.and, or and xor bit by bit |
| `Operators.LogicBits64` | src/isa/bitwise.rs:58-85 | i64.and, or and xor bit by bit |
| `Operators.Counts32` | src/types/untyped_value.rs:670-682 | i32.clz and ctz are the zeros before the first one bit from either end; popcnt is the number of one bits |
| `Operators.Counts64` | src/isa/bitwise.rs:17-56 | The same for i64 |
| `Operators.Compares32` | src/types/untyped_value.rs:695-797 | i32 comparisons give one or zero by the order of the unsigned or two's-complement readings |
| `Operators.Compares64` | src/isa/compare.rs:26-197 | i64 comparisons likewise |
| `Operators.Extensions32` | src/types/untyped_value.rs:962-969 | i32.extend8_s and extend16_s keep the low bits and give a number in their signed range |
| `Operators.Extensions64` | src/isa/conv.rs:17-28 | Extending an i32 keeps its signed or unsigned reading |
| `Operators.Wraps` | src/types/untyped_value.rs:915-917 | Wrapping keeps a number up to multiples of 2^32 |
| `Multiplication.Mul` | snippets/i64_mul.rs:5-81 | Karatsuba on limbs equals the product modulo 2^64, and the bytecode sequence; no intermediate sum overflows its word |
| `Multiplication.Mul32` | snippets/i64_mul.rs:29-52 | The 32 by 32 product is exact |
| `Multiplication.Add64` | snippets/i64_mul.rs:13-19 | Two-limb addition modulo 2^64 |
| `Multiplication.Sub64` | snippets/i64_mul.rs:21-28 | Two-limb subtraction modulo 2^64; the borrow fits |
| `Division.LongDivide` | snippets/i64_div_u.rs:50-85 | The 64-step loop: the remainder never exceeds the bits seen so far, so no shift loses a bit, and the quotient is exact for all divisors |
| `Division.DivMod64By32` | snippets/i64_div_u.rs:22-45 | The two-pass loop divides a 64-bit number by a divisor below 2^31 exactly |
| `Division.DivU` | snippets/i64_div_u.rs:2-85 | Unsigned division through early exit, fast path and general path, trap for zero |
| `Division.RemU` | snippets/i64_rem_u.rs:36-96 | Unsigned remainder, in agreement with the quotient |
| `Division.Neg64` | snippets/i64_div_s.rs:56-62 | Two-limb negation |
| `Division.DivS` | snippets/i64_div_s.rs:5-54 | Signed division truncates toward zero; traps for zero and for the one overflow |
| `Division.RemS` | snippets/i64_rem_s.rs:41-83 | Signed remainder with the sign of the dividend; zero, not a trap, for the smallest number by minus one |
| `Division.Truncates` | snippets/i64_rem_s.rs:41-83 | n = q * d + r with the remainder smaller than the divisor and the sign of n |
| `Division.DividedUnique` | snippets/i64_div_u.rs:50-85 | Quotient and remainder are determined |
| `Linking.ModuleLinker.EmitSnippets` | src/compiler/parser.rs:266-304 | Every called snippet kind becomes exactly one function behind the others; every recorded placeholder names it; nothing else changes |
| `Linking.ModuleLinker.EmitSnippet` | src/compiler/parser.rs:276-289 | One snippet: stack check, sequence, return, and its offset |
| `Linking.ModuleLinker.RelocateCode` | src/compiler/parser.rs:148-173 | Every operand that named function k becomes entrypoint length plus start of k; all other opcodes, relative branches among them, stay |
| `Linking.ModuleLinker.RelocateElements` | src/compiler/parser.rs:175-183 | Elements likewise; zero stays zero |
| `Modules.ConcreteStays` | src/compiler/parser.rs:148-173 | An opcode of a function is in the module as it was, shifted by the entrypoint |
| `Modules.CallResolved` | src/compiler/parser.rs:266-304 | A snippet call of the finished module calls the address where that snippet starts |
| `Codec.RoundTrip` | src/module/mod.rs:159-207 | Decoding the encoding of any module, whatever follows, gives the module and its exact length; the exact decoder refuses trailing bytes |
| `Codec.PrefixesRejected` | src/module/mod.rs:173-207 | Of all proper prefixes only the one without the four bytes of the source entry is accepted, with entry 0; all others are incomplete |
| `Codec.OnlyEncodings` | src/module/mod.rs:173-207 | Whatever is accepted is an encoding, complete or without its last four bytes |
| `Codec.OpcodeEncodes` | src/types/opcode.rs:44-81 | Every opcode decodes from its number and payload, and no proper prefix does |
| `Codec.BuildCode` | src/types/opcode.rs:26-81 | Opcode numbers and payload shapes identify opcodes |
| `Codec.CodeInverts` | src/isa/mod.rs:383-404 | A decoded code section is the encoding of its opcodes |
| `OpcodeTable.EntryBytes` | src/types/opcode.rs:96-187 | The first four bytes of entry i of the opcode table, in declaration order, are i, 0, 0, 0 |
| `OpcodeTable.FpuEntryBytes` | src/types/opcode.rs:188-258 | The same for the floating-point part, whose numbers start at 1000 |
| `OpcodeTable.AllListed` | src/types/opcode.rs:96-258 | Every opcode of the model is an entry of the table |
| `OpcodeTable.PayloadIs` | src/types/opcode.rs:44-61 | Behind the number comes the operand: literal little-endian bytes, offsets in two's complement |
| `OpcodeTable.TrapIs` | src/types/trap_code.rs:11-24 | Trap codes are four bytes, the lowest of which is the declared number |
| `OpcodeTable.HeaderBytes` | src/module/mod.rs:152-157 | A module starts with the bytes 0xef, 0x52, 0x01 |
| `OpcodeTable.ModuleBytes` | src/module/mod.rs:159-171 | A whole module: header, then each section with an eight-byte count, code, data, elements and hints in this order, then the source entry |
| `Verifier.RunsStaySafe` | src/module/verification.rs:89-282 | In an accepted, sealed module without indirect calls every run from the start or the source entry keeps program counter, return addresses, table slots and payload indices inside the code |
| `Verifier.Accepted` | src/module/verification.rs:89-282 | A module is accepted if and only if its source entry and its nonzero elements lie inside the code and every opcode is in order: branch offsets nonzero with their targets inside, table slots inside, callees inside, local depths positive, segments below 100000, tables below 100, payloads present |
| `Verifier.Refused` | src/module/verification.rs:89-282 | A refused module is refused for the first thing that is wrong, with the error that names it |
| `Acceptance.CompiledAccepted` | src/module/verification.rs:182-205 | A module that compiling returns is accepted if and only if its source entry is inside, the opcodes of its entrypoint are in order, and no function has a branch offset of zero in its outline |
| `Acceptance.MeteredApart` | src/compiler/translator.rs:671-694 | Metered functions never have one: a charge lies between a loop header and every branch to it |
| `Acceptance.StutteringOutline` | src/compiler/translator.rs:671-694 | The exception: without metering `loop br 0 end` is a branch by zero, with metering one by minus one |
| `Verifier.SafetyNeedsSealing` | src/module/verification.rs:116-180 | The exact condition: all runs of an accepted module without indirect calls stay inside the code if and only if none of them gets to the last opcode (with its payload) while that falls through; a module whose last opcode does not fall through meets it |
| `Verifier.MayFallOff` | src/module/verification.rs:116-180 | An accepted one-opcode module whose first step leaves the code |
| `Verifier.StepIsSuccessor` | src/vm/executor/control_flow.rs:19-123 | The control steps of the safety proof cover those of the machine |
| `ValueStacks.ValueStack.Reserve` | src/vm/value_stack.rs:259-273 | Reserving succeeds exactly within the maximum length, keeps the contents, and afterwards the entries suffice |
| `ValueStacks.ValueStack.Execute` | src/vm/executor/stack.rs:5-69 | Stack opcodes on the array do what the machine model says, inside the entries |
| `ValueStacks.ValueStack.PushI64` | src/vm/value_stack.rs:708-712 | Low word first |
| `ValueStacks.ValueStack.PopI64` | src/vm/value_stack.rs:714-717 | Gives back what was pushed |
| `ValueStacks.ValueStack.PushValue` | src/vm/value_stack.rs:677-686 | A value takes the words of its layout |
| `ValueStacks.ValueStack.PopValue` | src/vm/value_stack.rs:692-702 | Popping by type inverts pushing |
| `Blocks.BlockRuns` | src/vm/executor/control_flow.rs:19-50 | Straight-line code with relative branches acts on the top of the stack only, whatever lies below |
| `FuncTypes.FuncTypeRegistry.AllocFuncType` | src/compiler/func_type_registry.rs:29-71 | Types are flattened to words, and equal types share the first signature |
| `FuncTypes.FuncTypeRegistry.SignaturesIdentify` | src/compiler/func_type_registry.rs:104-106 | Two types have the same signature if and only if they are equal |
| `FuncTypes.FuncTypeRegistry.Flatten` | src/compiler/func_type_registry.rs:33-59 | The flattening loop |
| `FuncTypes.Words32At` | src/compiler/func_type_registry.rs:35-46 | Place by place: a 64-bit type becomes two i32 in a row, every other type stays, in order |
| `Validation.Sound` | src/compiler/translator.rs:646-1142 | The source semantics of validated code never goes wrong: results have the checked types (section 4.4.8 of the WebAssembly Core Specification 2.0) |
| `Typing.Decides` | src/compiler/translator.rs:646-1142 | The validator decides typing rules in the style of section 3.3 of the WebAssembly Core Specification 2.0: it finds the stack that code leads to exactly if the rules derive it, and says that the end is never reached exactly if they do |

## Left out

- Functions.NeverPanics: the original panics in `current_pc` once the code has 2^32 opcodes; positions are unbounded numbers here, and such a module is refused by Modules.Compile at the end instead, so whenever Modules.Compile succeeds no position was too large.
- Termination.FuelBoundsSteps: call-free functions only, as the bound counts the code of one function; with snippet calls Executions.MeteredCallEnds still gives the end of every run, without a step count.
- Modules.Compile: a module of 2^32 opcodes or more is the failure TooLarge, where the original panics in `current_pc` or, for the length of the entrypoint and the starts of snippets, truncates with a cast; functions of the modelled subset call snippets only, so relocated callees inside function code are snippet calls while the entrypoint and the elements may name any function.
- Codec.RoundTrip: a length prefix that asks for more memory than there is is not modelled; the original would abort.
- InstructionTranslators.InstructionTranslator.VisitBrTable: with 2^32 targets and another failure at once the original may report the other one first; the table is collected in two fresh buffers instead of a reused field.
- Division.DivU: division by zero is the trap outcome, where the original executes a breakpoint intrinsic.
- Verifier.RunsStaySafe: indirect calls are excluded, as their targets come from tables at run time.
- Floating point, in opcodes, values and translation (types f32 and f64 are laid out, not computed with).
- Linear memory, tables, globals, bulk operations, segment initialisation, reference types and their fuel prologues.
- Calls between source functions, indirect and tail calls, host calls, intrinsics, resumption and interruption.
- The long machine-derived opcode sequences for 64-bit shifts, rotations, division and remainder: the limb algorithms behind them are proved for division and remainder instead; the shift and rotate snippets are short case splits.
- Translation without code snippets, which sends 64-bit comparisons through the helper for arithmetic.
- Parsing and validation by wasmparser: replaced by the validator of the model on the structured subset, whose verdict on code after a branch is simply "dead".
- The counter of branches per frame, which nothing reads; the state router and start function of the entrypoint, which appear only as arbitrary entrypoint opcodes.
- The stack as raw memory: positions are indices into a sequence or array; reallocation is modelled by a larger array.
- Vectors, atomics and exceptions, which the translator refuses; tracing, display, the alternative backend and all test harnesses.
