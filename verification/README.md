# A verified model of the JavaScript engine's compiler and module system

The project models, in Dafny, the parts of the engine whose correctness spans
many functions at once:

- **The bytecode compiler** (`crates/js-bytecode`). `CodeGen` and `StmtGen`
  describe the code of a fragment at a given address with all jump targets
  already known. `Emitter` is the one-pass compiler with its code buffer, loop
  and label frames, placeholders and patches, and is proved to produce exactly
  that code. `Semantics` is a big-step semantics of the source with completions,
  `Machine` is the stack machine. `ExprCorrect`, `StmtCorrect` and
  `FunctionCorrect` prove that compiled code ends, and diverges, exactly as the
  source does; `Pipeline` joins scopes, early errors, emission, verification and
  execution in one statement about one call. `OuterFrames` says what the frames of
  enclosing loops do to a function inside them.
- **The standard's meaning.** The compiler emits assignments to properties, updates,
  `typeof` of a name in parentheses and the name `undefined` with a meaning that is
  not the standard's, and leaves another completion value of a script. The semantics
  knows both meanings. `SpecifiedOrder` and `CompletionValues` prove where they
  agree, for every host that the runtime can be, and that they differ elsewhere;
  `WholeRuns` and `Pipeline` conclude that code without such places runs as the
  standard says.
- **The static discipline of compiled code.** `StackDepth`, `ExprDepth` and
  `StmtDepth` prove that every address of compiled code has one operand depth;
  `Verifier` is the structural verifier, sound for the machine and complete for
  the compiler.
- **Early errors, scopes and literals.** `EarlyErrors` (labels, `break`,
  `continue`), `Upvalues` (the stack of function scopes and the upvalue
  descriptors), `NameUse` (a body depends on its scope through its names alone),
  `Interning` (constants and slots), `Numerals` (what the text of a BigInt literal
  denotes, read off the notation) and `BigIntLiteral` (the digit loop that computes
  its decimal), `ExpressionGrammar` (the productions of the standard) and `Pratt`
  (precedence climbing, which parses exactly what they derive).
- **The module system** (`crates/js-engine`). `Cells` (live binding cells and
  their read-only views), `ExportResolution` (export resolution over cyclic
  graphs), `Namespaces`, `ExportLaws` (both, read off the entries of one module); linking: `LinkOrder` (the depth-first order and what has
  been linked when), `Linker` (the algorithm), `LinkedImports` (when importers
  share the bindings of their exporters) and `LinkOutcome` (whole links);
  evaluation: `EvalStates` (counters and lists), `EvalTrack` (what holds of every
  graph), `EvalOrder` and `EvalSteps` (the order of starts), `EvalShield` (what
  failed imports leave, and the programs that do not mind), `Evaluator` (the
  algorithm), `EvalScript`, `EvalFailure`, `EvalOutOfOrder` and `EvalAfterFailure`
  (runs that break the order).

Values, coercions, property access and global lookups belong to the runtime;
they are a parameter of the machine and of the source semantics, the `Host`,
whose operations may have effects on an opaque environment and may throw. The
interpreter behind the module evaluator is a parameter as well: a host that
answers every question put to it, by the number of the question. The language
standard is ECMA-262 (14th edition): section 7.1.2 for conditions, section 12.9.3 for
BigInt literals, sections 13.4 to 13.14 for the grammar of expressions, section 13.4
for updates, section 13.5.3 for
`typeof`, section 13.15.2 for assignments, sections 14.2.2 to 14.13.4 for the values
of statements, section 14.12.2 for `switch`, section 16.1.6 for scripts, sections
16.2.1.5.3 and 16.2.1.6.2 to 16.2.1.6.3 for modules.

Where the code differs from its documentation or from the standard, the model
follows the code, and says exactly when the difference shows:

- `o[k] = v` is emitted with `v` before `o` and `k`. Both orders agree when `v`, or
  `o` and `k`, cannot touch the host, or when both sides only read slots and apply
  operators (`SpecifiedOrder.Swapped`): reading a slot has no effect and fails always
  alike, and operators compute a value. So `a[i] = x` over local and captured
  variables runs as specified. For names and literals the condition is exact: the
  orders differ where one side reads a global and the other side is not literal
  (`SpecifiedOrder.AtomsAgreeExactly`).
- `x++` is emitted without ToNumeric and always adds the number one. Both meanings
  agree when the target holds a number, and for a prefix update also when the operator
  converts what it holds as ToNumeric does, which addition does not for strings and
  objects, and neither operator for BigInts and what becomes one. That is exact, for
  variables and for properties (`SpecifiedOrder.UpdateAgreesExactly`).
- `typeof (x)` of an undeclared `x` throws, and `undefined` is the literal value even
  where it has been declared. Each is told from the standard exactly by that syntax
  (`SpecifiedOrder.TypeofAgreesExactly`, `SpecifiedOrder.UndefinedAgreesExactly`).
- A script leaves the value of its last top-level expression statement; in the
  standard, `1; { 2; }` has the value 2. Nothing else can differ
  (`CompletionValues.EndsAlike`), and the values agree when nothing after the last
  top-level expression statement has a value (`CompletionValues.ScriptValue`); for
  scripts that go through all their conditions and load globals only, exactly then
  (`CompletionValues.ValuesAgreeExactly`).
- A jump is resolved by searching loops and switches before labelled blocks. Within
  one function that agrees with the standard, because a label that stands inside
  itself is an early error. But a function is compiled with the frames of the
  enclosing functions still open, and its own labels start afresh: in
  `L: while (a) { (function () { L: { break L; } })(); }` the `break` joins the outer
  loop, the function never returns, and the end of the loop is patched into the load
  of `a` (`LostBreak.CompileLoop`). An accepted body gets the code of the body alone,
  and leaves the frames around as they are, exactly if no `break` to a labelled block
  has the label of an enclosing loop (`Pipeline.CompileBody`).
- A module in a dependency cycle that exports an imported binding can be asked
  for it before its own import has been bound; the asking module then keeps a
  cell that nobody else has. `LinkOutcome.LinkFrom` states exactly when all
  imports share their bindings: when no import resolves to such a name of a
  module that the depth-first order links only later, unless the name's imports
  lead back to itself. Acyclic graphs, and graphs without such exports, are always
  fine. `LinkOutcome.LinkTwo` runs the linker on the smallest case: whether the
  binding is shared depends on the module from which linking starts.
- When a module finishes, the parents of every module that it releases are
  released too, although the released module may suspend itself. On acyclic graphs
  starts come after the ends of all dependencies, whatever the host does, if no
  module with a top-level await that depends on another one has an importer
  (`EvalOrder.AwaitsApart`, `Evaluate`); wherever there is such a module and
  importer, `EvalOutOfOrder.RunOutOfOrder` is a run in which the importer starts
  too early.
- A failed dynamic import leaves the modules on the way to it marked as under
  evaluation, and later imports take them for evaluated. On acyclic graphs whose awaits
  are apart, every host keeps the order exactly if the program is shielded, seen from
  the entry: of any two importers of a module that is not JSON and that the entry does
  not reach, one needs the other and comes to it before it comes to that module
  (`EvalShield.Shielded`, `Evaluate`); wherever two importers do not stand like that,
  `EvalAfterFailure.RunAfterFailure` is a run in which one starts although the shared
  module has thrown. A host in which no body throws always keeps the order.
- The structural verifier does not look at the operand stack
  (`Verifier.StackNotVerified`); compiled code satisfies the stack discipline for
  another reason, its shape.

## Model

| member | source | states |
|---|---|---|
| Pipeline.CompileBody | crates/js-bytecode/src/compiler.rs:546-649 | inside any open loops and labels: a body is rejected exactly when it has an early error about labels or jumps; an accepted one gets the code of the body alone and leaves the frames around untouched if and only if no `break` to a labelled block has the label of an enclosing loop; that code ends, with any host and from any environment, exactly as the source ends in the emitted order, and in the specified order too when no part of it depends on the order; it passes the structural verifier and has one operand depth per address |
| Pipeline.CompileScript | crates/js-bytecode/src/compiler.rs:58-145 | a script is rejected exactly when it has such an early error; otherwise its code ends as its source does, with the value of the last top-level expression statement evaluated, in the specified order too when no part depends on it, and with the completion value of the standard when nothing after the last top-level expression statement has a value |
| LostBreak.CompileLoop | crates/js-bytecode/src/compiler.rs:3237-3265 | the failing program, compiled: no early error, the inner function returns at once as a source and never as code, and the end of the outer loop replaces the operand of its first instruction |
| OuterFrames.BodyOver | crates/js-bytecode/src/compiler.rs:546-649 | among frames of enclosing functions, an accepted body has no compile error and its length; its code and holes are those of the body alone when it is sheltered, and otherwise some jump of it waits for an outer loop |
| OuterFrames.StmtOver | crates/js-bytecode/src/compiler.rs:3237-3278 | a sheltered statement whose jumps have frames in its own function has the same code among any further frames, and its open jumps join its own |
| OuterFrames.ListUnlabelled | crates/js-bytecode/src/compiler.rs:546-649 | inside loops without labels every body is sheltered |
| FunctionCorrect.FunctionCorrect | crates/js-bytecode/src/compiler.rs:613-618 | the machine halts with a result if and only if some source run of the body ends with it, and never faults |
| FunctionCorrect.FunctionDiverges | crates/js-bytecode/src/compiler.rs:613-618 | the machine runs forever if and only if the source does |
| FunctionCorrect.ScriptCorrect | crates/js-bytecode/src/compiler.rs:148-165 | a script halts with a result if and only if its source does, and no instruction before its last return pops an empty stack |
| FunctionCorrect.ScriptDiverges | crates/js-bytecode/src/compiler.rs:148-165 | a script runs forever if and only if its source does |
| ExprCorrect.ExprRuns | crates/js-bytecode/src/compiler.rs:1138-1451 | on any stack, in any surrounding code, the code of an expression makes the host calls of the source in the same order and pushes exactly the source value, or throws what the source throws, and changes no temporary that existed before it |
| ExprCorrect.LogicalRuns | crates/js-bytecode/src/compiler.rs:1168-1195 | the left value stays as the result, and the right operand is not run, exactly when the operator short-circuits |
| ExprCorrect.ConditionalRuns | crates/js-bytecode/src/compiler.rs:1367-1377 | one branch runs, the one that the test selects, and its value is the result |
| ExprCorrect.MemberTargetRuns | crates/js-bytecode/src/compiler.rs:2369-2404 | object and key are evaluated once, in order, into two fresh temporaries that hold the reference from then on |
| ExprCorrect.CompoundRuns | crates/js-bytecode/src/compiler.rs:1404-1438 | `t op= e` reads `t`, evaluates `e`, combines and stores through the same reference, whatever `e` does to temporaries |
| ExprCorrect.LogicalAssignRuns | crates/js-bytecode/src/compiler.rs:2484-2533 | `&&=`, `||=` and `??=` store only when the operator does not short-circuit, through the reference prepared at the start |
| ExprCorrect.UpdateRuns | crates/js-bytecode/src/compiler.rs:2895-2946 | `++` and `--` add one to the loaded value as it is, store the result and yield the new or the loaded value |
| ExprCorrect.AssignMemberRuns | crates/js-bytecode/src/compiler.rs:1412-1428 | `o[k] = v` evaluates `v`, then `o`, then `k`, and yields `v` |
| SpecifiedOrder.ExprSame | crates/js-bytecode/src/compiler.rs:1404-1438 | an expression in which the two sides of every plain property assignment can change places, every update is of something that holds numbers, `typeof` of an undeclared name has no parentheses and `undefined` is not declared means the same in the emitted and in the specified order, for every such host of the runtime and environment |
| SpecifiedOrder.Swapped | crates/js-bytecode/src/compiler.rs:1412-1428 | right-hand side and target of one assignment can change places when one of them cannot touch the host, or both only read slots and apply operators |
| SpecifiedOrder.AtomsAgreeExactly | crates/js-bytecode/src/compiler.rs:1412-1428 | for names and literals the two orders of `o[k] = v` agree for all hosts of the runtime if and only if `v`, or both `o` and `k`, are literal, or none of them is a global; otherwise a host in which loading a global acts tells them apart |
| SpecifiedOrder.QuietEval | crates/js-vm/src/interp.rs:1208-1213 | an expression that reads slots and applies operators changes nothing, and when it throws, throws what reading a slot throws |
| SpecifiedOrder.UpdateAgreesExactly | crates/js-bytecode/src/compiler.rs:2895-2946 | the emitted and the specified update of a variable or of a property agree, for all hosts whose arithmetic converts as the runtime's does and in which the target holds `v`, if and only if `v` is a number, or the update is prefix and `v` is converted by the operator and not to a BigInt |
| SpecifiedOrder.UpdateAgrees | crates/js-bytecode/src/compiler.rs:2895-2946 | for any target, computed or not, both updates agree when the value read is such a value |
| SpecifiedOrder.TypeofAgreesExactly | crates/js-bytecode/src/compiler.rs:1802-1819 | for any operand, the rule of the standard and the rule of the code agree for all hosts of the runtime if and only if the operand is not an undeclared name in parentheses |
| SpecifiedOrder.UndefinedAgreesExactly | crates/js-bytecode/src/compiler.rs:2844-2850 | reading `undefined` agrees for all hosts of the runtime if and only if it has not been declared |
| SpecifiedOrder.StmtSame | crates/js-bytecode/src/compiler.rs:166-382 | a statement without such places runs alike in both orders: same completion, same effects, same iterations |
| WholeRuns.FunctionSame | crates/js-bytecode/src/compiler.rs:613-618 | code that is correct for the emitted order is correct for the specified order when no part of the body depends on it |
| WholeRuns.ScriptSame | crates/js-bytecode/src/compiler.rs:148-165 | the same for scripts that leave the value of the last top-level expression statement |
| WholeRuns.StandardSame | crates/js-bytecode/src/compiler.rs:148-165 | such a script ends as the standard says, value included, when nothing after the last top-level expression statement has a value |
| CompletionValues.ScriptValue | crates/js-bytecode/src/compiler.rs:148-165 | then the value that the code leaves is the completion value of ECMA-262 for every host, environment and iteration count |
| CompletionValues.EndsAlike | crates/js-bytecode/src/compiler.rs:148-165 | for every script, the end by the standard and the end of the code differ in the value returned at most |
| CompletionValues.ValuesAgreeExactly | crates/js-bytecode/src/compiler.rs:148-165 | for scripts with a top-level expression statement that load globals, go through all their conditions and do not jump: the values agree for all hosts if and only if nothing has a value after the last top-level expression statement |
| ExprCorrect.OptionalRuns | crates/js-bytecode/src/compiler.rs:1701-1741 | a chain with an optional access yields the source value, undefined when some optional base is nullish |
| SourceLaws.WholeChainShort | crates/js-bytecode/src/compiler.rs:1701-1741 | after a short circuit no later access of the chain has any effect and the whole chain is undefined |
| SourceLaws.NullishShort | crates/js-bytecode/src/compiler.rs:1719-1732 | an optional access to a nullish root short-circuits with the effects of the root alone |
| StmtCorrect.StmtRuns | crates/js-bytecode/src/compiler.rs:166-382 | for any statement, surrounding code, frames and stack: a normal completion reaches the end of the segment, break and continue reach the address of the frame the source names, return and throw end the run, always on the same stack; a source run out of fuel is a machine run at least as long |
| StmtCorrect.WhileLoop | crates/js-bytecode/src/compiler.rs:219-231 | every iteration count of a `while` loop is matched by the machine |
| StmtCorrect.DoLoop | crates/js-bytecode/src/compiler.rs:232-241 | the same for `do`, where `continue` goes to the test |
| StmtCorrect.ForLoop | crates/js-bytecode/src/compiler.rs:242-281 | the same for `for` with any of its clauses absent, where `continue` goes to the update |
| StmtCorrect.SwitchRuns | crates/js-bytecode/src/compiler.rs:282-323 | a switch evaluates its discriminant once, runs the tests in order, enters the selected body or the default or the end, falls through, and is left by `break`, with nested switches sharing the scratch slot; what the selected body is, `SourceLaws` says |
| StmtCorrect.TestsRun | crates/js-bytecode/src/compiler.rs:288-303 | the tests run in source order without the default and the machine arrives at the body of the first match |
| StmtCorrect.LabeledRuns | crates/js-bytecode/src/compiler.rs:362-382 | a labelled statement absorbs a break to any of its labels; labels before a loop belong to the loop |
| SourceLaws.SelectsFirst | crates/js-bytecode/src/compiler.rs:288-303 | case `k` is selected if and only if the tests before it, evaluated in order, all differ from the discriminant and its own is strictly equal |
| SourceLaws.FallsThrough | crates/js-bytecode/src/compiler.rs:307-312 | running the bodies from a case on is running their concatenation as one statement list |
| SourceLaws.SwitchMatches | crates/js-bytecode/src/compiler.rs:282-323 | if the tests before case `k`, evaluated in order, all differ from the discriminant and its own is strictly equal, the switch runs the bodies from `k` on |
| SourceLaws.SwitchDefaults | crates/js-bytecode/src/compiler.rs:299-323 | if every test, evaluated in order, differs from the discriminant and case `k` alone has no test, the switch runs the bodies from `k` on, wherever `k` stands |
| SourceLaws.SwitchSkips | crates/js-bytecode/src/compiler.rs:299-323 | if every case has a test and all differ from the discriminant, the switch does nothing more |
| SourceLaws.SwitchThrows | crates/js-bytecode/src/compiler.rs:288-303 | a test that throws ends the switch when no case before it matches |
| SourceLaws.AcceptedDefaults | crates/js-parser/src/early_errors.rs:507-524 | a switch without the early error has exactly one case without a test, or none, and so one of these laws is about it |
| SourceLaws.TestDecides | crates/js-bytecode/src/compiler.rs:1168-1195 | a conditional, `!`, `&&` and `||` go by the list of false values of the standard, floats included, and `??` by undefined and null |
| SourceLaws.IfDecides | crates/js-bytecode/src/compiler.rs:200-218 | so does `if` |
| SourceLaws.NotEqualNegates | crates/js-bytecode/src/compiler.rs:1977-1995 | `a != b` is `!(a == b)` and `a !== b` is `!(a === b)`, effects and exceptions included |
| SourceLaws.TypeofAsks | crates/js-bytecode/src/compiler.rs:1802-1819 | `typeof` of a name that nothing declares asks for its type and does not load it |
| SourceLaws.TypeofTakes | crates/js-bytecode/src/compiler.rs:1802-1819 | `typeof` of any other operand without parentheses takes its value |
| SourceLaws.CountsByOne | crates/js-bytecode/src/compiler.rs:2895-2946 | `x++` stores the sum with one and yields the old value, `--x` the difference and yields the new one |
| Patching.StmtSame | crates/js-bytecode/src/compiler.rs:2950-2962 | code generated for two choices of the enclosing jump targets differs in the operands of the recorded placeholders and nowhere else; every placeholder is a jump in this fragment and they are recorded in order |
| Frames.CloseLoop | crates/js-bytecode/src/compiler.rs:3212-3221 | patching the two lists of a loop frame turns the open code into the code with the loop's targets, and touches nothing else |
| Frames.CloseBlock | crates/js-bytecode/src/compiler.rs:3229-3235 | the same for the frame of a labelled statement |
| ClosingFacts.LoopClosed | crates/js-bytecode/src/compiler.rs:3203-3221 | closing the frame of a compiled loop body leaves the enclosing frames with exactly the placeholders that jump further out |
| ClosingFacts.NothingOpen | crates/js-bytecode/src/compiler.rs:613-618 | no placeholder is left when a whole body has been compiled |
| Emitter.Emitter.Patch | crates/js-bytecode/src/compiler.rs:2960-2962 | the operand at one address changes and nothing else |
| Emitter.Emitter.CompileExpr | crates/js-bytecode/src/compiler.rs:1138-1451 | appends to the buffer exactly the two-pass code of the expression at the current address and leaves its tables |
| Emitter.Emitter.CompileRightOperand | crates/js-bytecode/src/compiler.rs:1168-1195 | the placeholder of a short circuit ends up at the address after the right operand |
| Emitter.Emitter.CompileConditional | crates/js-bytecode/src/compiler.rs:1367-1377 | both jumps of a conditional end up at their targets |
| Emitter.Emitter.FreshTemp | crates/js-bytecode/src/compiler.rs:2361-2364 | the slot is the one interning the generated name gives |
| Emitter.Emitter.PrepareTarget | crates/js-bytecode/src/compiler.rs:2369-2444 | emits the parts of a target into two temporaries, or nothing for a name |
| Emitter.Emitter.CompileLogicalAssignment | crates/js-bytecode/src/compiler.rs:2484-2533 | one-pass emission with three patches equals the two-pass code |
| Emitter.Emitter.CompileOptionalMemberChain | crates/js-bytecode/src/compiler.rs:1701-1741 | all nullish tests of the chain are patched to its one exit |
| Emitter.Emitter.CompileStmt | crates/js-bytecode/src/compiler.rs:166-392 | appends the two-pass code of the statement with unknown targets, adds its placeholders to the frames they leave and its errors to the list, and leaves the frames of enclosing statements otherwise unchanged |
| Emitter.Emitter.CompileFor | crates/js-bytecode/src/compiler.rs:242-281 | a `for` loop with its frame pushed, its placeholders patched to end and update, and the frame popped equals the two-pass code |
| Emitter.Emitter.CompileSwitch | crates/js-bytecode/src/compiler.rs:282-323 | tests, default jump and bodies with all case jumps patched equal the two-pass code |
| Emitter.Emitter.PatchCaseJumps | crates/js-bytecode/src/compiler.rs:314-316 | every case jump gets the start of its own body |
| Emitter.Emitter.CompileLabeled | crates/js-bytecode/src/compiler.rs:362-382 | nested labels are collected and given to the loop inside, or to one label frame |
| Emitter.Emitter.EmitBreak | crates/js-bytecode/src/compiler.rs:3237-3265 | finds a frame exactly when resolution does, and adds one placeholder to that frame |
| Emitter.Emitter.EmitContinue | crates/js-bytecode/src/compiler.rs:3266-3278 | the same for `continue`, which skips switches |
| Emitter.Emitter.PopLoop | crates/js-bytecode/src/compiler.rs:3212-3221 | the innermost frame is removed and exactly its placeholders are patched |
| Emitter.Emitter.CompileFunction | crates/js-bytecode/src/compiler.rs:613-618 | from an empty buffer among any open frames: the code, tables, errors and placeholders added are those of the two-pass generator for those frames |
| Emitter.Emitter.CompileScript | crates/js-bytecode/src/compiler.rs:58-145 | the same for a script |
| StackDepth.OneDepth | crates/js-vm/src/interp.rs:956-1012 | disciplined code has one operand depth per address in all runs with all hosts and never misses an operand |
| ExprDepth.ExprFlows | crates/js-bytecode/src/compiler.rs:1138-1451 | expression code entered at any depth leaves one more operand, whichever way it takes, and all its operands are in range |
| StmtDepth.StmtFlows | crates/js-bytecode/src/compiler.rs:166-392 | statement code is left, and left by every jump, at the depth at which it was entered |
| StmtDepth.ScriptFlows | crates/js-bytecode/src/compiler.rs:148-165 | script code keeps the discipline although every top-level expression statement leaves a value |
| Verifier.VerifyFunction | crates/js-bytecode/src/verify.rs:45-126 | the errors added are exactly the violations of that function |
| Verifier.VerifyModule | crates/js-bytecode/src/verify.rs:31-43 | an error is reported if and only if it describes a violation of the entry point or of some function, and none is exactly when the module is valid |
| Verifier.TablesPicked | crates/js-bytecode/src/verify.rs:85-126 | for the operands that no instruction of the model uses: closures pick a function other than the entry point, a jump may go to the end of the code and a handler may not |
| Verifier.VerifiedRun | crates/js-bytecode/src/verify.rs:85-113 | no run of a verified function, from any stack and with any host, reads outside the constant, local or upvalue tables or leaves the code except by its end |
| Verifier.CompiledVerifies | crates/js-bytecode/src/verify.rs:31-43 | every module of compiled scripts and functions, whatever the programs, passes verification |
| Verifier.CompiledDepth | crates/js-vm/src/stack.rs:22-24 | compiled code, accepted or not by the early errors, never pops an empty stack and has one depth per address |
| Verifier.StackNotVerified | crates/js-bytecode/src/verify.rs:45-126 | a module that passes verification can find its operand stack empty at its first instruction |
| EarlyErrors.Checker.CheckStmt | crates/js-parser/src/early_errors.rs:362-629 | the errors added are those of the statement in the current context of labels and depths, and the context is restored |
| EarlyErrors.Checker.CheckFunctionBody | crates/js-parser/src/early_errors.rs:236-246 | labels and loops do not reach into a nested function and are back afterwards |
| EarlyErrors.StmtAccepted | crates/js-parser/src/early_errors.rs:564-629 | in every context that describes the emitter's frames: no early error if and only if no label is nested in itself, no switch has two defaults, and the emitter finds a frame for every jump |
| EarlyErrors.BodyAccepted | crates/js-parser/src/early_errors.rs:607-629 | the same for whole function bodies |
| EarlyErrors.ContinueNeedsLoop | crates/js-parser/src/early_errors.rs:564-629 | `continue` to a label is accepted when the label stands before a loop of any kind, and is an early error when the loop stands in a block under the label |
| EarlyErrors.AcceptedCompiles | crates/js-bytecode/src/compiler.rs:324-339 | a body without early errors compiles without a compile error |
| Upvalues.ScopeStack.ResolveVar | crates/js-bytecode/src/compiler.rs:3128-3141 | a name is a slot of the current function, or an upvalue whose descriptor chain ends at the innermost enclosing declaration, or a global exactly when nothing around declares it |
| Upvalues.DenotesScope | crates/js-bytecode/src/compiler.rs:3128-3141 | the scope of the finished function addresses a name as it was addressed when it was resolved, whatever was captured since, and that still leads to the innermost declaration |
| Pipeline.CompileNested | crates/js-bytecode/src/compiler.rs:546-649 | a function inside others and inside their open loops: when no `break` to a labelled block has the label of an enclosing loop, its code runs as its source in every scope that gives the names in the body the innermost declarations around them, and the frames are untouched; otherwise some loop frame gets a placeholder of the inner code; the functions around it only gain captures |
| NameUse.ListAlike | crates/js-bytecode/src/compiler.rs:3128-3141 | two scopes that resolve the names in a body alike give it the same meaning, for every host, environment and iteration count |
| Upvalues.DenotesOne | crates/js-bytecode/src/compiler.rs:3128-3141 | a name has one address in a function: its slot, its one upvalue or the global |
| Upvalues.ScopeStack.ResolveUpvalue | crates/js-bytecode/src/compiler.rs:3155-3181 | captures the name for the next function, through all functions in between, exactly when some function up to there declares it; earlier captures stay where they are |
| Upvalues.ScopeStack.AddUpvalue | crates/js-bytecode/src/compiler.rs:3184-3201 | one entry per name, new ones at the end, every descriptor in range of the enclosing function |
| Upvalues.ScopeStack.DeclareLocal | crates/js-bytecode/src/compiler.rs:3093-3104 | the slot of a declared name is reused, a new name gets the next slot, and captures stay valid |
| Upvalues.ScopeStack.Push | crates/js-bytecode/src/compiler.rs:569-593 | parameters take the first slots by position and the last parameter of a name wins |
| Upvalues.ScopeStack.Pop | crates/js-bytecode/src/compiler.rs:625-647 | the finished descriptors are in range and lead where they should |
| Upvalues.ScopeStack.CaptureVisibleEnvironment | crates/js-bytecode/src/compiler.rs:3046-3065 | every name visible from outside and not shadowed is captured |
| Upvalues.FollowSame | crates/js-bytecode/src/compiler.rs:3184-3201 | an upvalue index keeps its meaning when captures are added |
| Upvalues.CapturedCell | crates/js-bytecode/src/module.rs:14-24 | at run time the cell read through a descriptor is the slot of the innermost enclosing function that declares the name |
| Interning.ConstantPool.InternStr | crates/js-bytecode/src/constant.rs:32-41 | the index of the one entry with this value, appended when absent; no two entries are equal |
| Interning.ConstantPool.InternBigInt | crates/js-bytecode/src/constant.rs:69-78 | the entry is the decimal text of the number that the literal denotes |
| Interning.InternTwo | crates/js-bytecode/src/constant.rs:69-78 | two BigInt literals get one index if and only if they denote the same number, whatever their notations |
| Interning.LocalTable.Intern | crates/js-bytecode/src/local.rs:23-33 | a known name keeps its slot; a new one gets a slot after the parameters that no other name has |
| Pipeline.BindParameters | crates/js-bytecode/src/local.rs:35-45 | parameters take the first slots by position, the last one of a name has it, and slot table and scope stack agree |
| BigIntLiteral.FromLiteral | crates/js-runtime/src/value.rs:609-656 | if the literal is a number written in base 2, 8, 10 or 16 after the prefix of that base, in either case, with separators anywhere and `n` at the end, the result is that number written in base ten without leading zeros |
| BigIntLiteral.Absorb | crates/js-runtime/src/value.rs:632-644 | one digit multiplies the vector by the radix and adds, in place; the carry stays below the radix, so 32 bits suffice |
| BigIntLiteral.MulAddValue | crates/js-runtime/src/value.rs:632-644 | the digit vector afterwards is that number in base ten |
| BigIntLiteral.PropertyName | crates/js-parser/src/expr.rs:1684-1731 | the same for a BigInt property key; a text that denotes no number is kept, without its separators and its `n` |
| BigIntLiteral.SameDecimalSameValue | crates/js-runtime/src/value.rs:609-656 | two literals have one decimal text if and only if they denote one number, and a literal denotes one number at most |
| BigIntLiteral.DenotesExactly | crates/js-runtime/src/value.rs:609-631 | a text is a BigInt literal of a number exactly when its prefix selects the radix, its remaining characters are digits of it, and they have that value |
| Numerals.SameText | crates/js-runtime/src/value.rs:645-656 | two numbers have the same decimal text if and only if they are equal |
| Pratt.TokenStream.ParseAll | crates/js-parser/src/expr.rs:434-537 | the parser returns a tree if and only if the grammar of the standard derives it as a ConditionalExpression and its tokens are the stream; spelled out, it is the text that was parsed |
| Pratt.TokenStream.ParseBinary | crates/js-parser/src/expr.rs:457-537 | the loop over operators computes the recursive climbing function and consumes what it does |
| Pratt.ParsesExactly | crates/js-parser/src/expr.rs:457-537 | parsing and printing are inverse on the trees that the grammar derives, and nothing else parses |
| Pratt.ClimbSound | crates/js-parser/src/expr.rs:467-536 | the loop keeps the tree well formed and consumes exactly its tokens |
| Pratt.InfixComplete | crates/js-parser/src/expr.rs:457-537 | a printed tree parses back to itself in any context that may follow it |
| Pratt.Unambiguous | crates/js-parser/src/expr.rs:25-41 | no token sequence is the text of two trees that the grammar derives |
| Pratt.TreeDerives | crates/js-parser/src/expr.rs:25-41 | the grammar of the standard, one nonterminal per operator level with its own operators and recursion, derives exactly the trees that respect the binding powers of the table, the rule for `??` and the rule for `**` |
| ExpressionGrammar.TokensSpell | crates/js-parser/src/expr.rs:457-537 | the tokens of a tree spell its words in order |
| Cells.Set | crates/js-runtime/src/value.rs:76-92 | only a direct cell that is writable or not yet initialized is written |
| Cells.PtrEqRoot | crates/js-runtime/src/value.rs:101-107 | cells are equal exactly when they are views of the same binding |
| Cells.WriteThrough | crates/js-runtime/src/value.rs:59-92 | a write by the exporter is read through every view and nowhere else |
| ExportResolution.ResolveExport | crates/js-engine/src/pipeline.rs:677-746 | over any loaded graph, cyclic or not: nothing if and only if no decided name is reachable, a cell if and only if all reachable ones share its binding, ambiguous if and only if two differ; the source cell of a module is handed out itself, not a view of it |
| ExportResolution.Search | crates/js-engine/src/pipeline.rs:677-746 | what one search with the shared visited set establishes about the nodes that it added |
| ExportResolution.FindModuleSourceCell | crates/js-engine/src/pipeline.rs:665-675 | finds the source cell of a module exactly when some module's source cell is this binding |
| Namespaces.CollectExportNames | crates/js-engine/src/pipeline.rs:817-841 | a module's own names and the non-default names of all modules it stars, through cycles |
| Namespaces.BuildModuleNamespace | crates/js-engine/src/pipeline.rs:771-791 | a name is a key if and only if it resolves to one binding, and then shows that binding |
| ExportLaws.NamedExport | crates/js-engine/src/pipeline.rs:687-722 | a name stands for what the first entry that names it says: a variable of the module, the namespace of another module, or whatever the imported name stands for there |
| ExportLaws.StarredExport | crates/js-engine/src/pipeline.rs:723-746 | a name that no entry names stands for exactly what it stands for in the starred modules, and `default` for nothing |
| ExportLaws.OfferedNames | crates/js-engine/src/pipeline.rs:817-841 | the names of a module are those of its entries and, without `default`, those of the modules it stars |
| Linker.ModuleGraph.LinkModule | crates/js-engine/src/pipeline.rs:561-657 | over any loaded graph: on success exactly the unlinked modules of the depth-first order have become linked, in that order, each import a view of what it resolved to at its turn, and every name that one of them passes on leads to a binding; modules that a link has entered are left alone, and asking for one again succeeds without linking it; a failure leaves at most one module under way, and that one has an import or export that does not resolve; a module ends failed, and the link fails, only if it needs a module that had failed, or one entered by this link with an ambiguous or missing import, or one that passes on a name that leads nowhere |
| Linker.ModuleGraph.InstallBindings | crates/js-engine/src/pipeline.rs:620-634 | exactly the import slots are replaced, by views |
| Linker.ModuleGraph.Link | crates/js-engine/src/pipeline.rs:561-657 | from outside: every module reachable through dependencies ends linked, with every name it passes on leading to a binding; only unlinked modules change, slots that are not imports keep their cells; it fails only for such a reason, and cannot fail when no module has failed and every imported name stands for exactly one binding |
| Linker.ModuleGraph.ValidateIndirectExports | crates/js-engine/src/pipeline.rs:635-654 | the names that a module passes on: all of them resolve, or one leads nowhere, or one is ambiguous, and the answer says which |
| Linker.FreshLinkable | crates/js-engine/src/pipeline.rs:561-657 | every loaded graph in which all named modules are requested meets what linking asks for |
| LinkOrder.LinksTrans | crates/js-engine/src/pipeline.rs:582-587 | what linking one dependency has done and what linking the next one does compose, early bindings and late ones |
| LinkOrder.LinksPassOn | crates/js-engine/src/pipeline.rs:646-654 | in whatever steps modules have been linked, each name that one of them passes on leads to a binding of the graph as it was |
| LinkedImports.ImportHolds | crates/js-engine/src/pipeline.rs:590-634 | an import slot ends up with the cell that another import slot had before linking exactly when the condition on names, order and imports says that it is left with it |
| LinkedImports.SharingExactly | crates/js-engine/src/pipeline.rs:590-634 | after a link all imports share the bindings they stand for if and only if the depth-first order was timely for the requests, imports and exports of the graph |
| LinkOutcome.LinkFrom | crates/js-engine/src/pipeline.rs:561-657 | one call from outside, on any loaded graph of fresh cells: after success all imports of all linked modules share their bindings if and only if they did before and the order was timely, every name passed on leads to a binding, and the graph can be linked further; a failure has one of the three reasons |
| LinkOutcome.NoReexportsTimely | crates/js-engine/src/pipeline.rs:590-620 | without an export of an imported slot every order is timely |
| LinkOutcome.AcyclicTimely | crates/js-engine/src/pipeline.rs:576-587 | without dependency cycles the order of linking is timely |
| LinkOutcome.ExporterWrites | crates/js-runtime/src/value.rs:59-107 | an assignment by the exporting module is what every importer that shares the binding reads |
| LinkOutcome.LinkTwo | crates/js-engine/src/pipeline.rs:561-657 | the linker run on two modules that import from each other, one exporting its import: it succeeds from either entry, and the binding is shared exactly when linking starts at the module that declares it |
| Evaluator.ModuleEvaluator.Evaluate | crates/js-engine/src/pipeline.rs:864-925 | whatever bodies, awaits and dynamic imports do, on any graph, no body is started twice; on completion the entry has run exactly once, and whenever nothing has failed everything that the entry reaches, through cycles too, has been evaluated or is asynchronous, and without a top-level await has run exactly once; on acyclic graphs whose awaits are apart, starts come after all dependencies if no body throws, or if the program is shielded seen from the entry, and for any other run exactly if no body that ran depends on a module left under way by a failed import; the result is an exception only if a body has thrown, and otherwise every exception was caught by an import of the module that failed, so without dynamic imports it is an exception exactly if a body has thrown; an internal error means that something unlinked or failed is needed; being done, stuck or out of turns is said in terms of the entry, the waiting imports and the host |
| Evaluator.ModuleEvaluator.FailModule | crates/js-engine/src/pipeline.rs:988-1008 | an exception is caught if and only if an import is waiting for the module; the module is marked as failed either way, and the imports are told |
| Evaluator.ModuleEvaluator.ImportDynamically | crates/js-engine/src/pipeline.rs:936-986 | for each status of the target: an evaluated or failed one answers at once and changes nothing, one under way gets one more import that waits, a linked one is started and gets one if it has not finished |
| Evaluator.ModuleEvaluator.ResolveWaiters | crates/js-engine/src/pipeline.rs:1107-1112 | every import that waits for the module is answered once, and no other |
| Evaluator.ModuleEvaluator.ResumeReady | crates/js-engine/src/pipeline.rs:874-904 | the suspended modules that the interpreter reports as ready are resumed in asynchronous order, each at most once; if none is, nothing has changed and none was ready |
| Evaluator.ModuleEvaluator.InnerEvaluation | crates/js-engine/src/pipeline.rs:1010-1061 | keeps counters equal to list entries, starts or parks the module, and terminates on cyclic graphs; where the order is kept, every module that an exception leaves under way was reached from another one after dependencies that went well |
| Evaluator.ModuleEvaluator.CompleteModule | crates/js-engine/src/pipeline.rs:1098-1129 | finishes a module and starts the modules it releases, in asynchronous order |
| Evaluator.ModuleEvaluator.GatherAvailableAncestors | crates/js-engine/src/pipeline.rs:1131-1144 | drains the parent list, releases parents whose counter reaches zero, each once, and terminates |
| Evaluator.ModuleEvaluator.ProcessDynamicImports | crates/js-engine/src/pipeline.rs:927-986 | keeps the invariant for any requests, failed ones included; under the failing script the module imported second starts |
| EvalStates.NoticeInv | crates/js-engine/src/pipeline.rs:1133-1135 | the counter of a notified parent is never zero, so the saturating subtraction is exact |
| EvalStates.WaitInv | crates/js-engine/src/pipeline.rs:1042-1052 | waiting adds one to the counter and one entry to one list |
| EvalStates.TakeInv | crates/js-engine/src/pipeline.rs:1131-1133 | entries taken off a list are still accounted for while it is drained |
| EvalOrder.OrderedExactly | crates/js-engine/src/pipeline.rs:976-980 | when abandoned modules never finish, starts are in order exactly if no started module depends on an abandoned one |
| EvalTrack.AllOnce | crates/js-engine/src/pipeline.rs:1010-1061 | on any graph without a top-level await, everything that a module reaches which evaluation has been through has been evaluated and its body run exactly once |
| EvalTrack.Reached | crates/js-engine/src/pipeline.rs:1031-1060 | whatever an evaluated or waiting module reaches has been evaluated or is asynchronous when nothing failed |
| EvalSteps.ReleasedReady | crates/js-engine/src/pipeline.rs:1114-1127 | when its turn comes, all dependencies of a released module have finished |
| EvalScript.NobodyWaits | crates/js-engine/src/pipeline.rs:1131-1144 | a module waits only if some suspended module below it still has parents to notify |
| EvalOutOfOrder.HasChain | crates/js-engine/src/pipeline.rs:1131-1144 | every acyclic program whose awaits are not apart has such a module, importer and path between the two awaits |
| EvalOutOfOrder.RunOutOfOrder | crates/js-engine/src/pipeline.rs:1121-1144 | for every acyclic program in which a module with a top-level await depends on another one and has an importer: a run in which the importer starts before the module that it imports has finished |
| EvalOutOfOrder.ImporterStarted | crates/js-engine/src/pipeline.rs:1131-1144 | after the lower of the two suspended modules has been resumed, the importer has started, the upper one has not finished, and the events are not in order |
| EvalShield.NotSkipped | crates/js-engine/src/pipeline.rs:1010-1061 | in a shielded acyclic program, a module whose earlier dependencies went well never comes to a dependency that a failed import has left under way |
| EvalShield.TrailFrom | crates/js-engine/src/pipeline.rs:976-980 | what a failed import has left under way is reached from its target through one dependency, all earlier ones having gone well |
| EvalFailure.BrewingBurns | crates/js-engine/src/pipeline.rs:976-980 | when the shared dependency throws, the failed import of one importer leaves it under way and the other importer untouched |
| EvalFailure.BrewingFails | crates/js-engine/src/pipeline.rs:976-980 | that import cannot succeed |
| EvalAfterFailure.RunAfterFailure | crates/js-engine/src/pipeline.rs:927-986 | for every acyclic program that is not shielded seen from an entry: a run from that entry in which an import fails and a later import starts a module whose dependency has not finished |
| EvalAfterFailure.HasPair | crates/js-engine/src/pipeline.rs:927-986 | every program that is not shielded has two such importers |
| EvalOutOfOrder.ThreeModules | crates/js-engine/src/pipeline.rs:1121-1144 | the smallest program whose awaits are not apart, run to the start of the importer |
| EvalAfterFailure.FourModules | crates/js-engine/src/pipeline.rs:927-986 | the smallest such program: two modules import a third, which throws, and neither is reached from the entry |
| EvalOrder.AllFinished | crates/js-engine/src/pipeline.rs:1031-1060 | in an ordered run, when a body has finished, so has every module it depends on, however far away |
| EvalOrder.StartedOnce | crates/js-engine/src/pipeline.rs:1063-1088 | a body that has finished was started, and only once |
| EvalSteps.SortByOrder | crates/js-engine/src/pipeline.rs:1114-1120 | released modules are sorted by asynchronous order and none is lost or added |

## Left out

- Statements `for`-`of`, `for`-`in`, `try`, `with` and declarations, destructuring,
  generators, `await`, classes and private names, `super`, templates, calls and
  `new`, array, object, function and regular-expression literals: their meaning is
  in the runtime, or their lowering shares one temporary per function, for which
  the theorems do not hold.
- The meaning of operators: additions, comparisons, coercions and property access
  are operations of the `Host`, so number values and getters are whatever the host
  says. The global `undefined` is the literal value in both orders.
- FunctionCorrect.FunctionDiverges: the virtual machine gives up after 5,000,000
  steps (crates/js-vm/src/interp.rs:353, 960-966); the model's machine has no
  budget, so this one runs forever exactly when the source does.
- FunctionCorrect.ScriptDiverges: the same step budget is not modelled.
- SpecifiedOrder.ExprSame: the key of a property is converted once per reference by
  the standard and at each access by the code; the model leaves the conversion to
  the host's accesses in both orders.
- SpecifiedOrder.UpdateAgrees: operators, ToNumeric and slot reads are those of the
  runtime, whose operators never run user code; what the standard's operators do to
  objects is not stated.
- CompletionValues.ValuesAgreeExactly: for other scripts, in which a condition or a
  jump can keep the later statement from running, only one direction is stated.
- Emitter.Emitter.CompileExpr: asks that the buffer stay below 65536 instructions,
  since addresses are cast to 16 bits; table indices are not bounded in the same
  way, so the truncation of a constant, slot or upvalue index above 65535 is not
  modelled.
- Emitter.Emitter.PrepareTarget: private members and `super` are not among the
  targets.
- Emitter.Emitter.CompileLogicalAssignment: an anonymous function on the right is
  not given the name of the target, since function literals are not modelled.
- Emitter.Emitter.CompileOptionalMemberChain: roots `super` and private members are
  not modelled.
- Emitter.Emitter.CompileStmt: `try`, `with`, `for`-`of`, `for`-`in` and
  declarations are not modelled.
- Emitter.Emitter.CompileFor: the initializer is an expression or absent, not a
  declaration.
- Names of temporaries are a datatype instead of formatted strings; that no source
  name can look like one is not modelled.
- Pipeline.CompileNested: the names of the body are resolved before it is emitted,
  each once and in any order, where the code resolves them as it meets them; the
  order only numbers the captures.
- Source spans and `annotate_since`; the verifier sees only the length of the source
  map, and nothing about operands on the stack.
- Verifier.VerifiedRun: the machine has no instruction that takes an entry of the
  function table or of the handler table, so the checks of those tables protect
  nothing here.
- Pipeline.CompileBody: each function has a constant pool of its own, where the code
  shares one; a body that takes a label of an outer loop has its code stated, but not
  how it runs.
- Verifier.CompiledVerifies: function literals, whose identifiers the compiler
  reserves before it compiles their bodies, are not modelled.
- The machine is one call frame without exception handlers; an operand stack that
  runs empty is a fault, and is proved not to happen, where the virtual machine
  would continue with undefined.
- EarlyErrors.Checker.CheckStmt: the other early errors (declarations, strict mode,
  `yield` and `await` as labels) are not modelled.
- Pratt.TokenStream.ParseAll: assignments, arrow functions, comma sequences, member
  and call chains, postfix updates, `yield` and `await` are not among the operands;
  the operand grammar is names, parentheses and prefix operators.
- Pratt.TokenStream.ParseBinary: `#x in o` and the second reading of `/` as the start
  of a regular expression are not modelled.
- Pratt.ParsesExactly: holds of the same operand grammar.
- BigIntLiteral.FromLiteral: asks for a literal that the lexer has validated; digits
  are ASCII.
- Upvalues.ScopeStack.Push: parameters are names; patterns are not modelled.
- Upvalues.ScopeStack.CaptureVisibleEnvironment: the order in which names are captured
  is left open, where the code sorts them.
- The lexer and its cursor, Unicode tables and diagnostics: their properties concern
  one function at a time.
- Module loading, hosts, path handling, JSON and text modules, deferred and source
  phases beyond their cells, promises and the namespace object's behaviour; graphs
  are loaded, and modules enter linking with cells of their own.
- LinkOutcome.LinkFrom: says why a link failed and what is marked afterwards; what
  importers share after a failed link is not stated.
- Evaluator.ModuleEvaluator.Evaluate: the number of turns of the scheduling loop is a
  parameter, since the host may keep it busy for ever; that a run without failures
  ever completes is not stated, and on cyclic graphs nothing is promised about the
  order of starts.
