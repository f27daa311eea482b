# MITScript, verified

MITScript is a small language with records, closures and nested functions. It is
implemented twice: as an evaluator that walks the syntax tree and keeps a chain
of frames, and as a compiler to bytecode for a stack machine with closures over
reference cells and a mark-sweep heap. This project models both, the collector,
the recursive-descent parser with its tree converter, and the two printers, and
proves how they fit together.

## The main results

- **The compiler preserves meaning, under exactly the right conditions.**
  `Correctness.MeaningPreserved`: for a program whose text meets five conditions,
  whenever tree-walking ends normally, running the bytecode ends normally with the
  same printed lines. `SideConditions.PreservesIff`: a set of conditions is enough
  if and only if it has all five; each of them is broken by a program whose machine
  run prints something else or fails. The proof is a forward simulation
  (`Simulation.dfy`) over a relation between frame chains and heaps
  (`Relation.dfy`), for code placed at any offset, with recursion, early returns,
  closures over captured variables at any depth, and cyclic records.
- **And back.** `Correctness.EndsAlike`: when the machine finishes after `n` rounds,
  the tree-walk with fuel `n` has ended normally with the same lines, or stopped at
  a variable no frame binds, which compiled code reads as None (`LateShows`). So
  `MeaningExact`: a program whose run comes to no such variable ends with given lines
  in one if and only if it does in the other, and where the tree-walk raises the
  machine never ends normally (`RaisedNeverEnds`). The proof shows of every construct
  that a machine whose tree-walk raises or is not done does not finish
  (`FailingSteps.dfy`, `Completeness.dfy`).
- **What compiled code does without the conditions.** `Correctness.CompiledExactly`:
  it is the tree-walker with four rules changed, in both directions, for every program
  with resolved names. `NameResolution.ResolvedIff` reads resolution off the text.
- **What the return analysis promises.** `ReturnAnalysis.FindReturnIff`: it finds a
  return exactly when every way through the body that enters each loop it comes to
  meets one, whatever the conditions are; `FoundReturns`: a run that all the same ends
  without a return has left out a loop.
- **Static addressing finds the dynamic cell.** `LexicalAddressing.dfy`: slots
  that were patched after the fact, passed on through every enclosing function
  and popped in reverse lead to the cell the walk up the parent frames selects.
- **Late patching is harmless.** `LateBinding.ProgramLaidOut`: the instructions
  emitted while pools were still growing are those a compiler that knows all
  finished functions would lay out. `PoolStability.dfy`: no pool ever holds an
  item twice. `AssignmentTargets.dfy`: no assignment ever stores through a reference.
- **The collector is exact and invisible.** `Collector.CollectedHeap.Gc`: on any
  object graph exactly the unreachable listed objects go, in place, over any
  number of collections, with a byte ledger that balances although objects
  outside the list stay marked forever. `Transparency.AnySchedule`: a collection
  at any set of instruction boundaries changes no outcome of any run.
  `Transparency.LiveIffLedTo`: an object survives exactly when a chain of mentions,
  through fields, captured cells, references and frames, leads to it from the frame or
  an operand of a call in progress. `MachineHeap.dfy`: the two are the same collection.
- **Compiled code cannot go wrong by itself.** `TypedRuns.CompiledCodeIsSafe`: in
  every reachable state every frame is complete and every operand stack has the
  shape its instruction expects; a run fails only where the language says so.
- **Calls and placement.** `CallProtocol.CallRestoresCaller` and
  `CallProtocol.PositionIndependence`.
- **Text.** The parser that rewinds its cursor reads what a single-pass grammar reads
  (`Parser.dfy`), and that is exactly the language spelled out in `Grammar.dfy`:
  `ProgramExactly`, `LiteralExactly`, `Unambiguous`. `ConverterImage.ProgramsAreExactly`:
  the trees some program text becomes are those of one shape, all of them and no others.
  `BytecodeText.RoundTrip`, `BytecodeText.UnescapeEscape` and
  `LostLiterals.ReadsBackIff` say exactly when printing and reading back is the
  identity; `BytecodeGrammar.FunctionAccepted`: nothing but printed functions is read.

Where the code does not do what one would like, it is modelled as it is. Each of
these has its input and its exact condition:

- Operands of `<` and `<=` are evaluated from the right (`SimRightFirst`). The order
  cannot show when one operand is a literal or both are call-free; for each other
  pair of kinds of operands there is a program that prints something else
  (`OrderShows`, `ReadShows`).
- A loop counts as a return, so a function may end with nothing to hand back
  (`BodyFails`, `LoopShows`).
- A name declared global before it is stored reads None in compiled code, whatever
  a parameter or an enclosing local of that name holds (`ShadowShows`,
  `ReadsAlike`).
- A literal over a name that is nowhere bound or global is compiled to a push
  without an index, and the machine fails when it builds the closure, whether or not
  the function is ever called (`FirstLiteralFails`, `UnresolvedShows`, `ResolvedIff`).
- The index of a store is rendered after the right-hand side, which may have changed
  it (`MarkShows`, `IndexStable`).
- A global read before it is stored makes the evaluator raise and compiled code print
  None (`LateShows`, `NearestIsRead`).
- A raw tab in a string constant comes back as an escape (`OnlyRawTabsChange`), a
  printed None as a variable, a printed function literal not at all
  (`ReadsBackIff`), nor a printed program (`ProgramIsNotReadBack`).

## How the files fit

- `Ast`, `Basics`, `Bytecode`: what both implementations share.
- `TreeWalker`: the evaluator as functions of a store, with fuel for depth;
  `TreeInterpreter`: the same as a class of visitors with a result field, a
  return flag and a frame stack, proved equal to the functions. `ReferenceRuns`,
  `Scoping`: facts about its runs. `Pieces`: the syntactic passes and conditions, said
  of the pieces a text consists of.
- `Codegen`: the compiler as functions of the chain of scopes; `Compiler`: the
  same as a class of visitors that overwrite the current block and grow pools.
  `ScopeAnalysis`, `PoolStability`, `NameResolution`, `AssignmentTargets`: what every
  compile step keeps. `Layout`: code against finished functions; `LateBinding`: the
  two agree.
- `Machine`: the virtual machine, one instruction a step; `Interpreter`: the
  recursive class with its frame stack, proved to run that machine. `ValueText`:
  its rendering loops. `Execution`: runs of placed code. `HandWrittenCode`: the
  instructions no compiled program has.
- `Relation`, `RelationUpdates`, `RelationCalls`, `LexicalAddressing`,
  `Rendering`, `SimulationSteps`, `Simulation`: the simulation. `FailingSteps`,
  `Completeness`: runs that do not end. `Correctness`: both directions.
  `ReturnAnalysis`: the compiler's return analysis.
- `Counterexamples`, `DivergingRuns`, `SideConditions`: why each condition is needed.
- `StackTyping`, `TypedRuns`: stack shapes and frame completeness.
  `CallProtocol`: calls and placement.
- `Collector`: the intrusive list, marking and sweeping, in place.
  `Transparency`: collections during a run. `MachineHeap`: the machine's heap on
  the collector's list.
- `BytecodeText`, `BytecodeGrammar`: the textual bytecode. `Syntax`, `Grammar`, `Parser`,
  `Converter`, `ConverterImage`, `SyntaxText`, `SyntaxPrinter`, `SyntaxRoundTrip`, `LostLiterals`:
  the source text.

A program is *compilable* (`Correctness.Compilable`) when operators have the right
arity, parameter names are distinct, and the conditions asked for hold. The five
conditions (`Ast.Conditions`) are: no body's only promise of a return is a loop;
operands of `<` and `<=` are of an allowed pair of kinds (a literal, call-free,
calling); a name a function declares global is none of its parameters and no local
of a function around it; the index of a store is never a record, or the right-hand
side calls nothing; every name is bound around its use or global when it is
compiled. Scope analysis and late binding ask for none of them, stack safety for the
first only.

The reference semantics runs by one of two sets of rules, the evaluator's and those
of compiled code. Its flag `strayed` is a monitor: under the evaluator's rules it
records that a variable read, or the rendering of a store's index, gave something
else than compiled code has at that point.

## Model

| member | source | states |
|---|---|---|
| Correctness.CompilerCorrect | vm/src/interpreter.cpp:385-458 | meaning preservation: whenever tree-walking a program with commuting operands of `<` and no loop-only return ends normally without reading or rendering anything compiled code does not, the compiled code run by the machine ends normally with the same printed lines; any number of calls, closures, records and loops |
| Correctness.MeaningPreserved | vm/src/interpreter.cpp:385-458 | the same for every normally ending run of a program whose text meets all five conditions: nothing is asked of the run |
| Correctness.CompiledMeaning | vm/src/compiler/compiler.cpp:10-339 | what compiled code does, for every program with known operators, distinct parameters and resolved names: it prints what the tree-walker prints under four changed rules (right operand of `<` first, unstored globals read None, the index of a store rendered last, no falling off a body found to return) |
| Correctness.CompilerCorrectUnderCollection | vm/src/interpreter.cpp:460-472 | the same with a collection at any set of instruction boundaries: some number of rounds finishes with the tree-walker's lines, no number of rounds fails, and no other outcome is possible |
| Correctness.EndsAlike | vm/src/interpreter.cpp:385-458 | the converse: if the machine finishes after `n` rounds, the tree-walk with fuel `n` ended normally with the same lines, or, under the evaluator's own rules only, stopped at a variable no frame binds |
| Correctness.CompiledExactly | vm/src/compiler/compiler.cpp:10-339 | for every program with known operators, distinct parameters and resolved names: the machine ends with given lines if and only if some run by the rules of compiled code does |
| Correctness.MeaningExact | vm/src/interpreter.cpp:385-458 | for every program whose text meets all conditions and whose run comes to no variable without a binding: the machine ends with given lines if and only if the evaluator does |
| Correctness.RaisedNeverEnds | vm/src/interpreter.cpp:439-458 | where the tree-walk of such a program raises anything but an unbound variable, the machine never ends normally |
| Completeness.LastsExpr | vm/src/compiler/compiler.cpp:158-294 | an expression whose evaluation raises, or is not done with the fuel for `n` rounds, keeps the machine from finishing within `n` rounds |
| Completeness.LastsStmt | vm/src/compiler/compiler.cpp:58-110 | the same of a statement |
| Completeness.LastsApply | vm/src/interpreter.cpp:126-158 | the same of a call: wrong argument counts, values that are no functions, and bodies that raise or go on |
| SideConditions.LateShows | interpreter/interpreter_src/interpreter.h:43-60 | `print(x); x = 1;` meets all conditions; the tree-walker raises at `x` and the machine prints None and ends |
| Simulation.SimExpr | vm/src/compiler/compiler.cpp:158-294 | at any offset of any code, the instructions of an expression leave exactly one value that represents the tree-walker's value above the operands that were there, in a state that represents the tree-walker's |
| Simulation.SimStmt | vm/src/compiler/compiler.cpp:58-110 | the instructions of a statement leave the operands as they were and fall through their own end when the statement ends normally, or leave the function with its value on top when it returns |
| Simulation.SimBlock | vm/src/compiler/compiler.cpp:10-17 | a block runs its statements in order and stops at the first one that returns |
| Simulation.SimApply | vm/src/interpreter.cpp:126-158 | a call instruction replaces closure and arguments by the value the called function has in the tree-walker |
| Simulation.SimBody | interpreter/interpreter_src/data_functions.cpp:178-193 | a compiled body that ends without a return yields None, as falling off the end does in the tree-walker |
| Simulation.SimExchanged | vm/src/compiler/compiler.cpp:163-165 | running the right operand first gives the value and state of the left-to-right order when an operand is a literal or both are call-free; under the rules of compiled code always |
| Simulation.SimRightFirst | vm/src/compiler/compiler.cpp:163-165 | for all operands, calls included, the machine's `l < r` has the value, state and output of evaluating r and then l |
| Simulation.SimIfElse | vm/src/compiler/compiler.cpp:79-88 | the two-way layout runs exactly the branch the condition selects and both branches leave through the same end |
| Simulation.SimIf | vm/src/compiler/compiler.cpp:89-93 | the one-way layout runs its branch exactly when the condition holds |
| Simulation.SimWhile | vm/src/compiler/compiler.cpp:96-106 | the backward jump lands on the first instruction of the condition, for every number of rounds |
| Simulation.SimAssignVar | interpreter/interpreter_src/statement.cpp:5-26 | an assignment stores into the cell the tree-walker's frame lookup selects |
| Simulation.SimAssignIndex | interpreter/interpreter_src/statement.cpp:57-86 | an index store writes the field whose name the index has after the right-hand side; that is the tree-walker's field whenever the two renderings agree |
| Simulation.SimRecord | vm/src/compiler/compiler.cpp:254-266 | a record literal builds one record object and fills it in source order through the duplicated pointers |
| Simulation.PrintCall | vm/src/interpreter.cpp:420-437 | printing appends the tree-walker's line and returns None; the frame pushed for it is garbage |
| LexicalAddressing.LookupFindsCell | interpreter/interpreter_src/interpreter.h:43-60 | the value of a name under static scoping over the chain of frames is in the cell static resolution names: the global slot, the frame's own local, or a cell of the enclosing call that owns the name |
| LexicalAddressing.WalkFindsCell | interpreter/interpreter_src/interpreter.h:43-60 | what the evaluator's own walk up the parent frames finds is in that cell, in every state in which no frame binds a name that it or a frame inside it declares global |
| LexicalAddressing.FreeSlotLeadsToOwner | vm/src/bytecode/types.cpp:99-102 | in every related state the patched index of a free variable holds a reference to the frame and local that own the variable |
| LexicalAddressing.CaptureSlotOk | vm/src/compiler/compiler.cpp:141-149 | the slot pushed for a captured variable holds a reference to its owner's cell, at any nesting depth |
| SimulationSteps.VarStep | vm/src/compiler/compiler.cpp:42-55 | each of the three load forms pushes the value the evaluation of the variable has |
| SimulationSteps.ClosureStep | vm/src/interpreter.cpp:111-124 | references popped in reverse order end up in the order of the literal's free variables |
| RelationCalls.EnterFrameOk | vm/src/bytecode/frame.cpp:46-56 | a new frame has arguments, then None, one fresh reference per captured local, and after them the closure's references |
| ScopeAnalysis.BlockKept | vm/src/compiler/compiler.cpp:440-477 | compiling a block only appends to the constants, functions, names, free variables and captured locals of the enclosing function, leaves its locals and parameters alone, adds at most global names to the program and nothing to the functions between |
| ScopeAnalysis.LookupAgrees | vm/src/compiler/symbol_table.h:28-43 | the symbol-table chain answers local, global or free exactly as static scoping over the finished functions does |
| NameResolution.FreeVarsAreUnresolved | vm/src/compiler/compiler.cpp:48-55 | the free variables of the compiled program are exactly the names that no literal around a use binds and that are not global when the compiler gets there, a literal's declarations counting from its opening on |
| NameResolution.ResolvedIff | vm/src/compiler/compiler.cpp:135-140 | every name is resolved if and only if that set, computed from the text, is empty |
| LateBinding.TargetLaidOut | vm/src/compiler/compiler.cpp:27-40 | after the passes over a body, the target of a simple assignment is a local or a global of the function and nothing is emitted before the right-hand side |
| AssignmentTargets.NoStoreThroughReference | vm/src/compiler/compiler.cpp:27-40 | no instruction of a compiled program, in no function nested in it, stores through a reference |
| ScopeAnalysis.OpenFunctionOk | vm/src/compiler/compiler.cpp:111-126 | after parameters, globals and assigns, the innermost table binds exactly the declared, assigned and parameter names, and locals are the parameters followed by assigned names not declared global |
| ScopeAnalysis.CloseFunctionKept | vm/src/compiler/compiler.cpp:128-156 | closing a literal adds one function to the enclosing pool and captures only names that are not global |
| LateBinding.ProgramLaidOut | vm/src/compiler/compiler.cpp:296-339 | the compiled program is the built-in prologue followed by code whose every index is resolved against the finished pools, in the program and in all nested functions |
| LateBinding.BlockLaidOut | vm/src/compiler/compiler.cpp:111-157 | code emitted while pools were growing equals code laid out against the finished functions, free-variable uses included once they are patched |
| LateBinding.CaptureAllLaidOut | vm/src/compiler/compiler.cpp:141-149 | the pushes before a closure are the slots of the literal's free variables in the finished enclosing function, one each and in order |
| LateBinding.FunctionIsOk | vm/src/compiler/compiler.cpp:136-151 | the closure operand equals the free-variable count of the function loaded with it, and the implicit return is there exactly when the return analysis fails |
| LateBinding.UnpatchedIsUnresolved | vm/src/compiler/compiler.cpp:135-140 | an operand still given by name in the program's own code names a variable nothing declares |
| LateBinding.ProgramCapturesNothing | vm/src/compiler/compiler.cpp:141-145 | the program has no captured locals: its variables are all global |
| PoolStability.PoolsHaveNoDuplicates | vm/src/compiler/compiler.cpp:440-477 | in the program and in all nested functions no constant, name, local, captured local or free variable is pooled twice, for every program |
| PoolStability.NumberGlobals | vm/src/interpreter.cpp:405-409 | numbering the globals gives each name its position in the name list, and distinct names distinct slots |
| Basics.IndexOfStable | vm/src/compiler/compiler.cpp:467-477 | an index given out by a pool still denotes the same item after the pool grew |
| Collector.CollectedHeap.Gc | gc/gc.h:375-393 | on any graph, cyclic or not, the object list afterwards is the old list restricted to what the roots reach, in the same order; marks are cleared on listed objects, unlisted marked objects only point to unlisted marked ones, and the ledger balances |
| Collector.CollectedHeap.GcTwice | gc/gc.h:375-393 | a second collection with the same roots changes nothing, although objects outside the list stay marked |
| Collector.CollectedHeap.MarkSuccessors | gc/gc.h:355-359 | recursive marking ends, marks nothing but what is reachable, and whatever it marks has only marked successors |
| Collector.CollectedHeap.MarkRoots | gc/gc.h:375-380 | after marking, a listed object is marked exactly when some path from the roots leads to it, whatever collections before have left marked |
| Collector.CollectedHeap.Sweep | gc/gc.h:382-392 | sweeping while erasing keeps exactly the marked objects, unmarks them and refunds the others once |
| Collector.CollectedHeap.SweepOne | gc/gc.h:382-391 | one round either keeps the object and clears its mark or unlinks and refunds it, and the iterator stays valid |
| Collector.CollectedHeap.Allocate | gc/gc.h:320-331 | an allocated object is listed in front and its base and reserved bytes are charged |
| Collector.CollectedHeap.CreateOutside | vm/src/interpreter.cpp:385-403 | an object created outside the list is never listed nor charged |
| Collector.CollectedHeap.Charge | vm/src/bytecode/types.h:274-282 | a field store charges the heap and the record the same amount |
| Collector.CollectedHeap.Relink | vm/src/bytecode/types.h:274-282 | storing into a listed object keeps every invariant of the heap |
| Collector.LinkedList.Erase | gc/gc.h:176-192 | erasing through the iterator removes that one node and returns an iterator to its successor, at the head and in the middle |
| Collector.LinkedList.PushBack | gc/gc.h:119-127 | the new node becomes the head and the counter goes up modulo 65536 |
| Collector.ChargedWithout | gc/gc.h:382-388 | removing an object lowers the ledger by exactly its own charge |
| Transparency.AnySchedule | vm/src/interpreter.cpp:460-472 | for every program function, compiled or not, and every trigger, a run with collections finishes with an output, or fails, after the same number of rounds as the run without |
| Transparency.LiveIffLedTo | vm/src/bytecode/frame.cpp:65-75 | an object survives a collection if and only if a chain of objects leads to it, from the frame or an operand of a call in progress on, each mentioning the next as a field, a captured cell, the frame of a reference, a local or a reference of a frame |
| Transparency.LiveIsMentioned | gc/gc.h:355-388 | an object that no call in progress holds and no other live object mentions does not survive |
| MachineHeap.LiveIsReachable | gc/gc.h:355-380 | an object of the machine is live if and only if the collector reaches its listed counterpart from the roots |
| MachineHeap.CollectMachine | gc/gc.h:375-393 | the collector, run on the machine's heap laid out as its list, leaves exactly the collected machine's heap |
| MachineHeap.Represent | gc/gc.h:320-331 | every heap of the machine can be allocated and linked as such a list, so it meets the collector's invariants |
| Transparency.CollectionIsTransparent | vm/src/interpreter.cpp:519-521 | a machine whose unreachable objects are missing and the full machine have the same outcome after any number of rounds and any collections |
| Transparency.CollectPruned | vm/src/bytecode/frame.cpp:65-75 | removing what the frame stack does not reach leaves everything a later instruction can touch |
| Transparency.StepPruned | vm/src/interpreter.cpp:519-628 | one round does the same in the full and in the pruned memory and keeps them related |
| Transparency.CallPruned | vm/src/interpreter.cpp:126-158 | a call does the same in the full and in the pruned memory, new frame and references included |
| TypedRuns.CompiledCodeIsSafe | vm/src/interpreter.cpp:519-628 | no reachable state of compiled code pops an empty stack, jumps out of its code, reads an index outside a pool or an uninitialised slot: the only failures are operands of the wrong kind, a bad argument count, division by zero or a value that cannot be rendered |
| TypedRuns.StepOk | vm/src/interpreter.cpp:439-458 | every round keeps: each activation's operand stack fits the one shape of its instruction, and every frame has all its locals and references |
| TypedRuns.StartOk | vm/src/interpreter.cpp:385-418 | the start state satisfies the invariant |
| TypedRuns.CallOk | vm/src/interpreter.cpp:126-158 | entering a function keeps the invariant: the new frame has as many references as the function's code can push |
| StackTyping.BlockFlow | vm/src/compiler/compiler.cpp:10-17 | a block has one stack shape per instruction on all paths, net effect zero, and never falls through when every path returns |
| StackTyping.ExprFlow | vm/src/compiler/compiler.cpp:158-294 | an expression has one stack shape per instruction on all paths and adds exactly one operand |
| StackTyping.StmtFlow | vm/src/compiler/compiler.cpp:58-110 | every jump of a statement stays within its code, the branches agree on the height, and a return has exactly one operand |
| StackTyping.FunctionFlow | vm/src/compiler/compiler.cpp:127-151 | a finished function never falls off its end |
| StackTyping.PrologueFlow | vm/src/compiler/compiler.cpp:321-330 | the built-in prologue leaves an empty stack |
| CallProtocol.CallRestoresCaller | vm/src/interpreter.cpp:126-158 | a completed call, whatever it nested and wherever it returned, gives back the caller's function, position and frame, and changes its operands only by putting one value for closure and arguments |
| CallProtocol.CallersKept | vm/src/interpreter.cpp:439-458 | as long as a run stays at some depth, nothing below that depth changes |
| CallProtocol.PositionIndependence | vm/src/interpreter.cpp:352-364 | code run at the start of a function of its own and the same code at any offset of a longer one do the same, calls included, until it leaves through its end or a return |
| CallProtocol.MovedStep | vm/src/interpreter.cpp:626-628 | one round commutes with moving the code |
| HandWrittenCode.StoredThroughReference | vm/src/interpreter.cpp:44-56 | what is stored through a reference is what is loaded through it, and no other local of any frame changes |
| HandWrittenCode.SwapExchanges | vm/src/interpreter.cpp:372-377 | swapping exchanges the two topmost operands and nothing else |
| CallProtocol.OneOutcome | vm/src/interpreter.cpp:439-458 | a run that finishes never fails and has one output |
| SideConditions.PreservesIff | vm/src/compiler/compiler.cpp:163-165 | a set of conditions is enough for every run of every program that meets it if and only if it has all five: no loop-only return, only commuting pairs of operands of `<`, no clash of declared global names, stable indices of stores, every name resolved; each is broken by one of the programs below |
| SideConditions.OrderShows | vm/src/compiler/compiler.cpp:163-165 | `f = fun(s) { print(s); return 1; }; x = f("a") < f("b");` prints a, b in the tree-walker and b, a in the machine |
| SideConditions.ReadShows | interpreter/interpreter_src/expression.cpp:142-145 | `x < g()` and `g() < x`, where `g` assigns `x`, are true in the tree-walker and false in the machine |
| SideConditions.ShadowShows | interpreter/interpreter_src/interpreter.h:43-60 | `f = fun(x) { global x; print(x); return 0; }; f(5);` prints 5 in the tree-walker and None in the machine |
| SideConditions.MarkShows | vm/src/interpreter.cpp:95-104 | a record used as the index of a store and changed by the right-hand side names another field in the machine |
| SideConditions.LoopShows | vm/src/compiler/compiler.cpp:425-428 | `f = fun() { while (false) { return 1; } }; f();` ends in the tree-walker and fails in the machine |
| SideConditions.UnresolvedShows | vm/src/interpreter.cpp:543-545 | `f = fun() { return y; };` ends in the tree-walker; the machine fails on the push that was never given an index |
| SideConditions.FirstLiteralFails | vm/src/compiler/compiler.cpp:145-148 | whatever follows it, a first statement that stores a literal over a name neither bound around it nor global by then makes the machine fail |
| Completeness.BodyFails | vm/src/compiler/compiler.cpp:425-428 | whenever a body found to return ends without returning, the machine reaches the end of its code with an empty stack and fails |
| Scoping.NeverStrays | interpreter/interpreter_src/interpreter.h:43-60 | no run of a program whose literals declare only new names global and whose index stores have stable indices reads or renders anything compiled code does not |
| Scoping.ReadsAlike | interpreter/interpreter_src/interpreter.h:43-60 | in every state of such a run the walk up the frames finds the statically scoped value |
| Scoping.IndexStable | interpreter/interpreter_src/statement.cpp:74-80 | an index that is no record, or whose right-hand side calls nothing, renders the same before and after it |
| ReferenceRuns.IfIsIfElse | interpreter/interpreter_src/statement.cpp:88-112 | a conditional without an else part is the one whose else part is empty: with a false condition it does nothing and goes on |
| ReferenceRuns.NearestIsRead | interpreter/interpreter_src/interpreter.h:43-60 | a read gives what the innermost frame that has the name offers, the program's value first for a name the frame declares global, and fails exactly when no frame on the way out has the name |
| ReturnAnalysis.FindReturnIff | vm/src/compiler/compiler.cpp:410-438 | the analysis finds a return if and only if every way through the body meets one, each loop on the way being entered once at least, whatever the conditions come out as |
| ReturnAnalysis.MustReturnIff | vm/src/compiler/compiler.cpp:410-424 | a body returns without relying on a loop if and only if every way through it meets a return |
| ReturnAnalysis.LoopFreeAgrees | vm/src/compiler/compiler.cpp:425-428 | on a body without loops the two readings agree: only a loop makes the analysis promise too much |
| ReturnAnalysis.RunTakesRoute | interpreter/interpreter_src/statement.cpp:88-131 | every normal run of a body takes one of these ways, and meets a return exactly when the way does |
| ReturnAnalysis.FoundReturns | vm/src/compiler/compiler.cpp:410-438 | where the analysis finds a return, a normal run that enters every loop it comes to, or has none, returns |
| Pieces.NamesOfBlock | vm/src/compiler/compiler.cpp:342-408 | the two passes over a body collect exactly the names its own statements assign, or declare global, in the order of the text, and nothing from literals inside |
| Pieces.CallFreeIff | interpreter/interpreter_src/expression.cpp:142-145 | an expression counts as call-free exactly when no call stands in it outside function literals |
| Pieces.FixedIff | interpreter/interpreter_src/expression.cpp:142-145 | an expression counts as fixed exactly when it consists of constants and operators |
| Pieces.ProgramMeetsIff | vm/src/compiler/compiler.cpp:10-339 | a program's text meets the conditions on operators, parameters, returns, operands of `<`, declared globals and indices exactly when every single piece of it, in literals at any depth, does |
| ReferenceRuns.MustReturnReturns | vm/src/compiler/compiler.cpp:410-424 | a statement that returns without relying on a loop sets the return flag in every normal run |
| ReferenceRuns.CallFreeOnlyAdds | interpreter/interpreter_src/expression.cpp:142-145 | evaluating a call-free expression only adds frames and records and prints nothing |
| Rendering.RenderingAgrees | interpreter/interpreter_src/cast.cpp:5-36 | sorting the keys of the hash map and walking the ordered map give the same string, and one has no rendering exactly when the other has none |
| Basics.LeqIff | vm/src/bytecode/types.h:248-269 | the order of the keys is the alphabetical one: a prefix comes first, and otherwise the first difference decides |
| ValueText.TwoFields | vm/src/bytecode/types.h:248-269 | a record with two fields, whatever their names and values, is rendered in braces with the smaller name first, a colon after each name and a blank after each value |
| Basics.TruncatedQuotientIff | vm/src/interpreter.cpp:208-219 | division truncates: the quotient is the one number whose remainder is smaller than the divisor and has the dividend's sign |
| Basics.DecimalText | vm/src/bytecode/types.h:52 | the text of an integer is a minus sign exactly when it is negative and then the shortest decimal numeral of its magnitude |
| Rendering.BinaryAgrees | interpreter/interpreter_src/expression.cpp:5-246 | every operator gives related results on related operands, with the exchanged comparisons |
| Basics.SortedEnumerationIsUnique | vm/src/bytecode/types.h:248-269 | a sorted enumeration of the keys is the only one, so the two iteration orders coincide |
| ValueText.Render | vm/src/bytecode/types.h:248-269 | the rendering loops compute the string of the specification |
| ValueText.SortKeys | vm/src/bytecode/types.h:251-256 | the sorted vector is the ordered key sequence |
| BytecodeText.RoundTrip | vm/bc-parser/bc-parser.yy:147-262 | parsing the printed form of a function tree gives its eight fields back, recursively, if and only if no name is a keyword; otherwise it is a syntax error |
| BytecodeGrammar.FunctionAccepted | vm/bc-parser/bc-parser.yy:147-262 | whatever is read as a function is, its constants respelled, the printed form of what was read, followed by what is left |
| BytecodeGrammar.ReadThenPrinted | vm/bc-parser/prettyprinter.h:11-83 | printing what was read gives the text back if and only if its constants are spelled as the printer spells them |
| BytecodeText.FunctionRoundTrip | vm/src/bytecode/types.h:102-116 | a function is read back up to what the textual form has, exactly when no name is a keyword |
| BytecodeText.EscapeUnescape | vm/bc-parser/utils.cpp:4-54 | reading an unescaped string constant gives the constant, for all strings |
| BytecodeText.UnescapeEscape | vm/bc-parser/utils.cpp:4-54 | the other order is the identity if and only if the text has no raw newline, tab or quote and every backslash starts one of the four escapes |
| BytecodeText.OnlyRawTabsChange | vm/bc-parser/bc-lexer.lex:29 | of the constants the lexer lets through, exactly those with a raw tab are rewritten |
| BytecodeText.RawTabIsRewritten | vm/bc-parser/bc-lexer.lex:29 | a raw tab, which the lexer lets through, is printed back as backslash and t |
| BytecodeText.EscapeLoop | vm/bc-parser/utils.cpp:4-31 | the loop computes the escape function, a backslash at the very end included |
| BytecodeText.UnescapeLoop | vm/bc-parser/utils.cpp:32-54 | the loop computes the unescape function |
| BytecodeText.NamesRead | vm/bc-parser/bc-parser.yy:189-237 | a list of names is read back exactly when none is a keyword |
| BytecodeText.ConstantsRead | vm/bc-parser/bc-parser.yy:240-263 | a list of constants is read back |
| BytecodeText.InstructionsRead | vm/bc-parser/bc-parser.yy:265-410 | every instruction list with operands in range is read back |
| BytecodeText.PrettyPrinter.Print | vm/bc-parser/prettyprinter.h:11-83 | the printer appends the token stream of the function and restores the indentation |
| BytecodeText.PrettyPrinter.PrintConstantList | vm/bc-parser/prettyprinter.h:46-57 | the constants loop separates by commas |
| BytecodeText.PrettyPrinter.PrintFunctionList | vm/bc-parser/prettyprinter.h:20-44 | the nested functions are appended in order with commas between them, and the indentation is what it was |
| SyntaxRoundTrip.BlockRoundTrip | interpreter/PrettyPrinter.h:30-163 | printing a block of the converter's image without function literals and without quotes and backslashes in strings, then parsing and converting, gives it back with None as the variable `none`: the same block if and only if it holds no None |
| LostLiterals.ReadsBackIff | interpreter/PrettyPrinter.h:30-163 | of all blocks of the converter's image without quotes and backslashes in strings, the printed form parses if and only if the block holds no function literal anywhere, and it comes back as the block if and only if it holds no None either |
| LostLiterals.ExpressionLost | interpreter/PrettyPrinter.h:88-96 | a function literal anywhere in an expression, as argument, field, index, or the expression itself, makes the printed form an error or stops it at a brace no context takes |
| LostLiterals.StatementLost | interpreter/PrettyPrinter.h:43-86 | a function literal anywhere in a statement, its conditions and nested blocks included, makes the printed statement a syntax error |
| SyntaxRoundTrip.Operation | interpreter/parser_src/Arithmetic.cpp:9-52 | an operator between two units is read at its own precedence level whichever it is, and converts to that operator on those operands |
| SyntaxRoundTrip.LhsRead | interpreter/parser_src/Expressions.cpp:54-95 | a printed left-hand side followed by further accesses is read as one chain |
| SyntaxRoundTrip.ExpressionRead | interpreter/parser_src/Expressions.cpp:116-136 | every printed expression is read back whatever stops it |
| SyntaxRoundTrip.StatementRead | interpreter/parser_src/ControlFlow.cpp:162-194 | every printed statement is read back when no else follows |
| SyntaxRoundTrip.ProgramIsNotReadBack | interpreter/PrettyPrinter.h:165-170 | the printed form of a whole program is never a program: it starts with a brace |
| Grammar.ProgramExactly | interpreter/parser_src/ControlFlow.cpp:196-218 | a program is read from exactly the tokens it is spelled with: nothing else is accepted for it, and its spelling always is |
| Grammar.LiteralExactly | interpreter/parser_src/ControlFlow.cpp:75-97 | a function literal is read from exactly the tokens `fun ( x1 , ... , xn ) { body }`, whatever follows |
| Grammar.ParametersExactly | interpreter/parser_src/ControlFlow.cpp:40-73 | a parameter list is exactly its names with commas between them, in that order |
| Grammar.ExpressionRead | interpreter/parser_src/Expressions.cpp:116-136 | whatever is read as an expression is spelled by the tokens consumed, each operator at its own level |
| Grammar.StatementSpelled | interpreter/parser_src/ControlFlow.cpp:162-194 | every statement is read from its spelling, but for a conditional with an else behind it |
| Grammar.Unambiguous | interpreter/parser_src/ControlFlow.cpp:196-218 | no two programs have the same spelling |
| ConverterImage.ProgramsAreExactly | interpreter/parser_src/TreeConverter.cpp:57-108 | the blocks that parsing and converting some program text gives are those of the image, all of them and no others |
| ConverterImage.LiteralBecomes | interpreter/parser_src/TreeConverter.cpp:161-166 | the text of a function literal becomes the literal with those parameters, in that order, and the statements its body becomes |
| Parser.RewindingIsHarmless | interpreter/parser_src/ControlFlow.cpp:179-193 | reading the left-hand side again after the rewind gives the statement the single pass gives, and an error exactly when it does |
| Parser.Parser.Statement | interpreter/parser_src/ControlFlow.cpp:162-194 | the rewinding statement parser reads what the grammar reads in one pass, with the same cursor afterwards |
| Parser.Parser.LhsStatement | interpreter/parser_src/ControlFlow.cpp:179-193 | the cursor goes back before an assignment or call is read from its start |
| Parser.Parser.UnitBodyHere | interpreter/parser_src/Expressions.cpp:255-281 | a name is read, rewound and read again as a call exactly when a parenthesis follows |
| Parser.Parser.Expression | interpreter/parser_src/Expressions.cpp:116-136 | an expression consumes tokens and stops where the grammar stops |
| Parser.Parser.BlockPrime | interpreter/parser_src/ControlFlow.cpp:9-20 | statements are read up to a brace or the end of file, which is never passed |
| Parser.Parser.StatementList | interpreter/parser_src/ControlFlow.cpp:196-218 | a program is read to its end of file or rejected |
| Parser.Parser.Boolean | interpreter/parser_src/Boolean.cpp:24-29 | the or level reads what the grammar reads |
| Parser.Parser.Predicate | interpreter/parser_src/Boolean.cpp:66-85 | comparisons do not chain |
| Parser.Parser.Arithmetic | interpreter/parser_src/Arithmetic.cpp:25-30 | the additive level reads what the grammar reads |
| Parser.Parser.Call | interpreter/parser_src/Expressions.cpp:167-185 | a call is a left-hand side and parenthesised arguments |
| Converter.ProductLeftNested | interpreter/parser_src/TreeConverter.cpp:255-275 | a flat chain of products converts to a tree whose root is the last operator |
| Converter.ArithmeticLeftNested | interpreter/parser_src/TreeConverter.cpp:277-297 | the same for sums and differences |
| Converter.ConjunctionLeftNested | interpreter/parser_src/TreeConverter.cpp:299-319 | the same for conjunctions |
| Converter.BooleanLeftNested | interpreter/parser_src/TreeConverter.cpp:321-341 | the same for disjunctions |
| Converter.LhsLeftNested | interpreter/parser_src/TreeConverter.cpp:362-385 | field and index accesses nest to the left |
| ConverterImage.ImageIsExact | interpreter/parser_src/TreeConverter.cpp:109-191 | a tree is the conversion of some concrete syntax if and only if operands are no records and no literals, targets are chains of accesses, and integers are not negative; for expressions and for lists of statements |
| Converter.DecodeLoop | interpreter/parser_src/TreeConverter.cpp:198-218 | the loop replaces the four escapes, keeps a backslash at the very end, and raises on any other |
| SyntaxPrinter.PrettyPrinter.VisitBlock | interpreter/PrettyPrinter.h:30-41 | the printer appends the tokens of the block and restores the indentation |
| SyntaxPrinter.PrettyPrinter.VisitExpr | interpreter/PrettyPrinter.h:23-163 | the printer appends the tokens of the expression and restores the indentation |
| Interpreter.Interpreter.ExecuteProgram | vm/src/interpreter.cpp:385-418 | the recursive interpreter finishes exactly with the machine's output, throws where the machine fails, and while it has fuel it has not left the machine behind |
| Interpreter.Interpreter.Loop | vm/src/interpreter.cpp:445-455 | the instruction loop runs the machine up to the end of the current function |
| Interpreter.Interpreter.ExecuteFunction | vm/src/interpreter.cpp:439-458 | running a function saves and restores the caller's function and position |
| Interpreter.Interpreter.Call | vm/src/interpreter.cpp:126-158 | a call, with all that happens inside it, is a run of the machine from the call to the next instruction of the caller |
| Interpreter.Interpreter.NewFrame | vm/src/interpreter.cpp:139-151 | the loops that fill locals, references and free variables build the machine's frame |
| Interpreter.Interpreter.PopReferences | vm/src/interpreter.cpp:111-121 | popping in reverse order gives the captured references in order and throws on anything else |
| Interpreter.Interpreter.AllocateClosure | vm/src/interpreter.cpp:111-124 | builds the closure of the function under the popped references |
| Interpreter.Interpreter.ExecuteInstruction | vm/src/interpreter.cpp:519-628 | one dispatch is one round of the machine, calls being a run of it |
| Compiler.Compiler.Compile | vm/src/compiler/compiler.cpp:296-339 | the visitors with their mutable block, tables and flag produce the specified function |
| Compiler.Compiler.VisitFunctionDeclaration | vm/src/compiler/compiler.cpp:111-127 | compiling a literal leaves the specified scopes and code |
| Compiler.Compiler.CloseDeclaration | vm/src/compiler/compiler.cpp:128-157 | implicit return, patching and capture as specified |
| Compiler.Compiler.Capture | vm/src/compiler/compiler.cpp:141-149 | the capture loop as specified |
| Compiler.Compiler.PatchAll | vm/src/compiler/compiler.cpp:136-140 | the patching loop touches exactly the instructions that push by name |
| Compiler.Compiler.VisitAssignment | vm/src/compiler/compiler.cpp:58-69 | the right-hand side goes before the last instruction of the target, for all three kinds of target |
| Compiler.Compiler.VisitIf | vm/src/compiler/compiler.cpp:74-95 | both layouts as specified |
| Compiler.Compiler.VisitWhile | vm/src/compiler/compiler.cpp:96-106 | the loop layout as specified |
| Compiler.Compiler.VisitVariable | vm/src/compiler/compiler.cpp:25-56 | the six load and store forms as specified |
| Compiler.Compiler.GlobalsOfBody | vm/src/compiler/compiler.cpp:342-368 | the globals pass declares the names in the order it meets them |
| Compiler.Compiler.AssignsOfBody | vm/src/compiler/compiler.cpp:370-408 | the assigns pass binds the names in the order it meets them |
| Compiler.FindReturnsBlock | vm/src/compiler/compiler.cpp:410-438 | the return analysis loop |
| Compiler.Find | vm/src/compiler/compiler.cpp:440-465 | the pool searches return the first position, or the length |
| TreeInterpreter.Evaluator.RunProgram | interpreter/interpreter_src/interpreter.h:263-270 | the visitors with their result field, return flag and frame stack run the program as the reference semantics says |
| TreeInterpreter.Evaluator.CallFunction | interpreter/interpreter_src/data_functions.cpp:149-195 | a call pushes a frame, binds, runs, and clears the flag; without a return the result is None |
| TreeInterpreter.Evaluator.VisitWhile | interpreter/interpreter_src/statement.cpp:114-131 | the loop stops when its condition is false or a return was made |
| TreeInterpreter.Evaluator.VisitBlock | interpreter/interpreter_src/interpreter.h:120-129 | a block stops at the first return |
| TreeInterpreter.Evaluator.HeapIndexAssignment | interpreter/interpreter_src/statement.cpp:57-86 | record, index and its rendering, and then the value, in the source's order |
| TreeInterpreter.Evaluator.GlobalsOfBody | interpreter/interpreter_src/data_functions.cpp:76-112 | the names a body declares global |
| TreeInterpreter.Evaluator.AssignsOfBody | interpreter/interpreter_src/data_functions.cpp:114-147 | every assigned name of a body starts as None in the new frame, names declared global included |
| TreeInterpreter.CastValue | interpreter/interpreter_src/cast.cpp:5-36 | the rendering loop of the tree-walker computes the string of the specification |

## Left out

- CompilerCorrect: says nothing about runs that raise or never end; of these `EndsAlike` and `RaisedNeverEnds` say that the machine does not finish, not which error it raises nor that it raises one.
- MeaningExact: asks that no run stops at a variable without a binding, which is a property of runs; compiled code goes on there with None, and what it prints afterwards has no counterpart in the evaluator.
- CompilerCorrect: an empty program is covered although the source has no main block for it, and `input` and `intcast` raise in both models because the two implementations differ in them.
- MeaningPreserved: programs with a repeated parameter name are outside; the source leaves the machine's frame shorter than its arguments, and what happens then is not defined by it.
- PreservesIff: the conditions are told apart by kinds of operands and indices, by the names a literal declares and by the names that resolve; a program that breaks one of them may still happen to print the same.
- CollectMachine: the roots are a list of objects; that the frame objects of the source hold the operand stacks is part of which roots it is given.
- RenderingAgrees: nothing is claimed for cyclic records, on which both recursions never end; the model gives such a rendering no result.
- BlockRoundTrip: starts from tokens, each printed piece being one token; names that are keywords of the language cannot come from the parser and are not considered.
- BlockRoundTrip: covers the blocks the converter can build; a nested block as a statement is not among them.
- FunctionRoundTrip: the captured-local indices are not part of the textual form and are not restored.
- ExecuteProgram: recursion of the interpreter and of the tree-walker is bounded by a fuel parameter of the methods; running out is reported and shown to mean that the run is still going on.
- Gc: byte counts are integers without a width; conversions between `int` and `size_t` in the ledger are not modelled, only the 16-bit list counter is.
- Gc: deleting an object removes it from the set of known objects; its destructor is represented by the refund of its own charge.
- AnySchedule: in bytecode written by hand a global name may be listed twice; the model reads its first position, the numbering loop of the source keeps the last. Compiled programs never list one twice (`PoolsHaveNoDuplicates`).
- AnySchedule: addresses are never used twice, where the C++ allocator may reuse them; no instruction of the machine can compare the addresses of a dead and a live object.
- Integers are unbounded in both evaluators; wrap-around and the range of integer literals are left out.
- The operand stack is part of an activation and not of the frame object; a frame that has been left has no operands that matter.
- The compiler adds a nested function to its pool before its body is compiled, the model afterwards; the index is the same because nothing else is added to that pool in between.
- An instruction operand given by name with the empty name, which the compiler does not patch, is not distinguished: identifiers are never empty.
- The 16-bit counters of frames are natural numbers.
- The trigger of a collection (how full the heap is) is an arbitrary schedule.
- Lexers, streams, positions in error messages, indentation and line breaks of printed text.
- Memory queries, dumps, timers, benchmarks and the allocator's internals; dynamic charges are opaque numbers.
- Equality methods and destructors of syntax trees.
