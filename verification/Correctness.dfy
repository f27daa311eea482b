/** Whole programs: the machine, started on what the compiler produces, prints
    what the tree-walker prints. */
module Correctness {
  import opened Basics
  import opened Ast
  import T = TreeWalker
  import opened Bytecode
  import opened Codegen
  import opened Layout
  import opened LateBinding
  import opened Machine
  import N = NameResolution
  import opened CallProtocol
  import opened Execution
  import opened Relation
  import opened RelationUpdates
  import opened Scoping
  import opened SimulationSteps
  import opened Simulation
  import opened FailingSteps
  import opened Completeness
  import opened Transparency

  // ---------------------------------------------------------------- prologue

  function NativeOf(i: nat): Builtin {
    if i == 0 then PrintFunction else if i == 1 then InputFunction else IntcastFunction
  }

  /** A linked program: what `executeProgram` runs. */
  ghost predicate IsLinked(fn: Function) {
    && NATIVE_NAMES <= fn.names && |fn.functions| >= 3 && fn.localVars == []
    && fn.functions[0] == BuiltinFunction(PrintFunction)
    && fn.functions[1] == BuiltinFunction(InputFunction)
    && fn.functions[2] == BuiltinFunction(IntcastFunction)
  }

  /** The machine after `i` of the three built-in functions are stored. */
  function Prepared(fn: Function, i: nat): Machine
    requires i <= 3
  {
    var locals := seq(|fn.names|, j requires 0 <= j < |fn.names| => if j < i then Ptr(j + 1) else NONE);
    var addresses := Below(i + 1);
    var heap := map a: Addr | a in addresses ::
      if a == 0 then FrameObj(locals, []) else ClosureObj(BuiltinFunction(NativeOf(a - 1)), []);
    Machine(fn.names, 0, [], Activation(fn, 3 * i, 0, []), Memory(heap, i + 1, []))
  }

  lemma {:induction false} NativeSlot(names: seq<string>, i: nat)
    requires i < 3 && NATIVE_NAMES <= names
    ensures |names| >= 3 && GlobalSlot(names, names[i]) == i
  {
    IndexOfStable(NATIVE_NAMES, names, NATIVE_NAMES[i]);
    IndexOfUnique(NATIVE_NAMES, i);
    assert NATIVE_NAMES[i] == names[i];
  }

  lemma {:induction false} LoadsFunction(vm: Machine, i: nat)
    requires Placed(vm, [LoadFunc(i)]) && vm.current.stack == [] && i < |vm.current.fn.functions|
    ensures Reaches(vm, At(vm, vm.current.ip + 1, [Func(vm.current.fn.functions[i])], vm.mem))
  {
    hide Reaches, Placed;
    assert [] + [Func(vm.current.fn.functions[i])] == [Func(vm.current.fn.functions[i])];
    Plain(vm, LoadFunc(i), [Func(vm.current.fn.functions[i])], vm.mem);
  }

  lemma {:induction false} ClosesFunction(vm: Machine, g: Function)
    requires Placed(vm, [AllocClosure(0)]) && vm.current.stack == [Func(g)]
    ensures Reaches(vm, At(vm, vm.current.ip + 1, [Ptr(vm.mem.next)], Alloc(vm.mem, ClosureObj(g, []))))
  {
    hide Reaches, Placed;
    var p := vm.mem.next;
    assert [Func(g)][1..] == [] && [Func(g)][..0] + [Ptr(p)] == [Ptr(p)];
    assert Addresses(vm.mem.heap, []) == Some([]);
    Plain(vm, AllocClosure(0), [Ptr(p)], Alloc(vm.mem, ClosureObj(g, [])));
  }

  /** Loading a function and closing it over nothing. */
  lemma {:induction false} CloseOverNothing(vm: Machine, i: nat, g: Function)
    requires Placed(vm, [LoadFunc(i)] + [AllocClosure(0)])
    requires vm.current.stack == [] && i < |vm.current.fn.functions| && vm.current.fn.functions[i] == g
    ensures Reaches(vm, At(vm, vm.current.ip + 2, [Ptr(vm.mem.next)], Alloc(vm.mem, ClosureObj(g, []))))
  {
    hide Reaches, Operate;
    var ip := vm.current.ip;
    PlacedSplit(vm.current.fn.instructions, ip, [LoadFunc(i)], [AllocClosure(0)]);
    LoadsFunction(vm, i);
    var vm1 := At(vm, ip + 1, [Func(g)], vm.mem);
    ClosesFunction(vm1, g);
    ReachesTransitive(vm, vm1, At(vm, ip + 2, [Ptr(vm.mem.next)], Alloc(vm.mem, ClosureObj(g, []))));
  }

  /** ... and storing the closure in a global. */
  lemma {:induction false} Install(vm: Machine, i: nat, g: Function)
    requires Placed(vm, [LoadFunc(i)] + [AllocClosure(0)] + [StoreGlobal(i)])
    requires vm.current.stack == [] && i < |vm.current.fn.functions| && vm.current.fn.functions[i] == g
    requires i < |vm.current.fn.names| && GlobalSlot(vm.names, vm.current.fn.names[i]) == i
    requires vm.global != vm.mem.next && HasLocal(vm.mem.heap, vm.global, i)
    ensures var m1 := Alloc(vm.mem, ClosureObj(g, []));
      && HasLocal(m1.heap, vm.global, i)
      && Reaches(vm, At(vm, vm.current.ip + 3, [], SetLocal(m1, vm.global, i, Ptr(vm.mem.next))))
  {
    hide Reaches, GlobalSlot;
    var ip, p := vm.current.ip, vm.mem.next;
    PlacedSplit(vm.current.fn.instructions, ip, [LoadFunc(i)] + [AllocClosure(0)], [StoreGlobal(i)]);
    CloseOverNothing(vm, i, g);
    var m1 := Alloc(vm.mem, ClosureObj(g, []));
    var vm2 := At(vm, ip + 2, [Ptr(p)], m1);
    var m2 := SetLocal(m1, vm.global, i, Ptr(p));
    Plain(vm2, StoreGlobal(i), [], m2);
    ReachesTransitive(vm, vm2, At(vm, ip + 3, [], m2));
  }

  /** The closure's object and the global slot, both filled. */
  lemma {:induction false} OneMoreNative(fn: Function, i: nat)
    requires i < 3 && |fn.names| >= 3
    ensures var vm := Prepared(fn, i);
      && vm.mem.next == i + 1 && HasLocal(vm.mem.heap, 0, i)
      && HasLocal(Alloc(vm.mem, ClosureObj(BuiltinFunction(NativeOf(i)), [])).heap, 0, i)
      && SetLocal(Alloc(vm.mem, ClosureObj(BuiltinFunction(NativeOf(i)), [])), 0, i, Ptr(i + 1)) == Prepared(fn, i + 1).mem
  {
    hide BuiltinFunction, NativeOf;
    var vm, vm', g := Prepared(fn, i), Prepared(fn, i + 1), BuiltinFunction(NativeOf(i));
    var m2 := SetLocal(Alloc(vm.mem, ClosureObj(g, [])), 0, i, Ptr(i + 1));
    assert m2.heap[0].locals == vm'.mem.heap[0].locals;
    assert m2.heap == vm'.mem.heap;
  }

  lemma {:induction false} NativeCode(fn: Function, i: nat)
    requires i < 3 && IsLinked(fn)
    ensures fn.functions[i] == BuiltinFunction(NativeOf(i))
  {}

  lemma {:induction false} PrepareOne(fn: Function, i: nat)
    requires i < 3 && IsLinked(fn)
    requires PlacedAt(fn.instructions, 3 * i, [LoadFunc(i), AllocClosure(0), StoreGlobal(i)])
    ensures Reaches(Prepared(fn, i), Prepared(fn, i + 1))
  {
    hide Reaches, GlobalSlot, PlacedAt, NATIVE_NAMES, HasLocal, SetLocal, Alloc, BuiltinFunction, NativeOf;
    NativeSlot(fn.names, i);
    NativeCode(fn, i);
    OneMoreNative(fn, i);
    assert [LoadFunc(i), AllocClosure(0), StoreGlobal(i)] == [LoadFunc(i)] + [AllocClosure(0)] + [StoreGlobal(i)];
    Install(Prepared(fn, i), i, BuiltinFunction(NativeOf(i)));
  }

  lemma {:induction false} NothingPrepared(program: Function)
    requires |program.functions| >= 3
    ensures Start(program) == Prepared(LinkBuiltins(program), 0)
  {
    var start, fn := Start(program), LinkBuiltins(program);
    assert start.mem.heap[0].locals == Prepared(fn, 0).mem.heap[0].locals;
    assert start.mem.heap == Prepared(fn, 0).mem.heap;
  }

  lemma {:induction false} ProloguePlaced(instrs: seq<Instruction>, i: nat)
    requires Prologue() <= instrs && i < 3
    ensures PlacedAt(instrs, 3 * i, [LoadFunc(i), AllocClosure(0), StoreGlobal(i)])
  {
    assert forall j :: 0 <= j < 9 ==> instrs[j] == Prologue()[j];
  }

  lemma {:induction false} PrologueRuns(program: Function)
    requires |program.functions| >= 3 && IsLinked(LinkBuiltins(program))
    requires Prologue() <= program.instructions
    ensures Reaches(Start(program), Prepared(LinkBuiltins(program), 3))
  {
    hide Reaches, Prepared, PlacedAt, Prologue, IsLinked;
    var fn := LinkBuiltins(program);
    NothingPrepared(program);
    forall i: nat | i < 3 ensures Reaches(Prepared(fn, i), Prepared(fn, i + 1)) {
      ProloguePlaced(fn.instructions, i);
      PrepareOne(fn, i);
    }
    ReachesTransitive(Prepared(fn, 0), Prepared(fn, 1), Prepared(fn, 2));
    ReachesTransitive(Prepared(fn, 0), Prepared(fn, 2), Prepared(fn, 3));
  }

  function InitialWorld(fn: Function, rules: T.Rules): World {
    World(map[0 := FrameInfo(0, Top(fn), 0)], map[], rules)
  }

  lemma {:induction false} InitiallyRelated(fn: Function, rules: T.Rules)
    requires IsLinked(fn)
    ensures Ready(InitialWorld(fn, rules), fn, Top(fn), T.InitialStore(rules), 0, Prepared(fn, 3))
  {
    hide GlobalsOk;
    var w, s, vm := InitialWorld(fn, rules), T.InitialStore(rules), Prepared(fn, 3);
    var h := vm.mem.heap;
    NativesOk(fn, rules);
    assert FrameOk(w, fn, s, h, 0);
  }

  lemma {:induction false} NativesOk(fn: Function, rules: T.Rules)
    requires IsLinked(fn)
    ensures 0 in Prepared(fn, 3).mem.heap && Prepared(fn, 3).mem.heap[0].FrameObj?
    ensures var h := Prepared(fn, 3).mem.heap;
      GlobalsOk(InitialWorld(fn, rules), T.InitialStore(rules).frames[0].vars, fn, h[0].locals, h)
  {
    hide GlobalSlot, IndexOf, ValueOk;
    var w, h := InitialWorld(fn, rules), Prepared(fn, 3).mem.heap;
    var vars := T.InitialStore(rules).frames[0].vars;
    NativeStored(fn, rules, 0);
    NativeStored(fn, rules, 1);
    NativeStored(fn, rules, 2);
    forall x | x in fn.names ensures ValueOk(w, Stored(vars, x), h[0].locals[IndexOf(fn.names, x)], h) {
      if x !in vars {
        NotStoredYet(fn, x);
        NoneIsOk(w, h);
      }
    }
  }

  lemma {:induction false} NoneIsOk(w: World, h: Heap)
    ensures ValueOk(w, T.NoneV, NONE, h)
  {}

  lemma {:induction false} NativeStored(fn: Function, rules: T.Rules, i: nat)
    requires i < 3 && IsLinked(fn)
    ensures var h, x := Prepared(fn, 3).mem.heap, NATIVE_NAMES[i];
      && 0 in h && h[0].FrameObj? && x in fn.names && x in T.InitialStore(rules).frames[0].vars
      && |h[0].locals| == |fn.names|
      && ValueOk(InitialWorld(fn, rules), T.InitialStore(rules).frames[0].vars[x], h[0].locals[IndexOf(fn.names, x)], h)
  {
    hide GlobalSlot, ClosureOk, IndexOf, ToString, BuiltinFunction;
    NativeAt(fn, i);
  }

  lemma {:induction false} NotStoredYet(fn: Function, x: string)
    requires IsLinked(fn) && x in fn.names && x !in {"print", "input", "intcast"}
    ensures Prepared(fn, 3).mem.heap[0].locals[IndexOf(fn.names, x)] == NONE
  {
    assert fn.names[0] == "print" && fn.names[1] == "input" && fn.names[2] == "intcast";
  }

  lemma {:induction false} NativeAt(fn: Function, i: nat)
    requires i < 3 && IsLinked(fn)
    ensures var h := Prepared(fn, 3).mem.heap;
      && NATIVE_NAMES[i] in fn.names && IndexOf(fn.names, NATIVE_NAMES[i]) == i
      && Look(h, h[0].locals[i]) == ClosureW(BuiltinFunction(NativeOf(i)), [])
  {
    NativeSlot(fn.names, i);
    assert fn.names[i] == NATIVE_NAMES[i];
  }

  // ---------------------------------------------------------------- main theorem

  lemma {:induction false} FinishesFrom(vm: Machine, vm': Machine, out: seq<string>)
    requires Reaches(vm, vm') && Step(vm') == Finished(out)
    ensures exists n: nat :: Steps(n, vm) == Finished(out)
  {
    var n: nat :| Steps(n, vm) == Running(vm');
    StepsCompose(n, 1, vm, vm');
    assert Steps(n + 1, vm) == Finished(out);
  }

  lemma {:induction false} LinkedOk(main: Function)
    requires |main.functions| >= 3 && NATIVE_NAMES <= main.names && main.localVars == []
    ensures IsLinked(LinkBuiltins(main))
  {}

  /** The program's text meets `c`. */
  predicate Compilable(program: seq<Stmt>, c: Conditions) {
    && WellFormedBlock(program, c)
    && (c.scoped ==> FreshBlock(program, {}))
    && (c.indexed ==> IndexedBlock(program))
    && (c.resolved ==> N.Unresolved(program) == {})
  }

  /** The compiled program prints `out` and ends. */
  ghost predicate Prints(program: seq<Stmt>, out: seq<string>) {
    && |CompileProgram(program).functions| >= 3
    && exists n: nat :: Steps(n, Start(CompileProgram(program))) == Finished(out)
  }

  /** The state in which the code of the program is left. */
  function LeavingState(vm: Machine, len: nat, flow: T.Flow, v: Value, m: Memory): Machine {
    if flow.Normal? then At(vm, vm.current.ip + len, vm.current.stack, m)
    else At(vm, |vm.current.fn.instructions| + 1, vm.current.stack + [v], m)
  }

  lemma {:induction false} RunsToLast(w: World, w': World, fn: Function, vm: Machine, len: nat, s: T.Store, flow: T.Flow, v: Value, m: Memory)
    requires Executes(w, w', fn, vm, len, s, flow, v, m)
    ensures Reaches(vm, LeavingState(vm, len, flow, v, m)) && Rel(w', fn, s, m)
  {
    hide Reaches, Rel;
  }

  lemma {:induction false} RunsAlike(rules: T.Rules, program: seq<Stmt>, fuel: nat)
    requires Compilable(program, Needed(rules))
    requires T.RunBy(rules, program, fuel).Ok? && !T.RunBy(rules, program, fuel).value.strayed
    ensures Prints(program, T.RunBy(rules, program, fuel).value.out)
  {
    hide Reaches, CompileProgram, CodeBlock, OkBlock, WellFormedBlock, T.ExecBlock, Ready, Steps, Executes, Rel, IsLinked, PlacedAt;
    LessAskedOfBlock(program, SHAPE, Needed(rules));
    N.ResolvedIff(program);
    ProgramLaidOut(program);
    var main := CompileProgram(program);
    var fn := Linked(program);
    var env := Top(fn);
    var code := CodeBlock(program, env, 3);
    assert IsLinked(fn) by { LinkedOk(main); }
    PrologueRuns(main);
    InitiallyRelated(fn, rules);
    var vm := Prepared(fn, 3);
    assert fn.instructions[0..|fn.instructions|] == fn.instructions;
    PlacedSplit(fn.instructions, 0, Prologue(), code);
    var w, s := InitialWorld(fn, rules), T.InitialStore(rules);
    var w', v, m' := SimBlock(program, w, fn, env, s, 0, fuel, vm, 3);
    var (flow, s') := T.ExecBlock(program, s, 0, fuel).value;
    var last := LeavingState(vm, |code|, flow, v, m');
    RunsToLast(w, w', fn, vm, |code|, s', flow, v, m');
    OutOfRel(w', fn, s', m');
    ReachesTransitive(Start(main), vm, last);
    FinishesFrom(Start(main), last, s'.out);
  }

  /** What compiled code does, for every program of the right shape: a run by the
      rules of compiled code that ends is the machine's run. */
  lemma {:induction false} CompiledMeaning(program: seq<Stmt>, fuel: nat)
    requires Compilable(program, RESOLVED) && T.RunBy(T.AsCompiled, program, fuel).Ok?
    ensures Prints(program, T.RunBy(T.AsCompiled, program, fuel).value.out)
  {
    hide CompileProgram, WellFormedBlock, N.Unresolved, Steps, Start;
    RunsAlike(T.AsCompiled, program, fuel);
  }

  /** Meaning preservation: under the evaluator's own rules, for every run that
      reads and renders what compiled code does. */
  lemma {:induction false} CompilerCorrect(program: seq<Stmt>, fuel: nat)
    requires Compilable(program, MEANING)
    requires T.Run(program, fuel).Ok? && !T.Run(program, fuel).value.strayed
    ensures Prints(program, T.Run(program, fuel).value.out)
  {
    hide CompileProgram, WellFormedBlock, N.Unresolved, Steps, Start;
    RunsAlike(T.AsWritten, program, fuel);
  }

  /** ... and for every run whatever of a program whose text meets all conditions. */
  lemma {:induction false} MeaningPreserved(program: seq<Stmt>, fuel: nat)
    requires Compilable(program, ALL) && T.Run(program, fuel).Ok?
    ensures Prints(program, T.Run(program, fuel).value.out)
  {
    hide CompileProgram, WellFormedBlock, FreshBlock, IndexedBlock, N.Unresolved, Prints, T.Run;
    LessAskedOfBlock(program, MEANING, ALL);
    NeverStrays(program, fuel);
    CompilerCorrect(program, fuel);
  }

  /** The converse: where the tree-walk raises, or is not done with the fuel for `n`
      rounds, the machine has not finished after `n` rounds. */
  lemma {:induction false} WaitsAlike(rules: T.Rules, program: seq<Stmt>, fuel: nat, n: nat)
    requires Compilable(program, Needed(rules)) && (rules == T.AsWritten ==> FreshBlock(program, {}) && IndexedBlock(program))
    requires Bad(T.RunBy(rules, program, fuel), rules, fuel, n)
    ensures |CompileProgram(program).functions| >= 3 && !Steps(n, Start(CompileProgram(program))).Finished?
  {
    hide Reaches, CompileProgram, CodeBlock, OkBlock, WellFormedBlock, T.ExecBlock, Ready, Steps, IsLinked, FreshBlock, IndexedBlock;
    LessAskedOfBlock(program, SHAPE, Needed(rules));
    N.ResolvedIff(program);
    ProgramLaidOut(program);
    var main, fn := CompileProgram(program), Linked(program);
    var env := Top(fn);
    assert IsLinked(fn) by { LinkedOk(main); }
    PrologueRuns(main);
    InitiallyRelated(fn, rules);
    var w, s, vm := InitialWorld(fn, rules), T.InitialStore(rules), Prepared(fn, 3);
    assert fn.instructions[0..|fn.instructions|] == fn.instructions;
    PlacedSplit(fn.instructions, 0, Prologue(), CodeBlock(program, env, 3));
    StartsGoing(rules, program);
    LastsBlock(program, w, fn, env, s, 0, fuel, vm, 3, {}, n);
    UnfinishedVia(n, Start(main), vm);
  }

  lemma {:induction false} StartsGoing(rules: T.Rules, program: seq<Stmt>)
    ensures Going(T.InitialStore(rules), 0, {}) && Assigns(AssignsOfBlock(program), T.InitialStore(rules), 0)
  {
    if rules == T.AsWritten { assert Scoping.FrameTidy(T.InitialStore(rules), 0); }
  }

  /** A machine that finishes after `n` rounds has run the program as the tree-walker
      does with fuel `n`; under the evaluator's own rules that may have stopped at a
      variable no frame binds, which compiled code reads as None. */
  lemma {:induction false} EndsAlike(rules: T.Rules, program: seq<Stmt>, n: nat, out: seq<string>)
    requires Compilable(program, Needed(rules)) && (rules == T.AsWritten ==> FreshBlock(program, {}) && IndexedBlock(program))
    requires |CompileProgram(program).functions| >= 3 && Steps(n, Start(CompileProgram(program))) == Finished(out)
    ensures var r := T.RunBy(rules, program, n);
      (r.Ok? && r.value.out == out) || (rules == T.AsWritten && r == T.Err(T.Unbound))
  {
    hide CompileProgram, WellFormedBlock, FreshBlock, IndexedBlock, N.Unresolved, Steps, Start, T.RunBy;
    var start, r := Start(CompileProgram(program)), T.RunBy(rules, program, n);
    if r.Ok? {
      NotStrayed(rules, program, n);
      RunsAlike(rules, program, n);
      var k: nat :| Steps(k, start) == Finished(r.value.out);
      OneOutcome(k, n, start, r.value.out);
    } else if !(rules == T.AsWritten && r.error == T.Unbound) {
      WaitsAlike(rules, program, n, n);
    }
  }

  lemma {:induction false} NotStrayed(rules: T.Rules, program: seq<Stmt>, fuel: nat)
    requires T.RunBy(rules, program, fuel).Ok? && (rules == T.AsWritten ==> FreshBlock(program, {}) && IndexedBlock(program))
    ensures !T.RunBy(rules, program, fuel).value.strayed
  {
    hide FreshBlock, IndexedBlock, T.ExecBlock;
    if rules == T.AsWritten { NeverStrays(program, fuel); }
  }

  /** What compiled code does, exactly: the machine ends with `out` if and only if some
      run by the rules of compiled code does. */
  lemma {:induction false} CompiledExactly(program: seq<Stmt>, out: seq<string>)
    requires Compilable(program, RESOLVED)
    ensures Prints(program, out) <==> exists fuel: nat :: T.RunBy(T.AsCompiled, program, fuel).Ok? && T.RunBy(T.AsCompiled, program, fuel).value.out == out
  {
    hide CompileProgram, WellFormedBlock, N.Unresolved, Steps, Start, T.RunBy;
    if Prints(program, out) {
      var n: nat :| Steps(n, Start(CompileProgram(program))) == Finished(out);
      EndsAlike(T.AsCompiled, program, n, out);
    }
    if fuel: nat :| T.RunBy(T.AsCompiled, program, fuel).Ok? && T.RunBy(T.AsCompiled, program, fuel).value.out == out {
      CompiledMeaning(program, fuel);
    }
  }

  /** ... and under the evaluator's rules, for a program that meets all conditions and
      whose run never comes to a variable without a binding. */
  lemma {:induction false} MeaningExact(program: seq<Stmt>, out: seq<string>)
    requires Compilable(program, ALL)
    requires forall fuel: nat :: T.Run(program, fuel) != T.Err(T.Unbound)
    ensures Prints(program, out) <==> exists fuel: nat :: T.Run(program, fuel).Ok? && T.Run(program, fuel).value.out == out
  {
    hide CompileProgram, WellFormedBlock, N.Unresolved, Steps, Start, T.RunBy, FreshBlock, IndexedBlock;
    LessAskedOfBlock(program, MEANING, ALL);
    if Prints(program, out) {
      var n: nat :| Steps(n, Start(CompileProgram(program))) == Finished(out);
      EndsAlike(T.AsWritten, program, n, out);
      assert T.Run(program, n) == T.RunBy(T.AsWritten, program, n);
    }
    if fuel: nat :| T.Run(program, fuel).Ok? && T.Run(program, fuel).value.out == out {
      MeaningPreserved(program, fuel);
    }
  }

  /** A program whose tree-walk raises never ends normally on the machine. */
  lemma {:induction false} RaisedNeverEnds(program: seq<Stmt>, fuel: nat, out: seq<string>)
    requires Compilable(program, ALL) && T.Run(program, fuel) == T.Err(T.Raised)
    ensures !Prints(program, out)
  {
    hide CompileProgram, WellFormedBlock, N.Unresolved, Steps, Start, T.RunBy, FreshBlock, IndexedBlock;
    LessAskedOfBlock(program, MEANING, ALL);
    if Prints(program, out) {
      var n: nat :| Steps(n, Start(CompileProgram(program))) == Finished(out);
      assert T.Run(program, fuel) == T.RunBy(T.AsWritten, program, fuel);
      WaitsAlike(T.AsWritten, program, fuel, n);
    }
  }

  /** ... whatever the collector's schedule, and the machine does nothing else:
      it neither fails nor prints anything different. */
  lemma {:induction false} CompilerCorrectUnderCollection(program: seq<Stmt>, fuel: nat, full: nat -> bool)
    requires T.Run(program, fuel).Ok?
    requires Compilable(program, ALL) || (Compilable(program, MEANING) && !T.Run(program, fuel).value.strayed)
    ensures |CompileProgram(program).functions| >= 3
    ensures var start, out := Start(CompileProgram(program)), T.Run(program, fuel).value.out;
      && (exists n: nat :: CollectingSteps(n, start, full, 0) == Finished(out))
      && (forall k: nat :: CollectingSteps(k, start, full, 0) != Failed)
      && (forall k: nat :: CollectingSteps(k, start, full, 0).Finished? ==> CollectingSteps(k, start, full, 0) == Finished(out))
  {
    hide CompileProgram, CollectingSteps, Steps, Start, Compilable;
    if Compilable(program, ALL) { MeaningPreserved(program, fuel); } else { CompilerCorrect(program, fuel); }
    var main, out := CompileProgram(program), T.Run(program, fuel).value.out;
    var n: nat :| Steps(n, Start(main)) == Finished(out);
    AnySchedule(main, full, n, out);
    forall k: nat ensures CollectingSteps(k, Start(main), full, 0) != Failed
      && (CollectingSteps(k, Start(main), full, 0).Finished? ==> CollectingSteps(k, Start(main), full, 0) == Finished(out))
    {
      OneOutcome(n, k, Start(main), out);
      AnySchedule(main, full, k, if CollectingSteps(k, Start(main), full, 0).Finished? then CollectingSteps(k, Start(main), full, 0).out else out);
    }
  }
}
