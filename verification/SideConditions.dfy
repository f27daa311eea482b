/** The conditions under which the compiler preserves meaning are the right ones:
    a set of conditions is enough for every program that meets it if and only if
    it asks for all of them. For each one left out there is a program whose
    compiled code prints something else, or fails. */
module SideConditions {
  import opened Basics
  import opened Ast
  import T = TreeWalker
  import opened Bytecode
  import opened Codegen
  import opened Layout
  import opened LateBinding
  import opened Machine
  import opened Execution
  import opened CallProtocol
  import opened Relation
  import opened RelationUpdates
  import opened RelationCalls
  import opened SimulationSteps
  import opened Simulation
  import opened Completeness
  import opened Correctness
  import opened Counterexamples
  import D = DivergingRuns
  import N = NameResolution
  import Scoping

  // ---------------------------------------------------------------- falling off the end

  /** The call of a closure whose body ends although the return analysis says it
      returns. */
  lemma {:induction false} ClosureFails(tv: T.Value, svs: seq<T.Value>, s: T.Store, fuel: nat, w: World, program: Function, vm: Machine,
      st: seq<Value>, cv: Value, vs: seq<Value>)
    returns (last: Machine)
    requires tv.FunctionV? && |svs| == |tv.params|
    requires Rel(w, program, s, vm.mem) && vm.names == program.names && vm.global == 0
    requires Placed(vm, [Instruction.Call(|vs|)]) && vm.current.stack == st + [cv] + vs
    requires ValueOk(w, tv, cv, vm.mem.heap) && ValuesOk(w, svs, vs, vm.mem.heap)
    requires var s1 := s.(frames := s.frames + [T.CallFrame(tv.frame, tv.params, tv.body, svs)]);
      var r := T.ExecBlock(tv.body, s1, |s.frames|, fuel);
      FindReturnBlock(tv.body) && r.Ok? && !r.value.1.strayed && r.value.0.Normal?
    ensures Reaches(vm, last) && Step(last) == Failed
  {
    hide Rel, ValueOk, ValuesOk, HeapGrows, WorldGrows, Reaches, OkBlock, WellFormedBlock, FunctionCode, T.ExecBlock, CodeBlock, Placed, Step;
    var s1 := s.(frames := s.frames + [T.CallFrame(tv.frame, tv.params, tv.body, svs)]);
    var w1, env, vm1 := EnterClosure(tv, svs, s, w, program, vm, st, cv, vs);
    last := BodyFails(tv.body, w1, program, env, s1, |s.frames|, fuel, vm1);
    ReachesTransitive(vm, vm1, last);
  }

  /** ... as a call statement without arguments. */
  lemma {:induction false} CallFails(e: Expr, w: World, program: Function, env: Env, s: T.Store, f: nat, fuel: nat, vm: Machine, k: nat)
    returns (last: Machine)
    requires e.Call? && e.args == [] && Ready(w, program, env, s, f, vm)
    requires WellFormed(e, Needed(s.rules)) && Ok(e, env, k) && Placed(vm, Code(e, env, k))
    requires T.Eval(e.target, s, f, fuel).Ok? && T.Eval(e.target, s, f, fuel).value.0.FunctionV? && fuel > 0
    requires var (tv, s1) := T.Eval(e.target, s, f, fuel).value;
      var s2 := s1.(frames := s1.frames + [T.CallFrame(tv.frame, [], tv.body, [])]);
      var r := T.ExecBlock(tv.body, s2, |s1.frames|, fuel - 1);
      && tv.params == [] && !s1.strayed
      && FindReturnBlock(tv.body) && r.Ok? && !r.value.1.strayed && r.value.0.Normal?
    ensures Reaches(vm, last) && Step(last) == Failed
  {
    hide Rel, ValueOk, ValuesOk, HeapGrows, HeapExtends, WorldGrows, Reaches, T.Eval, T.ExecBlock, Code, Step;
    var Call(t, args) := e;
    var (tv, s1) := T.Eval(t, s, f, fuel).value;
    var a, ip, st := Code(t, env, k), vm.current.ip, vm.current.stack;
    CallCode(e, env, k);
    PlacedSplit(vm.current.fn.instructions, ip, a, [Instruction.Call(0)]);
    var w1, v1, m1 := SimExpr(t, w, program, env, s, f, fuel, vm, k);
    ReadyAt(w, w1, program, env, s1, f, vm, ip + |a|, st + [v1], m1);
    var vm1 := At(vm, ip + |a|, st + [v1], m1);
    assert st + [v1] + [] == st + [v1];
    NoValues(w1, m1.heap);
    last := ClosureFails(tv, [], s1, fuel - 1, w1, program, vm1, st, v1, []);
    ReachesTransitive(vm, vm1, last);
  }

  lemma {:induction false} NoValues(w: World, h: Heap)
    ensures ValuesOk(w, [], [], h)
  {}

  lemma {:induction false} CallCode(e: Expr, env: Env, k: nat)
    requires e.Call? && e.args == []
    ensures Code(e, env, k) == Code(e.target, env, k) + [Instruction.Call(0)]
    ensures Ok(e, env, k) ==> Ok(e.target, env, k)
  {
    assert Code(e, env, k) == CodeCall(e, env, k);
    assert Code(e.target, env, k) + [] == Code(e.target, env, k);
  }

  /** The compiled program comes to a state in which the machine fails. */
  ghost predicate Fails(program: seq<Stmt>) {
    && |CompileProgram(program).functions| >= 3
    && exists n: nat :: Steps(n, Start(CompileProgram(program))) == Failed
  }

  lemma {:induction false} FailsFrom(vm: Machine, last: Machine)
    requires Reaches(vm, last) && Step(last) == Failed
    ensures exists n: nat :: Steps(n, vm) == Failed
  {
    var n: nat :| Steps(n, vm) == Running(last);
    StepsCompose(n, 1, vm, last);
    assert Steps(n + 1, vm) == Failed;
  }

  /** The second of two statements, the first one having been run. */
  lemma {:induction false} SecondStatement(c: Stmt, d: Stmt, env: Env, k: nat)
    ensures CodeBlock([c] + ([d] + []), env, k) == CodeStmt(c, env, k) + CodeStmt(d, env, k + LiteralsStmt(c))
    ensures OkBlock([c] + ([d] + []), env, k) <==> OkStmt(c, env, k) && OkStmt(d, env, k + LiteralsStmt(c))
    ensures WellFormedBlock([c] + ([d] + []), RESOLVED) <==> WellFormedStmt(c, RESOLVED) && WellFormedStmt(d, RESOLVED)
  {
    hide CodeStmt, OkStmt, WellFormedStmt, LiteralsStmt;
    var cs := [d] + [];
    assert ([c] + cs)[0] == c && ([c] + cs)[1..] == cs && cs[0] == d && cs[1..] == [];
    var n := k + LiteralsStmt(c);
    assert CodeBlock(cs, env, n) == CodeStmt(d, env, n) + CodeBlock([], env, n + LiteralsStmt(d)) == CodeStmt(d, env, n);
    assert OkBlock([], env, n + LiteralsStmt(d)) && WellFormedBlock([], RESOLVED);
    assert WellFormedBlock(cs, RESOLVED) <==> WellFormedStmt(d, RESOLVED) && WellFormedBlock(cs[1..], RESOLVED);
  }

  /** `f = fun() { while (false) { return 1; } }; f();` ends in the tree-walker and
      fails in the machine. */
  const LOOP_DEFINITION := AssignVar("f", Fun([], LOOP_BODY))
  const LOOP_CALL := Expr.Call(Var("f"), [])

  /** Where the code of the two statements is, and that the simulation applies to both. */
  lemma {:induction false} LoopLaidOut() returns (main: Function, fn: Function)
    ensures main == CompileProgram(LOOP) && |main.functions| >= 3 && fn == LinkBuiltins(main) && IsLinked(fn)
    ensures Prologue() <= main.instructions && |Prologue()| == 9
    ensures var env, k := Top(fn), 3 + LiteralsStmt(LOOP_DEFINITION);
      && WellFormedStmt(LOOP_DEFINITION, RESOLVED) && OkStmt(LOOP_DEFINITION, env, 3)
      && WellFormed(LOOP_CALL, RESOLVED) && Ok(LOOP_CALL, env, k)
      && PlacedAt(fn.instructions, 9, CodeStmt(LOOP_DEFINITION, env, 3))
      && PlacedAt(fn.instructions, 9 + |CodeStmt(LOOP_DEFINITION, env, 3)|, Code(LOOP_CALL, env, k))
  {
    hide CompileProgram, CodeBlock, OkBlock, WellFormedBlock, IsLinked, CodeStmt, OkStmt, WellFormedStmt, LiteralsStmt, Gives, Code, Ok, WellFormed;
    LoopMeets();
    LessAskedOfBlock(LOOP, SHAPE, LOOP_CONDITIONS);
    LessAskedOfBlock(LOOP, RESOLVED, LOOP_CONDITIONS);
    N.ResolvedIff(LOOP);
    ProgramLaidOut(LOOP);
    main, fn := CompileProgram(LOOP), Linked(LOOP);
    LinkedOk(main);
    var c1, c2 := LOOP_DEFINITION, CallStmt(LOOP_CALL);
    var env, k := Top(fn), 3 + LiteralsStmt(c1);
    SecondStatement(c1, c2, env, 3);
    CallStatement(LOOP_CALL, env, k);
    assert fn.instructions[0..|fn.instructions|] == fn.instructions;
    PlacedSplit(fn.instructions, 0, Prologue(), CodeStmt(c1, env, 3) + CodeStmt(c2, env, k));
    PlacedSplit(fn.instructions, 9, CodeStmt(c1, env, 3), CodeStmt(c2, env, k));
    PlacedSplit(fn.instructions, 9 + |CodeStmt(c1, env, 3)|, Code(LOOP_CALL, env, k), [Pop]);
  }

  /** The machine gets to the call with the function defined. */
  lemma {:induction false} LoopDefines() returns (main: Function, fn: Function, w: World, s: T.Store, vm: Machine)
    ensures main == CompileProgram(LOOP) && |main.functions| >= 3 && Reaches(Start(main), vm)
    ensures var env, k := Top(fn), 3 + LiteralsStmt(LOOP_DEFINITION);
      && Ready(w, fn, env, s, 0, vm) && Placed(vm, Code(LOOP_CALL, env, k))
      && WellFormed(LOOP_CALL, RESOLVED) && Ok(LOOP_CALL, env, k)
    ensures D.Globals(s, D.NATIVES["f" := T.FunctionV(0, [], LOOP_BODY)]) && s.rules == T.AsCompiled && !s.strayed
  {
    hide Reaches, CompileProgram, T.Exec, Ready, Steps, Executes, Rel, IsLinked, CodeStmt, OkStmt, WellFormedStmt, LiteralsStmt, Placed, Step, Code,
      Ok, WellFormed;
    main, fn := LoopLaidOut();
    var env, c := Top(fn), LOOP_DEFINITION;
    PrologueRuns(main);
    InitiallyRelated(fn, T.AsCompiled);
    var w0, s0, vm0 := InitialWorld(fn, T.AsCompiled), T.InitialStore(T.AsCompiled), Prepared(fn, 3);
    Here(vm0, CodeStmt(c, env, 3));
    D.StartsWithNatives(T.AsCompiled);
    s := D.Define("f", [], LOOP_BODY, s0, D.NATIVES, 2);
    var v, m;
    w, v, m := SimStmt(c, w0, fn, env, s0, 0, 2, vm0, 3);
    vm := AfterStatement(w0, w, fn, env, vm0, |CodeStmt(c, env, 3)|, s, v, m);
    Here(vm, Code(LOOP_CALL, env, 3 + LiteralsStmt(c)));
    ReachesTransitive(Start(main), vm0, vm);
  }

  lemma {:induction false} LoopFails()
    ensures Fails(LOOP)
  {
    hide Reaches, CompileProgram, T.ExecBlock, Ready, Steps, Placed, Step, Code, Ok, WellFormed, LiteralsStmt, IsLinked, CompileBlock,
      GlobalsOfBlock, AssignsOfBlock, T.Eval, T.Exec;
    var main, fn, w, s, vm := LoopDefines();
    ReadF(s);
    D.LoopBodyRuns(s.(frames := s.frames + [T.CallFrame(0, [], LOOP_BODY, [])]), |s.frames|);
    ReadLoopBody({});
    var last := CallFails(LOOP_CALL, w, fn, Top(fn), s, 0, 2, vm, 3 + LiteralsStmt(LOOP_DEFINITION));
    ReachesTransitive(Start(main), vm, last);
    FailsFrom(Start(main), last);
  }

  /** Closing a literal over a name that is never resolved fails, whatever follows. */
  lemma {:induction false} FirstLiteralFails(x: string, e: Expr, rest: seq<Stmt>)
    requires e.Fun? && WellFormedBlock([AssignVar(x, e)] + rest, SHAPE)
    requires var program := [AssignVar(x, e)] + rest;
      N.Free(e, (set y | y in NATIVE_NAMES + GlobalsOfBlock(program) + AssignsOfBlock(program)), N.Program) != {}
    ensures Fails([AssignVar(x, e)] + rest)
  {
    hide CompileBlock, Reaches, Step, IsLinked, CompileExpr, WellFormed, GlobalsOfBlock, N.Free;
    var program := [AssignVar(x, e)] + rest;
    var main := CompileProgram(program);
    FirstCode(x, e, rest);
    ProgramShape(program);
    var fn := LinkBuiltins(main);
    assert IsLinked(fn) by { LinkedOk(main); }
    PrologueRuns(main);
    var vm := Prepared(fn, 3);
    NamedPushFails(vm);
    var last :| Reaches(vm, last) && Step(last) == Failed;
    ReachesTransitive(Start(main), vm, last);
    FailsFrom(Start(main), last);
  }

  /** The program's code starts by loading the literal and pushing a name. */
  lemma {:induction false} FirstCode(x: string, e: Expr, rest: seq<Stmt>)
    requires e.Fun? && WellFormedBlock([AssignVar(x, e)] + rest, SHAPE)
    requires var program := [AssignVar(x, e)] + rest;
      N.Free(e, (set y | y in NATIVE_NAMES + GlobalsOfBlock(program) + AssignsOfBlock(program)), N.Program) != {}
    ensures var code := CompileProgram([AssignVar(x, e)] + rest).instructions;
      |code| >= 11 && Prologue() <= code && code[9].LoadFunc? && code[10].PushNamed?
  {
    hide CompileExpr, WellFormed, GlobalsOfBlock, N.Free, N.Fits, OpenProgram;
    var c := AssignVar(x, e);
    var program := [c] + rest;
    assert program[0] == c && program[1..] == rest;
    var o, known := OpenProgram(program), set y | y in NATIVE_NAMES + GlobalsOfBlock(program) + AssignsOfBlock(program);
    assert x in AssignsOfBlock(program);
    N.OpenProgramFits(program);
    var (c1, before, store) := CompileTarget(x, o);
    ProgramTarget(x, o, known);
    N.LiteralPushesName(e, c1, known);
    var r, a := CompileBlock(program, o), CompileExpr(e, c1).1;
    assert CompileStmt(c, o).1 == [] + a + [store];
    assert r.1[0] == a[0] && r.1[1] == a[1];
    assert CompileProgram(program).instructions == Prologue() + r.1;
  }

  lemma {:induction false} ProgramTarget(x: string, o: Scopes, known: set<string>)
    requires |o| == 1 && N.Fits(o, known, N.Program) && x in known
    ensures var (c1, before, _) := CompileTarget(x, o); |c1| == 1 && before == [] && N.Fits(c1, known, N.Program)
  {}

  lemma {:induction false} ProgramShape(program: seq<Stmt>)
    requires WellFormedBlock(program, SHAPE)
    ensures var main := CompileProgram(program); |main.functions| >= 3 && NATIVE_NAMES <= main.names && main.localVars == []
  {
    hide OpenProgram, CompileBlock, GlobalsOfBlock, AssignsOfBlock;
    ProgramKept(program, Top(EMPTY_FUNCTION));
  }

  lemma {:induction false} NamedPushFails(vm: Machine)
    requires 0 <= vm.current.ip < |vm.current.fn.instructions| - 1
    requires vm.current.fn.instructions[vm.current.ip].LoadFunc? && vm.current.fn.instructions[vm.current.ip + 1].PushNamed?
    ensures exists last :: Reaches(vm, last) && Step(last) == Failed
  {
    hide Reaches;
    if Step(vm) == Failed {
      ReachesSelf(vm);
    } else {
      ReachesStep(vm, Step(vm).vm);
    }
  }

  lemma {:induction false} DanglingFails()
    ensures Fails(DANGLING)
  {
    hide Fails, WellFormedBlock, N.Free;
    DanglingMeets();
    LessAskedOfBlock(DANGLING, SHAPE, DANGLING_CONDITIONS);
    DanglingIsFree(set y | y in NATIVE_NAMES + GlobalsOfBlock(DANGLING) + AssignsOfBlock(DANGLING));
    FirstLiteralFails("f", Fun([], DANGLING_BODY), []);
  }

  lemma {:induction false} Here(vm: Machine, code: seq<Instruction>)
    requires PlacedAt(vm.current.fn.instructions, vm.current.ip, code)
    ensures Placed(vm, code)
  {}

  lemma {:induction false} AfterStatement(w: World, w1: World, fn: Function, env: Env, vm: Machine, len: nat, s: T.Store, v: Value, m: Memory)
    returns (vm1: Machine)
    requires InFrame(w, fn, env, 0, vm) && Executes(w, w1, fn, vm, len, s, T.Normal, v, m)
    ensures vm1 == At(vm, vm.current.ip + len, vm.current.stack, m)
    ensures Reaches(vm, vm1) && Ready(w1, fn, env, s, 0, vm1)
  {
    hide Rel, Reaches, HeapGrows, WorldGrows;
    vm1 := At(vm, vm.current.ip + len, vm.current.stack, m);
    ReadyAt(w, w1, fn, env, s, 0, vm, vm.current.ip + len, vm.current.stack, m);
  }

  lemma {:induction false} CallStatement(e: Expr, env: Env, k: nat)
    ensures CodeStmt(CallStmt(e), env, k) == Code(e, env, k) + [Pop]
    ensures OkStmt(CallStmt(e), env, k) ==> Ok(e, env, k)
    ensures WellFormedStmt(CallStmt(e), RESOLVED) ==> WellFormed(e, RESOLVED)
  {
    hide Code, Ok;
    assert CodeStmt(CallStmt(e), env, k) == CodeCallStmt(CallStmt(e), env, k);
  }

  lemma {:induction false} ReadF(s: T.Store)
    requires D.Globals(s, D.NATIVES["f" := T.FunctionV(0, [], LOOP_BODY)])
    ensures T.Eval(Var("f"), s, 0, 2) == T.Ok((T.FunctionV(0, [], LOOP_BODY), s))
  {
    D.ReadGlobal("f", s, D.NATIVES["f" := T.FunctionV(0, [], LOOP_BODY)], 0, 2);
  }

  // ---------------------------------------------------------------- which conditions it takes

  /** Conditions under which every run of every program keeps its output. */
  ghost predicate Preserves(c: Conditions) {
    forall program, fuel :: Compilable(program, c) && T.Run(program, fuel).Ok? ==> Prints(program, T.Run(program, fuel).value.out)
  }

  lemma {:induction false} MeetsCompiles(program: seq<Stmt>, c: Conditions, d: Conditions)
    requires Meets(program, d) && Weaker(c, d)
    ensures Compilable(program, c) && (d.resolved ==> Compilable(program, RESOLVED))
  {
    hide CompileProgram, WellFormedBlock, N.Unresolved, Scoping.FreshBlock, Scoping.IndexedBlock;
    LessAskedOfBlock(program, c, d);
    WithinAll(d.pairs);
    if d.resolved { LessAskedOfBlock(program, RESOLVED, d); }
  }

  lemma {:induction false} WithinAll(pairs: set<(Kind, Kind)>)
    ensures pairs <= ALL_PAIRS
  {
    forall p | p in pairs ensures p in ALL_PAIRS {
      var (a, b) := p;
      assert (a.Settled? || a.Quiet? || a.Calling?) && (b.Settled? || b.Quiet? || b.Calling?);
    }
  }

  /** A run that compiled code has with another output. */
  lemma {:induction false} DiffersOn(program: seq<Stmt>, fuel: nat, c: Conditions, d: Conditions)
    requires Meets(program, d) && d.resolved && Weaker(c, d)
    requires T.RunBy(T.AsWritten, program, fuel).Ok? && T.RunBy(T.AsCompiled, program, fuel).Ok?
    requires T.RunBy(T.AsWritten, program, fuel).value.out != T.RunBy(T.AsCompiled, program, fuel).value.out
    ensures Prints(program, T.RunBy(T.AsCompiled, program, fuel).value.out)
    ensures !Preserves(c)
  {
    hide CompileProgram, Compilable, Meets, Weaker, T.RunBy, Steps, Start;
    MeetsCompiles(program, c, d);
    CompiledMeaning(program, fuel);
    var start, out := Start(CompileProgram(program)), T.RunBy(T.AsWritten, program, fuel).value.out;
    if Preserves(c) {
      assert T.Run(program, fuel) == T.RunBy(T.AsWritten, program, fuel);
      var n: nat :| Steps(n, start) == Finished(T.RunBy(T.AsCompiled, program, fuel).value.out);
      assert Prints(program, out);
      var k: nat :| Steps(k, start) == Finished(out);
      OneOutcome(n, k, start, T.RunBy(T.AsCompiled, program, fuel).value.out);
    }
  }

  /** `f("a") < f("b")`: the machine prints b and then a. */
  lemma {:induction false} OrderShows()
    ensures Compilable(SAY, SAY_CONDITIONS) && T.Run(SAY, 2).Ok? && T.Run(SAY, 2).value.out == ["a", "b"]
    ensures Prints(SAY, ["b", "a"])
    ensures forall c :: Weaker(c, SAY_CONDITIONS) ==> !Preserves(c)
  {
    hide Compilable, Meets, Preserves, T.RunBy, Prints;
    SayMeets();
    D.SayRuns(T.AsWritten);
    D.SayRuns(T.AsCompiled);
    MeetsCompiles(SAY, SAY_CONDITIONS, SAY_CONDITIONS);
    assert ["a", "b"][0] != ["b", "a"][0];
    forall c | Weaker(c, SAY_CONDITIONS) ensures !Preserves(c) { DiffersOn(SAY, 2, c, SAY_CONDITIONS); }
    DiffersOn(SAY, 2, SAY_CONDITIONS, SAY_CONDITIONS);
  }

  /** `x < g()` and `g() < x`, where `g` sets `x`: true in the tree-walker, false in
      the machine. */
  lemma {:induction false} ReadShows(l: Expr, r: Expr)
    requires (l == Var("x") && r == BUMPED) || (l == BUMPED && r == Var("x"))
    ensures var d, program := BumpConditions(l, r), Bump(l, r);
      && Compilable(program, d) && T.Run(program, 2).Ok? && T.Run(program, 2).value.out == ["true"]
      && Prints(program, ["false"])
      && forall c :: Weaker(c, d) ==> !Preserves(c)
  {
    assert BumpConditions(l, r).resolved;
    hide Compilable, Meets, Preserves, T.RunBy, Prints, Weaker, BumpConditions;
    var d, program := BumpConditions(l, r), Bump(l, r);
    BumpMeets(l, r);
    D.BumpRuns(l, r, T.AsWritten);
    D.BumpRuns(l, r, T.AsCompiled);
    AsItself(d);
    MeetsCompiles(program, d, d);
    assert ["true"][0] != ["false"][0];
    forall c | Weaker(c, d) ensures !Preserves(c) { DiffersOn(program, 2, c, d); }
    DiffersOn(program, 2, d, d);
  }

  lemma {:induction false} AsItself(c: Conditions)
    ensures Weaker(c, c)
  {}

  /** A parameter that is declared global: 5 in the tree-walker, None in the machine. */
  lemma {:induction false} ShadowShows()
    ensures Compilable(SHADOW, SHADOW_CONDITIONS) && T.Run(SHADOW, 2).Ok? && T.Run(SHADOW, 2).value.out == ["5"]
    ensures Prints(SHADOW, ["None"])
    ensures forall c :: Weaker(c, SHADOW_CONDITIONS) ==> !Preserves(c)
  {
    hide Compilable, Meets, Preserves, T.RunBy, Prints;
    ShadowMeets();
    D.ShadowRuns(T.AsWritten);
    D.ShadowRuns(T.AsCompiled);
    MeetsCompiles(SHADOW, SHADOW_CONDITIONS, SHADOW_CONDITIONS);
    assert ["5"][0] != ["None"][0];
    forall c | Weaker(c, SHADOW_CONDITIONS) ensures !Preserves(c) { DiffersOn(SHADOW, 2, c, SHADOW_CONDITIONS); }
    DiffersOn(SHADOW, 2, SHADOW_CONDITIONS, SHADOW_CONDITIONS);
  }

  /** A record as an index, changed by the right-hand side: 7 in the tree-walker,
      None in the machine. */
  lemma {:induction false} MarkShows()
    ensures Compilable(MARK, MARK_CONDITIONS) && T.Run(MARK, 2).Ok? && T.Run(MARK, 2).value.out == ["7"]
    ensures Prints(MARK, ["None"])
    ensures forall c :: Weaker(c, MARK_CONDITIONS) ==> !Preserves(c)
  {
    hide Compilable, Meets, Preserves, T.RunBy, Prints;
    MarkMeets();
    D.MarkRuns(T.AsWritten);
    D.MarkRuns(T.AsCompiled);
    MeetsCompiles(MARK, MARK_CONDITIONS, MARK_CONDITIONS);
    assert ["7"][0] != ["None"][0];
    forall c | Weaker(c, MARK_CONDITIONS) ensures !Preserves(c) { DiffersOn(MARK, 2, c, MARK_CONDITIONS); }
    DiffersOn(MARK, 2, MARK_CONDITIONS, MARK_CONDITIONS);
  }

  /** A loop counted as a return: the tree-walker ends, the machine fails. */
  lemma {:induction false} LoopShows()
    ensures Compilable(LOOP, LOOP_CONDITIONS) && T.Run(LOOP, 2).Ok? && T.Run(LOOP, 2).value.out == []
    ensures Fails(LOOP)
    ensures forall c :: Weaker(c, LOOP_CONDITIONS) ==> !Preserves(c)
  {
    hide Compilable, Meets, T.Run, Weaker, Fails, Preserves;
    LoopMeets();
    D.LoopRuns();
    LoopFails();
    AsItself(LOOP_CONDITIONS);
    MeetsCompiles(LOOP, LOOP_CONDITIONS, LOOP_CONDITIONS);
    forall c | Weaker(c, LOOP_CONDITIONS) ensures !Preserves(c) { FailsOn(LOOP, 2, c, LOOP_CONDITIONS); }
  }

  /** A name that is never resolved: the tree-walker ends, the machine fails when it
      closes the literal. */
  lemma {:induction false} UnresolvedShows()
    ensures Compilable(DANGLING, DANGLING_CONDITIONS) && T.Run(DANGLING, 2).Ok? && T.Run(DANGLING, 2).value.out == []
    ensures Fails(DANGLING)
    ensures forall c :: Weaker(c, DANGLING_CONDITIONS) ==> !Preserves(c)
  {
    hide Compilable, Meets, T.Run, Weaker, Fails, Preserves;
    DanglingMeets();
    D.DanglingRuns();
    DanglingFails();
    AsItself(DANGLING_CONDITIONS);
    MeetsCompiles(DANGLING, DANGLING_CONDITIONS, DANGLING_CONDITIONS);
    forall c | Weaker(c, DANGLING_CONDITIONS) ensures !Preserves(c) { FailsOn(DANGLING, 2, c, DANGLING_CONDITIONS); }
  }

  /** The machine may end where the evaluator stops at a variable no frame binds: it
      reads a global that is not stored yet as None. */
  lemma {:induction false} LateShows()
    ensures Compilable(LATE, ALL) && T.Run(LATE, 2) == T.Err(T.Unbound) && Prints(LATE, ["None"])
  {
    hide Compilable, Meets, T.RunBy, Prints;
    LateMeets();
    D.LateRuns();
    AsItself(ALL);
    MeetsCompiles(LATE, ALL, ALL);
    CompiledMeaning(LATE, 2);
  }

  /** A run after which the machine does not end. */
  lemma {:induction false} FailsOn(program: seq<Stmt>, fuel: nat, c: Conditions, d: Conditions)
    requires Meets(program, d) && Weaker(c, d) && T.Run(program, fuel).Ok? && Fails(program)
    ensures !Preserves(c)
  {
    hide CompileProgram, Compilable, Meets, Weaker, T.Run, Steps, Start;
    MeetsCompiles(program, c, d);
    if Preserves(c) {
      var start, out := Start(CompileProgram(program)), T.Run(program, fuel).value.out;
      assert Prints(program, out);
      var n: nat :| Steps(n, start) == Failed;
      var k: nat :| Steps(k, start) == Finished(out);
      OneOutcome(k, n, start, out);
    }
  }

  lemma {:induction false} Commuting(p: (Kind, Kind))
    ensures p in COMMUTING || p == (Calling, Calling) || p == (Quiet, Calling) || p == (Calling, Quiet)
  {
    var (a, b) := p;
    assert (a.Settled? || a.Quiet? || a.Calling?) && (b.Settled? || b.Quiet? || b.Calling?);
  }

  lemma {:induction false} OnePair(p: (Kind, Kind), c: Conditions)
    requires p in c.pairs
    ensures Weaker(c, Conditions(true, {p}, true, true, true))
  {}

  lemma {:induction false} KindsOfReads()
    ensures KindOf(Var("x")) == Quiet && KindOf(BUMPED) == Calling
  {}

  /** Pairs of kinds that may be operands of `<` only where the order cannot show. */
  lemma {:induction false} PairShows(p: (Kind, Kind), c: Conditions)
    requires p in c.pairs && p !in COMMUTING
    ensures !Preserves(c)
  {
    hide Preserves, Weaker, Compilable, Prints, T.Run, KindOf;
    OnePair(p, c);
    Commuting(p);
    KindsOfReads();
    if p == (Calling, Calling) {
      OrderShows();
    } else if p == (Quiet, Calling) {
      ReadShows(Var("x"), BUMPED);
    } else {
      ReadShows(BUMPED, Var("x"));
    }
  }

  /** Conditions are enough if and only if they ask for all of these. */
  lemma {:induction false} PreservesIff(c: Conditions)
    ensures Preserves(c) <==> c.returning && c.pairs <= COMMUTING && c.scoped && c.indexed && c.resolved
  {
    hide Compilable, T.Run, Prints;
    if c.returning && c.pairs <= COMMUTING && c.scoped && c.indexed && c.resolved {
      forall program, fuel | Compilable(program, c) && T.Run(program, fuel).Ok? ensures Prints(program, T.Run(program, fuel).value.out) {
        AsksForAll(program, c);
        MeaningPreserved(program, fuel);
      }
    } else if !c.returning {
      LoopShows();
    } else if !c.scoped {
      ShadowShows();
    } else if !c.indexed {
      MarkShows();
    } else if !c.resolved {
      UnresolvedShows();
    } else {
      var p :| p in c.pairs && p !in COMMUTING;
      PairShows(p, c);
    }
  }

  lemma {:induction false} AsksForAll(program: seq<Stmt>, c: Conditions)
    requires Compilable(program, c) && c.returning && c.pairs <= COMMUTING && c.scoped && c.indexed && c.resolved
    ensures Compilable(program, ALL)
  {
    hide CompileProgram, WellFormedBlock, Scoping.FreshBlock, Scoping.IndexedBlock;
    LessAskedOfBlock(program, ALL, c);
  }
}
