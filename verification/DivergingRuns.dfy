/** The runs of the counterexamples, by the evaluator's rules and by those of
    compiled code. */
module DivergingRuns {
  import opened Basics
  import opened Ast
  import opened TreeWalker
  import opened Counterexamples

  // ---------------------------------------------------------------- evaluation

  const NATIVES: map<string, Value> :=
    map["print" := NativeV(Print), "intcast" := NativeV(Intcast), "input" := NativeV(Input)]

  /** The program's frame binds `vars`. */
  ghost predicate Globals(s: Store, vars: map<string, Value>) {
    s.frames != [] && s.frames[0] == Frame(vars, None, {})
  }

  /** Name `x`, seen from frame `f`, is the global of that name. */
  ghost predicate SeesGlobal(s: Store, f: nat, x: string) {
    && f < |s.frames|
    && (f > 0 ==> s.frames[f].parent == Some(0) && x !in s.frames[f].vars && x !in s.frames[f].globals)
  }

  lemma {:induction false} ReadGlobal(x: string, s: Store, vars: map<string, Value>, f: nat, fuel: nat)
    requires Globals(s, vars) && x in vars && SeesGlobal(s, f, x)
    ensures Eval(Var(x), s, f, fuel) == Ok((vars[x], s))
  {
    assert LookupRead(s, 0, x) == Some(vars[x]) && LookupCompiled(s, 0, x) == vars[x];
    assert LookupRead(s, f, x) == Some(vars[x]) && LookupCompiled(s, f, x) == vars[x];
    assert s.(strayed := s.strayed || false) == s;
  }

  lemma {:induction false} ReadLocal(x: string, s: Store, f: nat, fuel: nat)
    requires f < |s.frames| && x in s.frames[f].vars && x !in s.frames[f].globals
    ensures Eval(Var(x), s, f, fuel) == Ok((s.frames[f].vars[x], s))
  {
    assert s.(strayed := s.strayed || false) == s;
  }

  lemma {:induction false} EvalConstant(i: int, t: string, s: Store, f: nat, fuel: nat)
    ensures Eval(Number(i), s, f, fuel) == Ok((IntegerV(i), s)) && Eval(StringConstant(t), s, f, fuel) == Ok((StringV(t), s))
  {}

  /** One statement that ends normally, then the others. */
  lemma {:induction false} Next(c: Stmt, cs: seq<Stmt>, s: Store, s1: Store, f: nat, fuel: nat)
    requires Exec(c, s, f, fuel) == Ok((Normal, s1))
    ensures ExecBlock([c] + cs, s, f, fuel) == ExecBlock(cs, s1, f, fuel)
  {
    assert ([c] + cs)[0] == c && ([c] + cs)[1..] == cs;
  }

  lemma {:induction false} ReturnNumber(i: int, s: Store, f: nat, fuel: nat)
    ensures ExecBlock(Gives(i), s, f, fuel) == Ok((Returned(IntegerV(i)), s))
  {
    var c := Stmt.Return(Number(i));
    assert Eval(Number(i), s, f, fuel) == Ok((IntegerV(i), s));
    assert Exec(c, s, f, fuel) == ExecReturn(c, s, f, fuel);
    assert Gives(i)[0] == c;
  }

  lemma {:induction false} OneArg(e: Expr, v: Value, s: Store, f: nat, fuel: nat)
    requires Eval(e, s, f, fuel) == Ok((v, s))
    ensures EvalArgs([e], s, f, fuel) == Ok(([v], s))
  {
    assert EvalArgs([e][1..], s, f, fuel) == Ok(([], s));
    assert [v] + [] == [v];
  }

  /** The store after a line is printed. */
  function Printed(s: Store, v: Value, line: string): Store {
    s.(frames := s.frames + [Frame(map["s" := v], None, {})], out := s.out + [line])
  }

  lemma {:induction false} PrintRuns(e: Expr, v: Value, line: string, s: Store, vars: map<string, Value>, f: nat, fuel: nat)
    requires Globals(s, vars) && "print" in vars && vars["print"] == NativeV(Print) && SeesGlobal(s, f, "print")
    requires Eval(e, s, f, fuel) == Ok((v, s)) && Cast(v, s) == Ok(line) && fuel > 0
    ensures Exec(PrintStmt(e), s, f, fuel) == Ok((Normal, Printed(s, v, line)))
  {
    hide StringCast;
    var call := Expr.Call(Var("print"), [e]);
    ReadGlobal("print", s, vars, f, fuel);
    OneArg(e, v, s, f, fuel);
    assert Apply(NativeV(Print), [v], s, fuel - 1) == Ok((NoneV, Printed(s, v, line)));
    assert Eval(call, s, f, fuel) == EvalCall(call, s, f, fuel) == Ok((NoneV, Printed(s, v, line)));
    assert Exec(PrintStmt(e), s, f, fuel) == ExecCallStmt(PrintStmt(e), s, f, fuel);
  }

  lemma {:induction false} AssignGlobal(x: string, e: Expr, v: Value, s: Store, s1: Store, vars: map<string, Value>, fuel: nat)
    requires s.frames != [] && x !in s.frames[0].globals && Eval(e, s, 0, fuel) == Ok((v, s1)) && Globals(s1, vars)
    ensures Exec(AssignVar(x, e), s, 0, fuel) == Ok((Normal, WriteVar(s1, 0, x, v)))
    ensures Globals(WriteVar(s1, 0, x, v), vars[x := v])
  {
    hide Eval;
    assert Exec(AssignVar(x, e), s, 0, fuel) == ExecAssignVar(AssignVar(x, e), s, 0, fuel);
  }

  /** A call of a closure made in the program's frame, whose body returns. */
  lemma {:induction false} CallRuns(g: string, ps: seq<string>, body: seq<Stmt>, args: seq<Expr>, vs: seq<Value>, s: Store,
      vars: map<string, Value>, fr: Frame, v: Value, s2: Store, fuel: nat)
    requires Globals(s, vars) && g in vars && vars[g] == FunctionV(0, ps, body)
    requires EvalArgs(args, s, 0, fuel) == Ok((vs, s)) && |vs| == |ps| && fuel > 0
    requires CallFrame(0, ps, body, vs) == fr
    requires ExecBlock(body, s.(frames := s.frames + [fr]), |s.frames|, fuel - 1) == Ok((Returned(v), s2))
    ensures Eval(Expr.Call(Var(g), args), s, 0, fuel) == Ok((v, s2))
  {
    hide EvalArgs, ExecBlock, CallFrame;
    var call := Expr.Call(Var(g), args);
    ReadGlobal(g, s, vars, 0, fuel);
    assert Apply(vars[g], vs, s, fuel - 1) == Ok((v, s2));
    assert Eval(call, s, 0, fuel) == EvalCall(call, s, 0, fuel);
  }

  // ---------------------------------------------------------------- f("a") < f("b")

  lemma {:induction false} SayFrame(t: string)
    ensures CallFrame(0, ["s"], SAY_BODY, [StringV(t)]) == Frame(map["s" := StringV(t)], Some(0), {})
  {
    ReadSayBody(SAY_CONDITIONS, {"print"});
    assert BindParams(["s"][1..], [StringV(t)][1..], map["s" := StringV(t)]) == map["s" := StringV(t)];
  }

  lemma {:induction false} SayPrints(t: string, s: Store, vars: map<string, Value>)
    requires Globals(s, vars) && "print" in vars && vars["print"] == NativeV(Print)
    requires "f" in vars && vars["f"] == FunctionV(0, ["s"], SAY_BODY)
    ensures var r := Eval(Say(t), s, 0, 2);
      && r.Ok? && r.value.0 == IntegerV(1) && r.value.1.out == s.out + [t] && Globals(r.value.1, vars)
  {
    hide Eval, ExecBlock, CallFrame, Exec, Gives;
    var fr := Frame(map["s" := StringV(t)], Some(0), {});
    var s1, f := s.(frames := s.frames + [fr]), |s.frames|;
    SayFrame(t);
    ReadLocal("s", s1, f, 1);
    PrintRuns(Var("s"), StringV(t), t, s1, vars, f, 1);
    var s2 := Printed(s1, StringV(t), t);
    Next(PrintStmt(Var("s")), Gives(1), s1, s2, f, 1);
    ReturnNumber(1, s2, f, 1);
    EvalConstant(0, t, s, 0, 2);
    OneArg(StringConstant(t), StringV(t), s, 0, 2);
    CallRuns("f", ["s"], SAY_BODY, [StringConstant(t)], [StringV(t)], s, vars, fr, IntegerV(1), s2, 2);
  }

  lemma {:induction false} LessRuns(l: Expr, r: Expr, s: Store, s1: Store, s2: Store, lv: int, rv: int, fuel: nat)
    requires s.rules == AsWritten ==> Eval(l, s, 0, fuel) == Ok((IntegerV(lv), s1)) && Eval(r, s1, 0, fuel) == Ok((IntegerV(rv), s2))
    requires s.rules == AsCompiled ==> Eval(r, s, 0, fuel) == Ok((IntegerV(rv), s1)) && Eval(l, s1, 0, fuel) == Ok((IntegerV(lv), s2))
    ensures Eval(Binary(l, LT, r), s, 0, fuel) == Ok((BoolV(lv < rv), s2))
  {
    assert Eval(Binary(l, LT, r), s, 0, fuel) == EvalBinary(Binary(l, LT, r), s, 0, fuel);
  }

  /** The program's first literal, assigned to a global. */
  lemma {:induction false} Define(f: string, ps: seq<string>, body: seq<Stmt>, s: Store, vars: map<string, Value>, fuel: nat) returns (s1: Store)
    requires Globals(s, vars)
    ensures s1 == WriteVar(s, 0, f, FunctionV(0, ps, body)) && Globals(s1, vars[f := FunctionV(0, ps, body)])
    ensures Exec(AssignVar(f, Fun(ps, body)), s, 0, fuel) == Ok((Normal, s1))
  {
    s1 := WriteVar(s, 0, f, FunctionV(0, ps, body));
    assert Eval(Fun(ps, body), s, 0, fuel) == Ok((FunctionV(0, ps, body), s));
    AssignGlobal(f, Fun(ps, body), FunctionV(0, ps, body), s, s, vars, fuel);
  }

  lemma {:induction false} Ends(program: seq<Stmt>, rules: Rules, s: Store, fuel: nat)
    requires ExecBlock(program, InitialStore(rules), 0, fuel) == ExecBlock([], s, 0, fuel)
    ensures RunBy(rules, program, fuel) == Ok(s)
  {}

  /** The tree-walker prints a and then b, compiled code b and then a. */
  lemma {:induction false} SayRuns(rules: Rules)
    ensures RunBy(rules, SAY, 2).Ok?
    ensures RunBy(rules, SAY, 2).value.out == if rules == AsWritten then ["a", "b"] else ["b", "a"]
  {
    hide Eval, ExecBlock, Exec, Say, Globals;
    var s0 := InitialStore(rules);
    StartsWithNatives(rules);
    var less := Binary(Say("a"), LT, Say("b"));
    var s1 := Define("f", ["s"], SAY_BODY, s0, NATIVES, 2);
    var vars := NATIVES["f" := FunctionV(0, ["s"], SAY_BODY)];
    Next(AssignVar("f", Fun(["s"], SAY_BODY)), [AssignVar("x", less)] + [], s0, s1, 0, 2);
    var first, second := if rules == AsWritten then "a" else "b", if rules == AsWritten then "b" else "a";
    SayPrints(first, s1, vars);
    var s2 := Eval(Say(first), s1, 0, 2).value.1;
    SayPrints(second, s2, vars);
    var s3 := Eval(Say(second), s2, 0, 2).value.1;
    LessRuns(Say("a"), Say("b"), s1, s2, s3, 1, 1, 2);
    NotDeclared(s1, vars, "x");
    NotDeclared(s3, vars, "x");
    AssignGlobal("x", less, BoolV(false), s1, s3, vars, 2);
    var s4 := WriteVar(s3, 0, "x", BoolV(false));
    Next(AssignVar("x", less), [], s1, s4, 0, 2);
    Ends(SAY, rules, s4, 2);
    assert [] + [first] + [second] == [first, second];
  }

  lemma {:induction false} StartsWithNatives(rules: Rules)
    ensures Globals(InitialStore(rules), NATIVES)
  {}

  lemma {:induction false} NotDeclared(s: Store, vars: map<string, Value>, x: string)
    requires Globals(s, vars)
    ensures s.frames != [] && s.frames[0].globals == {} && s.frames[0].vars == vars
  {}

  // ---------------------------------------------------------------- x < g() and g() < x

  lemma {:induction false} BumpFrame()
    ensures CallFrame(0, [], BUMP_BODY, []) == Frame(map["x" := NoneV], Some(0), {"x"})
  {
    ReadBumpBody(SAY_CONDITIONS, {"x"});
    assert (map x | x in AssignsOfBlock(BUMP_BODY) :: NoneV) == map["x" := NoneV];
    assert (set x | x in GlobalsOfBlock(BUMP_BODY)) == {"x"};
  }

  /** `g()` sets `x` to 5 and gives 3. */
  lemma {:induction false} BumpCalled(s: Store, vars: map<string, Value>) returns (s2: Store)
    requires Globals(s, vars) && "g" in vars && vars["g"] == FunctionV(0, [], BUMP_BODY)
    ensures Eval(BUMPED, s, 0, 2) == Ok((IntegerV(3), s2)) && Globals(s2, vars["x" := IntegerV(5)])
    ensures s2.out == s.out && s2.rules == s.rules
  {
    hide Eval, ExecBlock, CallFrame, Gives;
    var fr := Frame(map["x" := NoneV], Some(0), {"x"});
    var s1, f := s.(frames := s.frames + [fr]), |s.frames|;
    BumpFrame();
    var c1, c2 := Global("x"), AssignVar("x", Number(5));
    assert Exec(c1, s1, f, 1) == Ok((Normal, s1));
    Next(c1, [c2] + Gives(3), s1, s1, f, 1);
    EvalConstant(5, "", s1, f, 1);
    s2 := WriteVar(s1, 0, "x", IntegerV(5));
    assert Exec(c2, s1, f, 1) == ExecAssignVar(c2, s1, f, 1) == Ok((Normal, s2));
    Next(c2, Gives(3), s1, s2, f, 1);
    ReturnNumber(3, s2, f, 1);
    assert EvalArgs([], s, 0, 2) == Ok(([], s));
    CallRuns("g", [], BUMP_BODY, [], [], s, vars, fr, IntegerV(3), s2, 2);
  }

  /** The operands in the order in which `rules` runs them; `x` is read before or
      after it is 5. */
  lemma {:induction false} BumpLess(l: Expr, r: Expr, s: Store, vars: map<string, Value>) returns (s2: Store, less: bool)
    requires (l == Var("x") && r == BUMPED) || (l == BUMPED && r == Var("x"))
    requires Globals(s, vars) && "g" in vars && vars["g"] == FunctionV(0, [], BUMP_BODY) && "x" in vars && vars["x"] == IntegerV(1)
    ensures less <==> s.rules == AsWritten
    ensures Eval(Binary(l, LT, r), s, 0, 2) == Ok((BoolV(less), s2)) && Globals(s2, vars["x" := IntegerV(5)])
    ensures s2.out == s.out && s2.rules == s.rules
  {
    hide Eval;
    s2 := BumpCalled(s, vars);
    less := s.rules == AsWritten;
    ReadGlobal("x", s, vars, 0, 2);
    ReadGlobal("x", s2, vars["x" := IntegerV(5)], 0, 2);
    if (l == Var("x")) == (s.rules == AsWritten) {
      LessRuns(l, r, s, s, s2, if l == Var("x") then 1 else 3, if l == Var("x") then 3 else 1, 2);
    } else {
      LessRuns(l, r, s, s2, s2, if l == Var("x") then 5 else 3, if l == Var("x") then 3 else 5, 2);
    }
  }

  function Truth(b: bool): string { if b then "true" else "false" }

  /** The comparison holds in the tree-walker and fails in compiled code. */
  lemma {:induction false} BumpRuns(l: Expr, r: Expr, rules: Rules)
    requires (l == Var("x") && r == BUMPED) || (l == BUMPED && r == Var("x"))
    ensures RunBy(rules, Bump(l, r), 2).Ok?
    ensures RunBy(rules, Bump(l, r), 2).value.out == [Truth(rules == AsWritten)]
  {
    hide Eval, ExecBlock, Exec, Globals, StringCast;
    var s0, b := InitialStore(rules), Binary(l, LT, r);
    StartsWithNatives(rules);
    var c1, c2, c3, c4 := AssignVar("x", Number(1)), AssignVar("g", Fun([], BUMP_BODY)), AssignVar("y", b), PrintStmt(Var("y"));
    EvalConstant(1, "", s0, 0, 2);
    NotDeclared(s0, NATIVES, "x");
    AssignGlobal("x", Number(1), IntegerV(1), s0, s0, NATIVES, 2);
    var s1, v1 := WriteVar(s0, 0, "x", IntegerV(1)), NATIVES["x" := IntegerV(1)];
    Next(c1, [c2] + ([c3] + ([c4] + [])), s0, s1, 0, 2);
    var s2 := Define("g", [], BUMP_BODY, s1, v1, 2);
    var v2 := v1["g" := FunctionV(0, [], BUMP_BODY)];
    Next(c2, [c3] + ([c4] + []), s1, s2, 0, 2);
    var s3, less := BumpLess(l, r, s2, v2);
    var v3 := v2["x" := IntegerV(5)];
    NotDeclared(s2, v2, "y");
    NotDeclared(s3, v3, "y");
    AssignGlobal("y", b, BoolV(less), s2, s3, v3, 2);
    var s4, v4 := WriteVar(s3, 0, "y", BoolV(less)), v3["y" := BoolV(less)];
    Next(c3, [c4] + [], s2, s4, 0, 2);
    RendersSimply(less, s4.records);
    PrintGlobal("y", BoolV(less), Truth(less), s4, v4);
    var s5 := Printed(s4, BoolV(less), Truth(less));
    Next(c4, [], s4, s5, 0, 2);
    Ends(Bump(l, r), rules, s5, 2);
    assert [] + [Truth(less)] == [Truth(less)];
  }

  lemma {:induction false} RendersSimply(b: bool, records: seq<map<string, Value>>)
    ensures StringCast(BoolV(b), records, {}) == Some(Truth(b))
    ensures StringCast(IntegerV(5), records, {}) == Some("5") && StringCast(IntegerV(7), records, {}) == Some("7")
    ensures StringCast(NoneV, records, {}) == Some("None")
  {}

  lemma {:induction false} PrintGlobal(x: string, v: Value, line: string, s: Store, vars: map<string, Value>)
    requires Globals(s, vars) && "print" in vars && vars["print"] == NativeV(Print) && x in vars && vars[x] == v
    requires StringCast(v, s.records, {}) == Some(line)
    ensures Exec(PrintStmt(Var(x)), s, 0, 2) == Ok((Normal, Printed(s, v, line)))
  {
    hide Eval, Exec, StringCast;
    ReadGlobal(x, s, vars, 0, 2);
    PrintRuns(Var(x), v, line, s, vars, 0, 2);
  }

  // ---------------------------------------------------------------- a parameter declared global

  lemma {:induction false} ShadowFrame()
    ensures CallFrame(0, ["x"], SHADOW_BODY, [IntegerV(5)]) == Frame(map["x" := IntegerV(5)], Some(0), {"x"})
  {
    ReadShadowBody(SAY_CONDITIONS, {"x", "print"});
    assert BindParams(["x"][1..], [IntegerV(5)][1..], map["x" := IntegerV(5)]) == map["x" := IntegerV(5)];
    assert (set x | x in GlobalsOfBlock(SHADOW_BODY)) == {"x"};
  }

  lemma {:induction false} ReadShadowed(s: Store, vars: map<string, Value>, f: nat, v: Value) returns (s1: Store)
    requires Globals(s, vars) && "x" !in vars && 0 < f < |s.frames| && s.frames[f] == Frame(map["x" := IntegerV(5)], Some(0), {"x"})
    requires v == if s.rules == AsWritten then IntegerV(5) else NoneV
    ensures Eval(Var("x"), s, f, 1) == Ok((v, s1)) && s1 == s.(strayed := s1.strayed)
  {
    assert LookupRead(s, f, "x") == Some(IntegerV(5)) && LookupCompiled(s, f, "x") == NoneV;
    s1 := Eval(Var("x"), s, f, 1).value.1;
  }

  /** The body prints the parameter, or the global that was never stored. */
  lemma {:induction false} ShadowBodyRuns(s: Store, vars: map<string, Value>, f: nat, line: string) returns (s2: Store)
    requires Globals(s, vars) && "x" !in vars && 0 < f < |s.frames| && s.frames[f] == Frame(map["x" := IntegerV(5)], Some(0), {"x"})
    requires "print" in vars && vars["print"] == NativeV(Print)
    requires line == if s.rules == AsWritten then "5" else "None"
    ensures ExecBlock(SHADOW_BODY, s, f, 1) == Ok((Returned(IntegerV(0)), s2)) && s2.out == s.out + [line]
  {
    hide Eval, ExecBlock, Gives, StringCast;
    var v, call := if s.rules == AsWritten then IntegerV(5) else NoneV, Expr.Call(Var("print"), [Var("x")]);
    var c1, c2 := Global("x"), PrintStmt(Var("x"));
    assert Exec(c1, s, f, 1) == Ok((Normal, s));
    Next(c1, [c2] + Gives(0), s, s, f, 1);
    ReadGlobal("print", s, vars, f, 1);
    var s1 := ReadShadowed(s, vars, f, v);
    RendersSimply(true, s1.records);
    OneArgThen(Var("x"), v, s, s1, f, 1);
    s2 := Printed(s1, v, line);
    assert Apply(NativeV(Print), [v], s1, 0) == Ok((NoneV, s2));
    CallIsEvalCall(call, s, f, 1);
    assert Exec(c2, s, f, 1) == ExecCallStmt(c2, s, f, 1) == Ok((Normal, s2));
    Next(c2, Gives(0), s, s2, f, 1);
    ReturnNumber(0, s2, f, 1);
  }

  lemma {:induction false} CallIsEvalCall(e: Expr, s: Store, f: nat, fuel: nat)
    requires e.Call?
    ensures Eval(e, s, f, fuel) == EvalCall(e, s, f, fuel)
  {}

  lemma {:induction false} OneArgThen(e: Expr, v: Value, s: Store, s1: Store, f: nat, fuel: nat)
    requires Eval(e, s, f, fuel) == Ok((v, s1))
    ensures EvalArgs([e], s, f, fuel) == Ok(([v], s1))
  {
    assert EvalArgs([e][1..], s1, f, fuel) == Ok(([], s1));
    assert [v] + [] == [v];
  }

  /** `f(5)` prints 5 in the tree-walker and None in compiled code. */
  lemma {:induction false} ShadowRuns(rules: Rules)
    ensures RunBy(rules, SHADOW, 2).Ok?
    ensures RunBy(rules, SHADOW, 2).value.out == [if rules == AsWritten then "5" else "None"]
  {
    hide Eval, ExecBlock, Exec, CallFrame;
    var line := if rules == AsWritten then "5" else "None";
    var s0, call := InitialStore(rules), Expr.Call(Var("f"), [Number(5)]);
    StartsWithNatives(rules);
    var c1, c2 := AssignVar("f", Fun(["x"], SHADOW_BODY)), CallStmt(call);
    var s1 := Define("f", ["x"], SHADOW_BODY, s0, NATIVES, 2);
    var vars := NATIVES["f" := FunctionV(0, ["x"], SHADOW_BODY)];
    Next(c1, [c2] + [], s0, s1, 0, 2);
    var fr := Frame(map["x" := IntegerV(5)], Some(0), {"x"});
    ShadowFrame();
    EvalConstant(5, "", s1, 0, 2);
    OneArg(Number(5), IntegerV(5), s1, 0, 2);
    var s2 := ShadowBodyRuns(s1.(frames := s1.frames + [fr]), vars, |s1.frames|, line);
    CallRuns("f", ["x"], SHADOW_BODY, [Number(5)], [IntegerV(5)], s1, vars, fr, IntegerV(0), s2, 2);
    CallStmtRuns(call, IntegerV(0), s1, s2);
    Next(c2, [], s1, s2, 0, 2);
    Ends(SHADOW, rules, s2, 2);
  }

  lemma {:induction false} CallStmtRuns(e: Expr, v: Value, s: Store, s1: Store)
    requires Eval(e, s, 0, 2) == Ok((v, s1))
    ensures Exec(CallStmt(e), s, 0, 2) == Ok((Normal, s1))
  {
    hide Eval;
    assert Exec(CallStmt(e), s, 0, 2) == ExecCallStmt(CallStmt(e), s, 0, 2);
  }

  // ---------------------------------------------------------------- a loop that does not run

  /** The tree-walker gives None for the body that never reaches its return. */
  lemma {:induction false} LoopRuns()
    ensures Run(LOOP, 2).Ok? && Run(LOOP, 2).value.out == []
  {
    hide Eval, ExecBlock, Exec, Gives;
    var s0, call := InitialStore(AsWritten), Expr.Call(Var("f"), []);
    StartsWithNatives(AsWritten);
    var c1, c2 := AssignVar("f", Fun([], LOOP_BODY)), CallStmt(call);
    var s1 := Define("f", [], LOOP_BODY, s0, NATIVES, 2);
    var vars := NATIVES["f" := FunctionV(0, [], LOOP_BODY)];
    Next(c1, [c2] + [], s0, s1, 0, 2);
    var s2 := s1.(frames := s1.frames + [CallFrame(0, [], LOOP_BODY, [])]);
    LoopBodyRuns(s2, |s1.frames|);
    ReadGlobal("f", s1, vars, 0, 2);
    assert EvalArgs([], s1, 0, 2) == Ok(([], s1));
    assert Apply(vars["f"], [], s1, 1) == Ok((NoneV, s2));
    CallIsEvalCall(call, s1, 0, 2);
    CallStmtRuns(call, NoneV, s1, s2);
    Next(c2, [], s1, s2, 0, 2);
    Ends(LOOP, AsWritten, s2, 2);
  }

  lemma {:induction false} LoopBodyRuns(s: Store, f: nat)
    ensures ExecBlock(LOOP_BODY, s, f, 1) == Ok((Normal, s))
  {
    hide Gives;
    var loop := While(BooleanConstant(false), Gives(1));
    assert Eval(loop.cond, s, f, 1) == Ok((BoolV(false), s));
    assert Exec(loop, s, f, 1) == ExecWhile(loop, s, f, 1) == Ok((Normal, s));
    Next(loop, [], s, s, f, 1);
  }

  // ---------------------------------------------------------------- a name nobody binds

  /** The tree-walker never looks at a name in a function nobody calls. */
  lemma {:induction false} DanglingRuns()
    ensures Run(DANGLING, 2).Ok? && Run(DANGLING, 2).value.out == []
  {
    hide Eval, ExecBlock, Exec;
    var s0, c := InitialStore(AsWritten), AssignVar("f", Fun([], DANGLING_BODY));
    StartsWithNatives(AsWritten);
    var s1 := Define("f", [], DANGLING_BODY, s0, NATIVES, 2);
    Next(c, [], s0, s1, 0, 2);
    Ends(DANGLING, AsWritten, s1, 2);
  }

  // ---------------------------------------------------------------- a record as the index of a store

  /** The globals of `MARK` and its two records, `i` (record 0) and `r` (record 1). */
  const MARK_VARS: map<string, Value> :=
    NATIVES["i" := RecordV(0)]["r" := RecordV(1)]["f" := FunctionV(0, [], MARK_BODY)]

  ghost predicate Marking(s: Store, i: map<string, Value>) {
    Globals(s, MARK_VARS) && |s.records| == 2 && s.records[0] == i && s.records[1] == map[] && s.out == []
  }

  lemma {:induction false} NewRecord(x: string, s: Store, vars: map<string, Value>) returns (s1: Store)
    requires Globals(s, vars)
    ensures Exec(AssignVar(x, Expr.Record([])), s, 0, 2) == Ok((Normal, s1))
    ensures Globals(s1, vars[x := RecordV(|s.records|)])
    ensures s1.records == s.records + [map[]] && s1.out == s.out && s1.rules == s.rules
  {
    var e, s' := Expr.Record([]), s.(records := s.records + [map[]]);
    assert Eval(e, s, 0, 2) == EvalRecord(e, s, 0, 2) == Ok((RecordV(|s.records|), s'));
    AssignGlobal(x, e, RecordV(|s.records|), s, s', vars, 2);
    s1 := WriteVar(s', 0, x, RecordV(|s.records|));
  }

  lemma {:induction false} MarkStarts(rules: Rules) returns (s: Store)
    ensures Marking(s, map[]) && s.rules == rules
    ensures ExecBlock(MARK, InitialStore(rules), 0, 2) ==
      ExecBlock([AssignIndex(Var("r"), Var("i"), Expr.Call(Var("f"), []))] + ([PrintStmt(Index(Var("r"), StringConstant("{}")))] + []), s, 0, 2)
  {
    hide Eval, ExecBlock, Exec;
    var s0, e := InitialStore(rules), Expr.Record([]);
    StartsWithNatives(rules);
    var c1, c2, c3 := AssignVar("i", e), AssignVar("r", e), AssignVar("f", Fun([], MARK_BODY));
    var tail := [AssignIndex(Var("r"), Var("i"), Expr.Call(Var("f"), []))] + ([PrintStmt(Index(Var("r"), StringConstant("{}")))] + []);
    var s1 := NewRecord("i", s0, NATIVES);
    Next(c1, [c2] + ([c3] + tail), s0, s1, 0, 2);
    var s2 := NewRecord("r", s1, NATIVES["i" := RecordV(0)]);
    Next(c2, [c3] + tail, s1, s2, 0, 2);
    s := Define("f", [], MARK_BODY, s2, NATIVES["i" := RecordV(0)]["r" := RecordV(1)], 2);
    Next(c3, tail, s2, s, 0, 2);
  }

  lemma {:induction false} MarkFrame()
    ensures CallFrame(0, [], MARK_BODY, []) == Frame(map[], Some(0), {})
  {
    ReadMarkBody(MARK_CONDITIONS, {"i"});
  }

  /** `f()` writes field `a` of record `i` and gives 7. */
  lemma {:induction false} MarkCalled(s: Store) returns (s2: Store)
    requires Marking(s, map[])
    ensures Eval(Expr.Call(Var("f"), []), s, 0, 2) == Ok((IntegerV(7), s2))
    ensures Marking(s2, map["a" := IntegerV(2)]) && s2.rules == s.rules
  {
    hide Eval, ExecBlock, CallFrame, Gives;
    var fr := Frame(map[], Some(0), {});
    var s1, f := s.(frames := s.frames + [fr]), |s.frames|;
    MarkFrame();
    var c := AssignField(Var("i"), "a", Number(2));
    ReadGlobal("i", s1, MARK_VARS, f, 1);
    EvalConstant(2, "", s1, f, 1);
    s2 := WriteRecord(s1, 0, "a", IntegerV(2));
    assert map[]["a" := IntegerV(2)] == map["a" := IntegerV(2)];
    assert Exec(c, s1, f, 1) == ExecAssignField(c, s1, f, 1) == Ok((Normal, s2));
    Next(c, Gives(7), s1, s2, f, 1);
    ReturnNumber(7, s2, f, 1);
    assert EvalArgs([], s, 0, 2) == Ok(([], s));
    CallRuns("f", [], MARK_BODY, [], [], s, MARK_VARS, fr, IntegerV(7), s2, 2);
  }

  /** Record `i` renders as `{}` before the call, and as something else after. */
  lemma {:induction false} MarkRenders(s: Store) returns (name: string)
    ensures Marking(s, map[]) ==> Cast(RecordV(0), s) == Ok("{}")
    ensures Marking(s, map["a" := IntegerV(2)]) ==> Cast(RecordV(0), s) == Ok(name) && name != "{}"
  {
    name := "";
    if Marking(s, map[]) {
      assert KeysInOrder(s.records[0].Keys) == [];
      assert CastFields([], s.records[0], s.records, {} + {0}) == Some("");
      assert "{" + "" + "}" == "{}";
      assert "a" !in s.records[0] && "a" in map["a" := IntegerV(2)];
    } else if Marking(s, map["a" := IntegerV(2)]) {
      var m := s.records[0];
      OneKey("a", m.Keys);
      assert ["a"][1..] == [] && CastFields([], m, s.records, {} + {0}) == Some("");
      assert StringCast(IntegerV(2), s.records, {} + {0}) == Some("2");
      assert CastFields(["a"], m, s.records, {} + {0}) == Some("a" + ":" + "2" + " " + "");
      name := "{" + ("a" + ":" + "2" + " " + "") + "}";
      assert KeysInOrder(m.Keys) == ["a"];
      assert StringCast(RecordV(0), s.records, {}) == Some(name);
      assert |name| == 6 && |"{}"| == 2;
    }
  }

  lemma {:induction false} OneKey(x: string, keys: set<string>)
    requires keys == {x}
    ensures KeysInOrder(keys) == [x]
  {
    LeqTotal(x, x);
    SortedEnumerationIsUnique([x], keys);
  }

  lemma {:induction false} MarkStored(s: Store) returns (s4: Store)
    requires Marking(s, map[])
    ensures Exec(AssignIndex(Var("r"), Var("i"), Expr.Call(Var("f"), [])), s, 0, 2) == Ok((Normal, s4))
    ensures Globals(s4, MARK_VARS) && |s4.records| == 2 && s4.out == []
    ensures s.rules == AsWritten ==> s4.records[1] == map["{}" := IntegerV(7)]
    ensures s.rules == AsCompiled ==> "{}" !in s4.records[1]
  {
    hide Eval, StringCast;
    var c := AssignIndex(Var("r"), Var("i"), Expr.Call(Var("f"), []));
    ReadGlobal("r", s, MARK_VARS, 0, 2);
    ReadGlobal("i", s, MARK_VARS, 0, 2);
    var s3 := MarkCalled(s);
    var before := MarkRenders(s);
    var after := MarkRenders(s3);
    assert Exec(c, s, 0, 2) == ExecAssignIndex(c, s, 0, 2);
    s4 := Exec(c, s, 0, 2).value.1;
  }

  /** `print(r["{}"])` prints 7 in the tree-walker and None in compiled code. */
  lemma {:induction false} MarkRuns(rules: Rules)
    ensures RunBy(rules, MARK, 2).Ok?
    ensures RunBy(rules, MARK, 2).value.out == [if rules == AsWritten then "7" else "None"]
  {
    hide Eval, ExecBlock, Exec, StringCast;
    var line, v := if rules == AsWritten then "7" else "None", if rules == AsWritten then IntegerV(7) else NoneV;
    var read := Index(Var("r"), StringConstant("{}"));
    var c4, c5 := AssignIndex(Var("r"), Var("i"), Expr.Call(Var("f"), [])), PrintStmt(read);
    var s := MarkStarts(rules);
    var s4 := MarkStored(s);
    Next(c4, [c5] + [], s, s4, 0, 2);
    ReadGlobal("r", s4, MARK_VARS, 0, 2);
    EvalConstant(0, "{}", s4, 0, 2);
    ReadMarked(s4, v);
    RendersSimply(true, s4.records);
    PrintRuns(read, v, line, s4, MARK_VARS, 0, 2);
    var s5 := Printed(s4, v, line);
    Next(c5, [], s4, s5, 0, 2);
    Ends(MARK, rules, s5, 2);
  }

  lemma {:induction false} ReadMarked(s: Store, v: Value)
    requires Eval(Var("r"), s, 0, 2) == Ok((RecordV(1), s)) && Eval(StringConstant("{}"), s, 0, 2) == Ok((StringV("{}"), s))
    requires |s.records| == 2 && v == if "{}" in s.records[1] then s.records[1]["{}"] else NoneV
    ensures Eval(Index(Var("r"), StringConstant("{}")), s, 0, 2) == Ok((v, s))
  {
    var e := Index(Var("r"), StringConstant("{}"));
    assert Eval(e, s, 0, 2) == EvalIndex(e, s, 0, 2);
  }

  // ---------------------------------------------------------------- a global read too early

  /** The evaluator stops at the variable; compiled code prints None. */
  lemma {:induction false} LateRuns()
    ensures Run(LATE, 2) == Err(Unbound)
    ensures RunBy(AsCompiled, LATE, 2).Ok? && RunBy(AsCompiled, LATE, 2).value.out == ["None"]
  {
    hide StringCast;
    LateStops(InitialStore(AsWritten));
    LatePrints();
  }

  lemma {:induction false} LateStops(s: Store)
    requires s == InitialStore(AsWritten)
    ensures ExecBlock(LATE, s, 0, 2) == Err(Unbound)
  {
    var call := Expr.Call(Var("print"), [Var("x")]);
    StartsWithNatives(AsWritten);
    ReadGlobal("print", s, NATIVES, 0, 2);
    assert LookupRead(s, 0, "x") == None;
    assert Eval(Var("x"), s, 0, 2) == EvalVar(Var("x"), s, 0, 2) == Err(Unbound);
    assert EvalArgs([Var("x")], s, 0, 2) == Err(Unbound);
    assert Eval(call, s, 0, 2) == EvalCall(call, s, 0, 2) == Err(Unbound);
    assert Exec(CallStmt(call), s, 0, 2) == ExecCallStmt(CallStmt(call), s, 0, 2) == Err(Unbound);
    assert LATE[0] == CallStmt(call);
  }

  lemma {:induction false} LatePrints()
    ensures RunBy(AsCompiled, LATE, 2).Ok? && RunBy(AsCompiled, LATE, 2).value.out == ["None"]
  {
    hide Eval, ExecBlock, Exec;
    var s0, c1, c2 := InitialStore(AsCompiled), PrintStmt(Var("x")), AssignVar("x", Number(1));
    StartsWithNatives(AsCompiled);
    assert Eval(Var("x"), s0, 0, 2) == Ok((NoneV, s0)) by { NotStored(s0); }
    PrintRuns(Var("x"), NoneV, "None", s0, NATIVES, 0, 2);
    var s1 := Printed(s0, NoneV, "None");
    Next(c1, [c2] + [], s0, s1, 0, 2);
    NotDeclared(s0, NATIVES, "x");
    EvalConstant(1, "", s1, 0, 2);
    AssignGlobal("x", Number(1), IntegerV(1), s1, s1, NATIVES, 2);
    var s2 := WriteVar(s1, 0, "x", IntegerV(1));
    Next(c2, [], s1, s2, 0, 2);
    Ends(LATE, AsCompiled, s2, 2);
    assert [] + ["None"] == ["None"];
  }

  lemma {:induction false} NotStored(s: Store)
    requires s == InitialStore(AsCompiled)
    ensures Eval(Var("x"), s, 0, 2) == Ok((NoneV, s))
  {
    assert LookupCompiled(s, 0, "x") == NoneV;
    assert Eval(Var("x"), s, 0, 2) == EvalVar(Var("x"), s, 0, 2);
  }
}
