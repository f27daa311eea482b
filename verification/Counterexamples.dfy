/** One program for each condition of the compiler's correctness that breaks this
    condition and meets all the others. */
module Counterexamples {
  import opened Ast
  import opened TreeWalker
  import opened Scoping
  import N = NameResolution
  import opened Codegen

  // ---------------------------------------------------------------- programs

  function PrintStmt(e: Expr): Stmt { CallStmt(Expr.Call(Var("print"), [e])) }

  function Number(i: int): Expr { IntegerConstant(i) }

  function Gives(i: int): seq<Stmt> { [Stmt.Return(Number(i))] + [] }

  /** `f = fun(s) { print(s); return 1; }; x = f("a") < f("b");` */
  const SAY_BODY: seq<Stmt> := [PrintStmt(Var("s"))] + Gives(1)

  function Say(t: string): Expr { Expr.Call(Var("f"), [StringConstant(t)]) }

  const SAY: seq<Stmt> :=
    [AssignVar("f", Fun(["s"], SAY_BODY))] + ([AssignVar("x", Binary(Say("a"), LT, Say("b")))] + [])

  /** `x = 1; g = fun() { global x; x = 5; return 3; }; y = l < r; print(y);` where one
      operand is `x` and the other `g()`. */
  const BUMP_BODY: seq<Stmt> := [Global("x")] + ([AssignVar("x", Number(5))] + Gives(3))

  const BUMPED: Expr := Expr.Call(Var("g"), [])

  function Bump(l: Expr, r: Expr): seq<Stmt> {
    [AssignVar("x", Number(1))] + ([AssignVar("g", Fun([], BUMP_BODY))]
    + ([AssignVar("y", Binary(l, LT, r))] + ([PrintStmt(Var("y"))] + [])))
  }

  /** `f = fun(x) { global x; print(x); return 0; }; f(5);` */
  const SHADOW_BODY: seq<Stmt> := [Global("x")] + ([PrintStmt(Var("x"))] + Gives(0))

  const SHADOW: seq<Stmt> :=
    [AssignVar("f", Fun(["x"], SHADOW_BODY))] + ([CallStmt(Expr.Call(Var("f"), [Number(5)]))] + [])

  /** `i = {}; r = {}; f = fun() { i.a = 2; return 7; }; r[i] = f(); print(r["{}"]);` */
  const MARK_BODY: seq<Stmt> := [AssignField(Var("i"), "a", Number(2))] + Gives(7)

  const MARK: seq<Stmt> :=
    [AssignVar("i", Expr.Record([]))] + ([AssignVar("r", Expr.Record([]))] + ([AssignVar("f", Fun([], MARK_BODY))]
    + ([AssignIndex(Var("r"), Var("i"), Expr.Call(Var("f"), []))]
    + ([PrintStmt(Index(Var("r"), StringConstant("{}")))] + []))))

  /** `f = fun() { while (false) { return 1; } }; f();` */
  const LOOP_BODY: seq<Stmt> := [While(BooleanConstant(false), Gives(1))] + []

  const LOOP: seq<Stmt> := [AssignVar("f", Fun([], LOOP_BODY))] + ([CallStmt(Expr.Call(Var("f"), []))] + [])

  /** `f = fun() { return y; };` */
  const DANGLING_BODY: seq<Stmt> := [Stmt.Return(Var("y"))] + []

  const DANGLING: seq<Stmt> := [AssignVar("f", Fun([], DANGLING_BODY))] + []

  /** `print(x); x = 1;` */
  const LATE: seq<Stmt> := [PrintStmt(Var("x"))] + ([AssignVar("x", Number(1))] + [])

  // ---------------------------------------------------------------- reading a program

  /** What the passes say of a block, from its first statement. */
  lemma {:induction false} First(c: Stmt, cs: seq<Stmt>)
    ensures GlobalsOfBlock([c] + cs) == GlobalsOf(c) + GlobalsOfBlock(cs)
    ensures AssignsOfBlock([c] + cs) == AssignsOf(c) + AssignsOfBlock(cs)
    ensures FindReturnBlock([c] + cs) <==> FindReturn(c) || FindReturnBlock(cs)
    ensures MustReturnBlock([c] + cs) <==> MustReturn(c) || MustReturnBlock(cs)
    ensures IndexedBlock([c] + cs) <==> IndexedStmt(c) && IndexedBlock(cs)
    ensures N.OpenedBlock([c] + cs) == N.OpenedStmt(c) + N.OpenedBlock(cs)
  {
    hide GlobalsOf, AssignsOf, FindReturn, MustReturn, IndexedStmt, N.OpenedStmt;
    assert ([c] + cs)[0] == c && ([c] + cs)[1..] == cs;
  }

  /** ... and what the conditions say. */
  lemma {:induction false} FirstMeets(c: Stmt, cs: seq<Stmt>, d: Conditions, outer: set<string>, known: set<string>, around: N.Around)
    ensures WellFormedBlock([c] + cs, d) <==> WellFormedStmt(c, d) && WellFormedBlock(cs, d)
    ensures FreshBlock([c] + cs, outer) <==> FreshStmt(c, outer) && FreshBlock(cs, outer)
    ensures N.FreeBlock([c] + cs, known, around) ==
      N.FreeStmt(c, known, around) + N.FreeBlock(cs, known + N.OpenedStmt(c), around)
  {
    hide WellFormedStmt, FreshStmt, N.OpenedStmt, N.FreeStmt;
    assert ([c] + cs)[0] == c && ([c] + cs)[1..] == cs;
  }

  lemma {:induction false} ReadNothing(d: Conditions, outer: set<string>, known: set<string>, around: N.Around)
    ensures GlobalsOfBlock([]) == [] && AssignsOfBlock([]) == [] && !FindReturnBlock([]) && !MustReturnBlock([])
    ensures IndexedBlock([]) && N.OpenedBlock([]) == {}
    ensures WellFormedBlock([], d) && FreshBlock([], outer) && N.FreeBlock([], known, around) == {}
  {}

  lemma {:induction false} ReadGives(i: int, d: Conditions, outer: set<string>, known: set<string>, around: N.Around)
    ensures GlobalsOfBlock(Gives(i)) == [] && AssignsOfBlock(Gives(i)) == [] && FindReturnBlock(Gives(i)) && MustReturnBlock(Gives(i))
    ensures IndexedBlock(Gives(i)) && N.OpenedBlock(Gives(i)) == {}
    ensures WellFormedBlock(Gives(i), d) && FreshBlock(Gives(i), outer) && N.FreeBlock(Gives(i), known, around) == {}
  {
    hide WellFormedBlock, FreshBlock, IndexedBlock, GlobalsOfBlock, AssignsOfBlock, FindReturnBlock, MustReturnBlock, N.FreeBlock, N.OpenedBlock;
    var c := Stmt.Return(Number(i));
    assert Gives(i) == [c] + [];
    First(c, []);
    FirstMeets(c, [], d, outer, known, around);
    ReadNothing(d, outer, known + N.OpenedStmt(c), around);
  }

  /** An expression with no literals in it that meets everything and resolves. */
  ghost predicate Clear(e: Expr, d: Conditions, outer: set<string>, known: set<string>, around: N.Around) {
    Indexed(e) && N.Opened(e) == {} && WellFormed(e, d) && Fresh(e, outer) && N.Free(e, known, around) == {}
  }

  /** ... and a statement, assigning at most `xs` and declaring `gs`. */
  ghost predicate ClearStmt(c: Stmt, xs: seq<string>, gs: seq<string>, d: Conditions, outer: set<string>, known: set<string>, around: N.Around) {
    && IndexedStmt(c) && N.OpenedStmt(c) == (set x | x in gs) && WellFormedStmt(c, d) && FreshStmt(c, outer)
    && N.FreeStmt(c, known, around) == {} && GlobalsOf(c) == gs && AssignsOf(c) == xs && !FindReturn(c) && !MustReturn(c)
  }

  lemma {:induction false} ReadAtom(e: Expr, d: Conditions, outer: set<string>, known: set<string>, around: N.Around)
    requires e.IntegerConstant? || e.StringConstant? || (e.Var? && N.Use(e.name, known, around) == {})
    ensures Clear(e, d, outer, known, around)
  {}

  /** A call of a global with one argument at most. */
  lemma {:induction false} ReadCall(g: string, args: seq<Expr>, d: Conditions, outer: set<string>, known: set<string>, around: N.Around)
    requires N.Use(g, known, around) == {} && |args| <= 1 && (args != [] ==> Clear(args[0], d, outer, known, around))
    ensures Clear(Expr.Call(Var(g), args), d, outer, known, around)
    ensures KindOf(Expr.Call(Var(g), args)) == Calling
  {
    assert known + {} == known;
    if args != [] {
      assert args[1..] == [];
      assert N.OpenedArgs(args) == N.Opened(args[0]) + N.OpenedArgs([]) == {};
      assert N.FreeArgs(args, known, around) == N.Free(args[0], known, around) + N.FreeArgs([], known + {}, around) == {};
    }
    var e := Expr.Call(Var(g), args);
    assert N.Opened(e) == N.Opened(Var(g)) + N.OpenedArgs(args) == {};
    assert IndexedArgs(args) && WellFormedArgs(args, d) && FreshArgs(args, outer);
    assert N.Free(e, known, around) == N.Free(Var(g), known, around) + N.FreeArgs(args, known + {}, around);
  }

  lemma {:induction false} UseKnown(x: string, known: set<string>, ps: seq<string>, body: seq<Stmt>)
    ensures x in known ==> N.Use(x, known, N.Program) == {}
    ensures x in known && x !in ps && x !in AssignsOfBlock(body) ==> N.Use(x, known, N.AroundBody(ps, body, N.Program)) == {}
    ensures x in ps || x in GlobalsOfBlock(body) ==> N.Use(x, known, N.AroundBody(ps, body, N.Program)) == {}
  {
    hide GlobalsOfBlock, AssignsOfBlock;
  }

  lemma {:induction false} ReadPrint(e: Expr, d: Conditions, outer: set<string>, known: set<string>, around: N.Around)
    requires N.Use("print", known, around) == {} && Clear(e, d, outer, known, around)
    ensures ClearStmt(PrintStmt(e), [], [], d, outer, known, around)
  {
    ReadCall("print", [e], d, outer, known, around);
  }

  lemma {:induction false} ReadAssign(x: string, e: Expr, d: Conditions, outer: set<string>, known: set<string>, around: N.Around)
    requires N.Use(x, known, around) == {} && Clear(e, d, outer, known, around)
    ensures ClearStmt(AssignVar(x, e), [x], [], d, outer, known, around)
  {}

  lemma {:induction false} ReadLess(l: Expr, r: Expr, d: Conditions, outer: set<string>, known: set<string>, around: N.Around)
    requires Clear(l, d, outer, known, around) && Clear(r, d, outer, known, around) && (KindOf(l), KindOf(r)) in d.pairs
    ensures Clear(Binary(l, LT, r), d, outer, known, around)
  {
    hide KindOf;
    assert known + {} == known;
  }

  /** A clear statement, then a block. */
  lemma {:induction false} ReadNext(c: Stmt, cs: seq<Stmt>, xs: seq<string>, gs: seq<string>, d: Conditions, outer: set<string>,
      known: set<string>, around: N.Around)
    requires ClearStmt(c, xs, gs, d, outer, known, around) && (forall x :: x in gs ==> x in known)
    ensures WellFormedBlock([c] + cs, d) <==> WellFormedBlock(cs, d)
    ensures FreshBlock([c] + cs, outer) <==> FreshBlock(cs, outer)
    ensures N.FreeBlock([c] + cs, known, around) == N.FreeBlock(cs, known, around)
    ensures IndexedBlock([c] + cs) <==> IndexedBlock(cs)
    ensures GlobalsOfBlock([c] + cs) == gs + GlobalsOfBlock(cs) && AssignsOfBlock([c] + cs) == xs + AssignsOfBlock(cs)
    ensures N.OpenedBlock([c] + cs) == (set x | x in gs) + N.OpenedBlock(cs)
    ensures FindReturnBlock([c] + cs) <==> FindReturnBlock(cs)
    ensures MustReturnBlock([c] + cs) <==> MustReturnBlock(cs)
  {
    hide GlobalsOf, AssignsOf, FindReturn, MustReturn, IndexedStmt, WellFormedStmt, FreshStmt, N.OpenedStmt, N.FreeStmt;
    hide GlobalsOfBlock, AssignsOfBlock, FindReturnBlock, MustReturnBlock, IndexedBlock, WellFormedBlock, FreshBlock, N.OpenedBlock, N.FreeBlock;
    First(c, cs);
    FirstMeets(c, cs, d, outer, known, around);
    assert known + (set x | x in gs) == known;
  }

  /** A block is clear when its statements are. */
  ghost predicate ClearBlock(cs: seq<Stmt>, d: Conditions, outer: set<string>, known: set<string>, around: N.Around) {
    IndexedBlock(cs) && WellFormedBlock(cs, d) && FreshBlock(cs, outer) && N.FreeBlock(cs, known, around) == {}
  }

  /** A literal without literals in it, assigned in the program. */
  lemma {:induction false} ReadLiteral(f: string, ps: seq<string>, body: seq<Stmt>, gs: seq<string>, d: Conditions, known: set<string>)
    requires |ps| <= 1 && f in known && GlobalsOfBlock(body) == gs && N.OpenedBlock(body) == (set x | x in gs)
    requires d.returning && FindReturnBlock(body) ==> MustReturnBlock(body)
    requires ClearBlock(body, d, LocalsOf(ps, body), known + (set x | x in gs), N.AroundBody(ps, body, N.Program))
    ensures var c := AssignVar(f, Fun(ps, body));
      && IndexedStmt(c) && N.OpenedStmt(c) == (set x | x in gs) && WellFormedStmt(c, d)
      && (FreshStmt(c, {}) <==> forall x :: x in gs ==> x !in ps)
      && N.FreeStmt(c, known, N.Program) == {} && GlobalsOf(c) == [] && AssignsOf(c) == [f] && !FindReturn(c) && !MustReturn(c)
  {
    hide GlobalsOfBlock, AssignsOfBlock, FindReturnBlock, MustReturnBlock, N.FreeBlock, N.OpenedBlock, WellFormedBlock, FreshBlock,
      IndexedBlock, LocalsOf;
    assert {} + LocalsOf(ps, body) == LocalsOf(ps, body);
  }

  /** Everything but the conditions a program is there to break. */
  ghost predicate Meets(program: seq<Stmt>, d: Conditions) {
    && WellFormedBlock(program, d) && (d.scoped ==> FreshBlock(program, {})) && (d.indexed ==> IndexedBlock(program))
    && (d.resolved ==> N.Unresolved(program) == {})
  }

  const SAY_CONDITIONS := Conditions(true, {(Calling, Calling)}, true, true, true)

  lemma {:induction false} ReadSayBody(d: Conditions, known: set<string>)
    requires "print" in known
    ensures GlobalsOfBlock(SAY_BODY) == [] && AssignsOfBlock(SAY_BODY) == [] && MustReturnBlock(SAY_BODY) && N.OpenedBlock(SAY_BODY) == {}
    ensures ClearBlock(SAY_BODY, d, LocalsOf(["s"], SAY_BODY), known, N.AroundBody(["s"], SAY_BODY, N.Program))
  {
    hide WellFormedBlock, FreshBlock, IndexedBlock, N.FreeBlock, N.OpenedBlock, GlobalsOfBlock, AssignsOfBlock, ClearStmt, MustReturnBlock;
    var outer, around := LocalsOf(["s"], SAY_BODY), N.AroundBody(["s"], SAY_BODY, N.Program);
    First(PrintStmt(Var("s")), Gives(1));
    ReadGives(1, d, outer, known, around);
    UseKnown("print", known, ["s"], SAY_BODY);
    UseKnown("s", known, ["s"], SAY_BODY);
    ReadAtom(Var("s"), d, outer, known, around);
    ReadPrint(Var("s"), d, outer, known, around);
    ReadNext(PrintStmt(Var("s")), Gives(1), [], [], d, outer, known, around);
  }

  lemma {:induction false} SayMeets()
    ensures Meets(SAY, SAY_CONDITIONS)
  {
    hide WellFormedBlock, FreshBlock, IndexedBlock, N.FreeBlock, N.OpenedBlock, GlobalsOfBlock, AssignsOfBlock, ClearStmt, FindReturnBlock,
      MustReturnBlock, N.Use, LocalsOf, Clear;
    var d, less := SAY_CONDITIONS, Binary(Say("a"), LT, Say("b"));
    var c1, c2 := AssignVar("f", Fun(["s"], SAY_BODY)), AssignVar("x", less);
    First(c1, [c2] + []);
    First(c2, []);
    var known := set x | x in NATIVE_NAMES + GlobalsOfBlock(SAY) + AssignsOfBlock(SAY);
    ReadNothing(d, {}, known, N.Program);
    assert "f" in AssignsOfBlock(SAY) && "x" in AssignsOfBlock(SAY) && "print" in known;
    assert known + {} == known && (set x: string | x in []) == {};
    ReadSayBody(d, known);
    ReadLiteral("f", ["s"], SAY_BODY, [], d, known);
    UseKnown("f", known, [], []);
    UseKnown("x", known, [], []);
    ReadAtom(StringConstant("a"), d, {}, known, N.Program);
    ReadAtom(StringConstant("b"), d, {}, known, N.Program);
    ReadCall("f", [StringConstant("a")], d, {}, known, N.Program);
    ReadCall("f", [StringConstant("b")], d, {}, known, N.Program);
    ReadLess(Say("a"), Say("b"), d, {}, known, N.Program);
    ReadAssign("x", less, d, {}, known, N.Program);
    ReadNext(c2, [], ["x"], [], d, {}, known, N.Program);
    FirstMeets(c1, [c2] + [], d, {}, known, N.Program);
    assert known + {} == known;
  }

  lemma {:induction false} ReadDeclaration(x: string, d: Conditions, outer: set<string>, known: set<string>, around: N.Around)
    ensures ClearStmt(Global(x), [], [x], d, outer, known, around)
  {}

  lemma {:induction false} ReadBumpBody(d: Conditions, known: set<string>)
    requires "x" in known
    ensures GlobalsOfBlock(BUMP_BODY) == ["x"] && AssignsOfBlock(BUMP_BODY) == ["x"] && MustReturnBlock(BUMP_BODY)
    ensures N.OpenedBlock(BUMP_BODY) == (set x | x in ["x"])
    ensures ClearBlock(BUMP_BODY, d, LocalsOf([], BUMP_BODY), known, N.AroundBody([], BUMP_BODY, N.Program))
  {
    hide WellFormedBlock, FreshBlock, IndexedBlock, N.FreeBlock, N.OpenedBlock, GlobalsOfBlock, AssignsOfBlock, ClearStmt, MustReturnBlock, Clear;
    var c1, c2 := Global("x"), AssignVar("x", Number(5));
    var outer, around := LocalsOf([], BUMP_BODY), N.AroundBody([], BUMP_BODY, N.Program);
    First(c1, [c2] + Gives(3));
    First(c2, Gives(3));
    ReadGives(3, d, outer, known, around);
    assert "x" in GlobalsOfBlock(BUMP_BODY);
    UseKnown("x", known, [], BUMP_BODY);
    ReadDeclaration("x", d, outer, known, around);
    ReadAtom(Number(5), d, outer, known, around);
    ReadAssign("x", Number(5), d, outer, known, around);
    ReadNext(c2, Gives(3), ["x"], [], d, outer, known, around);
    ReadNext(c1, [c2] + Gives(3), [], ["x"], d, outer, known, around);
  }

  function BumpConditions(l: Expr, r: Expr): Conditions {
    Conditions(true, {(KindOf(l), KindOf(r))}, true, true, true)
  }

  lemma {:induction false} ReadBumpTail(l: Expr, r: Expr, d: Conditions, known: set<string>)
    requires (l == Var("x") && r == BUMPED) || (l == BUMPED && r == Var("x"))
    requires "x" in known && "g" in known && "y" in known && "print" in known && (KindOf(l), KindOf(r)) in d.pairs
    ensures var tail := [AssignVar("y", Binary(l, LT, r))] + ([PrintStmt(Var("y"))] + []);
      ClearBlock(tail, d, {}, known, N.Program) && GlobalsOfBlock(tail) == [] && AssignsOfBlock(tail) == ["y"]
  {
    hide WellFormedBlock, FreshBlock, IndexedBlock, N.FreeBlock, N.OpenedBlock, GlobalsOfBlock, AssignsOfBlock, ClearStmt, FindReturnBlock,
      MustReturnBlock, N.Use, Clear, KindOf;
    var c3, c4 := AssignVar("y", Binary(l, LT, r)), PrintStmt(Var("y"));
    ReadNothing(d, {}, known, N.Program);
    UseKnown("x", known, [], []);
    UseKnown("g", known, [], []);
    UseKnown("y", known, [], []);
    UseKnown("print", known, [], []);
    ReadAtom(Var("x"), d, {}, known, N.Program);
    ReadAtom(Var("y"), d, {}, known, N.Program);
    ReadCall("g", [], d, {}, known, N.Program);
    ReadLess(l, r, d, {}, known, N.Program);
    ReadAssign("y", Binary(l, LT, r), d, {}, known, N.Program);
    ReadPrint(Var("y"), d, {}, known, N.Program);
    ReadNext(c4, [], [], [], d, {}, known, N.Program);
    ReadNext(c3, [c4] + [], ["y"], [], d, {}, known, N.Program);
  }

  lemma {:induction false} BumpMeets(l: Expr, r: Expr)
    requires (l == Var("x") && r == BUMPED) || (l == BUMPED && r == Var("x"))
    ensures Meets(Bump(l, r), BumpConditions(l, r))
  {
    hide WellFormedBlock, FreshBlock, IndexedBlock, N.FreeBlock, N.OpenedBlock, GlobalsOfBlock, AssignsOfBlock, ClearStmt, FindReturnBlock,
      MustReturnBlock, N.Use, LocalsOf, Clear, KindOf;
    var d, tail := BumpConditions(l, r), [AssignVar("y", Binary(l, LT, r))] + ([PrintStmt(Var("y"))] + []);
    var c1, c2 := AssignVar("x", Number(1)), AssignVar("g", Fun([], BUMP_BODY));
    First(c1, [c2] + tail);
    First(c2, tail);
    var program := Bump(l, r);
    assert program == [c1] + ([c2] + tail);
    var known := set x | x in NATIVE_NAMES + GlobalsOfBlock(program) + AssignsOfBlock(program);
    ReadBumpTail(l, r, d, known + {"x", "g", "y", "print"});
    assert "x" in AssignsOfBlock(program) && "g" in AssignsOfBlock(program) && "y" in AssignsOfBlock(program) && "print" in known;
    assert known + {"x", "g", "y", "print"} == known && known + (set x | x in ["x"]) == known;
    ReadBumpBody(d, known);
    ReadLiteral("g", [], BUMP_BODY, ["x"], d, known);
    UseKnown("x", known, [], []);
    ReadAtom(Number(1), d, {}, known, N.Program);
    ReadAssign("x", Number(1), d, {}, known, N.Program);
    FirstMeets(c2, tail, d, {}, known, N.Program);
    ReadNext(c1, [c2] + tail, ["x"], [], d, {}, known, N.Program);
  }

  const SHADOW_CONDITIONS := Conditions(true, {}, false, true, true)

  lemma {:induction false} ReadShadowBody(d: Conditions, known: set<string>)
    requires "print" in known && "x" in known
    ensures GlobalsOfBlock(SHADOW_BODY) == ["x"] && AssignsOfBlock(SHADOW_BODY) == [] && MustReturnBlock(SHADOW_BODY)
    ensures N.OpenedBlock(SHADOW_BODY) == (set x | x in ["x"])
    ensures ClearBlock(SHADOW_BODY, d, LocalsOf(["x"], SHADOW_BODY), known, N.AroundBody(["x"], SHADOW_BODY, N.Program))
  {
    hide WellFormedBlock, FreshBlock, IndexedBlock, N.FreeBlock, N.OpenedBlock, GlobalsOfBlock, AssignsOfBlock, ClearStmt, MustReturnBlock, Clear;
    var c1, c2 := Global("x"), PrintStmt(Var("x"));
    var outer, around := LocalsOf(["x"], SHADOW_BODY), N.AroundBody(["x"], SHADOW_BODY, N.Program);
    First(c1, [c2] + Gives(0));
    First(c2, Gives(0));
    ReadGives(0, d, outer, known, around);
    UseKnown("x", known, ["x"], SHADOW_BODY);
    UseKnown("print", known, ["x"], SHADOW_BODY);
    ReadDeclaration("x", d, outer, known, around);
    ReadAtom(Var("x"), d, outer, known, around);
    ReadPrint(Var("x"), d, outer, known, around);
    ReadNext(c2, Gives(0), [], [], d, outer, known, around);
    ReadNext(c1, [c2] + Gives(0), [], ["x"], d, outer, known, around);
  }

  lemma {:induction false} ShadowMeets()
    ensures Meets(SHADOW, SHADOW_CONDITIONS)
  {
    hide WellFormedBlock, FreshBlock, IndexedBlock, N.FreeBlock, N.OpenedBlock, GlobalsOfBlock, AssignsOfBlock, ClearStmt, FindReturnBlock,
      MustReturnBlock, N.Use, LocalsOf, Clear;
    var d, call := SHADOW_CONDITIONS, Expr.Call(Var("f"), [Number(5)]);
    var c1, c2 := AssignVar("f", Fun(["x"], SHADOW_BODY)), CallStmt(call);
    First(c1, [c2] + []);
    First(c2, []);
    var known := set x | x in NATIVE_NAMES + GlobalsOfBlock(SHADOW) + AssignsOfBlock(SHADOW);
    var known2 := known + (set x | x in ["x"]);
    ReadNothing(d, {}, known2, N.Program);
    assert "f" in AssignsOfBlock(SHADOW) && "print" in known;
    ReadShadowBody(d, known2);
    ReadLiteral("f", ["x"], SHADOW_BODY, ["x"], d, known);
    UseKnown("f", known2, [], []);
    ReadAtom(Number(5), d, {}, known2, N.Program);
    ReadCall("f", [Number(5)], d, {}, known2, N.Program);
    ReadCallStmt(call, d, {}, known2, N.Program);
    ReadNext(c2, [], [], [], d, {}, known2, N.Program);
    FirstMeets(c1, [c2] + [], d, {}, known, N.Program);
  }

  lemma {:induction false} ReadCallStmt(e: Expr, d: Conditions, outer: set<string>, known: set<string>, around: N.Around)
    requires Clear(e, d, outer, known, around)
    ensures ClearStmt(CallStmt(e), [], [], d, outer, known, around)
  {}

  const LOOP_CONDITIONS := Conditions(false, {}, true, true, true)

  lemma {:induction false} ReadLoopBody(known: set<string>)
    ensures GlobalsOfBlock(LOOP_BODY) == [] && AssignsOfBlock(LOOP_BODY) == [] && FindReturnBlock(LOOP_BODY)
    ensures N.OpenedBlock(LOOP_BODY) == {}
    ensures ClearBlock(LOOP_BODY, LOOP_CONDITIONS, LocalsOf([], LOOP_BODY), known, N.AroundBody([], LOOP_BODY, N.Program))
  {
    hide WellFormedBlock, FreshBlock, IndexedBlock, N.FreeBlock, N.OpenedBlock, GlobalsOfBlock, AssignsOfBlock, FindReturnBlock,
      MustReturnBlock, LocalsOf;
    var c, d := While(BooleanConstant(false), Gives(1)), LOOP_CONDITIONS;
    var outer, around := LocalsOf([], LOOP_BODY), N.AroundBody([], LOOP_BODY, N.Program);
    First(c, []);
    ReadNothing(d, outer, known, around);
    ReadNothing(d, outer, known + N.OpenedStmt(c), around);
    ReadGives(1, d, outer, known + {}, around);
    FirstMeets(c, [], d, outer, known, around);
  }

  lemma {:induction false} LoopMeets()
    ensures Meets(LOOP, LOOP_CONDITIONS)
  {
    hide WellFormedBlock, FreshBlock, IndexedBlock, N.FreeBlock, N.OpenedBlock, GlobalsOfBlock, AssignsOfBlock, ClearStmt, FindReturnBlock,
      MustReturnBlock, N.Use, LocalsOf, Clear;
    var d, call := LOOP_CONDITIONS, Expr.Call(Var("f"), []);
    var c1, c2 := AssignVar("f", Fun([], LOOP_BODY)), CallStmt(call);
    First(c1, [c2] + []);
    First(c2, []);
    var known := set x | x in NATIVE_NAMES + GlobalsOfBlock(LOOP) + AssignsOfBlock(LOOP);
    ReadNothing(d, {}, known, N.Program);
    assert "f" in AssignsOfBlock(LOOP);
    assert known + {} == known && (set x: string | x in []) == {};
    ReadLoopBody(known);
    ReadLiteral("f", [], LOOP_BODY, [], d, known);
    UseKnown("f", known, [], []);
    ReadCall("f", [], d, {}, known, N.Program);
    ReadCallStmt(call, d, {}, known, N.Program);
    ReadNext(c2, [], [], [], d, {}, known, N.Program);
    FirstMeets(c1, [c2] + [], d, {}, known, N.Program);
  }

  const MARK_CONDITIONS := Conditions(true, {}, true, false, true)

  lemma {:induction false} ReadMarkBody(d: Conditions, known: set<string>)
    requires "i" in known
    ensures GlobalsOfBlock(MARK_BODY) == [] && AssignsOfBlock(MARK_BODY) == [] && MustReturnBlock(MARK_BODY)
    ensures N.OpenedBlock(MARK_BODY) == {}
    ensures ClearBlock(MARK_BODY, d, LocalsOf([], MARK_BODY), known, N.AroundBody([], MARK_BODY, N.Program))
  {
    hide WellFormedBlock, FreshBlock, IndexedBlock, N.FreeBlock, N.OpenedBlock, GlobalsOfBlock, AssignsOfBlock, ClearStmt, MustReturnBlock, Clear;
    var c := AssignField(Var("i"), "a", Number(2));
    var outer, around := LocalsOf([], MARK_BODY), N.AroundBody([], MARK_BODY, N.Program);
    First(c, Gives(7));
    ReadGives(7, d, outer, known, around);
    UseKnown("i", known, [], MARK_BODY);
    ReadAtom(Var("i"), d, outer, known, around);
    ReadAtom(Number(2), d, outer, known, around);
    ReadFieldAssign(Var("i"), "a", Number(2), d, outer, known, around);
    ReadNext(c, Gives(7), [], [], d, outer, known, around);
  }

  lemma {:induction false} ReadFieldAssign(b: Expr, x: string, e: Expr, d: Conditions, outer: set<string>, known: set<string>, around: N.Around)
    requires Clear(b, d, outer, known, around) && Clear(e, d, outer, known, around)
    ensures ClearStmt(AssignField(b, x, e), [], [], d, outer, known, around)
  {
    assert known + {} == known;
  }

  lemma {:induction false} ReadEmptyRecord(d: Conditions, outer: set<string>, known: set<string>, around: N.Around)
    ensures Clear(Expr.Record([]), d, outer, known, around)
  {}

  lemma {:induction false} ReadIndex(b: Expr, i: Expr, d: Conditions, outer: set<string>, known: set<string>, around: N.Around)
    requires Clear(b, d, outer, known, around) && Clear(i, d, outer, known, around)
    ensures Clear(Index(b, i), d, outer, known, around)
  {
    assert known + {} == known;
  }

  /** The index store of `MARK`, then the line it prints. */
  lemma {:induction false} ReadMarkTail(d: Conditions, known: set<string>)
    requires "i" in known && "r" in known && "f" in known && "print" in known
    ensures var tail := [AssignIndex(Var("r"), Var("i"), Expr.Call(Var("f"), []))] + ([PrintStmt(Index(Var("r"), StringConstant("{}")))] + []);
      && WellFormedBlock(tail, d) && FreshBlock(tail, {}) && N.FreeBlock(tail, known, N.Program) == {}
      && GlobalsOfBlock(tail) == [] && AssignsOfBlock(tail) == []
  {
    hide WellFormedBlock, FreshBlock, IndexedBlock, N.FreeBlock, N.OpenedBlock, GlobalsOfBlock, AssignsOfBlock, FindReturnBlock,
      MustReturnBlock, N.Use;
    var call, read := Expr.Call(Var("f"), []), Index(Var("r"), StringConstant("{}"));
    var c4, c5 := AssignIndex(Var("r"), Var("i"), call), PrintStmt(read);
    First(c4, [c5] + []);
    ReadNothing(d, {}, known, N.Program);
    UseKnown("i", known, [], []);
    UseKnown("r", known, [], []);
    UseKnown("f", known, [], []);
    UseKnown("print", known, [], []);
    ReadAtom(Var("r"), d, {}, known, N.Program);
    ReadAtom(Var("i"), d, {}, known, N.Program);
    ReadAtom(StringConstant("{}"), d, {}, known, N.Program);
    ReadCall("f", [], d, {}, known, N.Program);
    ReadIndex(Var("r"), StringConstant("{}"), d, {}, known, N.Program);
    ReadPrint(read, d, {}, known, N.Program);
    hide N.Free, N.Opened, WellFormed, Fresh;
    assert N.OpenedStmt(c4) == {} && known + {} == known;
    ReadNext(c5, [], [], [], d, {}, known, N.Program);
    FirstMeets(c4, [c5] + [], d, {}, known, N.Program);
  }

  lemma {:induction false} MarkMeets()
    ensures Meets(MARK, MARK_CONDITIONS)
  {
    hide WellFormedBlock, FreshBlock, IndexedBlock, N.FreeBlock, N.OpenedBlock, GlobalsOfBlock, AssignsOfBlock, ClearStmt, FindReturnBlock,
      MustReturnBlock, N.Use, LocalsOf, Clear;
    var d, empty := MARK_CONDITIONS, Expr.Record([]);
    var tail := [AssignIndex(Var("r"), Var("i"), Expr.Call(Var("f"), []))] + ([PrintStmt(Index(Var("r"), StringConstant("{}")))] + []);
    var c1, c2, c3 := AssignVar("i", empty), AssignVar("r", empty), AssignVar("f", Fun([], MARK_BODY));
    First(c1, [c2] + ([c3] + tail));
    First(c2, [c3] + tail);
    First(c3, tail);
    assert MARK == [c1] + ([c2] + ([c3] + tail));
    var known := set x | x in NATIVE_NAMES + GlobalsOfBlock(MARK) + AssignsOfBlock(MARK);
    assert "print" in known && "i" in AssignsOfBlock(MARK) && "r" in AssignsOfBlock(MARK) && "f" in AssignsOfBlock(MARK);
    assert known + {} == known && (set x: string | x in []) == {};
    ReadMarkTail(d, known);
    ReadMarkBody(d, known);
    ReadLiteral("f", [], MARK_BODY, [], d, known);
    UseKnown("i", known, [], []);
    UseKnown("r", known, [], []);
    ReadEmptyRecord(d, {}, known, N.Program);
    ReadAssign("i", empty, d, {}, known, N.Program);
    ReadAssign("r", empty, d, {}, known, N.Program);
    FirstMeets(c3, tail, d, {}, known, N.Program);
    ReadNext(c2, [c3] + tail, ["r"], [], d, {}, known, N.Program);
    ReadNext(c1, [c2] + ([c3] + tail), ["i"], [], d, {}, known, N.Program);
  }

  const DANGLING_CONDITIONS := Conditions(true, {}, true, true, false)

  lemma {:induction false} ReadDanglingBody(d: Conditions)
    ensures GlobalsOfBlock(DANGLING_BODY) == [] && AssignsOfBlock(DANGLING_BODY) == [] && MustReturnBlock(DANGLING_BODY)
    ensures IndexedBlock(DANGLING_BODY) && WellFormedBlock(DANGLING_BODY, d) && FreshBlock(DANGLING_BODY, LocalsOf([], DANGLING_BODY))
  {
    hide WellFormedBlock, FreshBlock, IndexedBlock, GlobalsOfBlock, AssignsOfBlock, FindReturnBlock, MustReturnBlock, N.FreeBlock, N.OpenedBlock,
      LocalsOf;
    var c, outer := Stmt.Return(Var("y")), LocalsOf([], DANGLING_BODY);
    assert DANGLING_BODY == [c] + [];
    First(c, []);
    FirstMeets(c, [], d, outer, {}, N.Program);
    ReadNothing(d, outer, {} + N.OpenedStmt(c), N.Program);
  }

  /** The name stays free wherever it is not known. */
  lemma {:induction false} DanglingIsFree(known: set<string>)
    requires "y" !in known
    ensures N.Free(Fun([], DANGLING_BODY), known, N.Program) == {"y"}
  {
    hide GlobalsOfBlock, AssignsOfBlock, N.FreeBlock;
    var c, around := Stmt.Return(Var("y")), N.AroundBody([], DANGLING_BODY, N.Program);
    ReadDanglingBody(DANGLING_CONDITIONS);
    assert (set x | x in GlobalsOfBlock(DANGLING_BODY)) == {} && known + {} == known;
    ReadNothing(DANGLING_CONDITIONS, {}, known + N.OpenedStmt(c), around);
    FirstMeets(c, [], DANGLING_CONDITIONS, {}, known, around);
    assert "y" !in around.globals && "y" !in around.locals;
    assert !N.IsGlobal("y", known, N.Program) && !N.IsGlobal("y", known, around);
    assert N.FreeStmt(c, known, around) == N.Free(Var("y"), known, around) == N.Use("y", known, around) == {"y"};
    assert N.FreeBlock(DANGLING_BODY, known, around) == {"y"};
    assert {"y"} - {} == {"y"};
  }

  lemma {:induction false} DanglingMeets()
    ensures Meets(DANGLING, DANGLING_CONDITIONS)
    ensures GlobalsOfBlock(DANGLING) == [] && AssignsOfBlock(DANGLING) == ["f"]
  {
    hide WellFormedBlock, FreshBlock, IndexedBlock, GlobalsOfBlock, AssignsOfBlock, FindReturnBlock, MustReturnBlock, LocalsOf, N.FreeBlock;
    var c, d := AssignVar("f", Fun([], DANGLING_BODY)), DANGLING_CONDITIONS;
    ReadDanglingBody(d);
    assert {} + LocalsOf([], DANGLING_BODY) == LocalsOf([], DANGLING_BODY);
    First(c, []);
    FirstMeets(c, [], d, {}, {}, N.Program);
    ReadNothing(d, {}, {}, N.Program);
  }

  /** Reading a global before it is stored breaks no condition on the text. */
  lemma {:induction false} LateMeets()
    ensures Meets(LATE, ALL)
  {
    hide WellFormedBlock, FreshBlock, IndexedBlock, N.FreeBlock, N.OpenedBlock, GlobalsOfBlock, AssignsOfBlock, ClearStmt, FindReturnBlock,
      MustReturnBlock, N.Use, LocalsOf, Clear;
    var d, c1, c2 := ALL, PrintStmt(Var("x")), AssignVar("x", Number(1));
    First(c1, [c2] + []);
    First(c2, []);
    var known := set x | x in NATIVE_NAMES + GlobalsOfBlock(LATE) + AssignsOfBlock(LATE);
    ReadNothing(d, {}, known, N.Program);
    assert "x" in AssignsOfBlock(LATE) && "print" in known;
    UseKnown("x", known, [], []);
    UseKnown("print", known, [], []);
    ReadAtom(Var("x"), d, {}, known, N.Program);
    ReadAtom(Number(1), d, {}, known, N.Program);
    ReadPrint(Var("x"), d, {}, known, N.Program);
    ReadAssign("x", Number(1), d, {}, known, N.Program);
    ReadNext(c1, [c2] + [], [], [], d, {}, known, N.Program);
    ReadNext(c2, [], ["x"], [], d, {}, known, N.Program);
  }
}
