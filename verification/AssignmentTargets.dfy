/** Simple assignments only ever store to locals and globals: after the passes over
    a body its assigned names are bound in its own table, so the store through a
    reference is emitted nowhere, in no function of any program. */
module AssignmentTargets {
  import opened Basics
  import opened Ast
  import opened Bytecode
  import opened Codegen
  import opened ScopeAnalysis
  import opened NameResolution

  ghost predicate Direct(code: seq<Instruction>) {
    forall i :: 0 <= i < |code| ==> !code[i].StoreReference?
  }

  /** No instruction of the function or of a function nested in it stores through a
      reference. */
  ghost predicate StoresDirectly(f: Function)
    decreases f
  {
    Direct(f.instructions) && forall g :: g in f.functions ==> StoresDirectly(g)
  }

  ghost predicate PoolDirect(sc: Scope) {
    forall g :: g in sc.fn.functions ==> StoresDirectly(g)
  }

  /** ... in the functions finished so far. */
  ghost predicate PoolsDirect(cs: Scopes) {
    forall i :: 0 <= i < |cs| ==> PoolDirect(cs[i])
  }

  ghost predicate Clean(r: (Scopes, seq<Instruction>)) {
    PoolsDirect(r.0) && Direct(r.1)
  }

  /** The passes have bound these names in the innermost table. */
  ghost predicate Assigned(xs: seq<string>, known: set<string>, around: Around) {
    forall x :: x in xs ==> if around.Literal? then x in around.globals + around.locals else x in known
  }

  lemma {:induction false} SamePools(a: Scopes, b: Scopes)
    requires |a| == |b| && PoolsDirect(a)
    requires forall i :: 0 <= i < |a| ==> b[i].fn.functions == a[i].fn.functions
    ensures PoolsDirect(b)
  {
    hide StoresDirectly;
    forall i | 0 <= i < |b| ensures PoolDirect(b[i]) { assert PoolDirect(a[i]); }
  }

  lemma {:induction false} PoolOperations(cs: Scopes, x: string, c: Constant)
    requires cs != [] && PoolsDirect(cs)
    ensures PoolsDirect(AllocConstant(cs, c).0) && PoolsDirect(AllocName(cs, x).0) && PoolsDirect(AddFreeVar(cs, x))
    ensures PoolsDirect(DeclareGlobal(cs, x))
  {
    SamePools(cs, AllocConstant(cs, c).0);
    SamePools(cs, AllocName(cs, x).0);
    SamePools(cs, AddFreeVar(cs, x));
    SamePools(cs, DeclareGlobal(cs, x));
  }

  // ---------------------------------------------------------------- literals

  lemma {:induction false} OpenDirect(cs: Scopes, params: seq<string>, body: seq<Stmt>)
    requires cs != [] && PoolsDirect(cs) && NoDuplicates(params)
    ensures PoolsDirect(OpenFunction(cs, params, body))
  {
    hide OpenFunction, TableOf, StoresDirectly, FnGrows;
    var n, o := |cs|, OpenFunction(cs, params, body);
    OpenFunctionScope(cs, params, body);
    forall i | 0 <= i < |o| ensures PoolDirect(o[i]) {
      if i < n {
        assert ScopeGrows(cs[i], o[..n][i], i, n) && PoolDirect(cs[i]);
      } else {
        assert o[i] == Last(o);
      }
    }
  }

  lemma {:induction false} CaptureDirect(cs: Scopes, free: seq<string>)
    requires cs != [] && PoolsDirect(cs)
    ensures Clean(CaptureAll(cs, free))
    decreases |free|
  {
    hide PoolsDirect;
    if free != [] {
      var fn, x := Last(cs).fn, free[0];
      var c1 := if x in fn.localVars then WithFn(cs, fn.(localReferenceVars := AddUnique(fn.localReferenceVars, x))) else AddFreeVar(cs, x);
      SamePools(cs, c1);
      CaptureDirect(c1, free[1..]);
    }
  }

  lemma {:induction false} CloseDirect(cs: Scopes, body: seq<Stmt>, code: seq<Instruction>)
    requires |cs| > 1 && Clean((cs, code))
    ensures Clean(CloseFunction(cs, body, code))
  {
    hide CaptureAll, ReferenceIndices, FindReturnBlock, PoolsDirect;
    var (c1, code1) := WithImplicitReturn(cs, body, code);
    SamePools(cs, c1);
    var g := Finish(Last(c1).fn, code1);
    FinishedDirect(c1, code1);
    var outer := c1[..|cs|-1];
    Lower(c1);
    CaptureDirect(outer, g.freeVars);
    var c2 := CaptureAll(outer, g.freeVars).0;
    OneMore(c2, g);
  }

  lemma {:induction false} Lower(cs: Scopes)
    requires |cs| > 1 && PoolsDirect(cs)
    ensures PoolsDirect(cs[..|cs|-1])
  {
    hide PoolDirect;
  }

  lemma {:induction false} FinishedDirect(cs: Scopes, code: seq<Instruction>)
    requires cs != [] && PoolsDirect(cs) && Direct(code)
    ensures StoresDirectly(Finish(Last(cs).fn, code))
  {
    assert PoolDirect(Last(cs));
  }

  lemma {:induction false} OneMore(cs: Scopes, g: Function)
    requires cs != [] && PoolsDirect(cs) && StoresDirectly(g)
    ensures PoolsDirect(WithFn(cs, Last(cs).fn.(functions := Last(cs).fn.functions + [g])))
  {
    hide StoresDirectly;
    var b := WithFn(cs, Last(cs).fn.(functions := Last(cs).fn.functions + [g]));
    forall i | 0 <= i < |b| ensures PoolDirect(b[i]) { assert PoolDirect(cs[i]); }
  }

  // ---------------------------------------------------------------- every compile step

  lemma {:induction false} ExprDirect(e: Expr, cs: Scopes, known: set<string>, around: Around)
    requires cs != [] && Fits(cs, known, around) && WellFormed(e, SHAPE) && PoolsDirect(cs)
    ensures Clean(CompileExpr(e, cs))
    decreases e, 1
  {
    hide PoolsDirect, Fits, CompileArgs, CompileFields, CompileFun, Lookup, AllocConstant, AllocName, AddFreeVar;
    match e
    case Var(x) => PoolOperations(cs, x, NoneC);
    case Fun(_, _) => FunDirect(e, cs, known, around);
    case Binary(l, _, r) =>
      ExprDirect(l, cs, known, around);
      After(l, cs, known, around);
      ExprDirect(r, CompileExpr(l, cs).0, known + Opened(l), around);
    case Unary(_, x) => ExprDirect(x, cs, known, around);
    case Field(b, x) =>
      ExprDirect(b, cs, known, around);
      PoolOperations(CompileExpr(b, cs).0, x, NoneC);
    case Index(b, i) =>
      ExprDirect(b, cs, known, around);
      After(b, cs, known, around);
      ExprDirect(i, CompileExpr(b, cs).0, known + Opened(b), around);
    case Call(t, es) =>
      ExprDirect(t, cs, known, around);
      After(t, cs, known, around);
      ArgsDirect(es, CompileExpr(t, cs).0, known + Opened(t), around);
    case Record(fs) => FieldsDirect(fs, cs, known, around);
    case IntegerConstant(i) => PoolOperations(cs, "", IntegerC(i));
    case StringConstant(t) => PoolOperations(cs, "", StringC(t));
    case BooleanConstant(b) => PoolOperations(cs, "", BooleanC(b));
    case NoneConstant => PoolOperations(cs, "", NoneC);
  }

  /** The tables after an expression. */
  lemma {:induction false} After(e: Expr, cs: Scopes, known: set<string>, around: Around)
    requires cs != [] && Fits(cs, known, around) && WellFormed(e, SHAPE)
    ensures Fits(CompileExpr(e, cs).0, known + Opened(e), around)
  {
    hide Fits, CompileExpr, WellFormed, Opened, Free;
    ExprAdds(e, cs, known, around);
  }

  lemma {:induction false} FunDirect(e: Expr, cs: Scopes, known: set<string>, around: Around)
    requires e.Fun? && cs != [] && Fits(cs, known, around) && WellFormed(e, SHAPE) && PoolsDirect(cs)
    ensures Clean(CompileFun(e, cs))
    decreases e, 0
  {
    hide PoolsDirect, Fits, OpenFunction, CompileBlock, CloseFunction, GlobalsOfBlock, AssignsOfBlock;
    var Fun(params, body) := e;
    var gs, inner, o := (set x | x in GlobalsOfBlock(body)), AroundBody(params, body, around), OpenFunction(cs, params, body);
    OpenFits(cs, params, body, known, around);
    OpenDirect(cs, params, body);
    BlockDirect(body, o, known + gs, inner);
    var (c1, code) := CompileBlock(body, o);
    CloseDirect(c1, body, code);
  }

  lemma {:induction false} ArgsDirect(es: seq<Expr>, cs: Scopes, known: set<string>, around: Around)
    requires cs != [] && Fits(cs, known, around) && WellFormedArgs(es, SHAPE) && PoolsDirect(cs)
    ensures Clean(CompileArgs(es, cs))
    decreases es, 0
  {
    hide PoolsDirect, Fits, CompileExpr, WellFormed;
    if es != [] {
      ExprDirect(es[0], cs, known, around);
      After(es[0], cs, known, around);
      ArgsDirect(es[1..], CompileExpr(es[0], cs).0, known + Opened(es[0]), around);
    }
  }

  lemma {:induction false} FieldsDirect(fs: seq<FieldInit>, cs: Scopes, known: set<string>, around: Around)
    requires cs != [] && Fits(cs, known, around) && WellFormedFields(fs, SHAPE) && PoolsDirect(cs)
    ensures Clean(CompileFields(fs, cs))
    decreases fs, 0
  {
    hide PoolsDirect, Fits, CompileExpr, WellFormed, AllocName;
    if fs != [] {
      var e := fs[0].init;
      var c1, known1 := CompileExpr(e, cs).0, known + Opened(e);
      ExprDirect(e, cs, known, around);
      After(e, cs, known, around);
      PoolOperations(c1, fs[0].name, NoneC);
      NameFits(c1, known1, around, fs[0].name);
      FieldsDirect(fs[1..], AllocName(c1, fs[0].name).0, known1, around);
    }
  }

  lemma {:induction false} NameFits(cs: Scopes, known: set<string>, around: Around, x: string)
    requires cs != [] && Fits(cs, known, around)
    ensures Fits(AllocName(cs, x).0, known, around)
  {
    FitsAlike(cs, AllocName(cs, x).0, known, around);
  }

  /** The target of an assignment is a local or a global. */
  lemma {:induction false} TargetDirect(x: string, cs: Scopes, known: set<string>, around: Around)
    requires cs != [] && Fits(cs, known, around) && Assigned([x], known, around) && PoolsDirect(cs)
    ensures var (c1, before, store) := CompileTarget(x, cs);
      before == [] && (store.StoreLocal? || store.StoreGlobal?) && PoolsDirect(c1) && Fits(c1, known, around)
  {
    assert x in [x];
    PoolOperations(cs, x, NoneC);
    NameFits(cs, known, around, x);
  }

  lemma {:induction false} StmtDirect(s: Stmt, cs: Scopes, known: set<string>, around: Around)
    requires cs != [] && Fits(cs, known, around) && WellFormedStmt(s, SHAPE) && PoolsDirect(cs)
    requires Declared(GlobalsOf(s), around) && Assigned(AssignsOf(s), known, around)
    ensures Clean(CompileStmt(s, cs))
    decreases s, 1
  {
    hide PoolsDirect, Fits, CompileExpr, CompileBlock, CompileTarget, WellFormed, WellFormedBlock, AllocName, DeclareGlobal, Opened;
    match s
    case Global(x) => PoolOperations(cs, x, NoneC);
    case AssignVar(x, e) =>
      TargetDirect(x, cs, known, around);
      ExprDirect(e, CompileTarget(x, cs).0, known, around);
    case AssignField(b, x, e) =>
      var c1, known1 := CompileExpr(b, cs).0, known + Opened(b);
      ExprDirect(b, cs, known, around);
      After(b, cs, known, around);
      PoolOperations(c1, x, NoneC);
      NameFits(c1, known1, around, x);
      ExprDirect(e, AllocName(c1, x).0, known1, around);
    case AssignIndex(b, i, e) =>
      var c1, known1 := CompileExpr(b, cs).0, known + Opened(b);
      ExprDirect(b, cs, known, around);
      After(b, cs, known, around);
      ExprDirect(i, c1, known1, around);
      After(i, c1, known1, around);
      ExprDirect(e, CompileExpr(i, c1).0, known1 + Opened(i), around);
    case CallStmt(e) => ExprDirect(e, cs, known, around);
    case If(c, t) =>
      ExprDirect(c, cs, known, around);
      After(c, cs, known, around);
      AssignedOn(AssignsOfBlock(t), known, Opened(c), around);
      BlockDirect(t, CompileExpr(c, cs).0, known + Opened(c), around);
    case IfElse(_, _, _) => IfElseDirect(s, cs, known, around);
    case While(c, b) =>
      ExprDirect(c, cs, known, around);
      After(c, cs, known, around);
      AssignedOn(AssignsOfBlock(b), known, Opened(c), around);
      BlockDirect(b, CompileExpr(c, cs).0, known + Opened(c), around);
    case Return(e) => ExprDirect(e, cs, known, around);
  }

  lemma {:induction false} AssignedOn(xs: seq<string>, known: set<string>, more: set<string>, around: Around)
    requires Assigned(xs, known, around)
    ensures Assigned(xs, known + more, around)
  {}

  lemma {:induction false} AfterBlock(ss: seq<Stmt>, cs: Scopes, known: set<string>, around: Around)
    requires cs != [] && Fits(cs, known, around) && WellFormedBlock(ss, SHAPE) && Declared(GlobalsOfBlock(ss), around)
    ensures Fits(CompileBlock(ss, cs).0, known + OpenedBlock(ss), around)
  {
    hide Fits, CompileBlock, WellFormedBlock, OpenedBlock, FreeBlock, GlobalsOfBlock;
    BlockAdds(ss, cs, known, around);
  }

  lemma {:induction false} AfterStmt(s: Stmt, cs: Scopes, known: set<string>, around: Around)
    requires cs != [] && Fits(cs, known, around) && WellFormedStmt(s, SHAPE) && Declared(GlobalsOf(s), around)
    ensures Fits(CompileStmt(s, cs).0, known + OpenedStmt(s), around)
  {
    hide Fits, CompileStmt, WellFormedStmt, OpenedStmt, FreeStmt, GlobalsOf;
    StmtAdds(s, cs, known, around);
  }

  lemma {:induction false} IfElseDirect(s: Stmt, cs: Scopes, known: set<string>, around: Around)
    requires s.IfElse?
    requires cs != [] && Fits(cs, known, around) && WellFormedStmt(s, SHAPE) && PoolsDirect(cs)
    requires Declared(GlobalsOf(s), around) && Assigned(AssignsOf(s), known, around)
    ensures Clean(CompileIfElse(s, cs))
    decreases s, 0
  {
    hide PoolsDirect, Fits, CompileExpr, CompileBlock, WellFormed, WellFormedBlock, Opened, OpenedBlock, GlobalsOfBlock, AssignsOfBlock;
    var IfElse(c, t, e) := s;
    var c1, known1 := CompileExpr(c, cs).0, known + Opened(c);
    ExprDirect(c, cs, known, around);
    After(c, cs, known, around);
    AssignedOn(AssignsOfBlock(t), known, Opened(c), around);
    BlockDirect(t, c1, known1, around);
    AfterBlock(t, c1, known1, around);
    AssignedOn(AssignsOfBlock(e), known, Opened(c), around);
    AssignedOn(AssignsOfBlock(e), known1, OpenedBlock(t), around);
    BlockDirect(e, CompileBlock(t, c1).0, known1 + OpenedBlock(t), around);
  }

  lemma {:induction false} BlockDirect(ss: seq<Stmt>, cs: Scopes, known: set<string>, around: Around)
    requires cs != [] && Fits(cs, known, around) && WellFormedBlock(ss, SHAPE) && PoolsDirect(cs)
    requires Declared(GlobalsOfBlock(ss), around) && Assigned(AssignsOfBlock(ss), known, around)
    ensures Clean(CompileBlock(ss, cs))
    decreases ss, 0
  {
    hide PoolsDirect, Fits, CompileStmt, WellFormedStmt, OpenedStmt, GlobalsOf, AssignsOf;
    if ss != [] {
      StmtDirect(ss[0], cs, known, around);
      AfterStmt(ss[0], cs, known, around);
      AssignedOn(AssignsOfBlock(ss[1..]), known, OpenedStmt(ss[0]), around);
      BlockDirect(ss[1..], CompileStmt(ss[0], cs).0, known + OpenedStmt(ss[0]), around);
    }
  }

  // ---------------------------------------------------------------- programs

  /** No function of a compiled program stores through a reference. */
  lemma {:induction false} NoStoreThroughReference(program: seq<Stmt>)
    requires WellFormedBlock(program, SHAPE)
    ensures StoresDirectly(CompileProgram(program))
  {
    hide CompileBlock, DeclareGlobals, DeclareAssigns, GlobalsOfBlock, AssignsOfBlock, WellFormedBlock, PoolsDirect;
    var gs, xs := GlobalsOfBlock(program), AssignsOfBlock(program);
    var c0 := [ProgramScope()];
    var o, known := OpenProgram(program), set x | x in NATIVE_NAMES + gs + xs;
    OpenProgramFits(program);
    OpenProgramDirect(program);
    BlockDirect(program, o, known, Program);
    var (cs, code) := CompileBlock(program, o);
    assert Direct(Prologue() + code);
    ProgramDirect(cs, Prologue() + code);
  }

  lemma {:induction false} ProgramDirect(cs: Scopes, code: seq<Instruction>)
    requires cs != [] && PoolsDirect(cs) && Direct(code)
    ensures StoresDirectly(Last(cs).fn.(instructions := code))
  {
    assert PoolDirect(Last(cs));
  }

  lemma {:induction false} DeclaredPools(cs: Scopes, xs: seq<string>)
    requires |cs| == 1
    ensures DeclareGlobals(cs, xs)[0].fn.functions == cs[0].fn.functions
    decreases |xs|
  {
    if xs != [] { DeclaredPools(DeclareGlobal(cs, xs[0]), xs[1..]); }
  }

  lemma {:induction false} AssignedPools(cs: Scopes, xs: seq<string>)
    requires |cs| == 1
    ensures DeclareAssigns(cs, xs)[0].fn.functions == cs[0].fn.functions
    decreases |xs|
  {
    if xs != [] { AssignedPools(DeclareAssigned(cs, xs[0]), xs[1..]); }
  }

  lemma {:induction false} OpenProgramDirect(program: seq<Stmt>)
    ensures PoolsDirect(OpenProgram(program))
  {
    var gs, xs, c0 := GlobalsOfBlock(program), AssignsOfBlock(program), [ProgramScope()];
    DeclaredPools(c0, gs);
    AssignedPools(DeclareGlobals(c0, gs), xs);
    forall g | g in ProgramScope().fn.functions ensures StoresDirectly(g) {}
    assert PoolDirect(c0[0]);
    SamePools(c0, OpenProgram(program));
  }
}
