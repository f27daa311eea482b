/** Pools never hold an item twice, in any function of a compiled program, so an
    index and its item determine each other. */
module PoolStability {
  import opened Basics
  import opened Ast
  import opened Bytecode
  import opened Codegen
  import Machine

  ghost predicate Tidy(f: Function)
    decreases f
  {
    && NoDuplicates(f.constants) && NoDuplicates(f.names) && NoDuplicates(f.localVars)
    && NoDuplicates(f.localReferenceVars) && NoDuplicates(f.freeVars)
    && forall g :: g in f.functions ==> Tidy(g)
  }

  ghost predicate AllTidy(cs: Scopes) {
    forall i :: 0 <= i < |cs| ==> Tidy(cs[i].fn)
  }

  // ---------------------------------------------------------------- single operations

  lemma {:induction false} PutBack(cs: Scopes, fn: Function)
    requires cs != [] && AllTidy(cs) && Tidy(fn)
    ensures AllTidy(WithFn(cs, fn))
  {
    hide Tidy;
  }

  lemma {:induction false} TableOnly(cs: Scopes, i: nat, x: string, t: SymbolType)
    requires i < |cs| && AllTidy(cs)
    ensures AllTidy(Insert(cs, i, x, t))
  {
    hide Tidy;
  }

  lemma {:induction false} LastTidy(cs: Scopes)
    requires cs != [] && AllTidy(cs)
    ensures Tidy(Last(cs).fn)
  {
    hide Tidy;
  }

  lemma {:induction false} AddedTidy(f: Function, x: string, c: Constant)
    requires Tidy(f)
    ensures Tidy(f.(names := AddUnique(f.names, x))) && Tidy(f.(constants := AddUnique(f.constants, c)))
    ensures Tidy(f.(freeVars := AddUnique(f.freeVars, x))) && Tidy(f.(localVars := AddUnique(f.localVars, x)))
    ensures Tidy(f.(localReferenceVars := AddUnique(f.localReferenceVars, x)))
  {
    AddUniqueKeepsPool(f.names, x);
    AddUniqueKeepsPool(f.constants, c);
    AddUniqueKeepsPool(f.freeVars, x);
    AddUniqueKeepsPool(f.localVars, x);
    AddUniqueKeepsPool(f.localReferenceVars, x);
    hide AddUnique, NoDuplicates;
  }

  lemma {:induction false} PoolOperations(cs: Scopes, x: string, c: Constant)
    requires cs != [] && AllTidy(cs)
    ensures AllTidy(AllocConstant(cs, c).0) && AllTidy(AllocName(cs, x).0)
    ensures AllTidy(AddFreeVar(cs, x)) && AllTidy(AddLocalVar(cs, x))
  {
    hide Tidy, AllTidy, AddUnique, IndexOf, WithFn;
    var f := Last(cs).fn;
    LastTidy(cs);
    AddedTidy(f, x, c);
    PutBack(cs, f.(constants := AddUnique(f.constants, c)));
    PutBack(cs, f.(names := AddUnique(f.names, x)));
    PutBack(cs, f.(freeVars := AddUnique(f.freeVars, x)));
    PutBack(cs, f.(localVars := AddUnique(f.localVars, x)));
  }

  // ---------------------------------------------------------------- scope analysis

  lemma {:induction false} DeclareGlobalTidy(cs: Scopes, x: string)
    requires cs != [] && AllTidy(cs)
    ensures AllTidy(DeclareGlobal(cs, x))
  {
    hide Tidy, AddUnique, IndexOf, Insert, AllocName;
    PoolOperations(cs, x, NoneC);
    var c0 := AllocName(cs, x).0;
    TableOnly(c0, |cs|-1, x, GLOBAL);
    var c1 := Insert(c0, |cs|-1, x, GLOBAL);
    AddedTidy(c1[0].fn, x, NoneC);
    var c2 := c1[0 := c1[0].(fn := c1[0].fn.(names := AddUnique(c1[0].fn.names, x)))];
    assert AllTidy(c2);
    TableOnly(c2, 0, x, GLOBAL);
  }

  lemma {:induction false} DeclareGlobalsTidy(cs: Scopes, xs: seq<string>)
    requires cs != [] && AllTidy(cs)
    ensures AllTidy(DeclareGlobals(cs, xs))
    decreases |xs|
  {
    hide AllTidy, DeclareGlobal;
    if xs != [] {
      DeclareGlobalTidy(cs, xs[0]);
      DeclareGlobalsTidy(DeclareGlobal(cs, xs[0]), xs[1..]);
    }
  }

  lemma {:induction false} DeclareAssignsTidy(cs: Scopes, xs: seq<string>)
    requires cs != [] && AllTidy(cs)
    ensures AllTidy(DeclareAssigns(cs, xs))
    decreases |xs|
  {
    hide AllTidy, AllocName, AddLocalVar, Insert, LookupLocally;
    if xs != [] {
      PoolOperations(cs, xs[0], NoneC);
      TableOnly(AllocName(cs, xs[0]).0, |cs|-1, xs[0], GLOBAL);
      TableOnly(AddLocalVar(cs, xs[0]), |cs|-1, xs[0], LOCAL);
      DeclareAssignsTidy(DeclareAssigned(cs, xs[0]), xs[1..]);
    }
  }

  lemma {:induction false} DeclareParamsTidy(cs: Scopes, xs: seq<string>)
    requires cs != [] && AllTidy(cs)
    ensures AllTidy(DeclareParams(cs, xs))
    decreases |xs|
  {
    hide AllTidy, AddLocalVar, Insert;
    if xs != [] {
      PoolOperations(cs, xs[0], NoneC);
      TableOnly(AddLocalVar(cs, xs[0]), |cs|-1, xs[0], LOCAL);
      DeclareParamsTidy(Insert(AddLocalVar(cs, xs[0]), |cs|-1, xs[0], LOCAL), xs[1..]);
    }
  }

  // ---------------------------------------------------------------- function literals

  lemma {:induction false} OpenTidy(cs: Scopes, params: seq<string>, body: seq<Stmt>)
    requires AllTidy(cs)
    ensures AllTidy(OpenFunction(cs, params, body))
  {
    hide DeclareParams, DeclareGlobals, DeclareAssigns, GlobalsOfBlock, AssignsOfBlock;
    var c0 := cs + [Scope(EMPTY_FUNCTION, map[])];
    assert AllTidy(c0);
    hide AllTidy;
    DeclareParamsTidy(c0, params);
    var c1 := DeclareParams(c0, params);
    DeclareGlobalsTidy(c1, GlobalsOfBlock(body));
    var c2 := DeclareGlobals(c1, GlobalsOfBlock(body));
    DeclareAssignsTidy(c2, AssignsOfBlock(body));
    var c3 := DeclareAssigns(c2, AssignsOfBlock(body));
    LastTidy(c3);
    PutBack(c3, Last(c3).fn.(parameterCount := |params|));
  }

  lemma {:induction false} CaptureTidy(cs: Scopes, free: seq<string>)
    requires cs != [] && AllTidy(cs)
    ensures AllTidy(CaptureAll(cs, free).0)
    decreases |free|
  {
    hide AllTidy, Tidy, AddFreeVar, AddUnique, IndexOf, WithFn;
    if free != [] {
      var fn, x := Last(cs).fn, free[0];
      if x in fn.localVars {
        LastTidy(cs);
        AddedTidy(fn, x, NoneC);
        PutBack(cs, fn.(localReferenceVars := AddUnique(fn.localReferenceVars, x)));
        CaptureTidy(WithFn(cs, fn.(localReferenceVars := AddUnique(fn.localReferenceVars, x))), free[1..]);
      } else {
        PoolOperations(cs, x, NoneC);
        CaptureTidy(AddFreeVar(cs, x), free[1..]);
      }
    }
  }

  lemma {:induction false} FinishTidy(fn: Function, code: seq<Instruction>)
    requires Tidy(fn)
    ensures Tidy(Finish(fn, code))
  {
    hide NoDuplicates, Patch, ReferenceIndices;
  }

  lemma {:induction false} OneMoreTidy(fn: Function, g: Function)
    requires Tidy(fn) && Tidy(g)
    ensures Tidy(fn.(functions := fn.functions + [g]))
  {
    hide NoDuplicates;
  }

  lemma {:induction false} BelowTidy(cs: Scopes)
    requires |cs| > 1 && AllTidy(cs)
    ensures AllTidy(cs[..|cs|-1])
  {
    hide Tidy;
  }

  lemma {:induction false} CloseTidy(cs: Scopes, body: seq<Stmt>, code: seq<Instruction>)
    requires |cs| > 1 && AllTidy(cs)
    ensures AllTidy(CloseFunction(cs, body, code).0)
  {
    hide AllTidy, Tidy, AllocConstant, WithFn, Finish, CaptureAll, FindReturnBlock;
    PoolOperations(cs, "", NoneC);
    var c1 := if FindReturnBlock(body) then cs else AllocConstant(cs, NoneC).0;
    var code1 := if FindReturnBlock(body) then code else code + [LoadConst(AllocConstant(cs, NoneC).1), Instruction.Return];
    LastTidy(c1);
    FinishTidy(Last(c1).fn, code1);
    var g := Finish(Last(c1).fn, code1);
    BelowTidy(c1);
    var outer := c1[..|cs|-1];
    CaptureTidy(outer, g.freeVars);
    var c2 := CaptureAll(outer, g.freeVars).0;
    LastTidy(c2);
    OneMoreTidy(Last(c2).fn, g);
    PutBack(c2, Last(c2).fn.(functions := Last(c2).fn.functions + [g]));
  }

  // ---------------------------------------------------------------- every compile step

  lemma {:induction false} ExprTidy(e: Expr, cs: Scopes)
    requires cs != [] && AllTidy(cs)
    ensures AllTidy(CompileExpr(e, cs).0)
    decreases e, 1
  {
    hide AllTidy, CompileBlock, CompileArgs, CompileFields, AllocConstant, AllocName, AddFreeVar, CloseFunction, OpenFunction, Lookup;
    match e
    case Var(x) => PoolOperations(cs, x, NoneC);
    case Fun(params, body) =>
      OpenTidy(cs, params, body);
      BlockTidy(body, OpenFunction(cs, params, body));
      var (c1, code) := CompileBlock(body, OpenFunction(cs, params, body));
      CloseTidy(c1, body, code);
    case Binary(l, _, r) => ExprTidy(l, cs); ExprTidy(r, CompileExpr(l, cs).0);
    case Unary(_, x) => ExprTidy(x, cs);
    case Field(b, x) => ExprTidy(b, cs); PoolOperations(CompileExpr(b, cs).0, x, NoneC);
    case Index(b, i) => ExprTidy(b, cs); ExprTidy(i, CompileExpr(b, cs).0);
    case Call(t, args) => ExprTidy(t, cs); ArgsTidy(args, CompileExpr(t, cs).0);
    case Record(fs) => FieldsTidy(fs, cs);
    case IntegerConstant(i) => PoolOperations(cs, "", IntegerC(i));
    case StringConstant(t) => PoolOperations(cs, "", StringC(t));
    case BooleanConstant(b) => PoolOperations(cs, "", BooleanC(b));
    case NoneConstant => PoolOperations(cs, "", NoneC);
  }

  lemma {:induction false} ArgsTidy(es: seq<Expr>, cs: Scopes)
    requires cs != [] && AllTidy(cs)
    ensures AllTidy(CompileArgs(es, cs).0)
    decreases es, 0
  {
    hide AllTidy, CompileExpr;
    if es != [] {
      ExprTidy(es[0], cs);
      ArgsTidy(es[1..], CompileExpr(es[0], cs).0);
    }
  }

  lemma {:induction false} FieldsTidy(fs: seq<FieldInit>, cs: Scopes)
    requires cs != [] && AllTidy(cs)
    ensures AllTidy(CompileFields(fs, cs).0)
    decreases fs, 0
  {
    hide AllTidy, CompileExpr, AllocName;
    if fs != [] {
      ExprTidy(fs[0].init, cs);
      var c1 := CompileExpr(fs[0].init, cs).0;
      PoolOperations(c1, fs[0].name, NoneC);
      FieldsTidy(fs[1..], AllocName(c1, fs[0].name).0);
    }
  }

  lemma {:induction false} StmtTidy(s: Stmt, cs: Scopes)
    requires cs != [] && AllTidy(cs)
    ensures AllTidy(CompileStmt(s, cs).0)
    decreases s, 1
  {
    hide AllTidy, CompileExpr, CompileBlock, AllocName, AddFreeVar, DeclareGlobal, Lookup;
    match s
    case Global(x) => DeclareGlobalTidy(cs, x);
    case AssignVar(x, e) =>
      PoolOperations(cs, x, NoneC);
      ExprTidy(e, CompileTarget(x, cs).0);
    case AssignField(b, x, e) =>
      ExprTidy(b, cs);
      var c1 := CompileExpr(b, cs).0;
      PoolOperations(c1, x, NoneC);
      ExprTidy(e, AllocName(c1, x).0);
    case AssignIndex(b, i, e) =>
      ExprTidy(b, cs);
      var c1 := CompileExpr(b, cs).0;
      ExprTidy(i, c1);
      ExprTidy(e, CompileExpr(i, c1).0);
    case CallStmt(e) => ExprTidy(e, cs);
    case If(c, t) => ExprTidy(c, cs); BlockTidy(t, CompileExpr(c, cs).0);
    case IfElse(c, t, e) =>
      ExprTidy(c, cs);
      var c1 := CompileExpr(c, cs).0;
      BlockTidy(t, c1);
      BlockTidy(e, CompileBlock(t, c1).0);
    case While(c, b) => ExprTidy(c, cs); BlockTidy(b, CompileExpr(c, cs).0);
    case Return(e) => ExprTidy(e, cs);
  }

  lemma {:induction false} BlockTidy(ss: seq<Stmt>, cs: Scopes)
    requires cs != [] && AllTidy(cs)
    ensures AllTidy(CompileBlock(ss, cs).0)
    decreases ss, 0
  {
    hide AllTidy, CompileStmt;
    if ss != [] {
      StmtTidy(ss[0], cs);
      BlockTidy(ss[1..], CompileStmt(ss[0], cs).0);
    }
  }

  /** No pool of any function of a compiled program holds an item twice. */
  lemma {:induction false} PoolsHaveNoDuplicates(program: seq<Stmt>)
    ensures Tidy(CompileProgram(program))
  {
    hide CompileBlock, DeclareGlobals, DeclareAssigns, GlobalsOfBlock, AssignsOfBlock;
    var c0 := [ProgramScope()];
    ProgramScopeTidy();
    hide AllTidy, NoDuplicates;
    DeclareGlobalsTidy(c0, GlobalsOfBlock(program));
    DeclareAssignsTidy(DeclareGlobals(c0, GlobalsOfBlock(program)), AssignsOfBlock(program));
    BlockTidy(program, OpenProgram(program));
    LastTidy(CompileBlock(program, OpenProgram(program)).0);
  }

  lemma {:induction false} ProgramScopeTidy()
    ensures AllTidy([ProgramScope()])
  {
    var f := ProgramScope().fn;
    forall g | g in f.functions ensures Tidy(g) {}
    assert Tidy(f);
  }

  // ---------------------------------------------------------------- global slots

  /** The loop of `executeProgram` that numbers the globals: with no name twice
      it gives each name its position, so distinct names get distinct slots. */
  method NumberGlobals(names: seq<string>) returns (indices: map<string, nat>)
    requires NoDuplicates(names)
    ensures forall x :: x in indices <==> x in names
    ensures forall x :: (if x in indices then indices[x] else 0) == Machine.GlobalSlot(names, x)
    ensures forall x, y :: x in indices && y in indices && x != y ==> indices[x] != indices[y]
  {
    indices := map[];
    for i := 0 to |names|
      invariant forall x :: x in indices <==> x in names[..i]
      invariant forall x :: x in indices ==> indices[x] < i && names[indices[x]] == x
    {
      indices := indices[names[i] := i];
      assert names[..i + 1] == names[..i] + [names[i]];
    }
    assert names[..|names|] == names;
    forall x ensures (if x in indices then indices[x] else 0) == Machine.GlobalSlot(names, x) {
      if x in indices { IndexOfUnique(names, indices[x]); }
    }
  }
}
