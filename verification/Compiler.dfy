/** The compiler as it is written: visitors that overwrite the current block, grow
    pools and tables, and pass the left-hand-side flag down. Each visitor is
    proved to produce the scopes and the code `Codegen` says. */
module Compiler {
  import opened Basics
  import opened Ast
  import opened Bytecode
  import opened Codegen

  // ---------------------------------------------------------------- searches

  lemma {:induction false} FirstOccurrence<T>(s: seq<T>, x: T, i: nat)
    requires i < |s| && s[i] == x && x !in s[..i]
    ensures IndexOf(s, x) == i
    decreases i
  {
    if i > 0 {
      assert s[..i][0] == s[0] && s[1..][..i - 1] == s[..i][1..];
      FirstOccurrence(s[1..], x, i - 1);
    }
  }

  /** `std::find` and the hand-written searches of the pools. */
  method Find<T(==)>(s: seq<T>, x: T) returns (i: nat)
    ensures i == IndexOf(s, x)
  {
    i := 0;
    while i < |s| && s[i] != x
      invariant i <= |s| && x !in s[..i]
    {
      i := i + 1;
    }
    if i < |s| {
      FirstOccurrence(s, x, i);
    } else {
      assert s[..i] == s;
    }
  }

  // ---------------------------------------------------------------- syntactic passes

  /** `findReturn`. */
  method FindReturns(s: Stmt) returns (found: bool)
    ensures found == FindReturn(s)
    decreases SizeStmt(s)
  {
    match s
    case Return(_) => found := true;
    case IfElse(_, t, e) =>
      found := FindReturnsBlock(t);
      if found { found := FindReturnsBlock(e); }
    case While(_, b) => found := FindReturnsBlock(b);
    case _ => found := false;
  }

  method FindReturnsBlock(ss: seq<Stmt>) returns (found: bool)
    ensures found == FindReturnBlock(ss)
    decreases SizeBlock(ss)
  {
    found := false;
    var i := 0;
    while i < |ss|
      invariant i <= |ss|
      invariant FindReturnBlock(ss) == (found || FindReturnBlock(ss[i..]))
    {
      StmtSmaller(ss, i);
      assert ss[i..][0] == ss[i] && ss[i..][1..] == ss[i + 1..];
      if !found { found := FindReturns(ss[i]); }
      i := i + 1;
    }
  }

  lemma {:induction false} DeclareGlobalsTwice(cs: Scopes, a: seq<string>, b: seq<string>)
    requires cs != []
    ensures DeclareGlobals(cs, a + b) == DeclareGlobals(DeclareGlobals(cs, a), b)
    decreases |a|
  {
    if a == [] { assert a + b == b; }
    else {
      assert (a + b)[1..] == a[1..] + b;
      DeclareGlobalsTwice(DeclareGlobal(cs, a[0]), a[1..], b);
    }
  }

  lemma {:induction false} DeclareAssignsTwice(cs: Scopes, a: seq<string>, b: seq<string>)
    requires cs != []
    ensures DeclareAssigns(cs, a + b) == DeclareAssigns(DeclareAssigns(cs, a), b)
    decreases |a|
  {
    if a == [] { assert a + b == b; }
    else {
      assert (a + b)[1..] == a[1..] + b;
      DeclareAssignsTwice(DeclareAssigned(cs, a[0]), a[1..], b);
    }
  }

  // ---------------------------------------------------------------- compiler

  /** `scopes` holds the functions under construction with their symbol tables;
      the last one is `enclosing_function_`, the first one `global_function_`. */
  class Compiler {
    var scopes: Scopes
    var currentBlock: seq<Instruction>
    var lhs: bool

    constructor ()
      ensures !lhs
    {
      scopes, currentBlock, lhs := [], [], false;
    }

    /** The visitor left what the specification says, with the flag cleared. */
    ghost predicate Did(r: (Scopes, seq<Instruction>))
      reads this
    {
      scopes == r.0 && currentBlock == r.1 && !lhs
    }

    // -------------------------------------------------------------- pools

    method AllocateConstant(c: Constant) returns (index: nat)
      requires scopes != []
      modifies this`scopes
      ensures (scopes, index) == AllocConstant(old(scopes), c)
    {
      var fn := Last(scopes).fn;
      index := Find(fn.constants, c);
      if index == |fn.constants| {
        scopes := WithFn(scopes, fn.(constants := fn.constants + [c]));
      } else {
        assert scopes == WithFn(scopes, fn);
      }
    }

    method AllocateName(x: string) returns (index: nat)
      requires scopes != []
      modifies this`scopes
      ensures (scopes, index) == AllocName(old(scopes), x)
    {
      var fn := Last(scopes).fn;
      index := Find(fn.names, x);
      if index == |fn.names| {
        scopes := WithFn(scopes, fn.(names := fn.names + [x]));
      } else {
        assert scopes == WithFn(scopes, fn);
      }
    }

    // -------------------------------------------------------------- scope analysis

    method VisitGlobal(x: string)
      requires scopes != [] && !lhs
      modifies this
      ensures Did((DeclareGlobal(old(scopes), x), []))
    {
      currentBlock := [];
      var index := AllocateName(x);
      scopes := Insert(scopes, |scopes|-1, x, GLOBAL);
      scopes := scopes[0 := scopes[0].(fn := scopes[0].fn.(names := AddUnique(scopes[0].fn.names, x)))];
      scopes := Insert(scopes, 0, x, GLOBAL);
    }

    method Globals(s: Stmt)
      requires scopes != [] && !lhs
      modifies this
      ensures scopes == DeclareGlobals(old(scopes), GlobalsOf(s)) && !lhs
      decreases SizeStmt(s)
    {
      match s
      case If(_, t) => GlobalsOfBody(t);
      case IfElse(_, t, e) =>
        DeclareGlobalsTwice(scopes, GlobalsOfBlock(t), GlobalsOfBlock(e));
        GlobalsOfBody(t);
        GlobalsOfBody(e);
      case While(_, b) => GlobalsOfBody(b);
      case Global(x) => VisitGlobal(x);
      case _ =>
    }

    method GlobalsOfBody(ss: seq<Stmt>)
      requires scopes != [] && !lhs
      modifies this
      ensures scopes == DeclareGlobals(old(scopes), GlobalsOfBlock(ss)) && !lhs
      decreases SizeBlock(ss)
    {
      for i := 0 to |ss|
        invariant scopes != [] && !lhs
        invariant DeclareGlobals(old(scopes), GlobalsOfBlock(ss)) == DeclareGlobals(scopes, GlobalsOfBlock(ss[i..]))
      {
        StmtSmaller(ss, i);
        assert ss[i..][0] == ss[i] && ss[i..][1..] == ss[i + 1..];
        DeclareGlobalsTwice(scopes, GlobalsOf(ss[i]), GlobalsOfBlock(ss[i + 1..]));
        Globals(ss[i]);
      }
    }

    method Assigns(s: Stmt)
      requires scopes != []
      modifies this`scopes
      ensures scopes == DeclareAssigns(old(scopes), AssignsOf(s))
      decreases SizeStmt(s)
    {
      match s
      case AssignVar(x, _) =>
        if |scopes| == 1 || LookupLocally(Last(scopes), x) == GLOBAL {
          var index := AllocateName(x);
          scopes := Insert(scopes, |scopes|-1, x, GLOBAL);
        } else {
          scopes := AddLocalVar(scopes, x);
          scopes := Insert(scopes, |scopes|-1, x, LOCAL);
        }
        assert [x][1..] == [];
      case If(_, t) => AssignsOfBody(t);
      case IfElse(_, t, e) =>
        DeclareAssignsTwice(scopes, AssignsOfBlock(t), AssignsOfBlock(e));
        AssignsOfBody(t);
        AssignsOfBody(e);
      case While(_, b) => AssignsOfBody(b);
      case _ =>
    }

    method AssignsOfBody(ss: seq<Stmt>)
      requires scopes != []
      modifies this`scopes
      ensures scopes == DeclareAssigns(old(scopes), AssignsOfBlock(ss))
      decreases SizeBlock(ss)
    {
      for i := 0 to |ss|
        invariant scopes != []
        invariant DeclareAssigns(old(scopes), AssignsOfBlock(ss)) == DeclareAssigns(scopes, AssignsOfBlock(ss[i..]))
      {
        StmtSmaller(ss, i);
        assert ss[i..][0] == ss[i] && ss[i..][1..] == ss[i + 1..];
        DeclareAssignsTwice(scopes, AssignsOf(ss[i]), AssignsOfBlock(ss[i + 1..]));
        Assigns(ss[i]);
      }
    }

    // -------------------------------------------------------------- expressions

    /** `visit(Expression)`: a variable, as a value or as a target. */
    method VisitVariable(x: string)
      requires scopes != []
      modifies this
      ensures lhs == old(lhs)
      ensures !lhs ==> scopes == CompileVar(x, old(scopes)).0 && currentBlock == CompileVar(x, old(scopes)).1
      ensures lhs ==>
        var (cs, before, store) := CompileTarget(x, old(scopes)); scopes == cs && currentBlock == before + [store]
    {
      currentBlock := [];
      if Lookup(scopes, x) == LOCAL {
        var i := Find(Last(scopes).fn.localVars, x);
        currentBlock := currentBlock + [if lhs then StoreLocal(i) else LoadLocal(i)];
        return;
      }
      if Lookup(scopes, x) == GLOBAL {
        var i := AllocateName(x);
        currentBlock := currentBlock + [if lhs then StoreGlobal(i) else LoadGlobal(i)];
        return;
      }
      scopes := AddFreeVar(scopes, x);
      currentBlock := currentBlock + [PushNamed(x)];
      currentBlock := currentBlock + [if lhs then StoreReference else LoadReference];
    }

    method VisitConstant(c: Constant)
      requires scopes != [] && !lhs
      modifies this
      ensures Did(CompileConstant(c, old(scopes)))
    {
      currentBlock := [];
      var index := AllocateConstant(c);
      currentBlock := currentBlock + [LoadConst(index)];
    }

    method VisitExpr(e: Expr)
      requires scopes != [] && !lhs
      modifies this
      ensures Did(CompileExpr(e, old(scopes)))
      decreases Size(e), 1
    {
      match e
      case Var(x) => VisitVariable(x);
      case IntegerConstant(i) => VisitConstant(IntegerC(i));
      case StringConstant(t) => VisitConstant(StringC(t));
      case NoneConstant => VisitConstant(NoneC);
      case BooleanConstant(b) => VisitConstant(BooleanC(b));
      case Fun(ps, b) => VisitFunctionDeclaration(e);
      case Binary(_, _, _) => VisitBinary(e);
      case Unary(op, x) =>
        VisitExpr(x);
        currentBlock := currentBlock + [if op == SUB then Neg else Not];
      case Field(b, name) => VisitField(b, name);
      case Index(b, i) => VisitIndex(b, i);
      case Call(t, args) => VisitCall(t, args);
      case Record(fs) => VisitRecord(fs);
    }

    method VisitBinary(e: Expr)
      requires e.Binary?
      requires scopes != [] && !lhs
      modifies this
      ensures Did(CompileBinary(e, old(scopes)))
      decreases Size(e), 0
    {
      VisitExpr(e.left);
      var firstBlock := currentBlock;
      VisitExpr(e.right);
      var secondBlock := currentBlock;
      if e.op == LT || e.op == LEQ {
        firstBlock, secondBlock := secondBlock, firstBlock;
      }
      currentBlock := firstBlock + secondBlock;
      currentBlock := currentBlock + [OperatorInstruction(e.op)];
    }

    /** `visit(FieldDereference)`: the flag says whether it is a target. */
    method VisitField(b: Expr, name: string)
      requires scopes != []
      modifies this
      ensures !lhs
      ensures var (c1, a) := CompileExpr(b, old(scopes));
        var (c2, i) := AllocName(c1, name);
        scopes == c2 && currentBlock == a + [if old(lhs) then FieldStore(i) else FieldLoad(i)]
      decreases Size(b) + 1, 0
    {
      var assign := lhs;
      lhs := false;
      VisitExpr(b);
      var i := AllocateName(name);
      currentBlock := currentBlock + [if assign then FieldStore(i) else FieldLoad(i)];
    }

    method VisitIndex(b: Expr, i: Expr)
      requires scopes != []
      modifies this
      ensures !lhs
      ensures var (c1, x) := CompileExpr(b, old(scopes));
        var (c2, y) := CompileExpr(i, c1);
        scopes == c2 && currentBlock == x + y + [if old(lhs) then IndexStore else IndexLoad]
      decreases Size(b) + Size(i) + 1, 0
    {
      var assign := lhs;
      lhs := false;
      VisitExpr(b);
      var baseBlock := currentBlock;
      VisitExpr(i);
      var indexBlock := currentBlock;
      currentBlock := baseBlock + indexBlock;
      currentBlock := currentBlock + [if assign then IndexStore else IndexLoad];
    }

    method VisitCall(t: Expr, args: seq<Expr>)
      requires scopes != [] && !lhs
      modifies this
      ensures Did(CompileCall(Expr.Call(t, args), old(scopes)))
      decreases 1 + Size(t) + SizeArgs(args), 0
    {
      hide CompileExpr, CompileArgs;
      VisitExpr(t);
      var callBlock := currentBlock;
      callBlock := VisitArguments(args, callBlock);
      callBlock := callBlock + [Instruction.Call(|args|)];
      currentBlock := callBlock;
    }

    /** The loop of `visit(Call)`. */
    method VisitArguments(args: seq<Expr>, start: seq<Instruction>) returns (callBlock: seq<Instruction>)
      requires scopes != [] && !lhs
      modifies this
      ensures !lhs && scopes == CompileArgs(args, old(scopes)).0
      ensures callBlock == start + CompileArgs(args, old(scopes)).1
      decreases SizeArgs(args), 2
    {
      hide CompileExpr;
      callBlock := start;
      assert args[0..] == args;
      for i := 0 to |args|
        invariant scopes != [] && !lhs
        invariant CompileArgs(args, old(scopes)).0 == CompileArgs(args[i..], scopes).0
        invariant start + CompileArgs(args, old(scopes)).1 == callBlock + CompileArgs(args[i..], scopes).1
      {
        ArgSmaller(args, i);
        assert args[i..][0] == args[i] && args[i..][1..] == args[i + 1..];
        VisitExpr(args[i]);
        callBlock := callBlock + currentBlock;
      }
    }

    method VisitRecord(fs: seq<FieldInit>)
      requires scopes != [] && !lhs
      modifies this
      ensures Did(CompileRecord(Expr.Record(fs), old(scopes)))
      decreases 1 + SizeFields(fs), 0
    {
      var recordBlock := [AllocRecord];
      for i := 0 to |fs|
        invariant recordBlock == [AllocRecord] + seq(i, _ => Dup)
      {
        recordBlock := recordBlock + [Dup];
      }
      var fieldsBlock := VisitFields(fs);
      recordBlock := recordBlock + fieldsBlock;
      currentBlock := recordBlock;
    }

    /** The second loop of `visit(Record)`. */
    method VisitFields(fs: seq<FieldInit>) returns (block: seq<Instruction>)
      requires scopes != [] && !lhs
      modifies this
      ensures scopes == CompileFields(fs, old(scopes)).0 && block == CompileFields(fs, old(scopes)).1 && !lhs
      decreases SizeFields(fs), 2
    {
      hide CompileExpr, AllocName, AddUnique;
      block := [];
      assert fs[0..] == fs;
      for i := 0 to |fs|
        invariant scopes != [] && !lhs
        invariant CompileFields(fs, old(scopes)).0 == CompileFields(fs[i..], scopes).0
        invariant CompileFields(fs, old(scopes)).1 == block + CompileFields(fs[i..], scopes).1
      {
        FieldSmaller(fs, i);
        assert fs[i..][0] == fs[i] && fs[i..][1..] == fs[i + 1..];
        VisitExpr(fs[i].init);
        block := block + currentBlock;
        var index := AllocateName(fs[i].name);
        block := block + [FieldStore(index)];
      }
    }

    // -------------------------------------------------------------- function literals

    method VisitFunctionDeclaration(e: Expr)
      requires e.Fun?
      requires scopes != [] && !lhs
      modifies this
      ensures Did(CompileFun(e, old(scopes)))
      decreases Size(e), 0
    {
      hide CompileBlock, DeclareParams, DeclareGlobals, DeclareAssigns, CloseFunction;
      var Fun(params, body) := e;
      scopes := scopes + [Scope(EMPTY_FUNCTION, map[])];
      VisitParameters(params);
      GlobalsOfBody(body);
      AssignsOfBody(body);
      scopes := WithFn(scopes, Last(scopes).fn.(parameterCount := |params|));
      VisitBlock(body);
      CloseDeclaration(body);
    }

    /** Parameters become the first locals of the literal. */
    method VisitParameters(params: seq<string>)
      requires scopes != [] && !lhs
      modifies this`scopes
      ensures scopes == DeclareParams(old(scopes), params)
    {
      assert params[0..] == params;
      for i := 0 to |params|
        invariant scopes != []
        invariant DeclareParams(old(scopes), params) == DeclareParams(scopes, params[i..])
      {
        assert params[i..][0] == params[i] && params[i..][1..] == params[i + 1..];
        scopes := AddLocalVar(scopes, params[i]);
        scopes := Insert(scopes, |scopes|-1, params[i], LOCAL);
      }
    }

    /** After the body: append the implicit return, patch, capture. */
    method CloseDeclaration(body: seq<Stmt>)
      requires |scopes| > 1 && !lhs
      modifies this
      ensures Did(CloseFunction(old(scopes), body, old(currentBlock)))
    {
      var found := FindReturnsBlock(body);
      if !found {
        var index := AllocateConstant(NoneC);
        currentBlock := currentBlock + [LoadConst(index)];
        currentBlock := currentBlock + [Instruction.Return];
        assert currentBlock == old(currentBlock) + [LoadConst(index), Instruction.Return];
      }
      var fn := Last(scopes).fn;
      var code := PatchAll(currentBlock, fn);
      var indices := MakeReferenceIndices(fn);
      var g := fn.(instructions := code, localReferenceIndices := indices);
      assert g == Finish(fn, currentBlock);
      scopes := scopes[..|scopes|-1];
      var k := |Last(scopes).fn.functions|;
      var functionBlock := [LoadFunc(k)];
      var pushes := Capture(g.freeVars);
      functionBlock := functionBlock + pushes;
      functionBlock := functionBlock + [AllocClosure(|g.freeVars|)];
      var outer := Last(scopes).fn;
      scopes := WithFn(scopes, outer.(functions := outer.functions + [g]));
      currentBlock := functionBlock;
    }

    /** Every push of a variable by name gets its slot. */
    method PatchAll(code: seq<Instruction>, fn: Function) returns (r: seq<Instruction>)
      ensures r == Patch(code, fn)
    {
      r := code;
      for i := 0 to |code|
        invariant |r| == |code|
        invariant forall j :: 0 <= j < i ==> r[j] == PatchOne(code[j], fn)
        invariant forall j :: i <= j < |code| ==> r[j] == code[j]
      {
        if r[i].PushNamed? {
          var slot := Find(fn.freeVars, r[i].name);
          r := r[i := PushReference(|fn.localReferenceVars| + slot)];
        }
      }
    }

    method MakeReferenceIndices(fn: Function) returns (r: seq<nat>)
      ensures r == ReferenceIndices(fn)
    {
      r := [];
      for i := 0 to |fn.localReferenceVars|
        invariant |r| == i
        invariant forall j :: 0 <= j < i ==> r[j] == IndexOf(fn.localVars, fn.localReferenceVars[j])
      {
        var at := Find(fn.localVars, fn.localReferenceVars[i]);
        r := r + [at];
      }
    }

    /** The loop over the free variables of a finished literal. */
    method Capture(free: seq<string>) returns (pushes: seq<Instruction>)
      requires scopes != [] && !lhs
      modifies this`scopes
      ensures scopes == CaptureAll(old(scopes), free).0 && pushes == CaptureAll(old(scopes), free).1
    {
      hide AddUnique, AddFreeVar, WithFn;
      pushes := [];
      assert free[0..] == free;
      for i := 0 to |free|
        invariant scopes != []
        invariant CaptureAll(old(scopes), free).0 == CaptureAll(scopes, free[i..]).0
        invariant CaptureAll(old(scopes), free).1 == pushes + CaptureAll(scopes, free[i..]).1
      {
        assert free[i..][0] == free[i] && free[i..][1..] == free[i + 1..];
        var x := free[i];
        var fn := Last(scopes).fn;
        if x in fn.localVars {
          fn := fn.(localReferenceVars := AddUnique(fn.localReferenceVars, x));
          scopes := WithFn(scopes, fn);
          var slot := Find(fn.localReferenceVars, x);
          pushes := pushes + [PushReference(slot)];
        } else {
          scopes := AddFreeVar(scopes, x);
          pushes := pushes + [PushNamed(x)];
        }
      }
    }

    // -------------------------------------------------------------- statements

    method VisitStmt(s: Stmt)
      requires scopes != [] && !lhs
      modifies this
      ensures Did(CompileStmt(s, old(scopes)))
      decreases SizeStmt(s), 1
    {
      match s
      case Global(x) => VisitGlobal(x);
      case AssignVar(_, _) => VisitAssignment(s);
      case AssignField(_, _, _) => VisitAssignment(s);
      case AssignIndex(_, _, _) => VisitAssignment(s);
      case CallStmt(e) =>
        VisitExpr(e);
        currentBlock := currentBlock + [Pop];
      case If(_, _) => VisitIf(s);
      case IfElse(_, _, _) => VisitIf(s);
      case While(_, _) => VisitWhile(s);
      case Return(e) =>
        VisitExpr(e);
        currentBlock := currentBlock + [Instruction.Return];
    }

    /** The right-hand side goes before the last instruction of the target. */
    method VisitAssignment(s: Stmt)
      requires s.AssignVar? || s.AssignField? || s.AssignIndex?
      requires scopes != [] && !lhs
      modifies this
      ensures Did(CompileStmt(s, old(scopes)))
      decreases SizeStmt(s), 0
    {
      lhs := true;
      match s {
        case AssignVar(x, _) => VisitVariable(x);
        case AssignField(b, name, _) => VisitField(b, name);
        case AssignIndex(b, i, _) => VisitIndex(b, i);
      }
      var lhsBlock := currentBlock;
      lhs := false;
      VisitExpr(s.rhs);
      var exprBlock := currentBlock;
      var n := |lhsBlock|;
      currentBlock := lhsBlock[..n-1] + exprBlock + [lhsBlock[n-1]];
    }

    method VisitIf(s: Stmt)
      requires s.If? || s.IfElse?
      requires scopes != [] && !lhs
      modifies this
      ensures s.If? ==> Did(CompileIf(s, old(scopes)))
      ensures s.IfElse? ==> Did(CompileIfElse(s, old(scopes)))
      decreases SizeStmt(s), 0
    {
      hide CompileExpr, CompileBlock;
      VisitExpr(s.cond);
      var conditionBlock := currentBlock;
      VisitBlock(s.thenPart);
      var thenBlock := currentBlock;
      if s.IfElse? {
        VisitBlock(s.elsePart);
        var elseBlock := currentBlock;
        elseBlock := elseBlock + [Goto(|thenBlock| + 1)];
        conditionBlock := conditionBlock + [Instruction.If(|elseBlock| + 1)];
        conditionBlock := conditionBlock + elseBlock;
        conditionBlock := conditionBlock + thenBlock;
      } else {
        conditionBlock := conditionBlock + [Not];
        conditionBlock := conditionBlock + [Instruction.If(|thenBlock| + 1)];
        conditionBlock := conditionBlock + thenBlock;
      }
      currentBlock := conditionBlock;
    }

    method VisitWhile(s: Stmt)
      requires s.While?
      requires scopes != [] && !lhs
      modifies this
      ensures Did(CompileWhile(s, old(scopes)))
      decreases SizeStmt(s), 0
    {
      hide CompileExpr, CompileBlock;
      VisitExpr(s.cond);
      var conditionBlock := currentBlock;
      VisitBlock(s.body);
      var bodyBlock := currentBlock;
      conditionBlock := conditionBlock + [Not];
      conditionBlock := conditionBlock + [Instruction.If(|bodyBlock| + 2)];
      bodyBlock := bodyBlock + [Goto(-(|conditionBlock| + |bodyBlock|))];
      conditionBlock := conditionBlock + bodyBlock;
      currentBlock := conditionBlock;
    }

    method VisitBlock(ss: seq<Stmt>)
      requires scopes != [] && !lhs
      modifies this
      ensures Did(CompileBlock(ss, old(scopes)))
      decreases SizeBlock(ss), 0
    {
      var block: seq<Instruction> := [];
      assert ss[0..] == ss;
      for i := 0 to |ss|
        invariant scopes != [] && !lhs
        invariant CompileBlock(ss, old(scopes)).0 == CompileBlock(ss[i..], scopes).0
        invariant CompileBlock(ss, old(scopes)).1 == block + CompileBlock(ss[i..], scopes).1
      {
        StmtSmaller(ss, i);
        assert ss[i..][0] == ss[i] && ss[i..][1..] == ss[i + 1..];
        VisitStmt(ss[i]);
        block := block + currentBlock;
      }
      currentBlock := block;
    }

    // -------------------------------------------------------------- programs

    /** `compile`: the finished program function. */
    method Compile(program: seq<Stmt>) returns (main: Function)
      requires !lhs
      modifies this
      ensures main == CompileProgram(program) && !lhs
    {
      scopes := [ProgramScope()];
      var nativeBlock := Prologue();
      GlobalsOfBody(program);
      AssignsOfBody(program);
      VisitBlock(program);
      nativeBlock := nativeBlock + currentBlock;
      main := Last(scopes).fn.(instructions := nativeBlock);
    }
  }
}
