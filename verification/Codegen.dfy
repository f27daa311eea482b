/** The compiler as a function of the chain of scopes it is working in.

    A scope is a function under construction together with its symbol table.
    The last scope is the enclosing function, the first one is the program. Pools
    grow while code is emitted; a use of a free variable is emitted by name and
    patched when its function is finished. */
module Codegen {
  import opened Basics
  import opened Ast
  import opened Bytecode

  datatype SymbolType = GLOBAL | LOCAL | FREE | NOT_FOUND

  datatype Scope = Scope(fn: Function, table: map<string, SymbolType>)

  type Scopes = seq<Scope>

  // ---------------------------------------------------------------- symbol tables

  function LookupLocally(sc: Scope, x: string): SymbolType {
    if x in sc.table then sc.table[x] else NOT_FOUND
  }

  /** Innermost table that knows the name decides; a local of an enclosing
      function, or a name nobody knows, is free. */
  function Lookup(cs: Scopes, x: string): SymbolType
    requires cs != []
  {
    var n := |cs|;
    if x in cs[n-1].table then cs[n-1].table[x]
    else if n == 1 then NOT_FOUND
    else if Lookup(cs[..n-1], x) == GLOBAL then GLOBAL
    else FREE
  }

  function Last(cs: Scopes): Scope
    requires cs != []
  {
    cs[|cs|-1]
  }

  function WithFn(cs: Scopes, fn: Function): (r: Scopes)
    requires cs != []
    ensures |r| == |cs|
  {
    cs[|cs|-1 := cs[|cs|-1].(fn := fn)]
  }

  function Insert(cs: Scopes, i: nat, x: string, t: SymbolType): (r: Scopes)
    requires i < |cs|
    ensures |r| == |cs|
  {
    cs[i := cs[i].(table := cs[i].table[x := t])]
  }

  // ---------------------------------------------------------------- pools

  function AllocConstant(cs: Scopes, c: Constant): (r: (Scopes, nat))
    requires cs != []
    ensures |r.0| == |cs|
  {
    var fn := Last(cs).fn;
    (WithFn(cs, fn.(constants := AddUnique(fn.constants, c))), IndexOf(fn.constants, c))
  }

  function AllocName(cs: Scopes, x: string): (r: (Scopes, nat))
    requires cs != []
    ensures |r.0| == |cs|
  {
    var fn := Last(cs).fn;
    (WithFn(cs, fn.(names := AddUnique(fn.names, x))), IndexOf(fn.names, x))
  }

  function AddFreeVar(cs: Scopes, x: string): (r: Scopes)
    requires cs != []
    ensures |r| == |cs|
  {
    var fn := Last(cs).fn;
    WithFn(cs, fn.(freeVars := AddUnique(fn.freeVars, x)))
  }

  function AddLocalVar(cs: Scopes, x: string): (r: Scopes)
    requires cs != []
    ensures |r| == |cs|
  {
    var fn := Last(cs).fn;
    WithFn(cs, fn.(localVars := AddUnique(fn.localVars, x)))
  }

  // ---------------------------------------------------------------- scope analysis

  /** `visit(Global)`: the name joins the enclosing function's names and table
      and the program's. */
  function DeclareGlobal(cs: Scopes, x: string): (r: Scopes)
    requires cs != []
    ensures |r| == |cs|
  {
    var c1 := Insert(AllocName(cs, x).0, |cs|-1, x, GLOBAL);
    var c2 := c1[0 := c1[0].(fn := c1[0].fn.(names := AddUnique(c1[0].fn.names, x)))];
    Insert(c2, 0, x, GLOBAL)
  }

  function DeclareGlobals(cs: Scopes, xs: seq<string>): (r: Scopes)
    requires cs != []
    ensures |r| == |cs|
    decreases |xs|
  {
    if xs == [] then cs else DeclareGlobals(DeclareGlobal(cs, xs[0]), xs[1..])
  }

  /** `assigns` on one simple assignment. */
  function DeclareAssigned(cs: Scopes, x: string): (r: Scopes)
    requires cs != []
    ensures |r| == |cs|
  {
    if |cs| == 1 || LookupLocally(Last(cs), x) == GLOBAL then
      Insert(AllocName(cs, x).0, |cs|-1, x, GLOBAL)
    else
      Insert(AddLocalVar(cs, x), |cs|-1, x, LOCAL)
  }

  function DeclareAssigns(cs: Scopes, xs: seq<string>): (r: Scopes)
    requires cs != []
    ensures |r| == |cs|
    decreases |xs|
  {
    if xs == [] then cs else DeclareAssigns(DeclareAssigned(cs, xs[0]), xs[1..])
  }

  function DeclareParams(cs: Scopes, xs: seq<string>): (r: Scopes)
    requires cs != []
    ensures |r| == |cs|
    decreases |xs|
  {
    if xs == [] then cs
    else DeclareParams(Insert(AddLocalVar(cs, xs[0]), |cs|-1, xs[0], LOCAL), xs[1..])
  }

  // ---------------------------------------------------------------- function literals

  const EMPTY_FUNCTION: Function := Function(Compiled, [], [], 0, [], [], [], [], [], [])

  /** The scope chain when the body of a literal starts to be compiled. */
  function OpenFunction(cs: Scopes, params: seq<string>, body: seq<Stmt>): (r: Scopes)
    ensures |r| == |cs| + 1
  {
    var c1 := DeclareParams(cs + [Scope(EMPTY_FUNCTION, map[])], params);
    var c2 := DeclareGlobals(c1, GlobalsOfBlock(body));
    var c3 := DeclareAssigns(c2, AssignsOfBlock(body));
    WithFn(c3, Last(c3).fn.(parameterCount := |params|))
  }

  /** Slot of free variable `x` among a function's references (`getFreeVar`). */
  function FreeSlot(fn: Function, x: string): nat {
    |fn.localReferenceVars| + IndexOf(fn.freeVars, x)
  }

  /** Give each reference emitted by name its slot, known once all captured
      locals are known. */
  function PatchOne(i: Instruction, fn: Function): Instruction {
    if i.PushNamed? then PushReference(FreeSlot(fn, i.name)) else i
  }

  function Patch(code: seq<Instruction>, fn: Function): (r: seq<Instruction>)
    ensures |r| == |code|
    ensures forall i :: 0 <= i < |code| ==> r[i] == PatchOne(code[i], fn)
  {
    seq(|code|, i requires 0 <= i < |code| => PatchOne(code[i], fn))
  }

  function ReferenceIndices(fn: Function): (r: seq<nat>)
    ensures |r| == |fn.localReferenceVars|
    ensures forall i :: 0 <= i < |r| ==> r[i] == IndexOf(fn.localVars, fn.localReferenceVars[i])
  {
    seq(|fn.localReferenceVars|, i requires 0 <= i < |fn.localReferenceVars| =>
      IndexOf(fn.localVars, fn.localReferenceVars[i]))
  }

  /** The enclosing function passes on a reference for each free variable of the
      literal: its own local, or one of its own free variables. */
  function CaptureAll(cs: Scopes, free: seq<string>): (r: (Scopes, seq<Instruction>))
    requires cs != []
    ensures |r.0| == |cs|
    decreases |free|
  {
    if free == [] then (cs, [])
    else
      var fn := Last(cs).fn;
      var x := free[0];
      if x in fn.localVars then
        var fn' := fn.(localReferenceVars := AddUnique(fn.localReferenceVars, x));
        var (cs', rest) := CaptureAll(WithFn(cs, fn'), free[1..]);
        (cs', [PushReference(IndexOf(fn'.localReferenceVars, x))] + rest)
      else
        var (cs', rest) := CaptureAll(AddFreeVar(cs, x), free[1..]);
        (cs', [PushNamed(x)] + rest)
  }

  /** The finished function of a compiled body. */
  function Finish(fn: Function, code: seq<Instruction>): Function {
    fn.(instructions := Patch(code, fn), localReferenceIndices := ReferenceIndices(fn))
  }

  /** What `visit(FunctionDeclaration)` does after the body: append the implicit
      return, finish the function, capture its free variables. `cs` still has the
      literal's scope on top. */
  function CloseFunction(cs: Scopes, body: seq<Stmt>, code: seq<Instruction>): (r: (Scopes, seq<Instruction>))
    requires |cs| > 1
    ensures |r.0| == |cs| - 1
  {
    var (c1, code1) :=
      if FindReturnBlock(body) then (cs, code)
      else var (c, i) := AllocConstant(cs, NoneC); (c, code + [LoadConst(i), Instruction.Return]);
    var g := Finish(Last(c1).fn, code1);
    var outer := c1[..|cs|-1];
    var k := |Last(outer).fn.functions|;
    var (c2, pushes) := CaptureAll(outer, g.freeVars);
    var fn := Last(c2).fn;
    (WithFn(c2, fn.(functions := fn.functions + [g])),
     [LoadFunc(k)] + pushes + [AllocClosure(|g.freeVars|)])
  }

  // ---------------------------------------------------------------- expressions

  function OperatorInstruction(op: Operator): Instruction {
    match op
    case PLUS => Add
    case SUB => Sub
    case MUL => Mul
    case DIV => Div
    case AND => And
    case OR => Or
    case NEG => Not
    case GT => Gt
    case LT => Gt
    case GEQ => Geq
    case LEQ => Geq
    case EQ => Eq
  }

  /** `<` and `<=` are compiled as `>` and `>=` with the operands exchanged. */
  predicate Exchanged(op: Operator) { op == LT || op == LEQ }

  function CompileConstant(c: Constant, cs: Scopes): (r: (Scopes, seq<Instruction>))
    requires cs != []
    ensures |r.0| == |cs|
  {
    var (cs', i) := AllocConstant(cs, c);
    (cs', [LoadConst(i)])
  }

  function CompileVar(x: string, cs: Scopes): (r: (Scopes, seq<Instruction>))
    requires cs != []
    ensures |r.0| == |cs|
  {
    match Lookup(cs, x)
    case LOCAL => (cs, [LoadLocal(IndexOf(Last(cs).fn.localVars, x))])
    case GLOBAL => var (cs', i) := AllocName(cs, x); (cs', [LoadGlobal(i)])
    case _ => (AddFreeVar(cs, x), [PushNamed(x), LoadReference])
  }

  function CompileExpr(e: Expr, cs: Scopes): (r: (Scopes, seq<Instruction>))
    requires cs != []
    ensures |r.0| == |cs|
    decreases e, 1
  {
    match e
    case Var(x) => CompileVar(x, cs)
    case IntegerConstant(i) => CompileConstant(IntegerC(i), cs)
    case StringConstant(t) => CompileConstant(StringC(t), cs)
    case NoneConstant => CompileConstant(NoneC, cs)
    case BooleanConstant(b) => CompileConstant(BooleanC(b), cs)
    case Fun(_, _) => CompileFun(e, cs)
    case Binary(_, _, _) => CompileBinary(e, cs)
    case Unary(_, _) => CompileUnary(e, cs)
    case Field(_, _) => CompileField(e, cs)
    case Index(_, _) => CompileIndex(e, cs)
    case Call(_, _) => CompileCall(e, cs)
    case Record(_) => CompileRecord(e, cs)
  }

  function CompileFun(e: Expr, cs: Scopes): (r: (Scopes, seq<Instruction>))
    requires e.Fun?
    requires cs != []
    ensures |r.0| == |cs|
    decreases e, 0
  {
    var Fun(params, body) := e;
    var (c1, code) := CompileBlock(body, OpenFunction(cs, params, body));
    CloseFunction(c1, body, code)
  }

  function CompileBinary(e: Expr, cs: Scopes): (r: (Scopes, seq<Instruction>))
    requires e.Binary?
    requires cs != []
    ensures |r.0| == |cs|
    decreases e, 0
  {
    var Binary(l, op, r) := e;
    var (c1, a) := CompileExpr(l, cs);
    var (c2, b) := CompileExpr(r, c1);
    (c2, (if Exchanged(op) then b + a else a + b) + [OperatorInstruction(op)])
  }

  function CompileUnary(e: Expr, cs: Scopes): (r: (Scopes, seq<Instruction>))
    requires e.Unary?
    requires cs != []
    ensures |r.0| == |cs|
    decreases e, 0
  {
    var Unary(op, x) := e;
    var (c1, a) := CompileExpr(x, cs);
    (c1, a + [if op == SUB then Neg else Not])
  }

  function CompileField(e: Expr, cs: Scopes): (r: (Scopes, seq<Instruction>))
    requires e.Field?
    requires cs != []
    ensures |r.0| == |cs|
    decreases e, 0
  {
    var Field(b, name) := e;
    var (c1, a) := CompileExpr(b, cs);
    var (c2, i) := AllocName(c1, name);
    (c2, a + [FieldLoad(i)])
  }

  function CompileIndex(e: Expr, cs: Scopes): (r: (Scopes, seq<Instruction>))
    requires e.Index?
    requires cs != []
    ensures |r.0| == |cs|
    decreases e, 0
  {
    var Index(b, i) := e;
    var (c1, x) := CompileExpr(b, cs);
    var (c2, y) := CompileExpr(i, c1);
    (c2, x + y + [IndexLoad])
  }

  function CompileCall(e: Expr, cs: Scopes): (r: (Scopes, seq<Instruction>))
    requires e.Call?
    requires cs != []
    ensures |r.0| == |cs|
    decreases e, 0
  {
    var Call(t, args) := e;
    var (c1, a) := CompileExpr(t, cs);
    var (c2, b) := CompileArgs(args, c1);
    (c2, a + b + [Instruction.Call(|args|)])
  }

  function CompileRecord(e: Expr, cs: Scopes): (r: (Scopes, seq<Instruction>))
    requires e.Record?
    requires cs != []
    ensures |r.0| == |cs|
    decreases e, 0
  {
    var Record(fs) := e;
    var (c1, a) := CompileFields(fs, cs);
    (c1, [AllocRecord] + seq(|fs|, _ => Dup) + a)
  }

  function CompileArgs(es: seq<Expr>, cs: Scopes): (r: (Scopes, seq<Instruction>))
    requires cs != []
    ensures |r.0| == |cs|
    decreases es, 0
  {
    if es == [] then (cs, [])
    else
      var (c1, a) := CompileExpr(es[0], cs);
      var (c2, b) := CompileArgs(es[1..], c1);
      (c2, a + b)
  }

  function CompileFields(fs: seq<FieldInit>, cs: Scopes): (r: (Scopes, seq<Instruction>))
    requires cs != []
    ensures |r.0| == |cs|
    decreases fs, 0
  {
    if fs == [] then (cs, [])
    else
      var (c1, a) := CompileExpr(fs[0].init, cs);
      var (c2, i) := AllocName(c1, fs[0].name);
      var (c3, b) := CompileFields(fs[1..], c2);
      (c3, a + [FieldStore(i)] + b)
  }

  // ---------------------------------------------------------------- statements

  /** The target of a simple assignment: instructions before and after the
      right-hand side. */
  function CompileTarget(x: string, cs: Scopes): (r: (Scopes, seq<Instruction>, Instruction))
    requires cs != []
    ensures |r.0| == |cs|
  {
    match Lookup(cs, x)
    case LOCAL => (cs, [], StoreLocal(IndexOf(Last(cs).fn.localVars, x)))
    case GLOBAL => var (cs', i) := AllocName(cs, x); (cs', [], StoreGlobal(i))
    case _ => (AddFreeVar(cs, x), [PushNamed(x)], StoreReference)
  }

  function CompileStmt(s: Stmt, cs: Scopes): (r: (Scopes, seq<Instruction>))
    requires cs != []
    ensures |r.0| == |cs|
    decreases s, 1
  {
    match s
    case Global(x) => (DeclareGlobal(cs, x), [])
    case AssignVar(_, _) => CompileAssignVar(s, cs)
    case AssignField(_, _, _) => CompileAssignField(s, cs)
    case AssignIndex(_, _, _) => CompileAssignIndex(s, cs)
    case CallStmt(_) => CompileCallStmt(s, cs)
    case If(_, _) => CompileIf(s, cs)
    case IfElse(_, _, _) => CompileIfElse(s, cs)
    case While(_, _) => CompileWhile(s, cs)
    case Return(_) => CompileReturn(s, cs)
  }

  function CompileAssignVar(s: Stmt, cs: Scopes): (r: (Scopes, seq<Instruction>))
    requires s.AssignVar?
    requires cs != []
    ensures |r.0| == |cs|
    decreases s, 0
  {
    var AssignVar(x, e) := s;
    var (c1, before, store) := CompileTarget(x, cs);
    var (c2, a) := CompileExpr(e, c1);
    (c2, before + a + [store])
  }

  function CompileAssignField(s: Stmt, cs: Scopes): (r: (Scopes, seq<Instruction>))
    requires s.AssignField?
    requires cs != []
    ensures |r.0| == |cs|
    decreases s, 0
  {
    var AssignField(b, name, e) := s;
    var (c1, x) := CompileExpr(b, cs);
    var (c2, i) := AllocName(c1, name);
    var (c3, y) := CompileExpr(e, c2);
    (c3, x + y + [FieldStore(i)])
  }

  function CompileAssignIndex(s: Stmt, cs: Scopes): (r: (Scopes, seq<Instruction>))
    requires s.AssignIndex?
    requires cs != []
    ensures |r.0| == |cs|
    decreases s, 0
  {
    var AssignIndex(b, i, e) := s;
    var (c1, x) := CompileExpr(b, cs);
    var (c2, y) := CompileExpr(i, c1);
    var (c3, z) := CompileExpr(e, c2);
    (c3, x + y + z + [IndexStore])
  }

  function CompileCallStmt(s: Stmt, cs: Scopes): (r: (Scopes, seq<Instruction>))
    requires s.CallStmt?
    requires cs != []
    ensures |r.0| == |cs|
    decreases s, 0
  {
    var CallStmt(e) := s;
    var (c1, a) := CompileExpr(e, cs);
    (c1, a + [Pop])
  }

  function CompileIf(s: Stmt, cs: Scopes): (r: (Scopes, seq<Instruction>))
    requires s.If?
    requires cs != []
    ensures |r.0| == |cs|
    decreases s, 0
  {
    var If(c, t) := s;
    var (c1, a) := CompileExpr(c, cs);
    var (c2, b) := CompileBlock(t, c1);
    (c2, a + [Not, Instruction.If(|b| + 1)] + b)
  }

  function CompileIfElse(s: Stmt, cs: Scopes): (r: (Scopes, seq<Instruction>))
    requires s.IfElse?
    requires cs != []
    ensures |r.0| == |cs|
    decreases s, 0
  {
    var IfElse(c, t, e) := s;
    var (c1, a) := CompileExpr(c, cs);
    var (c2, b) := CompileBlock(t, c1);
    var (c3, d) := CompileBlock(e, c2);
    var d' := d + [Goto(|b| + 1)];
    (c3, a + [Instruction.If(|d'| + 1)] + d' + b)
  }

  function CompileWhile(s: Stmt, cs: Scopes): (r: (Scopes, seq<Instruction>))
    requires s.While?
    requires cs != []
    ensures |r.0| == |cs|
    decreases s, 0
  {
    var While(c, body) := s;
    var (c1, a) := CompileExpr(c, cs);
    var (c2, b) := CompileBlock(body, c1);
    var a' := a + [Not, Instruction.If(|b| + 2)];
    (c2, a' + b + [Goto(-(|a'| + |b|))])
  }

  function CompileReturn(s: Stmt, cs: Scopes): (r: (Scopes, seq<Instruction>))
    requires s.Return?
    requires cs != []
    ensures |r.0| == |cs|
    decreases s, 0
  {
    var Return(e) := s;
    var (c1, a) := CompileExpr(e, cs);
    (c1, a + [Instruction.Return])
  }

  function CompileBlock(ss: seq<Stmt>, cs: Scopes): (r: (Scopes, seq<Instruction>))
    requires cs != []
    ensures |r.0| == |cs|
    decreases ss, 0
  {
    if ss == [] then (cs, [])
    else
      var (c1, a) := CompileStmt(ss[0], cs);
      var (c2, b) := CompileBlock(ss[1..], c1);
      (c2, a + b)
  }

  // ---------------------------------------------------------------- programs

  const NATIVE_NAMES: seq<string> := ["print", "input", "intcast"]

  /** The program scope before `globals` and `assigns`: placeholders for the three
      built-in functions and their names. */
  function ProgramScope(): Scope {
    var one := EMPTY_FUNCTION.(parameterCount := 1, localVars := ["x"]);
    Scope(EMPTY_FUNCTION.(functions := [one, EMPTY_FUNCTION, one], names := NATIVE_NAMES),
          map["print" := GLOBAL, "input" := GLOBAL, "intcast" := GLOBAL])
  }

  /** Stores a closure of each built-in function into its global. */
  function Prologue(): seq<Instruction> {
    [LoadFunc(0), AllocClosure(0), StoreGlobal(0),
     LoadFunc(1), AllocClosure(0), StoreGlobal(1),
     LoadFunc(2), AllocClosure(0), StoreGlobal(2)]
  }

  function OpenProgram(program: seq<Stmt>): (r: Scopes)
    ensures |r| == 1
  {
    DeclareAssigns(DeclareGlobals([ProgramScope()], GlobalsOfBlock(program)), AssignsOfBlock(program))
  }

  /** The program's own code is not patched: an unresolved name stays by name. */
  function CompileProgram(program: seq<Stmt>): Function {
    var (cs, code) := CompileBlock(program, OpenProgram(program));
    Last(cs).fn.(instructions := Prologue() + code)
  }
}
