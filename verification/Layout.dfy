/** Where names live and what the finished code looks like.

    `Code` gives the instruction list of a construct directly in terms of the
    FINISHED function it sits in and of its lexical environment: every index is
    a position in a finished pool, nothing is patched. `Ok` says that the pools
    hold everything the code mentions. The compiler, which fills pools as it goes
    and patches references at the end, is shown to produce exactly this. */
module Layout {
  import opened Basics
  import opened Ast
  import opened Bytecode
  import opened Codegen

  /** The nest of finished functions around a piece of code, innermost first. */
  datatype Env =
    | Top(fn: Function)
    | Nested(fn: Function, globals: set<string>, parent: Env)

  datatype Place = LocalPlace | GlobalPlace | FreePlace

  /** Static scoping over finished functions: a name no function binds is global. */
  function Resolve(env: Env, x: string): Place {
    match env
    case Top(_) => GlobalPlace
    case Nested(fn, gs, parent) =>
      if x in gs then GlobalPlace
      else if x in fn.localVars then LocalPlace
      else if Resolve(parent, x) == GlobalPlace then GlobalPlace
      else FreePlace
  }

  /** The finished program at the bottom of the nest. */
  function ProgramOf(env: Env): Function {
    match env
    case Top(fn) => fn
    case Nested(_, _, parent) => ProgramOf(parent)
  }

  // ---------------------------------------------------------------- function literals

  /** Number of function literals compiled directly into the enclosing function. */
  function Literals(e: Expr): nat {
    match e
    case Fun(_, _) => 1
    case Binary(l, _, r) => Literals(l) + Literals(r)
    case Unary(_, x) => Literals(x)
    case Field(b, _) => Literals(b)
    case Index(b, i) => Literals(b) + Literals(i)
    case Call(t, args) => Literals(t) + LiteralsArgs(args)
    case Record(fs) => LiteralsFields(fs)
    case _ => 0
  }

  function LiteralsArgs(es: seq<Expr>): nat {
    if es == [] then 0 else Literals(es[0]) + LiteralsArgs(es[1..])
  }

  function LiteralsFields(fs: seq<FieldInit>): nat {
    if fs == [] then 0 else Literals(fs[0].init) + LiteralsFields(fs[1..])
  }

  function LiteralsStmt(s: Stmt): nat {
    match s
    case Global(_) => 0
    case AssignVar(_, e) => Literals(e)
    case AssignField(b, _, e) => Literals(b) + Literals(e)
    case AssignIndex(b, i, e) => Literals(b) + Literals(i) + Literals(e)
    case CallStmt(e) => Literals(e)
    case If(c, t) => Literals(c) + LiteralsBlock(t)
    case IfElse(c, t, e) => Literals(c) + LiteralsBlock(t) + LiteralsBlock(e)
    case While(c, b) => Literals(c) + LiteralsBlock(b)
    case Return(e) => Literals(e)
  }

  function LiteralsBlock(ss: seq<Stmt>): nat {
    if ss == [] then 0 else LiteralsStmt(ss[0]) + LiteralsBlock(ss[1..])
  }

  // ---------------------------------------------------------------- reference slots

  /** Slot the enclosing function passes on for a variable its literal captures. */
  function CaptureSlot(fn: Function, x: string): nat {
    if x in fn.localVars then IndexOf(fn.localReferenceVars, x) else FreeSlot(fn, x)
  }

  function Captures(fn: Function, free: seq<string>): (r: seq<Instruction>)
    ensures |r| == |free|
  {
    if free == [] then [] else [PushReference(CaptureSlot(fn, free[0]))] + Captures(fn, free[1..])
  }

  function ConstantOf(e: Expr): Constant {
    match e
    case IntegerConstant(i) => IntegerC(i)
    case StringConstant(t) => StringC(t)
    case BooleanConstant(b) => BooleanC(b)
    case _ => NoneC
  }

  function LoadConstant(fn: Function, c: Constant): seq<Instruction> {
    [LoadConst(IndexOf(fn.constants, c))]
  }

  // ---------------------------------------------------------------- code

  /** `k` is the number of function literals compiled into `env.fn` before. */
  function Code(e: Expr, env: Env, k: nat): seq<Instruction>
    decreases e, 1
  {
    match e
    case Var(_) => CodeVar(e, env, k)
    case Fun(_, _) => CodeFun(e, env, k)
    case Binary(_, _, _) => CodeBinary(e, env, k)
    case Unary(_, _) => CodeUnary(e, env, k)
    case Field(_, _) => CodeField(e, env, k)
    case Index(_, _) => CodeIndex(e, env, k)
    case Call(_, _) => CodeCall(e, env, k)
    case Record(_) => CodeRecord(e, env, k)
    case _ => LoadConstant(env.fn, ConstantOf(e))
  }

  function CodeVar(e: Expr, env: Env, k: nat): seq<Instruction>
    requires e.Var?
    decreases e, 0
  {
    var Var(x) := e;
    match Resolve(env, x) {
      case LocalPlace => [LoadLocal(IndexOf(env.fn.localVars, x))]
      case GlobalPlace => [LoadGlobal(IndexOf(env.fn.names, x))]
      case FreePlace => [PushReference(FreeSlot(env.fn, x)), LoadReference]
    }
  }

  function CodeFun(e: Expr, env: Env, k: nat): seq<Instruction>
    requires e.Fun?
    decreases e, 0
  {
    var Fun(_, _) := e;
    if k >= |env.fn.functions| then []
    else
      var g := env.fn.functions[k];
      [LoadFunc(k)] + Captures(env.fn, g.freeVars) + [AllocClosure(|g.freeVars|)]
  }

  function CodeBinary(e: Expr, env: Env, k: nat): seq<Instruction>
    requires e.Binary?
    decreases e, 0
  {
    var Binary(l, op, r) := e;
    var a, b := Code(l, env, k), Code(r, env, k + Literals(l));
    (if Exchanged(op) then b + a else a + b) + [OperatorInstruction(op)]
  }

  function CodeUnary(e: Expr, env: Env, k: nat): seq<Instruction>
    requires e.Unary?
    decreases e, 0
  {
    var Unary(op, x) := e;
    Code(x, env, k) + [if op == SUB then Neg else Not]
  }

  function CodeField(e: Expr, env: Env, k: nat): seq<Instruction>
    requires e.Field?
    decreases e, 0
  {
    var Field(b, name) := e;
    Code(b, env, k) + [FieldLoad(IndexOf(env.fn.names, name))]
  }

  function CodeIndex(e: Expr, env: Env, k: nat): seq<Instruction>
    requires e.Index?
    decreases e, 0
  {
    var Index(b, i) := e;
    Code(b, env, k) + Code(i, env, k + Literals(b)) + [IndexLoad]
  }

  function CodeCall(e: Expr, env: Env, k: nat): seq<Instruction>
    requires e.Call?
    decreases e, 0
  {
    var Call(t, args) := e;
    Code(t, env, k) + CodeArgs(args, env, k + Literals(t)) + [Instruction.Call(|args|)]
  }

  function CodeRecord(e: Expr, env: Env, k: nat): seq<Instruction>
    requires e.Record?
    decreases e, 0
  {
    var Record(fs) := e;
    [AllocRecord] + Dups(|fs|) + CodeFields(fs, env, k)
  }

  function Dups(n: nat): (r: seq<Instruction>)
    ensures |r| == n
    ensures forall i :: 0 <= i < n ==> r[i] == Dup
  {
    seq(n, _ => Dup)
  }

  function CodeArgs(es: seq<Expr>, env: Env, k: nat): seq<Instruction>
    decreases es, 0
  {
    if es == [] then [] else Code(es[0], env, k) + CodeArgs(es[1..], env, k + Literals(es[0]))
  }

  function CodeFields(fs: seq<FieldInit>, env: Env, k: nat): seq<Instruction>
    decreases fs, 0
  {
    if fs == [] then []
    else
      Code(fs[0].init, env, k) + [FieldStore(IndexOf(env.fn.names, fs[0].name))]
      + CodeFields(fs[1..], env, k + Literals(fs[0].init))
  }

  function CodeStmt(s: Stmt, env: Env, k: nat): seq<Instruction>
    decreases s, 1
  {
    match s
    case Global(_) => []
    case AssignVar(_, _) => CodeAssignVar(s, env, k)
    case AssignField(_, _, _) => CodeAssignField(s, env, k)
    case AssignIndex(_, _, _) => CodeAssignIndex(s, env, k)
    case CallStmt(_) => CodeCallStmt(s, env, k)
    case If(_, _) => CodeIf(s, env, k)
    case IfElse(_, _, _) => CodeIfElse(s, env, k)
    case While(_, _) => CodeWhile(s, env, k)
    case Return(_) => CodeReturn(s, env, k)
  }

  function CodeAssignVar(s: Stmt, env: Env, k: nat): seq<Instruction>
    requires s.AssignVar?
    decreases s, 0
  {
    var AssignVar(x, e) := s;
    var a := Code(e, env, k);
    match Resolve(env, x) {
      case LocalPlace => a + [StoreLocal(IndexOf(env.fn.localVars, x))]
      case GlobalPlace => a + [StoreGlobal(IndexOf(env.fn.names, x))]
      case FreePlace => [PushReference(FreeSlot(env.fn, x))] + a + [StoreReference]
    }
  }

  function CodeAssignField(s: Stmt, env: Env, k: nat): seq<Instruction>
    requires s.AssignField?
    decreases s, 0
  {
    var AssignField(b, name, e) := s;
    Code(b, env, k) + Code(e, env, k + Literals(b)) + [FieldStore(IndexOf(env.fn.names, name))]
  }

  function CodeAssignIndex(s: Stmt, env: Env, k: nat): seq<Instruction>
    requires s.AssignIndex?
    decreases s, 0
  {
    var AssignIndex(b, i, e) := s;
    Code(b, env, k) + Code(i, env, k + Literals(b))
    + Code(e, env, k + Literals(b) + Literals(i)) + [IndexStore]
  }

  function CodeCallStmt(s: Stmt, env: Env, k: nat): seq<Instruction>
    requires s.CallStmt?
    decreases s, 0
  {
    var CallStmt(e) := s;
    Code(e, env, k) + [Pop]
  }

  function CodeIf(s: Stmt, env: Env, k: nat): seq<Instruction>
    requires s.If?
    decreases s, 0
  {
    var If(c, t) := s;
    var a, b := Code(c, env, k), CodeBlock(t, env, k + Literals(c));
    a + [Not, Instruction.If(|b| + 1)] + b
  }

  function CodeIfElse(s: Stmt, env: Env, k: nat): seq<Instruction>
    requires s.IfElse?
    decreases s, 0
  {
    var IfElse(c, t, e) := s;
    var a := Code(c, env, k);
    var b := CodeBlock(t, env, k + Literals(c));
    var d := CodeBlock(e, env, k + Literals(c) + LiteralsBlock(t)) + [Goto(|b| + 1)];
    a + [Instruction.If(|d| + 1)] + d + b
  }

  function CodeWhile(s: Stmt, env: Env, k: nat): seq<Instruction>
    requires s.While?
    decreases s, 0
  {
    var While(c, body) := s;
    var a := Code(c, env, k);
    var b := CodeBlock(body, env, k + Literals(c));
    a + [Not, Instruction.If(|b| + 2)] + b + [Goto(-(|a| + 2 + |b|))]
  }

  function CodeReturn(s: Stmt, env: Env, k: nat): seq<Instruction>
    requires s.Return?
    decreases s, 0
  {
    var Return(e) := s;
    Code(e, env, k) + [Instruction.Return]
  }

  function CodeBlock(ss: seq<Stmt>, env: Env, k: nat): seq<Instruction>
    decreases ss, 0
  {
    if ss == [] then []
    else CodeStmt(ss[0], env, k) + CodeBlock(ss[1..], env, k + LiteralsStmt(ss[0]))
  }

  /** A body that is not found to return gets `return None` appended. */
  function FunctionCode(body: seq<Stmt>, env: Env): seq<Instruction> {
    CodeBlock(body, env, 0)
    + (if FindReturnBlock(body) then [] else LoadConstant(env.fn, NoneC) + [Instruction.Return])
  }

  // ---------------------------------------------------------------- pools

  ghost predicate HasGlobal(env: Env, x: string) {
    x in env.fn.names && x in ProgramOf(env).names
  }

  /** A target of a simple assignment is the function's own local or declared
      global in the function itself; at the top level everything is global. */
  ghost predicate Assignable(env: Env, x: string) {
    env.Nested? ==> x in env.globals || x in env.fn.localVars
  }

  ghost predicate CapturesOk(fn: Function, free: seq<string>) {
    forall x :: x in free ==>
      if x in fn.localVars then x in fn.localReferenceVars else x in fn.freeVars
  }

  /** Locals of a finished function: parameters first, then the assigned names
      not declared global; captured locals are locals. */
  ghost predicate ShapeOk(params: seq<string>, body: seq<Stmt>, fn: Function) {
    && fn.builtin == Compiled
    && fn.parameterCount == |params|
    && NoDuplicates(fn.localVars)
    && params <= fn.localVars
    && (forall x :: x in fn.localVars <==>
          x in params || (x in AssignsOfBlock(body) && x !in GlobalsOfBlock(body)))
    && (forall x :: x in fn.localReferenceVars ==> x in fn.localVars)
    && |fn.localReferenceIndices| == |fn.localReferenceVars|
    && (forall i :: 0 <= i < |fn.localReferenceVars| ==>
          fn.localReferenceIndices[i] == IndexOf(fn.localVars, fn.localReferenceVars[i]))
  }

  function BodyEnv(body: seq<Stmt>, fn: Function, parent: Env): Env {
    Nested(fn, (set x | x in GlobalsOfBlock(body)), parent)
  }

  /** `fn` is the finished function of the literal `fun(params) body` in `parent`. */
  ghost predicate FunctionOk(params: seq<string>, body: seq<Stmt>, fn: Function, parent: Env)
    decreases body, 1
  {
    var env := BodyEnv(body, fn, parent);
    && ShapeOk(params, body, fn)
    && (forall x :: x in fn.freeVars ==> Resolve(env, x) == FreePlace)
    && fn.instructions == FunctionCode(body, env)
    && (FindReturnBlock(body) || NoneC in fn.constants)
    && OkBlock(body, env, 0)
  }

  ghost predicate Ok(e: Expr, env: Env, k: nat)
    decreases e
  {
    match e
    case Var(x) => (
      match Resolve(env, x)
      case LocalPlace => true
      case GlobalPlace => HasGlobal(env, x)
      case FreePlace => x in env.fn.freeVars)
    case Fun(ps, body) =>
      && k < |env.fn.functions|
      && FunctionOk(ps, body, env.fn.functions[k], env)
      && CapturesOk(env.fn, env.fn.functions[k].freeVars)
    case Binary(l, _, r) => Ok(l, env, k) && Ok(r, env, k + Literals(l))
    case Unary(_, x) => Ok(x, env, k)
    case Field(b, name) => Ok(b, env, k) && name in env.fn.names
    case Index(b, i) => Ok(b, env, k) && Ok(i, env, k + Literals(b))
    case Call(t, args) => Ok(t, env, k) && OkArgs(args, env, k + Literals(t))
    case Record(fs) => OkFields(fs, env, k)
    case _ => ConstantOf(e) in env.fn.constants
  }

  ghost predicate OkArgs(es: seq<Expr>, env: Env, k: nat)
    decreases es
  {
    es == [] || (Ok(es[0], env, k) && OkArgs(es[1..], env, k + Literals(es[0])))
  }

  ghost predicate OkFields(fs: seq<FieldInit>, env: Env, k: nat)
    decreases fs
  {
    fs == [] ||
    (Ok(fs[0].init, env, k) && fs[0].name in env.fn.names
     && OkFields(fs[1..], env, k + Literals(fs[0].init)))
  }

  ghost predicate OkStmt(s: Stmt, env: Env, k: nat)
    decreases s, 0
  {
    match s
    case Global(_) => true
    case AssignVar(x, e) =>
      && Ok(e, env, k)
      && Assignable(env, x)
      && (Resolve(env, x) == GlobalPlace ==> HasGlobal(env, x))
    case AssignField(b, name, e) =>
      Ok(b, env, k) && Ok(e, env, k + Literals(b)) && name in env.fn.names
    case AssignIndex(b, i, e) =>
      Ok(b, env, k) && Ok(i, env, k + Literals(b)) && Ok(e, env, k + Literals(b) + Literals(i))
    case CallStmt(e) => Ok(e, env, k)
    case If(c, t) => Ok(c, env, k) && OkBlock(t, env, k + Literals(c))
    case IfElse(c, t, e) =>
      Ok(c, env, k) && OkBlock(t, env, k + Literals(c))
      && OkBlock(e, env, k + Literals(c) + LiteralsBlock(t))
    case While(c, body) => Ok(c, env, k) && OkBlock(body, env, k + Literals(c))
    case Return(e) => Ok(e, env, k)
  }

  ghost predicate OkBlock(ss: seq<Stmt>, env: Env, k: nat)
    decreases ss, 0
  {
    ss == [] || (OkStmt(ss[0], env, k) && OkBlock(ss[1..], env, k + LiteralsStmt(ss[0])))
  }
}
