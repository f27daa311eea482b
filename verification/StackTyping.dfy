/** The operand stack of compiled code, statically: every instruction has one
    abstract stack, the same along every jump path, and every pool index and
    jump target is in range. */
module StackTyping {
  import opened Basics
  import opened Ast
  import opened Bytecode
  import opened Codegen
  import opened Layout
  import opened Machine

  /** What an operand is: a value of the language, the `k`-th function of the
      current function, or a reference to a variable. */
  datatype Slot = PlainSlot | FunctionSlot(k: nat) | ReferenceSlot

  type Shape = seq<Slot>

  function References(n: nat): (r: Shape)
    ensures |r| == n && forall i :: 0 <= i < n ==> r[i] == ReferenceSlot
  {
    seq(n, _ => ReferenceSlot)
  }

  function Plains(n: nat): (r: Shape)
    ensures |r| == n && forall i :: 0 <= i < n ==> r[i] == PlainSlot
  {
    seq(n, _ => PlainSlot)
  }

  function RefCount(fn: Function): nat {
    |fn.localReferenceVars| + |fn.freeVars|
  }

  /** Falling through `instr` turns a stack of shape `a` into one of shape `b`. */
  ghost predicate InstrOk(fn: Function, globals: seq<string>, instr: Instruction, a: Shape, b: Shape)
    decreases fn, 0
  {
    match instr
    case LoadConst(i) => 0 <= i < |fn.constants| && b == a + [PlainSlot]
    case LoadFunc(i) => 0 <= i < |fn.functions| && CodeOk(fn.functions[i], globals) && b == a + [FunctionSlot(i)]
    case LoadLocal(i) => 0 <= i < |fn.localVars| && b == a + [PlainSlot]
    case StoreLocal(i) => 0 <= i < |fn.localVars| && a == b + [PlainSlot]
    case LoadGlobal(i) => 0 <= i < |fn.names| && fn.names[i] in globals && b == a + [PlainSlot]
    case StoreGlobal(i) => 0 <= i < |fn.names| && fn.names[i] in globals && a == b + [PlainSlot]
    case PushReference(i) => 0 <= i < RefCount(fn) && b == a + [ReferenceSlot]
    case LoadReference => |b| > 0 && b[|b|-1] == PlainSlot && a == b[..|b|-1] + [ReferenceSlot]
    case StoreReference => a == b + [PlainSlot, ReferenceSlot]
    case AllocRecord => b == a + [PlainSlot]
    case FieldLoad(i) => 0 <= i < |fn.names| && |a| > 0 && a[|a|-1] == PlainSlot && b == a
    case FieldStore(i) => 0 <= i < |fn.names| && a == b + [PlainSlot, PlainSlot]
    case IndexLoad => a == b + [PlainSlot] && |b| > 0 && b[|b|-1] == PlainSlot
    case IndexStore => a == b + [PlainSlot, PlainSlot, PlainSlot]
    case AllocClosure(n) =>
      && 0 <= n && |b| > 0 && b[|b|-1] == PlainSlot
      && exists k: nat :: k < |fn.functions| && n == |fn.functions[k].freeVars|
           && a == b[..|b|-1] + [FunctionSlot(k)] + References(n)
    case Call(n) => 0 <= n && |b| > 0 && b[|b|-1] == PlainSlot && a == b + Plains(n)
    case Neg => |a| > 0 && a[|a|-1] == PlainSlot && b == a
    case Not => |a| > 0 && a[|a|-1] == PlainSlot && b == a
    case Dup => |a| > 0 && a[|a|-1] == PlainSlot && b == a + [PlainSlot]
    case Pop => a == b + [PlainSlot]
    case _ => a == b + [PlainSlot] && |b| > 0 && b[|b|-1] == PlainSlot && IsBinary(instr)
  }

  /** `hs[i]` is the shape before instruction `i`; `None` where no run gets. */
  ghost predicate PointOk(fn: Function, globals: seq<string>, code: seq<Instruction>, hs: seq<Option<Shape>>, i: nat)
    requires i < |code| && |hs| == |code| + 1
    decreases fn, 1
  {
    hs[i].Some? ==>
      var a := hs[i].value;
      match code[i]
      case Goto(offset) => 0 <= i + offset <= |code| && hs[i + offset] == Some(a)
      case If(offset) =>
        0 <= i + offset <= |code| && |a| > 0 && a[|a|-1] == PlainSlot
        && hs[i + offset] == Some(a[..|a|-1]) && hs[i + 1] == Some(a[..|a|-1])
      case Return => a == [PlainSlot]
      case _ => hs[i + 1].Some? && InstrOk(fn, globals, code[i], a, hs[i + 1].value)
  }

  ghost predicate Flow(fn: Function, globals: seq<string>, code: seq<Instruction>, hs: seq<Option<Shape>>)
    decreases fn, 2
  {
    |hs| == |code| + 1 && forall i :: 0 <= i < |code| ==> PointOk(fn, globals, code, hs, i)
  }

  /** Code entered with shape `a`: control reaches its end with shape `b`, or never. */
  ghost predicate Segment(fn: Function, globals: seq<string>, code: seq<Instruction>, a: Shape, b: Option<Shape>)
    decreases fn, 3
  {
    exists hs :: Flow(fn, globals, code, hs) && hs[0] == Some(a) && hs[|code|] == b
  }

  /** A function that can be called: a built-in one, or one whose code never
      falls off its end and whose captured locals exist. */
  ghost predicate CodeOk(fn: Function, globals: seq<string>)
    decreases fn, 4
  {
    if fn.builtin != Compiled then fn == BuiltinFunction(fn.builtin)
    else
      && Segment(fn, globals, fn.instructions, [], None)
      && fn.parameterCount <= |fn.localVars|
      && |fn.localReferenceIndices| == |fn.localReferenceVars|
      && (forall i :: 0 <= i < |fn.localReferenceIndices| ==> fn.localReferenceIndices[i] < |fn.localVars|)
  }

  // ---------------------------------------------------------------- composition

  /** A piece of code keeps its shapes wherever it sits: its jumps stay inside. */
  lemma {:induction false} Embedded(fn: Function, globals: seq<string>, code: seq<Instruction>, hs: seq<Option<Shape>>, p: nat,
      c: seq<Instruction>, hc: seq<Option<Shape>>)
    requires |hs| == |code| + 1 && p + |c| <= |code| && Flow(fn, globals, c, hc)
    requires code[p..p + |c|] == c && hs[p..p + |c| + 1] == hc
    ensures forall i :: p <= i < p + |c| ==> PointOk(fn, globals, code, hs, i)
  {
    hide InstrOk;
    forall i | p <= i < p + |c| ensures PointOk(fn, globals, code, hs, i) {
      var j := i - p;
      assert PointOk(fn, globals, c, hc, j);
      assert code[i] == c[j] && hs[i] == hc[j] && hs[i + 1] == hc[j + 1];
      if hs[i].Some? {
        match c[j]
        case Goto(offset) => assert hs[i + offset] == hc[j + offset];
        case If(offset) => assert hs[i + offset] == hc[j + offset];
        case _ =>
      }
    }
  }

  lemma {:induction false} Sequence(fn: Function, globals: seq<string>, c: seq<Instruction>, d: seq<Instruction>,
      a: Shape, b: Shape, e: Option<Shape>)
    requires Segment(fn, globals, c, a, Some(b)) && Segment(fn, globals, d, b, e)
    ensures Segment(fn, globals, c + d, a, e)
  {
    hide PointOk;
    var hc :| Flow(fn, globals, c, hc) && hc[0] == Some(a) && hc[|c|] == Some(b);
    var hd :| Flow(fn, globals, d, hd) && hd[0] == Some(b) && hd[|d|] == e;
    var hs := hc[..|c|] + hd;
    assert hs[0..|c| + 1] == hc && hs[|c|..|c| + |d| + 1] == hd;
    assert (c + d)[0..|c|] == c && (c + d)[|c|..|c| + |d|] == d;
    Embedded(fn, globals, c + d, hs, 0, c, hc);
    Embedded(fn, globals, c + d, hs, |c|, d, hd);
    assert Flow(fn, globals, c + d, hs);
  }

  /** What follows code that never ends is never run. */
  lemma {:induction false} Unreached(fn: Function, globals: seq<string>, c: seq<Instruction>, d: seq<Instruction>, a: Shape)
    requires Segment(fn, globals, c, a, None)
    ensures Segment(fn, globals, c + d, a, None)
  {
    var hc :| Flow(fn, globals, c, hc) && hc[0] == Some(a) && hc[|c|] == None;
    var hs := hc + seq(|d|, _ => None);
    assert hs[0..|c| + 1] == hc && (c + d)[0..|c|] == c;
    Embedded(fn, globals, c + d, hs, 0, c, hc);
    assert Flow(fn, globals, c + d, hs);
  }

  lemma {:induction false} AnyExit(fn: Function, globals: seq<string>, c: seq<Instruction>, a: Shape, b: Option<Shape>)
    requires Segment(fn, globals, c, a, None)
    ensures Segment(fn, globals, c, a, b)
  {
    hide InstrOk;
    var hc :| Flow(fn, globals, c, hc) && hc[0] == Some(a) && hc[|c|] == None;
    var hs := hc[|c| := b];
    forall i | 0 <= i < |c| ensures PointOk(fn, globals, c, hs, i) {
      assert PointOk(fn, globals, c, hc, i);
    }
    assert Flow(fn, globals, c, hs);
  }

  lemma {:induction false} Nothing(fn: Function, globals: seq<string>, a: Shape)
    ensures Segment(fn, globals, [], a, Some(a))
  {
    assert Flow(fn, globals, [], [Some(a)]);
  }

  lemma {:induction false} One(fn: Function, globals: seq<string>, instr: Instruction, a: Shape, b: Shape)
    requires !instr.Goto? && !instr.If? && !instr.Return? && InstrOk(fn, globals, instr, a, b)
    ensures Segment(fn, globals, [instr], a, Some(b))
  {
    hide InstrOk;
    var hs := [Some(a), Some(b)];
    assert PointOk(fn, globals, [instr], hs, 0);
    assert Flow(fn, globals, [instr], hs);
  }

  /** Code followed by one instruction. */
  lemma {:induction false} Then(fn: Function, globals: seq<string>, c: seq<Instruction>, instr: Instruction, a: Shape, b: Shape, d: Shape)
    requires Segment(fn, globals, c, a, Some(b))
    requires !instr.Goto? && !instr.If? && !instr.Return? && InstrOk(fn, globals, instr, b, d)
    ensures Segment(fn, globals, c + [instr], a, Some(d))
  {
    hide InstrOk, Segment;
    One(fn, globals, instr, b, d);
    Sequence(fn, globals, c, [instr], a, b, Some(d));
  }

  lemma {:induction false} Returns(fn: Function, globals: seq<string>)
    ensures Segment(fn, globals, [Instruction.Return], [PlainSlot], None)
  {
    assert Flow(fn, globals, [Instruction.Return], [Some([PlainSlot]), None]);
  }

  // ---------------------------------------------------------------- compiled expressions

  lemma {:induction false} VarFlow(e: Expr, env: Env, k: nat, a: Shape)
    requires e.Var? && Ok(e, env, k)
    ensures Segment(env.fn, ProgramOf(env).names, CodeVar(e, env, k), a, Some(a + [PlainSlot]))
  {
    hide Segment;
    var fn, globals, x := env.fn, ProgramOf(env).names, e.name;
    match Resolve(env, x)
    case LocalPlace => One(fn, globals, LoadLocal(IndexOf(fn.localVars, x)), a, a + [PlainSlot]);
    case GlobalPlace => One(fn, globals, LoadGlobal(IndexOf(fn.names, x)), a, a + [PlainSlot]);
    case FreePlace =>
      var push := PushReference(FreeSlot(fn, x));
      One(fn, globals, push, a, a + [ReferenceSlot]);
      Then(fn, globals, [push], LoadReference, a, a + [ReferenceSlot], a + [PlainSlot]);
      assert [push] + [LoadReference] == CodeVar(e, env, k);
  }

  lemma {:induction false} CapturesFlow(fn: Function, globals: seq<string>, free: seq<string>, a: Shape)
    requires CapturesOk(fn, free)
    ensures Segment(fn, globals, Captures(fn, free), a, Some(a + References(|free|)))
    decreases |free|
  {
    hide Segment;
    if free == [] {
      assert a + References(0) == a;
      Nothing(fn, globals, a);
    } else {
      var x, rest := free[0], free[1..];
      assert x in free;
      var push := PushReference(CaptureSlot(fn, x));
      One(fn, globals, push, a, a + [ReferenceSlot]);
      CapturesFlow(fn, globals, rest, a + [ReferenceSlot]);
      assert a + [ReferenceSlot] + References(|rest|) == a + References(|free|);
      Sequence(fn, globals, [push], Captures(fn, rest), a, a + [ReferenceSlot], Some(a + References(|free|)));
    }
  }

  lemma {:induction false} FunFlow(e: Expr, env: Env, k: nat, a: Shape)
    requires e.Fun? && Ok(e, env, k) && WellFormed(e, RETURNS)
    ensures Segment(env.fn, ProgramOf(env).names, CodeFun(e, env, k), a, Some(a + [PlainSlot]))
    decreases e, 0
  {
    hide Segment, OkBlock, FunctionCode, WellFormedBlock, CodeOk;
    var fn, globals := env.fn, ProgramOf(env).names;
    var g := fn.functions[k];
    var n := |g.freeVars|;
    FunctionFlow(e.params, e.body, g, env);
    var b, c := a + [FunctionSlot(k)], Captures(fn, g.freeVars);
    One(fn, globals, LoadFunc(k), a, b);
    CapturesFlow(fn, globals, g.freeVars, b);
    Sequence(fn, globals, [LoadFunc(k)], c, a, b, Some(b + References(n)));
    assert (a + [PlainSlot])[..|a|] == a;
    Then(fn, globals, [LoadFunc(k)] + c, AllocClosure(n), a, b + References(n), a + [PlainSlot]);
  }

  /** The finished function of a literal can be called. */
  lemma {:induction false} FunctionFlow(params: seq<string>, body: seq<Stmt>, g: Function, parent: Env)
    requires FunctionOk(params, body, g, parent) && WellFormed(Fun(params, body), RETURNS)
    ensures CodeOk(g, ProgramOf(parent).names)
    decreases body, 1
  {
    hide Segment, OkBlock, WellFormedBlock, CodeBlock;
    var env, globals := BodyEnv(body, g, parent), ProgramOf(parent).names;
    BlockFlow(body, env, 0);
    var code := CodeBlock(body, env, 0);
    if FindReturnBlock(body) {
      assert code + [] == code;
    } else {
      var load := LoadConst(IndexOf(g.constants, NoneC));
      if MustReturnBlock(body) {
        AnyExit(g, globals, code, [], Some([]));
      }
      Then(g, globals, code, load, [], [], [PlainSlot]);
      Returns(g, globals);
      Sequence(g, globals, code + [load], [Instruction.Return], [], [PlainSlot], None);
      assert code + [load] + [Instruction.Return] == g.instructions;
    }
    forall i | 0 <= i < |g.localReferenceIndices| ensures g.localReferenceIndices[i] < |g.localVars| {
      assert g.localReferenceVars[i] in g.localReferenceVars;
    }
  }

  lemma {:induction false} ExprFlow(e: Expr, env: Env, k: nat, a: Shape)
    requires Ok(e, env, k) && WellFormed(e, RETURNS)
    ensures Segment(env.fn, ProgramOf(env).names, Code(e, env, k), a, Some(a + [PlainSlot]))
    decreases e, 1
  {
    hide Segment, InstrOk, FunctionOk;
    match e
    case Var(_) => VarFlow(e, env, k, a);
    case Fun(_, _) => FunFlow(e, env, k, a);
    case Binary(_, _, _) => BinaryFlow(e, env, k, a);
    case Unary(_, _) => UnaryFlow(e, env, k, a);
    case Field(_, _) => FieldFlow(e, env, k, a);
    case Index(_, _) => IndexFlow(e, env, k, a);
    case Call(_, _) => CallFlow(e, env, k, a);
    case Record(_) => RecordFlow(e, env, k, a);
    case _ => ConstantFlow(env.fn, ProgramOf(env).names, ConstantOf(e), a);
  }

  lemma {:induction false} ConstantFlow(fn: Function, globals: seq<string>, c: Constant, a: Shape)
    requires c in fn.constants
    ensures Segment(fn, globals, LoadConstant(fn, c), a, Some(a + [PlainSlot]))
  {
    hide Segment;
    One(fn, globals, LoadConst(IndexOf(fn.constants, c)), a, a + [PlainSlot]);
  }

  /** An operator takes two plain operands and leaves one. */
  lemma {:induction false} OperatorOk(fn: Function, globals: seq<string>, op: Operator, a: Shape)
    requires op != NEG
    ensures var instr := OperatorInstruction(op);
      !instr.Goto? && !instr.If? && !instr.Return? && InstrOk(fn, globals, instr, a + [PlainSlot] + [PlainSlot], a + [PlainSlot])
  {}

  lemma {:induction false} BinaryFlow(e: Expr, env: Env, k: nat, a: Shape)
    requires e.Binary? && Ok(e, env, k) && WellFormed(e, RETURNS)
    ensures Segment(env.fn, ProgramOf(env).names, CodeBinary(e, env, k), a, Some(a + [PlainSlot]))
    decreases e, 0
  {
    hide Segment, Code, FunctionOk, InstrOk, OperatorInstruction;
    assert Ok(e.left, env, k) && Ok(e.right, env, k + Literals(e.left)) && WellFormed(e.left, RETURNS) && WellFormed(e.right, RETURNS) && e.op != NEG;
    hide Ok, WellFormed;
    var fn, globals, b := env.fn, ProgramOf(env).names, a + [PlainSlot];
    var c, d := Code(e.left, env, k), Code(e.right, env, k + Literals(e.left));
    var instr := OperatorInstruction(e.op);
    ExprFlow(e.left, env, k, if Exchanged(e.op) then b else a);
    ExprFlow(e.right, env, k + Literals(e.left), if Exchanged(e.op) then a else b);
    var both := if Exchanged(e.op) then d + c else c + d;
    if Exchanged(e.op) {
      Sequence(fn, globals, d, c, a, b, Some(b + [PlainSlot]));
    } else {
      Sequence(fn, globals, c, d, a, b, Some(b + [PlainSlot]));
    }
    OperatorOk(fn, globals, e.op, a);
    Then(fn, globals, both, instr, a, b + [PlainSlot], b);
  }

  lemma {:induction false} UnaryFlow(e: Expr, env: Env, k: nat, a: Shape)
    requires e.Unary? && Ok(e, env, k) && WellFormed(e, RETURNS)
    ensures Segment(env.fn, ProgramOf(env).names, CodeUnary(e, env, k), a, Some(a + [PlainSlot]))
    decreases e, 0
  {
    hide Segment, Code, FunctionOk;
    var b := a + [PlainSlot];
    ExprFlow(e.operand, env, k, a);
    Then(env.fn, ProgramOf(env).names, Code(e.operand, env, k), if e.uop == SUB then Neg else Not, a, b, b);
  }

  lemma {:induction false} FieldFlow(e: Expr, env: Env, k: nat, a: Shape)
    requires e.Field? && Ok(e, env, k) && WellFormed(e, RETURNS)
    ensures Segment(env.fn, ProgramOf(env).names, CodeField(e, env, k), a, Some(a + [PlainSlot]))
    decreases e, 0
  {
    hide Segment, Code, FunctionOk;
    var b := a + [PlainSlot];
    ExprFlow(e.base, env, k, a);
    Then(env.fn, ProgramOf(env).names, Code(e.base, env, k), FieldLoad(IndexOf(env.fn.names, e.field)), a, b, b);
  }

  lemma {:induction false} IndexFlow(e: Expr, env: Env, k: nat, a: Shape)
    requires e.Index? && Ok(e, env, k) && WellFormed(e, RETURNS)
    ensures Segment(env.fn, ProgramOf(env).names, CodeIndex(e, env, k), a, Some(a + [PlainSlot]))
    decreases e, 0
  {
    hide Segment, Code, FunctionOk;
    var fn, globals, b := env.fn, ProgramOf(env).names, a + [PlainSlot];
    var c, d := Code(e.base, env, k), Code(e.index, env, k + Literals(e.base));
    ExprFlow(e.base, env, k, a);
    ExprFlow(e.index, env, k + Literals(e.base), b);
    Sequence(fn, globals, c, d, a, b, Some(b + [PlainSlot]));
    Then(fn, globals, c + d, IndexLoad, a, b + [PlainSlot], b);
  }

  lemma {:induction false} CallFlow(e: Expr, env: Env, k: nat, a: Shape)
    requires e.Call? && Ok(e, env, k) && WellFormed(e, RETURNS)
    ensures Segment(env.fn, ProgramOf(env).names, CodeCall(e, env, k), a, Some(a + [PlainSlot]))
    decreases e, 0
  {
    hide Segment, Code, CodeArgs, FunctionOk;
    var fn, globals, b, n := env.fn, ProgramOf(env).names, a + [PlainSlot], |e.args|;
    var c, d := Code(e.target, env, k), CodeArgs(e.args, env, k + Literals(e.target));
    ExprFlow(e.target, env, k, a);
    ArgsFlow(e.args, env, k + Literals(e.target), b);
    Sequence(fn, globals, c, d, a, b, Some(b + Plains(n)));
    Then(fn, globals, c + d, Instruction.Call(n), a, b + Plains(n), b);
  }

  lemma {:induction false} ArgsFlow(es: seq<Expr>, env: Env, k: nat, a: Shape)
    requires OkArgs(es, env, k) && WellFormedArgs(es, RETURNS)
    ensures Segment(env.fn, ProgramOf(env).names, CodeArgs(es, env, k), a, Some(a + Plains(|es|)))
    decreases es, 0
  {
    hide Segment, Code, FunctionOk, Ok;
    var fn, globals := env.fn, ProgramOf(env).names;
    if es == [] {
      assert a + Plains(0) == a;
      Nothing(fn, globals, a);
    } else {
      var b := a + [PlainSlot];
      ExprFlow(es[0], env, k, a);
      ArgsFlow(es[1..], env, k + Literals(es[0]), b);
      assert b + Plains(|es| - 1) == a + Plains(|es|);
      Sequence(fn, globals, Code(es[0], env, k), CodeArgs(es[1..], env, k + Literals(es[0])), a, b, Some(a + Plains(|es|)));
    }
  }

  lemma {:induction false} RecordFlow(e: Expr, env: Env, k: nat, a: Shape)
    requires e.Record? && Ok(e, env, k) && WellFormed(e, RETURNS)
    ensures Segment(env.fn, ProgramOf(env).names, CodeRecord(e, env, k), a, Some(a + [PlainSlot]))
    decreases e, 0
  {
    hide Segment, CodeFields, FunctionOk;
    var fn, globals, b, n := env.fn, ProgramOf(env).names, a + [PlainSlot], |e.fields|;
    One(fn, globals, AllocRecord, a, b);
    DupsFlow(fn, globals, n, a);
    Sequence(fn, globals, [AllocRecord], Dups(n), a, b, Some(b + Plains(n)));
    FieldsFlow(e.fields, env, k, b);
    Sequence(fn, globals, [AllocRecord] + Dups(n), CodeFields(e.fields, env, k), a, b + Plains(n), Some(b));
  }

  lemma {:induction false} DupsFlow(fn: Function, globals: seq<string>, n: nat, a: Shape)
    ensures Segment(fn, globals, Dups(n), a + [PlainSlot], Some(a + [PlainSlot] + Plains(n)))
    decreases n
  {
    hide Segment;
    var b := a + [PlainSlot];
    if n == 0 {
      assert b + Plains(0) == b && Dups(0) == [];
      Nothing(fn, globals, b);
    } else {
      One(fn, globals, Dup, b, b + [PlainSlot]);
      DupsFlow(fn, globals, n - 1, b);
      assert b + [PlainSlot] + Plains(n - 1) == b + Plains(n) && [Dup] + Dups(n - 1) == Dups(n);
      Sequence(fn, globals, [Dup], Dups(n - 1), b, b + [PlainSlot], Some(b + Plains(n)));
    }
  }

  lemma {:induction false} FieldsFlow(fs: seq<FieldInit>, env: Env, k: nat, a: Shape)
    requires OkFields(fs, env, k) && WellFormedFields(fs, RETURNS)
    ensures Segment(env.fn, ProgramOf(env).names, CodeFields(fs, env, k), a + Plains(|fs|), Some(a))
    decreases fs, 0
  {
    hide Segment, Code, FunctionOk, Ok;
    var fn, globals, n := env.fn, ProgramOf(env).names, |fs|;
    if fs == [] {
      assert a + Plains(0) == a;
      Nothing(fn, globals, a);
    } else {
      var init := fs[0].init;
      var b := a + Plains(n);
      var c, store := Code(init, env, k), FieldStore(IndexOf(fn.names, fs[0].name));
      ExprFlow(init, env, k, b);
      assert b + [PlainSlot] == (a + Plains(n - 1)) + [PlainSlot, PlainSlot];
      Then(fn, globals, c, store, b, b + [PlainSlot], a + Plains(n - 1));
      FieldsFlow(fs[1..], env, k + Literals(init), a);
      Sequence(fn, globals, c + [store], CodeFields(fs[1..], env, k + Literals(init)), b, a + Plains(n - 1), Some(a));
    }
  }

  // ---------------------------------------------------------------- compiled statements

  function Exit(never: bool): Option<Shape> {
    if never then None else Some([])
  }

  lemma {:induction false} BlockFlow(cs: seq<Stmt>, env: Env, k: nat)
    requires OkBlock(cs, env, k) && WellFormedBlock(cs, RETURNS)
    ensures Segment(env.fn, ProgramOf(env).names, CodeBlock(cs, env, k), [], Exit(MustReturnBlock(cs)))
    decreases cs, 0
  {
    hide Segment, CodeStmt, OkStmt, WellFormedStmt, MustReturn;
    var fn, globals := env.fn, ProgramOf(env).names;
    if cs == [] {
      Nothing(fn, globals, []);
    } else {
      var c, d := CodeStmt(cs[0], env, k), CodeBlock(cs[1..], env, k + LiteralsStmt(cs[0]));
      StmtFlow(cs[0], env, k);
      if MustReturn(cs[0]) {
        Unreached(fn, globals, c, d, []);
      } else {
        BlockFlow(cs[1..], env, k + LiteralsStmt(cs[0]));
        Sequence(fn, globals, c, d, [], [], Exit(MustReturnBlock(cs[1..])));
      }
    }
  }

  lemma {:induction false} StmtFlow(s: Stmt, env: Env, k: nat)
    requires OkStmt(s, env, k) && WellFormedStmt(s, RETURNS)
    ensures Segment(env.fn, ProgramOf(env).names, CodeStmt(s, env, k), [], Exit(MustReturn(s)))
    decreases s, 1
  {
    hide Segment, Code, CodeBlock, Ok, OkBlock, WellFormed, WellFormedBlock;
    var fn, globals := env.fn, ProgramOf(env).names;
    match s
    case Global(_) => Nothing(fn, globals, []);
    case AssignVar(x, e) =>
      ExprFlow(e, env, k, []);
      assert [] + [PlainSlot] == [PlainSlot];
      var store := if Resolve(env, x) == LocalPlace then StoreLocal(IndexOf(fn.localVars, x)) else StoreGlobal(IndexOf(fn.names, x));
      AssignableResolves(env, x);
      Then(fn, globals, Code(e, env, k), store, [], [PlainSlot], []);
    case AssignField(b, name, e) => AssignFieldFlow(s, env, k);
    case AssignIndex(b, i, e) => AssignIndexFlow(s, env, k);
    case CallStmt(e) =>
      ExprFlow(e, env, k, []);
      assert [] + [PlainSlot] == [PlainSlot];
      Then(fn, globals, Code(e, env, k), Pop, [], [PlainSlot], []);
    case If(_, _) => IfFlow(s, env, k);
    case IfElse(_, _, _) => IfElseFlow(s, env, k);
    case While(_, _) => WhileFlow(s, env, k);
    case Return(e) =>
      ExprFlow(e, env, k, []);
      assert [] + [PlainSlot] == [PlainSlot];
      Returns(fn, globals);
      Sequence(fn, globals, Code(e, env, k), [Instruction.Return], [], [PlainSlot], None);
  }

  lemma {:induction false} AssignableResolves(env: Env, x: string)
    requires Assignable(env, x)
    ensures Resolve(env, x) != FreePlace
    ensures Resolve(env, x) == LocalPlace ==> x in env.fn.localVars
  {}

  lemma {:induction false} AssignFieldFlow(s: Stmt, env: Env, k: nat)
    requires s.AssignField? && OkStmt(s, env, k) && WellFormedStmt(s, RETURNS)
    ensures Segment(env.fn, ProgramOf(env).names, CodeAssignField(s, env, k), [], Some([]))
    decreases s, 0
  {
    hide Segment, Code, Ok, WellFormed;
    var fn, globals, p := env.fn, ProgramOf(env).names, [PlainSlot];
    var c, d := Code(s.base, env, k), Code(s.rhs, env, k + Literals(s.base));
    ExprFlow(s.base, env, k, []);
    ExprFlow(s.rhs, env, k + Literals(s.base), p);
    assert [] + p == p && p + p == [] + [PlainSlot, PlainSlot];
    Sequence(fn, globals, c, d, [], p, Some(p + p));
    Then(fn, globals, c + d, FieldStore(IndexOf(fn.names, s.field)), [], p + p, []);
  }

  lemma {:induction false} AssignIndexFlow(s: Stmt, env: Env, k: nat)
    requires s.AssignIndex? && OkStmt(s, env, k) && WellFormedStmt(s, RETURNS)
    ensures Segment(env.fn, ProgramOf(env).names, CodeAssignIndex(s, env, k), [], Some([]))
    decreases s, 0
  {
    hide Segment, Code, Ok, WellFormed;
    var fn, globals, p := env.fn, ProgramOf(env).names, [PlainSlot];
    var c, d := Code(s.base, env, k), Code(s.index, env, k + Literals(s.base));
    var e := Code(s.rhs, env, k + Literals(s.base) + Literals(s.index));
    ExprFlow(s.base, env, k, []);
    ExprFlow(s.index, env, k + Literals(s.base), p);
    ExprFlow(s.rhs, env, k + Literals(s.base) + Literals(s.index), p + p);
    assert [] + p == p && p + p + p == [] + [PlainSlot, PlainSlot, PlainSlot];
    Sequence(fn, globals, c, d, [], p, Some(p + p));
    Sequence(fn, globals, c + d, e, [], p + p, Some(p + p + p));
    Then(fn, globals, c + d + e, IndexStore, [], p + p + p, []);
  }

  lemma {:induction false} BranchPoint(fn: Function, globals: seq<string>, code: seq<Instruction>, hs: seq<Option<Shape>>, i: nat, offset: int)
    requires i < |code| && |hs| == |code| + 1 && code[i] == Instruction.If(offset)
    requires 0 <= i + offset <= |code| && hs[i] == Some([PlainSlot]) && hs[i + 1] == Some([]) && hs[i + offset] == Some([])
    ensures PointOk(fn, globals, code, hs, i)
  {
    assert [PlainSlot][..0] == [];
  }

  lemma {:induction false} JumpPoint(fn: Function, globals: seq<string>, code: seq<Instruction>, hs: seq<Option<Shape>>, i: nat, offset: int)
    requires i < |code| && |hs| == |code| + 1 && code[i] == Goto(offset)
    requires 0 <= i + offset <= |code| && (hs[i] == None || hs[i + offset] == hs[i])
    ensures PointOk(fn, globals, code, hs, i)
  {}

  lemma {:induction false} Slices<T>(a: seq<T>, x: T, b: seq<T>, y: T, c: seq<T>)
    ensures var s := a + [x] + (b + [y]) + c;
      && |s| == |a| + |b| + |c| + 2
      && s[0..|a|] == a && s[|a|] == x && s[|a| + 1..|a| + 1 + |b|] == b && s[|a| + 1 + |b|] == y
      && s[|a| + |b| + 2..|a| + |b| + 2 + |c|] == c
  {}

  lemma {:induction false} ShapesOf(fn: Function, globals: seq<string>, code: seq<Instruction>, a: Shape, b: Option<Shape>)
    returns (hs: seq<Option<Shape>>)
    requires Segment(fn, globals, code, a, b)
    ensures Flow(fn, globals, code, hs) && |hs| == |code| + 1 && hs[0] == Some(a) && hs[|code|] == b
  {
    hide PointOk;
    hs :| Flow(fn, globals, code, hs) && hs[0] == Some(a) && hs[|code|] == b;
  }

  lemma {:induction false} ShapeSlices<T>(a: seq<T>, b: seq<T>, c: seq<T>)
    ensures var s := a + b + c;
      && |s| == |a| + |b| + |c|
      && s[0..|a|] == a && s[|a|..|a| + |b|] == b && s[|a| + |b|..|a| + |b| + |c|] == c
  {}

  lemma {:induction false} BranchAssembled(fn: Function, globals: seq<string>, code: seq<Instruction>, hs: seq<Option<Shape>>,
      c: seq<Instruction>, hc: seq<Option<Shape>>, b: seq<Instruction>, hb: seq<Option<Shape>>)
    requires Flow(fn, globals, c, hc) && Flow(fn, globals, b, hb)
    requires |code| == |c| + |b| + 1 && |hs| == |code| + 1
    requires code[0..|c|] == c && code[|c|] == Instruction.If(|b| + 1) && code[|c| + 1..|c| + 1 + |b|] == b
    requires hs[0..|c| + 1] == hc && hs[|c| + 1..|c| + 1 + |b| + 1] == hb
    requires hc[0] == Some([]) && hc[|c|] == Some([PlainSlot]) && hb[0] == Some([]) && hb[|b|] == Some([])
    ensures Segment(fn, globals, code, [], Some([]))
  {
    hide PointOk;
    var p := |c| + 1;
    Embedded(fn, globals, code, hs, 0, c, hc);
    Embedded(fn, globals, code, hs, p, b, hb);
    assert hs[|c|] == hc[|c|] && hs[p] == hb[0] && hs[p + |b|] == hb[|b|];
    BranchPoint(fn, globals, code, hs, |c|, |b| + 1);
    assert Flow(fn, globals, code, hs);
  }

  /** A condition, a branch, and the code on the way to the branch's target. */
  lemma {:induction false} Branching(fn: Function, globals: seq<string>, c: seq<Instruction>, b: seq<Instruction>)
    requires Segment(fn, globals, c, [], Some([PlainSlot])) && Segment(fn, globals, b, [], Some([]))
    ensures Segment(fn, globals, c + [Instruction.If(|b| + 1)] + b, [], Some([]))
  {
    hide InstrOk, PointOk;
    var hc :| Flow(fn, globals, c, hc) && hc[0] == Some([]) && hc[|c|] == Some([PlainSlot]);
    var hb :| Flow(fn, globals, b, hb) && hb[0] == Some([]) && hb[|b|] == Some([]);
    var code, hs := c + [Instruction.If(|b| + 1)] + b, hc + hb;
    assert hs[0..|c| + 1] == hc && code[0..|c|] == c;
    assert hs[|c| + 1..|c| + 1 + |b| + 1] == hb && code[|c| + 1..|c| + 1 + |b|] == b;
    BranchAssembled(fn, globals, code, hs, c, hc, b, hb);
  }

  lemma {:induction false} IfFlow(s: Stmt, env: Env, k: nat)
    requires s.If? && OkStmt(s, env, k) && WellFormedStmt(s, RETURNS)
    ensures Segment(env.fn, ProgramOf(env).names, CodeIf(s, env, k), [], Some([]))
    decreases s, 0
  {
    hide Segment, Code, CodeBlock, Ok, OkBlock, WellFormed, WellFormedBlock;
    var fn, globals, p := env.fn, ProgramOf(env).names, [PlainSlot];
    var c, b := Code(s.cond, env, k), CodeBlock(s.thenPart, env, k + Literals(s.cond));
    ExprFlow(s.cond, env, k, []);
    BlockFlow(s.thenPart, env, k + Literals(s.cond));
    if MustReturnBlock(s.thenPart) { AnyExit(fn, globals, b, [], Some([])); }
    assert [] + p == p;
    Then(fn, globals, c, Not, [], p, p);
    Branching(fn, globals, c + [Not], b);
    assert c + [Not, Instruction.If(|b| + 1)] + b == c + [Not] + [Instruction.If(|b| + 1)] + b;
  }

  lemma {:induction false} TwoWayAssembled(fn: Function, globals: seq<string>, code: seq<Instruction>, hs: seq<Option<Shape>>,
      c: seq<Instruction>, hc: seq<Option<Shape>>, d: seq<Instruction>, hd: seq<Option<Shape>>,
      b: seq<Instruction>, hb: seq<Option<Shape>>)
    requires Flow(fn, globals, c, hc) && Flow(fn, globals, d, hd) && Flow(fn, globals, b, hb)
    requires |code| == |c| + |d| + |b| + 2 && |hs| == |code| + 1
    requires code[0..|c|] == c && code[|c|] == Instruction.If(|d| + 2) && code[|c| + 1..|c| + 1 + |d|] == d
    requires code[|c| + 1 + |d|] == Goto(|b| + 1) && code[|c| + |d| + 2..|c| + |d| + 2 + |b|] == b
    requires hs[0..|c| + 1] == hc && hs[|c| + 1..|c| + 1 + |d| + 1] == hd && hs[|c| + |d| + 2..|c| + |d| + 2 + |b| + 1] == hb
    requires hc[0] == Some([]) && hc[|c|] == Some([PlainSlot]) && hd[0] == Some([]) && hb[0] == Some([])
    requires hd[|d|] == None || hd[|d|] == hb[|b|]
    ensures Segment(fn, globals, code, [], hb[|b|])
  {
    hide PointOk;
    var p, q := |c| + 1, |c| + |d| + 2;
    Embedded(fn, globals, code, hs, 0, c, hc);
    Embedded(fn, globals, code, hs, p, d, hd);
    Embedded(fn, globals, code, hs, q, b, hb);
    assert hs[|c|] == hc[|c|] && hs[p] == hd[0] && hs[q] == hb[0] && hs[q - 1] == hd[|d|] && hs[q + |b|] == hb[|b|];
    BranchPoint(fn, globals, code, hs, |c|, |d| + 2);
    JumpPoint(fn, globals, code, hs, q - 1, |b| + 1);
    assert Flow(fn, globals, code, hs);
  }

  /** Two branches: the first one jumps over the second, which is the target. */
  lemma {:induction false} TwoWay(fn: Function, globals: seq<string>, c: seq<Instruction>, d: seq<Instruction>, b: seq<Instruction>,
      exitD: Option<Shape>, exitB: Option<Shape>, exit: Option<Shape>)
    requires Segment(fn, globals, c, [], Some([PlainSlot]))
    requires Segment(fn, globals, d, [], exitD) && Segment(fn, globals, b, [], exitB)
    requires exitB == exit && (exitD == None || exitD == exit)
    ensures Segment(fn, globals, c + [Instruction.If(|d| + 2)] + (d + [Goto(|b| + 1)]) + b, [], exit)
  {
    hide Flow, Segment;
    var hc := ShapesOf(fn, globals, c, [], Some([PlainSlot]));
    var hd := ShapesOf(fn, globals, d, [], exitD);
    var hb := ShapesOf(fn, globals, b, [], exitB);
    var code, hs := c + [Instruction.If(|d| + 2)] + (d + [Goto(|b| + 1)]) + b, hc + hd + hb;
    var p, q := |c| + 1, |c| + |d| + 2;
    Slices(c, Instruction.If(|d| + 2), d, Goto(|b| + 1), b);
    ShapeSlices(hc, hd, hb);
    TwoWayAssembled(fn, globals, code, hs, c, hc, d, hd, b, hb);
  }

  lemma {:induction false} IfElseFlow(s: Stmt, env: Env, k: nat)
    requires s.IfElse? && OkStmt(s, env, k) && WellFormedStmt(s, RETURNS)
    ensures Segment(env.fn, ProgramOf(env).names, CodeIfElse(s, env, k), [], Exit(MustReturn(s)))
    decreases s, 0
  {
    hide Segment, Code, CodeBlock, Ok, OkBlock, WellFormed, WellFormedBlock, Literals, LiteralsBlock;
    var fn, globals, p := env.fn, ProgramOf(env).names, [PlainSlot];
    var k1, k2 := k + Literals(s.cond), k + Literals(s.cond) + LiteralsBlock(s.thenPart);
    var c, b, d := Code(s.cond, env, k), CodeBlock(s.thenPart, env, k1), CodeBlock(s.elsePart, env, k2);
    ExprFlow(s.cond, env, k, []);
    assert [] + p == p;
    BlockFlow(s.thenPart, env, k1);
    BlockFlow(s.elsePart, env, k2);
    var exit := Exit(MustReturn(s));
    if MustReturnBlock(s.thenPart) && exit.Some? { AnyExit(fn, globals, b, [], exit); }
    TwoWay(fn, globals, c, d, b, Exit(MustReturnBlock(s.elsePart)), exit, exit);
  }

  lemma {:induction false} LoopAssembled(fn: Function, globals: seq<string>, code: seq<Instruction>, hs: seq<Option<Shape>>,
      c: seq<Instruction>, hc: seq<Option<Shape>>, b: seq<Instruction>, hb: seq<Option<Shape>>)
    requires Flow(fn, globals, c, hc) && Flow(fn, globals, b, hb)
    requires |code| == |c| + |b| + 2 && |hs| == |code| + 1
    requires code[0..|c|] == c && code[|c|] == Instruction.If(|b| + 2) && code[|c| + 1..|c| + 1 + |b|] == b
    requires code[|c| + 1 + |b|] == Goto(-(|c| + 1 + |b|))
    requires hs[0..|c| + 1] == hc && hs[|c| + 1..|c| + 1 + |b| + 1] == hb && hs[|code|] == Some([])
    requires hc[0] == Some([]) && hc[|c|] == Some([PlainSlot]) && hb[0] == Some([]) && hb[|b|] == Some([])
    ensures Segment(fn, globals, code, [], Some([]))
  {
    hide PointOk;
    var p := |c| + 1;
    Embedded(fn, globals, code, hs, 0, c, hc);
    Embedded(fn, globals, code, hs, p, b, hb);
    assert hs[0] == hc[0] && hs[|c|] == hc[|c|] && hs[p] == hb[0] && hs[p + |b|] == hb[|b|];
    BranchPoint(fn, globals, code, hs, |c|, |b| + 2);
    JumpPoint(fn, globals, code, hs, p + |b|, -(|c| + 1 + |b|));
    assert Flow(fn, globals, code, hs);
  }

  /** A loop: the branch leaves it, the last jump re-enters at the condition. */
  lemma {:induction false} Looping(fn: Function, globals: seq<string>, c: seq<Instruction>, b: seq<Instruction>)
    requires Segment(fn, globals, c, [], Some([PlainSlot])) && Segment(fn, globals, b, [], Some([]))
    ensures Segment(fn, globals, c + [Instruction.If(|b| + 2)] + b + [Goto(-(|c| + 1 + |b|))], [], Some([]))
  {
    hide Flow, Segment;
    var hc := ShapesOf(fn, globals, c, [], Some([PlainSlot]));
    var hb := ShapesOf(fn, globals, b, [], Some([]));
    var back := -(|c| + 1 + |b|);
    var code, hs, p := c + [Instruction.If(|b| + 2)] + b + [Goto(back)], hc + hb + [Some([])], |c| + 1;
    Slices(c, Instruction.If(|b| + 2), b, Goto(back), []);
    assert code == c + [Instruction.If(|b| + 2)] + (b + [Goto(back)]) + [];
    ShapeSlices(hc, hb, [Some([])]);
    LoopAssembled(fn, globals, code, hs, c, hc, b, hb);
  }

  lemma {:induction false} WhileFlow(s: Stmt, env: Env, k: nat)
    requires s.While? && OkStmt(s, env, k) && WellFormedStmt(s, RETURNS)
    ensures Segment(env.fn, ProgramOf(env).names, CodeWhile(s, env, k), [], Some([]))
    decreases s, 0
  {
    hide Segment, Code, CodeBlock, Ok, OkBlock, WellFormed, WellFormedBlock;
    var fn, globals, p := env.fn, ProgramOf(env).names, [PlainSlot];
    var c, b := Code(s.cond, env, k), CodeBlock(s.body, env, k + Literals(s.cond));
    ExprFlow(s.cond, env, k, []);
    BlockFlow(s.body, env, k + Literals(s.cond));
    if MustReturnBlock(s.body) { AnyExit(fn, globals, b, [], Some([])); }
    assert [] + p == p;
    Then(fn, globals, c, Not, [], p, p);
    Looping(fn, globals, c + [Not], b);
    assert c + [Not, Instruction.If(|b| + 2)] + b + [Goto(-(|c| + 2 + |b|))]
        == c + [Not] + [Instruction.If(|b| + 2)] + b + [Goto(-(|c + [Not]| + 1 + |b|))];
  }

  // ---------------------------------------------------------------- programs

  lemma {:induction false} InstallFlow(fn: Function, globals: seq<string>, i: nat)
    requires i < |fn.functions| && i < |fn.names| && fn.names[i] in globals
    requires fn.functions[i].builtin != Compiled && fn.functions[i] == BuiltinFunction(fn.functions[i].builtin)
    ensures Segment(fn, globals, [LoadFunc(i), AllocClosure(0), StoreGlobal(i)], [], Some([]))
  {
    hide Segment;
    var a := [FunctionSlot(i)];
    assert [] + [FunctionSlot(i)] == a && a + References(0) == a && [PlainSlot][..0] + [FunctionSlot(i)] + References(0) == a;
    assert [] + [PlainSlot] == [PlainSlot];
    One(fn, globals, LoadFunc(i), [], a);
    Then(fn, globals, [LoadFunc(i)], AllocClosure(0), [], a, [PlainSlot]);
    Then(fn, globals, [LoadFunc(i)] + [AllocClosure(0)], StoreGlobal(i), [], [PlainSlot], []);
    assert [LoadFunc(i)] + [AllocClosure(0)] + [StoreGlobal(i)] == [LoadFunc(i), AllocClosure(0), StoreGlobal(i)];
  }

  lemma {:induction false} PrologueFlow(fn: Function, globals: seq<string>)
    requires |fn.functions| >= 3 && |fn.names| >= 3
    requires forall i :: 0 <= i < 3 ==> fn.names[i] in globals
    requires forall i :: 0 <= i < 3 ==> fn.functions[i].builtin != Compiled && fn.functions[i] == BuiltinFunction(fn.functions[i].builtin)
    ensures Segment(fn, globals, Prologue(), [], Some([]))
  {
    hide Segment;
    InstallFlow(fn, globals, 0);
    InstallFlow(fn, globals, 1);
    InstallFlow(fn, globals, 2);
    var a, b, c := [LoadFunc(0), AllocClosure(0), StoreGlobal(0)], [LoadFunc(1), AllocClosure(0), StoreGlobal(1)],
      [LoadFunc(2), AllocClosure(0), StoreGlobal(2)];
    Sequence(fn, globals, a, b, [], [], Some([]));
    Sequence(fn, globals, a + b, c, [], [], Some([]));
    assert a + b + c == Prologue();
  }
}
