/** The compiler produces the layout: code emitted against growing pools and
    patched at the end of each function equals the code written against the
    finished functions. */
module LateBinding {
  import opened Basics
  import opened Ast
  import opened Bytecode
  import opened Codegen
  import opened Layout
  import opened ScopeAnalysis
  import opened Machine

  /** `g`'s pools hold everything `f`'s pools hold, at the same positions; the
      program's first three functions are replaced by the built-in ones. */
  ghost predicate FinalFn(f: Function, g: Function, program: bool) {
    && f.constants <= g.constants
    && f.names <= g.names
    && f.freeVars <= g.freeVars
    && f.localReferenceVars <= g.localReferenceVars
    && f.localVars == g.localVars
    && |f.functions| <= |g.functions|
    && (forall i :: (if program then 3 else 0) <= i < |f.functions| ==> g.functions[i] == f.functions[i])
  }

  /** `env` holds the finished versions of the functions being built in `cs`, and
      no free variable of the innermost one is unresolved. */
  ghost predicate Final(env: Env, cs: Scopes)
    requires cs != []
  {
    && FinalFn(Last(cs).fn, env.fn, env.Top?)
    && cs[0].fn.names <= ProgramOf(env).names
    && (forall y :: y in env.fn.freeVars ==> Resolve(env, y) == FreePlace)
  }

  lemma {:induction false} FinalBefore(a: Scopes, b: Scopes, env: Env)
    requires Grows(a, b) && Final(env, b)
    ensures Final(env, a)
  {
    var n := |a|;
    assert ScopeGrows(a[n-1], b[n-1], n-1, n-1) && ScopeGrows(a[0], b[0], 0, n-1);
    forall i | (if env.Top? then 3 else 0) <= i < |Last(a).fn.functions|
      ensures env.fn.functions[i] == Last(a).fn.functions[i]
    {
      assert Last(b).fn.functions[i] == Last(a).fn.functions[i];
    }
  }

  /** `r` is the code of a construct, up to patching. */
  ghost predicate LaidOut(r: seq<Instruction>, code: seq<Instruction>, fn: Function) {
    Patch(r, fn) == code
  }

  lemma {:induction false} LaidOutThen(r: seq<Instruction>, r': seq<Instruction>, code: seq<Instruction>, code': seq<Instruction>, fn: Function)
    requires LaidOut(r, code, fn) && LaidOut(r', code', fn)
    ensures LaidOut(r + r', code + code', fn)
  {}

  lemma {:induction false} NothingToPatch(r: seq<Instruction>, fn: Function)
    requires NamedIn(r, [])
    ensures LaidOut(r, r, fn)
  {}

  lemma {:induction false} AllocatedIndex<T>(pool: seq<T>, x: T, final: seq<T>)
    requires (if x in pool then pool else pool + [x]) <= final
    ensures x in final && IndexOf(pool, x) == IndexOf(final, x)
  {
    var grown := if x in pool then pool else pool + [x];
    assert x in grown by { if x !in pool { assert grown[|pool|] == x; } }
    IndexOfStable(grown, final, x);
    PrefixMember(grown, final, x);
    if x !in pool {
      assert grown[..|pool|] == pool;
      assert grown[IndexOf(grown, x)] == x;
      assert forall i :: 0 <= i < |pool| ==> grown[i] == pool[i];
    }
  }

  // ---------------------------------------------------------------- names and constants

  lemma {:induction false} VarLaidOut(x: string, cs: Scopes, env: Env, k: nat)
    requires cs != [] && Consistent(cs, env) && Final(env, CompileVar(x, cs).0)
    ensures LaidOut(CompileVar(x, cs).1, Code(Var(x), env, k), env.fn) && Ok(Var(x), env, k)
  {
    LookupAgrees(cs, env, x);
    var (cs', code) := CompileVar(x, cs);
    if Lookup(cs, x) == GLOBAL {
      AllocatedIndex(Last(cs).fn.names, x, env.fn.names);
      assert cs[0].fn.names <= cs'[0].fn.names;
      PrefixMember(cs[0].fn.names, ProgramOf(env).names, x);
    } else if Lookup(cs, x) != LOCAL {
      PrefixMember(Last(cs').fn.freeVars, env.fn.freeVars, x);
    }
  }

  lemma {:induction false} ConstantLaidOut(e: Expr, c: Constant, cs: Scopes, env: Env, k: nat)
    requires cs != [] && c == ConstantOf(e)
    requires e.IntegerConstant? || e.StringConstant? || e.NoneConstant? || e.BooleanConstant?
    requires Final(env, CompileConstant(c, cs).0)
    ensures LaidOut(CompileConstant(c, cs).1, Code(e, env, k), env.fn) && Ok(e, env, k)
  {
    AllocatedIndex(Last(cs).fn.constants, c, env.fn.constants);
  }

  // ---------------------------------------------------------------- function literals

  function CaptureOne(cs: Scopes, x: string): (r: Scopes)
    requires cs != []
    ensures |r| == |cs|
  {
    var f := Last(cs).fn;
    if x in f.localVars then WithFn(cs, f.(localReferenceVars := AddUnique(f.localReferenceVars, x)))
    else AddFreeVar(cs, x)
  }

  lemma {:induction false} CaptureAllGrows(cs: Scopes, free: seq<string>)
    requires cs != []
    ensures var r := CaptureAll(cs, free).0;
      && r == cs[..|cs|-1] + [Last(cs).(fn := Last(r).fn)]
      && Last(r).fn == Last(cs).fn.(localReferenceVars := Last(r).fn.localReferenceVars,
                                    freeVars := Last(r).fn.freeVars)
      && Last(cs).fn.localReferenceVars <= Last(r).fn.localReferenceVars
      && Last(cs).fn.freeVars <= Last(r).fn.freeVars
    decreases |free|
  {
    if free != [] {
      CaptureAllGrows(CaptureOne(cs, free[0]), free[1..]);
    }
  }

  /** Pools of `fn` from which the slots of captured variables are read. */
  ghost predicate SlotsFinal(f: Function, fn: Function) {
    f.localReferenceVars <= fn.localReferenceVars && f.freeVars <= fn.freeVars && f.localVars == fn.localVars
  }

  /** Every captured variable gets a slot in the enclosing function. */
  lemma {:induction false} CaptureAllLaidOut(cs: Scopes, free: seq<string>, fn: Function)
    requires cs != []
    requires SlotsFinal(Last(CaptureAll(cs, free).0).fn, fn)
    ensures LaidOut(CaptureAll(cs, free).1, Captures(fn, free), fn)
    ensures CapturesOk(fn, free)
    decreases |free|
  {
    if free != [] {
      var f, x := Last(cs).fn, free[0];
      var c1 := CaptureOne(cs, x);
      CaptureAllLaidOut(c1, free[1..], fn);
      CaptureAllGrows(c1, free[1..]);
      var r := Last(CaptureAll(c1, free[1..]).0).fn;
      if x in f.localVars {
        assert Last(c1).fn.localReferenceVars <= fn.localReferenceVars;
        PrefixMember(Last(c1).fn.localReferenceVars, fn.localReferenceVars, x);
        IndexOfStable(Last(c1).fn.localReferenceVars, fn.localReferenceVars, x);
        LaidOutThen([PushReference(CaptureSlot(fn, x))], CaptureAll(c1, free[1..]).1,
                    [PushReference(CaptureSlot(fn, x))], Captures(fn, free[1..]), fn);
      } else {
        assert Last(c1).fn.freeVars <= fn.freeVars;
        PrefixMember(Last(c1).fn.freeVars, fn.freeVars, x);
        LaidOutThen([PushNamed(x)], CaptureAll(c1, free[1..]).1,
                    [PushReference(CaptureSlot(fn, x))], Captures(fn, free[1..]), fn);
      }
      CapturesOkCons(fn, free);
    }
  }

  lemma {:induction false} CapturesOkCons(fn: Function, free: seq<string>)
    requires free != [] && CapturesOk(fn, free[1..])
    requires if free[0] in fn.localVars then free[0] in fn.localReferenceVars else free[0] in fn.freeVars
    ensures CapturesOk(fn, free)
  {
    forall y | y in free
      ensures if y in fn.localVars then y in fn.localReferenceVars else y in fn.freeVars
    {
      if y != free[0] { assert y in free[1..]; }
    }
  }

  /** The function a literal is finished to. */
  function Finished(c1: Scopes, body: seq<Stmt>, code: seq<Instruction>): Function
    requires c1 != []
  {
    var (c2, code2) := WithImplicitReturn(c1, body, code);
    Finish(Last(c2).fn, code2)
  }

  /** Closing a literal stores its finished function at the next index and emits
      the code that builds its closure. */
  lemma {:induction false} CloseFunctionLaidOut(c1: Scopes, body: seq<Stmt>, code: seq<Instruction>, env: Env)
    requires |c1| > 1 && Consistent(c1[..|c1|-1], env)
    requires Final(env, CloseFunction(c1, body, code).0)
    ensures var g := Finished(c1, body, code);
      var k := |c1[|c1|-2].fn.functions|;
      && k < |env.fn.functions| && env.fn.functions[k] == g
      && CapturesOk(env.fn, g.freeVars)
      && LaidOut(CloseFunction(c1, body, code).1,
                 [LoadFunc(k)] + Captures(env.fn, g.freeVars) + [AllocClosure(|g.freeVars|)], env.fn)
      && c1[0].fn.names <= ProgramOf(env).names
  {
    var n := |c1| - 1;
    var outer := c1[..n];
    var g := Finished(c1, body, code);
    var k := |Last(outer).fn.functions|;
    var (c2, code2) := WithImplicitReturn(c1, body, code);
    assert c2[..n] == outer;
    CaptureAllGrows(outer, g.freeVars);
    var (c3, pushes) := CaptureAll(outer, g.freeVars);
    var r := CloseFunction(c1, body, code);
    var fn := Last(c3).fn;
    assert r.0 == WithFn(c3, fn.(functions := fn.functions + [g]));
    assert Last(r.0).fn.functions[k] == g;
    CaptureAllLaidOut(outer, g.freeVars, env.fn);
    NothingToPatch([LoadFunc(k)], env.fn);
    NothingToPatch([AllocClosure(|g.freeVars|)], env.fn);
    LaidOutThen([LoadFunc(k)], pushes, [LoadFunc(k)], Captures(env.fn, g.freeVars), env.fn);
    LaidOutThen([LoadFunc(k)] + pushes, [AllocClosure(|g.freeVars|)],
                [LoadFunc(k)] + Captures(env.fn, g.freeVars), [AllocClosure(|g.freeVars|)], env.fn);
  }

  /** No free variable of the finished literal is unresolved. */
  lemma {:induction false} FreeVarsResolve(c1: Scopes, body: seq<Stmt>, g: Function, inner: Env, env: Env)
    requires |c1| > 1 && g.freeVars == Last(c1).fn.freeVars && g.localVars == Last(c1).fn.localVars
    requires inner == BodyEnv(body, inner.fn, env) && inner.fn.localVars == g.localVars
    requires FreeVarsOk(c1, inner)
    requires Consistent(c1[..|c1|-1], env)
    requires CapturesOk(env.fn, g.freeVars)
    requires forall y :: y in env.fn.freeVars ==> Resolve(env, y) == FreePlace
    ensures forall y :: y in g.freeVars ==> Resolve(BodyEnv(body, g, env), y) == FreePlace
  {
    forall y | y in g.freeVars ensures Resolve(BodyEnv(body, g, env), y) == FreePlace {
      assert y !in inner.fn.localVars && NotGlobal(inner, y);
      assert NotGlobal(env, y);
      if y in env.fn.localVars {
        assert env.Nested?;
        assert Resolve(env, y) == LocalPlace;
      } else {
        assert Resolve(env, y) == FreePlace;
      }
    }
  }

  lemma {:induction false} BodyFinal(c1: Scopes, body: seq<Stmt>, code: seq<Instruction>, inner: Env, env: Env)
    requires |c1| > 1 && Consistent(c1[..|c1|-1], env)
    requires inner == BodyEnv(body, inner.fn, env) && inner.fn.localVars == Last(c1).fn.localVars
    requires FreeVarsOk(c1, inner)
    requires Final(env, CloseFunction(c1, body, code).0)
    ensures Final(BodyEnv(body, Finished(c1, body, code), env), c1)
  {
    var g := Finished(c1, body, code);
    CloseFunctionLaidOut(c1, body, code, env);
    FreeVarsResolve(c1, body, g, inner, env);
  }

  /** The finished function has the shape of its literal. */
  lemma {:induction false} FinishedShape(params: seq<string>, body: seq<Stmt>, cs: Scopes, c1: Scopes, code: seq<Instruction>,
      inner: Env, env: Env)
    requires cs != [] && Consistent(cs, env) && NoDuplicates(params)
    requires inner == OpenEnv(cs, params, body, env)
    requires Grows(OpenFunction(cs, params, body), c1) && FreeVarsOk(c1, inner)
    ensures ShapeOk(params, body, Finished(c1, body, code))
  {
    OpenFunctionOk(cs, params, body, env);
    var o := OpenFunction(cs, params, body);
    assert ScopeGrows(o[|cs|], c1[|cs|], |cs|, |cs|);
  }

  lemma {:induction false} PatchIsStable(fn: Function, code: seq<Instruction>)
    ensures Finish(fn, code).instructions == Patch(code, Finish(fn, code))
  {}

  /** The finished function's instructions are the laid-out code of its body. */
  lemma {:induction false} FinishedCode(c1: Scopes, body: seq<Stmt>, code: seq<Instruction>, laidOut: seq<Instruction>)
    requires |c1| > 1 && LaidOut(code, laidOut, Finished(c1, body, code))
    ensures var g := Finished(c1, body, code);
      && g.instructions ==
           laidOut + (if FindReturnBlock(body) then [] else LoadConstant(g, NoneC) + [Instruction.Return])
      && (FindReturnBlock(body) || NoneC in g.constants)
  {
    hide IndexOf;
    var g := Finished(c1, body, code);
    var (c2, code2) := WithImplicitReturn(c1, body, code);
    PatchIsStable(Last(c2).fn, code2);
    if FindReturnBlock(body) {
      assert laidOut + [] == laidOut;
    } else {
      var pool := Last(c1).fn.constants;
      assert g.constants == AddUnique(pool, NoneC);
      AllocatedIndex(pool, NoneC, g.constants);
      var tail := LoadConstant(g, NoneC) + [Instruction.Return];
      assert code2 == code + tail;
      NothingToPatch(tail, g);
      LaidOutThen(code, tail, laidOut, tail, g);
    }
  }

  // ---------------------------------------------------------------- every construct

  /** The code of a construct with one fixed instruction list after it. */
  lemma {:induction false} LaidOutThenFixed(r: seq<Instruction>, code: seq<Instruction>, tail: seq<Instruction>, fn: Function)
    requires LaidOut(r, code, fn) && NamedIn(tail, [])
    ensures LaidOut(r + tail, code + tail, fn)
  {}

  function Built(cs: Scopes): nat
    requires cs != []
  {
    |Last(cs).fn.functions|
  }

  // ---------------------------------------------------------------- layouts with jumps

  function IfSequence(a: seq<Instruction>, b: seq<Instruction>): seq<Instruction> {
    a + [Not, Instruction.If(|b| + 1)] + b
  }

  function IfElseSequence(a: seq<Instruction>, b: seq<Instruction>, d: seq<Instruction>): seq<Instruction> {
    a + [Instruction.If(|d| + 2)] + (d + [Goto(|b| + 1)]) + b
  }

  function WhileSequence(a: seq<Instruction>, b: seq<Instruction>): seq<Instruction> {
    a + [Not, Instruction.If(|b| + 2)] + b + [Goto(-(|a| + 2 + |b|))]
  }

  lemma {:induction false} BetweenLaidOut(a: seq<Instruction>, b: seq<Instruction>,
      x: seq<Instruction>, y: seq<Instruction>, mid: seq<Instruction>, fn: Function)
    requires LaidOut(a, x, fn) && LaidOut(b, y, fn) && NamedIn(mid, [])
    ensures LaidOut(a + mid + b, x + mid + y, fn)
  {
    LaidOutThenFixed(a, x, mid, fn);
    LaidOutThen(a + mid, b, x + mid, y, fn);
  }

  lemma {:induction false} ThreeLaidOut(a: seq<Instruction>, b: seq<Instruction>,
      d: seq<Instruction>, x: seq<Instruction>, y: seq<Instruction>, z: seq<Instruction>,
      tail: seq<Instruction>, fn: Function)
    requires LaidOut(a, x, fn) && LaidOut(b, y, fn) && LaidOut(d, z, fn) && NamedIn(tail, [])
    ensures LaidOut(a + b + d + tail, x + y + z + tail, fn)
  {
    LaidOutThen(a, b, x, y, fn);
    LaidOutThen(a + b, d, x + y, z, fn);
    LaidOutThenFixed(a + b + d, x + y + z, tail, fn);
  }

  lemma {:induction false} IfSequences(a: seq<Instruction>, b: seq<Instruction>,
      x: seq<Instruction>, y: seq<Instruction>, fn: Function)
    requires LaidOut(a, x, fn) && LaidOut(b, y, fn)
    ensures LaidOut(IfSequence(a, b), IfSequence(x, y), fn)
  {
    BetweenLaidOut(a, b, x, y, [Not, Instruction.If(|b| + 1)], fn);
  }

  lemma {:induction false} IfElseSequences(a: seq<Instruction>, b: seq<Instruction>,
      d: seq<Instruction>, x: seq<Instruction>, y: seq<Instruction>, z: seq<Instruction>, fn: Function)
    requires LaidOut(a, x, fn) && LaidOut(b, y, fn) && LaidOut(d, z, fn)
    ensures LaidOut(IfElseSequence(a, b, d), IfElseSequence(x, y, z), fn)
  {
    var d', z' := d + [Goto(|b| + 1)], z + [Goto(|y| + 1)];
    LaidOutThenFixed(d, z, [Goto(|b| + 1)], fn);
    var mid := [Instruction.If(|d| + 2)];
    BetweenLaidOut(a, d', x, z', mid, fn);
    LaidOutThen(a + mid + d', b, x + mid + z', y, fn);
  }

  lemma {:induction false} WhileSequences(a: seq<Instruction>, b: seq<Instruction>,
      x: seq<Instruction>, y: seq<Instruction>, fn: Function)
    requires LaidOut(a, x, fn) && LaidOut(b, y, fn)
    ensures LaidOut(WhileSequence(a, b), WhileSequence(x, y), fn)
  {
    var mid := [Not, Instruction.If(|b| + 2)];
    BetweenLaidOut(a, b, x, y, mid, fn);
    LaidOutThenFixed(a + mid + b, x + mid + y, [Goto(-(|a| + 2 + |b|))], fn);
  }

  /** What the next step may rely on after a step with new chain `b`. */
  lemma {:induction false} StepDone(a: Scopes, r: (Scopes, seq<Instruction>), env: Env, n: nat)
    requires a != [] && Kept(a, r, env, n) && Final(env, r.0)
    ensures r.0 != [] && Final(env, a)
  {
    FinalBefore(a, r.0, env);
  }

  /** A step is done and another one follows: `r` is the chain in between. */
  lemma {:induction false} ExprThen(e: Expr, cs: Scopes, env: Env)
    requires cs != [] && Consistent(cs, env) && FreeVarsOk(cs, env) && WellFormed(e, SHAPE)
    ensures var r := CompileExpr(e, cs).0;
      && r != [] && Consistent(r, env) && FreeVarsOk(r, env) && Built(r) == Built(cs) + Literals(e)
      && (Final(env, r) ==> Final(env, cs))
  {
    ExprKept(e, cs, env);
    var r := CompileExpr(e, cs);
    if Final(env, r.0) { StepDone(cs, r, env, Literals(e)); }
  }

  lemma {:induction false} NameThen(x: string, cs: Scopes, env: Env)
    requires cs != [] && Consistent(cs, env) && FreeVarsOk(cs, env)
    ensures var r := AllocName(cs, x).0;
      && r != [] && Consistent(r, env) && FreeVarsOk(r, env) && Built(r) == Built(cs)
      && (Final(env, r) ==> Final(env, cs) && x in env.fn.names && AllocName(cs, x).1 == IndexOf(env.fn.names, x))
  {
    AllocNameKept(cs, env, x, []);
    var r := AllocName(cs, x).0;
    if Final(env, r) { StepDone(cs, (r, []), env, 0); NameLaidOut(cs, x, env); }
  }

  lemma {:induction false} ArgsThen(es: seq<Expr>, cs: Scopes, env: Env)
    requires cs != [] && Consistent(cs, env) && FreeVarsOk(cs, env) && WellFormedArgs(es, SHAPE)
    ensures Final(env, CompileArgs(es, cs).0) ==> Final(env, cs)
  {
    ArgsKept(es, cs, env);
    var r := CompileArgs(es, cs);
    if Final(env, r.0) { StepDone(cs, r, env, LiteralsArgs(es)); }
  }

  lemma {:induction false} FieldsThen(fs: seq<FieldInit>, cs: Scopes, env: Env)
    requires cs != [] && Consistent(cs, env) && FreeVarsOk(cs, env) && WellFormedFields(fs, SHAPE)
    ensures Final(env, CompileFields(fs, cs).0) ==> Final(env, cs)
  {
    FieldsKept(fs, cs, env);
    var r := CompileFields(fs, cs);
    if Final(env, r.0) { StepDone(cs, r, env, LiteralsFields(fs)); }
  }

  lemma {:induction false} ScannedThen(e: Expr, cs: Scopes, env: Env, gs: seq<string>, xs: seq<string>)
    requires cs != [] && Consistent(cs, env) && FreeVarsOk(cs, env) && WellFormed(e, SHAPE) && Scanned(cs, gs, xs)
    ensures CompileExpr(e, cs).0 != [] && Scanned(CompileExpr(e, cs).0, gs, xs)
  {
    ExprKept(e, cs, env);
    ScannedGrows(cs, CompileExpr(e, cs).0, gs, xs, env);
  }

  lemma {:induction false} BlockThen(ss: seq<Stmt>, cs: Scopes, env: Env)
    requires cs != [] && Consistent(cs, env) && FreeVarsOk(cs, env) && WellFormedBlock(ss, SHAPE)
    requires Scanned(cs, GlobalsOfBlock(ss), AssignsOfBlock(ss))
    ensures var r := CompileBlock(ss, cs).0;
      && r != [] && Consistent(r, env) && FreeVarsOk(r, env) && Built(r) == Built(cs) + LiteralsBlock(ss)
      && (Final(env, r) ==> Final(env, cs))
  {
    BlockKept(ss, cs, env);
    var r := CompileBlock(ss, cs);
    if Final(env, r.0) { StepDone(cs, r, env, LiteralsBlock(ss)); }
  }

  lemma {:induction false} BlockScannedThen(ss: seq<Stmt>, cs: Scopes, env: Env, gs: seq<string>, xs: seq<string>)
    requires cs != [] && Consistent(cs, env) && FreeVarsOk(cs, env) && WellFormedBlock(ss, SHAPE)
    requires Scanned(cs, GlobalsOfBlock(ss), AssignsOfBlock(ss)) && Scanned(cs, gs, xs)
    ensures CompileBlock(ss, cs).0 != [] && Scanned(CompileBlock(ss, cs).0, gs, xs)
  {
    BlockKept(ss, cs, env);
    ScannedGrows(cs, CompileBlock(ss, cs).0, gs, xs, env);
  }

  lemma {:induction false} ExprLaidOut(e: Expr, cs: Scopes, env: Env, k: nat)
    requires cs != [] && k == Built(cs) && Consistent(cs, env) && FreeVarsOk(cs, env) && WellFormed(e, SHAPE)
    requires Final(env, CompileExpr(e, cs).0)
    ensures LaidOut(CompileExpr(e, cs).1, Code(e, env, k), env.fn) && Ok(e, env, k)
    decreases e, 1
  {
    hide LaidOut, Final, Consistent, FreeVarsOk, CompileBinary, CompileCall, CompileIndex, CompileRecord, CompileField, CompileUnary,
      CompileFun, CompileVar, CompileConstant;
    match e
    case Var(x) => VarLaidOut(x, cs, env, k);
    case IntegerConstant(_) => ConstantLaidOut(e, ConstantOf(e), cs, env, k);
    case StringConstant(_) => ConstantLaidOut(e, ConstantOf(e), cs, env, k);
    case NoneConstant => ConstantLaidOut(e, ConstantOf(e), cs, env, k);
    case BooleanConstant(_) => ConstantLaidOut(e, ConstantOf(e), cs, env, k);
    case Fun(_, _) => FunLaidOut(e, cs, env, k);
    case Binary(_, _, _) => BinaryLaidOut(e, cs, env, k);
    case Unary(_, x) => UnaryLaidOut(e, cs, env, k);
    case Field(_, _) => FieldLaidOut(e, cs, env, k);
    case Index(_, _) => IndexLaidOut(e, cs, env, k);
    case Call(_, _) => CallLaidOut(e, cs, env, k);
    case Record(_) => RecordLaidOut(e, cs, env, k);
  }

  lemma {:induction false} UnaryLaidOut(e: Expr, cs: Scopes, env: Env, k: nat)
    requires e.Unary?
    requires cs != [] && k == Built(cs) && Consistent(cs, env) && FreeVarsOk(cs, env) && WellFormed(e, SHAPE)
    requires Final(env, CompileUnary(e, cs).0)
    ensures LaidOut(CompileUnary(e, cs).1, CodeUnary(e, env, k), env.fn) && Ok(e, env, k)
    decreases e, 0
  {
    hide Consistent, FreeVarsOk, Final, LaidOut, CompileExpr, CompileArgs, CompileFields, Code, CodeArgs, CodeFields, OkArgs, OkFields;
    var Unary(op, x) := e;
    ExprLaidOut(x, cs, env, k);
    LaidOutThenFixed(CompileExpr(x, cs).1, Code(x, env, k), [if op == SUB then Neg else Not], env.fn);
  }

  lemma {:induction false} FunLaidOut(e: Expr, cs: Scopes, env: Env, k: nat)
    requires e.Fun?
    requires cs != [] && k == Built(cs) && Consistent(cs, env) && FreeVarsOk(cs, env) && WellFormed(e, SHAPE)
    requires Final(env, CompileFun(e, cs).0)
    ensures LaidOut(CompileFun(e, cs).1, CodeFun(e, env, k), env.fn) && Ok(e, env, k)
    decreases e, 0
  {
    hide Consistent, FreeVarsOk, Final, Scanned, LaidOut, CompileBlock, CodeBlock, OkBlock, FunctionOk, Grows;
    var Fun(params, body) := e;
    var o := OpenFunction(cs, params, body);
    var inner := OpenEnv(cs, params, body, env);
    LiteralBody(params, body, cs, env);
    var (c1, code) := CompileBlock(body, o);
    var g := Finished(c1, body, code);
    CloseFunctionLaidOut(c1, body, code, env);
    BodyFinal(c1, body, code, inner, env);
    FinishedShape(params, body, cs, c1, code, inner, env);
    SameLocals(o, inner, BodyEnv(body, g, env));
    BlockLaidOut(body, o, BodyEnv(body, g, env), 0);
    FinishedCode(c1, body, code, CodeBlock(body, BodyEnv(body, g, env), 0));
    FunctionIsOk(params, body, c1, code, inner, env);
  }

  /** The chain before and after the body of a literal was compiled. */
  lemma {:induction false} LiteralBody(params: seq<string>, body: seq<Stmt>, cs: Scopes, env: Env)
    requires cs != [] && Consistent(cs, env) && FreeVarsOk(cs, env) && WellFormed(Fun(params, body), SHAPE)
    ensures var o := OpenFunction(cs, params, body);
      var inner := OpenEnv(cs, params, body, env);
      var c1 := CompileBlock(body, o).0;
      && Consistent(o, inner) && FreeVarsOk(o, inner) && Scanned(o, GlobalsOfBlock(body), AssignsOfBlock(body))
      && Built(o) == 0
      && Grows(o, c1) && FreeVarsOk(c1, inner) && inner.fn.localVars == Last(c1).fn.localVars
      && Consistent(c1[..|cs|], env) && |c1[|cs|-1].fn.functions| == Built(cs)
  {
    var o := OpenFunction(cs, params, body);
    var inner := OpenEnv(cs, params, body, env);
    OpenFunctionOk(cs, params, body, env);
    BlockKept(body, o, inner);
    LiteralChain(cs, o, CompileBlock(body, o).0, env, inner);
  }

  /** The chain below a literal while its body was compiled. */
  lemma {:induction false} LiteralChain(cs: Scopes, o: Scopes, c1: Scopes, env: Env, inner: Env)
    requires cs != [] && Consistent(cs, env) && FreeVarsOk(cs, env)
    requires |o| == |cs| + 1 && GrowsBelow(cs, o[..|cs|], |cs|) && Grows(o, c1)
    requires inner.Nested? && Consistent(o, inner)
    ensures Consistent(c1[..|cs|], env)
    ensures |c1[|cs|-1].fn.functions| == Built(cs)
    ensures inner.fn.localVars == Last(c1).fn.localVars
  {
    var n := |cs|;
    var a, b := o[..n], c1[..n];
    forall i {:trigger a[i]} | 0 <= i < n ensures ScopeGrows(a[i], b[i], i, n) {
      assert ScopeGrows(o[i], c1[i], i, n);
    }
    GrowsTransitive(cs, a, b, n);
    OuterKept(cs, b, env);
    assert ScopeGrows(o[n], c1[n], n, n);
  }

  /** Only the locals of an environment's function matter while compiling. */
  lemma {:induction false} SameLocals(cs: Scopes, env: Env, env': Env)
    requires cs != [] && Consistent(cs, env) && env.Nested?
    requires env'.Nested? && env'.fn.localVars == env.fn.localVars && env'.globals == env.globals
    requires env'.parent == env.parent
    ensures Consistent(cs, env')
    ensures FreeVarsOk(cs, env) ==> FreeVarsOk(cs, env')
  {
    if FreeVarsOk(cs, env) {
      forall y | y in Last(cs).fn.freeVars ensures y !in env'.fn.localVars && NotGlobal(env', y) {
        assert NotGlobal(env, y);
      }
    }
  }

  lemma {:induction false} FunctionIsOk(params: seq<string>, body: seq<Stmt>, c1: Scopes, code: seq<Instruction>, inner: Env, env: Env)
    requires |c1| > 1 && Consistent(c1[..|c1|-1], env)
    requires inner == BodyEnv(body, inner.fn, env) && inner.fn.localVars == Last(c1).fn.localVars
    requires FreeVarsOk(c1, inner)
    requires Final(env, CloseFunction(c1, body, code).0)
    requires var g := Finished(c1, body, code);
      && ShapeOk(params, body, g)
      && g.instructions == FunctionCode(body, BodyEnv(body, g, env))
      && (FindReturnBlock(body) || NoneC in g.constants)
      && OkBlock(body, BodyEnv(body, g, env), 0)
    ensures FunctionOk(params, body, Finished(c1, body, code), env)
  {
    CloseFunctionLaidOut(c1, body, code, env);
    FreeVarsResolve(c1, body, Finished(c1, body, code), inner, env);
  }

  lemma {:induction false} BinaryLaidOut(e: Expr, cs: Scopes, env: Env, k: nat)
    requires e.Binary?
    requires cs != [] && k == Built(cs) && Consistent(cs, env) && FreeVarsOk(cs, env) && WellFormed(e, SHAPE)
    requires Final(env, CompileBinary(e, cs).0)
    ensures LaidOut(CompileBinary(e, cs).1, CodeBinary(e, env, k), env.fn) && Ok(e, env, k)
    decreases e, 0
  {
    hide Consistent, FreeVarsOk, Final, LaidOut, CompileExpr, CompileArgs, CompileFields, Code, CodeArgs, CodeFields, OkArgs, OkFields,
      IndexOf, AddUnique;
    var Binary(l, op, r) := e;
    var a := CompileExpr(l, cs);
    ExprThen(l, cs, env);
    var b := CompileExpr(r, a.0);
    ExprThen(r, a.0, env);
    ExprLaidOut(l, cs, env, k);
    ExprLaidOut(r, a.0, env, k + Literals(l));
    var x, y := Code(l, env, k), Code(r, env, k + Literals(l));
    LaidOutThen(a.1, b.1, x, y, env.fn);
    LaidOutThen(b.1, a.1, y, x, env.fn);
    LaidOutThenFixed(if Exchanged(op) then b.1 + a.1 else a.1 + b.1, if Exchanged(op) then y + x else x + y,
                     [OperatorInstruction(op)], env.fn);
  }

  /** Allocating a name hands out its final index. */
  lemma {:induction false} NameLaidOut(cs: Scopes, x: string, env: Env)
    requires cs != [] && Final(env, AllocName(cs, x).0)
    ensures x in env.fn.names && AllocName(cs, x).1 == IndexOf(env.fn.names, x)
  {
    AllocatedIndex(Last(cs).fn.names, x, env.fn.names);
  }

  lemma {:induction false} FieldLaidOut(e: Expr, cs: Scopes, env: Env, k: nat)
    requires e.Field?
    requires cs != [] && k == Built(cs) && Consistent(cs, env) && FreeVarsOk(cs, env) && WellFormed(e, SHAPE)
    requires Final(env, CompileField(e, cs).0)
    ensures LaidOut(CompileField(e, cs).1, CodeField(e, env, k), env.fn) && Ok(e, env, k)
    decreases e, 0
  {
    hide Consistent, FreeVarsOk, Final, LaidOut, CompileExpr, CompileArgs, CompileFields, Code, CodeArgs, CodeFields, OkArgs, OkFields;
    var Field(b, name) := e;
    var a := CompileExpr(b, cs);
    ExprThen(b, cs, env);
    NameThen(name, a.0, env);
    ExprLaidOut(b, cs, env, k);
    LaidOutThenFixed(a.1, Code(b, env, k), [FieldLoad(AllocName(a.0, name).1)], env.fn);
  }

  lemma {:induction false} IndexLaidOut(e: Expr, cs: Scopes, env: Env, k: nat)
    requires e.Index?
    requires cs != [] && k == Built(cs) && Consistent(cs, env) && FreeVarsOk(cs, env) && WellFormed(e, SHAPE)
    requires Final(env, CompileIndex(e, cs).0)
    ensures LaidOut(CompileIndex(e, cs).1, CodeIndex(e, env, k), env.fn) && Ok(e, env, k)
    decreases e, 0
  {
    hide Consistent, FreeVarsOk, Final, LaidOut, CompileExpr, CompileArgs, CompileFields, Code, CodeArgs, CodeFields, OkArgs, OkFields;
    var Index(b, i) := e;
    var x := CompileExpr(b, cs);
    ExprThen(b, cs, env);
    var y := CompileExpr(i, x.0);
    ExprThen(i, x.0, env);
    ExprLaidOut(b, cs, env, k);
    ExprLaidOut(i, x.0, env, k + Literals(b));
    LaidOutThen(x.1, y.1, Code(b, env, k), Code(i, env, k + Literals(b)), env.fn);
    LaidOutThenFixed(x.1 + y.1, Code(b, env, k) + Code(i, env, k + Literals(b)), [IndexLoad], env.fn);
  }

  lemma {:induction false} CallLaidOut(e: Expr, cs: Scopes, env: Env, k: nat)
    requires e.Call?
    requires cs != [] && k == Built(cs) && Consistent(cs, env) && FreeVarsOk(cs, env) && WellFormed(e, SHAPE)
    requires Final(env, CompileCall(e, cs).0)
    ensures LaidOut(CompileCall(e, cs).1, CodeCall(e, env, k), env.fn) && Ok(e, env, k)
    decreases e, 0
  {
    hide Consistent, FreeVarsOk, Final, LaidOut, CompileExpr, CompileArgs, CompileFields, Code, CodeArgs, CodeFields, OkArgs, OkFields,
      IndexOf, AddUnique;
    var Call(t, args) := e;
    var x := CompileExpr(t, cs);
    ExprThen(t, cs, env);
    var y := CompileArgs(args, x.0);
    ArgsThen(args, x.0, env);
    ExprLaidOut(t, cs, env, k);
    ArgsLaidOut(args, x.0, env, k + Literals(t));
    LaidOutThen(x.1, y.1, Code(t, env, k), CodeArgs(args, env, k + Literals(t)), env.fn);
    LaidOutThenFixed(x.1 + y.1, Code(t, env, k) + CodeArgs(args, env, k + Literals(t)),
                     [Instruction.Call(|args|)], env.fn);
  }

  lemma {:induction false} RecordLaidOut(e: Expr, cs: Scopes, env: Env, k: nat)
    requires e.Record?
    requires cs != [] && k == Built(cs) && Consistent(cs, env) && FreeVarsOk(cs, env) && WellFormed(e, SHAPE)
    requires Final(env, CompileRecord(e, cs).0)
    ensures LaidOut(CompileRecord(e, cs).1, CodeRecord(e, env, k), env.fn) && Ok(e, env, k)
    decreases e, 0
  {
    hide Consistent, FreeVarsOk, Final, LaidOut, CompileExpr, CompileArgs, CompileFields, Code, CodeArgs, CodeFields, OkArgs, OkFields;
    var Record(fs) := e;
    FieldsLaidOut(fs, cs, env, k);
    var pre := [AllocRecord] + Dups(|fs|);
    NothingToPatch(pre, env.fn);
    LaidOutThen(pre, CompileFields(fs, cs).1, pre, CodeFields(fs, env, k), env.fn);
    assert Dups(|fs|) == seq(|fs|, _ => Dup);
  }

  lemma {:induction false} ArgsLaidOut(es: seq<Expr>, cs: Scopes, env: Env, k: nat)
    requires cs != [] && k == Built(cs) && Consistent(cs, env) && FreeVarsOk(cs, env) && WellFormedArgs(es, SHAPE)
    requires Final(env, CompileArgs(es, cs).0)
    ensures LaidOut(CompileArgs(es, cs).1, CodeArgs(es, env, k), env.fn) && OkArgs(es, env, k)
    decreases es, 0
  {
    hide Consistent, FreeVarsOk, Final, LaidOut, CompileExpr, Code, Ok;
    if es == [] {
      NothingToPatch([], env.fn);
    } else {
      var a := CompileExpr(es[0], cs);
      ExprThen(es[0], cs, env);
      var b := CompileArgs(es[1..], a.0);
      ArgsThen(es[1..], a.0, env);
      ExprLaidOut(es[0], cs, env, k);
      ArgsLaidOut(es[1..], a.0, env, k + Literals(es[0]));
      LaidOutThen(a.1, b.1, Code(es[0], env, k), CodeArgs(es[1..], env, k + Literals(es[0])), env.fn);
    }
  }

  lemma {:induction false} FieldsOk(fs: seq<FieldInit>, env: Env, k: nat)
    requires fs != [] && Ok(fs[0].init, env, k) && fs[0].name in env.fn.names
    requires OkFields(fs[1..], env, k + Literals(fs[0].init))
    ensures OkFields(fs, env, k)
  {}

  /** The chain after one field of a record literal. */
  lemma {:induction false} FieldInitThen(f: FieldInit, cs: Scopes, env: Env)
    requires cs != [] && Consistent(cs, env) && FreeVarsOk(cs, env) && WellFormed(f.init, SHAPE)
    ensures var a := CompileExpr(f.init, cs).0; var r := AllocName(a, f.name);
      && Consistent(r.0, env) && FreeVarsOk(r.0, env) && Built(r.0) == Built(cs) + Literals(f.init)
      && (Final(env, r.0) ==>
            Final(env, a) && f.name in env.fn.names && r.1 == IndexOf(env.fn.names, f.name))
  {
    ExprThen(f.init, cs, env);
    NameThen(f.name, CompileExpr(f.init, cs).0, env);
  }

  lemma {:induction false} FieldsLaidOut(fs: seq<FieldInit>, cs: Scopes, env: Env, k: nat)
    requires cs != [] && k == Built(cs) && Consistent(cs, env) && FreeVarsOk(cs, env) && WellFormedFields(fs, SHAPE)
    requires Final(env, CompileFields(fs, cs).0)
    ensures LaidOut(CompileFields(fs, cs).1, CodeFields(fs, env, k), env.fn)
    ensures OkFields(fs, env, k)
    decreases fs, 0
  {
    hide Consistent, FreeVarsOk, Final, LaidOut, CompileExpr, Code, Ok, WellFormed, IndexOf, Literals, AddUnique, LiteralsFields;
    if fs == [] {
      NothingToPatch([], env.fn);
    } else {
      FieldsInTurn(fs, cs, env, k);
      assert WellFormedFields(fs[1..], SHAPE) && WellFormed(fs[0].init, SHAPE);
      hide CompileFields, CodeFields, OkFields, WellFormedFields, AllocName;
      var f := fs[0];
      var a := CompileExpr(f.init, cs);
      FieldInitThen(f, cs, env);
      var (c2, i) := AllocName(a.0, f.name);
      var b := CompileFields(fs[1..], c2);
      FieldsThen(fs[1..], c2, env);
      ExprLaidOut(f.init, cs, env, k);
      FieldsLaidOut(fs[1..], c2, env, k + Literals(f.init));
      FieldsOk(fs, env, k);
      var x, y := Code(f.init, env, k), CodeFields(fs[1..], env, k + Literals(f.init));
      BetweenLaidOut(a.1, b.1, x, y, [FieldStore(i)], env.fn);
    }
  }

  lemma {:induction false} FieldsInTurn(fs: seq<FieldInit>, cs: Scopes, env: Env, k: nat)
    requires cs != [] && fs != []
    ensures var a := CompileExpr(fs[0].init, cs);
      var (c2, i) := AllocName(a.0, fs[0].name);
      && CompileFields(fs, cs).1 == a.1 + [FieldStore(i)] + CompileFields(fs[1..], c2).1
      && CompileFields(fs, cs).0 == CompileFields(fs[1..], c2).0
    ensures CodeFields(fs, env, k) == Code(fs[0].init, env, k) + [FieldStore(IndexOf(env.fn.names, fs[0].name))]
      + CodeFields(fs[1..], env, k + Literals(fs[0].init))
  {
    hide CompileExpr, AllocName, IndexOf, Code;
  }

  // ---------------------------------------------------------------- statements

  lemma {:induction false} StmtLaidOut(s: Stmt, cs: Scopes, env: Env, k: nat)
    requires cs != [] && k == Built(cs) && Consistent(cs, env) && FreeVarsOk(cs, env) && WellFormedStmt(s, SHAPE)
    requires Scanned(cs, GlobalsOf(s), AssignsOf(s))
    requires Final(env, CompileStmt(s, cs).0)
    ensures LaidOut(CompileStmt(s, cs).1, CodeStmt(s, env, k), env.fn) && OkStmt(s, env, k)
    decreases s, 1
  {
    hide CompileIf, CompileIfElse, CompileWhile, CompileAssignVar, CompileAssignField, CompileAssignIndex, CompileReturn, CompileCallStmt,
      CodeIf, CodeIfElse, CodeWhile;
    match s
    case Global(_) =>
    case AssignVar(_, _) => AssignVarLaidOut(s, cs, env, k);
    case AssignField(_, _, _) => AssignFieldLaidOut(s, cs, env, k);
    case AssignIndex(_, _, _) => AssignIndexLaidOut(s, cs, env, k);
    case CallStmt(_) => CallStmtLaidOut(s, cs, env, k);
    case If(_, _) => IfLaidOut(s, cs, env, k);
    case IfElse(_, _, _) => IfElseLaidOut(s, cs, env, k);
    case While(_, _) => WhileLaidOut(s, cs, env, k);
    case Return(_) => ReturnLaidOut(s, cs, env, k);
  }

  lemma {:induction false} CallStmtLaidOut(s: Stmt, cs: Scopes, env: Env, k: nat)
    requires s.CallStmt?
    requires cs != [] && k == Built(cs) && Consistent(cs, env) && FreeVarsOk(cs, env) && WellFormedStmt(s, SHAPE)
    requires Final(env, CompileCallStmt(s, cs).0)
    ensures LaidOut(CompileCallStmt(s, cs).1, CodeCallStmt(s, env, k), env.fn) && OkStmt(s, env, k)
    decreases s, 0
  {
    hide Consistent, FreeVarsOk, Final, LaidOut, CompileExpr, Code, Ok;
    ExprLaidOut(s.call, cs, env, k);
    LaidOutThenFixed(CompileExpr(s.call, cs).1, Code(s.call, env, k), [Pop], env.fn);
  }

  lemma {:induction false} ReturnLaidOut(s: Stmt, cs: Scopes, env: Env, k: nat)
    requires s.Return?
    requires cs != [] && k == Built(cs) && Consistent(cs, env) && FreeVarsOk(cs, env) && WellFormedStmt(s, SHAPE)
    requires Final(env, CompileReturn(s, cs).0)
    ensures LaidOut(CompileReturn(s, cs).1, CodeReturn(s, env, k), env.fn) && OkStmt(s, env, k)
    decreases s, 0
  {
    hide Consistent, FreeVarsOk, Final, LaidOut, CompileExpr, Code, Ok;
    ExprLaidOut(s.result, cs, env, k);
    LaidOutThenFixed(CompileExpr(s.result, cs).1, Code(s.result, env, k), [Instruction.Return], env.fn);
  }

  /** Assigned names are local or global, so no store through a reference is emitted. */
  lemma {:induction false} TargetLaidOut(x: string, cs: Scopes, env: Env)
    requires cs != [] && Consistent(cs, env)
    requires LookupLocally(Last(cs), x) in {GLOBAL, LOCAL}
    requires Final(env, CompileTarget(x, cs).0)
    ensures var (c1, before, store) := CompileTarget(x, cs);
      && Assignable(env, x) && Resolve(env, x) != FreePlace && before == []
      && (Resolve(env, x) == LocalPlace ==> store == StoreLocal(IndexOf(env.fn.localVars, x)))
      && (Resolve(env, x) == GlobalPlace ==>
            store == StoreGlobal(IndexOf(env.fn.names, x)) && HasGlobal(env, x))
  {
    LookupAgrees(cs, env, x);
    assert Lookup(cs, x) == LookupLocally(Last(cs), x);
    if Lookup(cs, x) == GLOBAL {
      NameLaidOut(cs, x, env);
      var c1 := AllocName(cs, x).0;
      assert cs[0].fn.names <= c1[0].fn.names;
      PrefixMember(cs[0].fn.names, ProgramOf(env).names, x);
    }
  }

  lemma {:induction false} AssignVarLaidOut(s: Stmt, cs: Scopes, env: Env, k: nat)
    requires s.AssignVar?
    requires cs != [] && k == Built(cs) && Consistent(cs, env) && FreeVarsOk(cs, env) && WellFormedStmt(s, SHAPE)
    requires Scanned(cs, GlobalsOf(s), AssignsOf(s))
    requires Final(env, CompileAssignVar(s, cs).0)
    ensures LaidOut(CompileAssignVar(s, cs).1, CodeAssignVar(s, env, k), env.fn) && OkStmt(s, env, k)
    decreases s, 0
  {
    hide Consistent, FreeVarsOk, Final, LaidOut, CompileExpr, Code, Ok;
    var AssignVar(x, e) := s;
    assert x in AssignsOf(s);
    var (c1, before, store) := CompileTarget(x, cs);
    TargetKept(x, cs, env);
    var a := CompileExpr(e, c1);
    ExprKept(e, c1, env);
    FinalBefore(c1, a.0, env);
    TargetLaidOut(x, cs, env);
    ExprLaidOut(e, c1, env, k);
    LaidOutThenFixed(a.1, Code(e, env, k), [store], env.fn);
    assert before + a.1 + [store] == a.1 + [store];
  }

  lemma {:induction false} AssignFieldLaidOut(s: Stmt, cs: Scopes, env: Env, k: nat)
    requires s.AssignField?
    requires cs != [] && k == Built(cs) && Consistent(cs, env) && FreeVarsOk(cs, env) && WellFormedStmt(s, SHAPE)
    requires Final(env, CompileAssignField(s, cs).0)
    ensures LaidOut(CompileAssignField(s, cs).1, CodeAssignField(s, env, k), env.fn) && OkStmt(s, env, k)
    decreases s, 0
  {
    hide Consistent, FreeVarsOk, Final, LaidOut, CompileExpr, Code, Ok;
    var AssignField(b, name, e) := s;
    var x := CompileExpr(b, cs);
    ExprThen(b, cs, env);
    var (c2, i) := AllocName(x.0, name);
    NameThen(name, x.0, env);
    var y := CompileExpr(e, c2);
    ExprThen(e, c2, env);
    ExprLaidOut(b, cs, env, k);
    ExprLaidOut(e, c2, env, k + Literals(b));
    LaidOutThen(x.1, y.1, Code(b, env, k), Code(e, env, k + Literals(b)), env.fn);
    LaidOutThenFixed(x.1 + y.1, Code(b, env, k) + Code(e, env, k + Literals(b)), [FieldStore(i)], env.fn);
  }

  lemma {:induction false} AssignIndexLaidOut(s: Stmt, cs: Scopes, env: Env, k: nat)
    requires s.AssignIndex?
    requires cs != [] && k == Built(cs) && Consistent(cs, env) && FreeVarsOk(cs, env) && WellFormedStmt(s, SHAPE)
    requires Final(env, CompileAssignIndex(s, cs).0)
    ensures LaidOut(CompileAssignIndex(s, cs).1, CodeAssignIndex(s, env, k), env.fn) && OkStmt(s, env, k)
    decreases s, 0
  {
    hide Consistent, FreeVarsOk, Final, LaidOut, CompileExpr, Code, Ok;
    var AssignIndex(b, i, e) := s;
    var x := CompileExpr(b, cs);
    ExprThen(b, cs, env);
    var y := CompileExpr(i, x.0);
    ExprThen(i, x.0, env);
    var z := CompileExpr(e, y.0);
    ExprThen(e, y.0, env);
    ExprLaidOut(b, cs, env, k);
    ExprLaidOut(i, x.0, env, k + Literals(b));
    ExprLaidOut(e, y.0, env, k + Literals(b) + Literals(i));
    ThreeLaidOut(x.1, y.1, z.1, Code(b, env, k),
                 Code(i, env, k + Literals(b)), Code(e, env, k + Literals(b) + Literals(i)), [IndexStore], env.fn);
  }

  lemma {:induction false} IfLaidOut(s: Stmt, cs: Scopes, env: Env, k: nat)
    requires s.If?
    requires cs != [] && k == Built(cs) && Consistent(cs, env) && FreeVarsOk(cs, env) && WellFormedStmt(s, SHAPE)
    requires Scanned(cs, GlobalsOf(s), AssignsOf(s))
    requires Final(env, CompileIf(s, cs).0)
    ensures LaidOut(CompileIf(s, cs).1, CodeIf(s, env, k), env.fn) && OkStmt(s, env, k)
    decreases s, 0
  {
    hide Consistent, FreeVarsOk, Final, LaidOut, CompileExpr, CompileBlock, Code, CodeBlock, Ok, OkBlock;
    var If(c, t) := s;
    var a := CompileExpr(c, cs);
    ExprThen(c, cs, env);
    ScannedThen(c, cs, env, GlobalsOfBlock(t), AssignsOfBlock(t));
    var b := CompileBlock(t, a.0);
    BlockThen(t, a.0, env);
    ExprLaidOut(c, cs, env, k);
    BlockLaidOut(t, a.0, env, k + Literals(c));
    IfSequences(a.1, b.1, Code(c, env, k),
                CodeBlock(t, env, k + Literals(c)), env.fn);
  }

  /** The chains between condition, then-part and else-part. */
  lemma {:induction false} BranchesThen(c: Expr, t: seq<Stmt>, e: seq<Stmt>, cs: Scopes, env: Env)
    requires cs != [] && Consistent(cs, env) && FreeVarsOk(cs, env)
    requires WellFormed(c, SHAPE) && WellFormedBlock(t, SHAPE) && WellFormedBlock(e, SHAPE)
    requires Scanned(cs, GlobalsOfBlock(t), AssignsOfBlock(t)) && Scanned(cs, GlobalsOfBlock(e), AssignsOfBlock(e))
    ensures var a := CompileExpr(c, cs).0; var b := CompileBlock(t, a).0;
      && Consistent(a, env) && FreeVarsOk(a, env) && Built(a) == Built(cs) + Literals(c)
      && Scanned(a, GlobalsOfBlock(t), AssignsOfBlock(t))
      && Consistent(b, env) && FreeVarsOk(b, env) && Built(b) == Built(a) + LiteralsBlock(t)
      && Scanned(b, GlobalsOfBlock(e), AssignsOfBlock(e))
      && (Final(env, CompileBlock(e, b).0) ==> Final(env, a) && Final(env, b))
  {
    ExprThen(c, cs, env);
    ScannedThen(c, cs, env, GlobalsOfBlock(t), AssignsOfBlock(t));
    ScannedThen(c, cs, env, GlobalsOfBlock(e), AssignsOfBlock(e));
    var a := CompileExpr(c, cs).0;
    BlockThen(t, a, env);
    BlockScannedThen(t, a, env, GlobalsOfBlock(e), AssignsOfBlock(e));
    BlockThen(e, CompileBlock(t, a).0, env);
  }

  lemma {:induction false} IfElseOk(s: Stmt, env: Env, k: nat)
    requires s.IfElse? && Ok(s.cond, env, k) && OkBlock(s.thenPart, env, k + Literals(s.cond))
    requires OkBlock(s.elsePart, env, k + Literals(s.cond) + LiteralsBlock(s.thenPart))
    ensures OkStmt(s, env, k)
  {}

  lemma {:induction false} BranchesScanned(c: Expr, t: seq<Stmt>, e: seq<Stmt>, cs: Scopes)
    requires cs != []
    requires Scanned(cs, GlobalsOf(IfElse(c, t, e)), AssignsOf(IfElse(c, t, e)))
    ensures Scanned(cs, GlobalsOfBlock(t), AssignsOfBlock(t)) && Scanned(cs, GlobalsOfBlock(e), AssignsOfBlock(e))
  {}

  lemma {:induction false} IfElseLaidOut(s: Stmt, cs: Scopes, env: Env, k: nat)
    requires s.IfElse?
    requires cs != [] && k == Built(cs) && Consistent(cs, env) && FreeVarsOk(cs, env) && WellFormedStmt(s, SHAPE)
    requires Scanned(cs, GlobalsOf(s), AssignsOf(s))
    requires Final(env, CompileIfElse(s, cs).0)
    ensures LaidOut(CompileIfElse(s, cs).1, CodeIfElse(s, env, k), env.fn) && OkStmt(s, env, k)
    decreases s, 0
  {
    hide Consistent, FreeVarsOk, Final, LaidOut, CompileExpr, CompileBlock, Code, CodeBlock, Ok, OkBlock;
    var IfElse(c, t, e) := s;
    var a := CompileExpr(c, cs);
    BranchesScanned(c, t, e, cs);
    BranchesThen(c, t, e, cs, env);
    var b := CompileBlock(t, a.0);
    var d := CompileBlock(e, b.0);
    ExprLaidOut(c, cs, env, k);
    BlockLaidOut(t, a.0, env, k + Literals(c));
    BlockLaidOut(e, b.0, env, k + Literals(c) + LiteralsBlock(t));
    IfElseOk(s, env, k);
    IfElseSequences(a.1, b.1, d.1, Code(c, env, k), CodeBlock(t, env, k + Literals(c)),
                    CodeBlock(e, env, k + Literals(c) + LiteralsBlock(t)), env.fn);
  }

  lemma {:induction false} WhileLaidOut(s: Stmt, cs: Scopes, env: Env, k: nat)
    requires s.While?
    requires cs != [] && k == Built(cs) && Consistent(cs, env) && FreeVarsOk(cs, env) && WellFormedStmt(s, SHAPE)
    requires Scanned(cs, GlobalsOf(s), AssignsOf(s))
    requires Final(env, CompileWhile(s, cs).0)
    ensures LaidOut(CompileWhile(s, cs).1, CodeWhile(s, env, k), env.fn) && OkStmt(s, env, k)
    decreases s, 0
  {
    hide Consistent, FreeVarsOk, Final, LaidOut, CompileExpr, CompileBlock, Code, CodeBlock, Ok, OkBlock;
    var While(c, body) := s;
    var a := CompileExpr(c, cs);
    ExprThen(c, cs, env);
    ScannedThen(c, cs, env, GlobalsOfBlock(body), AssignsOfBlock(body));
    var b := CompileBlock(body, a.0);
    BlockThen(body, a.0, env);
    ExprLaidOut(c, cs, env, k);
    BlockLaidOut(body, a.0, env, k + Literals(c));
    WhileSequences(a.1, b.1, Code(c, env, k),
                   CodeBlock(body, env, k + Literals(c)), env.fn);
  }

  lemma {:induction false} BlockLaidOut(ss: seq<Stmt>, cs: Scopes, env: Env, k: nat)
    requires cs != [] && k == Built(cs) && Consistent(cs, env) && FreeVarsOk(cs, env) && WellFormedBlock(ss, SHAPE)
    requires Scanned(cs, GlobalsOfBlock(ss), AssignsOfBlock(ss))
    requires Final(env, CompileBlock(ss, cs).0)
    ensures LaidOut(CompileBlock(ss, cs).1, CodeBlock(ss, env, k), env.fn) && OkBlock(ss, env, k)
    decreases ss, 0
  {
    hide Consistent, FreeVarsOk, Final, LaidOut, CompileStmt, CodeStmt, OkStmt;
    if ss == [] {
      NothingToPatch([], env.fn);
    } else {
      var a := CompileStmt(ss[0], cs);
      StmtKept(ss[0], cs, env);
      ScannedGrows(cs, a.0, GlobalsOfBlock(ss[1..]), AssignsOfBlock(ss[1..]), env);
      var b := CompileBlock(ss[1..], a.0);
      BlockKept(ss[1..], a.0, env);
      FinalBefore(a.0, b.0, env);
      StmtLaidOut(ss[0], cs, env, k);
      BlockLaidOut(ss[1..], a.0, env, k + LiteralsStmt(ss[0]));
      LaidOutThen(a.1, b.1, CodeStmt(ss[0], env, k), CodeBlock(ss[1..], env, k + LiteralsStmt(ss[0])), env.fn);
    }
  }

  // ---------------------------------------------------------------- whole programs

  /** The program's scope while only global names have been declared in it. */
  ghost predicate ProgramScopeOk(sc: Scope) {
    && AllGlobal(sc.table) && TableNamed(sc)
    && sc.fn == ProgramScope().fn.(names := sc.fn.names)
    && NATIVE_NAMES <= sc.fn.names
  }

  lemma {:induction false} DeclareGlobalsProgram(cs: Scopes, xs: seq<string>)
    requires |cs| == 1 && ProgramScopeOk(cs[0])
    ensures var r := DeclareGlobals(cs, xs)[0];
      && ProgramScopeOk(r) && (forall x :: x in cs[0].table ==> x in r.table)
      && (forall x :: x in xs ==> x in r.table)
    decreases |xs|
  {
    if xs != [] {
      var c1 := DeclareGlobal(cs, xs[0]);
      assert xs[0] in c1[0].table;
      DeclareGlobalsProgram(c1, xs[1..]);
      assert forall x :: x in xs <==> x == xs[0] || x in xs[1..];
    }
  }

  lemma {:induction false} DeclareAssignsProgram(cs: Scopes, xs: seq<string>)
    requires |cs| == 1 && ProgramScopeOk(cs[0])
    ensures var r := DeclareAssigns(cs, xs)[0];
      && ProgramScopeOk(r) && (forall x :: x in cs[0].table ==> x in r.table)
      && (forall x :: x in xs ==> x in r.table)
    decreases |xs|
  {
    if xs != [] {
      var c1 := DeclareAssigned(cs, xs[0]);
      assert xs[0] in c1[0].table;
      DeclareAssignsProgram(c1, xs[1..]);
      assert forall x :: x in xs <==> x == xs[0] || x in xs[1..];
    }
  }

  lemma {:induction false} OpenProgramOk(program: seq<Stmt>)
    ensures var cs := OpenProgram(program);
      ProgramScopeOk(cs[0]) && Scanned(cs, GlobalsOfBlock(program), AssignsOfBlock(program))
  {
    var c0 := [ProgramScope()];
    DeclareGlobalsProgram(c0, GlobalsOfBlock(program));
    DeclareAssignsProgram(DeclareGlobals(c0, GlobalsOfBlock(program)), AssignsOfBlock(program));
  }

  /** The finished program with the built-in functions in place. */
  function Linked(program: seq<Stmt>): Function
    requires |CompileProgram(program).functions| >= 3
  {
    LinkBuiltins(CompileProgram(program))
  }

  lemma {:induction false} ProgramKept(program: seq<Stmt>, env: Env)
    requires WellFormedBlock(program, SHAPE) && env.Top? && env.fn.localVars == []
    ensures var o := OpenProgram(program);
      && Consistent(o, env) && FreeVarsOk(o, env) && Scanned(o, GlobalsOfBlock(program), AssignsOfBlock(program))
      && Built(o) == 3
      && Kept(o, CompileBlock(program, o), env, LiteralsBlock(program))
      && NATIVE_NAMES <= CompileProgram(program).names
  {
    var o := OpenProgram(program);
    OpenProgramOk(program);
    BlockKept(program, o, env);
    var r := CompileBlock(program, o);
    assert ScopeGrows(o[0], r.0[0], 0, 0);
  }

  /** A program all of whose names resolve is laid out against its own finished
      function: nothing is left to patch. */
  lemma {:induction false} ProgramLaidOut(program: seq<Stmt>)
    requires WellFormedBlock(program, SHAPE)
    requires CompileProgram(program).freeVars == []
    ensures |CompileProgram(program).functions| >= 3
    ensures var env := Top(Linked(program));
      && env.fn.instructions == Prologue() + CodeBlock(program, env, 3)
      && OkBlock(program, env, 3)
      && NATIVE_NAMES <= env.fn.names && env.fn.localVars == []
  {
    hide CodeBlock, OkBlock, CompileBlock;
    var main := CompileProgram(program);
    ProgramKept(program, Top(EMPTY_FUNCTION));
    var o := OpenProgram(program);
    var r := CompileBlock(program, o);
    assert ScopeGrows(o[0], r.0[0], 0, 0);
    assert main == r.0[0].fn.(instructions := Prologue() + r.1);
    var env := Top(Linked(program));
    ProgramKept(program, env);
    assert Final(env, r.0);
    BlockLaidOut(program, o, env, 3);
    NothingToPatch(r.1, env.fn);
  }

  lemma {:induction false} HasMember<T>(xs: seq<T>)
    requires xs != []
    ensures exists x :: x in xs
  {
    assert xs[0] in xs;
  }

  /** The program has no locals, so none of them is captured. */
  lemma {:induction false} ProgramCapturesNothing(program: seq<Stmt>)
    requires WellFormedBlock(program, SHAPE)
    ensures CompileProgram(program).localReferenceVars == []
  {
    ProgramKept(program, Top(EMPTY_FUNCTION));
    var r := CompileBlock(program, OpenProgram(program));
    var xs := Last(r.0).fn.localReferenceVars;
    if xs != [] { HasMember(xs); }
  }

  /** Every use of a name the compiler could not resolve leaves a free variable in
      the program itself, and the only instructions that are not patched are
      pushes of such variables. */
  lemma {:induction false} UnpatchedIsUnresolved(program: seq<Stmt>, i: nat)
    requires WellFormedBlock(program, SHAPE)
    requires i < |CompileProgram(program).instructions| && CompileProgram(program).instructions[i].PushNamed?
    ensures CompileProgram(program).instructions[i].name in CompileProgram(program).freeVars
  {
    ProgramKept(program, Top(EMPTY_FUNCTION));
    var o := OpenProgram(program);
    var r := CompileBlock(program, o);
    assert CompileProgram(program).instructions == Prologue() + r.1;
    assert !Prologue()[0].PushNamed?;
    assert i >= |Prologue()|;
    assert r.1[i - |Prologue()|].PushNamed?;
  }
}
