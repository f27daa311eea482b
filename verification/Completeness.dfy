/** The converse of the simulation: where a tree-walk raises, or has not ended with
    the fuel it was given, the machine has not finished either. `n` is the number
    of rounds looked at; fuel above it is never used up by a machine that ends. */
module Completeness {
  import opened Basics
  import opened Ast
  import T = TreeWalker
  import opened Bytecode
  import opened Codegen
  import opened Layout
  import opened Machine
  import opened Execution
  import opened ReferenceRuns
  import opened Relation
  import opened RelationUpdates
  import opened RelationCalls
  import opened SimulationSteps
  import opened Simulation
  import opened FailingSteps
  import S = Scoping

  // ---------------------------------------------------------------- what a run starts from

  /** Under the evaluator's rules the state is one of a program that meets the
      conditions on scopes; `outer` holds the locals around. */
  ghost predicate Going(s: T.Store, f: nat, outer: set<string>) {
    !s.strayed && (s.rules == T.AsWritten ==> S.Underway(s, f) && S.Outer(s, f) == outer)
  }

  ghost predicate Apt(e: Expr, rules: T.Rules, env: Env, k: nat, outer: set<string>) {
    WellFormed(e, Needed(rules)) && Ok(e, env, k) && (rules == T.AsWritten ==> S.Fresh(e, outer) && S.Indexed(e))
  }

  ghost predicate AptArgs(es: seq<Expr>, rules: T.Rules, env: Env, k: nat, outer: set<string>) {
    WellFormedArgs(es, Needed(rules)) && OkArgs(es, env, k) && (rules == T.AsWritten ==> S.FreshArgs(es, outer) && S.IndexedArgs(es))
  }

  ghost predicate AptFields(fs: seq<FieldInit>, rules: T.Rules, env: Env, k: nat, outer: set<string>) {
    && WellFormedFields(fs, Needed(rules)) && OkFields(fs, env, k)
    && (rules == T.AsWritten ==> S.FreshFields(fs, outer) && S.IndexedFields(fs))
  }

  ghost predicate AptStmt(c: Stmt, rules: T.Rules, env: Env, k: nat, outer: set<string>) {
    WellFormedStmt(c, Needed(rules)) && OkStmt(c, env, k) && (rules == T.AsWritten ==> S.FreshStmt(c, outer) && S.IndexedStmt(c))
  }

  ghost predicate AptBlock(cs: seq<Stmt>, rules: T.Rules, env: Env, k: nat, outer: set<string>) {
    && WellFormedBlock(cs, Needed(rules)) && OkBlock(cs, env, k)
    && (rules == T.AsWritten ==> S.FreshBlock(cs, outer) && S.IndexedBlock(cs))
  }

  /** A result that keeps the machine from finishing within `n` rounds: an
      exception, or more than `n` used up. Only where compiled code reads a
      variable that the evaluator does not find it goes on. */
  ghost predicate Hopeless(error: T.Error, rules: T.Rules, fuel: nat, n: nat) {
    (error == T.Unbound ==> rules == T.AsCompiled) && (error == T.OutOfFuel ==> n <= fuel)
  }

  ghost predicate Bad<R>(r: T.Result<R>, rules: T.Rules, fuel: nat, n: nat) {
    r.Err? && Hopeless(r.error, rules, fuel, n)
  }

  ghost predicate Set(w: World, program: Function, env: Env, s: T.Store, f: nat, vm: Machine, outer: set<string>) {
    Ready(w, program, env, s, f, vm) && Going(s, f, outer)
  }

  lemma {:induction false} Parts(e: Expr, rules: T.Rules, env: Env, k: nat, outer: set<string>)
    requires Apt(e, rules, env, k, outer)
    ensures match e
      case Binary(l, op, r) => Apt(l, rules, env, k, outer) && Apt(r, rules, env, k + Literals(l), outer) && op != NEG
      case Unary(op, x) => Apt(x, rules, env, k, outer) && op in {SUB, NEG}
      case Field(b, name) => Apt(b, rules, env, k, outer)
      case Index(b, i) => Apt(b, rules, env, k, outer) && Apt(i, rules, env, k + Literals(b), outer)
      case Call(t, args) => Apt(t, rules, env, k, outer) && AptArgs(args, rules, env, k + Literals(t), outer)
      case Record(fs) => AptFields(fs, rules, env, k, outer)
      case _ => true
  {
    hide Needed;
  }

  // ---------------------------------------------------------------- steps that go well

  /** An evaluation that ends, and the state it leaves. */
  lemma {:induction false} Next(e: Expr, w: World, program: Function, env: Env, s: T.Store, f: nat, fuel: nat, vm: Machine, k: nat, outer: set<string>)
    returns (w1: World, v: Value, m: Memory)
    requires Set(w, program, env, s, f, vm, outer) && Apt(e, s.rules, env, k, outer)
    requires Placed(vm, Code(e, env, k)) && T.Eval(e, s, f, fuel).Ok?
    ensures var (x, s1) := T.Eval(e, s, f, fuel).value;
      && Computes(w, w1, program, vm, |Code(e, env, k)|, s1, x, v, m)
      && s1.rules == s.rules
      && Set(w1, program, env, s1, f, At(vm, vm.current.ip + |Code(e, env, k)|, vm.current.stack + [v], m), outer)
      && (s.rules == T.AsWritten ==> S.ValueGoes(s, x, s1))
    ensures CallFree(e) ==> HeapExtends(vm.mem.heap, m.heap)
  {
    hide Rel, ValueOk, HeapGrows, HeapExtends, WorldGrows, Reaches, T.Eval, Code, Ok, WellFormed, Placed;
    Steady(e, s, f, fuel, outer);
    w1, v, m := SimExpr(e, w, program, env, s, f, fuel, vm, k);
    var (x, s1) := T.Eval(e, s, f, fuel).value;
    ReadyAt(w, w1, program, env, s1, f, vm, vm.current.ip + |Code(e, env, k)|, vm.current.stack + [v], m);
  }

  lemma {:induction false} Steady(e: Expr, s: T.Store, f: nat, fuel: nat, outer: set<string>)
    requires Going(s, f, outer) && T.Eval(e, s, f, fuel).Ok?
    requires s.rules == T.AsWritten ==> S.Fresh(e, outer) && S.Indexed(e)
    ensures var (x, s1) := T.Eval(e, s, f, fuel).value;
      Going(s1, f, outer) && s1.rules == s.rules && (s.rules == T.AsWritten ==> S.ValueGoes(s, x, s1))
  {
    hide T.Eval, S.Fresh, S.Indexed, S.Outer;
    if s.rules == T.AsWritten {
      S.ExprGoes(e, s, f, fuel);
      S.Onward(s, T.Eval(e, s, f, fuel).value.1, f);
    }
  }

  // ---------------------------------------------------------------- the rules of compiled code

  function Lenient(s: T.Store): T.Store {
    s.(rules := T.AsCompiled)
  }

  function LenientWorld(w: World): World {
    w.(rules := T.AsCompiled)
  }

  /** What is related under the evaluator's rules is related under those of compiled code. */
  lemma {:induction false} ValueRelents(w: World, x: T.Value, v: Value, h: Heap)
    requires ValueOk(w, x, v, h)
    ensures ValueOk(LenientWorld(w), x, v, h)
  {
    hide FunctionOk;
    if x.FunctionV? {
      LessAsked(Fun(x.params, x.body), RESOLVED, Needed(w.rules));
      var l := Look(h, v);
      ReferencesRelent(w, x.frame, l.code.freeVars, l.freeVars, h);
    }
  }

  lemma {:induction false} ReferencesRelent(w: World, f: nat, xs: seq<string>, rs: seq<Addr>, h: Heap)
    requires ReferencesOk(w, f, xs, rs, h)
    ensures ReferencesOk(LenientWorld(w), f, xs, rs, h)
  {
    forall j | 0 <= j < |xs| ensures ReferenceOk(LenientWorld(w), f, xs[j], rs[j], h) {
      assert ReferenceOk(w, f, xs[j], rs[j], h);
      OwnerRelents(w, f, xs[j]);
    }
  }

  lemma {:induction false} OwnerRelents(w: World, f: nat, x: string)
    ensures Owner(LenientWorld(w), f, x) == Owner(w, f, x)
    ensures OwnerPath(LenientWorld(w), f, x) <==> OwnerPath(w, f, x)
    decreases f
  {
    if f in w.frames && w.frames[f].env.Nested? && x !in w.frames[f].env.fn.localVars && w.frames[f].parent < f {
      OwnerRelents(w, w.frames[f].parent, x);
    }
  }

  lemma {:induction false} FrameRelents(w: World, program: Function, s: T.Store, h: Heap, f: nat)
    requires FrameOk(w, program, s, h, f)
    ensures FrameOk(LenientWorld(w), program, Lenient(s), h, f)
  {
    hide ValueOk, ReferencesOk, EnvShapeOk, IndexOf;
    var info, fr := w.frames[f], s.frames[f];
    var locals := h[info.addr].locals;
    match info.env
    case Top(fn) =>
      forall x | x in fn.names ensures ValueOk(LenientWorld(w), Stored(fr.vars, x), locals[IndexOf(fn.names, x)], h) {
        ValueRelents(w, Stored(fr.vars, x), locals[IndexOf(fn.names, x)], h);
      }
    case Nested(fn, gs, _) =>
      forall i | 0 <= i < |locals| && fn.localVars[i] !in gs ensures ValueOk(LenientWorld(w), fr.vars[fn.localVars[i]], locals[i], h) {
        ValueRelents(w, fr.vars[fn.localVars[i]], locals[i], h);
      }
      ReferencesRelent(w, info.parent, fn.freeVars, h[info.addr].refs[|fn.localReferenceVars|..], h);
  }

  lemma {:induction false} RecordRelents(w: World, s: T.Store, h: Heap, id: nat)
    requires RecordOk(w, s, h, id)
    ensures RecordOk(LenientWorld(w), Lenient(s), h, id)
  {
    hide ValueOk;
    var m, fields := s.records[id], h[w.records[id]].fields;
    forall x | x in m ensures ValueOk(LenientWorld(w), m[x], fields[x], h) { ValueRelents(w, m[x], fields[x], h); }
  }

  lemma {:induction false} RelRelents(w: World, program: Function, s: T.Store, m: Memory)
    requires Rel(w, program, s, m)
    ensures Rel(LenientWorld(w), program, Lenient(s), m)
  {
    hide FrameOk, RecordOk;
    var w', s' := LenientWorld(w), Lenient(s);
    forall f | f in w.frames ensures FrameOk(w', program, s', m.heap, f) { FrameRelents(w, program, s, m.heap, f); }
    forall id | id in w.records ensures RecordOk(w', s', m.heap, id) { RecordRelents(w, s, m.heap, id); }
  }

  lemma {:induction false} Relents(w: World, program: Function, env: Env, s: T.Store, f: nat, vm: Machine, outer: set<string>)
    requires Set(w, program, env, s, f, vm, outer)
    ensures Set(LenientWorld(w), program, env, Lenient(s), f, vm, outer)
  {
    hide Rel;
    RelRelents(w, program, s, vm.mem);
  }

  lemma {:induction false} AptRelents(e: Expr, rules: T.Rules, env: Env, k: nat, outer: set<string>)
    requires Apt(e, rules, env, k, outer)
    ensures Apt(e, T.AsCompiled, env, k, outer)
  {
    hide Ok, WellFormed;
    LessAsked(e, RESOLVED, Needed(rules));
  }

  lemma {:induction false} AptArgsRelent(es: seq<Expr>, rules: T.Rules, env: Env, k: nat, outer: set<string>)
    requires AptArgs(es, rules, env, k, outer)
    ensures AptArgs(es, T.AsCompiled, env, k, outer)
  {
    hide OkArgs, WellFormedArgs;
    LessAskedOfArgs(es, RESOLVED, Needed(rules));
  }

  // ---------------------------------------------------------------- expressions

  /** Evaluating by the rules of compiled code, with fuel enough for `n` rounds. */
  lemma {:induction false} Attempt(e: Expr, w: World, program: Function, env: Env, s: T.Store, f: nat, vm: Machine, k: nat,
      outer: set<string>, n: nat)
    returns (done: bool, w1: World, v: Value, m: Memory)
    requires s.rules == T.AsCompiled && Set(w, program, env, s, f, vm, outer)
    requires Apt(e, T.AsCompiled, env, k, outer) && Placed(vm, Code(e, env, k))
    ensures done == T.Eval(e, s, f, n).Ok?
    ensures done ==> var (x, s1) := T.Eval(e, s, f, n).value;
      && Computes(w, w1, program, vm, |Code(e, env, k)|, s1, x, v, m) && s1.rules == s.rules
      && Set(w1, program, env, s1, f, At(vm, vm.current.ip + |Code(e, env, k)|, vm.current.stack + [v], m), outer)
      && (CallFree(e) ==> HeapExtends(vm.mem.heap, m.heap))
    ensures !done ==> Unfinished(n, vm)
    decreases n, e, 6
  {
    hide Set, Apt, Placed, Computes, HeapExtends, T.Eval, Code, Unfinished, CallFree;
    done := T.Eval(e, s, f, n).Ok?;
    if done {
      w1, v, m := Next(e, w, program, env, s, f, n, vm, k, outer);
    } else {
      LastsExpr(e, w, program, env, s, f, n, vm, k, outer, n);
      w1, v, m := w, NONE, vm.mem;
    }
  }

  lemma {:induction false} LastsExpr(e: Expr, w: World, program: Function, env: Env, s: T.Store, f: nat, fuel: nat, vm: Machine, k: nat,
      outer: set<string>, n: nat)
    requires Set(w, program, env, s, f, vm, outer) && Apt(e, s.rules, env, k, outer) && Placed(vm, Code(e, env, k))
    requires Bad(T.Eval(e, s, f, fuel), s.rules, fuel, n)
    ensures Unfinished(n, vm)
    decreases n, e, 5
  {
    hide Set, Apt, Placed, Unfinished;
    hide T.EvalBinary, T.EvalUnary, T.EvalField, T.EvalIndex, T.EvalCall, T.EvalRecord;
    hide CodeBinary, CodeUnary, CodeField, CodeIndex, CodeCall, CodeRecord, CodeVar, CodeFun;
    match e
    case Binary(_, op, _) =>
      if Exchanged(op) {
        LastsExchanged(e, w, program, env, s, f, fuel, vm, k, outer, n);
      } else {
        LastsInOrder(e, w, program, env, s, f, fuel, vm, k, outer, n);
      }
    case Unary(_, _) => LastsUnary(e, w, program, env, s, f, fuel, vm, k, outer, n);
    case Field(_, _) => LastsField(e, w, program, env, s, f, fuel, vm, k, outer, n);
    case Index(_, _) => LastsIndex(e, w, program, env, s, f, fuel, vm, k, outer, n);
    case Call(_, _) => LastsCall(e, w, program, env, s, f, fuel, vm, k, outer, n);
    case Record(_) => LastsRecord(e, w, program, env, s, f, fuel, vm, k, outer, n);
    case _ =>
  }

  lemma {:induction false} LastsUnary(e: Expr, w: World, program: Function, env: Env, s: T.Store, f: nat, fuel: nat, vm: Machine, k: nat,
      outer: set<string>, n: nat)
    requires e.Unary? && Set(w, program, env, s, f, vm, outer) && Apt(e, s.rules, env, k, outer) && Placed(vm, CodeUnary(e, env, k))
    requires Bad(T.EvalUnary(e, s, f, fuel), s.rules, fuel, n)
    ensures Unfinished(n, vm)
    decreases n, e, 0
  {
    hide Rel, ValueOk, HeapGrows, WorldGrows, Reaches, T.Eval, T.UnaryOp, Code, Apt, Unfinished, Set, Step, CallFree, Literals;
    var Unary(op, x) := e;
    Parts(e, s.rules, env, k, outer);
    var ip, st, a := vm.current.ip, vm.current.stack, Code(x, env, k);
    PlacedSplit(vm.current.fn.instructions, ip, a, [if op == SUB then Neg else Not]);
    if T.Eval(x, s, f, fuel).Err? {
      LastsExpr(x, w, program, env, s, f, fuel, vm, k, outer, n);
    } else {
      var w1, v, m := Next(x, w, program, env, s, f, fuel, vm, k, outer);
      var vm1 := At(vm, ip + |a|, st + [v], m);
      UnaryStuck(w1, vm1, op, st, T.Eval(x, s, f, fuel).value.0, v);
      StuckAfter(n, vm, vm1);
    }
  }

  lemma {:induction false} StuckAfter(n: nat, vm: Machine, vm1: Machine)
    requires Reaches(vm, vm1) && Step(vm1) == Failed
    ensures Unfinished(n, vm)
  {
    hide Step, Reaches, Unfinished;
    Stuck(n, vm1);
    UnfinishedVia(n, vm, vm1);
  }

  lemma {:induction false} LastsField(e: Expr, w: World, program: Function, env: Env, s: T.Store, f: nat, fuel: nat, vm: Machine, k: nat,
      outer: set<string>, n: nat)
    requires e.Field? && Set(w, program, env, s, f, vm, outer) && Apt(e, s.rules, env, k, outer) && Placed(vm, CodeField(e, env, k))
    requires Bad(T.EvalField(e, s, f, fuel), s.rules, fuel, n)
    ensures Unfinished(n, vm)
    decreases n, e, 0
  {
    hide Rel, ValueOk, HeapGrows, WorldGrows, Reaches, T.Eval, T.ReadField, Code, Apt, Unfinished, Set, Step, CallFree, Literals, IndexOf;
    var Field(b, name) := e;
    Parts(e, s.rules, env, k, outer);
    var ip, st, a := vm.current.ip, vm.current.stack, Code(b, env, k);
    PlacedSplit(vm.current.fn.instructions, ip, a, [FieldLoad(IndexOf(env.fn.names, name))]);
    if T.Eval(b, s, f, fuel).Err? {
      LastsExpr(b, w, program, env, s, f, fuel, vm, k, outer, n);
    } else {
      var w1, v, m := Next(b, w, program, env, s, f, fuel, vm, k, outer);
      var (x, s1) := T.Eval(b, s, f, fuel).value;
      var vm1 := At(vm, ip + |a|, st + [v], m);
      RecordsRead(w1, program, s1, m, x, v, name);
      FieldStuck(w1, vm1, IndexOf(env.fn.names, name), st, x, v);
      StuckAfter(n, vm, vm1);
    }
  }

  lemma {:induction false} LastsInOrder(e: Expr, w: World, program: Function, env: Env, s: T.Store, f: nat, fuel: nat, vm: Machine, k: nat,
      outer: set<string>, n: nat)
    requires e.Binary? && !Exchanged(e.op) && Set(w, program, env, s, f, vm, outer) && Apt(e, s.rules, env, k, outer)
    requires Placed(vm, CodeBinary(e, env, k)) && Bad(T.EvalBinary(e, s, f, fuel), s.rules, fuel, n)
    ensures Unfinished(n, vm)
    decreases n, e, 0
  {
    hide Rel, ValueOk, HeapGrows, WorldGrows, Reaches, T.Eval, T.BinaryOp, Code, Apt, Unfinished, Set, Step, CallFree, Literals, PlacedAt;
    var Binary(l, op, r) := e;
    Parts(e, s.rules, env, k, outer);
    var ip, st, k', a, b := vm.current.ip, vm.current.stack, k + Literals(l), Code(l, env, k), Code(r, env, k + Literals(l));
    PlacedSplit3(vm.current.fn.instructions, ip, a, b, [OperatorInstruction(op)]);
    if T.Eval(l, s, f, fuel).Err? {
      LastsExpr(l, w, program, env, s, f, fuel, vm, k, outer, n);
    } else {
      var w1, v1, m1 := Next(l, w, program, env, s, f, fuel, vm, k, outer);
      var (lv, s1) := T.Eval(l, s, f, fuel).value;
      var vm1 := At(vm, ip + |a|, st + [v1], m1);
      if T.Eval(r, s1, f, fuel).Err? {
        LastsExpr(r, w1, program, env, s1, f, fuel, vm1, k', outer, n);
        UnfinishedVia(n, vm, vm1);
      } else {
        var w2, v2, m2 := Next(r, w1, program, env, s1, f, fuel, vm1, k', outer);
        var (rv, s2) := T.Eval(r, s1, f, fuel).value;
        Both(w, w1, w2, program, vm, |a|, |b|, s1, lv, v1, m1, s2, rv, v2, m2);
        var vm2 := At(vm, ip + |a| + |b|, st + [v1, v2], m2);
        BinaryStuck(w2, program, s2, vm2, op, st, lv, rv, v1, v2);
        StuckAfter(n, vm, vm2);
      }
    }
  }

  /** The same from a state under either rules, when the evaluator has given up but
      the code still runs: `v` is a value computed before. */
  lemma {:induction false} AttemptAfter(e: Expr, w1: World, program: Function, env: Env, s1: T.Store, f: nat, vm: Machine, vm1: Machine, k: nat,
      outer: set<string>, n: nat, x: T.Value, v: Value)
    returns (done: bool, w2: World, v2: Value, m2: Memory)
    requires Reaches(vm, vm1) && Set(w1, program, env, s1, f, vm1, outer) && ValueOk(w1, x, v, vm1.mem.heap)
    requires Apt(e, s1.rules, env, k, outer) && Placed(vm1, Code(e, env, k))
    ensures done ==> T.Eval(e, Lenient(s1), f, n).Ok?
    ensures done ==> var (x2, s2) := T.Eval(e, Lenient(s1), f, n).value;
      var vm2 := At(vm1, vm1.current.ip + |Code(e, env, k)|, vm1.current.stack + [v2], m2);
      && Reaches(vm, vm2) && Set(w2, program, env, s2, f, vm2, outer) && s2.rules == T.AsCompiled
      && ValueOk(w2, x, v, m2.heap) && ValueOk(w2, x2, v2, m2.heap)
      && (CallFree(e) ==> HeapExtends(vm1.mem.heap, m2.heap))
      && WorldGrows(LenientWorld(w1), w2) && HeapGrows(vm1.mem.heap, m2.heap)
    ensures !done ==> Unfinished(n, vm)
    decreases n, e, 7
  {
    hide Rel, ValueOk, HeapGrows, HeapExtends, WorldGrows, Reaches, T.Eval, Code, Apt, Unfinished, Set, CallFree;
    Relents(w1, program, env, s1, f, vm1, outer);
    AptRelents(e, s1.rules, env, k, outer);
    ValueRelents(w1, x, v, vm1.mem.heap);
    done, w2, v2, m2 := Attempt(e, LenientWorld(w1), program, env, Lenient(s1), f, vm1, k, outer, n);
    if done {
      var vm2 := At(vm1, vm1.current.ip + |Code(e, env, k)|, vm1.current.stack + [v2], m2);
      ReachesTransitive(vm, vm1, vm2);
      ValueStable(LenientWorld(w1), w2, x, v, vm1.mem.heap, m2.heap);
    } else {
      UnfinishedVia(n, vm, vm1);
    }
  }

  lemma {:induction false} LastsIndex(e: Expr, w: World, program: Function, env: Env, s: T.Store, f: nat, fuel: nat, vm: Machine, k: nat,
      outer: set<string>, n: nat)
    requires e.Index? && Set(w, program, env, s, f, vm, outer) && Apt(e, s.rules, env, k, outer) && Placed(vm, CodeIndex(e, env, k))
    requires Bad(T.EvalIndex(e, s, f, fuel), s.rules, fuel, n)
    ensures Unfinished(n, vm)
    decreases n, e, 0
  {
    hide Rel, ValueOk, HeapGrows, WorldGrows, Reaches, T.Eval, T.ReadField, T.Cast, Code, Apt, Unfinished, Set, Step, CallFree, Literals;
    var Index(b, i) := e;
    Parts(e, s.rules, env, k, outer);
    var ip, st, k', x, y := vm.current.ip, vm.current.stack, k + Literals(b), Code(b, env, k), Code(i, env, k + Literals(b));
    PlacedSplit3(vm.current.fn.instructions, ip, x, y, [IndexLoad]);
    if T.Eval(b, s, f, fuel).Err? {
      LastsExpr(b, w, program, env, s, f, fuel, vm, k, outer, n);
    } else {
      var w1, v1, m1 := Next(b, w, program, env, s, f, fuel, vm, k, outer);
      var (bv, s1) := T.Eval(b, s, f, fuel).value;
      var vm1 := At(vm, ip + |x|, st + [v1], m1);
      if !bv.RecordV? {
        IndexAnyway(i, w1, program, env, s1, f, vm, vm1, k', outer, n, st, bv, v1);
      } else if T.Eval(i, s1, f, fuel).Err? {
        LastsExpr(i, w1, program, env, s1, f, fuel, vm1, k', outer, n);
        UnfinishedVia(n, vm, vm1);
      } else {
        var w2, v2, m2 := Next(i, w1, program, env, s1, f, fuel, vm1, k', outer);
        var (iv, s2) := T.Eval(i, s1, f, fuel).value;
        Both(w, w1, w2, program, vm, |x|, |y|, s1, bv, v1, m1, s2, iv, v2, m2);
        var vm2 := At(vm, ip + |x| + |y|, st + [v1, v2], m2);
        if T.Cast(iv, s2).Ok? { RecordsRead(w2, program, s2, m2, bv, v1, T.Cast(iv, s2).value); }
        IndexStuck(w2, program, s2, vm2, st, bv, v1, iv, v2);
        StuckAfter(n, vm, vm2);
      }
    }
  }

  /** The machine evaluates the index before it finds out that there is no record. */
  lemma {:induction false} IndexAnyway(i: Expr, w1: World, program: Function, env: Env, s1: T.Store, f: nat, vm: Machine, vm1: Machine, k: nat,
      outer: set<string>, n: nat, st: seq<Value>, x: T.Value, v: Value)
    requires Reaches(vm, vm1) && Set(w1, program, env, s1, f, vm1, outer) && Apt(i, s1.rules, env, k, outer)
    requires Placed(vm1, Code(i, env, k)) && PlacedAt(vm1.current.fn.instructions, vm1.current.ip + |Code(i, env, k)|, [IndexLoad])
    requires vm1.current.stack == st + [v] && ValueOk(w1, x, v, vm1.mem.heap) && !x.RecordV?
    ensures Unfinished(n, vm)
    decreases n, i, 8
  {
    hide Rel, ValueOk, HeapGrows, HeapExtends, WorldGrows, Reaches, T.Eval, Code, Apt, Unfinished, Step, CallFree;
    var done, w2, v2, m2 := AttemptAfter(i, w1, program, env, s1, f, vm, vm1, k, outer, n, x, v);
    if done {
      var vm2 := At(vm1, vm1.current.ip + |Code(i, env, k)|, vm1.current.stack + [v2], m2);
      assert st + [v] + [v2] == st + [v, v2];
      var (iv, s2) := T.Eval(i, Lenient(s1), f, n).value;
      IndexStuck(w2, program, s2, vm2, st, x, v, iv, v2);
      StuckAfter(n, vm, vm2);
    }
  }

  // ---------------------------------------------------------------- records

  lemma {:induction false} LastsRecord(e: Expr, w: World, program: Function, env: Env, s: T.Store, f: nat, fuel: nat, vm: Machine, k: nat,
      outer: set<string>, n: nat)
    requires e.Record? && Set(w, program, env, s, f, vm, outer) && Apt(e, s.rules, env, k, outer) && Placed(vm, CodeRecord(e, env, k))
    requires Bad(T.EvalRecord(e, s, f, fuel), s.rules, fuel, n)
    ensures Unfinished(n, vm)
    decreases n, e, 0
  {
    hide Rel, ValueOk, HeapGrows, HeapExtends, WorldGrows, Reaches, T.EvalFields, CodeFields, Apt, AptFields, Unfinished, Going;
    var Record(inits) := e;
    Parts(e, s.rules, env, k, outer);
    var s1 := s.(records := s.records + [map[]]);
    var ip, st, c, size := vm.current.ip, vm.current.stack, CodeFields(inits, env, k), |inits|;
    PlacedSplit(vm.current.fn.instructions, ip, [AllocRecord] + Dups(size), c);
    var w1, m1 := RecordStep(w, program, env, s, f, vm, size);
    var v := Ptr(vm.mem.next);
    var vm1 := At(vm, ip + 1 + size, st + [v] + seq(size, _ => v), m1);
    ReadyAt(w, w1, program, env, s1, f, vm, ip + 1 + size, st + [v] + seq(size, _ => v), m1);
    RecordGoing(s, f, outer);
    LastsFields(inits, |s.records|, w1, program, env, s1, f, fuel, vm1, k, outer, n, st + [v], v);
    UnfinishedVia(n, vm, vm1);
  }

  lemma {:induction false} RecordGoing(s: T.Store, f: nat, outer: set<string>)
    requires Going(s, f, outer)
    ensures Going(s.(records := s.records + [map[]]), f, outer)
  {
    hide S.Outer;
    if s.rules == T.AsWritten {
      S.NewRecordGoes(s);
      S.Onward(s, s.(records := s.records + [map[]]), f);
    }
  }

  lemma {:induction false} WriteGoing(s: T.Store, f: nat, outer: set<string>, id: nat, field: string, v: T.Value)
    requires Going(s, f, outer) && id < |s.records| && (s.rules == T.AsWritten ==> S.ValueTidy(v, s))
    ensures Going(T.WriteRecord(s, id, field, v), f, outer)
  {
    hide S.Outer, S.ValueTidy;
    if s.rules == T.AsWritten {
      S.WriteRecordGoes(s, id, field, v);
      S.Onward(s, T.WriteRecord(s, id, field, v), f);
    }
  }

  lemma {:induction false} LastsFields(inits: seq<FieldInit>, id: nat, w: World, program: Function, env: Env, s: T.Store, f: nat,
      fuel: nat, vm: Machine, k: nat, outer: set<string>, n: nat, st: seq<Value>, a: Value)
    requires Set(w, program, env, s, f, vm, outer) && AptFields(inits, s.rules, env, k, outer) && Placed(vm, CodeFields(inits, env, k))
    requires vm.current.stack == st + seq(|inits|, _ => a) && id in w.records && ValueOk(w, T.RecordV(id), a, vm.mem.heap)
    requires Bad(T.EvalFields(inits, id, s, f, fuel), s.rules, fuel, n)
    ensures Unfinished(n, vm)
    decreases n, inits, 0
  {
    hide Rel, ValueOk, HeapGrows, HeapExtends, WorldGrows, Reaches, T.Eval, Code, IndexOf, Unfinished, Going, CallFree, Literals, WellFormed,
      Ok, S.Fresh, S.Indexed, S.ValueTidy;
    var e, rest := inits[0].init, inits[1..];
    var c, store, d := Code(e, env, k), FieldStore(IndexOf(env.fn.names, inits[0].name)), CodeFields(rest, env, k + Literals(e));
    var ip, st1 := vm.current.ip, st + seq(|rest|, _ => a);
    PlacedSplit3(vm.current.fn.instructions, ip, c, [store], d);
    if T.Eval(e, s, f, fuel).Err? {
      LastsExpr(e, w, program, env, s, f, fuel, vm, k, outer, n);
    } else {
      var w1, v1, m1 := Next(e, w, program, env, s, f, fuel, vm, k, outer);
      var (sv, s1) := T.Eval(e, s, f, fuel).value;
      assert vm.current.stack == st1 + [a];
      RecordStaysPut(w, w1, id);
      var m2 := InitStep(w, w1, program, env, s1, f, vm, |c|, inits[0].name, st1, id, a, sv, v1, m1);
      var s2 := T.WriteRecord(s1, id, inits[0].name, sv);
      var vm2 := At(vm, ip + |c| + 1, st1, m2);
      ReadyAt(w, w1, program, env, s2, f, vm, ip + |c| + 1, st1, m2);
      WriteGoing(s1, f, outer, id, inits[0].name, sv);
      LastsFields(rest, id, w1, program, env, s2, f, fuel, vm2, k + Literals(e), outer, n, st, a);
      UnfinishedVia(n, vm, vm2);
    }
  }

  // ---------------------------------------------------------------- calls

  /** Arguments that all have values. */
  lemma {:induction false} NextArgs(es: seq<Expr>, w: World, program: Function, env: Env, s: T.Store, f: nat, fuel: nat, vm: Machine, k: nat,
      outer: set<string>)
    returns (w1: World, vs: seq<Value>, m: Memory)
    requires Set(w, program, env, s, f, vm, outer) && AptArgs(es, s.rules, env, k, outer)
    requires Placed(vm, CodeArgs(es, env, k)) && T.EvalArgs(es, s, f, fuel).Ok?
    ensures var (xs, s1) := T.EvalArgs(es, s, f, fuel).value;
      var vm1 := At(vm, vm.current.ip + |CodeArgs(es, env, k)|, vm.current.stack + vs, m);
      && WorldGrows(w, w1) && Reaches(vm, vm1) && HeapGrows(vm.mem.heap, m.heap) && ValuesOk(w1, xs, vs, m.heap)
      && s1.rules == s.rules && Set(w1, program, env, s1, f, vm1, outer)
      && (s.rules == T.AsWritten ==> S.Goes(s, s1) && forall x :: x in xs ==> S.ValueTidy(x, s1))
  {
    hide Rel, ValuesOk, HeapGrows, WorldGrows, Reaches, T.EvalArgs, CodeArgs, OkArgs, WellFormedArgs, Placed, S.Outer, S.FreshArgs,
      S.IndexedArgs, S.ValueTidy;
    var (xs, s1) := T.EvalArgs(es, s, f, fuel).value;
    if s.rules == T.AsWritten {
      S.ArgsGo(es, s, f, fuel);
      S.Onward(s, s1, f);
    }
    w1, vs, m := SimArgs(es, w, program, env, s, f, fuel, vm, k);
    ReadyAt(w, w1, program, env, s1, f, vm, vm.current.ip + |CodeArgs(es, env, k)|, vm.current.stack + vs, m);
  }

  lemma {:induction false} ArgParts(es: seq<Expr>, rules: T.Rules, env: Env, k: nat, outer: set<string>)
    requires AptArgs(es, rules, env, k, outer) && es != []
    ensures Apt(es[0], rules, env, k, outer) && AptArgs(es[1..], rules, env, k + Literals(es[0]), outer)
  {
    hide Ok, WellFormed, S.Fresh, S.Indexed, Needed;
  }

  lemma {:induction false} LastsArgs(es: seq<Expr>, w: World, program: Function, env: Env, s: T.Store, f: nat, fuel: nat, vm: Machine, k: nat,
      outer: set<string>, n: nat)
    requires Set(w, program, env, s, f, vm, outer) && AptArgs(es, s.rules, env, k, outer) && Placed(vm, CodeArgs(es, env, k))
    requires Bad(T.EvalArgs(es, s, f, fuel), s.rules, fuel, n)
    ensures Unfinished(n, vm)
    decreases n, es, 0
  {
    hide Rel, ValueOk, HeapGrows, WorldGrows, Reaches, T.Eval, Code, Apt, AptArgs, Unfinished, Set, CallFree, Literals;
    var e, rest := es[0], es[1..];
    var ip, k', a := vm.current.ip, k + Literals(e), Code(e, env, k);
    ArgParts(es, s.rules, env, k, outer);
    PlacedSplit(vm.current.fn.instructions, ip, a, CodeArgs(rest, env, k'));
    if T.Eval(e, s, f, fuel).Err? {
      LastsExpr(e, w, program, env, s, f, fuel, vm, k, outer, n);
    } else {
      var w1, v1, m1 := Next(e, w, program, env, s, f, fuel, vm, k, outer);
      var (x, s1) := T.Eval(e, s, f, fuel).value;
      var vm1 := At(vm, ip + |a|, vm.current.stack + [v1], m1);
      LastsArgs(rest, w1, program, env, s1, f, fuel, vm1, k', outer, n);
      UnfinishedVia(n, vm, vm1);
    }
  }

  lemma {:induction false} LastsCall(e: Expr, w: World, program: Function, env: Env, s: T.Store, f: nat, fuel: nat, vm: Machine, k: nat,
      outer: set<string>, n: nat)
    requires e.Call? && Set(w, program, env, s, f, vm, outer) && Apt(e, s.rules, env, k, outer) && Placed(vm, CodeCall(e, env, k))
    requires Bad(T.EvalCall(e, s, f, fuel), s.rules, fuel, n)
    ensures Unfinished(n, vm)
    decreases n, e, 0
  {
    hide Rel, ValueOk, HeapGrows, WorldGrows, Reaches, T.Eval, T.EvalArgs, T.Apply, Code, CodeArgs, Apt, AptArgs, Unfinished, Set, CallFree,
      Literals;
    var Call(t, args) := e;
    Parts(e, s.rules, env, k, outer);
    var ip, st, k', a, b := vm.current.ip, vm.current.stack, k + Literals(t), Code(t, env, k), CodeArgs(args, env, k + Literals(t));
    PlacedSplit3(vm.current.fn.instructions, ip, a, b, [Instruction.Call(|args|)]);
    if T.Eval(t, s, f, fuel).Err? {
      LastsExpr(t, w, program, env, s, f, fuel, vm, k, outer, n);
    } else {
      var w1, v1, m1 := Next(t, w, program, env, s, f, fuel, vm, k, outer);
      var (tv, s1) := T.Eval(t, s, f, fuel).value;
      var vm1 := At(vm, ip + |a|, st + [v1], m1);
      if !tv.FunctionV? && !tv.NativeV? {
        ArgsAnyway(args, w1, program, env, s1, f, vm, vm1, k', outer, n, st, tv, v1);
      } else if T.EvalArgs(args, s1, f, fuel).Err? {
        LastsArgs(args, w1, program, env, s1, f, fuel, vm1, k', outer, n);
        UnfinishedVia(n, vm, vm1);
      } else if n > 0 {
        var w2, vs, m2 := NextArgs(args, w1, program, env, s1, f, fuel, vm1, k', outer);
        var (svs, s2) := T.EvalArgs(args, s1, f, fuel).value;
        ValueStable(w1, w2, tv, v1, m1.heap, m2.heap);
        if s.rules == T.AsWritten { S.ValueStays(tv, s1, s2); }
        ValueCount(w2, svs, vs, m2.heap);
        var vm2 := At(vm1, ip + |a| + |b|, st + [v1] + vs, m2);
        LastsApply(tv, svs, w2, program, env, s2, f, fuel - 1, vm2, outer, n - 1, st, v1, vs);
        UnfinishedVia(n, vm1, vm2);
        UnfinishedVia(n, vm, vm1);
      } else {
        NotYet(vm);
      }
    }
  }

  lemma {:induction false} NotYet(vm: Machine)
    ensures Unfinished(0, vm)
  {}

  /** The machine evaluates the arguments before it finds out that there is nothing to call. */
  lemma {:induction false} ArgsAnyway(args: seq<Expr>, w1: World, program: Function, env: Env, s1: T.Store, f: nat, vm: Machine, vm1: Machine,
      k: nat, outer: set<string>, n: nat, st: seq<Value>, tv: T.Value, v: Value)
    requires Reaches(vm, vm1) && Set(w1, program, env, s1, f, vm1, outer) && AptArgs(args, s1.rules, env, k, outer)
    requires Placed(vm1, CodeArgs(args, env, k))
    requires PlacedAt(vm1.current.fn.instructions, vm1.current.ip + |CodeArgs(args, env, k)|, [Instruction.Call(|args|)])
    requires vm1.current.stack == st + [v] && ValueOk(w1, tv, v, vm1.mem.heap) && !tv.FunctionV? && !tv.NativeV?
    ensures Unfinished(n, vm)
    decreases n, args, 1
  {
    hide Rel, ValueOk, ValuesOk, HeapGrows, WorldGrows, Reaches, T.EvalArgs, CodeArgs, AptArgs, Unfinished, Step;
    var s', w' := Lenient(s1), LenientWorld(w1);
    Relents(w1, program, env, s1, f, vm1, outer);
    AptArgsRelent(args, s1.rules, env, k, outer);
    ValueRelents(w1, tv, v, vm1.mem.heap);
    if T.EvalArgs(args, s', f, n).Err? {
      LastsArgs(args, w', program, env, s', f, n, vm1, k, outer, n);
      UnfinishedVia(n, vm, vm1);
    } else {
      var w2, vs, m2 := NextArgs(args, w', program, env, s', f, n, vm1, k, outer);
      var (svs, s2) := T.EvalArgs(args, s', f, n).value;
      ValueStable(w', w2, tv, v, vm1.mem.heap, m2.heap);
      ValueCount(w2, svs, vs, m2.heap);
      var vm2 := At(vm1, vm1.current.ip + |CodeArgs(args, env, k)|, vm1.current.stack + vs, m2);
      CallStuck(tv, svs, s2, w2, program, vm2, st, v, vs);
      ReachesTransitive(vm, vm1, vm2);
      StuckAfter(n, vm, vm2);
    }
  }

  /** The frame of a call is a good one to start the body in. */
  lemma {:induction false} EntryGoing(tv: T.Value, svs: seq<T.Value>, s: T.Store, f: nat, outer: set<string>) returns (outer1: set<string>)
    requires tv.FunctionV? && |svs| == |tv.params| && Going(s, f, outer)
    requires s.rules == T.AsWritten ==> S.ValueTidy(tv, s) && forall x :: x in svs ==> S.ValueTidy(x, s)
    ensures var f1, s1 := |s.frames|, s.(frames := s.frames + [T.CallFrame(tv.frame, tv.params, tv.body, svs)]);
      && Going(s1, f1, outer1) && Assigns(AssignsOfBlock(tv.body), s1, f1)
      && (s.rules == T.AsWritten ==> S.FreshBlock(tv.body, outer1) && S.IndexedBlock(tv.body))
  {
    hide S.Outer, S.Fresh, S.FreshBlock, S.IndexedBlock, T.CallFrame, AssignsOfBlock, S.Bound;
    var f1, s1 := |s.frames|, s.(frames := s.frames + [T.CallFrame(tv.frame, tv.params, tv.body, svs)]);
    outer1 := {};
    if s.rules == T.AsWritten {
      S.CallFrameTidy(tv.frame, tv.params, tv.body, svs, s);
      outer1 := S.Outer(s1, f1);
    }
  }

  lemma {:induction false} ShapeOfLiteral(params: seq<string>, body: seq<Stmt>, rules: T.Rules)
    requires WellFormed(Fun(params, body), Needed(rules))
    ensures WellFormedBlock(body, Needed(rules)) && (rules == T.AsWritten && FindReturnBlock(body) ==> MustReturnBlock(body))
  {}

  /** A call of which the tree-walker comes to no end: entering the body takes one
      round. */
  lemma {:induction false} LastsApply(tv: T.Value, svs: seq<T.Value>, w: World, program: Function, env: Env, s: T.Store, f: nat, fuel: int,
      vm: Machine, outer: set<string>, n: nat, st: seq<Value>, cv: Value, vs: seq<Value>)
    requires (tv.FunctionV? || tv.NativeV?) && Set(w, program, env, s, f, vm, outer)
    requires Placed(vm, [Instruction.Call(|vs|)]) && vm.current.stack == st + [cv] + vs
    requires ValueOk(w, tv, cv, vm.mem.heap) && ValuesOk(w, svs, vs, vm.mem.heap)
    requires s.rules == T.AsWritten ==> S.ValueTidy(tv, s) && forall x :: x in svs ==> S.ValueTidy(x, s)
    requires fuel >= 0 && Bad(T.Apply(tv, svs, s, fuel), s.rules, fuel, n)
    ensures Unfinished(n + 1, vm)
    decreases n, (if tv.FunctionV? then tv.body else []), 3
  {
    hide Rel, ValueOk, ValuesOk, HeapGrows, WorldGrows, Reaches, T.ExecBlock, T.Cast, Placed, Unfinished, Step, S.Outer, S.ValueTidy, OkBlock,
      FunctionCode, T.CallFrame;
    if Refused(tv, svs, s) {
      CallStuck(tv, svs, s, w, program, vm, st, cv, vs);
      Stuck(n + 1, vm);
    } else {
      var FunctionV(parent, params, body) := tv;
      var f1, s1 := |s.frames|, s.(frames := s.frames + [T.CallFrame(parent, params, body, svs)]);
      var w1, env1, vm1 := EnterClosure(tv, svs, s, w, program, vm, st, cv, vs);
      var outer1 := EntryGoing(tv, svs, s, f, outer);
      ShapeOfLiteral(params, body, s.rules);
      LastsBody(body, w1, program, env1, s1, f1, fuel, vm1, outer1, n);
      ReachesSelf(vm);
      UnfinishedAfter(n + 1, vm, vm, vm1);
    }
  }

  /** A body that ends although the return analysis says it returns: the machine
      reaches the end of its code with no operand to hand back, and fails. */
  lemma {:induction false} BodyFails(body: seq<Stmt>, w: World, program: Function, env: Env, s: T.Store, f: nat, fuel: nat, vm: Machine)
    returns (last: Machine)
    requires Ready(w, program, env, s, f, vm) && vm.current.ip == 0 && vm.current.stack == [] && vm.callers != []
    requires WellFormedBlock(body, Needed(s.rules)) && OkBlock(body, env, 0)
    requires env.fn.instructions == FunctionCode(body, env)
    requires T.ExecBlock(body, s, f, fuel).Ok? && !T.ExecBlock(body, s, f, fuel).value.1.strayed
    requires FindReturnBlock(body) && T.ExecBlock(body, s, f, fuel).value.0.Normal?
    ensures Reaches(vm, last) && Step(last) == Failed
  {
    hide Rel, ValueOk, HeapGrows, WorldGrows, Reaches, OkBlock, WellFormedBlock, T.ExecBlock, CodeBlock;
    var a := CodeBlock(body, env, 0);
    assert a[0..|a|] == a && env.fn.instructions == a + [] == a;
    var w', v, m' := SimBlock(body, w, program, env, s, f, fuel, vm, 0);
    last := At(vm, |a|, [], m');
  }

  /** A body that comes to no end, or falls off it where the compiler saw a return. */
  lemma {:induction false} LastsBody(body: seq<Stmt>, w: World, program: Function, env: Env, s: T.Store, f: nat, fuel: nat, vm: Machine,
      outer: set<string>, n: nat)
    requires Set(w, program, env, s, f, vm, outer) && Assigns(AssignsOfBlock(body), s, f) && AptBlock(body, s.rules, env, 0, outer)
    requires vm.current.ip == 0 && vm.current.stack == [] && vm.callers != [] && env.fn.instructions == FunctionCode(body, env)
    requires var r := T.ExecBlock(body, s, f, fuel);
      Bad(r, s.rules, fuel, n) || (r.Ok? && r.value.0.Normal? && s.rules == T.AsCompiled && FindReturnBlock(body))
    ensures Unfinished(n, vm)
    decreases n, body, 2
  {
    hide Rel, Reaches, T.ExecBlock, CodeBlock, OkBlock, WellFormedBlock, Unfinished, Step, S.Outer, S.FreshBlock, S.IndexedBlock, IndexOf;
    if T.ExecBlock(body, s, f, fuel).Err? {
      var a, instrs := CodeBlock(body, env, 0), env.fn.instructions;
      var b := if FindReturnBlock(body) then [] else LoadConstant(env.fn, NoneC) + [Instruction.Return];
      assert instrs[0..|instrs|] == instrs && instrs == a + b;
      PlacedSplit(instrs, 0, a, b);
      LastsBlock(body, w, program, env, s, f, fuel, vm, 0, outer, n);
    } else {
      var last := BodyFails(body, w, program, env, s, f, fuel, vm);
      StuckAfter(n, vm, last);
    }
  }

  // ---------------------------------------------------------------- statements

  /** The names a statement assigns are bound in its frame. */
  ghost predicate Assigns(xs: seq<string>, s: T.Store, f: nat) {
    s.rules == T.AsWritten ==> S.Bound(xs, s, f)
  }

  lemma {:induction false} AssignsOn(xs: seq<string>, s: T.Store, s1: T.Store, f: nat)
    requires Assigns(xs, s, f) && s1.rules == s.rules && (s.rules == T.AsWritten ==> f < |s.frames| && S.SameShape(s, s1))
    ensures Assigns(xs, s1, f)
  {
    hide S.Bound;
    if s.rules == T.AsWritten { S.BoundOn(xs, s, s1, f); }
  }

  /** A statement that ends without returning, and the state it leaves. */
  lemma {:induction false} NextStmt(c: Stmt, w: World, program: Function, env: Env, s: T.Store, f: nat, fuel: nat, vm: Machine, k: nat,
      outer: set<string>)
    returns (w1: World, m: Memory)
    requires Set(w, program, env, s, f, vm, outer) && Assigns(AssignsOf(c), s, f) && AptStmt(c, s.rules, env, k, outer)
    requires Placed(vm, CodeStmt(c, env, k)) && T.Exec(c, s, f, fuel).Ok? && T.Exec(c, s, f, fuel).value.0.Normal?
    ensures var s1 := T.Exec(c, s, f, fuel).value.1;
      var vm1 := At(vm, vm.current.ip + |CodeStmt(c, env, k)|, vm.current.stack, m);
      && Reaches(vm, vm1) && s1.rules == s.rules && Set(w1, program, env, s1, f, vm1, outer)
      && (s.rules == T.AsWritten ==> f < |s.frames| && S.SameShape(s, s1))
  {
    hide Rel, HeapGrows, WorldGrows, Reaches, T.Exec, CodeStmt, OkStmt, WellFormedStmt, Placed, S.Outer, S.FreshStmt, S.IndexedStmt, S.Bound,
      S.SameShape;
    var s1 := T.Exec(c, s, f, fuel).value.1;
    if s.rules == T.AsWritten {
      S.StmtGoes(c, s, f, fuel);
      S.Onward(s, s1, f);
    }
    var v;
    w1, v, m := SimStmt(c, w, program, env, s, f, fuel, vm, k);
    ReadyAt(w, w1, program, env, s1, f, vm, vm.current.ip + |CodeStmt(c, env, k)|, vm.current.stack, m);
  }

  /** ... and a block. */
  lemma {:induction false} NextBlock(cs: seq<Stmt>, w: World, program: Function, env: Env, s: T.Store, f: nat, fuel: nat, vm: Machine, k: nat,
      outer: set<string>)
    returns (w1: World, m: Memory)
    requires Set(w, program, env, s, f, vm, outer) && Assigns(AssignsOfBlock(cs), s, f) && AptBlock(cs, s.rules, env, k, outer)
    requires Placed(vm, CodeBlock(cs, env, k)) && T.ExecBlock(cs, s, f, fuel).Ok? && T.ExecBlock(cs, s, f, fuel).value.0.Normal?
    ensures var s1 := T.ExecBlock(cs, s, f, fuel).value.1;
      var vm1 := At(vm, vm.current.ip + |CodeBlock(cs, env, k)|, vm.current.stack, m);
      && Reaches(vm, vm1) && s1.rules == s.rules && Set(w1, program, env, s1, f, vm1, outer)
      && (s.rules == T.AsWritten ==> f < |s.frames| && S.SameShape(s, s1))
  {
    hide Rel, HeapGrows, WorldGrows, Reaches, T.ExecBlock, CodeBlock, OkBlock, WellFormedBlock, Placed, S.Outer, S.FreshBlock, S.IndexedBlock,
      S.Bound, S.SameShape;
    var s1 := T.ExecBlock(cs, s, f, fuel).value.1;
    if s.rules == T.AsWritten {
      S.BlockGoes(cs, s, f, fuel);
      S.Onward(s, s1, f);
    }
    var v;
    w1, v, m := SimBlock(cs, w, program, env, s, f, fuel, vm, k);
    ReadyAt(w, w1, program, env, s1, f, vm, vm.current.ip + |CodeBlock(cs, env, k)|, vm.current.stack, m);
  }

  lemma {:induction false} BlockParts(cs: seq<Stmt>, rules: T.Rules, env: Env, k: nat, outer: set<string>, s: T.Store, f: nat)
    requires AptBlock(cs, rules, env, k, outer) && cs != [] && Assigns(AssignsOfBlock(cs), s, f)
    ensures AptStmt(cs[0], rules, env, k, outer) && AptBlock(cs[1..], rules, env, k + LiteralsStmt(cs[0]), outer)
    ensures Assigns(AssignsOf(cs[0]), s, f) && Assigns(AssignsOfBlock(cs[1..]), s, f)
  {
    hide OkStmt, WellFormedStmt, S.FreshStmt, S.IndexedStmt, Needed, AssignsOf;
  }

  lemma {:induction false} LastsBlock(cs: seq<Stmt>, w: World, program: Function, env: Env, s: T.Store, f: nat, fuel: nat, vm: Machine, k: nat,
      outer: set<string>, n: nat)
    requires Set(w, program, env, s, f, vm, outer) && Assigns(AssignsOfBlock(cs), s, f) && AptBlock(cs, s.rules, env, k, outer)
    requires Placed(vm, CodeBlock(cs, env, k)) && Bad(T.ExecBlock(cs, s, f, fuel), s.rules, fuel, n)
    ensures Unfinished(n, vm)
    decreases n, cs, 0
  {
    hide Rel, Reaches, T.Exec, CodeStmt, AptStmt, AptBlock, Assigns, Unfinished, Set, Step, S.SameShape;
    var c, rest := cs[0], cs[1..];
    var ip, k', a := vm.current.ip, k + LiteralsStmt(c), CodeStmt(c, env, k);
    BlockParts(cs, s.rules, env, k, outer, s, f);
    PlacedSplit(vm.current.fn.instructions, ip, a, CodeBlock(rest, env, k'));
    if T.Exec(c, s, f, fuel).Err? {
      LastsStmt(c, w, program, env, s, f, fuel, vm, k, outer, n);
    } else {
      var w1, m1 := NextStmt(c, w, program, env, s, f, fuel, vm, k, outer);
      var s1 := T.Exec(c, s, f, fuel).value.1;
      AssignsOn(AssignsOfBlock(rest), s, s1, f);
      var vm1 := At(vm, ip + |a|, vm.current.stack, m1);
      LastsBlock(rest, w1, program, env, s1, f, fuel, vm1, k', outer, n);
      UnfinishedVia(n, vm, vm1);
    }
  }

  lemma {:induction false} LastsStmt(c: Stmt, w: World, program: Function, env: Env, s: T.Store, f: nat, fuel: nat, vm: Machine, k: nat,
      outer: set<string>, n: nat)
    requires Set(w, program, env, s, f, vm, outer) && Assigns(AssignsOf(c), s, f) && AptStmt(c, s.rules, env, k, outer)
    requires Placed(vm, CodeStmt(c, env, k)) && Bad(T.Exec(c, s, f, fuel), s.rules, fuel, n)
    ensures Unfinished(n, vm)
    decreases n, c, 2
  {
    hide Set, Placed, Unfinished, Assigns, AptStmt;
    hide T.ExecAssignVar, T.ExecAssignField, T.ExecAssignIndex, T.ExecCallStmt, T.ExecIf, T.ExecIfElse, T.ExecWhile, T.ExecReturn;
    hide CodeAssignVar, CodeAssignField, CodeAssignIndex, CodeCallStmt, CodeIf, CodeIfElse, CodeWhile, CodeReturn;
    match c
    case Global(_) =>
    case AssignVar(_, _) => LastsAssignVar(c, w, program, env, s, f, fuel, vm, k, outer, n);
    case AssignField(_, _, _) => LastsAssignField(c, w, program, env, s, f, fuel, vm, k, outer, n);
    case AssignIndex(_, _, _) => LastsAssignIndex(c, w, program, env, s, f, fuel, vm, k, outer, n);
    case CallStmt(_) => LastsCallStmt(c, w, program, env, s, f, fuel, vm, k, outer, n);
    case If(_, _) => LastsIf(c, w, program, env, s, f, fuel, vm, k, outer, n);
    case IfElse(_, _, _) => LastsIfElse(c, w, program, env, s, f, fuel, vm, k, outer, n);
    case While(_, _) => LastsWhile(c, w, program, env, s, f, fuel, vm, k, outer, n);
    case Return(_) => LastsReturn(c, w, program, env, s, f, fuel, vm, k, outer, n);
  }

  lemma {:induction false} StmtParts(c: Stmt, rules: T.Rules, env: Env, k: nat, outer: set<string>, s: T.Store, f: nat)
    requires AptStmt(c, rules, env, k, outer) && Assigns(AssignsOf(c), s, f)
    ensures match c
      case AssignVar(_, e) => Apt(e, rules, env, k, outer)
      case CallStmt(e) => Apt(e, rules, env, k, outer)
      case If(g, t) => Apt(g, rules, env, k, outer) && AptBlock(t, rules, env, k + Literals(g), outer) && Assigns(AssignsOfBlock(t), s, f)
      case IfElse(g, t, e) =>
        && Apt(g, rules, env, k, outer) && AptBlock(t, rules, env, k + Literals(g), outer)
        && AptBlock(e, rules, env, k + Literals(g) + LiteralsBlock(t), outer)
        && Assigns(AssignsOfBlock(t), s, f) && Assigns(AssignsOfBlock(e), s, f)
      case While(g, b) => Apt(g, rules, env, k, outer) && AptBlock(b, rules, env, k + Literals(g), outer) && Assigns(AssignsOfBlock(b), s, f)
      case Return(e) => Apt(e, rules, env, k, outer)
      case _ => true
  {
    hide Needed;
  }

  lemma {:induction false} StoreParts(c: Stmt, rules: T.Rules, env: Env, k: nat, outer: set<string>)
    requires AptStmt(c, rules, env, k, outer)
    ensures match c
      case AssignField(b, _, e) => Apt(b, rules, env, k, outer) && Apt(e, rules, env, k + Literals(b), outer)
      case AssignIndex(b, i, e) =>
        && Apt(b, rules, env, k, outer) && Apt(i, rules, env, k + Literals(b), outer)
        && Apt(e, rules, env, k + Literals(b) + Literals(i), outer)
        && (rules == T.AsWritten ==> S.NeverRecord(i) || CallFree(e))
      case _ => true
  {
    hide Needed;
  }

  lemma {:induction false} LastsAssignVar(c: Stmt, w: World, program: Function, env: Env, s: T.Store, f: nat, fuel: nat, vm: Machine, k: nat,
      outer: set<string>, n: nat)
    requires c.AssignVar? && Set(w, program, env, s, f, vm, outer) && Assigns(AssignsOf(c), s, f) && AptStmt(c, s.rules, env, k, outer)
    requires Placed(vm, CodeAssignVar(c, env, k)) && Bad(T.ExecAssignVar(c, s, f, fuel), s.rules, fuel, n)
    ensures Unfinished(n, vm)
    decreases n, c, 0
  {
    hide Rel, ValueOk, HeapGrows, WorldGrows, Reaches, T.Eval, Code, Ok, WellFormed, IndexOf, Needed, T.LookupWrite, Unfinished, Apt, Going,
      Assigns, S.Fresh, S.Indexed, CallFree, Literals;
    var AssignVar(x, e) := c;
    StmtParts(c, s.rules, env, k, outer, s, f);
    var a := Code(e, env, k);
    var instr := if Resolve(env, x) == LocalPlace then StoreLocal(IndexOf(env.fn.localVars, x))
                 else StoreGlobal(IndexOf(env.fn.names, x));
    PlacedSplit(vm.current.fn.instructions, vm.current.ip, a, [instr]);
    if T.Eval(e, s, f, fuel).Ok? {
      var w1, v, m1 := Next(e, w, program, env, s, f, fuel, vm, k, outer);
      var (sv, s1) := T.Eval(e, s, f, fuel).value;
      var m2 := StoreAfter(w, w1, program, env, s, s1, f, vm, |a|, x, sv, v, m1, instr);
    } else {
      FrameBound(w, program, s, vm.mem, f);
      LastsExpr(e, w, program, env, s, f, fuel, vm, k, outer, n);
    }
  }

  lemma {:induction false} LastsCallStmt(c: Stmt, w: World, program: Function, env: Env, s: T.Store, f: nat, fuel: nat, vm: Machine, k: nat,
      outer: set<string>, n: nat)
    requires c.CallStmt? && Set(w, program, env, s, f, vm, outer) && Assigns(AssignsOf(c), s, f) && AptStmt(c, s.rules, env, k, outer)
    requires Placed(vm, CodeCallStmt(c, env, k)) && Bad(T.ExecCallStmt(c, s, f, fuel), s.rules, fuel, n)
    ensures Unfinished(n, vm)
    decreases n, c, 0
  {
    hide T.Eval, Code, Unfinished, Apt, Set, Assigns;
    StmtParts(c, s.rules, env, k, outer, s, f);
    PlacedSplit(vm.current.fn.instructions, vm.current.ip, Code(c.call, env, k), [Pop]);
    LastsExpr(c.call, w, program, env, s, f, fuel, vm, k, outer, n);
  }

  lemma {:induction false} LastsReturn(c: Stmt, w: World, program: Function, env: Env, s: T.Store, f: nat, fuel: nat, vm: Machine, k: nat,
      outer: set<string>, n: nat)
    requires c.Return? && Set(w, program, env, s, f, vm, outer) && Assigns(AssignsOf(c), s, f) && AptStmt(c, s.rules, env, k, outer)
    requires Placed(vm, CodeReturn(c, env, k)) && Bad(T.ExecReturn(c, s, f, fuel), s.rules, fuel, n)
    ensures Unfinished(n, vm)
    decreases n, c, 0
  {
    hide T.Eval, Code, Unfinished, Apt, Set, Assigns;
    StmtParts(c, s.rules, env, k, outer, s, f);
    PlacedSplit(vm.current.fn.instructions, vm.current.ip, Code(c.result, env, k), [Instruction.Return]);
    LastsExpr(c.result, w, program, env, s, f, fuel, vm, k, outer, n);
  }

  lemma {:induction false} LastsAssignField(c: Stmt, w: World, program: Function, env: Env, s: T.Store, f: nat, fuel: nat, vm: Machine, k: nat,
      outer: set<string>, n: nat)
    requires c.AssignField? && Set(w, program, env, s, f, vm, outer) && Assigns(AssignsOf(c), s, f) && AptStmt(c, s.rules, env, k, outer)
    requires Placed(vm, CodeAssignField(c, env, k)) && Bad(T.ExecAssignField(c, s, f, fuel), s.rules, fuel, n)
    ensures Unfinished(n, vm)
    decreases n, c, 0
  {
    hide Rel, ValueOk, HeapGrows, WorldGrows, Reaches, T.Eval, Code, Apt, Unfinished, Set, Step, Assigns, AptStmt, CallFree, Literals, Going, IndexOf;
    var AssignField(b, name, e) := c;
    StoreParts(c, s.rules, env, k, outer);
    var ip, st, k', x, y := vm.current.ip, vm.current.stack, k + Literals(b), Code(b, env, k), Code(e, env, k + Literals(b));
    var slot := IndexOf(env.fn.names, name);
    PlacedSplit3(vm.current.fn.instructions, ip, x, y, [FieldStore(slot)]);
    if T.Eval(b, s, f, fuel).Err? {
      LastsExpr(b, w, program, env, s, f, fuel, vm, k, outer, n);
    } else {
      var w1, v1, m1 := Next(b, w, program, env, s, f, fuel, vm, k, outer);
      var (bv, s1) := T.Eval(b, s, f, fuel).value;
      var vm1 := At(vm, ip + |x|, st + [v1], m1);
      if !bv.RecordV? {
        FieldStoreAnyway(e, w1, program, env, s1, f, vm, vm1, k', outer, n, st, bv, v1, slot);
      } else if T.Eval(e, s1, f, fuel).Err? {
        LastsExpr(e, w1, program, env, s1, f, fuel, vm1, k', outer, n);
        UnfinishedVia(n, vm, vm1);
      } else {
        var w2, v2, m2 := Next(e, w1, program, env, s1, f, fuel, vm1, k', outer);
        var (sv, s2) := T.Eval(e, s1, f, fuel).value;
        Both(w, w1, w2, program, vm, |x|, |y|, s1, bv, v1, m1, s2, sv, v2, m2);
        RecordsRead(w2, program, s2, m2, bv, v1, name);
      }
    }
  }

  lemma {:induction false} FieldStoreAnyway(e: Expr, w1: World, program: Function, env: Env, s1: T.Store, f: nat, vm: Machine, vm1: Machine,
      k: nat, outer: set<string>, n: nat, st: seq<Value>, x: T.Value, v: Value, slot: int)
    requires Reaches(vm, vm1) && Set(w1, program, env, s1, f, vm1, outer) && Apt(e, s1.rules, env, k, outer)
    requires Placed(vm1, Code(e, env, k)) && PlacedAt(vm1.current.fn.instructions, vm1.current.ip + |Code(e, env, k)|, [FieldStore(slot)])
    requires vm1.current.stack == st + [v] && ValueOk(w1, x, v, vm1.mem.heap) && !x.RecordV?
    ensures Unfinished(n, vm)
    decreases n, e, 8
  {
    hide Rel, ValueOk, HeapGrows, HeapExtends, WorldGrows, Reaches, T.Eval, Code, Apt, Unfinished, Step, CallFree;
    var done, w2, v2, m2 := AttemptAfter(e, w1, program, env, s1, f, vm, vm1, k, outer, n, x, v);
    if done {
      var vm2 := At(vm1, vm1.current.ip + |Code(e, env, k)|, vm1.current.stack + [v2], m2);
      assert st + [v] + [v2] == st + [v, v2];
      FieldStoreStuck(w2, vm2, slot, st, x, v, v2);
      StuckAfter(n, vm, vm2);
    }
  }

  lemma {:induction false} LastsAssignIndex(c: Stmt, w: World, program: Function, env: Env, s: T.Store, f: nat, fuel: nat, vm: Machine, k: nat,
      outer: set<string>, n: nat)
    requires c.AssignIndex? && Set(w, program, env, s, f, vm, outer) && Assigns(AssignsOf(c), s, f) && AptStmt(c, s.rules, env, k, outer)
    requires Placed(vm, CodeAssignIndex(c, env, k)) && Bad(T.ExecAssignIndex(c, s, f, fuel), s.rules, fuel, n)
    ensures Unfinished(n, vm)
    decreases n, c, 1
  {
    hide Rel, ValueOk, HeapGrows, WorldGrows, Reaches, T.Eval, Code, Apt, Unfinished, Set, Step, Assigns, AptStmt, CallFree, Literals, Going, T.Cast, S.NeverRecord;
    var AssignIndex(b, i, e) := c;
    StoreParts(c, s.rules, env, k, outer);
    var k1, k2 := k + Literals(b), k + Literals(b) + Literals(i);
    var ip, st, x, y, z := vm.current.ip, vm.current.stack, Code(b, env, k), Code(i, env, k1), Code(e, env, k2);
    PlacedSplit(vm.current.fn.instructions, ip, x + y + z, [IndexStore]);
    PlacedSplit3(vm.current.fn.instructions, ip, x, y, z);
    if T.Eval(b, s, f, fuel).Err? {
      LastsExpr(b, w, program, env, s, f, fuel, vm, k, outer, n);
    } else {
      var w1, v1, m1 := Next(b, w, program, env, s, f, fuel, vm, k, outer);
      var (bv, s1) := T.Eval(b, s, f, fuel).value;
      var vm1 := At(vm, ip + |x|, st + [v1], m1);
      if !bv.RecordV? {
        IndexStoreAnyway(c, w1, program, env, s1, f, vm, vm1, k1, outer, n, st, bv, v1);
      } else if T.Eval(i, s1, f, fuel).Err? {
        LastsExpr(i, w1, program, env, s1, f, fuel, vm1, k1, outer, n);
        UnfinishedVia(n, vm, vm1);
      } else {
        var w2, v2, m2 := Next(i, w1, program, env, s1, f, fuel, vm1, k1, outer);
        var (iv, s2) := T.Eval(i, s1, f, fuel).value;
        Both(w, w1, w2, program, vm, |x|, |y|, s1, bv, v1, m1, s2, iv, v2, m2);
        var vm2 := At(vm, ip + |x| + |y|, st + [v1, v2], m2);
        assert st + [v1] + [v2] == st + [v1, v2];
        if s.rules == T.AsWritten && T.Cast(iv, s2).Err? && S.NeverRecord(i) { RendersAnyway(i, s1, f, fuel); }
        LastsIndexStore(e, w2, program, env, s2, f, fuel, vm, vm2, k2, outer, n, st, bv, v1, iv, v2);
      }
    }
  }

  lemma {:induction false} RendersAnyway(i: Expr, s: T.Store, f: nat, fuel: nat)
    requires S.NeverRecord(i) && T.Eval(i, s, f, fuel).Ok?
    ensures T.Cast(T.Eval(i, s, f, fuel).value.0, T.Eval(i, s, f, fuel).value.1).Ok?
  {
    hide T.Eval, S.NeverRecord;
    S.NoRecord(i, s, f, fuel);
  }

  /** The right-hand side and the store, with the record and the index on the stack. */
  lemma {:induction false} LastsIndexStore(e: Expr, w2: World, program: Function, env: Env, s2: T.Store, f: nat, fuel: nat, vm: Machine,
      vm2: Machine, k: nat, outer: set<string>, n: nat, st: seq<Value>, bv: T.Value, v1: Value, iv: T.Value, v2: Value)
    requires Reaches(vm, vm2) && Set(w2, program, env, s2, f, vm2, outer) && Apt(e, s2.rules, env, k, outer)
    requires Placed(vm2, Code(e, env, k)) && PlacedAt(vm2.current.fn.instructions, vm2.current.ip + |Code(e, env, k)|, [IndexStore])
    requires vm2.current.stack == st + [v1, v2] && bv.RecordV?
    requires ValueOk(w2, bv, v1, vm2.mem.heap) && ValueOk(w2, iv, v2, vm2.mem.heap)
    requires s2.rules == T.AsWritten && T.Cast(iv, s2).Err? ==> CallFree(e)
    requires (s2.rules == T.AsWritten && T.Cast(iv, s2).Err?) || Bad(T.Eval(e, s2, f, fuel), s2.rules, fuel, n) || (
      T.Eval(e, s2, f, fuel).Ok? &&
      var s3 := T.Eval(e, s2, f, fuel).value.1;
      (s2.rules == T.AsCompiled && T.Cast(iv, s3).Err?) || bv.id >= |s3.records|)
    ensures Unfinished(n, vm)
    decreases n, e, 9
  {
    hide Rel, ValueOk, HeapGrows, HeapExtends, WorldGrows, Reaches, T.Eval, Code, Apt, Unfinished, Step, CallFree, T.Cast, Set;
    var n3 := vm2.current.ip + |Code(e, env, k)|;
    if s2.rules == T.AsWritten && T.Cast(iv, s2).Err? {
      var done, w3, v3, m3 := AttemptAfter(e, w2, program, env, s2, f, vm, vm2, k, outer, n, iv, v2);
      if done {
        var vm3 := At(vm2, n3, vm2.current.stack + [v3], m3);
        assert st + [v1, v2] + [v3] == st + [v1, v2, v3];
        CallFreeOnlyAdds(e, Lenient(s2), f, n);
        Unchanged(w2, w3, program, env, s2, T.Eval(e, Lenient(s2), f, n).value.1, f, vm2, vm3, outer, bv, v1, iv, v2);
        IndexStoreStuck(w2, program, s2, vm3, st, bv, v1, iv, v2, v3);
        StuckAfter(n, vm, vm3);
      }
    } else if T.Eval(e, s2, f, fuel).Err? {
      LastsExpr(e, w2, program, env, s2, f, fuel, vm2, k, outer, n);
      UnfinishedVia(n, vm, vm2);
    } else {
      var w3, v3, m3 := Next(e, w2, program, env, s2, f, fuel, vm2, k, outer);
      var (sv, s3) := T.Eval(e, s2, f, fuel).value;
      var vm3 := At(vm2, n3, vm2.current.stack + [v3], m3);
      assert st + [v1, v2] + [v3] == st + [v1, v2, v3];
      ValueStable(w2, w3, bv, v1, vm2.mem.heap, m3.heap);
      ValueStable(w2, w3, iv, v2, vm2.mem.heap, m3.heap);
      RelOf(w3, program, env, s3, f, vm3, outer);
      RecordsRead(w3, program, s3, m3, bv, v1, "");
      IndexStoreStuck(w3, program, s3, vm3, st, bv, v1, iv, v2, v3);
      ReachesTransitive(vm, vm2, vm3);
      StuckAfter(n, vm, vm3);
    }
  }

  lemma {:induction false} RelOf(w: World, program: Function, env: Env, s: T.Store, f: nat, vm: Machine, outer: set<string>)
    requires Set(w, program, env, s, f, vm, outer)
    ensures Rel(w, program, s, vm.mem) && vm.names == program.names && vm.global == 0
  {
    hide Rel;
  }

  /** After code that only allocated the old state is still the one the machine is in. */
  lemma {:induction false} Unchanged(w: World, w': World, program: Function, env: Env, s: T.Store, s': T.Store, f: nat, vm: Machine, vm': Machine,
      outer: set<string>, a: T.Value, v: Value, b: T.Value, u: Value)
    requires Set(w, program, env, s, f, vm, outer) && Set(w', program, env, s', f, vm', outer)
    requires HeapExtends(vm.mem.heap, vm'.mem.heap) && s'.out == s.out && vm' == At(vm, vm'.current.ip, vm'.current.stack, vm'.mem)
    requires ValueOk(w, a, v, vm.mem.heap) && ValueOk(w, b, u, vm.mem.heap)
    ensures Set(w, program, env, s, f, vm', outer) && Rel(w, program, s, vm'.mem)
    ensures ValueOk(w, a, v, vm'.mem.heap) && ValueOk(w, b, u, vm'.mem.heap)
  {
    hide Rel, ValueOk, HeapExtends, HeapGrows, WorldGrows, Going;
    OutOfRel(w', program, s', vm'.mem);
    StoreExtendsSelf(s);
    RelExtends(w, program, s, s, vm.mem, vm'.mem);
    WorldGrowsReflexive(w);
    ValueStable(w, w, a, v, vm.mem.heap, vm'.mem.heap);
    ValueStable(w, w, b, u, vm.mem.heap, vm'.mem.heap);
  }

  lemma {:induction false} IndexStoreAnyway(c: Stmt, w1: World, program: Function, env: Env, s1: T.Store, f: nat, vm: Machine,
      vm1: Machine, k: nat, outer: set<string>, n: nat, st: seq<Value>, x: T.Value, v: Value)
    requires c.AssignIndex? && Reaches(vm, vm1) && Set(w1, program, env, s1, f, vm1, outer)
    requires Apt(c.index, s1.rules, env, k, outer) && Apt(c.rhs, s1.rules, env, k + Literals(c.index), outer)
    requires var ip, y, z := vm1.current.ip, Code(c.index, env, k), Code(c.rhs, env, k + Literals(c.index));
      && Placed(vm1, y) && PlacedAt(vm1.current.fn.instructions, ip + |y|, z)
      && PlacedAt(vm1.current.fn.instructions, ip + |y| + |z|, [IndexStore])
    requires vm1.current.stack == st + [v] && ValueOk(w1, x, v, vm1.mem.heap) && !x.RecordV?
    ensures Unfinished(n, vm)
    decreases n, c, 0
  {
    hide Rel, ValueOk, HeapGrows, HeapExtends, WorldGrows, Reaches, T.Eval, Code, Apt, Unfinished, Step, CallFree, Set, Literals, T.Cast;
    var i, e := c.index, c.rhs;
    var k' := k + Literals(i);
    var y, z := Code(i, env, k), Code(e, env, k');
    var done, w2, v2, m2 := AttemptAfter(i, w1, program, env, s1, f, vm, vm1, k, outer, n, x, v);
    if done {
      var vm2 := At(vm1, vm1.current.ip + |y|, vm1.current.stack + [v2], m2);
      var (iv, s2) := T.Eval(i, Lenient(s1), f, n).value;
      AptRelents(e, s1.rules, env, k', outer);
      var done', w3, v3, m3 := AttemptAfter(e, w2, program, env, s2, f, vm, vm2, k', outer, n, x, v);
      if done' {
        var s3 := T.Eval(e, Lenient(s2), f, n).value.1;
        var vm3 := At(vm2, vm1.current.ip + |y| + |z|, vm2.current.stack + [v3], m3);
        assert st + [v] + [v2] + [v3] == st + [v, v2, v3];
        ValueRelents(w2, iv, v2, m2.heap);
        ValueStable(LenientWorld(w2), w3, iv, v2, m2.heap, m3.heap);
        RelOf(w3, program, env, s3, f, vm3, outer);
        IndexStoreStuck(w3, program, s3, vm3, st, x, v, iv, v2, v3);
        StuckAfter(n, vm, vm3);
      }
    }
  }

  // ---------------------------------------------------------------- branches and loops

  /** A condition that holds and its branch instruction, or two of them. */
  lemma {:induction false} LastsIf(c: Stmt, w: World, program: Function, env: Env, s: T.Store, f: nat, fuel: nat, vm: Machine, k: nat,
      outer: set<string>, n: nat)
    requires c.If? && Set(w, program, env, s, f, vm, outer) && Assigns(AssignsOf(c), s, f) && AptStmt(c, s.rules, env, k, outer)
    requires Placed(vm, CodeIf(c, env, k)) && Bad(T.ExecIf(c, s, f, fuel), s.rules, fuel, n)
    ensures Unfinished(n, vm)
    decreases n, c, 0
  {
    hide Rel, ValueOk, HeapGrows, WorldGrows, Reaches, T.Eval, T.ExecBlock, Code, CodeBlock, Apt, AptBlock, Unfinished, Set, Step, AptStmt,
      CallFree, Literals, LiteralsBlock, Assigns;
    var If(cond, thn) := c;
    StmtParts(c, s.rules, env, k, outer, s, f);
    var k1, a, b := k + Literals(cond), Code(cond, env, k), CodeBlock(thn, env, k + Literals(cond));
    var ip, st := vm.current.ip, vm.current.stack;
    PlacedSplit3(vm.current.fn.instructions, ip, a, [Not, Instruction.If(|b| + 1)], b);
    if T.Eval(cond, s, f, fuel).Err? {
      LastsExpr(cond, w, program, env, s, f, fuel, vm, k, outer, n);
    } else {
      var w1, v1, m1 := Next(cond, w, program, env, s, f, fuel, vm, k, outer);
      var (cv, s1) := T.Eval(cond, s, f, fuel).value;
      if !cv.BoolV? {
        GuardStuck(w1, vm, At(vm, ip + |a|, st + [v1], m1), |b| + 1, st, cv, v1, n);
      } else {
        Guard(w, w1, program, vm, |a|, |b| + 1, s1, cv.flag, v1, m1);
        var vm1 := At(vm, ip + |a| + 2, st, m1);
        SetAt(w1, program, env, s1, f, At(vm, ip + |a|, st + [v1], m1), vm1, outer);
        AssignsAfter(thn, cond, w, program, env, s, f, fuel, vm, outer);
        LastsBlock(thn, w1, program, env, s1, f, fuel, vm1, k1, outer, n);
        UnfinishedVia(n, vm, vm1);
      }
    }
  }

  lemma {:induction false} SetAt(w: World, program: Function, env: Env, s: T.Store, f: nat, vm: Machine, vm': Machine, outer: set<string>)
    requires Set(w, program, env, s, f, vm, outer) && vm' == At(vm, vm'.current.ip, vm'.current.stack, vm.mem)
    ensures Set(w, program, env, s, f, vm', outer)
  {
    hide Rel;
  }

  lemma {:induction false} AssignsAfter(cs: seq<Stmt>, cond: Expr, w: World, program: Function, env: Env, s: T.Store, f: nat, fuel: nat,
      vm: Machine, outer: set<string>)
    requires Set(w, program, env, s, f, vm, outer) && Assigns(AssignsOfBlock(cs), s, f) && T.Eval(cond, s, f, fuel).Ok?
    requires s.rules == T.AsWritten ==> S.ValueGoes(s, T.Eval(cond, s, f, fuel).value.0, T.Eval(cond, s, f, fuel).value.1)
    ensures Assigns(AssignsOfBlock(cs), T.Eval(cond, s, f, fuel).value.1, f)
  {
    hide T.Eval, S.SameShape, Assigns, S.ValueTidy, S.Outer, Ready;
    AssignsOn(AssignsOfBlock(cs), s, T.Eval(cond, s, f, fuel).value.1, f);
  }

  lemma {:induction false} GuardStuck(w: World, vm: Machine, vm1: Machine, offset: int, st: seq<Value>, x: T.Value, v: Value, n: nat)
    requires Reaches(vm, vm1) && Placed(vm1, [Not, Instruction.If(offset)]) && vm1.current.stack == st + [v]
    requires ValueOk(w, x, v, vm1.mem.heap) && !x.BoolV?
    ensures Unfinished(n, vm)
  {
    hide Reaches, Unfinished, ValueOk, Step;
    assert [Not, Instruction.If(offset)] == [Not] + [Instruction.If(offset)];
    PlacedSplit(vm1.current.fn.instructions, vm1.current.ip, [Not], [Instruction.If(offset)]);
    UnaryStuck(w, vm1, NEG, st, x, v);
    StuckAfter(n, vm, vm1);
  }

  /** The branch the condition selects is entered. */
  lemma {:induction false} IntoBranch(w: World, w1: World, program: Function, env: Env, vm: Machine, len: nat, offset: int, s1: T.Store, f: nat,
      flag: bool, v: Value, m: Memory, outer: set<string>)
    requires Computes(w, w1, program, vm, len, s1, T.BoolV(flag), v, m)
    requires PlacedAt(vm.current.fn.instructions, vm.current.ip + len, [Instruction.If(offset)])
    requires Set(w1, program, env, s1, f, At(vm, vm.current.ip + len, vm.current.stack + [v], m), outer)
    ensures var vm1 := At(vm, vm.current.ip + len + (if flag then offset else 1), vm.current.stack, m);
      Reaches(vm, vm1) && Set(w1, program, env, s1, f, vm1, outer)
  {
    hide Rel, ValueOk, HeapGrows, WorldGrows, Reaches, Set;
    var vm1 := At(vm, vm.current.ip + len + (if flag then offset else 1), vm.current.stack, m);
    Choice(w, w1, program, vm, len, offset, s1, flag, v, m);
    SetAt(w1, program, env, s1, f, At(vm, vm.current.ip + len, vm.current.stack + [v], m), vm1, outer);
  }

  /** The body of a loop is entered. */
  lemma {:induction false} IntoBody(w: World, w1: World, program: Function, env: Env, vm: Machine, len: nat, offset: int, s1: T.Store, f: nat,
      v: Value, m: Memory, outer: set<string>)
    requires Computes(w, w1, program, vm, len, s1, T.BoolV(true), v, m)
    requires PlacedAt(vm.current.fn.instructions, vm.current.ip + len, [Not, Instruction.If(offset)])
    requires Set(w1, program, env, s1, f, At(vm, vm.current.ip + len, vm.current.stack + [v], m), outer)
    ensures var vm1 := At(vm, vm.current.ip + len + 2, vm.current.stack, m);
      Reaches(vm, vm1) && Set(w1, program, env, s1, f, vm1, outer)
  {
    hide Rel, ValueOk, HeapGrows, WorldGrows, Reaches, Set;
    Guard(w, w1, program, vm, len, offset, s1, true, v, m);
    SetAt(w1, program, env, s1, f, At(vm, vm.current.ip + len, vm.current.stack + [v], m), At(vm, vm.current.ip + len + 2, vm.current.stack, m), outer);
  }

  lemma {:induction false} LastsIfElse(c: Stmt, w: World, program: Function, env: Env, s: T.Store, f: nat, fuel: nat, vm: Machine, k: nat,
      outer: set<string>, n: nat)
    requires c.IfElse? && Set(w, program, env, s, f, vm, outer) && Assigns(AssignsOf(c), s, f) && AptStmt(c, s.rules, env, k, outer)
    requires Placed(vm, CodeIfElse(c, env, k)) && Bad(T.ExecIfElse(c, s, f, fuel), s.rules, fuel, n)
    ensures Unfinished(n, vm)
    decreases n, c, 0
  {
    hide Rel, ValueOk, HeapGrows, WorldGrows, Reaches, T.Eval, T.ExecBlock, Code, CodeBlock, Apt, AptBlock, Unfinished, Set, Step, AptStmt,
      CallFree, Literals, LiteralsBlock, Assigns, PlacedAt;
    var IfElse(cond, thn, els) := c;
    StmtParts(c, s.rules, env, k, outer, s, f);
    var k1, k2 := k + Literals(cond), k + Literals(cond) + LiteralsBlock(thn);
    var a, b, d := Code(cond, env, k), CodeBlock(thn, env, k1), CodeBlock(els, env, k2);
    var ip, st := vm.current.ip, vm.current.stack;
    IfElsePlaced(vm.current.fn.instructions, ip, a, d, b);
    if T.Eval(cond, s, f, fuel).Err? {
      LastsExpr(cond, w, program, env, s, f, fuel, vm, k, outer, n);
    } else {
      var w1, v1, m1 := Next(cond, w, program, env, s, f, fuel, vm, k, outer);
      var (cv, s1) := T.Eval(cond, s, f, fuel).value;
      var vm0 := At(vm, ip + |a|, st + [v1], m1);
      if !cv.BoolV? {
        BranchStuck(w1, vm0, |d| + 2, st, cv, v1);
        StuckAfter(n, vm, vm0);
      } else {
        var vm1 := At(vm, ip + |a| + (if cv.flag then |d| + 2 else 1), st, m1);
        IntoBranch(w, w1, program, env, vm, |a|, |d| + 2, s1, f, cv.flag, v1, m1, outer);
        if cv.flag {
          AssignsAfter(thn, cond, w, program, env, s, f, fuel, vm, outer);
          LastsBlock(thn, w1, program, env, s1, f, fuel, vm1, k1, outer, n);
        } else {
          AssignsAfter(els, cond, w, program, env, s, f, fuel, vm, outer);
          LastsBlock(els, w1, program, env, s1, f, fuel, vm1, k2, outer, n);
        }
        UnfinishedVia(n, vm, vm1);
      }
    }
  }

  /** Each round of a loop takes the jump back at least. */
  lemma {:induction false} LastsWhile(c: Stmt, w: World, program: Function, env: Env, s: T.Store, f: nat, fuel: nat, vm: Machine, k: nat,
      outer: set<string>, n: nat)
    requires c.While? && Set(w, program, env, s, f, vm, outer) && Assigns(AssignsOf(c), s, f) && AptStmt(c, s.rules, env, k, outer)
    requires Placed(vm, CodeWhile(c, env, k)) && Bad(T.ExecWhile(c, s, f, fuel), s.rules, fuel, n)
    ensures Unfinished(n, vm)
    decreases n, c, 0
  {
    hide Rel, ValueOk, HeapGrows, WorldGrows, Reaches, T.Eval, T.ExecBlock, Code, CodeBlock, Apt, AptBlock, Unfinished, Set, Step, AptStmt,
      CallFree, Literals, LiteralsBlock, Assigns, T.Exec;
    var While(cond, body) := c;
    StmtParts(c, s.rules, env, k, outer, s, f);
    var k1, a, b := k + Literals(cond), Code(cond, env, k), CodeBlock(body, env, k + Literals(cond));
    var ip, st, back := vm.current.ip, vm.current.stack, -(|a| + 2 + |b|);
    PlacedSplit(vm.current.fn.instructions, ip, a + [Not, Instruction.If(|b| + 2)] + b, [Goto(back)]);
    PlacedSplit3(vm.current.fn.instructions, ip, a, [Not, Instruction.If(|b| + 2)], b);
    if T.Eval(cond, s, f, fuel).Err? {
      LastsExpr(cond, w, program, env, s, f, fuel, vm, k, outer, n);
    } else {
      var w1, v1, m1 := Next(cond, w, program, env, s, f, fuel, vm, k, outer);
      var (cv, s1) := T.Eval(cond, s, f, fuel).value;
      if !cv.BoolV? {
        GuardStuck(w1, vm, At(vm, ip + |a|, st + [v1], m1), |b| + 2, st, cv, v1, n);
      } else {
        var vm1 := At(vm, ip + |a| + 2, st, m1);
        IntoBody(w, w1, program, env, vm, |a|, |b| + 2, s1, f, v1, m1, outer);
        AssignsAfter(body, cond, w, program, env, s, f, fuel, vm, outer);
        if T.ExecBlock(body, s1, f, fuel).Err? {
          LastsBlock(body, w1, program, env, s1, f, fuel, vm1, k1, outer, n);
          UnfinishedVia(n, vm, vm1);
        } else if n > 0 {
          assert AssignsOf(c) == AssignsOfBlock(body);
          NextRound(c, w1, program, env, s1, f, fuel, vm, vm1, k, outer, n);
        } else {
          NotYet(vm);
        }
      }
    }
  }

  /** ... after the body has run. */
  lemma {:induction false} NextRound(c: Stmt, w1: World, program: Function, env: Env, s1: T.Store, f: nat, fuel: nat, vm: Machine, vm1: Machine,
      k: nat, outer: set<string>, n: nat)
    requires c.While? && n > 0 && Reaches(vm, vm1) && Set(w1, program, env, s1, f, vm1, outer)
    requires Assigns(AssignsOf(c), s1, f) && Assigns(AssignsOfBlock(c.body), s1, f)
    requires AptStmt(c, s1.rules, env, k, outer) && AptBlock(c.body, s1.rules, env, k + Literals(c.cond), outer)
    requires Placed(vm, CodeWhile(c, env, k)) && Placed(vm1, CodeBlock(c.body, env, k + Literals(c.cond)))
    requires vm1 == At(vm, vm1.current.ip, vm.current.stack, vm1.mem)
    requires var a, b := Code(c.cond, env, k), CodeBlock(c.body, env, k + Literals(c.cond));
      && vm1.current.ip == vm.current.ip + |a| + 2
      && PlacedAt(vm1.current.fn.instructions, vm1.current.ip + |b|, [Goto(-(|a| + 2 + |b|))])
    requires var r := T.ExecBlock(c.body, s1, f, fuel);
      r.Ok? && r.value.0.Normal? && (fuel == 0 ==> n == 0) && (fuel > 0 ==> Bad(T.Exec(c, r.value.1, f, fuel - 1), s1.rules, fuel, n))
    ensures Unfinished(n, vm)
    decreases n, c.body, 5
  {
    hide Rel, HeapGrows, Reaches, T.Exec, T.ExecBlock, Code, CodeBlock, AptStmt, AptBlock, Unfinished, Set, Step, Assigns, Literals, S.SameShape;
    var a, b := Code(c.cond, env, k), CodeBlock(c.body, env, k + Literals(c.cond));
    var w2, m2 := NextBlock(c.body, w1, program, env, s1, f, fuel, vm1, k + Literals(c.cond), outer);
    var s2 := T.ExecBlock(c.body, s1, f, fuel).value.1;
    AssignsOn(AssignsOf(c), s1, s2, f);
    var vm2, vm3 := At(vm1, vm1.current.ip + |b|, vm.current.stack, m2), At(vm, vm.current.ip, vm.current.stack, m2);
    SetAt(w2, program, env, s2, f, vm2, vm3, outer);
    Jump(vm2, -(|a| + 2 + |b|));
    LastsStmt(c, w2, program, env, s2, f, fuel - 1, vm3, k, outer, n - 1);
    ReachesTransitive(vm, vm1, vm2);
    UnfinishedAfter(n, vm, vm2, vm3);
  }

  // ---------------------------------------------------------------- operands in exchanged order

  lemma {:induction false} LastsExchanged(e: Expr, w: World, program: Function, env: Env, s: T.Store, f: nat, fuel: nat, vm: Machine, k: nat,
      outer: set<string>, n: nat)
    requires e.Binary? && Exchanged(e.op) && Set(w, program, env, s, f, vm, outer) && Apt(e, s.rules, env, k, outer)
    requires Placed(vm, CodeBinary(e, env, k)) && Bad(T.EvalBinary(e, s, f, fuel), s.rules, fuel, n)
    ensures Unfinished(n, vm)
    decreases n, e, 4
  {
    hide T.Eval, T.BinaryOp, Apt, Unfinished, Set, CodeBinary, OperandsPlaced, Placed, Fixed, CallFree;
    var Binary(l, _, r) := e;
    OperandsArePlaced(e, env, k, vm);
    if s.rules == T.AsCompiled {
      LastsRightFirst(e, w, program, env, s, f, fuel, vm, k, outer, n);
    } else {
      OperandsCommute(e, env, k, outer);
      if T.Eval(l, s, f, fuel).Err? {
        LeftRaises(e, w, program, env, s, f, fuel, vm, k, outer, n);
      } else if T.Eval(r, T.Eval(l, s, f, fuel).value.1, f, fuel).Err? {
        RightRaises(e, w, program, env, s, f, fuel, vm, k, outer, n);
      } else {
        ComparisonRaises(e, w, program, env, s, f, fuel, vm, k, outer, n);
      }
    }
  }

  lemma {:induction false} OperandsCommute(e: Expr, env: Env, k: nat, outer: set<string>)
    requires e.Binary? && Exchanged(e.op) && Apt(e, T.AsWritten, env, k, outer)
    ensures Fixed(e.left) || Fixed(e.right) || (CallFree(e.left) && CallFree(e.right))
    ensures Fixed(e.right) ==> CallFree(e.right)
    ensures Fixed(e.left) ==> CallFree(e.left)
  {
    hide Ok, S.Fresh, S.Indexed;
    if Fixed(e.left) { FixedIsCallFree(e.left); }
    if Fixed(e.right) { FixedIsCallFree(e.right); }
  }

  lemma {:induction false} FixedIsCallFree(e: Expr)
    requires Fixed(e)
    ensures CallFree(e)
    decreases e
  {
    match e
    case Binary(l, _, r) => FixedIsCallFree(l); FixedIsCallFree(r);
    case Unary(_, x) => FixedIsCallFree(x);
    case _ =>
  }

  /** The code of both operands, the right one's first, and the operator. */
  ghost predicate OperandsPlaced(e: Expr, env: Env, k: nat, vm: Machine)
    requires e.Binary?
  {
    var a, b := Code(e.left, env, k), Code(e.right, env, k + Literals(e.left));
    && Placed(vm, b) && PlacedAt(vm.current.fn.instructions, vm.current.ip + |b|, a)
    && PlacedAt(vm.current.fn.instructions, vm.current.ip + |b| + |a|, [OperatorInstruction(e.op)])
  }

  lemma {:induction false} OperandsArePlaced(e: Expr, env: Env, k: nat, vm: Machine)
    requires e.Binary? && Exchanged(e.op) && Placed(vm, CodeBinary(e, env, k))
    ensures OperandsPlaced(e, env, k, vm)
  {
    hide Code, PlacedAt;
    var Binary(l, op, r) := e;
    PlacedSplit3(vm.current.fn.instructions, vm.current.ip, Code(r, env, k + Literals(l)), Code(l, env, k), [OperatorInstruction(op)]);
  }

  lemma {:induction false} LastsRightFirst(e: Expr, w: World, program: Function, env: Env, s: T.Store, f: nat, fuel: nat, vm: Machine, k: nat,
      outer: set<string>, n: nat)
    requires e.Binary? && Exchanged(e.op) && s.rules == T.AsCompiled && Set(w, program, env, s, f, vm, outer)
    requires Apt(e, s.rules, env, k, outer) && OperandsPlaced(e, env, k, vm) && Bad(T.EvalBinary(e, s, f, fuel), s.rules, fuel, n)
    ensures Unfinished(n, vm)
    decreases n, e, 0
  {
    hide Rel, ValueOk, HeapGrows, WorldGrows, Reaches, T.Eval, T.BinaryOp, Code, Apt, Unfinished, Set, Step, CallFree, Literals;
    var Binary(l, op, r) := e;
    Parts(e, s.rules, env, k, outer);
    var k' := k + Literals(l);
    if T.Eval(r, s, f, fuel).Err? {
      LastsExpr(r, w, program, env, s, f, fuel, vm, k', outer, n);
    } else {
      var w1, v1, m1 := Next(r, w, program, env, s, f, fuel, vm, k', outer);
      var s1 := T.Eval(r, s, f, fuel).value.1;
      var vm1 := At(vm, vm.current.ip + |Code(r, env, k')|, vm.current.stack + [v1], m1);
      if T.Eval(l, s1, f, fuel).Err? {
        LastsExpr(l, w1, program, env, s1, f, fuel, vm1, k, outer, n);
        UnfinishedVia(n, vm, vm1);
      } else {
        RightFirstStuck(e, w, program, env, s, f, fuel, vm, k, outer, n);
      }
    }
  }

  /** Where a fixed expression has no value it has none anywhere. */
  lemma {:induction false} FixedRaises(e: Expr, s: T.Store, f: nat, fuel: nat, s': T.Store)
    requires Fixed(e) && T.Eval(e, s, f, fuel).Err?
    ensures T.Eval(e, s', f, fuel) == T.Err(T.Raised)
  {
    hide T.Eval, Fixed;
    if T.Eval(e, s', f, fuel).Ok? {
      FixedAnywhere(e, s', f, fuel, s);
    } else {
      FixedError(e, s', f, fuel);
    }
  }

  lemma {:induction false} FixedError(e: Expr, s: T.Store, f: nat, fuel: nat)
    requires Fixed(e) && T.Eval(e, s, f, fuel).Err?
    ensures T.Eval(e, s, f, fuel).error == T.Raised
    decreases e
  {
    hide T.BinaryOp;
    match e
    case Binary(l, op, r) =>
      if T.Eval(l, s, f, fuel).Err? { FixedError(l, s, f, fuel); } else { FixedAnywhere(l, s, f, fuel, s); }
      if T.Eval(r, s, f, fuel).Err? { FixedError(r, s, f, fuel); } else { FixedAnywhere(r, s, f, fuel, s); }
      if T.Eval(l, s, f, fuel).Ok? && T.Eval(r, s, f, fuel).Ok? {
        OperatorError(op, T.Eval(l, s, f, fuel).value.0, T.Eval(r, s, f, fuel).value.0, s);
      }
    case Unary(op, x) => if T.Eval(x, s, f, fuel).Err? { FixedError(x, s, f, fuel); }
    case _ =>
  }

  lemma {:induction false} OperatorError(op: Operator, l: T.Value, r: T.Value, s: T.Store)
    ensures T.BinaryOp(op, l, r, s).Err? ==> T.BinaryOp(op, l, r, s).error == T.Raised
  {
    hide T.StringCast;
  }

  /** The left operand raises; the machine comes to it after the right one. */
  lemma {:induction false} LeftRaises(e: Expr, w: World, program: Function, env: Env, s: T.Store, f: nat, fuel: nat, vm: Machine, k: nat,
      outer: set<string>, n: nat)
    requires e.Binary? && Exchanged(e.op) && s.rules == T.AsWritten && Set(w, program, env, s, f, vm, outer)
    requires Apt(e, s.rules, env, k, outer) && OperandsPlaced(e, env, k, vm) && (Fixed(e.left) || CallFree(e.right))
    requires Bad(T.Eval(e.left, s, f, fuel), s.rules, fuel, n)
    ensures Unfinished(n, vm)
    decreases n, e, 0
  {
    hide Rel, ValueOk, HeapGrows, HeapExtends, WorldGrows, Reaches, T.Eval, Code, Apt, Unfinished, Set, CallFree, Literals, Fixed;
    var Binary(l, op, r) := e;
    Parts(e, s.rules, env, k, outer);
    ReachesSelf(vm);
    NoneOk(w, vm.mem.heap);
    var done, w1, v1, m1 := AttemptAfter(r, w, program, env, s, f, vm, vm, k + Literals(l), outer, n, T.NoneV, NONE);
    if done {
      var s1 := T.Eval(r, Lenient(s), f, n).value.1;
      var vm1 := At(vm, vm.current.ip + |Code(r, env, k + Literals(l))|, vm.current.stack + [v1], m1);
      if CallFree(r) {
        CallFreeOnlyAdds(r, Lenient(s), f, n);
        Unchanged(w, w1, program, env, s, s1, f, vm, vm1, outer, T.NoneV, NONE, T.NoneV, NONE);
        LastsExpr(l, w, program, env, s, f, fuel, vm1, k, outer, n);
      } else {
        FixedRaises(l, s, f, fuel, s1);
        AptRelents(l, s.rules, env, k, outer);
        LastsExpr(l, w1, program, env, s1, f, fuel, vm1, k, outer, n);
      }
      UnfinishedVia(n, vm, vm1);
    }
  }

  /** A call-free operand already evaluated only left garbage behind. */
  lemma {:induction false} Skipped(e: Expr, w: World, program: Function, env: Env, s: T.Store, f: nat, fuel: nat, vm: Machine, outer: set<string>)
    requires CallFree(e) && Set(w, program, env, s, f, vm, outer) && T.Eval(e, s, f, fuel).Ok?
    requires s.rules == T.AsWritten ==> S.Fresh(e, outer) && S.Indexed(e)
    ensures var s1 := T.Eval(e, s, f, fuel).value.1;
      Set(w, program, env, s1, f, vm, outer) && s1.rules == s.rules && s1.out == s.out
  {
    hide Rel, T.Eval, HeapExtends, S.Fresh, S.Indexed, Going, CallFree;
    var s1 := T.Eval(e, s, f, fuel).value.1;
    CallFreeOnlyAdds(e, s, f, fuel);
    Steady(e, s, f, fuel, outer);
    OutOfRel(w, program, s, vm.mem);
    HeapExtendsReflexive(vm.mem.heap);
    RelExtends(w, program, s, s1, vm.mem, vm.mem);
  }

  /** The right operand raises; the machine comes to it first. */
  lemma {:induction false} RightRaises(e: Expr, w: World, program: Function, env: Env, s: T.Store, f: nat, fuel: nat, vm: Machine, k: nat,
      outer: set<string>, n: nat)
    requires e.Binary? && Exchanged(e.op) && s.rules == T.AsWritten && Set(w, program, env, s, f, vm, outer)
    requires Apt(e, s.rules, env, k, outer) && OperandsPlaced(e, env, k, vm) && (CallFree(e.left) || Fixed(e.right))
    requires T.Eval(e.left, s, f, fuel).Ok? && Bad(T.Eval(e.right, T.Eval(e.left, s, f, fuel).value.1, f, fuel), s.rules, fuel, n)
    ensures Unfinished(n, vm)
    decreases n, e, 0
  {
    hide Ready, T.Eval, Code, Unfinished, CallFree, Literals, Fixed, Going, Ok, WellFormed, S.Fresh, S.Indexed, Set;
    var Binary(l, op, r) := e;
    Parts(e, s.rules, env, k, outer);
    var s1 := T.Eval(l, s, f, fuel).value.1;
    if CallFree(l) {
      Skipped(l, w, program, env, s, f, fuel, vm, outer);
      LastsExpr(r, w, program, env, s1, f, fuel, vm, k + Literals(l), outer, n);
    } else {
      FixedRaises(r, s1, f, fuel, s);
      LastsExpr(r, w, program, env, s, f, fuel, vm, k + Literals(l), outer, n);
    }
  }

  /** Both operands have values, but not two integers. */
  lemma {:induction false} ComparisonRaises(e: Expr, w: World, program: Function, env: Env, s: T.Store, f: nat, fuel: nat, vm: Machine, k: nat,
      outer: set<string>, n: nat)
    requires e.Binary? && Exchanged(e.op) && s.rules == T.AsWritten && Set(w, program, env, s, f, vm, outer)
    requires Apt(e, s.rules, env, k, outer) && OperandsPlaced(e, env, k, vm)
    requires Fixed(e.left) || Fixed(e.right) || (CallFree(e.left) && CallFree(e.right))
    requires T.Eval(e.left, s, f, fuel).Ok?
    requires var (lv, s1) := T.Eval(e.left, s, f, fuel).value;
      var o := T.Eval(e.right, s1, f, fuel);
      o.Ok? && T.BinaryOp(e.op, lv, o.value.0, o.value.1).Err?
    ensures Unfinished(n, vm)
  {
    hide Ready, T.Eval, T.BinaryOp, Code, Unfinished, CallFree, Literals, Fixed, Set, Apt, OperandsPlaced;
    if Fixed(e.left) || Fixed(e.right) {
      FixedCommutes(e.left, e.right, s, f, fuel);
      RightFirstStuck(e, w, program, env, s, f, fuel, vm, k, outer, n);
    } else {
      CallFreeStuck(e, w, program, env, s, f, fuel, vm, k, outer, n);
    }
  }

  lemma {:induction false} RightFirstStuck(e: Expr, w: World, program: Function, env: Env, s: T.Store, f: nat, fuel: nat, vm: Machine, k: nat,
      outer: set<string>, n: nat)
    requires e.Binary? && Exchanged(e.op) && Set(w, program, env, s, f, vm, outer)
    requires Apt(e, s.rules, env, k, outer) && OperandsPlaced(e, env, k, vm)
    requires T.Eval(e.right, s, f, fuel).Ok?
    requires var (rv, s1) := T.Eval(e.right, s, f, fuel).value;
      var o := T.Eval(e.left, s1, f, fuel);
      o.Ok? && T.BinaryOp(e.op, o.value.0, rv, o.value.1).Err?
    ensures Unfinished(n, vm)
  {
    hide Rel, ValueOk, HeapGrows, WorldGrows, Reaches, T.Eval, T.BinaryOp, Code, Apt, Unfinished, Set, Step, CallFree, Literals;
    var Binary(l, op, r) := e;
    Parts(e, s.rules, env, k, outer);
    var ip, st, a, b := vm.current.ip, vm.current.stack, Code(l, env, k), Code(r, env, k + Literals(l));
    var w1, v1, m1 := Next(r, w, program, env, s, f, fuel, vm, k + Literals(l), outer);
    var (rv, s1) := T.Eval(r, s, f, fuel).value;
    var vm1 := At(vm, ip + |b|, st + [v1], m1);
    var w2, v2, m2 := Next(l, w1, program, env, s1, f, fuel, vm1, k, outer);
    var (lv, s2) := T.Eval(l, s1, f, fuel).value;
    Both(w, w1, w2, program, vm, |b|, |a|, s1, rv, v1, m1, s2, lv, v2, m2);
    var vm2 := At(vm, ip + |b| + |a|, st + [v1, v2], m2);
    BinaryStuck(w2, program, s2, vm2, op, st, lv, rv, v2, v1);
    StuckAfter(n, vm, vm2);
  }

  lemma {:induction false} CallFreeStuck(e: Expr, w: World, program: Function, env: Env, s: T.Store, f: nat, fuel: nat, vm: Machine, k: nat,
      outer: set<string>, n: nat)
    requires e.Binary? && Exchanged(e.op) && s.rules == T.AsWritten && Set(w, program, env, s, f, vm, outer)
    requires Apt(e, s.rules, env, k, outer) && OperandsPlaced(e, env, k, vm) && CallFree(e.left) && CallFree(e.right)
    requires T.Eval(e.left, s, f, fuel).Ok?
    requires var (lv, s1) := T.Eval(e.left, s, f, fuel).value;
      var o := T.Eval(e.right, s1, f, fuel);
      o.Ok? && T.BinaryOp(e.op, lv, o.value.0, o.value.1).Err?
    ensures Unfinished(n, vm)
  {
    hide Rel, ValueOk, HeapGrows, HeapExtends, WorldGrows, Reaches, T.Eval, T.BinaryOp, Code, Unfinished, Set, Step, CallFree, Literals, Ok,
      WellFormed, S.Fresh, S.Indexed;
    var Binary(l, op, r) := e;
    Parts(e, s.rules, env, k, outer);
    var ip, st, a, b := vm.current.ip, vm.current.stack, Code(l, env, k), Code(r, env, k + Literals(l));
    var (lv, s1) := T.Eval(l, s, f, fuel).value;
    var (rv, s2) := T.Eval(r, s1, f, fuel).value;
    Skipped(l, w, program, env, s, f, fuel, vm, outer);
    var wr, v1, m1 := Next(r, w, program, env, s1, f, fuel, vm, k + Literals(l), outer);
    CallFreeOnlyAdds(r, s1, f, fuel);
    var vm1 := At(vm, ip + |b|, st + [v1], m1);
    NoneOk(w, vm.mem.heap);
    Unchanged(w, wr, program, env, s, s2, f, vm, vm1, outer, T.NoneV, NONE, T.NoneV, NONE);
    var wl, v2, m2 := Next(l, w, program, env, s, f, fuel, vm1, k, outer);
    var vm2 := At(vm, ip + |b| + |a|, st + [v1, v2], m2);
    assert st + [v1] + [v2] == st + [v1, v2];
    NoIntegers(op, wl, wr, s2, lv, rv, v2, v1, m1.heap, m2.heap);
    ComparisonStuck(vm2, op, st, v1, v2);
    ReachesTransitive(vm, vm1, vm2);
    StuckAfter(n, vm, vm2);
  }

  lemma {:induction false} NoIntegers(op: Operator, wl: World, wr: World, s: T.Store, l: T.Value, r: T.Value, lv: Value, rv: Value, h: Heap, h': Heap)
    requires Exchanged(op) && T.BinaryOp(op, l, r, s).Err? && ValueOk(wr, r, rv, h) && ValueOk(wl, l, lv, h') && HeapGrows(h, h')
    ensures !Look(h', lv).IntegerW? || !Look(h', rv).IntegerW?
  {
    hide ClosureOk, HeapGrows;
    LookStable(h, h', rv);
  }

  lemma {:induction false} ComparisonStuck(vm: Machine, op: Operator, st: seq<Value>, a: Value, b: Value)
    requires Exchanged(op) && Placed(vm, [OperatorInstruction(op)]) && vm.current.stack == st + [a, b]
    requires !Look(vm.mem.heap, a).IntegerW? || !Look(vm.mem.heap, b).IntegerW?
    ensures Step(vm) == Failed
  {
    hide Operate, Placed, Step, Look;
    BinaryOperates(vm, OperatorInstruction(op), st, a, b);
    PlainStuck(vm, OperatorInstruction(op));
  }
}
