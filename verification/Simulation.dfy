/** Forward simulation: whatever a terminating tree-walker run does, the machine
    does on the compiled code, wherever that code sits in its function. */
module Simulation {
  import opened Basics
  import opened Ast
  import T = TreeWalker
  import opened Bytecode
  import opened Codegen
  import opened Layout
  import opened Machine
  import opened Execution
  import opened ReferenceRuns
  import opened Relation
  import opened RelationUpdates
  import opened RelationCalls
  import opened Rendering
  import opened SimulationSteps

  /** Running the code of an expression: `len` instructions further the value is
      on top of the stack, and the states are related again. */
  ghost predicate Computes(w: World, w': World, program: Function, vm: Machine, len: nat,
      s: T.Store, sv: T.Value, v: Value, m: Memory) {
    && WorldGrows(w, w')
    && Yields(w', program, vm, vm.current.ip + len, vm.current.stack, s, sv, v, m)
  }

  // ---------------------------------------------------------------- composing runs

  lemma {:induction false} ReadyAt(w: World, w': World, program: Function, env: Env, s: T.Store, f: nat, vm: Machine,
      ip: int, st: seq<Value>, m: Memory)
    requires InFrame(w, program, env, f, vm) && WorldGrows(w, w') && Rel(w', program, s, m)
    ensures Ready(w', program, env, s, f, At(vm, ip, st, m))
  {
    hide Rel;
  }

  lemma {:induction false} YieldsVia(w: World, program: Function, vm: Machine, ip1: int, st1: seq<Value>, m1: Memory,
      ip: int, st: seq<Value>, s: T.Store, sv: T.Value, v: Value, m: Memory)
    requires Reaches(vm, At(vm, ip1, st1, m1)) && HeapGrows(vm.mem.heap, m1.heap)
    requires Yields(w, program, At(vm, ip1, st1, m1), ip, st, s, sv, v, m)
    ensures Yields(w, program, vm, ip, st, s, sv, v, m)
  {
    hide Rel, ValueOk, Reaches, HeapGrows;
    ReachesTransitive(vm, At(vm, ip1, st1, m1), At(vm, ip, st + [v], m));
    HeapGrowsTransitive(vm.mem.heap, m1.heap, m.heap);
  }

  lemma {:induction false} ArrivesVia(w: World, program: Function, vm: Machine, ip1: int, st1: seq<Value>, m1: Memory,
      ip: int, st: seq<Value>, s: T.Store, m: Memory)
    requires Reaches(vm, At(vm, ip1, st1, m1)) && HeapGrows(vm.mem.heap, m1.heap)
    requires Arrives(w, program, At(vm, ip1, st1, m1), ip, st, s, m)
    ensures Arrives(w, program, vm, ip, st, s, m)
  {
    hide Rel, Reaches, HeapGrows;
    ReachesTransitive(vm, At(vm, ip1, st1, m1), At(vm, ip, st, m));
    HeapGrowsTransitive(vm.mem.heap, m1.heap, m.heap);
  }

  lemma {:induction false} HeapGrowsTransitive(a: Heap, b: Heap, c: Heap)
    requires HeapGrows(a, b) && HeapGrows(b, c)
    ensures HeapGrows(a, c)
  {
    forall p | p in a ensures p in c && ObjGrows(a[p], c[p]) {
      assert ObjGrows(a[p], b[p]) && ObjGrows(b[p], c[p]);
    }
  }

  lemma {:induction false} HeapExtendsTransitive(a: Heap, b: Heap, c: Heap)
    requires HeapExtends(a, b) && HeapExtends(b, c)
    ensures HeapExtends(a, c)
  {}

  lemma {:induction false} WorldGrowsTransitive(a: World, b: World, c: World)
    requires WorldGrows(a, b) && WorldGrows(b, c)
    ensures WorldGrows(a, c)
  {}

  /** Two computations one after the other: both values are on the stack, the
      first one still valid. */
  lemma {:induction false} Both(w: World, w1: World, w2: World, program: Function, vm: Machine, n1: nat, n2: nat,
      s1: T.Store, sv1: T.Value, v1: Value, m1: Memory, s2: T.Store, sv2: T.Value, v2: Value, m2: Memory)
    requires Computes(w, w1, program, vm, n1, s1, sv1, v1, m1)
    requires Computes(w1, w2, program, At(vm, vm.current.ip + n1, vm.current.stack + [v1], m1), n2, s2, sv2, v2, m2)
    ensures WorldGrows(w, w2)
    ensures Arrives(w2, program, vm, vm.current.ip + n1 + n2, vm.current.stack + [v1, v2], s2, m2)
    ensures ValueOk(w2, sv1, v1, m2.heap) && ValueOk(w2, sv2, v2, m2.heap)
  {
    hide Rel, ValueOk, HeapGrows, WorldGrows, Reaches;
    var ip, st := vm.current.ip, vm.current.stack;
    ReachesTransitive(vm, At(vm, ip + n1, st + [v1], m1), At(vm, ip + n1 + n2, st + [v1] + [v2], m2));
    assert st + [v1] + [v2] == st + [v1, v2];
    HeapGrowsTransitive(vm.mem.heap, m1.heap, m2.heap);
    WorldGrowsTransitive(w, w1, w2);
    ValueStable(w1, w2, sv1, v1, m1.heap, m2.heap);
  }

  // ---------------------------------------------------------------- expressions

  /** A variable, a literal or a constant. */
  lemma {:induction false} SimLeaf(e: Expr, w: World, program: Function, env: Env, s: T.Store, f: nat, fuel: nat, vm: Machine, k: nat)
    returns (v: Value, m': Memory)
    requires !(e.Binary? || e.Unary? || e.Field? || e.Index? || e.Call? || e.Record?)
    requires Ready(w, program, env, s, f, vm)
    requires WellFormed(e, Needed(s.rules)) && Ok(e, env, k) && Placed(vm, Code(e, env, k))
    requires T.Eval(e, s, f, fuel).Ok? && !T.Eval(e, s, f, fuel).value.1.strayed
    ensures var (sv, s') := T.Eval(e, s, f, fuel).value; Computes(w, w, program, vm, |Code(e, env, k)|, s', sv, v, m')
    ensures HeapExtends(vm.mem.heap, m'.heap)
  {
    hide Ready, Placed, Yields, HeapExtends, WorldGrows, FunctionOk;
    WorldGrowsReflexive(w);
    HeapExtendsReflexive(vm.mem.heap);
    match e
    case Var(x) =>
      m' := vm.mem;
      v := VarStep(w, program, env, s, f, vm, x, k);
      assert s == T.Eval(e, s, f, fuel).value.1;
    case Fun(params, body) => v, m' := ClosureStep(w, program, env, s, f, vm, params, body, k);
    case _ =>
      m' := vm.mem;
      v := ConstantStep(w, program, env, s, f, vm, e);
  }

  lemma {:induction false} SimExpr(e: Expr, w: World, program: Function, env: Env, s: T.Store, f: nat, fuel: nat, vm: Machine, k: nat)
    returns (w': World, v: Value, m': Memory)
    requires Ready(w, program, env, s, f, vm)
    requires WellFormed(e, Needed(s.rules)) && Ok(e, env, k) && Placed(vm, Code(e, env, k))
    requires T.Eval(e, s, f, fuel).Ok? && !T.Eval(e, s, f, fuel).value.1.strayed
    ensures var (sv, s') := T.Eval(e, s, f, fuel).value; Computes(w, w', program, vm, |Code(e, env, k)|, s', sv, v, m')
    ensures CallFree(e) ==> HeapExtends(vm.mem.heap, m'.heap)
    decreases fuel, e, 4
  {
    hide Ready, Placed, Computes, HeapExtends, FunctionOk, Rel, ValueOk, HeapGrows, Reaches, Ok, WellFormed;
    hide T.EvalBinary, T.EvalUnary, T.EvalField, T.EvalIndex, T.EvalCall, T.EvalRecord;
    hide CodeBinary, CodeUnary, CodeField, CodeIndex, CodeCall, CodeRecord, CodeVar, CodeFun;
    match e
    case Binary(_, _, _) => w', v, m' := SimBinary(e, w, program, env, s, f, fuel, vm, k);
    case Unary(_, _) => w', v, m' := SimUnary(e, w, program, env, s, f, fuel, vm, k);
    case Field(_, _) => w', v, m' := SimField(e, w, program, env, s, f, fuel, vm, k);
    case Index(_, _) => w', v, m' := SimIndex(e, w, program, env, s, f, fuel, vm, k);
    case Call(_, _) => w', v, m' := SimCall(e, w, program, env, s, f, fuel, vm, k);
    case Record(_) => w', v, m' := SimRecord(e, w, program, env, s, f, fuel, vm, k);
    case _ =>
      w' := w;
      v, m' := SimLeaf(e, w, program, env, s, f, fuel, vm, k);
  }

  lemma {:induction false} HeapExtendsReflexive(h: Heap)
    ensures HeapExtends(h, h)
  {}

  lemma {:induction false} SimUnary(e: Expr, w: World, program: Function, env: Env, s: T.Store, f: nat, fuel: nat, vm: Machine, k: nat)
    returns (w': World, v: Value, m': Memory)
    requires e.Unary?
    requires Ready(w, program, env, s, f, vm)
    requires WellFormed(e, Needed(s.rules)) && Ok(e, env, k) && Placed(vm, CodeUnary(e, env, k))
    requires T.EvalUnary(e, s, f, fuel).Ok? && !T.EvalUnary(e, s, f, fuel).value.1.strayed
    ensures var (sv, s') := T.EvalUnary(e, s, f, fuel).value; Computes(w, w', program, vm, |CodeUnary(e, env, k)|, s', sv, v, m')
    ensures CallFree(e) ==> HeapExtends(vm.mem.heap, m'.heap)
    decreases fuel, e, 0
  {
    hide Rel, ValueOk, HeapGrows, HeapExtends, WorldGrows, Reaches, T.Eval, Code, Literals, MemoryOk, InFrame, FunctionOk;
    var Unary(op, x) := e;
    var (xv, s1) := T.Eval(x, s, f, fuel).value;
    var a, instr := Code(x, env, k), if op == SUB then Neg else Not;
    var ip, st := vm.current.ip, vm.current.stack;
    PlacedSplit(vm.current.fn.instructions, ip, a, [instr]);
    var v1, m1;
    w', v1, m1 := SimExpr(x, w, program, env, s, f, fuel, vm, k);
    ReadyAt(w, w', program, env, s1, f, vm, ip + |a|, st + [v1], m1);
    v, m' := UnaryStep(w', program, env, s1, f, At(vm, ip + |a|, st + [v1], m1), op, st, xv, v1);
    YieldsVia(w', program, vm, ip + |a|, st + [v1], m1, ip + |a| + 1, st, s1, T.UnaryOp(op, xv).value, v, m');
    if CallFree(e) { HeapExtendsTransitive(vm.mem.heap, m1.heap, m'.heap); }
  }

  lemma {:induction false} SimField(e: Expr, w: World, program: Function, env: Env, s: T.Store, f: nat, fuel: nat, vm: Machine, k: nat)
    returns (w': World, v: Value, m': Memory)
    requires e.Field?
    requires Ready(w, program, env, s, f, vm)
    requires WellFormed(e, Needed(s.rules)) && Ok(e, env, k) && Placed(vm, CodeField(e, env, k))
    requires T.EvalField(e, s, f, fuel).Ok? && !T.EvalField(e, s, f, fuel).value.1.strayed
    ensures var (sv, s') := T.EvalField(e, s, f, fuel).value; Computes(w, w', program, vm, |CodeField(e, env, k)|, s', sv, v, m')
    ensures CallFree(e) ==> HeapExtends(vm.mem.heap, m'.heap)
    decreases fuel, e, 0
  {
    hide Rel, ValueOk, HeapGrows, HeapExtends, WorldGrows, Reaches, T.Eval, Code, T.ReadField;
    var Field(b, name) := e;
    var (bv, s1) := T.Eval(b, s, f, fuel).value;
    var a := Code(b, env, k);
    var ip, st := vm.current.ip, vm.current.stack;
    PlacedSplit(vm.current.fn.instructions, ip, a, [FieldLoad(IndexOf(env.fn.names, name))]);
    var v1;
    w', v1, m' := SimExpr(b, w, program, env, s, f, fuel, vm, k);
    ReadyAt(w, w', program, env, s1, f, vm, ip + |a|, st + [v1], m');
    v := FieldStep(w', program, env, s1, f, At(vm, ip + |a|, st + [v1], m'), name, st, bv, v1);
    YieldsVia(w', program, vm, ip + |a|, st + [v1], m', ip + |a| + 1, st, s1, T.ReadField(bv, name, s1).value, v, m');
  }

  lemma {:induction false} SimBinary(e: Expr, w: World, program: Function, env: Env, s: T.Store, f: nat, fuel: nat, vm: Machine, k: nat)
    returns (w': World, v: Value, m': Memory)
    requires e.Binary?
    requires Ready(w, program, env, s, f, vm)
    requires WellFormed(e, Needed(s.rules)) && Ok(e, env, k) && Placed(vm, CodeBinary(e, env, k))
    requires T.EvalBinary(e, s, f, fuel).Ok? && !T.EvalBinary(e, s, f, fuel).value.1.strayed
    ensures var (sv, s') := T.EvalBinary(e, s, f, fuel).value; Computes(w, w', program, vm, |CodeBinary(e, env, k)|, s', sv, v, m')
    ensures CallFree(e) ==> HeapExtends(vm.mem.heap, m'.heap)
    decreases fuel, e, 3
  {
    hide Rel, ValueOk, HeapGrows, Reaches, HeapExtends, WorldGrows, T.Eval, Code, Placed, Ready, Yields;
    if Exchanged(e.op) {
      w', v, m' := SimExchanged(e, w, program, env, s, f, fuel, vm, k);
    } else {
      w', v, m' := SimInOrder(e, w, program, env, s, f, fuel, vm, k);
    }
  }

  lemma {:induction false} SimInOrder(e: Expr, w: World, program: Function, env: Env, s: T.Store, f: nat, fuel: nat, vm: Machine, k: nat)
    returns (w': World, v: Value, m': Memory)
    requires e.Binary? && !Exchanged(e.op)
    requires Ready(w, program, env, s, f, vm)
    requires WellFormed(e, Needed(s.rules)) && Ok(e, env, k) && Placed(vm, CodeBinary(e, env, k))
    requires T.EvalBinary(e, s, f, fuel).Ok? && !T.EvalBinary(e, s, f, fuel).value.1.strayed
    ensures var (sv, s') := T.EvalBinary(e, s, f, fuel).value; Computes(w, w', program, vm, |CodeBinary(e, env, k)|, s', sv, v, m')
    ensures CallFree(e) ==> HeapExtends(vm.mem.heap, m'.heap)
    decreases fuel, e, 0
  {
    hide Rel, ValueOk, HeapGrows, HeapExtends, WorldGrows, Reaches, T.Eval, Code, T.BinaryOp, Literals, InFrame, Needed, MemoryOk;
    var Binary(l, op, r) := e;
    var (lv, s1) := T.Eval(l, s, f, fuel).value;
    var (rv, s2) := T.Eval(r, s1, f, fuel).value;
    var a, b := Code(l, env, k), Code(r, env, k + Literals(l));
    var ip, st := vm.current.ip, vm.current.stack;
    PlacedSplit3(vm.current.fn.instructions, ip, a, b, [OperatorInstruction(op)]);
    var w1, v1, m1 := SimExpr(l, w, program, env, s, f, fuel, vm, k);
    ReadyAt(w, w1, program, env, s1, f, vm, ip + |a|, st + [v1], m1);
    var v2, m2;
    w', v2, m2 := SimExpr(r, w1, program, env, s1, f, fuel, At(vm, ip + |a|, st + [v1], m1), k + Literals(l));
    Both(w, w1, w', program, vm, |a|, |b|, s1, lv, v1, m1, s2, rv, v2, m2);
    ReadyAt(w, w', program, env, s2, f, vm, ip + |a| + |b|, st + [v1, v2], m2);
    v, m' := BinaryStep(w', program, env, s2, f, At(vm, ip + |a| + |b|, st + [v1, v2], m2), op, st, lv, rv, v1, v2);
    YieldsVia(w', program, vm, ip + |a| + |b|, st + [v1, v2], m2, ip + |a| + |b| + 1, st, s2, T.BinaryOp(op, lv, rv, s2).value, v, m');
    if CallFree(e) {
      HeapExtendsTransitive(vm.mem.heap, m1.heap, m2.heap);
      HeapExtendsTransitive(vm.mem.heap, m2.heap, m'.heap);
    }
  }

  /** The right operand runs first. That is the order of the rules of compiled
      code, and with commuting operands it does not matter. */
  lemma {:induction false} SimExchanged(e: Expr, w: World, program: Function, env: Env, s: T.Store, f: nat, fuel: nat, vm: Machine, k: nat)
    returns (w': World, v: Value, m': Memory)
    requires e.Binary? && Exchanged(e.op)
    requires Ready(w, program, env, s, f, vm)
    requires WellFormed(e, Needed(s.rules)) && Ok(e, env, k) && Placed(vm, CodeBinary(e, env, k))
    requires T.EvalBinary(e, s, f, fuel).Ok? && !T.EvalBinary(e, s, f, fuel).value.1.strayed
    ensures var (sv, s') := T.EvalBinary(e, s, f, fuel).value; Computes(w, w', program, vm, |CodeBinary(e, env, k)|, s', sv, v, m')
    ensures CallFree(e) ==> HeapExtends(vm.mem.heap, m'.heap)
    decreases fuel, e, 2
  {
    hide Computes, HeapExtends, T.Eval, T.BinaryOp, Ready, Placed, CodeBinary, Fixed;
    if s.rules == T.AsWritten && !Fixed(e.left) && !Fixed(e.right) {
      w', v, m' := SimCallFree(e, w, program, env, s, f, fuel, vm, k);
    } else {
      if s.rules == T.AsWritten { FixedCommutes(e.left, e.right, s, f, fuel); }
      w', v, m' := SimRightFirst(e, w, program, env, s, f, fuel, vm, k);
    }
  }

  lemma {:induction false} SimRightFirst(e: Expr, w: World, program: Function, env: Env, s: T.Store, f: nat, fuel: nat, vm: Machine, k: nat)
    returns (w': World, v: Value, m': Memory)
    requires e.Binary? && Exchanged(e.op)
    requires Ready(w, program, env, s, f, vm)
    requires WellFormed(e.left, Needed(s.rules)) && WellFormed(e.right, Needed(s.rules))
    requires Ok(e, env, k) && Placed(vm, CodeBinary(e, env, k))
    requires T.Eval(e.right, s, f, fuel).Ok?
    requires var x := T.Eval(e.left, T.Eval(e.right, s, f, fuel).value.1, f, fuel);
      && x.Ok? && !x.value.1.strayed && T.BinaryOp(e.op, x.value.0, T.Eval(e.right, s, f, fuel).value.0, x.value.1).Ok?
    ensures var (rv, s1) := T.Eval(e.right, s, f, fuel).value;
      var (lv, s2) := T.Eval(e.left, s1, f, fuel).value;
      Computes(w, w', program, vm, |CodeBinary(e, env, k)|, s2, T.BinaryOp(e.op, lv, rv, s2).value, v, m')
    ensures CallFree(e) ==> HeapExtends(vm.mem.heap, m'.heap)
    decreases fuel, e, 1
  {
    hide Rel, ValueOk, HeapGrows, HeapExtends, WorldGrows, Reaches, T.Eval, Code, T.BinaryOp, IndexOf, WellFormed, Needed;
    var Binary(l, op, r) := e;
    var (rv, s1) := T.Eval(r, s, f, fuel).value;
    var (lv, s2) := T.Eval(l, s1, f, fuel).value;
    var a, b := Code(l, env, k), Code(r, env, k + Literals(l));
    PlacedSplit3(vm.current.fn.instructions, vm.current.ip, b, a, [OperatorInstruction(op)]);
    assert Ok(l, env, k) && Ok(r, env, k + Literals(l)) && (CallFree(e) ==> CallFree(l) && CallFree(r));
    hide Ok, CallFree;
    var v1, v2, m2;
    w', v1, v2, m2 := InTurn(e, r, k + Literals(l), l, k, w, program, env, s, f, fuel, vm);
    v, m' := Combine(w', program, env, s2, f, vm, |b| + |a|, op, lv, rv, v2, v1, m2);
    if CallFree(e) { HeapExtendsTransitive(vm.mem.heap, m2.heap, m'.heap); }
  }

  /** Two expressions in turn, both parts of `whole`, leave both values. */
  lemma {:induction false} InTurn(whole: Expr, e: Expr, k: nat, e': Expr, k': nat, w: World, program: Function, env: Env, s: T.Store, f: nat,
      fuel: nat, vm: Machine)
    returns (w': World, v: Value, v': Value, m': Memory)
    requires e < whole && e' < whole
    requires WellFormed(e, Needed(s.rules)) && WellFormed(e', Needed(s.rules))
    requires Ready(w, program, env, s, f, vm) && Ok(e, env, k) && Ok(e', env, k')
    requires var n := |Code(e, env, k)|;
      Placed(vm, Code(e, env, k)) && PlacedAt(vm.current.fn.instructions, vm.current.ip + n, Code(e', env, k'))
    requires T.Eval(e, s, f, fuel).Ok?
    requires var o := T.Eval(e', T.Eval(e, s, f, fuel).value.1, f, fuel); o.Ok? && !o.value.1.strayed
    ensures WorldGrows(w, w')
    ensures var (x, s1) := T.Eval(e, s, f, fuel).value;
      var (x', s2) := T.Eval(e', s1, f, fuel).value;
      var n, st := |Code(e, env, k)| + |Code(e', env, k')|, vm.current.stack + [v, v'];
      && Arrives(w', program, vm, vm.current.ip + n, st, s2, m')
      && Ready(w', program, env, s2, f, At(vm, vm.current.ip + n, st, m'))
      && ValueOk(w', x, v, m'.heap) && ValueOk(w', x', v', m'.heap)
    ensures CallFree(e) && CallFree(e') ==> HeapExtends(vm.mem.heap, m'.heap)
    decreases fuel, whole, 0
  {
    hide Rel, ValueOk, HeapGrows, HeapExtends, WorldGrows, Reaches, T.Eval, Code, IndexOf, Ok, WellFormed, CallFree;
    var (x, s1) := T.Eval(e, s, f, fuel).value;
    var (x', s2) := T.Eval(e', s1, f, fuel).value;
    var ip, st, n, n' := vm.current.ip, vm.current.stack, |Code(e, env, k)|, |Code(e', env, k')|;
    var w1, m1;
    w1, v, m1 := SimExpr(e, w, program, env, s, f, fuel, vm, k);
    ReadyAt(w, w1, program, env, s1, f, vm, ip + n, st + [v], m1);
    w', v', m' := SimExpr(e', w1, program, env, s1, f, fuel, At(vm, ip + n, st + [v], m1), k');
    Both(w, w1, w', program, vm, n, n', s1, x, v, m1, s2, x', v', m');
    ReadyAt(w, w', program, env, s2, f, vm, ip + n + n', st + [v, v'], m');
    if CallFree(e) && CallFree(e') { HeapExtendsTransitive(vm.mem.heap, m1.heap, m'.heap); }
  }

  /** The exchanged operator after both operands. */
  lemma {:induction false} Combine(w: World, program: Function, env: Env, s: T.Store, f: nat, vm: Machine, n: nat, op: Operator,
      l: T.Value, r: T.Value, lv: Value, rv: Value, m: Memory) returns (v: Value, m': Memory)
    requires var vm1 := At(vm, vm.current.ip + n, vm.current.stack + [rv, lv], m);
      && Ready(w, program, env, s, f, vm1) && Placed(vm1, [OperatorInstruction(op)])
    requires Arrives(w, program, vm, vm.current.ip + n, vm.current.stack + [rv, lv], s, m)
    requires Exchanged(op) && ValueOk(w, l, lv, m.heap) && ValueOk(w, r, rv, m.heap) && T.BinaryOp(op, l, r, s).Ok?
    ensures Yields(w, program, vm, vm.current.ip + n + 1, vm.current.stack, s, T.BinaryOp(op, l, r, s).value, v, m')
    ensures HeapExtends(m.heap, m'.heap)
  {
    hide Rel, ValueOk, HeapGrows, HeapExtends, Reaches, Ready, Placed, T.BinaryOp;
    var ip, st := vm.current.ip + n, vm.current.stack;
    v, m' := BinaryStep(w, program, env, s, f, At(vm, ip, st + [rv, lv], m), op, st, l, r, lv, rv);
    YieldsVia(w, program, vm, ip, st + [rv, lv], m, ip + 1, st, s, T.BinaryOp(op, l, r, s).value, v, m');
  }

  /** Both operands are call-free, so either order only adds frames, records and
      heap objects, and integers do not depend on what was added. */
  lemma {:induction false} SimCallFree(e: Expr, w: World, program: Function, env: Env, s: T.Store, f: nat, fuel: nat, vm: Machine, k: nat)
    returns (w': World, v: Value, m': Memory)
    requires e.Binary? && Exchanged(e.op)
    requires Ready(w, program, env, s, f, vm)
    requires s.rules == T.AsWritten && CallFree(e.left) && CallFree(e.right)
    requires WellFormed(e, Needed(s.rules)) && Ok(e, env, k) && Placed(vm, CodeBinary(e, env, k))
    requires T.EvalBinary(e, s, f, fuel).Ok? && !T.EvalBinary(e, s, f, fuel).value.1.strayed
    ensures var (sv, s') := T.EvalBinary(e, s, f, fuel).value; Computes(w, w', program, vm, |CodeBinary(e, env, k)|, s', sv, v, m')
    ensures CallFree(e) ==> HeapExtends(vm.mem.heap, m'.heap)
    decreases fuel, e, 1
  {
    hide Rel, ValueOk, HeapGrows, HeapExtends, WorldGrows, Reaches, T.Eval, Code, T.BinaryOp, IndexOf, CallFree;
    var Binary(l, op, r) := e;
    var (lv, s1) := T.Eval(l, s, f, fuel).value;
    var (rv, s2) := T.Eval(r, s1, f, fuel).value;
    var a, b := Code(l, env, k), Code(r, env, k + Literals(l));
    PlacedSplit3(vm.current.fn.instructions, vm.current.ip, b, a, [OperatorInstruction(op)]);
    ComparesIntegers(op, lv, rv, s2);
    var v2, v1, m2 := CallFreeOperands(e, w, program, env, s, f, fuel, vm, k);
    w' := w;
    WorldGrowsReflexive(w);
    v, m' := Combine(w, program, env, s2, f, vm, |b| + |a|, op, lv, rv, v1, v2, m2);
    HeapExtendsTransitive(vm.mem.heap, m2.heap, m'.heap);
  }

  lemma {:induction false} ComparesIntegers(op: Operator, l: T.Value, r: T.Value, s: T.Store)
    requires Exchanged(op) && T.BinaryOp(op, l, r, s).Ok?
    ensures l.IntegerV? && r.IntegerV?
  {}

  /** An integer means the same in every world and stays what it is. */
  lemma {:induction false} IntegerStays(w: World, w': World, v: T.Value, u: Value, h: Heap, h': Heap)
    requires v.IntegerV? && ValueOk(w', v, u, h) && HeapGrows(h, h')
    ensures ValueOk(w, v, u, h')
  {
    hide HeapGrows, ClosureOk;
    LookStable(h, h', u);
  }

  lemma {:induction false} CallFreeOperands(e: Expr, w: World, program: Function, env: Env, s: T.Store, f: nat, fuel: nat, vm: Machine, k: nat)
    returns (v2: Value, v1: Value, m2: Memory)
    requires e.Binary? && Ready(w, program, env, s, f, vm) && Ok(e, env, k)
    requires s.rules == T.AsWritten && CallFree(e.left) && CallFree(e.right)
    requires WellFormed(e.left, MEANING) && WellFormed(e.right, MEANING)
    requires var b := Code(e.right, env, k + Literals(e.left));
      Placed(vm, b) && PlacedAt(vm.current.fn.instructions, vm.current.ip + |b|, Code(e.left, env, k))
    requires T.Eval(e.left, s, f, fuel).Ok? && T.Eval(e.left, s, f, fuel).value.0.IntegerV?
    requires var o := T.Eval(e.right, T.Eval(e.left, s, f, fuel).value.1, f, fuel);
      o.Ok? && !o.value.1.strayed && o.value.0.IntegerV?
    ensures var (lv, s1) := T.Eval(e.left, s, f, fuel).value;
      var (rv, s2) := T.Eval(e.right, s1, f, fuel).value;
      var n, st := |Code(e.right, env, k + Literals(e.left))| + |Code(e.left, env, k)|, vm.current.stack + [v2, v1];
      && Arrives(w, program, vm, vm.current.ip + n, st, s2, m2)
      && Ready(w, program, env, s2, f, At(vm, vm.current.ip + n, st, m2))
      && ValueOk(w, rv, v2, m2.heap) && ValueOk(w, lv, v1, m2.heap)
    ensures HeapExtends(vm.mem.heap, m2.heap)
    decreases fuel, e, 0
  {
    hide Rel, ValueOk, HeapGrows, HeapExtends, WorldGrows, Reaches, T.Eval, Code, IndexOf, WellFormed, Literals;
    var Binary(l, op, r) := e;
    var (lv, s1) := T.Eval(l, s, f, fuel).value;
    var (rv, s2) := T.Eval(r, s1, f, fuel).value;
    var a, b := Code(l, env, k), Code(r, env, k + Literals(l));
    var ip, st, m := vm.current.ip, vm.current.stack, vm.mem;
    CallFreeOnlyAdds(l, s, f, fuel);
    CallFreeOnlyAdds(r, s1, f, fuel);
    WorldGrowsReflexive(w);
    HeapExtendsReflexive(m.heap);
    OutOfRel(w, program, s, m);
    RelExtends(w, program, s, s1, m, m);
    var wr, m1, wl;
    wr, v2, m1 := SimExpr(r, w, program, env, s1, f, fuel, vm, k + Literals(l));
    OutOfRel(wr, program, s2, m1);
    RelExtends(w, program, s, s, m, m1);
    ReadyAt(w, w, program, env, s, f, vm, ip + |b|, st + [v2], m1);
    wl, v1, m2 := SimExpr(l, w, program, env, s, f, fuel, At(vm, ip + |b|, st + [v2], m1), k);
    OutOfRel(wl, program, s1, m2);
    HeapExtendsTransitive(m.heap, m1.heap, m2.heap);
    RelExtends(w, program, s, s2, m, m2);
    IntegerStays(w, wr, rv, v2, m1.heap, m2.heap);
    HeapGrowsReflexive(m2.heap);
    IntegerStays(w, wl, lv, v1, m2.heap, m2.heap);
    assert st + [v2] + [v1] == st + [v2, v1];
    ReachesTransitive(vm, At(vm, ip + |b|, st + [v2], m1), At(vm, ip + |b| + |a|, st + [v2, v1], m2));
    ReadyAt(w, w, program, env, s2, f, vm, ip + |b| + |a|, st + [v2, v1], m2);
  }

  lemma {:induction false} SimIndex(e: Expr, w: World, program: Function, env: Env, s: T.Store, f: nat, fuel: nat, vm: Machine, k: nat)
    returns (w': World, v: Value, m': Memory)
    requires e.Index?
    requires Ready(w, program, env, s, f, vm)
    requires WellFormed(e, Needed(s.rules)) && Ok(e, env, k) && Placed(vm, CodeIndex(e, env, k))
    requires T.EvalIndex(e, s, f, fuel).Ok? && !T.EvalIndex(e, s, f, fuel).value.1.strayed
    ensures var (sv, s') := T.EvalIndex(e, s, f, fuel).value; Computes(w, w', program, vm, |CodeIndex(e, env, k)|, s', sv, v, m')
    ensures CallFree(e) ==> HeapExtends(vm.mem.heap, m'.heap)
    decreases fuel, e, 0
  {
    hide Rel, ValueOk, HeapGrows, HeapExtends, WorldGrows, Reaches, T.Eval, Code, T.ReadField, T.Cast;
    var Index(b, i) := e;
    var (bv, s1) := T.Eval(b, s, f, fuel).value;
    var (iv, s2) := T.Eval(i, s1, f, fuel).value;
    var x, y := Code(b, env, k), Code(i, env, k + Literals(b));
    var ip, st := vm.current.ip, vm.current.stack;
    PlacedSplit3(vm.current.fn.instructions, ip, x, y, [IndexLoad]);
    var w1, v1, m1 := SimExpr(b, w, program, env, s, f, fuel, vm, k);
    ReadyAt(w, w1, program, env, s1, f, vm, ip + |x|, st + [v1], m1);
    var v2;
    w', v2, m' := SimExpr(i, w1, program, env, s1, f, fuel, At(vm, ip + |x|, st + [v1], m1), k + Literals(b));
    Both(w, w1, w', program, vm, |x|, |y|, s1, bv, v1, m1, s2, iv, v2, m');
    ReadyAt(w, w', program, env, s2, f, vm, ip + |x| + |y|, st + [v1, v2], m');
    v := IndexStep(w', program, env, s2, f, At(vm, ip + |x| + |y|, st + [v1, v2], m'), st, bv, v1, iv, v2);
    YieldsVia(w', program, vm, ip + |x| + |y|, st + [v1, v2], m', ip + |x| + |y| + 1, st, s2, T.EvalIndex(e, s, f, fuel).value.0, v, m');
    if CallFree(e) { HeapExtendsTransitive(vm.mem.heap, m1.heap, m'.heap); }
  }

  lemma {:induction false} SimRecord(e: Expr, w: World, program: Function, env: Env, s: T.Store, f: nat, fuel: nat, vm: Machine, k: nat)
    returns (w': World, v: Value, m': Memory)
    requires e.Record?
    requires Ready(w, program, env, s, f, vm)
    requires WellFormed(e, Needed(s.rules)) && Ok(e, env, k) && Placed(vm, CodeRecord(e, env, k))
    requires T.EvalRecord(e, s, f, fuel).Ok? && !T.EvalRecord(e, s, f, fuel).value.1.strayed
    ensures var (sv, s') := T.EvalRecord(e, s, f, fuel).value; Computes(w, w', program, vm, |CodeRecord(e, env, k)|, s', sv, v, m')
    ensures CallFree(e) ==> HeapExtends(vm.mem.heap, m'.heap)
    decreases fuel, e, 0
  {
    hide Rel, ValueOk, HeapGrows, HeapExtends, WorldGrows, Reaches, T.EvalFields, CodeFields;
    var Record(inits) := e;
    var id := |s.records|;
    var s1 := s.(records := s.records + [map[]]);
    var s2 := T.EvalFields(inits, id, s1, f, fuel).value;
    var ip, st, n := vm.current.ip, vm.current.stack, |inits|;
    var c := CodeFields(inits, env, k);
    PlacedSplit(vm.current.fn.instructions, ip, [AllocRecord] + Dups(n), c);
    var w1, m1 := RecordStep(w, program, env, s, f, vm, n);
    v := Ptr(vm.mem.next);
    var copies := seq(n, _ => v);
    ReadyAt(w, w1, program, env, s1, f, vm, ip + 1 + n, st + [v] + copies, m1);
    w', m' := SimFields(inits, id, w1, program, env, s1, f, fuel, At(vm, ip + 1 + n, st + [v] + copies, m1), k, st + [v], v);
    ArrivesVia(w', program, vm, ip + 1 + n, st + [v] + copies, m1, ip + 1 + n + |c|, st + [v], s2, m');
    WorldGrowsTransitive(w, w1, w');
    ValueStable(w1, w', T.RecordV(id), v, m1.heap, m'.heap);
    if CallFree(e) { ExtendsPastNew(vm.mem.heap, m1.heap, m'.heap, vm.mem.next); }
  }

  /** What existed before a record did not change when only the record did. */
  lemma {:induction false} ExtendsPastNew(a: Heap, b: Heap, c: Heap, p: Addr)
    requires HeapExtends(a, b) && ExtendsBut(b, c, p) && p !in a
    ensures HeapExtends(a, c)
  {}

  ghost predicate ExtendsBut(h: Heap, h': Heap, p: Addr) {
    forall a :: a in h && a != p ==> a in h' && h'[a] == h[a]
  }

  lemma {:induction false} SimFields(inits: seq<FieldInit>, id: nat, w: World, program: Function, env: Env, s: T.Store, f: nat,
      fuel: nat, vm: Machine, k: nat, st: seq<Value>, a: Value)
    returns (w': World, m': Memory)
    requires Ready(w, program, env, s, f, vm)
    requires WellFormedFields(inits, Needed(s.rules)) && OkFields(inits, env, k) && Placed(vm, CodeFields(inits, env, k))
    requires vm.current.stack == st + seq(|inits|, _ => a) && id in w.records && ValueOk(w, T.RecordV(id), a, vm.mem.heap)
    requires T.EvalFields(inits, id, s, f, fuel).Ok? && !T.EvalFields(inits, id, s, f, fuel).value.strayed
    ensures WorldGrows(w, w')
    ensures Arrives(w', program, vm, vm.current.ip + |CodeFields(inits, env, k)|, st, T.EvalFields(inits, id, s, f, fuel).value, m')
    ensures CallFreeFields(inits) ==> ExtendsBut(vm.mem.heap, m'.heap, w.records[id])
    decreases fuel, inits, 0
  {
    hide Rel, ValueOk, HeapGrows, HeapExtends, WorldGrows, Reaches, T.Eval, Code, IndexOf, WellFormed, Ok, Literals, LiteralsBlock, CallFree;
    if inits == [] {
      w', m' := w, vm.mem;
      assert vm.current.stack == st;
      assert At(vm, vm.current.ip, st, vm.mem) == vm;
      ReachesSelf(vm);
      WorldGrowsReflexive(w);
      HeapGrowsReflexive(vm.mem.heap);
    } else {
      var e, rest := inits[0].init, inits[1..];
      var (sv, s1) := T.Eval(e, s, f, fuel).value;
      var c, store, d := Code(e, env, k), FieldStore(IndexOf(env.fn.names, inits[0].name)), CodeFields(rest, env, k + Literals(e));
      var ip, st1 := vm.current.ip, st + seq(|rest|, _ => a);
      PlacedSplit3(vm.current.fn.instructions, ip, c, [store], d);
      var w1, v1, m1 := SimExpr(e, w, program, env, s, f, fuel, vm, k);
      assert vm.current.stack == st1 + [a];
      RecordStaysPut(w, w1, id);
      var s2 := T.WriteRecord(s1, id, inits[0].name, sv);
      var m2 := InitStep(w, w1, program, env, s1, f, vm, |c|, inits[0].name, st1, id, a, sv, v1, m1);
      ReadyAt(w, w1, program, env, s2, f, vm, ip + |c| + 1, st1, m2);
      w', m' := SimFields(rest, id, w1, program, env, s2, f, fuel, At(vm, ip + |c| + 1, st1, m2), k + Literals(e), st, a);
      ArrivesVia(w', program, vm, ip + |c| + 1, st1, m2, ip + |c| + 1 + |d|, st, T.EvalFields(inits, id, s, f, fuel).value, m');
      WorldGrowsTransitive(w, w1, w');
      if CallFreeFields(inits) { ExtendsButVia(vm.mem.heap, m1.heap, m2.heap, m'.heap, w.records[id]); }
    }
  }

  /** Storing a computed field value into the record under construction. */
  lemma {:induction false} InitStep(w: World, w1: World, program: Function, env: Env, s1: T.Store, f: nat, vm: Machine, len: nat,
      name: string, st: seq<Value>, id: nat, a: Value, sv: T.Value, v: Value, m1: Memory)
    returns (m2: Memory)
    requires InFrame(w, program, env, f, vm) && Computes(w, w1, program, vm, len, s1, sv, v, m1)
    requires vm.current.stack == st + [a] && id in w.records && ValueOk(w, T.RecordV(id), a, vm.mem.heap)
    requires PlacedAt(vm.current.fn.instructions, vm.current.ip + len, [FieldStore(IndexOf(env.fn.names, name))])
    requires name in env.fn.names
    ensures id < |s1.records| && id in w1.records
    ensures Arrives(w1, program, vm, vm.current.ip + len + 1, st, T.WriteRecord(s1, id, name, sv), m2)
    ensures ValueOk(w1, T.RecordV(id), a, m2.heap)
    ensures ExtendsBut(m1.heap, m2.heap, w1.records[id])
  {
    hide Rel, ValueOk, HeapGrows, WorldGrows, Reaches, PlacedAt;
    var ip, st0 := vm.current.ip, vm.current.stack;
    ValueStable(w, w1, T.RecordV(id), a, vm.mem.heap, m1.heap);
    RecordStaysPut(w, w1, id);
    assert st0 + [v] == st + [a, v];
    ReadyAt(w, w1, program, env, s1, f, vm, ip + len, st0 + [v], m1);
    m2 := FieldStoreStep(w1, program, env, s1, f, At(vm, ip + len, st0 + [v], m1), name, st, id, a, sv, v);
    ArrivesVia(w1, program, vm, ip + len, st0 + [v], m1, ip + len + 1, st, T.WriteRecord(s1, id, name, sv), m2);
    ValueStable(w, w1, T.RecordV(id), a, vm.mem.heap, m2.heap);
  }

  lemma {:induction false} RecordStaysPut(w: World, w': World, id: nat)
    requires WorldGrows(w, w') && id in w.records
    ensures id in w'.records && w'.records[id] == w.records[id]
  {}

  lemma {:induction false} ExtendsButVia(a: Heap, b: Heap, c: Heap, d: Heap, p: Addr)
    requires HeapExtends(a, b) && ExtendsBut(b, c, p) && ExtendsBut(c, d, p)
    ensures ExtendsBut(a, d, p)
  {}

  // ---------------------------------------------------------------- calls

  lemma {:induction false} SimCall(e: Expr, w: World, program: Function, env: Env, s: T.Store, f: nat, fuel: nat, vm: Machine, k: nat)
    returns (w': World, v: Value, m': Memory)
    requires e.Call?
    requires Ready(w, program, env, s, f, vm)
    requires WellFormed(e, Needed(s.rules)) && Ok(e, env, k) && Placed(vm, CodeCall(e, env, k))
    requires T.EvalCall(e, s, f, fuel).Ok? && !T.EvalCall(e, s, f, fuel).value.1.strayed
    ensures var (sv, s') := T.EvalCall(e, s, f, fuel).value; Computes(w, w', program, vm, |CodeCall(e, env, k)|, s', sv, v, m')
    ensures CallFree(e) ==> HeapExtends(vm.mem.heap, m'.heap)
    decreases fuel, e, 0
  {
    hide Rel, ValueOk, ValuesOk, HeapGrows, HeapExtends, WorldGrows, Reaches, T.Eval, T.EvalArgs, T.Apply, Code, CodeArgs;
    var Call(t, args) := e;
    var (tv, s1) := T.Eval(t, s, f, fuel).value;
    var (svs, s2) := T.EvalArgs(args, s1, f, fuel).value;
    var a, b, n := Code(t, env, k), CodeArgs(args, env, k + Literals(t)), |args|;
    var ip, st := vm.current.ip, vm.current.stack;
    PlacedSplit3(vm.current.fn.instructions, ip, a, b, [Instruction.Call(n)]);
    var w1, v1, m1 := SimExpr(t, w, program, env, s, f, fuel, vm, k);
    ReadyAt(w, w1, program, env, s1, f, vm, ip + |a|, st + [v1], m1);
    var w2, vs, m2 := SimArgs(args, w1, program, env, s1, f, fuel, At(vm, ip + |a|, st + [v1], m1), k + Literals(t));
    ArrivesVia(w2, program, vm, ip + |a|, st + [v1], m1, ip + |a| + |b|, st + [v1] + vs, s2, m2);
    ValueStable(w1, w2, tv, v1, m1.heap, m2.heap);
    WorldGrowsTransitive(w, w1, w2);
    ReadyAt(w, w2, program, env, s2, f, vm, ip + |a| + |b|, st + [v1] + vs, m2);
    ValueCount(w2, svs, vs, m2.heap);
    var vm2 := At(vm, ip + |a| + |b|, st + [v1] + vs, m2);
    w', v, m' := SimApply(tv, svs, s2, fuel - 1, w2, program, vm2, st, v1, vs);
    var (sv, s') := T.EvalCall(e, s, f, fuel).value;
    YieldsVia(w', program, vm, ip + |a| + |b|, st + [v1] + vs, m2, ip + |a| + |b| + 1, st, s', sv, v, m');
    WorldGrowsTransitive(w, w2, w');
  }

  lemma {:induction false} ValueCount(w: World, svs: seq<T.Value>, vs: seq<Value>, h: Heap)
    requires ValuesOk(w, svs, vs, h)
    ensures |svs| == |vs|
  {}

  lemma {:induction false} SimArgs(es: seq<Expr>, w: World, program: Function, env: Env, s: T.Store, f: nat, fuel: nat, vm: Machine, k: nat)
    returns (w': World, vs: seq<Value>, m': Memory)
    requires Ready(w, program, env, s, f, vm)
    requires WellFormedArgs(es, Needed(s.rules)) && OkArgs(es, env, k) && Placed(vm, CodeArgs(es, env, k))
    requires T.EvalArgs(es, s, f, fuel).Ok? && !T.EvalArgs(es, s, f, fuel).value.1.strayed
    ensures WorldGrows(w, w')
    ensures var (svs, s') := T.EvalArgs(es, s, f, fuel).value;
      && Arrives(w', program, vm, vm.current.ip + |CodeArgs(es, env, k)|, vm.current.stack + vs, s', m')
      && ValuesOk(w', svs, vs, m'.heap)
    decreases fuel, es, 0
  {
    hide Rel, ValueOk, HeapGrows, WorldGrows, Reaches, T.Eval, Code, IndexOf, Ok, WellFormed, Literals, MemoryOk, InFrame, FunctionOk;
    var ip, st := vm.current.ip, vm.current.stack;
    if es == [] {
      w', vs, m' := w, [], vm.mem;
      assert st + [] == st;
      assert At(vm, ip, st + [], vm.mem) == vm;
      ReachesSelf(vm);
      WorldGrowsReflexive(w);
      HeapGrowsReflexive(vm.mem.heap);
    } else {
      var (sv, s1) := T.Eval(es[0], s, f, fuel).value;
      var (svs, s2) := T.EvalArgs(es[1..], s1, f, fuel).value;
      var a, b := Code(es[0], env, k), CodeArgs(es[1..], env, k + Literals(es[0]));
      PlacedSplit(vm.current.fn.instructions, ip, a, b);
      var w1, v1, m1 := SimExpr(es[0], w, program, env, s, f, fuel, vm, k);
      ReadyAt(w, w1, program, env, s1, f, vm, ip + |a|, st + [v1], m1);
      var rest;
      w', rest, m' := SimArgs(es[1..], w1, program, env, s1, f, fuel, At(vm, ip + |a|, st + [v1], m1), k + Literals(es[0]));
      vs := [v1] + rest;
      assert st + [v1] + rest == st + vs;
      ArrivesVia(w', program, vm, ip + |a|, st + [v1], m1, ip + |a| + |b|, st + vs, s2, m');
      WorldGrowsTransitive(w, w1, w');
      ValueStable(w1, w', sv, v1, m1.heap, m'.heap);
    }
  }

  /** A call made with related operands on the stack: it replaces closure and
      arguments by the result, whatever the callee does in between. */
  lemma {:induction false} SimApply(tv: T.Value, svs: seq<T.Value>, s: T.Store, fuel: nat, w: World, program: Function, vm: Machine,
      st: seq<Value>, cv: Value, vs: seq<Value>)
    returns (w': World, v: Value, m': Memory)
    requires tv.FunctionV? || tv.NativeV?
    requires Rel(w, program, s, vm.mem) && vm.names == program.names && vm.global == 0
    requires Placed(vm, [Instruction.Call(|vs|)]) && vm.current.stack == st + [cv] + vs
    requires ValueOk(w, tv, cv, vm.mem.heap) && ValuesOk(w, svs, vs, vm.mem.heap)
    requires T.Apply(tv, svs, s, fuel).Ok? && !T.Apply(tv, svs, s, fuel).value.1.strayed
    ensures WorldGrows(w, w')
    ensures var (sv, s') := T.Apply(tv, svs, s, fuel).value; Yields(w', program, vm, vm.current.ip + 1, st, s', sv, v, m')
    decreases fuel
  {
    hide Rel, ValueOk, ValuesOk, HeapGrows, WorldGrows, Reaches, Placed, Yields;
    match tv
    case NativeV(_) =>
      w' := w;
      WorldGrowsReflexive(w);
      v := NONE;
      m' := PrintCall(tv, svs, s, fuel, w, program, vm, st, cv, vs);
    case FunctionV(_, _, _) =>
      w', v, m' := SimClosureCall(tv, svs, s, fuel, w, program, vm, st, cv, vs);
  }

  /** The frame pushed for a built-in function leaves no trace but garbage. */
  lemma {:induction false} PrintEnters(w: World, program: Function, s: T.Store, s': T.Store, m: Memory, sv: T.Value, v: Value)
    returns (m1: Memory)
    requires Rel(w, program, s, m) && ValueOk(w, sv, v, m.heap) && T.Cast(sv, s).Ok?
    requires StoreExtends(s, s') && s'.out == s.out + [T.Cast(sv, s).value]
    ensures m1 == EnterFrame(m, BuiltinFunction(PrintFunction), [], [v])
    ensures ToString(m1.heap, v, {}) == Some(T.Cast(sv, s).value)
    ensures Rel(w, program, s', m1.(out := m1.out + [T.Cast(sv, s).value])) && HeapGrows(m.heap, m1.heap)
  {
    hide Rel, HeapGrows, HeapExtends, ClosureOk, ToString, EnterFrame, T.Cast, StoreExtends;
    var fn, line := BuiltinFunction(PrintFunction), T.Cast(sv, s).value;
    m1 := EnterFrame(m, fn, [], [v]);
    OutOfRel(w, program, s, m);
    EnterFrameOk(m, fn, [], [v]);
    StoreExtendsSelf(s);
    RelExtends(w, program, s, s, m, m1);
    WorldGrowsReflexive(w);
    ValueStable(w, w, sv, v, m.heap, m1.heap);
    CastAgrees(w, program, s, m1, sv, v);
    RelExtends(w, program, s, s', m, m1.(out := m1.out + [line]));
  }

  lemma {:induction false} StoreExtendsSelf(s: T.Store)
    ensures StoreExtends(s, s)
  {}

  /** `print` takes its argument and the closure away and leaves None. */
  lemma {:induction false} PrintReturns(vm: Machine, st: seq<Value>, cv: Value, v: Value, m1: Memory, line: string)
    requires Placed(vm, [Instruction.Call(1)]) && vm.current.stack == st + [cv] + [v]
    requires Look(vm.mem.heap, cv) == ClosureW(BuiltinFunction(PrintFunction), [])
    requires m1 == EnterFrame(vm.mem, BuiltinFunction(PrintFunction), [], [v]) && ToString(m1.heap, v, {}) == Some(line)
    ensures Reaches(vm, At(vm, vm.current.ip + 1, st + [NONE], m1.(out := m1.out + [line])))
  {
    hide EnterFrame, ToString, Reaches;
    PlacedHead(vm, Instruction.Call(1));
    OperandsOfCall(st, cv, [v]);
    ReachesStep(vm, At(vm, vm.current.ip + 1, st + [NONE], m1.(out := m1.out + [line])));
  }

  /** `print` renders its argument, leaves a frame nobody refers to, and returns None. */
  lemma {:induction false} PrintCall(tv: T.Value, svs: seq<T.Value>, s: T.Store, fuel: nat, w: World, program: Function, vm: Machine,
      st: seq<Value>, cv: Value, vs: seq<Value>)
    returns (m': Memory)
    requires tv.NativeV?
    requires Rel(w, program, s, vm.mem)
    requires Placed(vm, [Instruction.Call(|vs|)]) && vm.current.stack == st + [cv] + vs
    requires ValueOk(w, tv, cv, vm.mem.heap) && ValuesOk(w, svs, vs, vm.mem.heap)
    requires T.Apply(tv, svs, s, fuel).Ok?
    ensures var (sv, s') := T.Apply(tv, svs, s, fuel).value; Yields(w, program, vm, vm.current.ip + 1, st, s', sv, NONE, m')
  {
    hide Rel, HeapGrows, HeapExtends, ClosureOk, ToString, EnterFrame, T.Cast, Reaches, Placed, Step;
    assert vs == [vs[0]];
    var m1 := PrintEnters(w, program, s, T.Apply(tv, svs, s, fuel).value.1, vm.mem, svs[0], vs[0]);
    var line := T.Cast(svs[0], s).value;
    m' := m1.(out := m1.out + [line]);
    PrintReturns(vm, st, cv, vs[0], m1, line);
    NoneOk(w, m'.heap);
  }

  lemma {:induction false} OperandsOfCall(st: seq<Value>, cv: Value, vs: seq<Value>)
    ensures var all := st + [cv] + vs;
      var n := |all| - |vs|;
      n > 0 && all[n..] == vs && all[n - 1] == cv && all[..n - 1] == st
  {}

  lemma {:induction false} SimClosureCall(tv: T.Value, svs: seq<T.Value>, s: T.Store, fuel: nat, w: World, program: Function, vm: Machine,
      st: seq<Value>, cv: Value, vs: seq<Value>)
    returns (w': World, v: Value, m': Memory)
    requires tv.FunctionV?
    requires Rel(w, program, s, vm.mem) && vm.names == program.names && vm.global == 0
    requires Placed(vm, [Instruction.Call(|vs|)]) && vm.current.stack == st + [cv] + vs
    requires ValueOk(w, tv, cv, vm.mem.heap) && ValuesOk(w, svs, vs, vm.mem.heap)
    requires T.Apply(tv, svs, s, fuel).Ok? && !T.Apply(tv, svs, s, fuel).value.1.strayed
    ensures WorldGrows(w, w')
    ensures var (sv, s') := T.Apply(tv, svs, s, fuel).value; Yields(w', program, vm, vm.current.ip + 1, st, s', sv, v, m')
    decreases fuel, tv.body, 2
  {
    hide Rel, ValueOk, ValuesOk, HeapGrows, WorldGrows, Reaches, OkBlock, WellFormedBlock, FunctionCode, T.ExecBlock, CodeBlock, Placed, Step;
    var FunctionV(parent, params, body) := tv;
    var f := |s.frames|;
    var s1 := s.(frames := s.frames + [T.CallFrame(parent, params, body, svs)]);
    var w1, env, vm1 := EnterClosure(tv, svs, s, w, program, vm, st, cv, vs);
    if s.rules == T.AsWritten && FindReturnBlock(body) { MustReturnBlockReturns(body, s1, f, fuel); }
    w', v, m' := SimBody(body, w1, program, env, s1, f, fuel, vm1);
    WorldGrowsTransitive(w, w1, w');
    HeapGrowsTransitive(vm.mem.heap, vm1.mem.heap, m'.heap);
    var vm2 := At(vm1, |env.fn.instructions| + 1, [v], m');
    assert [] + [v] == [v];
    ReachesTransitive(vm, vm1, vm2);
    Resume(vm2, vm.callers, vm.current.(stack := st), [], v);
    ReachesTransitive(vm, vm2, At(vm, vm.current.ip + 1, st + [v], m'));
  }

  /** The call of a closure enters its body, in a frame related to the new one. */
  lemma {:induction false} EnterClosure(tv: T.Value, svs: seq<T.Value>, s: T.Store, w: World, program: Function, vm: Machine,
      st: seq<Value>, cv: Value, vs: seq<Value>)
    returns (w1: World, env: Env, vm1: Machine)
    requires tv.FunctionV? && |svs| == |tv.params|
    requires Rel(w, program, s, vm.mem) && vm.names == program.names && vm.global == 0
    requires Placed(vm, [Instruction.Call(|vs|)]) && vm.current.stack == st + [cv] + vs
    requires ValueOk(w, tv, cv, vm.mem.heap) && ValuesOk(w, svs, vs, vm.mem.heap)
    ensures var s1 := s.(frames := s.frames + [T.CallFrame(tv.frame, tv.params, tv.body, svs)]);
      && Ready(w1, program, env, s1, |s.frames|, vm1) && WorldGrows(w, w1) && HeapGrows(vm.mem.heap, vm1.mem.heap)
    ensures Step(vm) == Running(vm1) && Reaches(vm, vm1)
    ensures vm1.current.ip == 0 && vm1.current.stack == [] && vm1.callers == vm.callers + [vm.current.(stack := st)]
    ensures WellFormed(Fun(tv.params, tv.body), Needed(s.rules)) && OkBlock(tv.body, env, 0)
    ensures env.fn.instructions == FunctionCode(tv.body, env) && (FindReturnBlock(tv.body) || NoneC in env.fn.constants)
  {
    hide Rel, ValuesOk, HeapGrows, HeapExtends, WorldGrows, Reaches, EnterFrame, ReferencesOk, OkBlock, WellFormedBlock, FunctionCode, Step;
    var FunctionV(parent, params, body) := tv;
    var ClosureW(fn, free) := Look(vm.mem.heap, cv);
    ValueCount(w, svs, vs, vm.mem.heap);
    NewFrameOk(w, program, s, vm.mem, parent, params, body, fn, free, svs, vs);
    w1 := w.(frames := w.frames[|s.frames| := CallInfo(w, vm.mem, parent, body, fn)]);
    env := BodyEnv(body, fn, w.frames[parent].env);
    vm1 := Machine(vm.names, vm.global, vm.callers + [vm.current.(stack := st)], Activation(fn, 0, vm.mem.next, []),
                   EnterFrame(vm.mem, fn, free, vs));
    CallEnters(vm, fn, free, st, cv, vs);
    ExtendsGrows(vm.mem.heap, vm1.mem.heap);
    OutOfRel(w, program, s, vm.mem);
  }

  lemma {:induction false} CallEnters(vm: Machine, fn: Function, free: seq<Addr>, st: seq<Value>, cv: Value, vs: seq<Value>)
    requires Placed(vm, [Instruction.Call(|vs|)]) && vm.current.stack == st + [cv] + vs
    requires Look(vm.mem.heap, cv) == ClosureW(fn, free) && fn.builtin == Compiled
    requires fn.parameterCount == |vs| <= |fn.localVars|
    ensures var vm1 := Machine(vm.names, vm.global, vm.callers + [vm.current.(stack := st)],
                               Activation(fn, 0, vm.mem.next, []), EnterFrame(vm.mem, fn, free, vs));
      Step(vm) == Running(vm1) && Reaches(vm, vm1)
  {
    hide EnterFrame;
    PlacedHead(vm, Instruction.Call(|vs|));
    OperandsOfCall(st, cv, vs);
    ReachesStep(vm, Machine(vm.names, vm.global, vm.callers + [vm.current.(stack := st)],
                            Activation(fn, 0, vm.mem.next, []), EnterFrame(vm.mem, fn, free, vs)));
  }

  /** A body that runs to its end goes on with the implicit return. */
  lemma {:induction false} AtTheEnd(w: World, program: Function, vm: Machine, fn: Function, n: nat, s: T.Store, m: Memory)
    requires vm.current.fn == fn && NoneC in fn.constants && Arrives(w, program, vm, n, [], s, m)
    requires PlacedAt(fn.instructions, n, LoadConstant(fn, NoneC) + [Instruction.Return])
    ensures Yields(w, program, vm, |fn.instructions| + 1, [], s, T.NoneV, NONE, m)
  {
    hide Rel, ValueOk, HeapGrows, Reaches, IndexOf;
    assert [] + [NONE] == [NONE];
    NoneOk(w, m.heap);
    ReturnsNone(At(vm, n, [], m), fn);
    ReachesTransitive(vm, At(vm, n, [], m), At(vm, |fn.instructions| + 1, [NONE], m));
  }

  /** A function body, with the `return None` that is appended when the body is
      not found to return. */
  lemma {:induction false} SimBody(body: seq<Stmt>, w: World, program: Function, env: Env, s: T.Store, f: nat, fuel: nat, vm: Machine)
    returns (w': World, v: Value, m': Memory)
    requires Ready(w, program, env, s, f, vm) && vm.current.ip == 0 && vm.current.stack == []
    requires WellFormedBlock(body, Needed(s.rules)) && OkBlock(body, env, 0)
    requires env.fn.instructions == FunctionCode(body, env)
    requires FindReturnBlock(body) || NoneC in env.fn.constants
    requires T.ExecBlock(body, s, f, fuel).Ok? && !T.ExecBlock(body, s, f, fuel).value.1.strayed
    requires FindReturnBlock(body) ==> T.ExecBlock(body, s, f, fuel).value.0.Returned?
    ensures WorldGrows(w, w')
    ensures var (flow, s') := T.ExecBlock(body, s, f, fuel).value;
      Yields(w', program, vm, |env.fn.instructions| + 1, [], s', if flow.Returned? then flow.value else T.NoneV, v, m')
    decreases fuel, body, 1
  {
    hide Rel, ValueOk, HeapGrows, WorldGrows, Reaches, OkBlock, WellFormedBlock, T.ExecBlock, CodeBlock, IndexOf;
    var (flow, s') := T.ExecBlock(body, s, f, fuel).value;
    var a := CodeBlock(body, env, 0);
    var instrs := env.fn.instructions;
    var b := if FindReturnBlock(body) then [] else LoadConstant(env.fn, NoneC) + [Instruction.Return];
    assert instrs[0..|instrs|] == instrs && instrs == a + b;
    PlacedSplit(instrs, 0, a, b);
    w', v, m' := SimBlock(body, w, program, env, s, f, fuel, vm, 0);
    if flow.Normal? {
      v := NONE;
      AtTheEnd(w', program, vm, env.fn, |a|, s', m');
    }
  }

  lemma {:induction false} ReturnsNone(vm: Machine, fn: Function)
    requires vm.current.fn == fn && vm.current.stack == [] && NoneC in fn.constants
    requires Placed(vm, LoadConstant(fn, NoneC) + [Instruction.Return])
    ensures Reaches(vm, At(vm, |fn.instructions| + 1, [NONE], vm.mem))
  {
    hide Reaches;
    var ip := vm.current.ip;
    assert vm.current.stack + [NONE] == [NONE];
    PlacedSplit(fn.instructions, ip, LoadConstant(fn, NoneC), [Instruction.Return]);
    Plain(vm, LoadConst(IndexOf(fn.constants, NoneC)), [NONE], vm.mem);
    var vm1 := At(vm, ip + 1, [NONE], vm.mem);
    Leave(vm1);
    ReachesTransitive(vm, vm1, At(vm, |fn.instructions| + 1, [NONE], vm.mem));
  }

  // ---------------------------------------------------------------- statements

  /** Running the code of a statement: it leaves through its own end with the
      operand stack as it was, or through a return with the value on top. */
  ghost predicate Executes(w: World, w': World, program: Function, vm: Machine, len: nat,
      s: T.Store, flow: T.Flow, v: Value, m: Memory) {
    && WorldGrows(w, w')
    && match flow
       case Normal => Arrives(w', program, vm, vm.current.ip + len, vm.current.stack, s, m)
       case Returned(sv) => Yields(w', program, vm, |vm.current.fn.instructions| + 1, vm.current.stack, s, sv, v, m)
  }

  lemma {:induction false} ExecutesVia(w: World, w1: World, w': World, program: Function, vm: Machine, ip1: int, m1: Memory,
      len1: nat, len: nat, s: T.Store, flow: T.Flow, v: Value, m: Memory)
    requires WorldGrows(w, w1) && HeapGrows(vm.mem.heap, m1.heap) && Reaches(vm, At(vm, ip1, vm.current.stack, m1))
    requires Executes(w1, w', program, At(vm, ip1, vm.current.stack, m1), len1, s, flow, v, m)
    requires flow.Normal? ==> ip1 + len1 == vm.current.ip + len
    ensures Executes(w, w', program, vm, len, s, flow, v, m)
  {
    hide Yields, Arrives, WorldGrows, HeapGrows, Reaches;
    WorldGrowsTransitive(w, w1, w');
    match flow
    case Normal => ArrivesVia(w', program, vm, ip1, vm.current.stack, m1, ip1 + len1, vm.current.stack, s, m);
    case Returned(sv) =>
      YieldsVia(w', program, vm, ip1, vm.current.stack, m1, |vm.current.fn.instructions| + 1, vm.current.stack, s, sv, v, m);
  }

  lemma {:induction false} SimBlock(cs: seq<Stmt>, w: World, program: Function, env: Env, s: T.Store, f: nat, fuel: nat, vm: Machine, k: nat)
    returns (w': World, v: Value, m': Memory)
    requires Ready(w, program, env, s, f, vm)
    requires WellFormedBlock(cs, Needed(s.rules)) && OkBlock(cs, env, k) && Placed(vm, CodeBlock(cs, env, k))
    requires T.ExecBlock(cs, s, f, fuel).Ok? && !T.ExecBlock(cs, s, f, fuel).value.1.strayed
    ensures var (flow, s') := T.ExecBlock(cs, s, f, fuel).value; Executes(w, w', program, vm, |CodeBlock(cs, env, k)|, s', flow, v, m')
    decreases fuel, cs, 0
  {
    hide Rel, ValueOk, HeapGrows, WorldGrows, Reaches, T.Exec, CodeStmt, OkStmt, WellFormedStmt;
    if cs == [] {
      w', v, m' := w, NONE, vm.mem;
      StayPut(w, program, s, vm);
    } else {
      var (flow, s1) := T.Exec(cs[0], s, f, fuel).value;
      var a, b := CodeStmt(cs[0], env, k), CodeBlock(cs[1..], env, k + LiteralsStmt(cs[0]));
      var ip := vm.current.ip;
      PlacedSplit(vm.current.fn.instructions, ip, a, b);
      var w1, v1, m1 := SimStmt(cs[0], w, program, env, s, f, fuel, vm, k);
      if flow.Returned? {
        w', v, m' := w1, v1, m1;
      } else {
        ReadyAt(w, w1, program, env, s1, f, vm, ip + |a|, vm.current.stack, m1);
        w', v, m' := SimBlock(cs[1..], w1, program, env, s1, f, fuel, At(vm, ip + |a|, vm.current.stack, m1), k + LiteralsStmt(cs[0]));
        var (flow', s') := T.ExecBlock(cs, s, f, fuel).value;
        ExecutesVia(w, w1, w', program, vm, ip + |a|, m1, |b|, |a| + |b|, s', flow', v, m');
      }
    }
  }

  lemma {:induction false} StayPut(w: World, program: Function, s: T.Store, vm: Machine)
    requires Rel(w, program, s, vm.mem)
    ensures WorldGrows(w, w) && Arrives(w, program, vm, vm.current.ip, vm.current.stack, s, vm.mem)
  {
    hide Rel;
    assert At(vm, vm.current.ip, vm.current.stack, vm.mem) == vm;
    ReachesSelf(vm);
    HeapGrowsReflexive(vm.mem.heap);
  }

  lemma {:induction false} SimStmt(c: Stmt, w: World, program: Function, env: Env, s: T.Store, f: nat, fuel: nat, vm: Machine, k: nat)
    returns (w': World, v: Value, m': Memory)
    requires Ready(w, program, env, s, f, vm)
    requires WellFormedStmt(c, Needed(s.rules)) && OkStmt(c, env, k) && Placed(vm, CodeStmt(c, env, k))
    requires T.Exec(c, s, f, fuel).Ok? && !T.Exec(c, s, f, fuel).value.1.strayed
    ensures var (flow, s') := T.Exec(c, s, f, fuel).value; Executes(w, w', program, vm, |CodeStmt(c, env, k)|, s', flow, v, m')
    decreases fuel, c, 1
  {
    hide Ready, Placed, Yields, Arrives, WorldGrows, Rel, ValueOk, HeapGrows, Reaches, OkStmt, WellFormedStmt;
    hide T.ExecAssignVar, T.ExecAssignField, T.ExecAssignIndex, T.ExecCallStmt, T.ExecIf, T.ExecIfElse, T.ExecWhile, T.ExecReturn;
    hide CodeAssignVar, CodeAssignField, CodeAssignIndex, CodeCallStmt, CodeIf, CodeIfElse, CodeWhile, CodeReturn;
    match c
    case Global(_) =>
      w', v, m' := w, NONE, vm.mem;
      Idle(w, program, env, s, f, vm);
    case AssignVar(_, _) => w', v, m' := SimAssignVar(c, w, program, env, s, f, fuel, vm, k);
    case AssignField(_, _, _) => w', v, m' := SimAssignField(c, w, program, env, s, f, fuel, vm, k);
    case AssignIndex(_, _, _) => w', v, m' := SimAssignIndex(c, w, program, env, s, f, fuel, vm, k);
    case CallStmt(_) => w', v, m' := SimCallStmt(c, w, program, env, s, f, fuel, vm, k);
    case If(_, _) => w', v, m' := SimIf(c, w, program, env, s, f, fuel, vm, k);
    case IfElse(_, _, _) => w', v, m' := SimIfElse(c, w, program, env, s, f, fuel, vm, k);
    case While(_, _) => w', v, m' := SimWhile(c, w, program, env, s, f, fuel, vm, k);
    case Return(_) => w', v, m' := SimReturn(c, w, program, env, s, f, fuel, vm, k);
  }

  lemma {:induction false} Idle(w: World, program: Function, env: Env, s: T.Store, f: nat, vm: Machine)
    requires Ready(w, program, env, s, f, vm)
    ensures WorldGrows(w, w) && Arrives(w, program, vm, vm.current.ip, vm.current.stack, s, vm.mem)
  {
    StayPut(w, program, s, vm);
  }

  /** The store behind the right-hand side reaches the frame found before it. */
  lemma {:induction false} StoreAfter(w: World, w': World, program: Function, env: Env, s: T.Store, s1: T.Store, f: nat, vm: Machine,
      n: nat, x: string, sv: T.Value, v: Value, m1: Memory, instr: Instruction)
    returns (m': Memory)
    requires Ready(w, program, env, s, f, vm) && Computes(w, w', program, vm, n, s1, sv, v, m1)
    requires PlacedAt(vm.current.fn.instructions, vm.current.ip + n, [instr]) && Assignable(env, x) && Resolve(env, x) != FreePlace
    requires Resolve(env, x) == GlobalPlace ==> HasGlobal(env, x)
    requires instr == if Resolve(env, x) == LocalPlace then StoreLocal(IndexOf(env.fn.localVars, x))
                      else StoreGlobal(IndexOf(env.fn.names, x))
    ensures f < |s.frames| && f < |s1.frames| && T.LookupWrite(s, f, x) == T.LookupWrite(s1, f, x) < |s1.frames|
    ensures Arrives(w', program, vm, vm.current.ip + n + 1, vm.current.stack, T.WriteVar(s1, T.LookupWrite(s, f, x), x, sv), m')
  {
    hide Rel, ValueOk, HeapGrows, WorldGrows, Reaches, IndexOf, Assignable, HasGlobal, Resolve, T.LookupWrite;
    var ip, st := vm.current.ip + n, vm.current.stack;
    ReadyAt(w, w', program, env, s1, f, vm, ip, st + [v], m1);
    m' := StoreStep(w', program, env, s1, f, At(vm, ip, st + [v], m1), x, st, sv, v, instr);
    SameTarget(w, w', program, env, s, s1, f, vm.mem, m1, x);
    ArrivesVia(w', program, vm, ip, st + [v], m1, ip + 1, st, T.WriteVar(s1, T.LookupWrite(s1, f, x), x, sv), m');
  }

  lemma {:induction false} SimAssignVar(c: Stmt, w: World, program: Function, env: Env, s: T.Store, f: nat, fuel: nat, vm: Machine, k: nat)
    returns (w': World, v: Value, m': Memory)
    requires c.AssignVar?
    requires Ready(w, program, env, s, f, vm)
    requires WellFormedStmt(c, Needed(s.rules)) && OkStmt(c, env, k) && Placed(vm, CodeAssignVar(c, env, k))
    requires T.ExecAssignVar(c, s, f, fuel).Ok? && !T.ExecAssignVar(c, s, f, fuel).value.1.strayed
    ensures var (flow, s') := T.ExecAssignVar(c, s, f, fuel).value; Executes(w, w', program, vm, |CodeAssignVar(c, env, k)|, s', flow, v, m')
    decreases fuel, c, 0
  {
    hide Rel, ValueOk, HeapGrows, WorldGrows, Reaches, T.Eval, Code, Ok, WellFormed, IndexOf, Needed, T.LookupWrite, Literals,
      LiteralsBlock, CallFree, Arrives;
    var AssignVar(x, e) := c;
    var (sv, s1) := T.Eval(e, s, f, fuel).value;
    var a := Code(e, env, k);
    var instr := if Resolve(env, x) == LocalPlace then StoreLocal(IndexOf(env.fn.localVars, x))
                 else StoreGlobal(IndexOf(env.fn.names, x));
    PlacedSplit(vm.current.fn.instructions, vm.current.ip, a, [instr]);
    var m1;
    w', v, m1 := SimExpr(e, w, program, env, s, f, fuel, vm, k);
    m' := StoreAfter(w, w', program, env, s, s1, f, vm, |a|, x, sv, v, m1, instr);
  }

  /** A frame's set of declared globals is fixed by its function. */
  lemma {:induction false} SameTarget(w: World, w': World, program: Function, env: Env, s: T.Store, s': T.Store, f: nat,
      m: Memory, m': Memory, x: string)
    requires f in w.frames && WorldGrows(w, w') && Rel(w, program, s, m) && Rel(w', program, s', m')
    ensures f < |s.frames| && f < |s'.frames| && T.LookupWrite(s, f, x) == T.LookupWrite(s', f, x)
  {
    hide Rel, GlobalsOk, LocalsOk, SlotsOk;
    FrameOfRel(w, program, s, m, f);
    FrameOfRel(w', program, s', m', f);
  }

  lemma {:induction false} SimAssignField(c: Stmt, w: World, program: Function, env: Env, s: T.Store, f: nat, fuel: nat, vm: Machine, k: nat)
    returns (w': World, v: Value, m': Memory)
    requires c.AssignField?
    requires Ready(w, program, env, s, f, vm)
    requires WellFormedStmt(c, Needed(s.rules)) && OkStmt(c, env, k) && Placed(vm, CodeAssignField(c, env, k))
    requires T.ExecAssignField(c, s, f, fuel).Ok? && !T.ExecAssignField(c, s, f, fuel).value.1.strayed
    ensures var (flow, s') := T.ExecAssignField(c, s, f, fuel).value; Executes(w, w', program, vm, |CodeAssignField(c, env, k)|, s', flow, v, m')
    decreases fuel, c, 0
  {
    hide Rel, ValueOk, HeapGrows, WorldGrows, Reaches, T.Eval, Code, Ok, WellFormed;
    var AssignField(b, name, e) := c;
    var (bv, s1) := T.Eval(b, s, f, fuel).value;
    var (sv, s2) := T.Eval(e, s1, f, fuel).value;
    var x, y := Code(b, env, k), Code(e, env, k + Literals(b));
    var ip, st := vm.current.ip, vm.current.stack;
    PlacedSplit3(vm.current.fn.instructions, ip, x, y, [FieldStore(IndexOf(env.fn.names, name))]);
    var w1, v1, m1 := SimExpr(b, w, program, env, s, f, fuel, vm, k);
    ReadyAt(w, w1, program, env, s1, f, vm, ip + |x|, st + [v1], m1);
    var m2;
    w', v, m2 := SimExpr(e, w1, program, env, s1, f, fuel, At(vm, ip + |x|, st + [v1], m1), k + Literals(b));
    Both(w, w1, w', program, vm, |x|, |y|, s1, bv, v1, m1, s2, sv, v, m2);
    ReadyAt(w, w', program, env, s2, f, vm, ip + |x| + |y|, st + [v1, v], m2);
    m' := FieldStoreStep(w', program, env, s2, f, At(vm, ip + |x| + |y|, st + [v1, v], m2), name, st, bv.id, v1, sv, v);
    ArrivesVia(w', program, vm, ip + |x| + |y|, st + [v1, v], m2, ip + |x| + |y| + 1, st, T.WriteRecord(s2, bv.id, name, sv), m');
  }

  lemma {:induction false} SimAssignIndex(c: Stmt, w: World, program: Function, env: Env, s: T.Store, f: nat, fuel: nat, vm: Machine, k: nat)
    returns (w': World, v: Value, m': Memory)
    requires c.AssignIndex?
    requires Ready(w, program, env, s, f, vm)
    requires WellFormedStmt(c, Needed(s.rules)) && OkStmt(c, env, k) && Placed(vm, CodeAssignIndex(c, env, k))
    requires T.ExecAssignIndex(c, s, f, fuel).Ok? && !T.ExecAssignIndex(c, s, f, fuel).value.1.strayed
    ensures var (flow, s') := T.ExecAssignIndex(c, s, f, fuel).value; Executes(w, w', program, vm, |CodeAssignIndex(c, env, k)|, s', flow, v, m')
    decreases fuel, c, 0
  {
    hide Rel, ValueOk, HeapGrows, WorldGrows, Reaches, T.Eval, Code, Ok, WellFormed, Literals, MemoryOk, InFrame, FunctionOk;
    hide T.Cast;
    var AssignIndex(b, i, e) := c;
    var (bv, s1) := T.Eval(b, s, f, fuel).value;
    var (iv, s2) := T.Eval(i, s1, f, fuel).value;
    var (sv, s3) := T.Eval(e, s2, f, fuel).value;
    var x, y, z := Code(b, env, k), Code(i, env, k + Literals(b)), Code(e, env, k + Literals(b) + Literals(i));
    var ip, st := vm.current.ip, vm.current.stack;
    PlacedSplit(vm.current.fn.instructions, ip, x + y + z, [IndexStore]);
    PlacedSplit3(vm.current.fn.instructions, ip, x, y, z);
    var w1, v1, m1 := SimExpr(b, w, program, env, s, f, fuel, vm, k);
    ReadyAt(w, w1, program, env, s1, f, vm, ip + |x|, st + [v1], m1);
    var w2, v2, m2 := SimExpr(i, w1, program, env, s1, f, fuel, At(vm, ip + |x|, st + [v1], m1), k + Literals(b));
    Both(w, w1, w2, program, vm, |x|, |y|, s1, bv, v1, m1, s2, iv, v2, m2);
    ReadyAt(w, w2, program, env, s2, f, vm, ip + |x| + |y|, st + [v1, v2], m2);
    var m3;
    w', v, m3 := SimExpr(e, w2, program, env, s2, f, fuel, At(vm, ip + |x| + |y|, st + [v1, v2], m2), k + Literals(b) + Literals(i));
    WorldGrowsTransitive(w, w2, w');
    assert st + [v1, v2] + [v] == st + [v1, v2, v];
    ValueStable(w2, w', bv, v1, m2.heap, m3.heap);
    ValueStable(w2, w', iv, v2, m2.heap, m3.heap);
    ArrivesVia(w', program, vm, ip + |x| + |y|, st + [v1, v2], m2, ip + |x| + |y| + |z|, st + [v1, v2, v], s3, m3);
    var name := T.Cast(iv, s3).value;
    ReadyAt(w, w', program, env, s3, f, vm, ip + |x| + |y| + |z|, st + [v1, v2, v], m3);
    m' := IndexStoreStep(w', program, env, s3, f, At(vm, ip + |x| + |y| + |z|, st + [v1, v2, v], m3), st, bv.id, v1, iv, v2, sv, v);
    ArrivesVia(w', program, vm, ip + |x| + |y| + |z|, st + [v1, v2, v], m3, ip + |x| + |y| + |z| + 1, st,
               T.WriteRecord(s3, bv.id, name, sv), m');
  }

  lemma {:induction false} SimCallStmt(c: Stmt, w: World, program: Function, env: Env, s: T.Store, f: nat, fuel: nat, vm: Machine, k: nat)
    returns (w': World, v: Value, m': Memory)
    requires c.CallStmt?
    requires Ready(w, program, env, s, f, vm)
    requires WellFormedStmt(c, Needed(s.rules)) && OkStmt(c, env, k) && Placed(vm, CodeCallStmt(c, env, k))
    requires T.ExecCallStmt(c, s, f, fuel).Ok? && !T.ExecCallStmt(c, s, f, fuel).value.1.strayed
    ensures var (flow, s') := T.ExecCallStmt(c, s, f, fuel).value; Executes(w, w', program, vm, |CodeCallStmt(c, env, k)|, s', flow, v, m')
    decreases fuel, c, 0
  {
    hide Rel, ValueOk, HeapGrows, WorldGrows, Reaches, T.Eval, Code, Ok, WellFormed;
    var CallStmt(e) := c;
    var (sv, s1) := T.Eval(e, s, f, fuel).value;
    var a := Code(e, env, k);
    var ip, st := vm.current.ip, vm.current.stack;
    PlacedSplit(vm.current.fn.instructions, ip, a, [Pop]);
    w', v, m' := SimExpr(e, w, program, env, s, f, fuel, vm, k);
    PopStep(At(vm, ip + |a|, st + [v], m'), st, v);
    ReachesTransitive(vm, At(vm, ip + |a|, st + [v], m'), At(vm, ip + |a| + 1, st, m'));
  }

  lemma {:induction false} SimReturn(c: Stmt, w: World, program: Function, env: Env, s: T.Store, f: nat, fuel: nat, vm: Machine, k: nat)
    returns (w': World, v: Value, m': Memory)
    requires c.Return?
    requires Ready(w, program, env, s, f, vm)
    requires WellFormedStmt(c, Needed(s.rules)) && OkStmt(c, env, k) && Placed(vm, CodeReturn(c, env, k))
    requires T.ExecReturn(c, s, f, fuel).Ok? && !T.ExecReturn(c, s, f, fuel).value.1.strayed
    ensures var (flow, s') := T.ExecReturn(c, s, f, fuel).value; Executes(w, w', program, vm, |CodeReturn(c, env, k)|, s', flow, v, m')
    decreases fuel, c, 0
  {
    hide Rel, ValueOk, HeapGrows, WorldGrows, Reaches, T.Eval, Code, Ok, WellFormed;
    var Return(e) := c;
    var (sv, s1) := T.Eval(e, s, f, fuel).value;
    var a := Code(e, env, k);
    var ip, st := vm.current.ip, vm.current.stack;
    PlacedSplit(vm.current.fn.instructions, ip, a, [Instruction.Return]);
    w', v, m' := SimExpr(e, w, program, env, s, f, fuel, vm, k);
    var vm1 := At(vm, ip + |a|, st + [v], m');
    Leave(vm1);
    ReachesTransitive(vm, vm1, At(vm, |vm.current.fn.instructions| + 1, st + [v], m'));
  }

  /** A negated condition and a branch over `offset - 1` instructions. */
  lemma {:induction false} Guard(w: World, w': World, program: Function, vm: Machine, len: nat, offset: int, s: T.Store, flag: bool, v: Value, m: Memory)
    requires Computes(w, w', program, vm, len, s, T.BoolV(flag), v, m)
    requires PlacedAt(vm.current.fn.instructions, vm.current.ip + len, [Not, Instruction.If(offset)])
    ensures Arrives(w', program, vm, vm.current.ip + len + 1 + (if flag then 1 else offset), vm.current.stack, s, m)
  {
    hide Rel, HeapGrows, WorldGrows, Reaches;
    var ip, st := vm.current.ip + len, vm.current.stack;
    assert [Not, Instruction.If(offset)] == [Not] + [Instruction.If(offset)];
    PlacedSplit(vm.current.fn.instructions, ip, [Not], [Instruction.If(offset)]);
    var vm1, vm2 := At(vm, ip, st + [v], m), At(vm, ip + 1, st + [Boolean(!flag)], m);
    NotStep(vm1, st, v, flag);
    Branch(vm2, offset, st, Boolean(!flag), !flag);
    ReachesTransitive(vm, vm1, vm2);
    ReachesTransitive(vm, vm2, At(vm, ip + 1 + (if flag then 1 else offset), st, m));
  }

  lemma {:induction false} SimIf(c: Stmt, w: World, program: Function, env: Env, s: T.Store, f: nat, fuel: nat, vm: Machine, k: nat)
    returns (w': World, v: Value, m': Memory)
    requires c.If?
    requires Ready(w, program, env, s, f, vm)
    requires WellFormedStmt(c, Needed(s.rules)) && OkStmt(c, env, k) && Placed(vm, CodeIf(c, env, k))
    requires T.ExecIf(c, s, f, fuel).Ok? && !T.ExecIf(c, s, f, fuel).value.1.strayed
    ensures var (flow, s') := T.ExecIf(c, s, f, fuel).value; Executes(w, w', program, vm, |CodeIf(c, env, k)|, s', flow, v, m')
    decreases fuel, c, 0
  {
    hide Rel, ValueOk, HeapGrows, WorldGrows, Reaches, T.Eval, Code, Ok, WellFormedBlock;
    hide T.ExecBlock, CodeBlock, OkBlock;
    var If(cond, thn) := c;
    var (cv, s1) := T.Eval(cond, s, f, fuel).value;
    var a, b := Code(cond, env, k), CodeBlock(thn, env, k + Literals(cond));
    var ip, st := vm.current.ip, vm.current.stack;
    PlacedSplit3(vm.current.fn.instructions, ip, a, [Not, Instruction.If(|b| + 1)], b);
    var w1, v1, m1 := SimExpr(cond, w, program, env, s, f, fuel, vm, k);
    Guard(w, w1, program, vm, |a|, |b| + 1, s1, cv.flag, v1, m1);
    if cv.flag {
      ReadyAt(w, w1, program, env, s1, f, vm, ip + |a| + 2, st, m1);
      w', v, m' := SimBlock(thn, w1, program, env, s1, f, fuel, At(vm, ip + |a| + 2, st, m1), k + Literals(cond));
      var (flow, s') := T.ExecIf(c, s, f, fuel).value;
      ExecutesVia(w, w1, w', program, vm, ip + |a| + 2, m1, |b|, |a| + 2 + |b|, s', flow, v, m');
    } else {
      w', v, m' := w1, v1, m1;
    }
  }

  /** A branch that falls through its end and jumps over the one behind it. */
  lemma {:induction false} ExecutesThenJump(w: World, w1: World, w': World, program: Function, vm: Machine, entry: int, m1: Memory,
      n: nat, skip: nat, len: nat, s: T.Store, flow: T.Flow, v: Value, m: Memory)
    requires WorldGrows(w, w1) && HeapGrows(vm.mem.heap, m1.heap) && Reaches(vm, At(vm, entry, vm.current.stack, m1))
    requires Executes(w1, w', program, At(vm, entry, vm.current.stack, m1), n, s, flow, v, m)
    requires PlacedAt(vm.current.fn.instructions, entry + n, [Goto(skip)]) && entry + n + skip == vm.current.ip + len
    ensures Executes(w, w', program, vm, len, s, flow, v, m)
  {
    hide Yields, Arrives, WorldGrows, HeapGrows, Reaches, PlacedAt;
    var vm1 := At(vm, entry, vm.current.stack, m1);
    if flow.Normal? { ThenJump(w', program, vm1, entry + n, skip, s, m); }
    ExecutesVia(w, w1, w', program, vm, entry, m1, n + skip, len, s, flow, v, m);
  }

  lemma {:induction false} SimIfElse(c: Stmt, w: World, program: Function, env: Env, s: T.Store, f: nat, fuel: nat, vm: Machine, k: nat)
    returns (w': World, v: Value, m': Memory)
    requires c.IfElse?
    requires Ready(w, program, env, s, f, vm)
    requires WellFormedStmt(c, Needed(s.rules)) && OkStmt(c, env, k) && Placed(vm, CodeIfElse(c, env, k))
    requires T.ExecIfElse(c, s, f, fuel).Ok? && !T.ExecIfElse(c, s, f, fuel).value.1.strayed
    ensures var (flow, s') := T.ExecIfElse(c, s, f, fuel).value; Executes(w, w', program, vm, |CodeIfElse(c, env, k)|, s', flow, v, m')
    decreases fuel, c, 0
  {
    hide Rel, ValueOk, HeapGrows, WorldGrows, Reaches, T.Eval, Code, Ok, WellFormed, WellFormedBlock, Literals, LiteralsBlock, CallFree;
    hide T.ExecBlock, CodeBlock, OkBlock;
    var IfElse(cond, thn, els) := c;
    var (cv, s1) := T.Eval(cond, s, f, fuel).value;
    var k1, k2 := k + Literals(cond), k + Literals(cond) + LiteralsBlock(thn);
    var a, b, d := Code(cond, env, k), CodeBlock(thn, env, k1), CodeBlock(els, env, k2);
    var ip, st := vm.current.ip, vm.current.stack;
    IfElsePlaced(vm.current.fn.instructions, ip, a, d, b);
    var w1, v1, m1 := SimExpr(cond, w, program, env, s, f, fuel, vm, k);
    Choice(w, w1, program, vm, |a|, |d| + 2, s1, cv.flag, v1, m1);
    var (flow, s') := T.ExecIfElse(c, s, f, fuel).value;
    var entry := ip + |a| + (if cv.flag then |d| + 2 else 1);
    ReadyAt(w, w1, program, env, s1, f, vm, entry, st, m1);
    if cv.flag {
      w', v, m' := SimBlock(thn, w1, program, env, s1, f, fuel, At(vm, entry, st, m1), k1);
      ExecutesVia(w, w1, w', program, vm, entry, m1, |b|, |a| + 2 + |d| + |b|, s', flow, v, m');
    } else {
      w', v, m' := SimBlock(els, w1, program, env, s1, f, fuel, At(vm, entry, st, m1), k2);
      ExecutesThenJump(w, w1, w', program, vm, entry, m1, |d|, |b| + 1, |a| + 2 + |d| + |b|, s', flow, v, m');
    }
  }

  lemma {:induction false} IfElsePlaced(instrs: seq<Instruction>, ip: int, a: seq<Instruction>, d: seq<Instruction>, b: seq<Instruction>)
    requires PlacedAt(instrs, ip, a + [Instruction.If(|d| + 2)] + (d + [Goto(|b| + 1)]) + b)
    ensures PlacedAt(instrs, ip, a) && PlacedAt(instrs, ip + |a|, [Instruction.If(|d| + 2)])
    ensures PlacedAt(instrs, ip + |a| + 1, d) && PlacedAt(instrs, ip + |a| + 1 + |d|, [Goto(|b| + 1)])
    ensures PlacedAt(instrs, ip + |a| + |d| + 2, b)
  {
    hide PlacedAt;
    PlacedSplit3(instrs, ip, a + [Instruction.If(|d| + 2)], d + [Goto(|b| + 1)], b);
    PlacedSplit(instrs, ip, a, [Instruction.If(|d| + 2)]);
    PlacedSplit(instrs, ip + |a| + 1, d, [Goto(|b| + 1)]);
  }

  /** A branch on a condition just computed. */
  lemma {:induction false} Choice(w: World, w': World, program: Function, vm: Machine, len: nat, offset: int, s: T.Store, flag: bool, v: Value, m: Memory)
    requires Computes(w, w', program, vm, len, s, T.BoolV(flag), v, m)
    requires PlacedAt(vm.current.fn.instructions, vm.current.ip + len, [Instruction.If(offset)])
    ensures Arrives(w', program, vm, vm.current.ip + len + (if flag then offset else 1), vm.current.stack, s, m)
  {
    hide Rel, HeapGrows, WorldGrows, Reaches;
    var vm1 := At(vm, vm.current.ip + len, vm.current.stack + [v], m);
    Branch(vm1, offset, vm.current.stack, v, flag);
    ReachesTransitive(vm, vm1, At(vm, vm.current.ip + len + (if flag then offset else 1), vm.current.stack, m));
  }

  lemma {:induction false} ThenJump(w: World, program: Function, vm: Machine, ip: int, offset: int, s: T.Store, m: Memory)
    requires Arrives(w, program, vm, ip, vm.current.stack, s, m)
    requires PlacedAt(vm.current.fn.instructions, ip, [Goto(offset)])
    ensures Arrives(w, program, vm, ip + offset, vm.current.stack, s, m)
  {
    hide Rel, HeapGrows, Reaches;
    var vm1 := At(vm, ip, vm.current.stack, m);
    Jump(vm1, offset);
    ReachesTransitive(vm, vm1, At(vm, ip + offset, vm.current.stack, m));
  }

  lemma {:induction false} SimWhile(c: Stmt, w: World, program: Function, env: Env, s: T.Store, f: nat, fuel: nat, vm: Machine, k: nat)
    returns (w': World, v: Value, m': Memory)
    requires c.While?
    requires Ready(w, program, env, s, f, vm)
    requires WellFormedStmt(c, Needed(s.rules)) && OkStmt(c, env, k) && Placed(vm, CodeWhile(c, env, k))
    requires T.ExecWhile(c, s, f, fuel).Ok? && !T.ExecWhile(c, s, f, fuel).value.1.strayed
    ensures var (flow, s') := T.ExecWhile(c, s, f, fuel).value; Executes(w, w', program, vm, |CodeWhile(c, env, k)|, s', flow, v, m')
    decreases fuel, c, 0
  {
    hide Rel, ValueOk, HeapGrows, WorldGrows, Reaches, T.Eval, Code, Ok, WellFormedBlock, IndexOf, WellFormed, Literals, LiteralsBlock, CallFree;
    hide T.ExecBlock, T.Exec, CodeBlock, OkBlock;
    var While(cond, body) := c;
    var (cv, s1) := T.Eval(cond, s, f, fuel).value;
    var k1 := k + Literals(cond);
    var a, b := Code(cond, env, k), CodeBlock(body, env, k1);
    var ip, st, back := vm.current.ip, vm.current.stack, -(|a| + 2 + |b|);
    PlacedSplit(vm.current.fn.instructions, ip, a + [Not, Instruction.If(|b| + 2)] + b, [Goto(back)]);
    PlacedSplit3(vm.current.fn.instructions, ip, a, [Not, Instruction.If(|b| + 2)], b);
    var w1, v1, m1 := SimExpr(cond, w, program, env, s, f, fuel, vm, k);
    Guard(w, w1, program, vm, |a|, |b| + 2, s1, cv.flag, v1, m1);
    var entry := ip + |a| + 2;
    if !cv.flag {
      w', v, m' := w1, v1, m1;
    } else {
      var (flow1, s2) := T.ExecBlock(body, s1, f, fuel).value;
      var (flow, s') := T.ExecWhile(c, s, f, fuel).value;
      ReadyAt(w, w1, program, env, s1, f, vm, entry, st, m1);
      var w2, v2, m2 := SimBlock(body, w1, program, env, s1, f, fuel, At(vm, entry, st, m1), k1);
      if flow1.Returned? {
        w', v, m' := w2, v2, m2;
        ExecutesVia(w, w1, w', program, vm, entry, m1, |b|, |a| + 3 + |b|, s', flow, v, m');
      } else {
        ThenJump(w2, program, At(vm, entry, st, m1), entry + |b|, back, s2, m2);
        ArrivesVia(w2, program, vm, entry, st, m1, ip, st, s2, m2);
        WorldGrowsTransitive(w, w1, w2);
        ReadyAt(w, w2, program, env, s2, f, vm, ip, st, m2);
        w', v, m' := SimStmt(c, w2, program, env, s2, f, fuel - 1, At(vm, ip, st, m2), k);
        ExecutesVia(w, w2, w', program, vm, ip, m2, |a| + 3 + |b|, |a| + 3 + |b|, s', flow, v, m');
      }
    }
  }
}
