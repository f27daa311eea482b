/** The machine does not end well where the tree-walker raises: runs that have not
    finished after some number of rounds, and instructions that fail on operands
    related to ones the evaluator rejects. */
module FailingSteps {
  import opened Basics
  import opened Ast
  import T = TreeWalker
  import opened Bytecode
  import opened Codegen
  import opened Layout
  import opened Machine
  import opened Execution
  import opened Relation
  import opened RelationUpdates
  import opened RelationCalls
  import opened Rendering
  import opened SimulationSteps

  // ---------------------------------------------------------------- runs without an end

  ghost predicate Unfinished(n: nat, vm: Machine) {
    !Steps(n, vm).Finished?
  }

  lemma {:induction false} FinishedStays(n: nat, k: nat, vm: Machine)
    requires n <= k && Steps(n, vm).Finished?
    ensures Steps(k, vm) == Steps(n, vm)
    decreases n
  {
    hide Step;
    if n > 0 && Step(vm).Running? { FinishedStays(n - 1, k - 1, Step(vm).vm); }
  }

  lemma {:induction false} RunningBefore(n: nat, k: nat, vm: Machine)
    requires n <= k && Steps(k, vm).Running?
    ensures Steps(n, vm).Running?
    decreases n
  {
    hide Step;
    if n > 0 { RunningBefore(n - 1, k - 1, Step(vm).vm); }
  }

  lemma {:induction false} UnfinishedVia(n: nat, vm: Machine, vm1: Machine)
    requires Reaches(vm, vm1) && Unfinished(n, vm1)
    ensures Unfinished(n, vm)
  {
    hide Step, Steps;
    var j :| Steps(j, vm) == Running(vm1);
    if n < j {
      RunningBefore(n, j, vm);
    } else {
      StepsCompose(j, n - j, vm, vm1);
      if Steps(n - j, vm1).Finished? { FinishedStays(n - j, n, vm1); }
    }
  }

  /** ... with one round more on the way. */
  lemma {:induction false} UnfinishedAfter(n: nat, vm: Machine, vm1: Machine, vm2: Machine)
    requires Reaches(vm, vm1) && Step(vm1) == Running(vm2) && (n > 0 ==> Unfinished(n - 1, vm2))
    ensures Unfinished(n, vm)
  {
    hide Step, Reaches;
    UnfinishedVia(n, vm, vm1);
  }

  lemma {:induction false} Stuck(n: nat, vm: Machine)
    requires Step(vm) == Failed
    ensures Unfinished(n, vm)
  {
    hide Step;
  }

  // ---------------------------------------------------------------- instructions that fail

  lemma {:induction false} PlainStuck(vm: Machine, instr: Instruction)
    requires Placed(vm, [instr]) && IsPlain(instr)
    requires Operate(vm.names, vm.global, vm.current.fn, vm.current.frame, instr, vm.current.stack, vm.mem) == None
    ensures Step(vm) == Failed
  {
    hide Operate;
    PlacedHead(vm, instr);
  }

  lemma {:induction false} BranchStuck(w: World, vm: Machine, offset: int, st: seq<Value>, x: T.Value, v: Value)
    requires Placed(vm, [Instruction.If(offset)]) && vm.current.stack == st + [v]
    requires ValueOk(w, x, v, vm.mem.heap) && !x.BoolV?
    ensures Step(vm) == Failed
  {
    hide ClosureOk;
    PlacedHead(vm, Instruction.If(offset));
  }

  lemma {:induction false} UnaryStuck(w: World, vm: Machine, op: Operator, st: seq<Value>, x: T.Value, xv: Value)
    requires Placed(vm, [if op == SUB then Neg else Not]) && vm.current.stack == st + [xv]
    requires ValueOk(w, x, xv, vm.mem.heap) && T.UnaryOp(op, x).Err? && op in {SUB, NEG}
    ensures Step(vm) == Failed
  {
    hide ClosureOk, Placed, Step;
    PlainStuck(vm, if op == SUB then Neg else Not);
  }

  /** What the instruction sees behind a related value. */
  lemma {:induction false} Seen(w: World, x: T.Value, v: Value, h: Heap)
    requires ValueOk(w, x, v, h)
    ensures x.IntegerV? <==> Look(h, v).IntegerW?
    ensures x.BoolV? <==> Look(h, v).BoolW?
    ensures x.StringV? <==> Look(h, v).StringW?
    ensures x.IntegerV? ==> Look(h, v).int_ == x.int_
  {
    hide ClosureOk;
  }

  lemma {:induction false} SumRejects(w: World, program: Function, s: T.Store, m: Memory, l: T.Value, r: T.Value, lv: Value, rv: Value)
    requires Rel(w, program, s, m) && ValueOk(w, l, lv, m.heap) && ValueOk(w, r, rv, m.heap)
    requires T.Plus(l, r, s).Err?
    ensures AddValues(m, lv, rv) == None
  {
    hide Rel, ValueOk, Look, ToString, T.Cast;
    Seen(w, l, lv, m.heap);
    Seen(w, r, rv, m.heap);
    CastAgrees(w, program, s, m, l, lv);
    CastAgrees(w, program, s, m, r, rv);
  }

  /** Whatever the evaluator's operator rejects the instruction rejects too. */
  lemma {:induction false} BinaryRejects(w: World, program: Function, s: T.Store, m: Memory, op: Operator,
      l: T.Value, r: T.Value, lv: Value, rv: Value)
    requires Rel(w, program, s, m) && ValueOk(w, l, lv, m.heap) && ValueOk(w, r, rv, m.heap)
    requires op != NEG && T.BinaryOp(op, l, r, s).Err?
    ensures BinaryInstruction(OperatorInstruction(op), m, if Exchanged(op) then rv else lv, if Exchanged(op) then lv else rv) == None
  {
    hide Rel, ValueOk, ToString, T.Cast, EqualValues, AddValues, T.Plus, IntegerOp, BooleanOp, T.Arithmetic, T.Comparison, T.Logical;
    if op == PLUS { SumRejects(w, program, s, m, l, r, lv, rv); }
    else if op == AND || op == OR { LogicRejects(w, m, op, l, r, lv, rv); }
    else if op != EQ { NumbersReject(w, m, op, l, r, lv, rv); }
  }

  lemma {:induction false} LogicRejects(w: World, m: Memory, op: Operator, l: T.Value, r: T.Value, lv: Value, rv: Value)
    requires ValueOk(w, l, lv, m.heap) && ValueOk(w, r, rv, m.heap)
    requires (op == AND || op == OR) && T.Logical(op, l, r).Err?
    ensures BooleanOp(OperatorInstruction(op), m, lv, rv) == None
  {
    hide ValueOk, Look;
    Seen(w, l, lv, m.heap);
    Seen(w, r, rv, m.heap);
  }

  lemma {:induction false} NumbersReject(w: World, m: Memory, op: Operator, l: T.Value, r: T.Value, lv: Value, rv: Value)
    requires ValueOk(w, l, lv, m.heap) && ValueOk(w, r, rv, m.heap)
    requires op !in {PLUS, AND, OR, EQ, NEG}
    requires if op in {SUB, MUL, DIV} then T.Arithmetic(op, l, r).Err? else T.Comparison(op, l, r).Err?
    ensures IntegerOp(OperatorInstruction(op), m, if Exchanged(op) then rv else lv, if Exchanged(op) then lv else rv) == None
  {
    hide ValueOk, Look;
    Seen(w, l, lv, m.heap);
    Seen(w, r, rv, m.heap);
  }

  lemma {:induction false} BinaryStuck(w: World, program: Function, s: T.Store, vm: Machine, op: Operator, st: seq<Value>,
      l: T.Value, r: T.Value, lv: Value, rv: Value)
    requires Rel(w, program, s, vm.mem) && Placed(vm, [OperatorInstruction(op)])
    requires vm.current.stack == st + (if Exchanged(op) then [rv, lv] else [lv, rv])
    requires ValueOk(w, l, lv, vm.mem.heap) && ValueOk(w, r, rv, vm.mem.heap) && op != NEG && T.BinaryOp(op, l, r, s).Err?
    ensures Step(vm) == Failed
  {
    hide Rel, ValueOk, BinaryInstruction, Operate, Placed, Step, T.BinaryOp;
    var instr := OperatorInstruction(op);
    BinaryRejects(w, program, s, vm.mem, op, l, r, lv, rv);
    BinaryOperates(vm, instr, st, if Exchanged(op) then rv else lv, if Exchanged(op) then lv else rv);
    PlainStuck(vm, instr);
  }

  /** A record the relation knows can be read, whatever the field. */
  lemma {:induction false} RecordsRead(w: World, program: Function, s: T.Store, m: Memory, x: T.Value, xv: Value, field: string)
    requires Rel(w, program, s, m) && ValueOk(w, x, xv, m.heap)
    ensures T.ReadField(x, field, s).Ok? <==> x.RecordV?
    ensures x.RecordV? ==> x.id < |s.records|
  {
    hide FrameOk, ClosureOk, Rel;
    if x.RecordV? { RecordOfRelation(w, program, s, m, x.id); }
  }

  lemma {:induction false} NoRecordLooks(w: World, x: T.Value, xv: Value, h: Heap)
    requires ValueOk(w, x, xv, h) && !x.RecordV?
    ensures !Look(h, xv).RecordW?
  {
    hide ClosureOk;
  }

  /** Reading or storing a field of something that is no record, or whose index
      never renders. */
  lemma {:induction false} AccessOperates(names: seq<string>, global: Addr, fn: Function, frame: Addr, st: seq<Value>, a: Value, i: Value,
      v: Value, m: Memory, k: int)
    ensures !Look(m.heap, a).RecordW? ==>
      && Operate(names, global, fn, frame, FieldLoad(k), st + [a], m) == None
      && Operate(names, global, fn, frame, FieldStore(k), st + [a, v], m) == None
    ensures !Look(m.heap, a).RecordW? || ToString(m.heap, i, {}) == None ==>
      && Operate(names, global, fn, frame, IndexLoad, st + [a, i], m) == None
      && Operate(names, global, fn, frame, IndexStore, st + [a, i, v], m) == None
  {
    hide ToString, Look;
  }

  lemma {:induction false} FieldStuck(w: World, vm: Machine, k: int, st: seq<Value>, x: T.Value, xv: Value)
    requires Placed(vm, [FieldLoad(k)]) && vm.current.stack == st + [xv]
    requires ValueOk(w, x, xv, vm.mem.heap) && !x.RecordV?
    ensures Step(vm) == Failed
  {
    hide ValueOk, Operate, Placed, Step, ToString;
    NoRecordLooks(w, x, xv, vm.mem.heap);
    AccessOperates(vm.names, vm.global, vm.current.fn, vm.current.frame, st, xv, NONE, NONE, vm.mem, k);
    PlainStuck(vm, FieldLoad(k));
  }

  lemma {:induction false} FieldStoreStuck(w: World, vm: Machine, k: int, st: seq<Value>, x: T.Value, xv: Value, v: Value)
    requires Placed(vm, [FieldStore(k)]) && vm.current.stack == st + [xv, v]
    requires ValueOk(w, x, xv, vm.mem.heap) && !x.RecordV?
    ensures Step(vm) == Failed
  {
    hide ValueOk, Operate, Placed, Step, ToString;
    NoRecordLooks(w, x, xv, vm.mem.heap);
    AccessOperates(vm.names, vm.global, vm.current.fn, vm.current.frame, st, xv, NONE, v, vm.mem, k);
    PlainStuck(vm, FieldStore(k));
  }

  lemma {:induction false} IndexStuck(w: World, program: Function, s: T.Store, vm: Machine, st: seq<Value>, x: T.Value, xv: Value,
      i: T.Value, iv: Value)
    requires Rel(w, program, s, vm.mem) && Placed(vm, [IndexLoad]) && vm.current.stack == st + [xv, iv]
    requires ValueOk(w, x, xv, vm.mem.heap) && ValueOk(w, i, iv, vm.mem.heap) && (x.RecordV? ==> T.Cast(i, s).Err?)
    ensures Step(vm) == Failed
  {
    hide Rel, ValueOk, Operate, Placed, Step, ToString, T.Cast;
    if x.RecordV? { CastAgrees(w, program, s, vm.mem, i, iv); } else { NoRecordLooks(w, x, xv, vm.mem.heap); }
    AccessOperates(vm.names, vm.global, vm.current.fn, vm.current.frame, st, xv, iv, NONE, vm.mem, 0);
    PlainStuck(vm, IndexLoad);
  }

  lemma {:induction false} IndexStoreStuck(w: World, program: Function, s: T.Store, vm: Machine, st: seq<Value>, x: T.Value, xv: Value,
      i: T.Value, iv: Value, v: Value)
    requires Rel(w, program, s, vm.mem) && Placed(vm, [IndexStore]) && vm.current.stack == st + [xv, iv, v]
    requires ValueOk(w, x, xv, vm.mem.heap) && ValueOk(w, i, iv, vm.mem.heap) && (x.RecordV? ==> T.Cast(i, s).Err?)
    ensures Step(vm) == Failed
  {
    hide Rel, ValueOk, Operate, Placed, Step, ToString, T.Cast;
    if x.RecordV? { CastAgrees(w, program, s, vm.mem, i, iv); } else { NoRecordLooks(w, x, xv, vm.mem.heap); }
    AccessOperates(vm.names, vm.global, vm.current.fn, vm.current.frame, st, xv, iv, v, vm.mem, 0);
    PlainStuck(vm, IndexStore);
  }

  // ---------------------------------------------------------------- calls

  /** Calls the evaluator rejects before it enters a body. */
  ghost predicate Refused(tv: T.Value, svs: seq<T.Value>, s: T.Store) {
    match tv
    case FunctionV(_, params, _) => |svs| != |params|
    case NativeV(n) => |svs| != T.NativeArity(n) || n != T.Print || T.Cast(svs[0], s).Err?
    case _ => true
  }

  lemma {:induction false} CallOperands(vm: Machine, st: seq<Value>, cv: Value, vs: seq<Value>)
    requires Placed(vm, [Instruction.Call(|vs|)]) && vm.current.stack == st + [cv] + vs
    ensures Step(vm) == DoCall(vm, |vs|)
    ensures var all := vm.current.stack;
      var n := |all| - |vs|;
      0 < n && all[n..] == vs && all[n - 1] == cv
  {
    hide DoCall;
    PlacedHead(vm, Instruction.Call(|vs|));
  }

  lemma {:induction false} CallStuck(tv: T.Value, svs: seq<T.Value>, s: T.Store, w: World, program: Function, vm: Machine,
      st: seq<Value>, cv: Value, vs: seq<Value>)
    requires Refused(tv, svs, s) && Rel(w, program, s, vm.mem)
    requires Placed(vm, [Instruction.Call(|vs|)]) && vm.current.stack == st + [cv] + vs
    requires ValueOk(w, tv, cv, vm.mem.heap) && ValuesOk(w, svs, vs, vm.mem.heap)
    ensures Step(vm) == Failed
  {
    hide Rel, ToString, EnterFrame, T.Cast, Placed, Step, ReferencesOk;
    CallOperands(vm, st, cv, vs);
    if tv == T.NativeV(T.Print) && |svs| == 1 {
      PrintStuck(w, program, s, vm.mem, svs[0], vs[0]);
      assert vs == [vs[0]];
    }
  }

  lemma {:induction false} PrintStuck(w: World, program: Function, s: T.Store, m: Memory, sv: T.Value, v: Value)
    requires Rel(w, program, s, m) && ValueOk(w, sv, v, m.heap) && T.Cast(sv, s).Err?
    ensures ToString(EnterFrame(m, BuiltinFunction(PrintFunction), [], [v]).heap, v, {}) == None
  {
    hide Rel, HeapGrows, HeapExtends, ClosureOk, ToString, EnterFrame, T.Cast;
    var fn := BuiltinFunction(PrintFunction);
    var m1 := EnterFrame(m, fn, [], [v]);
    OutOfRel(w, program, s, m);
    EnterFrameOk(m, fn, [], [v]);
    assert StoreExtends(s, s);
    RelExtends(w, program, s, s, m, m1);
    WorldGrowsReflexive(w);
    ValueStable(w, w, sv, v, m.heap, m1.heap);
    CastAgrees(w, program, s, m1, sv, v);
  }
}
