/** The instructions that end an expression or a statement, run from related
    states with related operands on the stack. */
module SimulationSteps {
  import opened Basics
  import opened Ast
  import T = TreeWalker
  import opened Bytecode
  import opened Codegen
  import opened Layout
  import opened Machine
  import opened Execution
  import opened Relation
  import opened RelationUpdates
  import opened RelationCalls
  import opened LexicalAddressing
  import opened Rendering

  /** The machine is executing the function tree-walker frame `f` belongs to. */
  ghost predicate InFrame(w: World, program: Function, env: Env, f: nat, vm: Machine) {
    && f in w.frames && w.frames[f].env == env
    && vm.current.frame == w.frames[f].addr && vm.current.fn == env.fn
    && vm.names == program.names && vm.global == 0
  }

  ghost predicate Ready(w: World, program: Function, env: Env, s: T.Store, f: nat, vm: Machine) {
    InFrame(w, program, env, f, vm) && Rel(w, program, s, vm.mem)
  }

  /** A run from `vm` to `ip` that leaves `v`, the value of `sv`, on top of `st`. */
  ghost predicate Yields(w: World, program: Function, vm: Machine, ip: int, st: seq<Value>,
      s: T.Store, sv: T.Value, v: Value, m: Memory) {
    && Reaches(vm, At(vm, ip, st + [v], m))
    && HeapGrows(vm.mem.heap, m.heap)
    && Rel(w, program, s, m) && ValueOk(w, sv, v, m.heap)
  }

  /** A run from `vm` to `ip` that leaves `st`. */
  ghost predicate Arrives(w: World, program: Function, vm: Machine, ip: int, st: seq<Value>, s: T.Store, m: Memory) {
    && Reaches(vm, At(vm, ip, st, m))
    && HeapGrows(vm.mem.heap, m.heap)
    && Rel(w, program, s, m)
  }

  // ---------------------------------------------------------------- variables

  lemma {:induction false} LocalStep(w: World, program: Function, env: Env, s: T.Store, f: nat, vm: Machine, x: string) returns (v: Value)
    requires Ready(w, program, env, s, f, vm) && Placed(vm, [LoadLocal(IndexOf(env.fn.localVars, x))])
    requires Resolve(env, x) == LocalPlace
    ensures Yields(w, program, vm, vm.current.ip + 1, vm.current.stack, s, T.LookupCompiled(s, f, x), v, vm.mem)
  {
    hide Rel, ValueOk, HeapGrows, Reaches;
    LookupFindsCell(w, program, s, vm.mem, f, x);
    HeapGrowsReflexive(vm.mem.heap);
    var i := IndexOf(env.fn.localVars, x);
    v := vm.mem.heap[vm.current.frame].locals[i];
    Plain(vm, LoadLocal(i), vm.current.stack + [v], vm.mem);
  }

  lemma {:induction false} GlobalStep(w: World, program: Function, env: Env, s: T.Store, f: nat, vm: Machine, x: string) returns (v: Value)
    requires Ready(w, program, env, s, f, vm) && Placed(vm, [LoadGlobal(IndexOf(env.fn.names, x))])
    requires Resolve(env, x) == GlobalPlace && HasGlobal(env, x)
    ensures Yields(w, program, vm, vm.current.ip + 1, vm.current.stack, s, T.LookupCompiled(s, f, x), v, vm.mem)
  {
    hide Rel, ValueOk, HeapGrows, Reaches;
    FrameBound(w, program, s, vm.mem, f);
    LookupFindsCell(w, program, s, vm.mem, f, x);
    HeapGrowsReflexive(vm.mem.heap);
    var i := IndexOf(env.fn.names, x);
    assert GlobalSlot(vm.names, env.fn.names[i]) == IndexOf(program.names, x);
    v := vm.mem.heap[0].locals[IndexOf(program.names, x)];
    Plain(vm, LoadGlobal(i), vm.current.stack + [v], vm.mem);
  }

  /** A value read through the reference in a slot of the frame. */
  lemma {:induction false} ThroughReference(vm: Machine, slot: int, r: Addr, v: Value)
    requires Placed(vm, [PushReference(slot), LoadReference])
    requires var (names, global, act, m) := (vm.names, vm.global, vm.current, vm.mem);
      var st := act.stack;
      && Operate(names, global, act.fn, act.frame, PushReference(slot), st, m) == Some((st + [Ptr(r)], m))
      && Operate(names, global, act.fn, act.frame, LoadReference, st + [Ptr(r)], m) == Some((st + [v], m))
    ensures Reaches(vm, At(vm, vm.current.ip + 2, vm.current.stack + [v], vm.mem))
  {
    hide Operate, Reaches;
    var ip, st := vm.current.ip, vm.current.stack;
    assert [PushReference(slot), LoadReference] == [PushReference(slot)] + [LoadReference];
    PlacedSplit(vm.current.fn.instructions, ip, [PushReference(slot)], [LoadReference]);
    Plain(vm, PushReference(slot), st + [Ptr(r)], vm.mem);
    var vm1 := At(vm, ip + 1, st + [Ptr(r)], vm.mem);
    Plain(vm1, LoadReference, st + [v], vm.mem);
    ReachesTransitive(vm, vm1, At(vm, ip + 2, st + [v], vm.mem));
  }

  lemma {:induction false} FreeStep(w: World, program: Function, env: Env, s: T.Store, f: nat, vm: Machine, x: string) returns (v: Value)
    requires Ready(w, program, env, s, f, vm) && Placed(vm, [PushReference(FreeSlot(env.fn, x)), LoadReference])
    requires Resolve(env, x) == FreePlace && x in env.fn.freeVars
    ensures Yields(w, program, vm, vm.current.ip + 2, vm.current.stack, s, T.LookupCompiled(s, f, x), v, vm.mem)
  {
    hide Rel, ValueOk, HeapGrows, Reaches, FreeSlot;
    LookupFindsCell(w, program, s, vm.mem, f, x);
    FreeSlotLeadsToOwner(w, program, s, vm.mem, f, x);
    HeapGrowsReflexive(vm.mem.heap);
    var h, st := vm.mem.heap, vm.current.stack;
    var r := h[vm.current.frame].refs[FreeSlot(env.fn, x)];
    var o := Owner(w, f, x);
    var i := IndexOf(w.frames[o].env.fn.localVars, x);
    v := h[w.frames[o].addr].locals[i];
    assert (st + [Ptr(r)])[..|st|] == st;
    ThroughReference(vm, FreeSlot(env.fn, x), r, v);
  }

  lemma {:induction false} VarStep(w: World, program: Function, env: Env, s: T.Store, f: nat, vm: Machine, x: string, k: nat) returns (v: Value)
    requires Ready(w, program, env, s, f, vm) && Placed(vm, CodeVar(Var(x), env, k)) && Ok(Var(x), env, k)
    ensures Yields(w, program, vm, vm.current.ip + |CodeVar(Var(x), env, k)|, vm.current.stack, s, T.LookupCompiled(s, f, x), v, vm.mem)
  {
    hide Ready, Yields, Placed, FreeSlot;
    match Resolve(env, x)
    case LocalPlace =>
      v := LocalStep(w, program, env, s, f, vm, x);
    case GlobalPlace =>
      v := GlobalStep(w, program, env, s, f, vm, x);
    case FreePlace =>
      v := FreeStep(w, program, env, s, f, vm, x);
  }

  /** The store of a simple assignment goes to the frame `lookup_write` selects. */
  lemma {:induction false} StoreStep(w: World, program: Function, env: Env, s: T.Store, f: nat, vm: Machine, x: string,
      st: seq<Value>, sv: T.Value, v: Value, instr: Instruction)
    returns (m': Memory)
    requires Ready(w, program, env, s, f, vm) && Placed(vm, [instr]) && vm.current.stack == st + [v]
    requires ValueOk(w, sv, v, vm.mem.heap) && Assignable(env, x) && Resolve(env, x) != FreePlace
    requires Resolve(env, x) == GlobalPlace ==> HasGlobal(env, x)
    requires instr == if Resolve(env, x) == LocalPlace then StoreLocal(IndexOf(env.fn.localVars, x))
                      else StoreGlobal(IndexOf(env.fn.names, x))
    ensures f < |s.frames| && T.LookupWrite(s, f, x) < |s.frames|
    ensures Arrives(w, program, vm, vm.current.ip + 1, st, T.WriteVar(s, T.LookupWrite(s, f, x), x, sv), m')
  {
    hide Rel, ValueOk, HeapGrows, Reaches, SlotsOk, LocalsOk, GlobalsOk;
    FrameOfRel(w, program, s, vm.mem, f);
    assert (st + [v])[..|st|] == st;
    if Resolve(env, x) == LocalPlace {
      StoreLocalOk(w, program, s, vm.mem, f, x, sv, v);
      m' := SetLocal(vm.mem, vm.current.frame, IndexOf(env.fn.localVars, x), v);
    } else {
      StoreGlobalOk(w, program, s, vm.mem, x, sv, v);
      assert GlobalSlot(vm.names, env.fn.names[IndexOf(env.fn.names, x)]) == IndexOf(program.names, x);
      m' := SetLocal(vm.mem, 0, IndexOf(program.names, x), v);
    }
    Plain(vm, instr, st, m');
  }

  // ---------------------------------------------------------------- constants and operators

  function ConstantValue(e: Expr): T.Value {
    match e
    case IntegerConstant(i) => T.IntegerV(i)
    case StringConstant(t) => T.StringV(t)
    case BooleanConstant(b) => T.BoolV(b)
    case _ => T.NoneV
  }

  lemma {:induction false} ConstantStep(w: World, program: Function, env: Env, s: T.Store, f: nat, vm: Machine, e: Expr) returns (v: Value)
    requires Ready(w, program, env, s, f, vm)
    requires Placed(vm, LoadConstant(env.fn, ConstantOf(e))) && ConstantOf(e) in env.fn.constants
    ensures Yields(w, program, vm, vm.current.ip + 1, vm.current.stack, s, ConstantValue(e), v, vm.mem)
  {
    hide Rel, HeapGrows, Reaches;
    HeapGrowsReflexive(vm.mem.heap);
    v := Const(ConstantOf(e));
    Plain(vm, LoadConst(IndexOf(env.fn.constants, ConstantOf(e))), vm.current.stack + [v], vm.mem);
  }

  /** An instruction that pops some operands, only allocates, and pushes. */
  lemma {:induction false} PushResult(w: World, program: Function, env: Env, s: T.Store, f: nat, vm: Machine, instr: Instruction,
      st: seq<Value>, sv: T.Value, v: Value, m': Memory)
    requires Ready(w, program, env, s, f, vm) && Placed(vm, [instr]) && IsPlain(instr)
    requires Operate(vm.names, vm.global, vm.current.fn, vm.current.frame, instr, vm.current.stack, vm.mem) == Some((st + [v], m'))
    requires HeapExtends(vm.mem.heap, m'.heap) && MemoryOk(m') && m'.out == vm.mem.out && ValueOk(w, sv, v, m'.heap)
    ensures Yields(w, program, vm, vm.current.ip + 1, st, s, sv, v, m')
  {
    hide Rel, ValueOk, HeapGrows, HeapExtends, Reaches, Operate;
    Plain(vm, instr, st + [v], m');
    OutOfRel(w, program, s, vm.mem);
    RelExtends(w, program, s, s, vm.mem, m');
  }

  lemma {:induction false} BinaryOperates(vm: Machine, instr: Instruction, st: seq<Value>, a: Value, b: Value)
    requires IsBinary(instr)
    ensures Operate(vm.names, vm.global, vm.current.fn, vm.current.frame, instr, st + [a, b], vm.mem) ==
      match BinaryInstruction(instr, vm.mem, a, b)
      case Some((v, m')) => Some((st + [v], m'))
      case None => None
  {
    hide BinaryInstruction;
    assert (st + [a, b])[..|st|] == st;
  }

  lemma {:induction false} BinaryStep(w: World, program: Function, env: Env, s: T.Store, f: nat, vm: Machine, op: Operator,
      st: seq<Value>, l: T.Value, r: T.Value, lv: Value, rv: Value)
    returns (v: Value, m': Memory)
    requires Ready(w, program, env, s, f, vm) && Placed(vm, [OperatorInstruction(op)])
    requires vm.current.stack == st + (if Exchanged(op) then [rv, lv] else [lv, rv])
    requires ValueOk(w, l, lv, vm.mem.heap) && ValueOk(w, r, rv, vm.mem.heap) && T.BinaryOp(op, l, r, s).Ok?
    ensures Yields(w, program, vm, vm.current.ip + 1, st, s, T.BinaryOp(op, l, r, s).value, v, m')
    ensures HeapExtends(vm.mem.heap, m'.heap)
  {
    hide Rel, ValueOk, HeapGrows, HeapExtends, Reaches, BinaryInstruction, Placed, Operate;
    BinaryAgrees(w, program, s, vm.mem, op, l, r, lv, rv);
    var instr := OperatorInstruction(op);
    var result := if Exchanged(op) then BinaryInstruction(instr, vm.mem, rv, lv) else BinaryInstruction(instr, vm.mem, lv, rv);
    v, m' := result.value.0, result.value.1;
    BinaryOperates(vm, instr, st, if Exchanged(op) then rv else lv, if Exchanged(op) then lv else rv);
    PushResult(w, program, env, s, f, vm, instr, st, T.BinaryOp(op, l, r, s).value, v, m');
  }

  lemma {:induction false} UnaryOperates(names: seq<string>, global: Addr, fn: Function, frame: Addr, st: seq<Value>, v: Value, m: Memory)
    ensures var l := Look(m.heap, v);
      && (l.IntegerW? ==>
            Operate(names, global, fn, frame, Neg, st + [v], m) == Some((st + [Ptr(m.next)], Alloc(m, IntegerObj(-l.int_)))))
      && (l.BoolW? ==> Operate(names, global, fn, frame, Not, st + [v], m) == Some((st + [Boolean(!l.flag)], m)))
  {
    hide Look;
    assert (st + [v])[..|st|] == st;
  }

  lemma {:induction false} UnaryStep(w: World, program: Function, env: Env, s: T.Store, f: nat, vm: Machine, op: Operator,
      st: seq<Value>, x: T.Value, xv: Value)
    returns (v: Value, m': Memory)
    requires Ready(w, program, env, s, f, vm) && Placed(vm, [if op == SUB then Neg else Not])
    requires vm.current.stack == st + [xv] && ValueOk(w, x, xv, vm.mem.heap) && T.UnaryOp(op, x).Ok?
    ensures Yields(w, program, vm, vm.current.ip + 1, st, s, T.UnaryOp(op, x).value, v, m')
    ensures HeapExtends(vm.mem.heap, m'.heap)
  {
    hide Rel, HeapGrows, Reaches, Placed, ClosureOk, Operate;
    OutOfRel(w, program, s, vm.mem);
    UnaryOperates(vm.names, vm.global, vm.current.fn, vm.current.frame, st, xv, vm.mem);
    if op == SUB {
      v, m' := Ptr(vm.mem.next), Alloc(vm.mem, IntegerObj(-Look(vm.mem.heap, xv).int_));
      AllocExtends(vm.mem, IntegerObj(-Look(vm.mem.heap, xv).int_));
      PushResult(w, program, env, s, f, vm, Neg, st, T.UnaryOp(op, x).value, v, m');
    } else {
      v, m' := Boolean(!Look(vm.mem.heap, xv).flag), vm.mem;
      PushResult(w, program, env, s, f, vm, Not, st, T.UnaryOp(op, x).value, v, m');
    }
  }

  // ---------------------------------------------------------------- records

  lemma {:induction false} ReadAgrees(w: World, program: Function, s: T.Store, m: Memory, x: T.Value, xv: Value, field: string)
    requires Rel(w, program, s, m) && ValueOk(w, x, xv, m.heap) && T.ReadField(x, field, s).Ok?
    ensures ReadRecord(m.heap, xv, field).Some?
    ensures ValueOk(w, T.ReadField(x, field, s).value, ReadRecord(m.heap, xv, field).value, m.heap)
  {
    hide FrameOk, ClosureOk, Rel;
    RecordOfRelation(w, program, s, m, x.id);
  }

  lemma {:induction false} RecordOfRelation(w: World, program: Function, s: T.Store, m: Memory, id: nat)
    requires Rel(w, program, s, m) && id in w.records
    ensures RecordOk(w, s, m.heap, id)
  {}

  lemma {:induction false} FieldStep(w: World, program: Function, env: Env, s: T.Store, f: nat, vm: Machine, field: string,
      st: seq<Value>, x: T.Value, xv: Value)
    returns (v: Value)
    requires Ready(w, program, env, s, f, vm) && Placed(vm, [FieldLoad(IndexOf(env.fn.names, field))]) && field in env.fn.names
    requires vm.current.stack == st + [xv] && ValueOk(w, x, xv, vm.mem.heap) && T.ReadField(x, field, s).Ok?
    ensures Yields(w, program, vm, vm.current.ip + 1, st, s, T.ReadField(x, field, s).value, v, vm.mem)
  {
    hide Rel, ValueOk, HeapGrows, Reaches, Placed, ReadRecord;
    OutOfRel(w, program, s, vm.mem);
    ReadAgrees(w, program, s, vm.mem, x, xv, field);
    v := ReadRecord(vm.mem.heap, xv, field).value;
    assert vm.current.stack[..|st|] == st;
    PushResult(w, program, env, s, f, vm, FieldLoad(IndexOf(env.fn.names, field)), st, T.ReadField(x, field, s).value, v, vm.mem);
  }

  lemma {:induction false} IndexStep(w: World, program: Function, env: Env, s: T.Store, f: nat, vm: Machine,
      st: seq<Value>, x: T.Value, xv: Value, i: T.Value, iv: Value)
    returns (v: Value)
    requires Ready(w, program, env, s, f, vm) && Placed(vm, [IndexLoad])
    requires vm.current.stack == st + [xv, iv] && ValueOk(w, x, xv, vm.mem.heap) && ValueOk(w, i, iv, vm.mem.heap)
    requires T.Cast(i, s).Ok? && T.ReadField(x, T.Cast(i, s).value, s).Ok?
    ensures Yields(w, program, vm, vm.current.ip + 1, st, s, T.ReadField(x, T.Cast(i, s).value, s).value, v, vm.mem)
  {
    hide Rel, ValueOk, HeapGrows, Reaches, Placed, ReadRecord, ToString;
    var field := T.Cast(i, s).value;
    OutOfRel(w, program, s, vm.mem);
    CastAgrees(w, program, s, vm.mem, i, iv);
    ReadAgrees(w, program, s, vm.mem, x, xv, field);
    v := ReadRecord(vm.mem.heap, xv, field).value;
    assert vm.current.stack[..|st|] == st;
    PushResult(w, program, env, s, f, vm, IndexLoad, st, T.ReadField(x, field, s).value, v, vm.mem);
  }

  lemma {:induction false} StoreOperates(names: seq<string>, global: Addr, fn: Function, frame: Addr, st: seq<Value>, a: Value, v: Value,
      m: Memory, r: Addr)
    requires Look(m.heap, a) == RecordW(r) && r in m.heap && m.heap[r].RecordObj?
    ensures forall i :: 0 <= i < |fn.names| ==>
      Operate(names, global, fn, frame, FieldStore(i), st + [a, v], m) == Some((st, SetField(m, r, fn.names[i], v)))
    ensures forall i: Value :: ToString(m.heap, i, {}).Some? ==>
      Operate(names, global, fn, frame, IndexStore, st + [a, i, v], m) == Some((st, SetField(m, r, ToString(m.heap, i, {}).value, v)))
  {
    hide ToString, Look;
    assert (st + [a, v])[..|st|] == st;
    forall i: Value ensures (st + [a, i, v])[..|st|] == st {}
  }

  lemma {:induction false} FieldStoreStep(w: World, program: Function, env: Env, s: T.Store, f: nat, vm: Machine, field: string,
      st: seq<Value>, id: nat, a: Value, x: T.Value, xv: Value)
    returns (m': Memory)
    requires Ready(w, program, env, s, f, vm) && Placed(vm, [FieldStore(IndexOf(env.fn.names, field))]) && field in env.fn.names
    requires vm.current.stack == st + [a, xv] && ValueOk(w, T.RecordV(id), a, vm.mem.heap) && ValueOk(w, x, xv, vm.mem.heap)
    ensures id < |s.records| && id in w.records && Arrives(w, program, vm, vm.current.ip + 1, st, T.WriteRecord(s, id, field, x), m')
    ensures forall b :: b in vm.mem.heap && b != w.records[id] ==> b in m'.heap && m'.heap[b] == vm.mem.heap[b]
  {
    hide Rel, HeapGrows, Reaches, Placed, ClosureOk, Operate;
    StoreFieldOk(w, program, s, vm.mem, id, field, x, xv);
    m' := SetField(vm.mem, w.records[id], field, xv);
    StoreOperates(vm.names, vm.global, vm.current.fn, vm.current.frame, st, a, xv, vm.mem, w.records[id]);
    Plain(vm, FieldStore(IndexOf(env.fn.names, field)), st, m');
  }

  lemma {:induction false} IndexStoreStep(w: World, program: Function, env: Env, s: T.Store, f: nat, vm: Machine,
      st: seq<Value>, id: nat, a: Value, i: T.Value, iv: Value, x: T.Value, xv: Value)
    returns (m': Memory)
    requires Ready(w, program, env, s, f, vm) && Placed(vm, [IndexStore])
    requires vm.current.stack == st + [a, iv, xv] && ValueOk(w, T.RecordV(id), a, vm.mem.heap)
    requires ValueOk(w, x, xv, vm.mem.heap) && ValueOk(w, i, iv, vm.mem.heap) && T.Cast(i, s).Ok?
    ensures id < |s.records| && Arrives(w, program, vm, vm.current.ip + 1, st, T.WriteRecord(s, id, T.Cast(i, s).value, x), m')
  {
    hide Rel, HeapGrows, Reaches, Placed, ClosureOk, Operate, ToString;
    var field := T.Cast(i, s).value;
    CastAgrees(w, program, s, vm.mem, i, iv);
    StoreFieldOk(w, program, s, vm.mem, id, field, x, xv);
    m' := SetField(vm.mem, w.records[id], field, xv);
    StoreOperates(vm.names, vm.global, vm.current.fn, vm.current.frame, st, a, xv, vm.mem, w.records[id]);
    Plain(vm, IndexStore, st, m');
  }

  /** `AllocRecord` and the duplicates for the field stores. */
  lemma {:induction false} RecordStep(w: World, program: Function, env: Env, s: T.Store, f: nat, vm: Machine, n: nat) returns (w': World, m': Memory)
    requires Ready(w, program, env, s, f, vm) && Placed(vm, [AllocRecord] + Dups(n))
    ensures var s' := s.(records := s.records + [map[]]);
      var a := Ptr(vm.mem.next);
      && Arrives(w', program, vm, vm.current.ip + 1 + n, vm.current.stack + [a] + seq(n, _ => a), s', m')
      && WorldGrows(w, w') && HeapExtends(vm.mem.heap, m'.heap)
      && ValueOk(w', T.RecordV(|s.records|), a, m'.heap)
      && w'.records == w.records[|s.records| := vm.mem.next]
      && vm.mem.next !in vm.mem.heap
  {
    hide Rel, HeapGrows, ValueOk, WorldGrows, Reaches;
    NewRecordOk(w, program, s, vm.mem);
    OutOfRel(w, program, s, vm.mem);
    w' := w.(records := w.records[|s.records| := vm.mem.next]);
    m' := Alloc(vm.mem, RecordObj(map[]));
    ExtendsGrows(vm.mem.heap, m'.heap);
    var st, a := vm.current.stack, Ptr(vm.mem.next);
    PlacedSplit(vm.current.fn.instructions, vm.current.ip, [AllocRecord], Dups(n));
    Plain(vm, AllocRecord, st + [a], m');
    var vm1 := At(vm, vm.current.ip + 1, st + [a], m');
    DupsStep(vm1, st, a, n);
    ReachesTransitive(vm, vm1, At(vm, vm.current.ip + 1 + n, st + [a] + seq(n, _ => a), m'));
  }

  lemma {:induction false} DupsStep(vm: Machine, st: seq<Value>, a: Value, n: nat)
    requires Placed(vm, Dups(n)) && vm.current.stack == st + [a]
    ensures Reaches(vm, At(vm, vm.current.ip + n, st + [a] + seq(n, _ => a), vm.mem))
    decreases n
  {
    hide Reaches;
    if n == 0 {
      assert st + [a] + [] == st + [a];
      assert At(vm, vm.current.ip + n, st + [a] + seq(n, _ => a), vm.mem) == vm;
      ReachesSelf(vm);
    } else {
      assert Dups(n) == [Dup] + Dups(n - 1);
      PlacedSplit(vm.current.fn.instructions, vm.current.ip, [Dup], Dups(n - 1));
      Plain(vm, Dup, st + [a] + [a], vm.mem);
      var vm1 := At(vm, vm.current.ip + 1, st + [a] + [a], vm.mem);
      DupsStep(vm1, st + [a], a, n - 1);
      assert st + [a] + [a] + seq(n - 1, _ => a) == st + [a] + seq(n, _ => a);
      ReachesTransitive(vm, vm1, At(vm, vm.current.ip + n, st + [a] + seq(n, _ => a), vm.mem));
    }
  }

  // ---------------------------------------------------------------- function literals

  function Pointers(rs: seq<Addr>): (vs: seq<Value>)
    ensures |vs| == |rs| && forall i :: 0 <= i < |rs| ==> vs[i] == Ptr(rs[i])
  {
    seq(|rs|, i requires 0 <= i < |rs| => Ptr(rs[i]))
  }

  /** The references pushed for a literal are references to its free variables. */
  lemma {:induction false} CapturesStep(w: World, program: Function, env: Env, s: T.Store, f: nat, vm: Machine, free: seq<string>)
    returns (rs: seq<Addr>)
    requires Ready(w, program, env, s, f, vm) && Placed(vm, Captures(env.fn, free))
    requires forall x :: x in free ==> Resolve(env, x) != GlobalPlace
    requires CapturesOk(env.fn, free)
    ensures ReferencesOk(w, f, free, rs, vm.mem.heap)
    ensures Reaches(vm, At(vm, vm.current.ip + |free|, vm.current.stack + Pointers(rs), vm.mem))
    decreases |free|
  {
    hide Rel, ReferenceOk, Reaches, CaptureSlot;
    if free == [] {
      rs := [];
      assert vm.current.stack + Pointers(rs) == vm.current.stack;
      assert At(vm, vm.current.ip + |free|, vm.current.stack + Pointers(rs), vm.mem) == vm;
      ReachesSelf(vm);
    } else {
      var x, rest := free[0], free[1..];
      var instr := PushReference(CaptureSlot(env.fn, x));
      assert Captures(env.fn, free) == [instr] + Captures(env.fn, rest);
      PlacedSplit(vm.current.fn.instructions, vm.current.ip, [instr], Captures(env.fn, rest));
      assert x in free && env.Nested?;
      CaptureSlotOk(w, program, s, vm.mem, f, x);
      var r := vm.mem.heap[vm.current.frame].refs[CaptureSlot(env.fn, x)];
      Plain(vm, instr, vm.current.stack + [Ptr(r)], vm.mem);
      var vm1 := At(vm, vm.current.ip + 1, vm.current.stack + [Ptr(r)], vm.mem);
      var rs1 := CapturesStep(w, program, env, s, f, vm1, rest);
      rs := [r] + rs1;
      assert vm.current.stack + [Ptr(r)] + Pointers(rs1) == vm.current.stack + Pointers(rs);
      ReachesTransitive(vm, vm1, At(vm, vm.current.ip + |free|, vm.current.stack + Pointers(rs), vm.mem));
    }
  }

  lemma {:induction false} AddressesOfReferences(w: World, f: nat, xs: seq<string>, rs: seq<Addr>, h: Heap)
    requires ReferencesOk(w, f, xs, rs, h)
    ensures Addresses(h, Pointers(rs)) == Some(rs)
    decreases |rs|
  {
    hide ReferenceOk, Look;
    if rs != [] {
      ReferenceLooks(w, f, xs[0], rs[0], h);
      assert ReferenceOk(w, f, xs[0], rs[0], h);
      assert Pointers(rs)[1..] == Pointers(rs[1..]);
      forall j | 0 <= j < |rs[1..]| ensures ReferenceOk(w, f, xs[1..][j], rs[1..][j], h) {
        assert ReferenceOk(w, f, xs[j + 1], rs[j + 1], h);
      }
      AddressesOfReferences(w, f, xs[1..], rs[1..], h);
      assert rs == [rs[0]] + rs[1..];
    }
  }

  lemma {:induction false} ReferenceLooks(w: World, f: nat, x: string, r: Addr, h: Heap)
    requires ReferenceOk(w, f, x, r, h)
    ensures Look(h, Ptr(r)).ReferenceW?
  {}

  lemma {:induction false} ClosureStep(w: World, program: Function, env: Env, s: T.Store, f: nat, vm: Machine,
      params: seq<string>, body: seq<Stmt>, k: nat)
    returns (v: Value, m': Memory)
    requires Ready(w, program, env, s, f, vm) && Placed(vm, CodeFun(Fun(params, body), env, k))
    requires WellFormed(Fun(params, body), Needed(s.rules)) && Ok(Fun(params, body), env, k)
    ensures Yields(w, program, vm, vm.current.ip + |CodeFun(Fun(params, body), env, k)|, vm.current.stack, s,
                   T.FunctionV(f, params, body), v, m')
    ensures HeapExtends(vm.mem.heap, m'.heap)
  {
    hide Rel, ReferencesOk, Reaches, WellFormedBlock, OkBlock, FunctionCode, HeapGrows, HeapExtends, Captures;
    var g := env.fn.functions[k];
    var free := g.freeVars;
    var st := vm.current.stack;
    PlacedSplit3(vm.current.fn.instructions, vm.current.ip, [LoadFunc(k)], Captures(env.fn, free), [AllocClosure(|free|)]);
    Plain(vm, LoadFunc(k), st + [Func(g)], vm.mem);
    var vm1 := At(vm, vm.current.ip + 1, st + [Func(g)], vm.mem);
    var rs := CapturesStep(w, program, env, s, f, vm1, free);
    var vm2 := At(vm, vm.current.ip + 1 + |free|, st + [Func(g)] + Pointers(rs), vm.mem);
    ReachesTransitive(vm, vm1, vm2);
    ReferenceCount(w, f, free, rs, vm.mem.heap);
    v, m' := NewClosure(w, program, env, s, f, vm2, params, body, g, st, rs);
    ReachesTransitive(vm, vm2, At(vm, vm.current.ip + 2 + |free|, st + [v], m'));
  }

  lemma {:induction false} ReferenceCount(w: World, f: nat, xs: seq<string>, rs: seq<Addr>, h: Heap)
    requires ReferencesOk(w, f, xs, rs, h)
    ensures |rs| == |xs|
  {}

  lemma {:induction false} AllocOperates(names: seq<string>, global: Addr, fn: Function, frame: Addr, st: seq<Value>, g: Function,
      rs: seq<Addr>, m: Memory)
    requires Addresses(m.heap, Pointers(rs)) == Some(rs)
    ensures Operate(names, global, fn, frame, AllocClosure(|rs|), st + [Func(g)] + Pointers(rs), m)
      == Some((st + [Ptr(m.next)], Alloc(m, ClosureObj(g, rs))))
  {
    hide Addresses;
    var st0 := st + [Func(g)] + Pointers(rs);
    var n := |st0| - |rs|;
    assert st0[n..] == Pointers(rs) && st0[n - 1] == Func(g) && st0[..n - 1] == st;
  }

  lemma {:induction false} NewClosure(w: World, program: Function, env: Env, s: T.Store, f: nat, vm: Machine,
      params: seq<string>, body: seq<Stmt>, g: Function, st: seq<Value>, rs: seq<Addr>)
    returns (v: Value, m': Memory)
    requires Ready(w, program, env, s, f, vm) && Placed(vm, [AllocClosure(|rs|)])
    requires vm.current.stack == st + [Func(g)] + Pointers(rs)
    requires WellFormed(Fun(params, body), Needed(s.rules)) && FunctionOk(params, body, g, env) && ReferencesOk(w, f, g.freeVars, rs, vm.mem.heap)
    ensures Yields(w, program, vm, vm.current.ip + 1, st, s, T.FunctionV(f, params, body), v, m')
    ensures HeapExtends(vm.mem.heap, m'.heap)
  {
    hide Rel, ReferencesOk, Reaches, WellFormed, FunctionOk, HeapGrows, HeapExtends, Placed, Operate;
    OutOfRel(w, program, s, vm.mem);
    AddressesOfReferences(w, f, g.freeVars, rs, vm.mem.heap);
    v, m' := Ptr(vm.mem.next), Alloc(vm.mem, ClosureObj(g, rs));
    AllocExtends(vm.mem, ClosureObj(g, rs));
    ExtendsGrows(vm.mem.heap, m'.heap);
    WorldGrowsReflexive(w);
    ReferencesStable(w, w, f, g.freeVars, rs, vm.mem.heap, m'.heap);
    AllocOperates(vm.names, vm.global, vm.current.fn, vm.current.frame, st, g, rs, vm.mem);
    assert ClosureOk(w, f, params, body, g, rs, m'.heap);
    PushResult(w, program, env, s, f, vm, AllocClosure(|rs|), st, T.FunctionV(f, params, body), v, m');
  }

  lemma {:induction false} WorldGrowsReflexive(w: World)
    ensures WorldGrows(w, w)
  {}

  lemma {:induction false} PopStep(vm: Machine, st: seq<Value>, v: Value)
    requires Placed(vm, [Pop]) && vm.current.stack == st + [v]
    ensures Reaches(vm, At(vm, vm.current.ip + 1, st, vm.mem))
  {
    assert (st + [v])[..|st|] == st;
    Plain(vm, Pop, st, vm.mem);
  }

  lemma {:induction false} NotStep(vm: Machine, st: seq<Value>, v: Value, b: bool)
    requires Placed(vm, [Not]) && vm.current.stack == st + [v] && Look(vm.mem.heap, v) == BoolW(b)
    ensures Reaches(vm, At(vm, vm.current.ip + 1, st + [Boolean(!b)], vm.mem))
  {
    assert (st + [v])[..|st|] == st;
    Plain(vm, Not, st + [Boolean(!b)], vm.mem);
  }
}
