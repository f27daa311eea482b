/** The virtual machine as a state machine over single instructions.

    The recursion of `executeFunction` through `call` is the stack of
    activations: each holds the function, the instruction pointer its C++ frame
    would have saved, and its operand stack. Integers, strings, records,
    closures, references and frames are heap objects; constants, functions and
    the none/true/false singletons live outside the heap. */
module Machine {
  import opened Basics
  import opened Bytecode

  type Addr = nat

  datatype Value = Const(c: Constant) | Func(f: Function) | Ptr(a: Addr)

  datatype Obj =
    | IntegerObj(int_: int)
    | StringObj(text: string)
    | RecordObj(fields: map<string, Value>)
    | ClosureObj(code: Function, freeVars: seq<Addr>)
    | ReferenceObj(frame: Addr, index: nat)
    | FrameObj(locals: seq<Value>, refs: seq<Addr>)

  type Heap = map<Addr, Obj>

  /** Heap, next unused address, and the lines printed so far. */
  datatype Memory = Memory(heap: Heap, next: Addr, out: seq<string>)

  datatype Activation = Activation(fn: Function, ip: int, frame: Addr, stack: seq<Value>)

  /** `global` is the program's own frame, `names` the program's name list. */
  datatype Machine = Machine(
    names: seq<string>, global: Addr, callers: seq<Activation>, current: Activation, mem: Memory)

  datatype Outcome = Running(vm: Machine) | Finished(out: seq<string>) | Failed

  // ---------------------------------------------------------------- values

  /** What an instruction sees behind a value pointer. */
  datatype View =
    | NoneW | BoolW(flag: bool) | IntegerW(int_: int) | StringW(text: string)
    | RecordW(a: Addr) | FunctionW(f: Function)
    | ClosureW(code: Function, freeVars: seq<Addr>) | ReferenceW(frame: Addr, index: nat)
    | Invalid

  function Look(h: Heap, v: Value): View {
    match v
    case Const(NoneC) => NoneW
    case Const(BooleanC(b)) => BoolW(b)
    case Const(IntegerC(i)) => IntegerW(i)
    case Const(StringC(t)) => StringW(t)
    case Func(f) => FunctionW(f)
    case Ptr(a) =>
      if a !in h then Invalid
      else
        match h[a]
        case IntegerObj(i) => IntegerW(i)
        case StringObj(t) => StringW(t)
        case RecordObj(_) => RecordW(a)
        case ClosureObj(f, fv) => ClosureW(f, fv)
        case ReferenceObj(fr, i) => ReferenceW(fr, i)
        case FrameObj(_, _) => Invalid
  }

  const NONE: Value := Const(NoneC)

  function Boolean(b: bool): Value { Const(BooleanC(b)) }

  /** `toString`; `path` holds the records being rendered. Meeting one again
      means the source's recursion never ends, and references raise (`None`). */
  ghost function ToString(h: Heap, v: Value, path: set<Addr>): Option<string>
    decreases h.Keys - path, 0
  {
    match Look(h, v)
    case NoneW => Some("None")
    case BoolW(b) => Some(if b then "true" else "false")
    case IntegerW(i) => Some(IntToString(i))
    case StringW(t) => Some(t)
    case FunctionW(_) => Some("FUNCTION")
    case ClosureW(_, _) => Some("FUNCTION")
    case ReferenceW(_, _) => None
    case Invalid => None
    case RecordW(a) =>
      if a !in h || !h[a].RecordObj? || a in path then None
      else
        assert a in h.Keys - path;
        match FieldsToString(h, KeysInOrder(h[a].fields.Keys), h[a].fields, path + {a})
        case None => None
        case Some(t) => Some("{" + t + "}")
  }

  ghost function FieldsToString(h: Heap, keys: seq<string>, m: map<string, Value>, path: set<Addr>): Option<string>
    decreases h.Keys - path, 1 + |keys|
  {
    if keys == [] then Some("")
    else if keys[0] !in m then None
    else
      match ToString(h, m[keys[0]], path)
      case None => None
      case Some(t) =>
        match FieldsToString(h, keys[1..], m, path)
        case None => None
        case Some(rest) => Some(keys[0] + ":" + t + " " + rest)
  }

  // ---------------------------------------------------------------- memory

  function Alloc(m: Memory, o: Obj): Memory {
    m.(heap := m.heap[m.next := o], next := m.next + 1)
  }

  function SetLocal(m: Memory, frame: Addr, i: nat, v: Value): Memory
    requires frame in m.heap && m.heap[frame].FrameObj? && i < |m.heap[frame].locals|
  {
    m.(heap := m.heap[frame := m.heap[frame].(locals := m.heap[frame].locals[i := v])])
  }

  function SetField(m: Memory, a: Addr, field: string, v: Value): Memory
    requires a in m.heap && m.heap[a].RecordObj?
  {
    m.(heap := m.heap[a := RecordObj(m.heap[a].fields[field := v])])
  }

  predicate HasLocal(h: Heap, frame: Addr, i: int) {
    frame in h && h[frame].FrameObj? && 0 <= i < |h[frame].locals|
  }

  /** Slot of a global: `global_indices_[name]`, where a missing name reads 0. */
  function GlobalSlot(names: seq<string>, name: string): nat {
    if name in names then IndexOf(names, name) else 0
  }

  function ReadRecord(h: Heap, v: Value, field: string): Option<Value> {
    match Look(h, v)
    case RecordW(a) =>
      if a in h && h[a].RecordObj? then
        Some(if field in h[a].fields then h[a].fields[field] else NONE)
      else None
    case _ => None
  }

  // ---------------------------------------------------------------- instructions

  ghost function AddValues(m: Memory, l: Value, r: Value): Option<(Value, Memory)> {
    var lw, rw := Look(m.heap, l), Look(m.heap, r);
    if lw.IntegerW? && rw.IntegerW? then
      Some((Ptr(m.next), Alloc(m, IntegerObj(lw.int_ + rw.int_))))
    else if !lw.StringW? && !rw.StringW? then None
    else
      match (ToString(m.heap, l, {}), ToString(m.heap, r, {}))
      case (Some(a), Some(b)) => Some((Ptr(m.next), Alloc(m, StringObj(a + b))))
      case _ => None
  }

  function IntegerOp(op: Instruction, m: Memory, l: Value, r: Value): Option<(Value, Memory)> {
    var lw, rw := Look(m.heap, l), Look(m.heap, r);
    if !lw.IntegerW? || !rw.IntegerW? then None
    else
      match op
      case Sub => Some((Ptr(m.next), Alloc(m, IntegerObj(lw.int_ - rw.int_))))
      case Mul => Some((Ptr(m.next), Alloc(m, IntegerObj(lw.int_ * rw.int_))))
      case Div =>
        if rw.int_ == 0 then None
        else Some((Ptr(m.next), Alloc(m, IntegerObj(TruncatedQuotient(lw.int_, rw.int_)))))
      case Gt => Some((Boolean(lw.int_ > rw.int_), m))
      case Geq => Some((Boolean(lw.int_ >= rw.int_), m))
      case _ => None
  }

  function BooleanOp(op: Instruction, m: Memory, l: Value, r: Value): Option<(Value, Memory)> {
    var lw, rw := Look(m.heap, l), Look(m.heap, r);
    if !lw.BoolW? || !rw.BoolW? then None
    else
      match op
      case And => Some((Boolean(lw.flag && rw.flag), m))
      case Or => Some((Boolean(lw.flag || rw.flag), m))
      case _ => None
  }

  function EqualValues(h: Heap, l: Value, r: Value): bool {
    match (Look(h, l), Look(h, r))
    case (IntegerW(a), IntegerW(b)) => a == b
    case (BoolW(a), BoolW(b)) => a == b
    case (StringW(a), StringW(b)) => a == b
    case (NoneW, NoneW) => true
    case (RecordW(a), RecordW(b)) => a == b
    case _ => false
  }

  /** Instructions that combine the two topmost operands into one value. */
  predicate IsBinary(op: Instruction) {
    op in {Add, Sub, Mul, Div, Gt, Geq, Eq, And, Or}
  }

  ghost function BinaryInstruction(op: Instruction, m: Memory, l: Value, r: Value): Option<(Value, Memory)> {
    match op
    case Add => AddValues(m, l, r)
    case Eq => Some((Boolean(EqualValues(m.heap, l, r)), m))
    case And => BooleanOp(op, m, l, r)
    case Or => BooleanOp(op, m, l, r)
    case _ => IntegerOp(op, m, l, r)
  }

  /** Effect of an instruction other than a jump, call or return on the operand
      stack and the memory; `None` is an exception. */
  ghost function Operate(names: seq<string>, global: Addr, fn: Function, frame: Addr,
      instr: Instruction, st: seq<Value>, m: Memory): Option<(seq<Value>, Memory)> {
    var n := |st|;
    match instr
    case LoadConst(i) =>
      if 0 <= i < |fn.constants| then Some((st + [Const(fn.constants[i])], m)) else None
    case LoadFunc(i) =>
      if 0 <= i < |fn.functions| then Some((st + [Func(fn.functions[i])], m)) else None
    case LoadLocal(i) =>
      if HasLocal(m.heap, frame, i) then Some((st + [m.heap[frame].locals[i]], m)) else None
    case StoreLocal(i) =>
      if n > 0 && HasLocal(m.heap, frame, i) then Some((st[..n-1], SetLocal(m, frame, i, st[n-1])))
      else None
    case LoadGlobal(i) =>
      if 0 <= i < |fn.names| && HasLocal(m.heap, global, GlobalSlot(names, fn.names[i])) then
        Some((st + [m.heap[global].locals[GlobalSlot(names, fn.names[i])]], m))
      else None
    case StoreGlobal(i) =>
      if n > 0 && 0 <= i < |fn.names| && HasLocal(m.heap, global, GlobalSlot(names, fn.names[i])) then
        Some((st[..n-1], SetLocal(m, global, GlobalSlot(names, fn.names[i]), st[n-1])))
      else None
    case PushReference(i) =>
      if frame in m.heap && m.heap[frame].FrameObj? && 0 <= i < |m.heap[frame].refs| then
        Some((st + [Ptr(m.heap[frame].refs[i])], m))
      else None
    case LoadReference =>
      if n == 0 then None
      else (
        match Look(m.heap, st[n-1])
        case ReferenceW(fr, i) =>
          if HasLocal(m.heap, fr, i) then Some((st[..n-1] + [m.heap[fr].locals[i]], m)) else None
        case _ => None)
    case StoreReference =>
      if n < 2 then None
      else (
        match Look(m.heap, st[n-1])
        case ReferenceW(fr, i) =>
          if HasLocal(m.heap, fr, i) then Some((st[..n-2], SetLocal(m, fr, i, st[n-2]))) else None
        case _ => None)
    case AllocRecord => Some((st + [Ptr(m.next)], Alloc(m, RecordObj(map[]))))
    case FieldLoad(i) =>
      if n == 0 || !(0 <= i < |fn.names|) then None
      else (
        match ReadRecord(m.heap, st[n-1], fn.names[i])
        case Some(v) => Some((st[..n-1] + [v], m))
        case None => None)
    case FieldStore(i) =>
      if n < 2 || !(0 <= i < |fn.names|) then None
      else (
        match Look(m.heap, st[n-2])
        case RecordW(a) =>
          if a in m.heap && m.heap[a].RecordObj? then
            Some((st[..n-2], SetField(m, a, fn.names[i], st[n-1])))
          else None
        case _ => None)
    case IndexLoad =>
      if n < 2 then None
      else (
        match ToString(m.heap, st[n-1], {})
        case None => None
        case Some(field) =>
          match ReadRecord(m.heap, st[n-2], field)
          case Some(v) => Some((st[..n-2] + [v], m))
          case None => None)
    case IndexStore =>
      if n < 3 then None
      else (
        match (ToString(m.heap, st[n-2], {}), Look(m.heap, st[n-3]))
        case (Some(field), RecordW(a)) =>
          if a in m.heap && m.heap[a].RecordObj? then
            Some((st[..n-3], SetField(m, a, field, st[n-1])))
          else None
        case _ => None)
    case AllocClosure(k) =>
      if !(0 <= k < n) then None
      else (
        match (Look(m.heap, st[n-1-k]), Addresses(m.heap, st[n-k..]))
        case (FunctionW(f), Some(refs)) =>
          Some((st[..n-1-k] + [Ptr(m.next)], Alloc(m, ClosureObj(f, refs))))
        case _ => None)
    case Neg =>
      if n > 0 && Look(m.heap, st[n-1]).IntegerW? then
        Some((st[..n-1] + [Ptr(m.next)], Alloc(m, IntegerObj(-Look(m.heap, st[n-1]).int_))))
      else None
    case Not =>
      if n > 0 && Look(m.heap, st[n-1]).BoolW? then
        Some((st[..n-1] + [Boolean(!Look(m.heap, st[n-1]).flag)], m))
      else None
    case Dup => if n > 0 then Some((st + [st[n-1]], m)) else None
    case Swap => if n > 1 then Some((st[..n-2] + [st[n-1], st[n-2]], m)) else None
    case Pop => if n > 0 then Some((st[..n-1], m)) else None
    case _ =>
      if !IsBinary(instr) || n < 2 then None
      else
        match BinaryInstruction(instr, m, st[n-2], st[n-1])
        case Some((v, m')) => Some((st[..n-2] + [v], m'))
        case None => None
  }

  /** The addresses of the reference objects a closure captures; every popped
      operand is checked to be a reference. */
  function Addresses(h: Heap, vs: seq<Value>): (r: Option<seq<Addr>>)
    ensures r.Some? ==> |r.value| == |vs|
    ensures r.Some? ==> forall i :: 0 <= i < |vs| ==> vs[i] == Ptr(r.value[i])
  {
    if vs == [] then Some([])
    else if !vs[0].Ptr? || !Look(h, vs[0]).ReferenceW? then None
    else
      match Addresses(h, vs[1..])
      case Some(rest) => Some([vs[0].a] + rest)
      case None => None
  }

  // ---------------------------------------------------------------- calls

  /** `makeLocalReferences`: one new reference object per captured local. */
  function MakeReferences(m: Memory, frame: Addr, indices: seq<nat>): (Memory, seq<Addr>)
    decreases |indices|
  {
    if indices == [] then (m, [])
    else
      var (m', refs) := MakeReferences(Alloc(m, ReferenceObj(frame, indices[0])), frame, indices[1..]);
      (m', [m.next] + refs)
  }

  /** The frame of a call: arguments first, the other locals None, references to
      captured locals and then the closure's free variables. */
  function EnterFrame(m: Memory, fn: Function, free: seq<Addr>, args: seq<Value>): Memory
    requires |args| <= |fn.localVars|
  {
    var locals := args + seq(|fn.localVars| - |args|, _ => NONE);
    var m1 := Alloc(m, FrameObj(locals, []));
    var (m2, refs) := MakeReferences(m1, m.next, fn.localReferenceIndices);
    m2.(heap := m2.heap[m.next := FrameObj(locals, refs + free)])
  }

  ghost function DoCall(vm: Machine, k: int): Outcome {
    var st := vm.current.stack;
    if !(0 <= k < |st|) then Failed
    else
      var args := st[|st|-k..];
      match Look(vm.mem.heap, st[|st|-1-k])
      case ClosureW(fn, free) =>
        if k != fn.parameterCount || k > |fn.localVars| then Failed
        else
          var m := EnterFrame(vm.mem, fn, free, args);
          var caller := vm.current.(stack := st[..|st|-1-k]);
          match fn.builtin {
            case Compiled =>
              Running(vm.(callers := vm.callers + [caller],
                          current := Activation(fn, 0, vm.mem.next, []), mem := m))
            case PrintFunction =>
              if k == 0 then Failed
              else (
                match ToString(m.heap, args[0], {})
                case Some(line) =>
                  Running(vm.(current := caller.(ip := caller.ip + 1, stack := caller.stack + [NONE]),
                              mem := m.(out := m.out + [line])))
                case None => Failed)
            case _ => Failed
          }
      case _ => Failed
  }

  /** The end of the current function: its top operand goes to the caller. */
  function DoReturn(vm: Machine): Outcome {
    if vm.callers == [] then Finished(vm.mem.out)
    else
      var st := vm.current.stack;
      if st == [] then Failed
      else
        var n := |vm.callers|;
        var caller := vm.callers[n-1];
        Running(vm.(callers := vm.callers[..n-1],
                    current := caller.(ip := caller.ip + 1, stack := caller.stack + [st[|st|-1]])))
  }

  // ---------------------------------------------------------------- steps

  function JumpTo(vm: Machine, ip: int, st: seq<Value>): Machine {
    vm.(current := vm.current.(ip := ip, stack := st))
  }

  /** One round of the loop in `executeFunction`. */
  ghost function Step(vm: Machine): Outcome {
    var act := vm.current;
    var st := act.stack;
    if act.ip >= |act.fn.instructions| then DoReturn(vm)
    else if act.ip < 0 then Failed
    else
      var instr := act.fn.instructions[act.ip];
      match instr
      case Goto(offset) => Running(JumpTo(vm, act.ip + offset, st))
      case If(offset) =>
        if st != [] && Look(vm.mem.heap, st[|st|-1]).BoolW? then
          Running(JumpTo(vm, if Look(vm.mem.heap, st[|st|-1]).flag then act.ip + offset else act.ip + 1,
                         st[..|st|-1]))
        else Failed
      case Return =>
        if st == [] then Failed else Running(JumpTo(vm, |act.fn.instructions| + 1, st))
      case Call(k) => DoCall(vm, k)
      case _ =>
        match Operate(vm.names, vm.global, act.fn, act.frame, instr, st, vm.mem)
        case None => Failed
        case Some((st', m')) => Running(JumpTo(vm, act.ip + 1, st').(mem := m'))
  }

  ghost function Steps(n: nat, vm: Machine): Outcome {
    if n == 0 then Running(vm)
    else
      match Step(vm)
      case Running(vm') => Steps(n - 1, vm')
      case o => o
  }

  ghost predicate Reaches(vm: Machine, vm': Machine) {
    exists n :: Steps(n, vm) == Running(vm')
  }

  // ---------------------------------------------------------------- programs

  function BuiltinFunction(b: Builtin): Function {
    Function(b, [], [], if b == InputFunction then 0 else 1,
             if b == InputFunction then [] else ["x"], [], [], [], [], [])
  }

  /** `initializeNativeFunctions`: the first three functions become the built-in ones. */
  function LinkBuiltins(program: Function): Function
    requires |program.functions| >= 3
  {
    program.(functions :=
      [BuiltinFunction(PrintFunction), BuiltinFunction(InputFunction), BuiltinFunction(IntcastFunction)]
      + program.functions[3..])
  }

  /** `executeProgram`: every global slot starts as None. */
  function Start(program: Function): Machine
    requires |program.functions| >= 3
  {
    var frame := FrameObj(seq(|program.names|, _ => NONE), []);
    Machine(program.names, 0, [], Activation(LinkBuiltins(program), 0, 0, []),
            Memory(map[0 := frame], 1, []))
  }
}
