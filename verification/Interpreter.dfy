/** The interpreter as it is written: a frame stack, a current function and an
    instruction pointer that are overwritten, a loop over instructions, and
    recursion for calls. It is proved to run exactly the state machine. */
module Interpreter {
  import opened Basics
  import opened Bytecode
  import opened Codegen
  import opened Machine
  import opened Execution
  import opened ValueText

  /** A frame on the frame stack: its locals and references are the heap object
      `frame`, its operand stack is here. */
  datatype FrameEntry = FrameEntry(frame: Addr, stack: seq<Value>)

  /** What a C++ stack frame of `executeFunction` saves. */
  datatype Saved = Saved(fn: Function, ip: int)

  datatype Status = Done | Threw | OutOfFuel

  function WithStack(frames: seq<FrameEntry>, st: seq<Value>): seq<FrameEntry>
    requires frames != []
  {
    frames[|frames|-1 := frames[|frames|-1].(stack := st)]
  }

  function Activations(frames: seq<FrameEntry>, saved: seq<Saved>): (r: seq<Activation>)
    requires |frames| == |saved|
    ensures |r| == |saved|
    ensures forall i :: 0 <= i < |r| ==> r[i] == Activation(saved[i].fn, saved[i].ip, frames[i].frame, frames[i].stack)
  {
    seq(|saved|, i requires 0 <= i < |saved| => Activation(saved[i].fn, saved[i].ip, frames[i].frame, frames[i].stack))
  }

  /** Only the operand stack of the topmost frame differs. */
  ghost predicate SameBelow(a: seq<FrameEntry>, b: seq<FrameEntry>) {
    && a != [] && |b| == |a|
    && b[..|a|-1] == a[..|a|-1]
    && b[|a|-1].frame == a[|a|-1].frame
  }

  /** The operators take the two topmost operands. */
  lemma {:induction false} OperateBinary(names: seq<string>, global: Addr, fn: Function, frame: Addr, instr: Instruction, st: seq<Value>, m: Memory)
    requires IsBinary(instr)
    ensures var n, o := |st|, Operate(names, global, fn, frame, instr, st, m);
      if n < 2 then o == None
      else
        match BinaryInstruction(instr, m, st[n-2], st[n-1])
        case Some((v, m')) => o == Some((st[..n-2] + [v], m'))
        case None => o == None
  {
    hide BinaryInstruction, Look, HasLocal;
  }

  predicate IsOperator(instr: Instruction) {
    instr.Add? || instr.Sub? || instr.Mul? || instr.Div? || instr.Neg? || instr.Not? || instr.Gt? || instr.Geq? || instr.Eq?
    || instr.And? || instr.Or?
  }

  lemma {:induction false} Remaining(st: seq<Value>, k: nat)
    requires k < |st|
    ensures st[..|st|-k][..|st|-k-1] == st[..|st|-1-k] && st[..|st|-k][|st|-k-1] == st[|st|-1-k]
  {}

  lemma {:induction false} StillBelow(a: seq<FrameEntry>, b: seq<FrameEntry>, c: seq<FrameEntry>)
    requires SameBelow(a, b) && SameBelow(b, c)
    ensures SameBelow(a, c) && c != []
  {}

  lemma {:induction false} FrameStays(a: seq<FrameEntry>, b: seq<FrameEntry>)
    requires SameBelow(a, b)
    ensures b != []
  {}

  lemma {:induction false} Slices(st: seq<Value>)
    ensures |st| >= 2 ==> st[..|st|-1][..|st|-2] == st[..|st|-2]
    ensures |st| >= 3 ==> st[..|st|-2][..|st|-3] == st[..|st|-3]
  {}

  function Viewed(names: seq<string>, global: Addr, frames: seq<FrameEntry>, saved: seq<Saved>, fn: Function, ip: int, m: Memory): Machine
    requires |frames| == |saved| + 1
  {
    var n := |saved|;
    Machine(names, global, Activations(frames[..n], saved), Activation(fn, ip, frames[n].frame, frames[n].stack), m)
  }

  class Interpreter {
    var names: seq<string>
    var global: Addr
    var frames: seq<FrameEntry>
    var currentFunction: Function
    var instructionPointer: int
    var mem: Memory
    /** The calls in progress. */
    ghost var saved: seq<Saved>

    ghost predicate Valid()
      reads this
    {
      |frames| == |saved| + 1
    }

    /** The state machine's view of the interpreter. */
    ghost function View(): Machine
      requires Valid()
      reads this
    {
      Viewed(names, global, frames, saved, currentFunction, instructionPointer, mem)
    }

    /** The view when a frame has been pushed for `fn` and control is at `ip` in it,
        while the fields still describe the caller. */
    ghost function Deep(fn: Function, ip: int): Machine
      requires |frames| == |saved| + 2
      reads this
    {
      Viewed(names, global, frames, saved + [Saved(currentFunction, instructionPointer)], fn, ip, mem)
    }

    function Stack(): seq<Value>
      requires frames != []
      reads this
    {
      frames[|frames|-1].stack
    }

    function Frame(): Addr
      requires frames != []
      reads this
    {
      frames[|frames|-1].frame
    }

    constructor ()
      ensures frames == []
    {
      names, global, frames := [], 0, [];
      currentFunction, instructionPointer := EMPTY_FUNCTION, 0;
      mem := Memory(map[], 0, []);
      saved := [];
    }

    // -------------------------------------------------------------- operand stack

    method Push(v: Value)
      requires frames != []
      modifies this`frames
      ensures SameBelow(old(frames), frames) && Stack() == old(Stack()) + [v]
    {
      frames := WithStack(frames, Stack() + [v]);
    }

    /** Popping an empty stack throws. */
    method Pop() returns (ok: bool, v: Value)
      requires frames != []
      modifies this`frames
      ensures ok == (old(Stack()) != [])
      ensures SameBelow(old(frames), frames)
      ensures ok ==> v == old(Stack())[|old(Stack())|-1] && Stack() == old(Stack())[..|old(Stack())|-1]
    {
      var st := Stack();
      if st == [] {
        return false, NONE;
      }
      ok, v := true, st[|st|-1];
      frames := WithStack(frames, st[..|st|-1]);
    }

    // -------------------------------------------------------------- instructions

    /** What `Operate` says the instruction does; `!ok` is an exception. */
    twostate predicate Did(instr: Instruction, ok: bool)
      reads this
    {
      old(frames) != [] && frames != [] &&
      var o := Operate(old(names), old(global), old(currentFunction), old(Frame()), instr, old(Stack()), old(mem));
      && ok == o.Some?
      && (ok ==> SameBelow(old(frames), frames) && Stack() == o.value.0 && mem == o.value.1)
      && names == old(names) && global == old(global) && saved == old(saved)
      && currentFunction == old(currentFunction) && instructionPointer == old(instructionPointer)
    }

    method Load(instr: Instruction) returns (ok: bool)
      requires frames != []
      requires instr.LoadConst? || instr.LoadFunc? || instr.LoadLocal? || instr.LoadGlobal? || instr.PushReference?
      modifies this`frames
      ensures Did(instr, ok)
    {
      match instr
      case LoadConst(i) =>
        if !(0 <= i < |currentFunction.constants|) { return false; }
        Push(Const(currentFunction.constants[i]));
        ok := true;
      case LoadFunc(i) =>
        if !(0 <= i < |currentFunction.functions|) { return false; }
        Push(Func(currentFunction.functions[i]));
        ok := true;
      case LoadLocal(i) =>
        if !HasLocal(mem.heap, Frame(), i) { return false; }
        Push(mem.heap[Frame()].locals[i]);
        ok := true;
      case LoadGlobal(i) =>
        if !(0 <= i < |currentFunction.names|) { return false; }
        var slot := GlobalSlot(names, currentFunction.names[i]);
        if !HasLocal(mem.heap, global, slot) { return false; }
        Push(mem.heap[global].locals[slot]);
        ok := true;
      case PushReference(i) =>
        if !(Frame() in mem.heap && mem.heap[Frame()].FrameObj? && 0 <= i < |mem.heap[Frame()].refs|) { return false; }
        Push(Ptr(mem.heap[Frame()].refs[i]));
        ok := true;
    }

    method Store(instr: Instruction) returns (ok: bool)
      requires frames != [] && (instr.StoreLocal? || instr.StoreGlobal?)
      modifies this`frames, this`mem
      ensures Did(instr, ok)
    {
      var v;
      ok, v := Pop();
      if !ok { return; }
      if instr.StoreLocal? {
        if !HasLocal(mem.heap, Frame(), instr.i) { return false; }
        mem := SetLocal(mem, Frame(), instr.i, v);
      } else {
        if !(0 <= instr.i < |currentFunction.names|) { return false; }
        var slot := GlobalSlot(names, currentFunction.names[instr.i]);
        if !HasLocal(mem.heap, global, slot) { return false; }
        mem := SetLocal(mem, global, slot, v);
      }
    }

    method ThroughReference(instr: Instruction) returns (ok: bool)
      requires frames != [] && (instr.LoadReference? || instr.StoreReference?)
      modifies this`frames, this`mem
      ensures Did(instr, ok)
    {
      Slices(Stack());
      var r, v;
      ok, r := Pop();
      if !ok { return; }
      match Look(mem.heap, r)
      case ReferenceW(frame, i) =>
        if instr.LoadReference? {
          if !HasLocal(mem.heap, frame, i) { return false; }
          Push(mem.heap[frame].locals[i]);
        } else {
          ok, v := Pop();
          if !ok || !HasLocal(mem.heap, frame, i) { return false; }
          mem := SetLocal(mem, frame, i, v);
        }
      case _ => ok := false;
    }

    method AllocateRecord() returns (ok: bool)
      requires frames != []
      modifies this`frames, this`mem
      ensures Did(AllocRecord, ok)
    {
      var record := Ptr(mem.next);
      mem := Alloc(mem, RecordObj(map[]));
      Push(record);
      ok := true;
    }

    method FieldAccess(instr: Instruction) returns (ok: bool)
      requires frames != [] && (instr.FieldLoad? || instr.FieldStore?)
      modifies this`frames, this`mem
      ensures Did(instr, ok)
    {
      Slices(Stack());
      if !(0 <= instr.i < |currentFunction.names|) { return false; }
      var field := currentFunction.names[instr.i];
      var v, x;
      ok, v := Pop();
      if !ok { return; }
      if instr.FieldLoad? {
        match ReadRecord(mem.heap, v, field)
        case None => ok := false;
        case Some(value) => Push(value);
      } else {
        ok, x := Pop();
        if !ok { return; }
        match Look(mem.heap, x)
        case RecordW(a) =>
          if !(a in mem.heap && mem.heap[a].RecordObj?) { return false; }
          mem := SetField(mem, a, field, v);
        case _ => ok := false;
      }
    }

    method LoadIndex() returns (ok: bool)
      requires frames != []
      modifies this`frames
      ensures Did(IndexLoad, ok)
    {
      hide ToString, Look;
      Slices(Stack());
      var index, x;
      ok, index := Pop();
      if !ok { return; }
      var field := Render(mem.heap, index, {});
      if field == None { return false; }
      ok, x := Pop();
      if !ok { return; }
      match ReadRecord(mem.heap, x, field.value)
      case None => ok := false;
      case Some(value) => Push(value);
    }

    method StoreIndex() returns (ok: bool)
      requires frames != []
      modifies this`frames, this`mem
      ensures Did(IndexStore, ok)
    {
      hide ToString, Look;
      Slices(Stack());
      var v, index, x;
      ok, v := Pop();
      if !ok { return; }
      ok, index := Pop();
      if !ok { return; }
      var field := Render(mem.heap, index, {});
      if field == None { return false; }
      ok, x := Pop();
      if !ok { return; }
      match Look(mem.heap, x)
      case RecordW(a) =>
        if !(a in mem.heap && mem.heap[a].RecordObj?) { return false; }
        mem := SetField(mem, a, field.value, v);
      case _ => ok := false;
    }

    /** The right operand is popped first. */
    method PopTwo() returns (ok: bool, right: Value, left: Value)
      requires frames != []
      modifies this`frames
      ensures SameBelow(old(frames), frames)
      ensures var st, n := old(Stack()), |old(Stack())|;
        ok == (n >= 2) && (ok ==> right == st[n-1] && left == st[n-2] && Stack() == st[..n-2])
    {
      Slices(Stack());
      left := NONE;
      ok, right := Pop();
      if !ok { return; }
      ok, left := Pop();
    }

    method AddInstruction() returns (ok: bool)
      requires frames != []
      modifies this`frames, this`mem
      ensures Did(Add, ok)
    {
      hide Operate, ToString;
      OperateBinary(names, global, currentFunction, Frame(), Add, Stack(), mem);
      var right, left;
      ok, right, left := PopTwo();
      if !ok { return; }
      var lw, rw := Look(mem.heap, left), Look(mem.heap, right);
      if lw.IntegerW? && rw.IntegerW? {
        var result := Ptr(mem.next);
        mem := Alloc(mem, IntegerObj(lw.int_ + rw.int_));
        Push(result);
        return;
      }
      if !lw.StringW? && !rw.StringW? { return false; }
      var a := Render(mem.heap, left, {});
      var b := Render(mem.heap, right, {});
      if a == None || b == None { return false; }
      var result := Ptr(mem.next);
      mem := Alloc(mem, StringObj(a.value + b.value));
      Push(result);
    }

    /** The right operand is popped and checked first. */
    method PopIntegers() returns (ok: bool, left: int, right: int)
      requires frames != []
      modifies this`frames
      ensures SameBelow(old(frames), frames)
      ensures var st, n := old(Stack()), |old(Stack())|;
        && ok == (n >= 2 && Look(mem.heap, st[n-2]).IntegerW? && Look(mem.heap, st[n-1]).IntegerW?)
        && (ok ==> Stack() == st[..n-2] && Look(mem.heap, st[n-2]) == IntegerW(left) && Look(mem.heap, st[n-1]) == IntegerW(right))
    {
      Slices(Stack());
      left, right := 0, 0;
      var v, u;
      ok, v := Pop();
      if !ok { return; }
      if !Look(mem.heap, v).IntegerW? { return false, 0, 0; }
      right := Look(mem.heap, v).int_;
      ok, u := Pop();
      if !ok { return; }
      if !Look(mem.heap, u).IntegerW? { return false, 0, 0; }
      left := Look(mem.heap, u).int_;
    }

    method ComparisonInstruction(instr: Instruction) returns (ok: bool)
      requires frames != [] && (instr.Gt? || instr.Geq?)
      modifies this`frames
      ensures Did(instr, ok)
    {
      hide Operate;
      OperateBinary(names, global, currentFunction, Frame(), instr, Stack(), mem);
      var left, right;
      ok, left, right := PopIntegers();
      if !ok { return; }
      Push(Boolean(if instr.Gt? then left > right else left >= right));
    }

    method ArithmeticInstruction(instr: Instruction) returns (ok: bool)
      requires frames != [] && (instr.Sub? || instr.Mul? || instr.Div?)
      modifies this`frames, this`mem
      ensures Did(instr, ok)
    {
      hide Operate, TruncatedQuotient;
      OperateBinary(names, global, currentFunction, Frame(), instr, Stack(), mem);
      var left, right;
      ok, left, right := PopIntegers();
      if !ok { return; }
      if instr.Div? && right == 0 { return false; }
      var result := Ptr(mem.next);
      mem := Alloc(mem, IntegerObj(
        if instr.Sub? then left - right else if instr.Mul? then left * right else TruncatedQuotient(left, right)));
      Push(result);
    }

    method BooleanInstruction(instr: Instruction) returns (ok: bool)
      requires frames != [] && (instr.And? || instr.Or?)
      modifies this`frames
      ensures Did(instr, ok)
    {
      hide Operate;
      OperateBinary(names, global, currentFunction, Frame(), instr, Stack(), mem);
      var right, left;
      ok, right, left := PopTwo();
      if !ok { return; }
      var lw, rw := Look(mem.heap, left), Look(mem.heap, right);
      if !rw.BoolW? || !lw.BoolW? { return false; }
      Push(Boolean(if instr.And? then lw.flag && rw.flag else lw.flag || rw.flag));
    }

    method EqInstruction() returns (ok: bool)
      requires frames != []
      modifies this`frames
      ensures Did(Eq, ok)
    {
      hide Operate;
      OperateBinary(names, global, currentFunction, Frame(), Eq, Stack(), mem);
      var right, left;
      ok, right, left := PopTwo();
      if !ok { return; }
      var lw, rw := Look(mem.heap, left), Look(mem.heap, right);
      var result := false;
      if lw.IntegerW? && rw.IntegerW? { result := lw.int_ == rw.int_; }
      if lw.BoolW? && rw.BoolW? { result := lw.flag == rw.flag; }
      if lw.StringW? && rw.StringW? { result := lw.text == rw.text; }
      if lw.NoneW? && rw.NoneW? { result := true; }
      if lw.RecordW? && rw.RecordW? { result := lw.a == rw.a; }
      Push(Boolean(result));
    }

    method UnaryInstruction(instr: Instruction) returns (ok: bool)
      requires frames != [] && (instr.Neg? || instr.Not?)
      modifies this`frames, this`mem
      ensures Did(instr, ok)
    {
      Slices(Stack());
      var v;
      ok, v := Pop();
      if !ok { return; }
      var w := Look(mem.heap, v);
      if instr.Not? {
        if !w.BoolW? { return false; }
        Push(Boolean(!w.flag));
      } else {
        if !w.IntegerW? { return false; }
        var result := Ptr(mem.next);
        mem := Alloc(mem, IntegerObj(-w.int_));
        Push(result);
      }
    }

    method DupInstruction() returns (ok: bool)
      requires frames != []
      modifies this`frames
      ensures Did(Dup, ok)
    {
      ghost var st := Stack();
      Slices(st);
      var v;
      ok, v := Pop();
      if !ok { return; }
      Push(v);
      Push(v);
      assert Stack() == st + [v];
    }

    method SwapInstruction() returns (ok: bool)
      requires frames != []
      modifies this`frames
      ensures Did(Swap, ok)
    {
      ghost var st := Stack();
      Slices(st);
      var v, u;
      ok, v := Pop();
      if !ok { return; }
      ok, u := Pop();
      if !ok { return; }
      Push(v);
      Push(u);
      assert Stack() == st[..|st|-2] + [v, u];
    }

    method PopInstruction() returns (ok: bool)
      requires frames != []
      modifies this`frames
      ensures Did(Instruction.Pop, ok)
    {
      var v;
      ok, v := Pop();
    }

    // -------------------------------------------------------------- closures

    /** The references come off the stack last one first and fill the closure's
        array from its end. */
    method PopReferences(count: nat) returns (ok: bool, free: seq<Addr>)
      requires frames != []
      modifies this`frames
      ensures ok == (count <= |old(Stack())| && Addresses(mem.heap, old(Stack())[|old(Stack())|-count..]).Some?)
      ensures ok ==> Addresses(mem.heap, old(Stack())[|old(Stack())|-count..]) == Some(free)
      ensures SameBelow(old(frames), frames) && (ok ==> Stack() == old(Stack())[..|old(Stack())|-count])
    {
      hide Addresses;
      ghost var st := Stack();
      ghost var all := frames;
      free := seq(count, _ => 0);
      assert st[..|st|-0] == st;
      for i := 0 to count
        invariant |free| == count && i <= |st| && frames != []
        invariant SameBelow(all, frames) && Stack() == st[..|st|-i]
        invariant forall j :: count - i <= j < count ==>
          st[|st| - count + j] == Ptr(free[j]) && Look(mem.heap, Ptr(free[j])).ReferenceW?
      {
        var v;
        ok, v := Pop();
        if !ok { return; }
        assert st[..|st|-i][..|st|-i-1] == st[..|st|-i-1] && v == st[|st|-i-1];
        if !v.Ptr? || !Look(mem.heap, v).ReferenceW? {
          NotAReference(mem.heap, st, i + 1, count);
          return false, free;
        }
        free := free[count - i - 1 := v.a];
      }
      AllReferences(mem.heap, st[|st|-count..], free);
      ok := true;
    }

    /** What `AllocClosure` comes to. */
    static ghost function ClosureResult(k: nat, st: seq<Value>, m: Memory): Option<(seq<Value>, Memory)> {
      if k >= |st| || !Look(m.heap, st[|st|-1-k]).FunctionW? || Addresses(m.heap, st[|st|-k..]).None? then None
      else
        var closure := ClosureObj(Look(m.heap, st[|st|-1-k]).f, Addresses(m.heap, st[|st|-k..]).value);
        Some((st[..|st|-1-k] + [Ptr(m.next)], Alloc(m, closure)))
    }

    static lemma {:induction false} ClosureOperates(names: seq<string>, global: Addr, fn: Function, frame: Addr, k: nat, st: seq<Value>, m: Memory)
      ensures Operate(names, global, fn, frame, AllocClosure(k), st, m) == ClosureResult(k, st, m)
    {
      hide Addresses, Look, Alloc;
    }

    method AllocateClosure(count: int) returns (ok: bool)
      requires frames != []
      modifies this`frames, this`mem
      ensures Did(AllocClosure(count), ok)
    {
      hide Addresses, Look, SameBelow;
      if count < 0 { return false; }
      ghost var st := Stack();
      ClosureOperates(names, global, currentFunction, Frame(), count, st, mem);
      hide Operate;
      var free, f;
      ghost var before := frames;
      ok, free := PopReferences(count);
      FrameStays(before, frames);
      ghost var popped := frames;
      if !ok { return; }
      ok, f := Pop();
      StillBelow(before, popped, frames);
      popped := frames;
      if !ok { return; }
      Remaining(st, count);
      match Look(mem.heap, f)
      case FunctionW(fn) =>
        var closure := Ptr(mem.next);
        mem := Alloc(mem, ClosureObj(fn, free));
        Push(closure);
        StillBelow(before, popped, frames);
      case _ => ok := false;
    }

    // -------------------------------------------------------------- control

    method Control(instr: Instruction) returns (ok: bool)
      requires frames != [] && (instr.Goto? || instr.If? || instr.Return?)
      modifies this`frames, this`instructionPointer
      ensures SameBelow(old(frames), frames)
      ensures instr.Goto? ==> ok && Stack() == old(Stack()) && instructionPointer == old(instructionPointer) + instr.offset - 1
      ensures instr.Return? ==> ok == (old(Stack()) != [])
      ensures instr.Return? && ok ==> Stack() == old(Stack()) && instructionPointer == |currentFunction.instructions|
      ensures instr.If? ==> ok == (old(Stack()) != [] && Look(mem.heap, old(Stack())[|old(Stack())|-1]).BoolW?)
      ensures instr.If? && ok ==> Stack() == old(Stack())[..|old(Stack())|-1]
      ensures instr.If? && ok ==>
        (instructionPointer == old(instructionPointer)
          + (if Look(mem.heap, old(Stack())[|old(Stack())|-1]).flag then instr.offset - 1 else 0))
    {
      match instr
      case Goto(offset) =>
        instructionPointer := instructionPointer + offset;
        instructionPointer := instructionPointer - 1;
        ok := true;
      case If(offset) =>
        var v;
        ok, v := Pop();
        if !ok { return; }
        if !Look(mem.heap, v).BoolW? { return false; }
        if Look(mem.heap, v).flag {
          instructionPointer := instructionPointer + offset;
          instructionPointer := instructionPointer - 1;
        }
      case Return =>
        var v;
        ok, v := Pop();
        if !ok { return; }
        Push(v);
        instructionPointer := |currentFunction.instructions|;
    }

    /** Arithmetic, comparison and logic. */
    method Operator(instr: Instruction) returns (ok: bool)
      requires frames != [] && IsOperator(instr)
      modifies this`frames, this`mem
      ensures Did(instr, ok)
    {
      hide Operate;
      if instr.Add? {
        ok := AddInstruction();
      } else if instr.Sub? || instr.Mul? || instr.Div? {
        ok := ArithmeticInstruction(instr);
      } else if instr.Neg? || instr.Not? {
        ok := UnaryInstruction(instr);
      } else if instr.Gt? || instr.Geq? {
        ok := ComparisonInstruction(instr);
      } else if instr.Eq? {
        ok := EqInstruction();
      } else {
        ok := BooleanInstruction(instr);
      }
    }

    method Plain(instr: Instruction) returns (ok: bool)
      requires frames != [] && IsPlain(instr)
      modifies this`frames, this`mem
      ensures Did(instr, ok)
    {
      if instr.PushNamed? { return false; }
      hide Operate;
      if instr.StoreLocal? || instr.StoreGlobal? {
        ok := Store(instr);
      } else if instr.LoadReference? || instr.StoreReference? {
        ok := ThroughReference(instr);
      } else if instr.AllocRecord? {
        ok := AllocateRecord();
      } else if instr.FieldLoad? || instr.FieldStore? {
        ok := FieldAccess(instr);
      } else if instr.IndexLoad? {
        ok := LoadIndex();
      } else if instr.IndexStore? {
        ok := StoreIndex();
      } else if instr.AllocClosure? {
        ok := AllocateClosure(instr.n);
      } else if IsOperator(instr) {
        ok := Operator(instr);
      } else if instr.Dup? {
        ok := DupInstruction();
      } else if instr.Swap? {
        ok := SwapInstruction();
      } else if instr.Pop? {
        ok := PopInstruction();
      } else {
        ok := Load(instr);
      }
    }

    // -------------------------------------------------------------- calls

    /** Allocates the frame, sets every local to None, then the arguments, makes
        the references to captured locals and copies the closure's. */
    method NewFrame(fn: Function, free: seq<Addr>, args: seq<Value>) returns (frame: Addr)
      requires |args| <= |fn.localVars|
      modifies this`mem
      ensures mem == EnterFrame(old(mem), fn, free, args) && frame == old(mem.next)
    {
      frame := mem.next;
      var locals := seq(|fn.localVars|, _ => NONE);
      for i := 0 to |args|
        invariant |locals| == |fn.localVars|
        invariant forall j :: 0 <= j < |locals| ==> locals[j] == if j < i then args[j] else NONE
      {
        locals := locals[i := args[i]];
      }
      assert locals == args + seq(|fn.localVars| - |args|, _ => NONE);
      mem := Alloc(mem, FrameObj(locals, []));
      ghost var m1 := mem;
      var refs: seq<Addr> := [];
      var indices := fn.localReferenceIndices;
      assert indices[0..] == indices;
      for i := 0 to |indices|
        invariant MakeReferences(m1, frame, indices).0 == MakeReferences(mem, frame, indices[i..]).0
        invariant MakeReferences(m1, frame, indices).1 == refs + MakeReferences(mem, frame, indices[i..]).1
      {
        assert indices[i..][0] == indices[i] && indices[i..][1..] == indices[i + 1..];
        refs := refs + [mem.next];
        mem := Alloc(mem, ReferenceObj(frame, indices[i]));
      }
      for i := 0 to |free|
        invariant refs == MakeReferences(m1, frame, indices).1 + free[..i]
      {
        assert free[..i + 1] == free[..i] + [free[i]];
        refs := refs + [free[i]];
      }
      assert free[..|free|] == free;
      mem := mem.(heap := mem.heap[frame := FrameObj(locals, refs)]);
    }

    /** Pops the arguments, last one first. */
    method PopArguments(count: nat) returns (ok: bool, args: seq<Value>)
      requires frames != []
      modifies this`frames
      ensures SameBelow(old(frames), frames)
      ensures ok == (count <= |old(Stack())|)
      ensures ok ==> args == old(Stack())[|old(Stack())|-count..] && Stack() == old(Stack())[..|old(Stack())|-count]
    {
      ghost var st := Stack();
      args := seq(count, _ => NONE);
      for i := 0 to count
        invariant |args| == count && i <= |st| && frames != []
        invariant SameBelow(old(frames), frames) && Stack() == st[..|st|-i]
        invariant forall j :: count - i <= j < count ==> args[j] == st[|st| - count + j]
      {
        var v;
        ok, v := Pop();
        if !ok { return; }
        assert st[..|st|-i][..|st|-i-1] == st[..|st|-i-1];
        args := args[count - i - 1 := v];
      }
      ok := true;
    }

    // -------------------------------------------------------------- the loop

    /** One instruction. Whatever it calls has run to completion when it is done. */
    method ExecuteInstruction(fuel: nat) returns (status: Status)
      requires Valid() && 0 <= instructionPointer < |currentFunction.instructions|
      modifies this
      ensures status == Done ==> Valid() && saved == old(saved) && currentFunction == old(currentFunction)
      ensures status == Done ==> names == old(names) && global == old(global)
      ensures status == Done ==> exists n: nat :: n > 0 && Steps(n, old(View())) == Running(View())
      ensures status == Threw ==> exists n: nat :: Steps(n, old(View())) == Failed
      ensures status == OutOfFuel ==> Steps(fuel + 1, old(View())).Running?
      decreases fuel, 5
    {
      hide Operate, Step;
      ghost var start := View();
      var instr := currentFunction.instructions[instructionPointer];
      if instr.Call? {
        status := Call(instr.n, fuel);
        if status == Done {
          instructionPointer := instructionPointer + 1;
        }
        return;
      }
      var ok;
      if IsPlain(instr) {
        ghost var before := frames;
        ok := Plain(instr);
        PlainStep(start, instr, before, frames, saved, mem, ok);
      } else {
        ghost var before := frames;
        ok := Control(instr);
        ControlStep(start, instr, before, frames, saved, instructionPointer, ok);
      }
      status := if ok then Done else Threw;
      if ok { instructionPointer := instructionPointer + 1; }
      OneStep(start);
    }

    /** `call`: everything but the final increment of the instruction pointer. */
    method Call(count: int, fuel: nat) returns (status: Status)
      requires Valid() && 0 <= instructionPointer < |currentFunction.instructions|
      requires currentFunction.instructions[instructionPointer] == Instruction.Call(count)
      modifies this
      ensures status == Done ==> Valid() && saved == old(saved) && currentFunction == old(currentFunction)
      ensures status == Done ==> names == old(names) && global == old(global) && instructionPointer == old(instructionPointer)
      ensures status == Done ==>
        (exists n: nat :: n > 0 && Steps(n, old(View()))
          == Running(Viewed(names, global, frames, saved, currentFunction, instructionPointer + 1, mem)))
      ensures status == Threw ==> exists n: nat :: Steps(n, old(View())) == Failed
      ensures status == OutOfFuel ==> Steps(fuel + 1, old(View())).Running?
      decreases fuel, 4
    {
      hide Operate, Step, EnterFrame, ToString, Steps;
      ghost var start, st := View(), Stack();
      ghost var before := frames;
      OneStep(start);
      CallStep(start, count);
      if count < 0 { return Threw; }
      var ok, args := PopArguments(count);
      if !ok { return Threw; }
      var found, closure := Pop();
      if !found { return Threw; }
      assert st[..|st|-count][..|st|-count-1] == st[..|st|-1-count] && closure == st[|st|-1-count];
      match Look(mem.heap, closure)
      case ClosureW(fn, free) =>
        if count != fn.parameterCount || count > |fn.localVars| { return Threw; }
        assert args == st[|st|-count..];
        if fn.builtin == Compiled {
          status := CallCompiled(start, before, fn, free, args, fuel);
        } else if fn.builtin == PrintFunction {
          status := CallPrint(start, before, fn, free, args);
        } else {
          status := Threw;
        }
      case _ => status := Threw;
    }

    /** Closure and arguments are off the caller's stack. */
    ghost predicate Called(start: Machine, before: seq<FrameEntry>, fn: Function, free: seq<Addr>, args: seq<Value>)
      requires Valid()
      reads this
    {
      var st, count := start.current.stack, |args|;
      && |before| == |saved| + 1
      && start == Viewed(names, global, before, saved, currentFunction, instructionPointer, mem)
      && count < |st| && count == fn.parameterCount <= |fn.localVars| && args == st[|st|-count..]
      && Look(mem.heap, st[|st|-1-count]) == ClosureW(fn, free)
      && SameBelow(before, frames) && Stack() == st[..|st|-1-count]
      && Step(start) == DoCall(start, count)
    }

    method CallPrint(ghost start: Machine, ghost before: seq<FrameEntry>, fn: Function, free: seq<Addr>, args: seq<Value>)
      returns (status: Status)
      requires Valid() && fn.builtin == PrintFunction && Called(start, before, fn, free, args)
      modifies this`frames, this`mem
      ensures status == Done ==> Valid()
      ensures status == Done ==>
        Steps(1, start) == Running(Viewed(names, global, frames, saved, currentFunction, instructionPointer + 1, mem))
      ensures status == Threw ==> Steps(1, start) == Failed
      ensures status != OutOfFuel
    {
      hide Operate, Step, EnterFrame, ToString, Steps;
      OneStep(start);
      var frame := NewFrame(fn, free, args);
      if |args| == 0 { return Threw; }
      var line := Render(mem.heap, args[0], {});
      if line == None { return Threw; }
      mem := mem.(out := mem.out + [line.value]);
      Push(NONE);
      SameCallers(before, frames, saved);
      status := Done;
    }

    method CallCompiled(ghost start: Machine, ghost before: seq<FrameEntry>, fn: Function, free: seq<Addr>, args: seq<Value>, fuel: nat)
      returns (status: Status)
      requires Valid() && fn.builtin == Compiled && Called(start, before, fn, free, args)
      modifies this
      ensures status == Done ==> Valid() && saved == old(saved) && currentFunction == old(currentFunction)
      ensures status == Done ==> names == old(names) && global == old(global) && instructionPointer == old(instructionPointer)
      ensures status == Done ==>
        (exists n: nat :: n > 0 && Steps(n, start)
          == Running(Viewed(names, global, frames, saved, currentFunction, instructionPointer + 1, mem)))
      ensures status == Threw ==> exists n: nat :: Steps(n, start) == Failed
      ensures status == OutOfFuel ==> Steps(fuel + 1, start).Running?
      decreases fuel, 3
    {
      hide Operate, Step, EnterFrame, ToString, Steps, DoCall, MakeReferences, Look;
      var frame := NewFrame(fn, free, args);
      EnterStep(start, before, frames, saved, fn, free, |args|, mem);
      frames := frames + [FrameEntry(frame, [])];
      ghost var inner, ip := Deep(fn, 0), 0;
      status, ip := ExecuteFunction(fn, fuel);
      AfterFirst(start, inner, fuel);
      if status != Done { return; }
      ghost var last := Deep(fn, ip);
      ThroughLast(start, inner, last);
      status := HandBack(fn, ip);
    }

    /** The end of `call`: the callee's frame goes and its top operand is pushed on
        the caller's stack. */
    method HandBack(ghost fn: Function, ghost ip: int) returns (status: Status)
      requires |frames| == |saved| + 2 && ip >= |fn.instructions|
      modifies this`frames
      ensures status == Done ==> Valid()
      ensures status == Done ==>
        Step(old(Deep(fn, ip))) == Running(Viewed(names, global, frames, saved, currentFunction, instructionPointer + 1, mem))
      ensures status == Threw ==> Step(old(Deep(fn, ip))) == Failed
      ensures status != OutOfFuel
    {
      hide Step, Operate;
      ghost var last, deep := Deep(fn, ip), frames;
      var returned, value := Pop();
      if !returned {
        ReturnFails(last);
        return Threw;
      }
      frames := frames[..|frames|-1];
      Push(value);
      ReturnStep(last, deep, frames, saved, Saved(currentFunction, instructionPointer));
      status := Done;
    }

    /** `executeFunction`: saves the caller's function and instruction pointer and
        restores them when the loop is over. */
    method ExecuteFunction(fn: Function, fuel: nat) returns (status: Status, ghost ip: int)
      requires |frames| == |saved| + 2
      modifies this
      ensures status == Done ==> saved == old(saved) && |frames| == |saved| + 2
      ensures status == Done ==> currentFunction == old(currentFunction) && instructionPointer == old(instructionPointer)
      ensures status == Done ==> names == old(names) && global == old(global)
      ensures status == Done ==> ip >= |fn.instructions|
      ensures status == Done ==> exists n: nat :: Steps(n, old(Deep(fn, 0))) == Running(Deep(fn, ip))
      ensures status == Threw ==> exists n: nat :: Steps(n, old(Deep(fn, 0))) == Failed
      ensures status == OutOfFuel ==> Steps(fuel, old(Deep(fn, 0))).Running?
      decreases fuel, 2
    {
      hide Steps;
      var prevFunction, prevInstructionPointer := currentFunction, instructionPointer;
      ghost var inner := Deep(fn, 0);
      saved := saved + [Saved(prevFunction, prevInstructionPointer)];
      currentFunction := fn;
      instructionPointer := 0;
      assert View() == inner;
      status := Loop(fuel);
      ip := instructionPointer;
      if status == Done {
        ghost var last := View();
        currentFunction := prevFunction;
        instructionPointer := prevInstructionPointer;
        saved := saved[..|saved|-1];
        assert Deep(fn, ip) == last;
      }
    }

    method Loop(fuel: nat) returns (status: Status)
      requires Valid()
      modifies this
      ensures status == Done ==> Valid() && saved == old(saved) && currentFunction == old(currentFunction)
      ensures status == Done ==> names == old(names) && global == old(global)
      ensures status == Done ==> instructionPointer >= |currentFunction.instructions|
      ensures status == Done ==> exists n: nat :: Steps(n, old(View())) == Running(View())
      ensures status == Threw ==> exists n: nat :: Steps(n, old(View())) == Failed
      ensures status == OutOfFuel ==> Steps(fuel, old(View())).Running?
      decreases fuel, 1
    {
      hide Step;
      var left: nat := fuel;
      ghost var start := View();
      ghost var steps: nat := 0;
      assert Steps(0, start) == Running(start);
      while instructionPointer < |currentFunction.instructions|
        invariant Valid() && saved == old(saved) && currentFunction == old(currentFunction)
        invariant names == old(names) && global == old(global)
        invariant left <= fuel && steps >= fuel - left
        invariant Steps(steps, start) == Running(View())
        decreases left
      {
        if left == 0 {
          StillRunning(steps, fuel, start);
          return OutOfFuel;
        }
        left := left - 1;
        ghost var here := View();
        if instructionPointer < 0 {
          NegativePointer(here);
          StepsCompose(steps, 1, start, here);
          return Threw;
        }
        status := ExecuteInstruction(left);
        match status
        case Done =>
          ghost var n: nat :| n > 0 && Steps(n, here) == Running(View());
          StepsCompose(steps, n, start, here);
          steps := steps + n;
        case Threw =>
          ghost var n: nat :| Steps(n, here) == Failed;
          StepsCompose(steps, n, start, here);
          return;
        case OutOfFuel =>
          StepsCompose(steps, left + 1, start, here);
          StillRunning(steps + left + 1, fuel, start);
          return;
      }
      status := Done;
    }

    // -------------------------------------------------------------- programs

    /** `executeProgram`. With enough fuel it does exactly what the state machine
        does: it finishes with the machine's output, or throws where it fails. */
    method ExecuteProgram(program: Function, fuel: nat) returns (status: Status)
      requires |program.functions| >= 3
      modifies this
      ensures status == Done ==> exists n: nat :: Steps(n, Start(program)) == Finished(mem.out)
      ensures status == Threw ==> exists n: nat :: Steps(n, Start(program)) == Failed
      ensures status == OutOfFuel ==> Steps(fuel, Start(program)).Running?
    {
      hide Step, Steps;
      names := program.names;
      global := 0;
      var locals := seq(|names|, _ => NONE);
      mem := Memory(map[0 := FrameObj(locals, [])], 1, []);
      frames := [FrameEntry(global, [])];
      currentFunction := LinkBuiltins(program);
      instructionPointer := 0;
      saved := [];
      ghost var start := Start(program);
      assert View() == start;
      status := Loop(fuel);
      if status == Done {
        ghost var last := View();
        ghost var n: nat :| Steps(n, start) == Running(last);
        StepsCompose(n, 1, start, last);
        OneStep(last);
        EndOfProgram(last);
        assert Steps(n + 1, start) == Finished(mem.out);
      }
    }
  }

  lemma {:induction false} EndOfProgram(vm: Machine)
    requires vm.current.ip >= |vm.current.fn.instructions| && vm.callers == []
    ensures Step(vm) == Finished(vm.mem.out)
  {}

  // ---------------------------------------------------------------- single steps

  lemma {:induction false} OneStep(vm: Machine)
    ensures Steps(1, vm) == Step(vm)
  {
    hide Step;
    match Step(vm)
    case Running(vm') => assert Steps(0, vm') == Running(vm');
    case _ =>
  }

  lemma {:induction false} StillRunning(n: nat, k: nat, vm: Machine)
    requires Steps(n, vm).Running? && k <= n
    ensures Steps(k, vm).Running?
    decreases k
  {
    hide Step;
    if k > 0 { StillRunning(n - 1, k - 1, Step(vm).vm); }
  }

  lemma {:induction false} NegativePointer(vm: Machine)
    requires vm.current.ip < 0
    ensures Steps(1, vm) == Failed
  {
    OneStep(vm);
  }

  /** The view after an instruction of the current function. */
  lemma {:induction false} SameCallers(frames: seq<FrameEntry>, frames': seq<FrameEntry>, saved: seq<Saved>)
    requires SameBelow(frames, frames') && |frames| == |saved| + 1
    ensures Activations(frames[..|saved|], saved) == Activations(frames'[..|saved|], saved)
  {}

  lemma {:induction false} PlainStep(vm: Machine, instr: Instruction, frames: seq<FrameEntry>, frames': seq<FrameEntry>, saved: seq<Saved>,
      m: Memory, ok: bool)
    requires |frames| == |saved| + 1
    requires vm == Viewed(vm.names, vm.global, frames, saved, vm.current.fn, vm.current.ip, vm.mem)
    requires 0 <= vm.current.ip < |vm.current.fn.instructions| && vm.current.fn.instructions[vm.current.ip] == instr && IsPlain(instr)
    requires var o := Operate(vm.names, vm.global, vm.current.fn, vm.current.frame, instr, vm.current.stack, vm.mem);
      ok == o.Some? && (ok ==> SameBelow(frames, frames') && frames'[|saved|].stack == o.value.0 && m == o.value.1)
    ensures ok ==> |frames'| == |saved| + 1
    ensures ok ==> Step(vm) == Running(Viewed(vm.names, vm.global, frames', saved, vm.current.fn, vm.current.ip + 1, m))
    ensures !ok ==> Step(vm) == Failed
  {
    hide Operate;
    if ok { SameCallers(frames, frames', saved); }
  }

  lemma {:induction false} ControlStep(vm: Machine, instr: Instruction, frames: seq<FrameEntry>, frames': seq<FrameEntry>, saved: seq<Saved>,
      ip: int, ok: bool)
    requires |frames| == |saved| + 1
    requires vm == Viewed(vm.names, vm.global, frames, saved, vm.current.fn, vm.current.ip, vm.mem)
    requires 0 <= vm.current.ip < |vm.current.fn.instructions| && vm.current.fn.instructions[vm.current.ip] == instr
    requires SameBelow(frames, frames') && (instr.Goto? || instr.If? || instr.Return?)
    requires var st, st', h := vm.current.stack, frames'[|saved|].stack, vm.mem.heap;
      && (instr.Goto? ==> ok && st' == st && ip == vm.current.ip + instr.offset - 1)
      && (instr.Return? ==> ok == (st != []) && (ok ==> st' == st && ip == |vm.current.fn.instructions|))
      && (instr.If? ==> ok == (st != [] && Look(h, st[|st|-1]).BoolW?))
      && (instr.If? && ok ==> st' == st[..|st|-1])
      && (instr.If? && ok ==> ip == vm.current.ip + (if Look(h, st[|st|-1]).flag then instr.offset - 1 else 0))
    ensures ok ==> Step(vm) == Running(Viewed(vm.names, vm.global, frames', saved, vm.current.fn, ip + 1, vm.mem))
    ensures !ok ==> Step(vm) == Failed
  {
    hide Operate;
    SameCallers(frames, frames', saved);
  }

  lemma {:induction false} CallStep(vm: Machine, count: int)
    requires 0 <= vm.current.ip < |vm.current.fn.instructions|
    requires vm.current.fn.instructions[vm.current.ip] == Instruction.Call(count)
    ensures Step(vm) == DoCall(vm, count)
  {}

  /** Pushing the new frame is the machine's step into the function. */
  lemma {:induction false} EnterStep(vm: Machine, before: seq<FrameEntry>, callers: seq<FrameEntry>, saved: seq<Saved>,
      fn: Function, free: seq<Addr>, count: nat, m: Memory)
    requires |before| == |saved| + 1
    requires vm == Viewed(vm.names, vm.global, before, saved, vm.current.fn, vm.current.ip, vm.mem)
    requires count < |vm.current.stack| && count == fn.parameterCount <= |fn.localVars| && fn.builtin == Compiled
    requires Look(vm.mem.heap, vm.current.stack[|vm.current.stack|-1-count]) == ClosureW(fn, free)
    requires SameBelow(before, callers) && callers[|saved|].stack == vm.current.stack[..|vm.current.stack|-1-count]
    requires m == EnterFrame(vm.mem, fn, free, vm.current.stack[|vm.current.stack|-count..])
    ensures DoCall(vm, count) == Running(Viewed(vm.names, vm.global, callers + [FrameEntry(vm.mem.next, [])],
      saved + [Saved(vm.current.fn, vm.current.ip)], fn, 0, m))
  {
    hide EnterFrame, ToString;
    var n := |saved|;
    var all, saves := callers + [FrameEntry(vm.mem.next, [])], saved + [Saved(vm.current.fn, vm.current.ip)];
    SameCallers(before, callers, saved);
    assert all[..n + 1] == callers;
    assert Activations(callers, saves) == Activations(callers[..n], saved)
      + [Activation(vm.current.fn, vm.current.ip, callers[n].frame, callers[n].stack)];
  }

  /** Popping the callee's frame and pushing its value on the caller's stack is
      the machine's return. */
  lemma {:induction false} ReturnStep(vm: Machine, deep: seq<FrameEntry>, frames: seq<FrameEntry>, saved: seq<Saved>, caller: Saved)
    requires |deep| == |saved| + 2 && vm.current.ip >= |vm.current.fn.instructions|
    requires vm == Viewed(vm.names, vm.global, deep, saved + [caller], vm.current.fn, vm.current.ip, vm.mem)
    requires vm.current.stack != [] && SameBelow(deep[..|deep|-1], frames)
    requires frames[|saved|].stack == deep[|saved|].stack + [vm.current.stack[|vm.current.stack|-1]]
    ensures Step(vm) == Running(Viewed(vm.names, vm.global, frames, saved, caller.fn, caller.ip + 1, vm.mem))
  {
    var n := |saved|;
    assert deep[..n + 1][..n] == deep[..n];
    assert vm.callers[..n] == Activations(deep[..n], saved);
    SameCallers(deep[..n + 1], frames, saved);
  }

  lemma {:induction false} ReturnFails(vm: Machine)
    requires vm.current.ip >= |vm.current.fn.instructions| && vm.callers != [] && vm.current.stack == []
    ensures Step(vm) == Failed
  {}

  /** What happens after the first step happens one step later. */
  lemma {:induction false} AfterFirst(vm: Machine, inner: Machine, fuel: nat)
    requires Step(vm) == Running(inner)
    ensures forall n: nat :: Steps(n + 1, vm) == Steps(n, inner)
    ensures Steps(fuel, inner).Running? ==> Steps(fuel, vm).Running?
    ensures (exists n: nat :: Steps(n, inner) == Failed) ==> exists n: nat :: Steps(n, vm) == Failed
  {
    hide Step;
    forall n: nat ensures Steps(n + 1, vm) == Steps(n, inner) {}
    if Steps(fuel, inner).Running? {
      assert Steps(fuel + 1, vm).Running?;
      StillRunning(fuel + 1, fuel, vm);
    }
    if exists n: nat :: Steps(n, inner) == Failed {
      var n: nat :| Steps(n, inner) == Failed;
      assert Steps(n + 1, vm) == Failed;
    }
  }

  /** A call that gets to its last state has the outcome of the step after it. */
  lemma {:induction false} ThroughLast(vm: Machine, inner: Machine, last: Machine)
    requires Step(vm) == Running(inner) && exists n: nat :: Steps(n, inner) == Running(last)
    ensures exists n: nat :: n > 0 && Steps(n, vm) == Step(last)
  {
    hide Step;
    var n: nat :| Steps(n, inner) == Running(last);
    assert Steps(n + 1, vm) == Running(last);
    StepsCompose(n + 1, 1, vm, last);
    OneStep(last);
    assert Steps(n + 2, vm) == Step(last);
  }

  lemma {:induction false} AllReferences(h: Heap, vs: seq<Value>, free: seq<Addr>)
    requires |vs| == |free| && forall j :: 0 <= j < |vs| ==> vs[j] == Ptr(free[j]) && Look(h, Ptr(free[j])).ReferenceW?
    ensures Addresses(h, vs) == Some(free)
    decreases |vs|
  {
    if vs != [] {
      AllReferences(h, vs[1..], free[1..]);
      assert free == [free[0]] + free[1..];
    }
  }

  /** One operand that is not a reference spoils the closure. */
  lemma {:induction false} NotAReference(h: Heap, st: seq<Value>, k: nat, count: nat)
    requires 0 < k <= count && k <= |st|
    requires !st[|st|-k].Ptr? || !Look(h, st[|st|-k]).ReferenceW?
    ensures count <= |st| ==> Addresses(h, st[|st|-count..]) == None
  {
    if count <= |st| { AddressesNone(h, st[|st|-count..], count - k); }
  }

  lemma {:induction false} AddressesNone(h: Heap, vs: seq<Value>, k: nat)
    requires k < |vs| && (!vs[k].Ptr? || !Look(h, vs[k]).ReferenceW?)
    ensures Addresses(h, vs) == None
    decreases k
  {
    if k > 0 { AddressesNone(h, vs[1..], k - 1); }
  }
}
