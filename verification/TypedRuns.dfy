/** Every state a compiled program can reach is well shaped: operand stacks match
    the static shapes, frames are complete, references lead to variables. What
    can still go wrong is an error of the language itself. */
module TypedRuns {
  import opened Basics
  import opened Ast
  import opened Bytecode
  import opened Codegen
  import opened Layout
  import opened LateBinding
  import opened Machine
  import opened Relation
  import opened RelationCalls
  import opened StackTyping
  import opened Transparency

  // ---------------------------------------------------------------- typed heaps

  ghost predicate IsReference(h: Heap, a: Addr) {
    a in h && h[a].ReferenceObj?
  }

  /** A value of the language: no function, reference or frame. */
  ghost predicate ValueTyped(h: Heap, v: Value) {
    v.Const? || (v.Ptr? && v.a in h && !h[v.a].ReferenceObj? && !h[v.a].FrameObj?)
  }

  ghost predicate AllTyped(h: Heap, vs: seq<Value>) {
    forall i :: 0 <= i < |vs| ==> ValueTyped(h, vs[i])
  }

  ghost predicate AllReferences(h: Heap, rs: seq<Addr>) {
    forall i :: 0 <= i < |rs| ==> IsReference(h, rs[i])
  }

  ghost predicate ObjectTyped(h: Heap, globals: seq<string>, o: Obj) {
    match o
    case IntegerObj(_) => true
    case StringObj(_) => true
    case RecordObj(fields) => forall k :: k in fields ==> ValueTyped(h, fields[k])
    case ClosureObj(code, free) =>
      CodeOk(code, globals) && |free| == |code.freeVars| && AllReferences(h, free)
    case ReferenceObj(frame, index) => HasLocal(h, frame, index)
    case FrameObj(locals, refs) => AllTyped(h, locals) && AllReferences(h, refs)
  }

  ghost predicate HeapTyped(h: Heap, globals: seq<string>) {
    forall a :: a in h ==> ObjectTyped(h, globals, h[a])
  }

  ghost predicate MemoryTyped(m: Memory, global: Addr, globals: seq<string>) {
    && MemoryOk(m) && HeapTyped(m.heap, globals)
    && global in m.heap && m.heap[global].FrameObj? && |m.heap[global].locals| == |globals|
  }

  /** All slots `Frame::follow` visits exist: locals, captured locals, free variables. */
  ghost predicate FrameComplete(h: Heap, fn: Function, frame: Addr) {
    && frame in h && h[frame].FrameObj?
    && |h[frame].locals| >= |fn.localVars|
    && |h[frame].refs| == RefCount(fn)
  }

  // ---------------------------------------------------------------- typed stacks

  ghost predicate SlotOk(fn: Function, globals: seq<string>, h: Heap, s: Slot, v: Value) {
    match s
    case PlainSlot => ValueTyped(h, v)
    case FunctionSlot(k) => k < |fn.functions| && v == Func(fn.functions[k]) && CodeOk(fn.functions[k], globals)
    case ReferenceSlot => v.Ptr? && IsReference(h, v.a)
  }

  ghost predicate StackOk(fn: Function, globals: seq<string>, h: Heap, shape: Shape, st: seq<Value>) {
    |st| == |shape| && forall i :: 0 <= i < |st| ==> SlotOk(fn, globals, h, shape[i], st[i])
  }

  /** The code of an activation; only the program may fall off its end. */
  ghost predicate Shapes(fn: Function, globals: seq<string>, bottom: bool, hs: seq<Option<Shape>>) {
    && Flow(fn, globals, fn.instructions, hs)
    && hs[0] == Some([])
    && ((bottom && hs[|fn.instructions|] == Some([])) || hs[|fn.instructions|] == None)
  }

  /** The stack before instruction `ip` matches its shape; past a return it holds
      the result. */
  ghost predicate RunningAt(act: Activation, globals: seq<string>, h: Heap, hs: seq<Option<Shape>>) {
    if act.ip == |act.fn.instructions| + 1 then StackOk(act.fn, globals, h, [PlainSlot], act.stack)
    else
      0 <= act.ip <= |act.fn.instructions| < |hs| && hs[act.ip].Some?
      && StackOk(act.fn, globals, h, hs[act.ip].value, act.stack)
  }

  ghost predicate CurrentOk(act: Activation, globals: seq<string>, h: Heap, bottom: bool) {
    FrameComplete(h, act.fn, act.frame)
    && exists hs :: Shapes(act.fn, globals, bottom, hs) && RunningAt(act, globals, h, hs)
  }

  /** A caller waits at a call for one value. */
  ghost predicate WaitingAt(act: Activation, globals: seq<string>, h: Heap, hs: seq<Option<Shape>>) {
    && 0 <= act.ip < |act.fn.instructions| < |hs| && hs[act.ip + 1].Some?
    && hs[act.ip + 1].value != [] && hs[act.ip + 1].value[|hs[act.ip + 1].value|-1] == PlainSlot
    && StackOk(act.fn, globals, h, hs[act.ip + 1].value[..|hs[act.ip + 1].value|-1], act.stack)
  }

  ghost predicate CallerOk(act: Activation, globals: seq<string>, h: Heap, bottom: bool) {
    FrameComplete(h, act.fn, act.frame)
    && exists hs :: Shapes(act.fn, globals, bottom, hs) && WaitingAt(act, globals, h, hs)
  }

  ghost predicate StateOk(vm: Machine) {
    && MemoryTyped(vm.mem, vm.global, vm.names)
    && CurrentOk(vm.current, vm.names, vm.mem.heap, vm.callers == [])
    && (forall i :: 0 <= i < |vm.callers| ==> CallerOk(vm.callers[i], vm.names, vm.mem.heap, i == 0))
  }

  // ---------------------------------------------------------------- growth

  /** Objects keep their kind, frames their number of locals: all that typing asks. */
  ghost predicate KeepsKinds(h: Heap, h': Heap) {
    forall a :: a in h ==> a in h' && SameKind(h[a], h'[a])
  }

  ghost predicate SameKind(o: Obj, o': Obj) {
    match o
    case FrameObj(locals, _) => o'.FrameObj? && |o'.locals| == |locals|
    case ReferenceObj(_, _) => o'.ReferenceObj?
    case _ => !o'.FrameObj? && !o'.ReferenceObj?
  }

  lemma {:induction false} GrowingKeepsKinds(h: Heap, h': Heap)
    requires HeapGrows(h, h')
    ensures KeepsKinds(h, h')
  {
    forall a | a in h ensures a in h' && SameKind(h[a], h'[a]) { assert ObjGrows(h[a], h'[a]); }
  }

  lemma {:induction false} ValueKept(h: Heap, h': Heap, v: Value)
    requires KeepsKinds(h, h') && ValueTyped(h, v)
    ensures ValueTyped(h', v)
  {
    if v.Ptr? { assert SameKind(h[v.a], h'[v.a]); }
  }

  lemma {:induction false} ReferenceKept(h: Heap, h': Heap, a: Addr)
    requires KeepsKinds(h, h') && IsReference(h, a)
    ensures IsReference(h', a)
  {
    assert SameKind(h[a], h'[a]);
  }

  lemma {:induction false} LocalKept(h: Heap, h': Heap, frame: Addr, i: int)
    requires KeepsKinds(h, h') && HasLocal(h, frame, i)
    ensures HasLocal(h', frame, i)
  {
    assert SameKind(h[frame], h'[frame]);
  }

  lemma {:induction false} AllKept(h: Heap, h': Heap, vs: seq<Value>, rs: seq<Addr>)
    requires KeepsKinds(h, h')
    ensures AllTyped(h, vs) ==> AllTyped(h', vs)
    ensures AllReferences(h, rs) ==> AllReferences(h', rs)
  {
    hide KeepsKinds, ValueTyped, IsReference;
    if AllTyped(h, vs) {
      forall i | 0 <= i < |vs| ensures ValueTyped(h', vs[i]) { ValueKept(h, h', vs[i]); }
    }
    if AllReferences(h, rs) {
      forall i | 0 <= i < |rs| ensures IsReference(h', rs[i]) { ReferenceKept(h, h', rs[i]); }
    }
  }

  lemma {:induction false} ObjectKept(h: Heap, h': Heap, globals: seq<string>, o: Obj)
    requires KeepsKinds(h, h') && ObjectTyped(h, globals, o)
    ensures ObjectTyped(h', globals, o)
  {
    hide KeepsKinds, ValueTyped, CodeOk, AllTyped, AllReferences;
    match o
    case RecordObj(fields) =>
      forall k | k in fields ensures ValueTyped(h', fields[k]) { ValueKept(h, h', fields[k]); }
    case ClosureObj(_, free) => AllKept(h, h', [], free);
    case FrameObj(locals, refs) => AllKept(h, h', locals, refs);
    case ReferenceObj(frame, index) => LocalKept(h, h', frame, index);
    case _ =>
  }

  lemma {:induction false} StackGrows(fn: Function, globals: seq<string>, h: Heap, h': Heap, shape: Shape, st: seq<Value>)
    requires HeapGrows(h, h') && StackOk(fn, globals, h, shape, st)
    ensures StackOk(fn, globals, h', shape, st)
  {
    hide HeapGrows, KeepsKinds, ValueTyped, CodeOk, IsReference;
    GrowingKeepsKinds(h, h');
    forall i | 0 <= i < |st| ensures SlotOk(fn, globals, h', shape[i], st[i]) {
      assert SlotOk(fn, globals, h, shape[i], st[i]);
      match shape[i]
      case PlainSlot => ValueKept(h, h', st[i]);
      case FunctionSlot(_) =>
      case ReferenceSlot => ReferenceKept(h, h', st[i].a);
    }
  }

  lemma {:induction false} FrameGrows(h: Heap, h': Heap, fn: Function, frame: Addr)
    requires HeapGrows(h, h') && FrameComplete(h, fn, frame)
    ensures FrameComplete(h', fn, frame)
  {
    assert ObjGrows(h[frame], h'[frame]);
  }

  lemma {:induction false} CallerGrows(act: Activation, globals: seq<string>, h: Heap, h': Heap, bottom: bool)
    requires HeapGrows(h, h') && CallerOk(act, globals, h, bottom)
    ensures CallerOk(act, globals, h', bottom)
  {
    hide HeapGrows, StackOk, Shapes;
    FrameGrows(h, h', act.fn, act.frame);
    var hs: seq<Option<Shape>> :| Shapes(act.fn, globals, bottom, hs) && WaitingAt(act, globals, h, hs);
    StackGrows(act.fn, globals, h, h', hs[act.ip + 1].value[..|hs[act.ip + 1].value|-1], act.stack);
    assert WaitingAt(act, globals, h', hs);
  }

  /** Adding a typed object. */
  lemma {:induction false} AllocTyped(m: Memory, o: Obj, global: Addr, globals: seq<string>)
    requires MemoryTyped(m, global, globals) && ObjectTyped(m.heap, globals, o)
    ensures MemoryTyped(Alloc(m, o), global, globals) && HeapGrows(m.heap, Alloc(m, o).heap)
    ensures m.next !in m.heap
  {
    hide ObjectTyped;
    var m' := Alloc(m, o);
    assert HeapGrows(m.heap, m'.heap) by { GrowsByOne(m, o); }
    GrowingKeepsKinds(m.heap, m'.heap);
    forall a | a in m'.heap ensures ObjectTyped(m'.heap, globals, m'.heap[a]) {
      ObjectKept(m.heap, m'.heap, globals, m'.heap[a]);
    }
  }

  lemma {:induction false} GrowsByOne(m: Memory, o: Obj)
    requires MemoryOk(m)
    ensures HeapGrows(m.heap, Alloc(m, o).heap)
  {}

  /** Overwriting an object by one of the same kind. */
  lemma {:induction false} UpdateTyped(m: Memory, a: Addr, o: Obj, global: Addr, globals: seq<string>)
    requires MemoryTyped(m, global, globals) && a in m.heap && SameKind(m.heap[a], o) && ObjectTyped(m.heap, globals, o)
    ensures MemoryTyped(m.(heap := m.heap[a := o]), global, globals)
  {
    hide ObjectTyped;
    var h' := m.heap[a := o];
    assert KeepsKinds(m.heap, h') by { KindsInPlace(m.heap, a, o); }
    forall b | b in h' ensures ObjectTyped(h', globals, h'[b]) {
      ObjectKept(m.heap, h', globals, h'[b]);
    }
  }

  lemma {:induction false} KindsInPlace(h: Heap, a: Addr, o: Obj)
    requires a in h && SameKind(h[a], o)
    ensures KeepsKinds(h, h[a := o])
  {}

  lemma {:induction false} GrowsInPlace(h: Heap, a: Addr, o: Obj)
    requires a in h && ObjGrows(h[a], o)
    ensures HeapGrows(h, h[a := o])
  {}

  lemma {:induction false} SetLocalTyped(m: Memory, frame: Addr, i: nat, v: Value, global: Addr, globals: seq<string>)
    requires MemoryTyped(m, global, globals) && HasLocal(m.heap, frame, i) && ValueTyped(m.heap, v)
    ensures MemoryTyped(SetLocal(m, frame, i, v), global, globals) && HeapGrows(m.heap, SetLocal(m, frame, i, v).heap)
  {
    hide ValueTyped, IsReference, HeapGrows;
    var o := m.heap[frame].(locals := m.heap[frame].locals[i := v]);
    assert ObjectTyped(m.heap, globals, m.heap[frame]);
    UpdateTyped(m, frame, o, global, globals);
    GrowsInPlace(m.heap, frame, o);
  }

  lemma {:induction false} SetFieldTyped(m: Memory, a: Addr, field: string, v: Value, global: Addr, globals: seq<string>)
    requires MemoryTyped(m, global, globals) && a in m.heap && m.heap[a].RecordObj? && ValueTyped(m.heap, v)
    ensures MemoryTyped(SetField(m, a, field, v), global, globals) && HeapGrows(m.heap, SetField(m, a, field, v).heap)
  {
    hide ValueTyped, HeapGrows;
    assert ObjectTyped(m.heap, globals, m.heap[a]);
    UpdateTyped(m, a, RecordObj(m.heap[a].fields[field := v]), global, globals);
    GrowsInPlace(m.heap, a, RecordObj(m.heap[a].fields[field := v]));
  }

  // ---------------------------------------------------------------- errors of the language

  ghost predicate IsRecord(h: Heap, v: Value) { Look(h, v).RecordW? }
  ghost predicate IsInteger(h: Heap, v: Value) { Look(h, v).IntegerW? }
  ghost predicate IsBoolean(h: Heap, v: Value) { Look(h, v).BoolW? }
  ghost predicate IsString(h: Heap, v: Value) { Look(h, v).StringW? }
  ghost predicate Renders(h: Heap, v: Value) { ToString(h, v, {}).Some? }

  /** The operands are there, but the language does not allow the operation on
      them: a wrong type, a wrong number of arguments, a division by zero, a
      cyclic record to be rendered, or a built-in function outside this model. */
  ghost predicate Misused(instr: Instruction, st: seq<Value>, h: Heap) {
    var n := |st|;
    match instr
    case FieldLoad(_) => n > 0 && !IsRecord(h, st[n-1])
    case FieldStore(_) => n > 1 && !IsRecord(h, st[n-2])
    case IndexLoad => n > 1 && (!Renders(h, st[n-1]) || !IsRecord(h, st[n-2]))
    case IndexStore => n > 2 && (!Renders(h, st[n-2]) || !IsRecord(h, st[n-3]))
    case Neg => n > 0 && !IsInteger(h, st[n-1])
    case Not => n > 0 && !IsBoolean(h, st[n-1])
    case If(_) => n > 0 && !IsBoolean(h, st[n-1])
    case Add =>
      n > 1 && !(IsInteger(h, st[n-2]) && IsInteger(h, st[n-1]))
      && (!(IsString(h, st[n-2]) || IsString(h, st[n-1])) || !Renders(h, st[n-2]) || !Renders(h, st[n-1]))
    case Div =>
      n > 1 && (!IsInteger(h, st[n-2]) || !IsInteger(h, st[n-1]) || Look(h, st[n-1]) == IntegerW(0))
    case And => n > 1 && (!IsBoolean(h, st[n-2]) || !IsBoolean(h, st[n-1]))
    case Or => n > 1 && (!IsBoolean(h, st[n-2]) || !IsBoolean(h, st[n-1]))
    case Call(k) =>
      0 <= k < n &&
      (match Look(h, st[n-1-k])
       case ClosureW(fn, _) =>
         || k != fn.parameterCount || fn.builtin == InputFunction || fn.builtin == IntcastFunction
         || (fn.builtin == PrintFunction && !Renders(h, st[n-1]))
       case _ => true)
    case Eq => false
    case _ => IsBinary(instr) && n > 1 && (!IsInteger(h, st[n-2]) || !IsInteger(h, st[n-1]))
  }

  /** Result of an instruction on a well-shaped stack. */
  ghost predicate GoodResult(fn: Function, globals: seq<string>, global: Addr, instr: Instruction, b: Shape,
      st: seq<Value>, m: Memory, r: Option<(seq<Value>, Memory)>) {
    match r
    case None => Misused(instr, st, m.heap)
    case Some((st', m')) =>
      && MemoryTyped(m', global, globals) && HeapGrows(m.heap, m'.heap)
      && StackOk(fn, globals, m'.heap, b, st')
  }

  // ---------------------------------------------------------------- stacks

  lemma {:induction false} TopOf(fn: Function, globals: seq<string>, h: Heap, a: Shape, st: seq<Value>)
    requires StackOk(fn, globals, h, a, st) && a != []
    ensures |st| == |a| && SlotOk(fn, globals, h, a[|a|-1], st[|a|-1])
    ensures StackOk(fn, globals, h, a[..|a|-1], st[..|a|-1])
  {}

  lemma {:induction false} Push(fn: Function, globals: seq<string>, h: Heap, a: Shape, st: seq<Value>, s: Slot, v: Value)
    requires StackOk(fn, globals, h, a, st) && SlotOk(fn, globals, h, s, v)
    ensures StackOk(fn, globals, h, a + [s], st + [v])
  {}

  /** The top `n` operands taken off a stack of shape `b + c`. */
  lemma {:induction false} TakeOff(fn: Function, globals: seq<string>, h: Heap, b: Shape, c: Shape, st: seq<Value>)
    requires StackOk(fn, globals, h, b + c, st)
    ensures |st| == |b| + |c|
    ensures StackOk(fn, globals, h, b, st[..|b|]) && StackOk(fn, globals, h, c, st[|b|..])
  {
    forall i | 0 <= i < |b| ensures SlotOk(fn, globals, h, b[i], st[..|b|][i]) {
      assert (b + c)[i] == b[i] && SlotOk(fn, globals, h, (b + c)[i], st[i]);
    }
    forall i | 0 <= i < |c| ensures SlotOk(fn, globals, h, c[i], st[|b|..][i]) {
      assert (b + c)[|b| + i] == c[i] && SlotOk(fn, globals, h, (b + c)[|b| + i], st[|b| + i]);
    }
  }

  lemma {:induction false} PlainTop(fn: Function, globals: seq<string>, h: Heap, b: Shape, c: Shape, st: seq<Value>)
    requires StackOk(fn, globals, h, b + c, st) && forall i :: 0 <= i < |c| ==> c[i] == PlainSlot
    ensures |st| == |b| + |c| && StackOk(fn, globals, h, b, st[..|b|])
    ensures forall i :: |b| <= i < |st| ==> ValueTyped(h, st[i])
  {
    TakeOff(fn, globals, h, b, c, st);
    forall i | |b| <= i < |st| ensures ValueTyped(h, st[i]) {
      assert SlotOk(fn, globals, h, c[i - |b|], st[|b|..][i - |b|]);
    }
  }

  /** Pushing a value on what is left after an instruction that changed memory. */
  lemma {:induction false} Replaced(fn: Function, globals: seq<string>, h: Heap, h': Heap, b: Shape, st: seq<Value>, v: Value)
    requires b != [] && b[|b|-1] == PlainSlot && HeapGrows(h, h') && ValueTyped(h', v)
    requires StackOk(fn, globals, h, b[..|b|-1], st)
    ensures StackOk(fn, globals, h', b, st + [v])
  {
    hide HeapGrows, ValueTyped;
    StackGrows(fn, globals, h, h', b[..|b|-1], st);
    Push(fn, globals, h', b[..|b|-1], st, PlainSlot, v);
    assert b == b[..|b|-1] + [PlainSlot];
  }

  // ---------------------------------------------------------------- instructions

  lemma {:induction false} GrowsSelf(h: Heap)
    ensures HeapGrows(h, h)
  {}

  lemma {:induction false} LoadTyped(names: seq<string>, global: Addr, fn: Function, frame: Addr, instr: Instruction, a: Shape, b: Shape,
      st: seq<Value>, m: Memory)
    requires instr.LoadConst? || instr.LoadFunc? || instr.LoadLocal? || instr.LoadGlobal? || instr.PushReference? || instr.Dup?
    requires MemoryTyped(m, global, names) && FrameComplete(m.heap, fn, frame)
    requires StackOk(fn, names, m.heap, a, st) && InstrOk(fn, names, instr, a, b)
    ensures GoodResult(fn, names, global, instr, b, st, m, Operate(names, global, fn, frame, instr, st, m))
  {
    hide HeapGrows, CodeOk, StackOk;
    GrowsSelf(m.heap);
    var h := m.heap;
    match instr
    case LoadConst(i) => Push(fn, names, h, a, st, PlainSlot, Const(fn.constants[i]));
    case LoadFunc(i) => Push(fn, names, h, a, st, FunctionSlot(i), Func(fn.functions[i]));
    case LoadLocal(i) =>
      assert ObjectTyped(h, names, h[frame]);
      Push(fn, names, h, a, st, PlainSlot, h[frame].locals[i]);
    case LoadGlobal(i) =>
      assert ObjectTyped(h, names, h[global]);
      Push(fn, names, h, a, st, PlainSlot, h[global].locals[GlobalSlot(names, fn.names[i])]);
    case PushReference(i) =>
      assert ObjectTyped(h, names, h[frame]);
      Push(fn, names, h, a, st, ReferenceSlot, Ptr(h[frame].refs[i]));
    case Dup =>
      TopOf(fn, names, h, a, st);
      Push(fn, names, h, a, st, PlainSlot, st[|st|-1]);
  }

  lemma {:induction false} StoreTyped(names: seq<string>, global: Addr, fn: Function, frame: Addr, instr: Instruction, a: Shape, b: Shape,
      st: seq<Value>, m: Memory)
    requires instr.StoreLocal? || instr.StoreGlobal? || instr.Pop?
    requires MemoryTyped(m, global, names) && FrameComplete(m.heap, fn, frame)
    requires StackOk(fn, names, m.heap, a, st) && InstrOk(fn, names, instr, a, b)
    ensures GoodResult(fn, names, global, instr, b, st, m, Operate(names, global, fn, frame, instr, st, m))
  {
    hide HeapGrows, CodeOk, StackOk, HeapTyped, ValueTyped;
    GrowsSelf(m.heap);
    TopOf(fn, names, m.heap, a, st);
    assert a[..|a|-1] == b;
    var v := st[|st|-1];
    if !instr.Pop? {
      var at := if instr.StoreLocal? then frame else global;
      var i := if instr.StoreLocal? then instr.i else GlobalSlot(names, fn.names[instr.i]);
      SetLocalTyped(m, at, i, v, global, names);
      StackGrows(fn, names, m.heap, SetLocal(m, at, i, v).heap, b, st[..|st|-1]);
    }
  }

  /** The local a reference on top leads to. */
  lemma {:induction false} BehindTop(names: seq<string>, global: Addr, fn: Function, a: Shape, st: seq<Value>, m: Memory)
    returns (owner: Addr, i: nat)
    requires MemoryTyped(m, global, names) && StackOk(fn, names, m.heap, a + [ReferenceSlot], st)
    ensures |st| == |a| + 1 && Look(m.heap, st[|a|]) == ReferenceW(owner, i) && HasLocal(m.heap, owner, i)
    ensures ValueTyped(m.heap, m.heap[owner].locals[i])
  {
    hide StackOk, CodeOk, ValueTyped;
    TopOf(fn, names, m.heap, a + [ReferenceSlot], st);
    var o := m.heap[st[|a|].a];
    assert ObjectTyped(m.heap, names, o);
    assert ObjectTyped(m.heap, names, m.heap[o.frame]);
    owner, i := o.frame, o.index;
  }

  lemma {:induction false} LoadReferenceTyped(names: seq<string>, global: Addr, fn: Function, frame: Addr, a: Shape, b: Shape,
      st: seq<Value>, m: Memory)
    requires MemoryTyped(m, global, names)
    requires StackOk(fn, names, m.heap, a, st) && InstrOk(fn, names, LoadReference, a, b)
    ensures GoodResult(fn, names, global, LoadReference, b, st, m, Operate(names, global, fn, frame, LoadReference, st, m))
  {
    hide HeapGrows, CodeOk, StackOk, ValueTyped, MemoryTyped, Look;
    GrowsSelf(m.heap);
    var base := b[..|b|-1];
    var owner, i := BehindTop(names, global, fn, base, st, m);
    TakeOff(fn, names, m.heap, base, [ReferenceSlot], st);
    Replaced(fn, names, m.heap, m.heap, b, st[..|base|], m.heap[owner].locals[i]);
  }

  lemma {:induction false} StoreReferenceTyped(names: seq<string>, global: Addr, fn: Function, frame: Addr, a: Shape, b: Shape,
      st: seq<Value>, m: Memory)
    requires MemoryTyped(m, global, names)
    requires StackOk(fn, names, m.heap, a, st) && InstrOk(fn, names, StoreReference, a, b)
    ensures GoodResult(fn, names, global, StoreReference, b, st, m, Operate(names, global, fn, frame, StoreReference, st, m))
  {
    hide HeapGrows, CodeOk, StackOk, ValueTyped, MemoryTyped, Look;
    assert a == (b + [PlainSlot]) + [ReferenceSlot];
    var owner, i := BehindTop(names, global, fn, b + [PlainSlot], st, m);
    TakeOff(fn, names, m.heap, b, [PlainSlot, ReferenceSlot], st);
    PlainBelow(fn, names, m.heap, b, st);
    SetLocalTyped(m, owner, i, st[|b|], global, names);
    StackGrows(fn, names, m.heap, SetLocal(m, owner, i, st[|b|]).heap, b, st[..|b|]);
  }

  lemma {:induction false} PlainBelow(fn: Function, globals: seq<string>, h: Heap, b: Shape, st: seq<Value>)
    requires StackOk(fn, globals, h, b + [PlainSlot, ReferenceSlot], st)
    ensures |st| == |b| + 2 && ValueTyped(h, st[|b|])
  {
    assert SlotOk(fn, globals, h, (b + [PlainSlot, ReferenceSlot])[|b|], st[|b|]);
  }

  lemma {:induction false} ReadTyped(m: Memory, global: Addr, names: seq<string>, v: Value, field: string)
    requires MemoryTyped(m, global, names)
    ensures ReadRecord(m.heap, v, field).Some? <==> IsRecord(m.heap, v)
    ensures IsRecord(m.heap, v) ==> ValueTyped(m.heap, ReadRecord(m.heap, v, field).value)
  {
    if v.Ptr? && v.a in m.heap { assert ObjectTyped(m.heap, names, m.heap[v.a]); }
  }

  lemma {:induction false} RecordTyped(names: seq<string>, global: Addr, fn: Function, frame: Addr, instr: Instruction, a: Shape, b: Shape,
      st: seq<Value>, m: Memory)
    requires instr.AllocRecord? || instr.FieldLoad? || instr.IndexLoad?
    requires MemoryTyped(m, global, names)
    requires StackOk(fn, names, m.heap, a, st) && InstrOk(fn, names, instr, a, b)
    ensures GoodResult(fn, names, global, instr, b, st, m, Operate(names, global, fn, frame, instr, st, m))
  {
    hide HeapGrows, CodeOk, StackOk, HeapTyped, ValueTyped, ReadRecord, ToString;
    GrowsSelf(m.heap);
    var h, n := m.heap, |st|;
    match instr
    case AllocRecord =>
      AllocTyped(m, RecordObj(map[]), global, names);
      assert b[..|b|-1] == a && ValueTyped(Alloc(m, RecordObj(map[])).heap, Ptr(m.next)) by { NewTyped(m, RecordObj(map[])); }
      Replaced(fn, names, h, Alloc(m, RecordObj(map[])).heap, b, st, Ptr(m.next));
    case FieldLoad(i) =>
      TopOf(fn, names, h, a, st);
      ReadTyped(m, global, names, st[n-1], fn.names[i]);
      if IsRecord(h, st[n-1]) {
        Replaced(fn, names, h, h, b, st[..n-1], ReadRecord(h, st[n-1], fn.names[i]).value);
      }
    case IndexLoad =>
      assert a == b[..|b|-1] + [PlainSlot, PlainSlot];
      PlainTop(fn, names, h, b[..|b|-1], [PlainSlot, PlainSlot], st);
      if Renders(h, st[n-1]) {
        var field := ToString(h, st[n-1], {}).value;
        ReadTyped(m, global, names, st[n-2], field);
        if IsRecord(h, st[n-2]) {
          Replaced(fn, names, h, h, b, st[..n-2], ReadRecord(h, st[n-2], field).value);
        }
      }
  }

  lemma {:induction false} NewTyped(m: Memory, o: Obj)
    requires !o.ReferenceObj? && !o.FrameObj?
    ensures ValueTyped(Alloc(m, o).heap, Ptr(m.next))
  {}

  lemma {:induction false} RecordStoreTyped(names: seq<string>, global: Addr, fn: Function, frame: Addr, instr: Instruction, a: Shape, b: Shape,
      st: seq<Value>, m: Memory)
    requires instr.FieldStore? || instr.IndexStore?
    requires MemoryTyped(m, global, names)
    requires StackOk(fn, names, m.heap, a, st) && InstrOk(fn, names, instr, a, b)
    ensures GoodResult(fn, names, global, instr, b, st, m, Operate(names, global, fn, frame, instr, st, m))
  {
    hide HeapGrows, CodeOk, StackOk, HeapTyped, ValueTyped, ToString;
    var h, n := m.heap, |st|;
    var count := if instr.FieldStore? then 2 else 3;
    PlainTop(fn, names, h, b, if instr.FieldStore? then [PlainSlot, PlainSlot] else [PlainSlot, PlainSlot, PlainSlot], st);
    var l := Look(h, st[n-count]);
    if l.RecordW? && (instr.FieldStore? || Renders(h, st[n-2])) {
      var field := if instr.FieldStore? then fn.names[instr.i] else ToString(h, st[n-2], {}).value;
      SetFieldTyped(m, l.a, field, st[n-1], global, names);
      StackGrows(fn, names, h, SetField(m, l.a, field, st[n-1]).heap, b, st[..n-count]);
    }
  }

  lemma {:induction false} ReferencesFound(fn: Function, globals: seq<string>, h: Heap, n: nat, vs: seq<Value>)
    requires StackOk(fn, globals, h, References(n), vs)
    ensures Addresses(h, vs).Some? && |Addresses(h, vs).value| == n && AllReferences(h, Addresses(h, vs).value)
    decreases n
  {
    if n > 0 {
      assert SlotOk(fn, globals, h, References(n)[0], vs[0]);
      forall i | 0 <= i < n - 1 ensures SlotOk(fn, globals, h, References(n - 1)[i], vs[1..][i]) {
        assert SlotOk(fn, globals, h, References(n)[i + 1], vs[i + 1]);
      }
      ReferencesFound(fn, globals, h, n - 1, vs[1..]);
      var rs, rest := Addresses(h, vs).value, Addresses(h, vs[1..]).value;
      assert rs == [vs[0].a] + rest;
      forall i | 0 <= i < |rs| ensures IsReference(h, rs[i]) {
        if i > 0 { assert rs[i] == rest[i - 1]; }
      }
    }
  }

  lemma {:induction false} ClosureTyped(names: seq<string>, global: Addr, fn: Function, frame: Addr, n: int, a: Shape, b: Shape,
      st: seq<Value>, m: Memory)
    requires MemoryTyped(m, global, names)
    requires StackOk(fn, names, m.heap, a, st) && InstrOk(fn, names, AllocClosure(n), a, b)
    ensures GoodResult(fn, names, global, AllocClosure(n), b, st, m, Operate(names, global, fn, frame, AllocClosure(n), st, m))
  {
    hide Addresses, HeapGrows, CodeOk, StackOk, HeapTyped, ValueTyped, IsReference;
    var h := m.heap;
    var base := b[..|b|-1];
    var k: nat :| k < |fn.functions| && n == |fn.functions[k].freeVars| && a == base + [FunctionSlot(k)] + References(n);
    TakeOff(fn, names, h, base + [FunctionSlot(k)], References(n), st);
    var below := st[..|base| + 1];
    TopOf(fn, names, h, base + [FunctionSlot(k)], below);
    assert below[..|base|] == st[..|base|] && (base + [FunctionSlot(k)])[..|base|] == base;
    ReferencesFound(fn, names, h, n, st[|base| + 1..]);
    var g, rs := fn.functions[k], Addresses(h, st[|base| + 1..]).value;
    assert st[|base|] == Func(g);
    var o := ClosureObj(g, rs);
    AllocTyped(m, o, global, names);
    NewTyped(m, o);
    Replaced(fn, names, h, Alloc(m, o).heap, b, st[..|base|], Ptr(m.next));
  }

  lemma {:induction false} UnaryTyped(names: seq<string>, global: Addr, fn: Function, frame: Addr, instr: Instruction, a: Shape, b: Shape,
      st: seq<Value>, m: Memory)
    requires instr.Neg? || instr.Not?
    requires MemoryTyped(m, global, names)
    requires StackOk(fn, names, m.heap, a, st) && InstrOk(fn, names, instr, a, b)
    ensures GoodResult(fn, names, global, instr, b, st, m, Operate(names, global, fn, frame, instr, st, m))
  {
    hide HeapGrows, CodeOk, StackOk, HeapTyped, ValueTyped;
    GrowsSelf(m.heap);
    var h, n := m.heap, |st|;
    TopOf(fn, names, h, a, st);
    if instr.Neg? && IsInteger(h, st[n-1]) {
      var o := IntegerObj(-Look(h, st[n-1]).int_);
      AllocTyped(m, o, global, names);
      NewTyped(m, o);
      Replaced(fn, names, h, Alloc(m, o).heap, b, st[..n-1], Ptr(m.next));
    } else if instr.Not? && IsBoolean(h, st[n-1]) {
      ConstTyped(h, BooleanC(!Look(h, st[n-1]).flag));
      Replaced(fn, names, h, h, b, st[..n-1], Boolean(!Look(h, st[n-1]).flag));
    }
  }

  lemma {:induction false} ConstTyped(h: Heap, c: Constant)
    ensures ValueTyped(h, Const(c))
  {}

  /** A binary instruction yields a constant or a new integer or string. */
  lemma {:induction false} SumResult(instr: Instruction, m: Memory, l: Value, r: Value, global: Addr, names: seq<string>, st: seq<Value>)
    requires instr == Add && MemoryTyped(m, global, names) && |st| > 1 && st[|st|-2] == l && st[|st|-1] == r
    ensures match AddValues(m, l, r)
      case None => Misused(instr, st, m.heap)
      case Some((v, m')) => MemoryTyped(m', global, names) && HeapGrows(m.heap, m'.heap) && ValueTyped(m'.heap, v)
  {
    hide HeapGrows, HeapTyped, ToString, CodeOk;
    GrowsSelf(m.heap);
    match AddValues(m, l, r)
    case None =>
    case Some((v, m')) =>
      if v.Ptr? {
        AllocTyped(m, m'.heap[m.next], global, names);
      }
  }

  lemma {:induction false} NumberResult(instr: Instruction, m: Memory, l: Value, r: Value, global: Addr, names: seq<string>, st: seq<Value>)
    requires instr in {Sub, Mul, Div, Gt, Geq} && MemoryTyped(m, global, names) && |st| > 1 && st[|st|-2] == l && st[|st|-1] == r
    ensures match IntegerOp(instr, m, l, r)
      case None => Misused(instr, st, m.heap)
      case Some((v, m')) => MemoryTyped(m', global, names) && HeapGrows(m.heap, m'.heap) && ValueTyped(m'.heap, v)
  {
    hide HeapGrows, HeapTyped, ToString, CodeOk, TruncatedQuotient;
    GrowsSelf(m.heap);
    match IntegerOp(instr, m, l, r)
    case None =>
    case Some((v, m')) =>
      if v.Ptr? {
        AllocTyped(m, m'.heap[m.next], global, names);
      }
  }

  lemma {:induction false} LogicResult(instr: Instruction, m: Memory, l: Value, r: Value, global: Addr, names: seq<string>, st: seq<Value>)
    requires instr in {And, Or} && MemoryTyped(m, global, names) && |st| > 1 && st[|st|-2] == l && st[|st|-1] == r
    ensures match BooleanOp(instr, m, l, r)
      case None => Misused(instr, st, m.heap)
      case Some((v, m')) => MemoryTyped(m', global, names) && HeapGrows(m.heap, m'.heap) && ValueTyped(m'.heap, v)
  {
    hide HeapGrows, HeapTyped, ToString, CodeOk;
    GrowsSelf(m.heap);
  }

  lemma {:induction false} BinaryResult(instr: Instruction, m: Memory, l: Value, r: Value, global: Addr, names: seq<string>, st: seq<Value>)
    requires IsBinary(instr) && MemoryTyped(m, global, names) && |st| > 1 && st[|st|-2] == l && st[|st|-1] == r
    ensures match BinaryInstruction(instr, m, l, r)
      case None => Misused(instr, st, m.heap)
      case Some((v, m')) => MemoryTyped(m', global, names) && HeapGrows(m.heap, m'.heap) && ValueTyped(m'.heap, v)
  {
    hide HeapGrows, HeapTyped, ToString, CodeOk, MemoryTyped, Misused, AddValues, IntegerOp, BooleanOp, EqualValues, Look;
    GrowsSelf(m.heap);
    match instr
    case Add => SumResult(instr, m, l, r, global, names, st);
    case And => LogicResult(instr, m, l, r, global, names, st);
    case Or => LogicResult(instr, m, l, r, global, names, st);
    case Eq =>
    case _ => NumberResult(instr, m, l, r, global, names, st);
  }

  lemma {:induction false} TwoOperands(fn: Function, names: seq<string>, h: Heap, instr: Instruction, a: Shape, b: Shape, st: seq<Value>)
    requires IsBinary(instr) && InstrOk(fn, names, instr, a, b) && StackOk(fn, names, h, a, st)
    ensures |st| > 1
  {
    hide CodeOk;
    assert a == b[..|b|-1] + [PlainSlot, PlainSlot];
  }

  lemma {:induction false} CombinesTwo(names: seq<string>, global: Addr, fn: Function, frame: Addr, instr: Instruction, a: Shape, b: Shape,
      st: seq<Value>, m: Memory)
    requires IsBinary(instr) && InstrOk(fn, names, instr, a, b) && |st| > 1
    ensures b != [] && a == b[..|b|-1] + [PlainSlot, PlainSlot] && b[|b|-1] == PlainSlot
    ensures Operate(names, global, fn, frame, instr, st, m)
      == match BinaryInstruction(instr, m, st[|st|-2], st[|st|-1])
         case Some((v, m')) => Some((st[..|st|-2] + [v], m'))
         case None => None
  {
    hide BinaryInstruction;
  }

  lemma {:induction false} BinaryTyped(names: seq<string>, global: Addr, fn: Function, frame: Addr, instr: Instruction, a: Shape, b: Shape,
      st: seq<Value>, m: Memory)
    requires IsBinary(instr)
    requires MemoryTyped(m, global, names)
    requires StackOk(fn, names, m.heap, a, st) && InstrOk(fn, names, instr, a, b)
    ensures GoodResult(fn, names, global, instr, b, st, m, Operate(names, global, fn, frame, instr, st, m))
  {
    hide HeapGrows, StackOk, MemoryTyped, ValueTyped, BinaryInstruction, Misused, Operate, InstrOk;
    var h, n := m.heap, |st|;
    TwoOperands(fn, names, h, instr, a, b, st);
    CombinesTwo(names, global, fn, frame, instr, a, b, st, m);
    PlainTop(fn, names, h, b[..|b|-1], [PlainSlot, PlainSlot], st);
    BinaryResult(instr, m, st[n-2], st[n-1], global, names, st);
    match BinaryInstruction(instr, m, st[n-2], st[n-1])
    case None =>
    case Some((v, m')) => Replaced(fn, names, h, m'.heap, b, st[..n-2], v);
  }

  lemma {:induction false} OperateTyped(names: seq<string>, global: Addr, fn: Function, frame: Addr, instr: Instruction, a: Shape, b: Shape,
      st: seq<Value>, m: Memory)
    requires !instr.Goto? && !instr.If? && !instr.Return? && !instr.Call?
    requires MemoryTyped(m, global, names) && FrameComplete(m.heap, fn, frame)
    requires StackOk(fn, names, m.heap, a, st) && InstrOk(fn, names, instr, a, b)
    ensures GoodResult(fn, names, global, instr, b, st, m, Operate(names, global, fn, frame, instr, st, m))
  {
    hide MemoryTyped, FrameComplete, StackOk, GoodResult, Operate, CodeOk;
    match instr
    case StoreLocal(_) => StoreTyped(names, global, fn, frame, instr, a, b, st, m);
    case StoreGlobal(_) => StoreTyped(names, global, fn, frame, instr, a, b, st, m);
    case Pop => StoreTyped(names, global, fn, frame, instr, a, b, st, m);
    case LoadReference => LoadReferenceTyped(names, global, fn, frame, a, b, st, m);
    case StoreReference => StoreReferenceTyped(names, global, fn, frame, a, b, st, m);
    case AllocRecord => RecordTyped(names, global, fn, frame, instr, a, b, st, m);
    case FieldLoad(_) => RecordTyped(names, global, fn, frame, instr, a, b, st, m);
    case IndexLoad => RecordTyped(names, global, fn, frame, instr, a, b, st, m);
    case FieldStore(_) => RecordStoreTyped(names, global, fn, frame, instr, a, b, st, m);
    case IndexStore => RecordStoreTyped(names, global, fn, frame, instr, a, b, st, m);
    case AllocClosure(n) => ClosureTyped(names, global, fn, frame, n, a, b, st, m);
    case Neg => UnaryTyped(names, global, fn, frame, instr, a, b, st, m);
    case Not => UnaryTyped(names, global, fn, frame, instr, a, b, st, m);
    case _ =>
      if IsBinary(instr) {
        BinaryTyped(names, global, fn, frame, instr, a, b, st, m);
      } else {
        LoadTyped(names, global, fn, frame, instr, a, b, st, m);
      }
  }

  // ---------------------------------------------------------------- calls

  lemma {:induction false} MakeReferencesTyped(m: Memory, frame: Addr, indices: seq<nat>, global: Addr, names: seq<string>)
    requires MemoryTyped(m, global, names) && forall i :: 0 <= i < |indices| ==> HasLocal(m.heap, frame, indices[i])
    ensures var (m', refs) := MakeReferences(m, frame, indices);
      && MemoryTyped(m', global, names) && HeapGrows(m.heap, m'.heap)
      && |refs| == |indices| && AllReferences(m'.heap, refs)
    decreases |indices|
  {
    hide HeapGrows, HeapTyped, HasLocal, IsReference;
    if indices == [] {
      GrowsSelf(m.heap);
    } else {
      var o := ReferenceObj(frame, indices[0]);
      AllocTyped(m, o, global, names);
      var m1 := Alloc(m, o);
      GrowingKeepsKinds(m.heap, m1.heap);
      forall i | 0 <= i < |indices[1..]| ensures HasLocal(m1.heap, frame, indices[1..][i]) {
        LocalKept(m.heap, m1.heap, frame, indices[i + 1]);
      }
      MakeReferencesTyped(m1, frame, indices[1..], global, names);
      var (m', rest) := MakeReferences(m1, frame, indices[1..]);
      GrowsVia(m.heap, m1.heap, m'.heap);
      NewReference(m, o, m'.heap);
      var refs := [m.next] + rest;
      forall i | 0 <= i < |refs| ensures IsReference(m'.heap, refs[i]) {
        if i > 0 { assert refs[i] == rest[i - 1]; }
      }
    }
  }

  lemma {:induction false} NewReference(m: Memory, o: Obj, h: Heap)
    requires o.ReferenceObj? && HeapGrows(Alloc(m, o).heap, h)
    ensures IsReference(h, m.next)
  {
    assert m.next in Alloc(m, o).heap;
    assert ObjGrows(Alloc(m, o).heap[m.next], h[m.next]);
  }

  lemma {:induction false} GrowsVia(a: Heap, b: Heap, c: Heap)
    requires HeapGrows(a, b) && HeapGrows(b, c)
    ensures HeapGrows(a, c)
  {
    forall p | p in a ensures p in c && ObjGrows(a[p], c[p]) {
      assert ObjGrows(a[p], b[p]) && ObjGrows(b[p], c[p]);
    }
  }

  /** The locals of a new frame: arguments, then None. */
  lemma {:induction false} NewLocalsTyped(h: Heap, args: seq<Value>, n: nat)
    requires AllTyped(h, args) && |args| <= n
    ensures AllTyped(h, args + seq(n - |args|, _ => NONE))
  {}

  lemma {:induction false} EnterFrameTyped(m: Memory, fn: Function, free: seq<Addr>, args: seq<Value>, global: Addr, names: seq<string>)
    requires MemoryTyped(m, global, names) && |args| <= |fn.localVars| && AllTyped(m.heap, args)
    requires |free| == |fn.freeVars| && AllReferences(m.heap, free)
    requires |fn.localReferenceIndices| == |fn.localReferenceVars|
    requires forall i :: 0 <= i < |fn.localReferenceIndices| ==> fn.localReferenceIndices[i] < |fn.localVars|
    ensures var m' := EnterFrame(m, fn, free, args);
      && MemoryTyped(m', global, names) && HeapGrows(m.heap, m'.heap) && FrameComplete(m'.heap, fn, m.next)
  {
    hide HeapGrows, HeapTyped, IsReference, ValueTyped;
    var locals := args + seq(|fn.localVars| - |args|, _ => NONE);
    NewLocalsTyped(m.heap, args, |fn.localVars|);
    var o := FrameObj(locals, []);
    AllocTyped(m, o, global, names);
    var m1 := Alloc(m, o);
    MakeReferencesTyped(m1, m.next, fn.localReferenceIndices, global, names);
    var (m2, refs) := MakeReferences(m1, m.next, fn.localReferenceIndices);
    GrowsVia(m.heap, m1.heap, m2.heap);
    GrowingKeepsKinds(m.heap, m2.heap);
    AllKept(m.heap, m2.heap, locals, free);
    StillFrame(m1.heap, m2.heap, m.next, locals);
    var o' := FrameObj(locals, refs + free);
    UpdateTyped(m2, m.next, o', global, names);
    GrowsPastNew(m.heap, m2.heap, m.next, o');
  }

  lemma {:induction false} StillFrame(h: Heap, h': Heap, a: Addr, locals: seq<Value>)
    requires HeapGrows(h, h') && a in h && h[a] == FrameObj(locals, [])
    ensures a in h' && h'[a].FrameObj? && |h'[a].locals| == |locals|
  {
    assert ObjGrows(h[a], h'[a]);
  }

  lemma {:induction false} GrowsPastNew(h: Heap, h': Heap, a: Addr, o: Obj)
    requires HeapGrows(h, h') && a !in h
    ensures HeapGrows(h, h'[a := o])
  {}

  // ---------------------------------------------------------------- steps

  /** A step from a well-shaped state. */
  ghost predicate GoodStep(vm: Machine, o: Outcome) {
    match o
    case Running(vm') => StateOk(vm') && vm'.names == vm.names && vm'.global == vm.global
    case Finished(_) => true
    case Failed =>
      && 0 <= vm.current.ip < |vm.current.fn.instructions|
      && Misused(vm.current.fn.instructions[vm.current.ip], vm.current.stack, vm.mem.heap)
  }

  /** Everything but the current activation after memory grew. */
  lemma {:induction false} Moved(vm: Machine, act: Activation, m: Memory)
    requires StateOk(vm) && MemoryTyped(m, vm.global, vm.names) && HeapGrows(vm.mem.heap, m.heap)
    requires CurrentOk(act, vm.names, m.heap, vm.callers == [])
    ensures StateOk(vm.(current := act, mem := m))
  {
    hide HeapGrows, MemoryTyped, CurrentOk, CallerOk;
    forall i | 0 <= i < |vm.callers| ensures CallerOk(vm.callers[i], vm.names, m.heap, i == 0) {
      CallerGrows(vm.callers[i], vm.names, vm.mem.heap, m.heap, i == 0);
    }
  }

  lemma {:induction false} JumpOk(vm: Machine, hs: seq<Option<Shape>>, ip: int, b: Shape, st: seq<Value>, m: Memory)
    requires StateOk(vm) && Shapes(vm.current.fn, vm.names, vm.callers == [], hs)
    requires FrameComplete(vm.mem.heap, vm.current.fn, vm.current.frame)
    requires MemoryTyped(m, vm.global, vm.names) && HeapGrows(vm.mem.heap, m.heap)
    requires 0 <= ip <= |vm.current.fn.instructions| && hs[ip] == Some(b) && StackOk(vm.current.fn, vm.names, m.heap, b, st)
    ensures StateOk(JumpTo(vm, ip, st).(mem := m))
  {
    hide HeapGrows, MemoryTyped, StateOk, Shapes, StackOk;
    var act := vm.current.(ip := ip, stack := st);
    FrameGrows(vm.mem.heap, m.heap, act.fn, act.frame);
    assert |hs| == |act.fn.instructions| + 1 by { ShapeCount(act.fn, vm.names, vm.callers == [], hs); }
    assert RunningAt(act, vm.names, m.heap, hs);
    Moved(vm, act, m);
  }

  lemma {:induction false} ShapeCount(fn: Function, globals: seq<string>, bottom: bool, hs: seq<Option<Shape>>)
    requires Shapes(fn, globals, bottom, hs)
    ensures |hs| == |fn.instructions| + 1
    ensures forall i :: 0 <= i < |fn.instructions| ==> PointOk(fn, globals, fn.instructions, hs, i)
  {
    hide PointOk;
  }

  lemma {:induction false} ControlOk(vm: Machine, hs: seq<Option<Shape>>, a: Shape)
    requires StateOk(vm) && Shapes(vm.current.fn, vm.names, vm.callers == [], hs)
    requires FrameComplete(vm.mem.heap, vm.current.fn, vm.current.frame)
    requires 0 <= vm.current.ip < |vm.current.fn.instructions| && hs[vm.current.ip] == Some(a)
    requires StackOk(vm.current.fn, vm.names, vm.mem.heap, a, vm.current.stack)
    requires var instr := vm.current.fn.instructions[vm.current.ip]; instr.Goto? || instr.If? || instr.Return?
    ensures GoodStep(vm, Step(vm))
  {
    hide HeapGrows, MemoryTyped, StateOk, Shapes, StackOk, FrameComplete, CurrentOk;
    var act, names, h := vm.current, vm.names, vm.mem.heap;
    ShapeCount(act.fn, names, vm.callers == [], hs);
    assert PointOk(act.fn, names, act.fn.instructions, hs, act.ip);
    GrowsSelf(h);
    assert MemoryTyped(vm.mem, vm.global, names) by { MemoryOfState(vm); }
    match act.fn.instructions[act.ip]
    case Goto(offset) => JumpOk(vm, hs, act.ip + offset, a, act.stack, vm.mem);
    case If(offset) =>
      TopOf(act.fn, names, h, a, act.stack);
      var rest := act.stack[..|act.stack|-1];
      JumpOk(vm, hs, act.ip + offset, a[..|a|-1], rest, vm.mem);
      JumpOk(vm, hs, act.ip + 1, a[..|a|-1], rest, vm.mem);
    case Return =>
      var act' := act.(ip := |act.fn.instructions| + 1);
      TopOf(act.fn, names, h, a, act.stack);
      assert RunningAt(act', names, h, hs);
      assert CurrentOk(act', names, h, vm.callers == []) by { CurrentGiven(act', names, h, vm.callers == [], hs); }
      Moved(vm, act', vm.mem);
  }

  lemma {:induction false} MemoryOfState(vm: Machine)
    requires StateOk(vm)
    ensures MemoryTyped(vm.mem, vm.global, vm.names)
  {}

  lemma {:induction false} CurrentGiven(act: Activation, globals: seq<string>, h: Heap, bottom: bool, hs: seq<Option<Shape>>)
    requires FrameComplete(h, act.fn, act.frame) && Shapes(act.fn, globals, bottom, hs) && RunningAt(act, globals, h, hs)
    ensures CurrentOk(act, globals, h, bottom)
  {}

  lemma {:induction false} PlainOk(vm: Machine, hs: seq<Option<Shape>>, a: Shape)
    requires StateOk(vm) && Shapes(vm.current.fn, vm.names, vm.callers == [], hs)
    requires FrameComplete(vm.mem.heap, vm.current.fn, vm.current.frame)
    requires 0 <= vm.current.ip < |vm.current.fn.instructions| && hs[vm.current.ip] == Some(a)
    requires StackOk(vm.current.fn, vm.names, vm.mem.heap, a, vm.current.stack)
    requires var instr := vm.current.fn.instructions[vm.current.ip]; !instr.Goto? && !instr.If? && !instr.Return? && !instr.Call?
    ensures GoodStep(vm, Step(vm))
  {
    hide HeapGrows, MemoryTyped, StateOk, Shapes, StackOk, FrameComplete, Operate, InstrOk, Misused;
    var act := vm.current;
    var instr := act.fn.instructions[act.ip];
    ShapeCount(act.fn, vm.names, vm.callers == [], hs);
    assert PointOk(act.fn, vm.names, act.fn.instructions, hs, act.ip);
    MemoryOfState(vm);
    var b := hs[act.ip + 1].value;
    OperateTyped(vm.names, vm.global, act.fn, act.frame, instr, a, b, act.stack, vm.mem);
    match Operate(vm.names, vm.global, act.fn, act.frame, instr, act.stack, vm.mem)
    case None =>
    case Some((st', m')) => JumpOk(vm, hs, act.ip + 1, b, st', m');
  }

  /** The code of a closure found in the heap. */
  lemma {:induction false} ClosureOfState(m: Memory, global: Addr, names: seq<string>, v: Value)
    requires MemoryTyped(m, global, names) && Look(m.heap, v).ClosureW?
    ensures var ClosureW(fn, free) := Look(m.heap, v);
      CodeOk(fn, names) && |free| == |fn.freeVars| && AllReferences(m.heap, free)
  {
    hide CodeOk, AllReferences;
    assert ObjectTyped(m.heap, names, m.heap[v.a]);
  }

  lemma {:induction false} CallOk(vm: Machine, hs: seq<Option<Shape>>, a: Shape, k: int)
    requires StateOk(vm) && Shapes(vm.current.fn, vm.names, vm.callers == [], hs)
    requires FrameComplete(vm.mem.heap, vm.current.fn, vm.current.frame)
    requires 0 <= vm.current.ip < |vm.current.fn.instructions| && hs[vm.current.ip] == Some(a)
    requires StackOk(vm.current.fn, vm.names, vm.mem.heap, a, vm.current.stack)
    requires vm.current.fn.instructions[vm.current.ip] == Instruction.Call(k)
    ensures GoodStep(vm, DoCall(vm, k))
  {
    hide HeapGrows, MemoryTyped, StateOk, Shapes, StackOk, FrameComplete, CodeOk, AllReferences, EnterFrame, ToString, ValueTyped;
    var act, names, h, st := vm.current, vm.names, vm.mem.heap, vm.current.stack;
    ShapeCount(act.fn, names, vm.callers == [], hs);
    assert PointOk(act.fn, names, act.fn.instructions, hs, act.ip);
    MemoryOfState(vm);
    var b := hs[act.ip + 1].value;
    CallShape(act.fn, names, k, a, b);
    var base := b[..|b|-1];
    assert a == base + ([PlainSlot] + Plains(k));
    PlainTop(act.fn, names, h, base, [PlainSlot] + Plains(k), st);
    var n := |st|;
    assert n - 1 - k == |base|;
    if Look(h, st[n-1-k]).ClosureW? {
      var ClosureW(fn, free) := Look(h, st[n-1-k]);
      ClosureOfState(vm.mem, vm.global, names, st[n-1-k]);
      if k == fn.parameterCount {
        CodeShape(fn, names);
        assert AllTyped(h, st[n-k..]);
        EnterFrameTyped(vm.mem, fn, free, st[n-k..], vm.global, names);
        var m := EnterFrame(vm.mem, fn, free, st[n-k..]);
        EnterFrameOk(vm.mem, fn, free, st[n-k..]);
        var caller := act.(stack := st[..n-1-k]);
        if fn.builtin == Compiled {
          EnteredOk(vm, hs, b, caller, fn, m);
        } else if fn.builtin == PrintFunction && ToString(m.heap, st[n-k..][0], {}).Some? {
          PrintedOk(vm, hs, b, caller, m, m.out + [ToString(m.heap, st[n-k..][0], {}).value]);
        } else if fn.builtin == PrintFunction {
          assert st[n-k..][0] == st[n-1];
          RendersSame(vm.mem, vm.global, names, st[n-1], m.heap);
        }
      }
    }
  }

  lemma {:induction false} CallShape(fn: Function, globals: seq<string>, k: int, a: Shape, b: Shape)
    requires InstrOk(fn, globals, Instruction.Call(k), a, b)
    ensures 0 <= k && b != [] && b[|b|-1] == PlainSlot && a == b + Plains(k)
  {}

  lemma {:induction false} CodeShape(fn: Function, globals: seq<string>)
    requires CodeOk(fn, globals)
    ensures fn.parameterCount <= |fn.localVars| && |fn.localReferenceIndices| == |fn.localReferenceVars|
    ensures forall i :: 0 <= i < |fn.localReferenceIndices| ==> fn.localReferenceIndices[i] < |fn.localVars|
    ensures fn.builtin == PrintFunction ==> fn.parameterCount == 1
    ensures fn.builtin == Compiled ==> Segment(fn, globals, fn.instructions, [], None)
  {
    hide Segment;
  }

  /** In a typed heap nothing points outside, so objects added later do not
      change what a value renders to. */
  lemma {:induction false} RendersSame(m: Memory, global: Addr, names: seq<string>, v: Value, h': Heap)
    requires MemoryTyped(m, global, names) && ValueTyped(m.heap, v) && HeapExtends(m.heap, h')
    ensures ToString(m.heap, v, {}) == ToString(h', v, {})
  {
    hide CodeOk, Pointees;
    var h := m.heap;
    forall a, p | a in h && p in Pointees(h'[a]) ensures Safe(h', h, p) {
      assert ObjectTyped(h, names, h[a]);
      PointeesTyped(h, names, h[a], p);
    }
    assert Retains(h', h);
    ToStringPruned(h', h, v, {});
  }

  lemma {:induction false} PointeesTyped(h: Heap, names: seq<string>, o: Obj, p: Addr)
    requires ObjectTyped(h, names, o) && p in Pointees(o)
    ensures p in h
  {
    hide CodeOk;
    match o
    case ClosureObj(_, free) => var i :| 0 <= i < |free| && free[i] == p; assert IsReference(h, free[i]);
    case FrameObj(locals, refs) =>
      if p in Targets(locals) {
        var i :| 0 <= i < |locals| && locals[i].Ptr? && locals[i].a == p;
        assert ValueTyped(h, locals[i]);
      } else {
        var i :| 0 <= i < |refs| && refs[i] == p;
        assert IsReference(h, refs[i]);
      }
    case _ =>
  }

  lemma {:induction false} EnteredOk(vm: Machine, hs: seq<Option<Shape>>, b: Shape, caller: Activation, fn: Function, m: Memory)
    requires StateOk(vm) && Shapes(vm.current.fn, vm.names, vm.callers == [], hs)
    requires FrameComplete(vm.mem.heap, vm.current.fn, vm.current.frame)
    requires 0 <= vm.current.ip < |vm.current.fn.instructions| && hs[vm.current.ip + 1] == Some(b)
    requires b != [] && b[|b|-1] == PlainSlot && caller == vm.current.(stack := caller.stack)
    requires StackOk(vm.current.fn, vm.names, vm.mem.heap, b[..|b|-1], caller.stack)
    requires CodeOk(fn, vm.names) && fn.builtin == Compiled
    requires MemoryTyped(m, vm.global, vm.names) && HeapGrows(vm.mem.heap, m.heap) && FrameComplete(m.heap, fn, vm.mem.next)
    ensures StateOk(vm.(callers := vm.callers + [caller], current := Activation(fn, 0, vm.mem.next, []), mem := m))
  {
    hide HeapGrows, MemoryTyped, StackOk, FrameComplete, CodeOk, PointOk;
    var names, h := vm.names, m.heap;
    CodeShape(fn, names);
    var hc: seq<Option<Shape>> :| Flow(fn, names, fn.instructions, hc) && hc[0] == Some([]) && hc[|fn.instructions|] == None;
    assert |hc| == |fn.instructions| + 1 by { FlowCount(fn, names, fn.instructions, hc); }
    var act := Activation(fn, 0, vm.mem.next, []);
    assert StackOk(fn, names, h, [], []) by { EmptyStack(fn, names, h); }
    assert RunningAt(act, names, h, hc);
    ShapeCount(vm.current.fn, names, vm.callers == [], hs);
    StackGrows(vm.current.fn, names, vm.mem.heap, h, b[..|b|-1], caller.stack);
    FrameGrows(vm.mem.heap, h, caller.fn, caller.frame);
    assert WaitingAt(caller, names, h, hs);
    forall i | 0 <= i < |vm.callers| ensures CallerOk(vm.callers[i], names, h, i == 0) {
      CallerGrows(vm.callers[i], names, vm.mem.heap, h, i == 0);
    }
  }

  lemma {:induction false} FlowCount(fn: Function, globals: seq<string>, code: seq<Instruction>, hs: seq<Option<Shape>>)
    requires Flow(fn, globals, code, hs)
    ensures |hs| == |code| + 1
  {}

  lemma {:induction false} EmptyStack(fn: Function, globals: seq<string>, h: Heap)
    ensures StackOk(fn, globals, h, [], [])
  {}

  lemma {:induction false} PrintedOk(vm: Machine, hs: seq<Option<Shape>>, b: Shape, caller: Activation, m: Memory, out: seq<string>)
    requires StateOk(vm) && Shapes(vm.current.fn, vm.names, vm.callers == [], hs)
    requires FrameComplete(vm.mem.heap, vm.current.fn, vm.current.frame)
    requires 0 <= vm.current.ip < |vm.current.fn.instructions| && hs[vm.current.ip + 1] == Some(b)
    requires b != [] && b[|b|-1] == PlainSlot && caller == vm.current.(stack := caller.stack)
    requires StackOk(vm.current.fn, vm.names, vm.mem.heap, b[..|b|-1], caller.stack)
    requires MemoryTyped(m, vm.global, vm.names) && HeapGrows(vm.mem.heap, m.heap)
    ensures StateOk(vm.(current := caller.(ip := caller.ip + 1, stack := caller.stack + [NONE]), mem := m.(out := out)))
  {
    hide HeapGrows, StateOk, StackOk, FrameComplete, Shapes, HeapTyped;
    ConstTyped(m.heap, NoneC);
    Replaced(vm.current.fn, vm.names, vm.mem.heap, m.heap, b, caller.stack, NONE);
    JumpOk(vm, hs, vm.current.ip + 1, b, caller.stack + [NONE], m.(out := out));
  }

  lemma {:induction false} ReturnOk(vm: Machine)
    requires StateOk(vm) && vm.current.ip >= |vm.current.fn.instructions|
    ensures GoodStep(vm, DoReturn(vm))
  {
    hide HeapGrows, MemoryTyped, StackOk, FrameComplete, Flow, CallerOk, ValueTyped;
    var names, h := vm.names, vm.mem.heap;
    if vm.callers != [] {
      var n := |vm.callers|;
      var st := vm.current.stack;
      assert st != [] && ValueTyped(h, st[|st|-1]) by { ReturnedValue(vm); }
      var caller := vm.callers[n-1];
      CallerResumes(caller, names, h, n == 1, st[|st|-1]);
    }
  }

  /** Only a return leads past the end of a function that was called. */
  lemma {:induction false} ReturnedValue(vm: Machine)
    requires CurrentOk(vm.current, vm.names, vm.mem.heap, false) && vm.current.ip >= |vm.current.fn.instructions|
    ensures vm.current.stack != [] && ValueTyped(vm.mem.heap, vm.current.stack[|vm.current.stack|-1])
  {
    hide Flow;
    var act := vm.current;
    var hs: seq<Option<Shape>> :| Shapes(act.fn, vm.names, false, hs) && RunningAt(act, vm.names, vm.mem.heap, hs);
    assert SlotOk(act.fn, vm.names, vm.mem.heap, [PlainSlot][0], act.stack[0]);
  }

  lemma {:induction false} CallerResumes(act: Activation, globals: seq<string>, h: Heap, bottom: bool, v: Value)
    requires CallerOk(act, globals, h, bottom) && ValueTyped(h, v)
    ensures CurrentOk(act.(ip := act.ip + 1, stack := act.stack + [v]), globals, h, bottom)
  {
    hide FrameComplete, StackOk, Shapes, ValueTyped;
    var hs: seq<Option<Shape>> :| Shapes(act.fn, globals, bottom, hs) && WaitingAt(act, globals, h, hs);
    GrowsSelf(h);
    var b := hs[act.ip + 1].value;
    Replaced(act.fn, globals, h, h, b, act.stack, v);
    assert RunningAt(act.(ip := act.ip + 1, stack := act.stack + [v]), globals, h, hs);
  }

  /** Preservation and progress: a well-shaped state steps to a well-shaped state,
      finishes, or fails with an error of the language. */
  lemma {:induction false} StepOk(vm: Machine)
    requires StateOk(vm)
    ensures GoodStep(vm, Step(vm))
  {
    hide HeapGrows, MemoryTyped, StackOk, FrameComplete, Shapes, CallerOk, DoCall, DoReturn, Operate;
    var act := vm.current;
    if act.ip >= |act.fn.instructions| {
      ReturnOk(vm);
    } else {
      var hs: seq<Option<Shape>> :| Shapes(act.fn, vm.names, vm.callers == [], hs) && RunningAt(act, vm.names, vm.mem.heap, hs);
      var instr, a := act.fn.instructions[act.ip], hs[act.ip].value;
      if instr.Goto? || instr.If? || instr.Return? {
        ControlOk(vm, hs, a);
      } else if instr.Call? {
        CallOk(vm, hs, a, instr.n);
      } else {
        PlainOk(vm, hs, a);
      }
    }
  }

  // ---------------------------------------------------------------- runs

  lemma {:induction false} StartOk(program: seq<Stmt>)
    requires WellFormedBlock(program, RETURNS) && CompileProgram(program).freeVars == []
    ensures |CompileProgram(program).functions| >= 3 && StateOk(Start(CompileProgram(program)))
  {
    hide CompileProgram, CodeBlock, OkBlock, WellFormedBlock;
    LessAskedOfBlock(program, SHAPE, RETURNS);
    ProgramLaidOut(program);
    ProgramCapturesNothing(program);
    var main, fn := CompileProgram(program), Linked(program);
    var env, names := Layout.Top(fn), fn.names;
    BlockFlow(program, env, 3);
    ProgramShapes(program, fn, names);
    var vm := Start(main);
    var hs: seq<Option<Shape>> :| Shapes(fn, names, true, hs);
    assert StackOk(fn, names, vm.mem.heap, [], []);
    ShapeCount(fn, names, true, hs);
    assert RunningAt(vm.current, names, vm.mem.heap, hs);
    assert CurrentOk(vm.current, names, vm.mem.heap, true);
    assert ObjectTyped(vm.mem.heap, names, vm.mem.heap[0]);
  }

  lemma {:induction false} ProgramShapes(program: seq<Stmt>, fn: Function, names: seq<string>)
    requires fn.instructions == Prologue() + CodeBlock(program, Layout.Top(fn), 3)
    requires NATIVE_NAMES <= names && names == fn.names && |fn.functions| >= 3
    requires fn.functions[0] == BuiltinFunction(PrintFunction) && fn.functions[1] == BuiltinFunction(InputFunction)
    requires fn.functions[2] == BuiltinFunction(IntcastFunction)
    requires Segment(fn, names, CodeBlock(program, Layout.Top(fn), 3), [], Exit(MustReturnBlock(program)))
    ensures exists hs: seq<Option<Shape>> :: Shapes(fn, names, true, hs)
  {
    hide CodeBlock, PointOk;
    assert |names| >= 3 && forall i :: 0 <= i < 3 ==> fn.names[i] in names;
    PrologueFlow(fn, names);
    var code, exit := CodeBlock(program, Layout.Top(fn), 3), Exit(MustReturnBlock(program));
    Sequence(fn, names, Prologue(), code, [], [], exit);
    var hs: seq<Option<Shape>> :| Flow(fn, names, fn.instructions, hs) && hs[0] == Some([]) && hs[|fn.instructions|] == exit;
    assert Shapes(fn, names, true, hs);
  }

  lemma {:induction false} StepsOk(n: nat, vm: Machine)
    requires StateOk(vm)
    ensures Steps(n, vm).Running? ==> StateOk(Steps(n, vm).vm)
    decreases n
  {
    hide StateOk, Step;
    if n > 0 {
      StepOk(vm);
      match Step(vm)
      case Running(vm') => StepsOk(n - 1, vm');
      case _ =>
    }
  }

  /** Safety over whole runs. In every state a compiled program reaches, operand
      stacks match their static shapes (so none is ever popped empty), every
      frame has all its slots, and the next step can only fail because the
      program misused a value. */
  lemma {:induction false} CompiledCodeIsSafe(program: seq<Stmt>, n: nat)
    requires WellFormedBlock(program, RETURNS) && CompileProgram(program).freeVars == []
    ensures |CompileProgram(program).functions| >= 3
    ensures var o := Steps(n, Start(CompileProgram(program)));
      o.Running? ==> StateOk(o.vm) && GoodStep(o.vm, Step(o.vm))
  {
    hide StateOk, Step, CompileProgram, WellFormedBlock;
    StartOk(program);
    StepsOk(n, Start(CompileProgram(program)));
    var o := Steps(n, Start(CompileProgram(program)));
    if o.Running? { StepOk(o.vm); }
  }
}
