/** The instructions the machine has and the compiler never emits. */
module HandWrittenCode {
  import opened Basics
  import opened Bytecode
  import opened Machine
  import opened Execution

  lemma {:induction false} OneStep(vm: Machine, code: seq<Instruction>, i: nat, st: seq<Value>, m: Memory, st': seq<Value>, m': Memory)
    requires Placed(vm, code) && i < |code| && IsPlain(code[i])
    requires Operate(vm.names, vm.global, vm.current.fn, vm.current.frame, code[i], st, m) == Some((st', m'))
    ensures Step(At(vm, vm.current.ip + i, st, m)) == Running(At(vm, vm.current.ip + i + 1, st', m'))
  {
    hide Operate;
    var instrs, p := vm.current.fn.instructions, vm.current.ip;
    assert instrs[p..p + |code|][i] == instrs[p + i];
  }

  lemma {:induction false} TwoSteps(vm: Machine, mid: Machine, last: Machine)
    requires Step(vm) == Running(mid) && Step(mid) == Running(last)
    ensures Steps(2, vm) == Running(last)
  {
    hide Step;
    assert Steps(1, mid) == Running(last) by { assert Steps(0, last) == Running(last); }
  }

  lemma {:induction false} Exchanged(vm: Machine, st: seq<Value>, x: Value, y: Value)
    ensures Operate(vm.names, vm.global, vm.current.fn, vm.current.frame, Swap, st + [x, y], vm.mem) == Some((st + [y, x], vm.mem))
    ensures Operate(vm.names, vm.global, vm.current.fn, vm.current.frame, Pop, st + [x, y], vm.mem) == Some((st + [x], vm.mem))
  {
    var a := st + [x, y];
    assert a[..|a| - 2] == st && a[..|a| - 1] == st + [x];
  }

  /** Swapping exchanges the two topmost operands and nothing else: popping afterwards
      drops the lower of the two, and swapping again undoes it. */
  lemma {:induction false} SwapExchanges(vm: Machine, st: seq<Value>, x: Value, y: Value)
    requires vm.current.stack == st + [x, y]
    ensures Placed(vm, [Swap, Pop]) ==> Steps(2, vm) == Running(At(vm, vm.current.ip + 2, st + [y], vm.mem))
    ensures Placed(vm, [Swap, Swap]) ==> Steps(2, vm) == Running(At(vm, vm.current.ip + 2, vm.current.stack, vm.mem))
  {
    hide Step, Steps, Operate, Placed;
    var a, b := st + [x, y], st + [y, x];
    Exchanged(vm, st, x, y);
    Exchanged(vm, st, y, x);
    var m, p := vm.mem, vm.current.ip;
    assert vm == At(vm, p, a, m);
    forall second | second in {Pop, Swap} && Placed(vm, [Swap, second])
      ensures Steps(2, vm) == Running(At(vm, p + 2, if second.Pop? then st + [y] else a, m))
    {
      OneStep(vm, [Swap, second], 0, a, m, b, m);
      OneStep(vm, [Swap, second], 1, b, m, if second.Pop? then st + [y] else a, m);
      TwoSteps(vm, At(vm, p + 1, b, m), At(vm, p + 2, if second.Pop? then st + [y] else a, m));
    }
  }

  /** Only that local of that frame is changed. */
  ghost predicate OnlyLocal(m: Memory, m': Memory, frame: Addr, i: nat) {
    && m' == m.(heap := m'.heap) && m'.heap.Keys == m.heap.Keys
    && (forall a :: a in m.heap && a != frame ==> m'.heap[a] == m.heap[a])
    && HasLocal(m.heap, frame, i) && HasLocal(m'.heap, frame, i)
    && m'.heap[frame].refs == m.heap[frame].refs && |m'.heap[frame].locals| == |m.heap[frame].locals|
    && (forall k :: 0 <= k < |m.heap[frame].locals| && k != i ==> m'.heap[frame].locals[k] == m.heap[frame].locals[k])
  }

  lemma {:induction false} Pushed(vm: Machine, st: seq<Value>, m: Memory, k: nat)
    requires var f := vm.current.frame; f in m.heap && m.heap[f].FrameObj? && k < |m.heap[f].refs|
    ensures Operate(vm.names, vm.global, vm.current.fn, vm.current.frame, PushReference(k), st, m)
      == Some((st + [Ptr(m.heap[vm.current.frame].refs[k])], m))
  {}

  lemma {:induction false} Stored(vm: Machine, st: seq<Value>, v: Value, a: Value, m: Memory, owner: Addr, i: nat)
    requires Look(m.heap, a) == ReferenceW(owner, i) && HasLocal(m.heap, owner, i)
    ensures Operate(vm.names, vm.global, vm.current.fn, vm.current.frame, StoreReference, st + [v] + [a], m)
      == Some((st, SetLocal(m, owner, i, v)))
    ensures var m' := SetLocal(m, owner, i, v); Look(m'.heap, a) == Look(m.heap, a) && HasLocal(m'.heap, owner, i)
    ensures SetLocal(m, owner, i, v).heap[owner].locals[i] == v
  {
    hide SetLocal;
    var s := st + [v] + [a];
    assert s[..|s| - 2] == st && s[|s| - 2] == v;
    LocalSet(m, a, owner, i, v);
  }

  lemma {:induction false} LocalSet(m: Memory, a: Value, owner: Addr, i: nat, v: Value)
    requires Look(m.heap, a) == ReferenceW(owner, i) && HasLocal(m.heap, owner, i)
    ensures var m' := SetLocal(m, owner, i, v);
      && Look(m'.heap, a) == Look(m.heap, a) && HasLocal(m'.heap, owner, i) && m'.heap[owner].locals[i] == v
  {}

  lemma {:induction false} Loaded(vm: Machine, st: seq<Value>, a: Value, m: Memory, owner: Addr, i: nat)
    requires Look(m.heap, a) == ReferenceW(owner, i) && HasLocal(m.heap, owner, i)
    ensures Operate(vm.names, vm.global, vm.current.fn, vm.current.frame, LoadReference, st + [a], m)
      == Some((st + [m.heap[owner].locals[i]], m))
  {
    assert (st + [a])[..|st|] == st;
  }

  /** What is stored through a reference is what is loaded through it, and no other
      local changes, whichever frame it is in. */
  lemma {:induction false} StoredThroughReference(vm: Machine, st: seq<Value>, v: Value, k: nat, owner: Addr, i: nat)
    requires Placed(vm, [PushReference(k), StoreReference, PushReference(k), LoadReference]) && vm.current.stack == st + [v]
    requires var h := vm.mem.heap;
      && vm.current.frame in h && h[vm.current.frame].FrameObj? && k < |h[vm.current.frame].refs|
      && Look(h, Ptr(h[vm.current.frame].refs[k])) == ReferenceW(owner, i) && HasLocal(h, owner, i)
    ensures exists m ::
      && Steps(4, vm) == Running(At(vm, vm.current.ip + 4, st + [v], m))
      && OnlyLocal(vm.mem, m, owner, i)
  {
    hide Step, Steps, OnlyLocal, Operate, SetLocal, Placed;
    var code := [PushReference(k), StoreReference, PushReference(k), LoadReference];
    var m, p, a := vm.mem, vm.current.ip, Ptr(vm.mem.heap[vm.current.frame].refs[k]);
    var m' := SetLocal(m, owner, i, v);
    StoresOnlyThere(m, vm.current.frame, owner, i, v);
    assert vm == At(vm, p, st + [v], m);
    var s1 := st + [v] + [a];
    Pushed(vm, st + [v], m, k);
    Pushed(vm, st, m', k);
    Stored(vm, st, v, a, m, owner, i);
    Loaded(vm, st, a, m', owner, i);
    OneStep(vm, code, 0, st + [v], m, s1, m);
    OneStep(vm, code, 1, s1, m, st, m');
    OneStep(vm, code, 2, st, m', st + [a], m');
    OneStep(vm, code, 3, st + [a], m', st + [v], m');
    TwoSteps(vm, At(vm, p + 1, s1, m), At(vm, p + 2, st, m'));
    TwoSteps(At(vm, p + 2, st, m'), At(vm, p + 3, st + [a], m'), At(vm, p + 4, st + [v], m'));
    StepsCompose(2, 2, vm, At(vm, p + 2, st, m'));
  }

  lemma {:induction false} StoresOnlyThere(m: Memory, frame: Addr, owner: Addr, i: nat, v: Value)
    requires HasLocal(m.heap, owner, i) && frame in m.heap && m.heap[frame].FrameObj?
    ensures var m' := SetLocal(m, owner, i, v);
      && OnlyLocal(m, m', owner, i) && frame in m'.heap && m'.heap[frame].FrameObj? && m'.heap[frame].refs == m.heap[frame].refs
  {}
}
