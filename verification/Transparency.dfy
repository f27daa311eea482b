/** Collecting at any set of instruction boundaries leaves the outcome of every
    run unchanged: whatever a later instruction can touch is reachable from the
    frame stack or lives outside the heap. */
module Transparency {
  import opened Basics
  import opened Bytecode
  import opened Machine
  import opened Execution

  // ---------------------------------------------------------------- reachability

  function Targets(vs: seq<Value>): (r: set<Addr>)
    ensures forall i :: 0 <= i < |vs| && vs[i].Ptr? ==> vs[i].a in r
  {
    set i | 0 <= i < |vs| && vs[i].Ptr? :: vs[i].a
  }

  /** What an object's `follow` visits inside the heap. */
  function Pointees(o: Obj): set<Addr> {
    match o
    case IntegerObj(_) => {}
    case StringObj(_) => {}
    case RecordObj(fields) => set k | k in fields && fields[k].Ptr? :: fields[k].a
    case ClosureObj(_, free) => set a | a in free
    case ReferenceObj(frame, _) => {frame}
    case FrameObj(locals, refs) => Targets(locals) + (set a | a in refs)
  }

  /** The frame stack: each activation's frame and operand stack. */
  function RootsOf(act: Activation): set<Addr> {
    {act.frame} + Targets(act.stack)
  }

  function Roots(vm: Machine): set<Addr> {
    RootsOf(vm.current) + (set i, a | 0 <= i < |vm.callers| && a in RootsOf(vm.callers[i]) :: a)
  }

  ghost predicate Closed(h: Heap, d: set<Addr>) {
    forall a, b :: a in d && a in h && b in Pointees(h[a]) && b in h ==> b in d
  }

  /** Member of every closed set of objects that contains the roots. */
  ghost predicate Live(vm: Machine, a: Addr) {
    a in vm.mem.heap
    && forall d: set<Addr> :: d <= vm.mem.heap.Keys && Roots(vm) * vm.mem.heap.Keys <= d && Closed(vm.mem.heap, d) ==> a in d
  }

  /** Exactly the live objects survive. */
  ghost function Collect(vm: Machine): Machine {
    vm.(mem := vm.mem.(heap := map a | a in vm.mem.heap && Live(vm, a) :: vm.mem.heap[a]))
  }

  // ---------------------------------------------------------------- exactly what lives

  /** The object holds the address: as a field, as a captured cell, as the frame a
      reference leads to, as a local or as a reference of a frame. */
  ghost predicate Mentions(o: Obj, b: Addr) {
    match o
    case IntegerObj(_) => false
    case StringObj(_) => false
    case RecordObj(fields) => exists x :: x in fields && fields[x] == Ptr(b)
    case ClosureObj(_, free) => b in free
    case ReferenceObj(frame, _) => b == frame
    case FrameObj(locals, refs) => Ptr(b) in locals || b in refs
  }

  /** The address is the frame of a call in progress, or one of its operands. */
  ghost predicate Anchored(vm: Machine, a: Addr) {
    exists act :: (act == vm.current || act in vm.callers) && Held(act, a)
  }

  ghost predicate Held(act: Activation, a: Addr) {
    a == act.frame || Ptr(a) in act.stack
  }

  /** Objects of the heap, the first one anchored, each mentioned by the one before. */
  ghost predicate Chain(vm: Machine, path: seq<Addr>) {
    && path != [] && Anchored(vm, path[0])
    && (forall i :: 0 <= i < |path| ==> path[i] in vm.mem.heap)
    && (forall i :: 0 < i < |path| ==> Mentions(vm.mem.heap[path[i - 1]], path[i]))
  }

  ghost predicate LedTo(vm: Machine, a: Addr) {
    exists path :: Chain(vm, path) && path[|path| - 1] == a
  }

  lemma {:induction false} MentionsIff(o: Obj, b: Addr)
    ensures Mentions(o, b) <==> b in Pointees(o)
  {
    if o.FrameObj? { TargetsIff(o.locals, b); }
    if o.RecordObj? && b in Pointees(o) {
      var x :| x in o.fields && o.fields[x].Ptr? && o.fields[x].a == b;
      assert o.fields[x] == Ptr(b);
    }
  }

  lemma {:induction false} TargetsIff(vs: seq<Value>, b: Addr)
    ensures b in Targets(vs) <==> Ptr(b) in vs
  {
    if b in Targets(vs) {
      var i :| 0 <= i < |vs| && vs[i].Ptr? && vs[i].a == b;
      assert vs[i] == Ptr(b);
    }
  }

  lemma {:induction false} AnchoredIff(vm: Machine, a: Addr)
    ensures Anchored(vm, a) <==> a in Roots(vm)
  {
    if Anchored(vm, a) {
      var act :| (act == vm.current || act in vm.callers) && Held(act, a);
      TargetsIff(act.stack, a);
      if act != vm.current {
        var i :| 0 <= i < |vm.callers| && vm.callers[i] == act;
        assert a in RootsOf(vm.callers[i]);
      }
    }
    if a in Roots(vm) {
      TargetsIff(vm.current.stack, a);
      if a in RootsOf(vm.current) {
        assert Held(vm.current, a);
      } else {
        var i :| 0 <= i < |vm.callers| && a in RootsOf(vm.callers[i]);
        TargetsIff(vm.callers[i].stack, a);
        assert vm.callers[i] in vm.callers && Held(vm.callers[i], a);
      }
    }
  }

  /** The live objects are those a chain of mentions leads to from a call in progress:
      nothing else survives a collection, and nothing less. */
  lemma {:induction false} LiveIffLedTo(vm: Machine, a: Addr)
    ensures Live(vm, a) <==> LedTo(vm, a)
    ensures a in Collect(vm).mem.heap <==> LedTo(vm, a)
  {
    hide Anchored, Mentions, Pointees, Roots;
    if LedTo(vm, a) {
      var path :| Chain(vm, path) && path[|path| - 1] == a;
      ChainLives(vm, path);
    }
    if Live(vm, a) {
      var h := vm.mem.heap;
      var d := set b | b in h && LedTo(vm, b);
      forall b | b in Roots(vm) * h.Keys ensures b in d {
        AnchoredIff(vm, b);
        assert Chain(vm, [b]);
      }
      forall b, c | b in d && b in h && c in Pointees(h[b]) && c in h ensures c in d {
        MentionsIff(h[b], c);
        OneFurther(vm, b, c);
      }
      assert Closed(h, d);
    }
  }

  lemma {:induction false} OneFurther(vm: Machine, b: Addr, c: Addr)
    requires LedTo(vm, b) && b in vm.mem.heap && c in vm.mem.heap && Mentions(vm.mem.heap[b], c)
    ensures LedTo(vm, c)
  {
    hide Anchored, Mentions;
    var path :| Chain(vm, path) && path[|path| - 1] == b;
    assert Chain(vm, path + [c]);
  }

  lemma {:induction false} ChainLives(vm: Machine, path: seq<Addr>)
    requires Chain(vm, path)
    ensures Live(vm, path[|path| - 1])
    decreases |path|
  {
    hide Anchored, Mentions, Pointees, Roots;
    var a := path[|path| - 1];
    if |path| == 1 {
      AnchoredIff(vm, a);
    } else {
      ChainLives(vm, path[..|path| - 1]);
      MentionsIff(vm.mem.heap[path[|path| - 2]], a);
    }
  }

  /** A live object no call in progress holds is mentioned by another live object. */
  lemma {:induction false} LiveIsMentioned(vm: Machine, a: Addr)
    requires Live(vm, a) && !Anchored(vm, a)
    ensures exists b :: b != a && Live(vm, b) && Mentions(vm.mem.heap[b], a)
  {
    hide Live, Mentions;
    LiveIffLedTo(vm, a);
    var path :| Chain(vm, path) && path[|path| - 1] == a;
    LastMention(vm, path);
  }

  lemma {:induction false} LastMention(vm: Machine, path: seq<Addr>)
    requires Chain(vm, path) && !Anchored(vm, path[|path| - 1])
    ensures exists b :: b != path[|path| - 1] && Live(vm, b) && Mentions(vm.mem.heap[b], path[|path| - 1])
    decreases |path|
  {
    hide Live, Anchored, Mentions;
    assert Chain(vm, path[..|path| - 1]);
    if path[|path| - 2] == path[|path| - 1] {
      LastMention(vm, path[..|path| - 1]);
    } else {
      ChainLives(vm, path[..|path| - 1]);
    }
  }

  // ---------------------------------------------------------------- pruned heaps

  /** `s` is `b` without some objects nobody in `s` points to. */
  ghost predicate Retains(b: Heap, s: Heap) {
    && (forall a :: a in s ==> a in b && s[a] == b[a])
    && (forall a, p :: a in s && p in Pointees(b[a]) ==> Safe(b, s, p))
  }

  ghost predicate Safe(b: Heap, s: Heap, a: Addr) {
    a in b ==> a in s
  }

  ghost predicate SafeValue(b: Heap, s: Heap, v: Value) {
    v.Ptr? ==> Safe(b, s, v.a)
  }

  ghost predicate SafeStack(b: Heap, s: Heap, st: seq<Value>) {
    forall i :: 0 <= i < |st| ==> SafeValue(b, s, st[i])
  }

  ghost predicate PrunedMemory(b: Memory, s: Memory) {
    && s == b.(heap := s.heap)
    && (forall a :: a in b.heap ==> a < b.next)
    && Retains(b.heap, s.heap)
  }

  ghost predicate SafeActivation(b: Heap, s: Heap, act: Activation) {
    Safe(b, s, act.frame) && SafeStack(b, s, act.stack)
  }

  /** The program's frame is at the bottom of the frame stack. */
  ghost predicate GlobalAtBottom(vm: Machine) {
    (if vm.callers == [] then vm.current else vm.callers[0]).frame == vm.global
  }

  ghost predicate Pruned(b: Machine, s: Machine) {
    && s == b.(mem := s.mem)
    && PrunedMemory(b.mem, s.mem)
    && SafeActivation(b.mem.heap, s.mem.heap, b.current)
    && (forall i :: 0 <= i < |b.callers| ==> SafeActivation(b.mem.heap, s.mem.heap, b.callers[i]))
    && GlobalAtBottom(b)
  }

  lemma {:induction false} LookPruned(b: Heap, s: Heap, v: Value)
    requires Retains(b, s) && SafeValue(b, s, v)
    ensures Look(s, v) == Look(b, v)
  {}

  lemma {:induction false} ToStringPruned(b: Heap, s: Heap, v: Value, path: set<Addr>)
    requires Retains(b, s) && SafeValue(b, s, v)
    ensures ToString(s, v, path) == ToString(b, v, path)
    decreases b.Keys - path, 0
  {
    hide Retains;
    LookPruned(b, s, v);
    match Look(b, v)
    case RecordW(a) =>
      if a in b && b[a].RecordObj? && a !in path {
        FieldsSafe(b, s, a);
        assert a in b.Keys - path;
        FieldsPruned(b, s, KeysInOrder(b[a].fields.Keys), b[a].fields, path + {a});
      }
    case _ =>
  }

  lemma {:induction false} FieldsSafe(b: Heap, s: Heap, a: Addr)
    requires Retains(b, s) && Safe(b, s, a) && a in b && b[a].RecordObj?
    ensures a in s && s[a] == b[a]
    ensures forall k :: k in b[a].fields ==> SafeValue(b, s, b[a].fields[k])
  {
    forall k | k in b[a].fields ensures SafeValue(b, s, b[a].fields[k]) {
      if b[a].fields[k].Ptr? { assert b[a].fields[k].a in Pointees(b[a]); }
    }
  }

  lemma {:induction false} FieldsPruned(b: Heap, s: Heap, keys: seq<string>, m: map<string, Value>, path: set<Addr>)
    requires Retains(b, s) && forall k :: k in m ==> SafeValue(b, s, m[k])
    ensures FieldsToString(s, keys, m, path) == FieldsToString(b, keys, m, path)
    decreases b.Keys - path, 1 + |keys|
  {
    hide Retains;
    if keys != [] && keys[0] in m {
      ToStringPruned(b, s, m[keys[0]], path);
      FieldsPruned(b, s, keys[1..], m, path);
    }
  }

  // ---------------------------------------------------------------- updates

  /** Memories that pruned memories become; what was safe stays safe. */
  ghost predicate Evolves(b: Memory, s: Memory, b': Memory, s': Memory) {
    && PrunedMemory(b', s')
    && (forall a :: Safe(b.heap, s.heap, a) ==> Safe(b'.heap, s'.heap, a))
  }

  lemma {:induction false} AllocPruned(b: Memory, s: Memory, o: Obj)
    requires PrunedMemory(b, s) && forall p :: p in Pointees(o) ==> Safe(b.heap, s.heap, p)
    ensures Evolves(b, s, Alloc(b, o), Alloc(s, o))
    ensures Safe(Alloc(b, o).heap, Alloc(s, o).heap, b.next)
  {
    hide Pointees;
    var b', s' := Alloc(b, o), Alloc(s, o);
    forall a, p | a in s'.heap && p in Pointees(b'.heap[a]) ensures Safe(b'.heap, s'.heap, p) {
      if a != b.next { assert a in s.heap && p in Pointees(b.heap[a]) && Safe(b.heap, s.heap, p); }
    }
  }

  lemma {:induction false} UpdatePruned(b: Memory, s: Memory, a: Addr, o: Obj)
    requires PrunedMemory(b, s) && a in s.heap && forall p :: p in Pointees(o) ==> Safe(b.heap, s.heap, p)
    ensures Evolves(b, s, b.(heap := b.heap[a := o]), s.(heap := s.heap[a := o]))
  {
    hide Pointees;
    var b', s' := b.(heap := b.heap[a := o]), s.(heap := s.heap[a := o]);
    forall x, p | x in s'.heap && p in Pointees(b'.heap[x]) ensures Safe(b'.heap, s'.heap, p) {
      if x != a { assert x in s.heap && p in Pointees(b.heap[x]); }
      assert Safe(b.heap, s.heap, p);
    }
  }

  lemma {:induction false} LocalsSafe(b: Heap, s: Heap, a: Addr)
    requires Retains(b, s) && Safe(b, s, a) && a in b && b[a].FrameObj?
    ensures a in s && s[a] == b[a] && SafeStack(b, s, b[a].locals)
    ensures forall i :: 0 <= i < |b[a].refs| ==> Safe(b, s, b[a].refs[i])
  {
    forall i | 0 <= i < |b[a].locals| ensures SafeValue(b, s, b[a].locals[i]) {
      if b[a].locals[i].Ptr? { assert b[a].locals[i].a in Pointees(b[a]); }
    }
    forall i | 0 <= i < |b[a].refs| ensures Safe(b, s, b[a].refs[i]) {
      assert b[a].refs[i] in Pointees(b[a]);
    }
  }

  lemma {:induction false} SetLocalPruned(b: Memory, s: Memory, frame: Addr, i: nat, v: Value)
    requires PrunedMemory(b, s) && Safe(b.heap, s.heap, frame) && HasLocal(b.heap, frame, i)
    requires SafeValue(b.heap, s.heap, v)
    ensures HasLocal(s.heap, frame, i)
    ensures Evolves(b, s, SetLocal(b, frame, i, v), SetLocal(s, frame, i, v))
  {
    hide Evolves;
    LocalsSafe(b.heap, s.heap, frame);
    var o := b.heap[frame].(locals := b.heap[frame].locals[i := v]);
    forall p | p in Pointees(o) ensures Safe(b.heap, s.heap, p) {
      if p in Targets(o.locals) {
        var j :| 0 <= j < |o.locals| && o.locals[j].Ptr? && o.locals[j].a == p;
        if j != i { assert o.locals[j] == b.heap[frame].locals[j]; }
      } else {
        var j :| 0 <= j < |o.refs| && o.refs[j] == p;
      }
    }
    UpdatePruned(b, s, frame, o);
  }

  lemma {:induction false} SetFieldPruned(b: Memory, s: Memory, a: Addr, field: string, v: Value)
    requires PrunedMemory(b, s) && Safe(b.heap, s.heap, a) && a in b.heap && b.heap[a].RecordObj?
    requires SafeValue(b.heap, s.heap, v)
    ensures a in s.heap && s.heap[a].RecordObj?
    ensures Evolves(b, s, SetField(b, a, field, v), SetField(s, a, field, v))
  {
    hide Evolves;
    FieldsSafe(b.heap, s.heap, a);
    UpdatePruned(b, s, a, RecordObj(b.heap[a].fields[field := v]));
  }

  // ---------------------------------------------------------------- instructions

  /** The same instruction on both sides: the same operands, pruned memories. */
  ghost predicate Agree(b: Memory, s: Memory, rb: Option<(seq<Value>, Memory)>, rs: Option<(seq<Value>, Memory)>) {
    match (rb, rs)
    case (None, None) => true
    case (Some((stb, b')), Some((sts, s'))) => stb == sts && Evolves(b, s, b', s') && SafeStack(b'.heap, s'.heap, stb)
    case _ => false
  }

  lemma {:induction false} EvolvesSelf(b: Memory, s: Memory)
    requires PrunedMemory(b, s)
    ensures Evolves(b, s, b, s)
  {}

  lemma {:induction false} StackEvolves(b: Memory, s: Memory, b': Memory, s': Memory, st: seq<Value>)
    requires Evolves(b, s, b', s') && SafeStack(b.heap, s.heap, st)
    ensures SafeStack(b'.heap, s'.heap, st)
  {}

  ghost predicate SameResult(b: Memory, s: Memory, rb: Option<(Value, Memory)>, rs: Option<(Value, Memory)>) {
    match (rb, rs)
    case (None, None) => true
    case (Some((vb, b')), Some((vs, s'))) => vb == vs && Evolves(b, s, b', s') && SafeValue(b'.heap, s'.heap, vb)
    case _ => false
  }

  lemma {:induction false} NewResult(b: Memory, s: Memory, o: Obj)
    requires PrunedMemory(b, s) && Pointees(o) == {}
    ensures SameResult(b, s, Some((Ptr(b.next), Alloc(b, o))), Some((Ptr(s.next), Alloc(s, o))))
  {
    AllocPruned(b, s, o);
  }

  lemma {:induction false} AddPruned(b: Memory, s: Memory, l: Value, r: Value)
    requires PrunedMemory(b, s) && SafeValue(b.heap, s.heap, l) && SafeValue(b.heap, s.heap, r)
    ensures SameResult(b, s, AddValues(b, l, r), AddValues(s, l, r))
  {
    hide Retains, PrunedMemory, SameResult, Alloc, Look;
    PrunedParts(b, s);
    LookPruned(b.heap, s.heap, l);
    LookPruned(b.heap, s.heap, r);
    ToStringPruned(b.heap, s.heap, l, {});
    ToStringPruned(b.heap, s.heap, r, {});
    match AddValues(b, l, r)
    case None => assert SameResult(b, s, None, None) by { NothingDone(b, s); }
    case Some(_) =>
      var lw, rw := Look(b.heap, l), Look(b.heap, r);
      if lw.IntegerW? && rw.IntegerW? {
        NewResult(b, s, IntegerObj(lw.int_ + rw.int_));
      } else {
        NewResult(b, s, StringObj(ToString(b.heap, l, {}).value + ToString(b.heap, r, {}).value));
      }
  }

  lemma {:induction false} NothingDone(b: Memory, s: Memory)
    ensures SameResult(b, s, None, None)
  {}

  lemma {:induction false} FlagResult(b: Memory, s: Memory, flag: bool)
    requires PrunedMemory(b, s)
    ensures SameResult(b, s, Some((Boolean(flag), b)), Some((Boolean(flag), s)))
  {}

  lemma {:induction false} IntegerOpPruned(op: Instruction, b: Memory, s: Memory, l: Value, r: Value)
    requires PrunedMemory(b, s) && SafeValue(b.heap, s.heap, l) && SafeValue(b.heap, s.heap, r)
    ensures SameResult(b, s, IntegerOp(op, b, l, r), IntegerOp(op, s, l, r))
  {
    hide Retains, PrunedMemory, SameResult, Alloc, Look;
    PrunedParts(b, s);
    LookPruned(b.heap, s.heap, l);
    LookPruned(b.heap, s.heap, r);
    NothingDone(b, s);
    var lw, rw := Look(b.heap, l), Look(b.heap, r);
    if lw.IntegerW? && rw.IntegerW? {
      match op
      case Sub => NewResult(b, s, IntegerObj(lw.int_ - rw.int_));
      case Mul => NewResult(b, s, IntegerObj(lw.int_ * rw.int_));
      case Div => if rw.int_ != 0 { NewResult(b, s, IntegerObj(TruncatedQuotient(lw.int_, rw.int_))); }
      case Gt => FlagResult(b, s, lw.int_ > rw.int_);
      case Geq => FlagResult(b, s, lw.int_ >= rw.int_);
      case _ =>
    }
  }

  lemma {:induction false} BooleanOpPruned(op: Instruction, b: Memory, s: Memory, l: Value, r: Value)
    requires PrunedMemory(b, s) && SafeValue(b.heap, s.heap, l) && SafeValue(b.heap, s.heap, r)
    ensures SameResult(b, s, BooleanOp(op, b, l, r), BooleanOp(op, s, l, r))
  {
    hide Retains, PrunedMemory, SameResult, Look;
    PrunedParts(b, s);
    LookPruned(b.heap, s.heap, l);
    LookPruned(b.heap, s.heap, r);
    NothingDone(b, s);
    FlagResult(b, s, true);
    FlagResult(b, s, false);
  }

  /** A binary instruction allocates at most a result without pointers. */
  lemma {:induction false} BinaryPruned(op: Instruction, b: Memory, s: Memory, l: Value, r: Value)
    requires PrunedMemory(b, s) && SafeValue(b.heap, s.heap, l) && SafeValue(b.heap, s.heap, r)
    ensures SameResult(b, s, BinaryInstruction(op, b, l, r), BinaryInstruction(op, s, l, r))
  {
    hide Retains, PrunedMemory, SameResult, AddValues, IntegerOp, BooleanOp, Look;
    match op
    case Add => AddPruned(b, s, l, r);
    case Eq =>
      PrunedParts(b, s);
      LookPruned(b.heap, s.heap, l);
      LookPruned(b.heap, s.heap, r);
      FlagResult(b, s, EqualValues(b.heap, l, r));
    case And => BooleanOpPruned(op, b, s, l, r);
    case Or => BooleanOpPruned(op, b, s, l, r);
    case _ => IntegerOpPruned(op, b, s, l, r);
  }

  lemma {:induction false} PrunedParts(b: Memory, s: Memory)
    requires PrunedMemory(b, s)
    ensures Retains(b.heap, s.heap) && s.next == b.next && s.out == b.out
  {}

  lemma {:induction false} PushSafe(b: Heap, s: Heap, st: seq<Value>, n: nat, v: Value)
    requires SafeStack(b, s, st) && n <= |st| && SafeValue(b, s, v)
    ensures SafeStack(b, s, st[..n]) && SafeStack(b, s, st[..n] + [v]) && SafeStack(b, s, st + [v])
  {}

  /** The instruction only moves values: memory as it was. */
  lemma {:induction false} OnlyStack(b: Memory, s: Memory, st: seq<Value>)
    requires PrunedMemory(b, s) && SafeStack(b.heap, s.heap, st)
    ensures Agree(b, s, Some((st, b)), Some((st, s)))
  {
    EvolvesSelf(b, s);
  }

  lemma {:induction false} Changed(b: Memory, s: Memory, b': Memory, s': Memory, st: seq<Value>, n: nat)
    requires Evolves(b, s, b', s') && SafeStack(b.heap, s.heap, st) && n <= |st|
    ensures Agree(b, s, Some((st[..n], b')), Some((st[..n], s')))
  {
    StackEvolves(b, s, b', s', st);
  }

  lemma {:induction false} Pushed(b: Memory, s: Memory, b': Memory, s': Memory, st: seq<Value>, n: nat, v: Value)
    requires Evolves(b, s, b', s') && SafeStack(b.heap, s.heap, st) && n <= |st| && SafeValue(b'.heap, s'.heap, v)
    ensures Agree(b, s, Some((st[..n] + [v], b')), Some((st[..n] + [v], s')))
  {
    StackEvolves(b, s, b', s', st);
  }

  lemma {:induction false} BothFail(b: Memory, s: Memory)
    ensures Agree(b, s, None, None)
  {}

  lemma {:induction false} HasLocalPruned(b: Heap, s: Heap, frame: Addr, i: int)
    requires Retains(b, s) && Safe(b, s, frame)
    ensures HasLocal(s, frame, i) == HasLocal(b, frame, i)
    ensures HasLocal(b, frame, i) ==> s[frame] == b[frame] && SafeValue(b, s, b[frame].locals[i])
  {
    if frame in b && b[frame].FrameObj? { LocalsSafe(b, s, frame); }
  }

  lemma {:induction false} VariablePruned(names: seq<string>, global: Addr, fn: Function, frame: Addr, instr: Instruction,
      st: seq<Value>, b: Memory, s: Memory)
    requires instr.LoadLocal? || instr.StoreLocal? || instr.LoadGlobal? || instr.StoreGlobal?
    requires PrunedMemory(b, s) && Safe(b.heap, s.heap, frame) && Safe(b.heap, s.heap, global) && SafeStack(b.heap, s.heap, st)
    ensures Agree(b, s, Operate(names, global, fn, frame, instr, st, b), Operate(names, global, fn, frame, instr, st, s))
  {
    hide Retains, PrunedMemory, Agree, Evolves, SetLocal, Safe;
    PrunedParts(b, s);
    BothFail(b, s);
    var n := |st|;
    if (instr.LoadGlobal? || instr.StoreGlobal?) && !(0 <= instr.i < |fn.names|) {
    } else {
      var a := if instr.LoadLocal? || instr.StoreLocal? then frame else global;
      var i := if instr.LoadLocal? || instr.StoreLocal? then instr.i else GlobalSlot(names, fn.names[instr.i]);
      HasLocalPruned(b.heap, s.heap, a, i);
      if HasLocal(b.heap, a, i) {
        if instr.LoadLocal? || instr.LoadGlobal? {
          var v := b.heap[a].locals[i];
          PushSafe(b.heap, s.heap, st, n, v);
          OnlyStack(b, s, st + [v]);
        } else if n > 0 {
          SetLocalPruned(b, s, a, i, st[n-1]);
          Changed(b, s, SetLocal(b, a, i, st[n-1]), SetLocal(s, a, i, st[n-1]), st, n - 1);
        }
      }
    }
  }

  lemma {:induction false} ReferencePruned(names: seq<string>, global: Addr, fn: Function, frame: Addr, instr: Instruction,
      st: seq<Value>, b: Memory, s: Memory)
    requires instr.PushReference? || instr.LoadReference? || instr.StoreReference?
    requires PrunedMemory(b, s) && Safe(b.heap, s.heap, frame) && SafeStack(b.heap, s.heap, st)
    ensures Agree(b, s, Operate(names, global, fn, frame, instr, st, b), Operate(names, global, fn, frame, instr, st, s))
  {
    hide Retains, PrunedMemory, Agree, Evolves, SetLocal, Look;
    PrunedParts(b, s);
    BothFail(b, s);
    var n := |st|;
    match instr
    case PushReference(i) =>
      if frame in b.heap && b.heap[frame].FrameObj? {
        LocalsSafe(b.heap, s.heap, frame);
        if 0 <= i < |b.heap[frame].refs| {
          PushSafe(b.heap, s.heap, st, n, Ptr(b.heap[frame].refs[i]));
          OnlyStack(b, s, st + [Ptr(b.heap[frame].refs[i])]);
        }
      }
    case LoadReference =>
      if n > 0 && Look(b.heap, st[n-1]).ReferenceW? {
        LookPruned(b.heap, s.heap, st[n-1]);
        var ReferenceW(fr, i) := Look(b.heap, st[n-1]);
        TargetSafe(b.heap, s.heap, st[n-1]);
        HasLocalPruned(b.heap, s.heap, fr, i);
        if HasLocal(b.heap, fr, i) {
          PushSafe(b.heap, s.heap, st, n - 1, b.heap[fr].locals[i]);
          OnlyStack(b, s, st[..n-1] + [b.heap[fr].locals[i]]);
        }
      } else if n > 0 {
        LookPruned(b.heap, s.heap, st[n-1]);
      }
    case StoreReference =>
      if n > 1 {
        LookPruned(b.heap, s.heap, st[n-1]);
        if Look(b.heap, st[n-1]).ReferenceW? {
          var ReferenceW(fr, i) := Look(b.heap, st[n-1]);
          TargetSafe(b.heap, s.heap, st[n-1]);
          HasLocalPruned(b.heap, s.heap, fr, i);
          if HasLocal(b.heap, fr, i) {
            SetLocalPruned(b, s, fr, i, st[n-2]);
            Changed(b, s, SetLocal(b, fr, i, st[n-2]), SetLocal(s, fr, i, st[n-2]), st, n - 2);
          }
        }
      }
  }

  /** A safe reference leads to a safe frame. */
  lemma {:induction false} TargetSafe(b: Heap, s: Heap, v: Value)
    requires Retains(b, s) && SafeValue(b, s, v) && Look(b, v).ReferenceW?
    ensures Safe(b, s, Look(b, v).frame)
  {
    assert Look(b, v).frame in Pointees(b[v.a]);
  }

  lemma {:induction false} ReadPruned(b: Heap, s: Heap, v: Value, field: string)
    requires Retains(b, s) && SafeValue(b, s, v)
    ensures ReadRecord(s, v, field) == ReadRecord(b, v, field)
    ensures ReadRecord(b, v, field).Some? ==> SafeValue(b, s, ReadRecord(b, v, field).value)
  {
    LookPruned(b, s, v);
    if v.Ptr? && v.a in b && b[v.a].RecordObj? { FieldsSafe(b, s, v.a); }
  }

  lemma {:induction false} RecordLoadPruned(names: seq<string>, global: Addr, fn: Function, frame: Addr, instr: Instruction,
      st: seq<Value>, b: Memory, s: Memory)
    requires instr.FieldLoad? || instr.IndexLoad?
    requires PrunedMemory(b, s) && SafeStack(b.heap, s.heap, st)
    ensures Agree(b, s, Operate(names, global, fn, frame, instr, st, b), Operate(names, global, fn, frame, instr, st, s))
  {
    hide Retains, PrunedMemory, Agree, Evolves, ReadRecord, ToString, Safe;
    PrunedParts(b, s);
    BothFail(b, s);
    var n := |st|;
    if instr.FieldLoad? {
      if n > 0 && 0 <= instr.i < |fn.names| {
        ReadPruned(b.heap, s.heap, st[n-1], fn.names[instr.i]);
        if ReadRecord(b.heap, st[n-1], fn.names[instr.i]).Some? {
          LoadedPruned(b, s, st, n - 1, ReadRecord(b.heap, st[n-1], fn.names[instr.i]).value);
        }
      }
    } else if n > 1 {
      ToStringPruned(b.heap, s.heap, st[n-1], {});
      if ToString(b.heap, st[n-1], {}).Some? {
        var field := ToString(b.heap, st[n-1], {}).value;
        ReadPruned(b.heap, s.heap, st[n-2], field);
        if ReadRecord(b.heap, st[n-2], field).Some? {
          LoadedPruned(b, s, st, n - 2, ReadRecord(b.heap, st[n-2], field).value);
        }
      }
    }
  }

  lemma {:induction false} LoadedPruned(b: Memory, s: Memory, st: seq<Value>, n: nat, v: Value)
    requires PrunedMemory(b, s) && SafeStack(b.heap, s.heap, st) && n <= |st| && SafeValue(b.heap, s.heap, v)
    ensures Agree(b, s, Some((st[..n] + [v], b)), Some((st[..n] + [v], s)))
  {
    EvolvesSelf(b, s);
    Pushed(b, s, b, s, st, n, v);
  }

  lemma {:induction false} RecordStorePruned(names: seq<string>, global: Addr, fn: Function, frame: Addr, instr: Instruction,
      st: seq<Value>, b: Memory, s: Memory)
    requires instr.FieldStore? || instr.IndexStore?
    requires PrunedMemory(b, s) && SafeStack(b.heap, s.heap, st)
    ensures Agree(b, s, Operate(names, global, fn, frame, instr, st, b), Operate(names, global, fn, frame, instr, st, s))
  {
    hide Retains, PrunedMemory, Agree, Evolves, ToString, SetField;
    PrunedParts(b, s);
    BothFail(b, s);
    var n := |st|;
    if instr.FieldStore? {
      if n > 1 && 0 <= instr.i < |fn.names| {
        FieldSetPruned(b, s, st, n - 2, fn.names[instr.i]);
      }
    } else if n > 2 {
      ToStringPruned(b.heap, s.heap, st[n-2], {});
      LookPruned(b.heap, s.heap, st[n-3]);
      if ToString(b.heap, st[n-2], {}).Some? {
        FieldSetPruned(b, s, st, n - 3, ToString(b.heap, st[n-2], {}).value);
      }
    }
  }

  /** Storing the top operand in a field of the record `st[k]`. */
  lemma {:induction false} FieldSetPruned(b: Memory, s: Memory, st: seq<Value>, k: nat, field: string)
    requires PrunedMemory(b, s) && SafeStack(b.heap, s.heap, st) && k < |st|
    ensures Look(s.heap, st[k]) == Look(b.heap, st[k])
    ensures Look(b.heap, st[k]).RecordW? ==>
      var a := Look(b.heap, st[k]).a;
      a in b.heap && b.heap[a].RecordObj? && a in s.heap && s.heap[a].RecordObj? &&
      Agree(b, s, Some((st[..k], SetField(b, a, field, st[|st|-1]))), Some((st[..k], SetField(s, a, field, st[|st|-1]))))
  {
    hide Agree, Evolves, SetField;
    LookPruned(b.heap, s.heap, st[k]);
    if Look(b.heap, st[k]).RecordW? {
      var a := Look(b.heap, st[k]).a;
      SetFieldPruned(b, s, a, field, st[|st|-1]);
      Changed(b, s, SetField(b, a, field, st[|st|-1]), SetField(s, a, field, st[|st|-1]), st, k);
    }
  }

  lemma {:induction false} AddressesPruned(b: Heap, s: Heap, vs: seq<Value>)
    requires Retains(b, s) && SafeStack(b, s, vs)
    ensures Addresses(s, vs) == Addresses(b, vs)
    decreases |vs|
  {
    if vs != [] {
      LookPruned(b, s, vs[0]);
      AddressesPruned(b, s, vs[1..]);
    }
  }

  lemma {:induction false} ClosurePruned(names: seq<string>, global: Addr, fn: Function, frame: Addr, k: int,
      st: seq<Value>, b: Memory, s: Memory)
    requires PrunedMemory(b, s) && SafeStack(b.heap, s.heap, st)
    ensures Agree(b, s, Operate(names, global, fn, frame, AllocClosure(k), st, b), Operate(names, global, fn, frame, AllocClosure(k), st, s))
  {
    hide Retains, PrunedMemory, Agree, Evolves, Look, Alloc, Addresses, ToString;
    PrunedParts(b, s);
    BothFail(b, s);
    var n := |st|;
    if 0 <= k < n {
      LookPruned(b.heap, s.heap, st[n-1-k]);
      AddressesPruned(b.heap, s.heap, st[n-k..]);
      var rs := Addresses(b.heap, st[n-k..]);
      if Look(b.heap, st[n-1-k]).FunctionW? && rs.Some? {
        var o := ClosureObj(Look(b.heap, st[n-1-k]).f, rs.value);
        forall p | p in Pointees(o) ensures Safe(b.heap, s.heap, p) {
          var j :| 0 <= j < |rs.value| && rs.value[j] == p;
          assert st[n-k..][j] == st[n-k+j];
        }
        AllocPruned(b, s, o);
        Pushed(b, s, Alloc(b, o), Alloc(s, o), st, n - 1 - k, Ptr(b.next));
      }
    }
  }

  lemma {:induction false} UnaryPruned(names: seq<string>, global: Addr, fn: Function, frame: Addr, instr: Instruction,
      st: seq<Value>, b: Memory, s: Memory)
    requires instr.Neg? || instr.Not? || instr.AllocRecord?
    requires PrunedMemory(b, s) && SafeStack(b.heap, s.heap, st)
    ensures Agree(b, s, Operate(names, global, fn, frame, instr, st, b), Operate(names, global, fn, frame, instr, st, s))
  {
    hide Retains, PrunedMemory, Agree, Evolves, Look, Alloc;
    PrunedParts(b, s);
    BothFail(b, s);
    var n := |st|;
    if instr.AllocRecord? {
      AllocPruned(b, s, RecordObj(map[]));
      assert st[..n] == st;
      Pushed(b, s, Alloc(b, RecordObj(map[])), Alloc(s, RecordObj(map[])), st, n, Ptr(b.next));
    } else if n > 0 {
      LookPruned(b.heap, s.heap, st[n-1]);
      if instr.Neg? && Look(b.heap, st[n-1]).IntegerW? {
        var o := IntegerObj(-Look(b.heap, st[n-1]).int_);
        AllocPruned(b, s, o);
        Pushed(b, s, Alloc(b, o), Alloc(s, o), st, n - 1, Ptr(b.next));
      } else if instr.Not? && Look(b.heap, st[n-1]).BoolW? {
        LoadedPruned(b, s, st, n - 1, Boolean(!Look(b.heap, st[n-1]).flag));
      }
    }
  }

  lemma {:induction false} ConstantPruned(names: seq<string>, global: Addr, fn: Function, frame: Addr, instr: Instruction,
      st: seq<Value>, b: Memory, s: Memory)
    requires instr.LoadConst? || instr.LoadFunc? || instr.PushNamed?
    requires PrunedMemory(b, s) && SafeStack(b.heap, s.heap, st)
    ensures Agree(b, s, Operate(names, global, fn, frame, instr, st, b), Operate(names, global, fn, frame, instr, st, s))
  {
    hide PrunedMemory, Agree, Retains;
    BothFail(b, s);
    match Operate(names, global, fn, frame, instr, st, b)
    case None =>
    case Some((st', _)) => OnlyStack(b, s, st');
  }

  lemma {:induction false} ShufflePruned(names: seq<string>, global: Addr, fn: Function, frame: Addr, instr: Instruction,
      st: seq<Value>, b: Memory, s: Memory)
    requires instr.Dup? || instr.Swap? || instr.Pop?
    requires PrunedMemory(b, s) && SafeStack(b.heap, s.heap, st)
    ensures Agree(b, s, Operate(names, global, fn, frame, instr, st, b), Operate(names, global, fn, frame, instr, st, s))
  {
    hide PrunedMemory, Agree, Retains;
    BothFail(b, s);
    match Operate(names, global, fn, frame, instr, st, b)
    case None =>
    case Some((st', _)) => OnlyStack(b, s, st');
  }

  lemma {:induction false} OperatePruned(names: seq<string>, global: Addr, fn: Function, frame: Addr, instr: Instruction,
      st: seq<Value>, b: Memory, s: Memory)
    requires IsPlain(instr)
    requires PrunedMemory(b, s) && Safe(b.heap, s.heap, frame) && Safe(b.heap, s.heap, global) && SafeStack(b.heap, s.heap, st)
    ensures Agree(b, s, Operate(names, global, fn, frame, instr, st, b), Operate(names, global, fn, frame, instr, st, s))
  {
    hide PrunedMemory, Safe, Agree, Operate;
    if instr.LoadLocal? || instr.StoreLocal? || instr.LoadGlobal? || instr.StoreGlobal? {
      VariablePruned(names, global, fn, frame, instr, st, b, s);
    } else if instr.PushReference? || instr.LoadReference? || instr.StoreReference? {
      ReferencePruned(names, global, fn, frame, instr, st, b, s);
    } else if instr.FieldLoad? || instr.IndexLoad? {
      RecordLoadPruned(names, global, fn, frame, instr, st, b, s);
    } else if instr.FieldStore? || instr.IndexStore? {
      RecordStorePruned(names, global, fn, frame, instr, st, b, s);
    } else if instr.AllocClosure? {
      ClosurePruned(names, global, fn, frame, instr.n, st, b, s);
    } else if instr.Neg? || instr.Not? || instr.AllocRecord? {
      UnaryPruned(names, global, fn, frame, instr, st, b, s);
    } else if IsBinary(instr) {
      BinaryStepPruned(names, global, fn, frame, instr, st, b, s);
    } else if instr.LoadConst? || instr.LoadFunc? || instr.PushNamed? {
      ConstantPruned(names, global, fn, frame, instr, st, b, s);
    } else {
      ShufflePruned(names, global, fn, frame, instr, st, b, s);
    }
  }

  lemma {:induction false} BinaryStepPruned(names: seq<string>, global: Addr, fn: Function, frame: Addr, instr: Instruction,
      st: seq<Value>, b: Memory, s: Memory)
    requires IsBinary(instr)
    requires PrunedMemory(b, s) && SafeStack(b.heap, s.heap, st)
    ensures Agree(b, s, Operate(names, global, fn, frame, instr, st, b), Operate(names, global, fn, frame, instr, st, s))
  {
    hide PrunedMemory, Agree, BinaryInstruction, Evolves;
    BothFail(b, s);
    var n := |st|;
    if n > 1 {
      BinaryPruned(instr, b, s, st[n-2], st[n-1]);
      match BinaryInstruction(instr, b, st[n-2], st[n-1])
      case None =>
      case Some((v, b')) =>
        var s' := BinaryInstruction(instr, s, st[n-2], st[n-1]).value.1;
        Pushed(b, s, b', s', st, n - 2, v);
    }
  }

  // ---------------------------------------------------------------- calls

  lemma {:induction false} EvolvesTransitive(b: Memory, s: Memory, b1: Memory, s1: Memory, b2: Memory, s2: Memory)
    requires Evolves(b, s, b1, s1) && Evolves(b1, s1, b2, s2)
    ensures Evolves(b, s, b2, s2)
  {}

  lemma {:induction false} MakeReferencesPruned(b: Memory, s: Memory, frame: Addr, indices: seq<nat>)
    requires PrunedMemory(b, s) && Safe(b.heap, s.heap, frame)
    ensures var (b', rb) := MakeReferences(b, frame, indices);
      var (s', rs) := MakeReferences(s, frame, indices);
      rb == rs && Evolves(b, s, b', s') && forall i :: 0 <= i < |rb| ==> Safe(b'.heap, s'.heap, rb[i])
    decreases |indices|
  {
    hide PrunedMemory, Safe, Alloc;
    if indices == [] {
      EvolvesSelf(b, s);
    } else {
      PrunedParts(b, s);
      var o := ReferenceObj(frame, indices[0]);
      AllocPruned(b, s, o);
      var b1, s1 := Alloc(b, o), Alloc(s, o);
      MakeReferencesPruned(b1, s1, frame, indices[1..]);
      var (b', rest) := MakeReferences(b1, frame, indices[1..]);
      var s' := MakeReferences(s1, frame, indices[1..]).0;
      EvolvesTransitive(b, s, b1, s1, b', s');
    }
  }

  lemma {:induction false} FramePointees(locals: seq<Value>, refs: seq<Addr>, b: Heap, s: Heap)
    requires SafeStack(b, s, locals) && forall i :: 0 <= i < |refs| ==> Safe(b, s, refs[i])
    ensures forall p :: p in Pointees(FrameObj(locals, refs)) ==> Safe(b, s, p)
  {
    forall p | p in Pointees(FrameObj(locals, refs)) ensures Safe(b, s, p) {
      if p in Targets(locals) {
        var j :| 0 <= j < |locals| && locals[j].Ptr? && locals[j].a == p;
      } else {
        var j :| 0 <= j < |refs| && refs[j] == p;
      }
    }
  }

  lemma {:induction false} EnterFramePruned(b: Memory, s: Memory, fn: Function, free: seq<Addr>, args: seq<Value>)
    requires PrunedMemory(b, s) && |args| <= |fn.localVars| && SafeStack(b.heap, s.heap, args)
    requires forall i :: 0 <= i < |free| ==> Safe(b.heap, s.heap, free[i])
    ensures Evolves(b, s, EnterFrame(b, fn, free, args), EnterFrame(s, fn, free, args))
    ensures Safe(EnterFrame(b, fn, free, args).heap, EnterFrame(s, fn, free, args).heap, b.next)
  {
    hide PrunedMemory, Retains, Alloc, Pointees;
    PrunedParts(b, s);
    var locals := args + seq(|fn.localVars| - |args|, _ => NONE);
    FramePointees(locals, [], b.heap, s.heap);
    AllocPruned(b, s, FrameObj(locals, []));
    var b1, s1 := Alloc(b, FrameObj(locals, [])), Alloc(s, FrameObj(locals, []));
    MakeReferencesPruned(b1, s1, b.next, fn.localReferenceIndices);
    var (b2, refs) := MakeReferences(b1, b.next, fn.localReferenceIndices);
    var s2 := MakeReferences(s1, b.next, fn.localReferenceIndices).0;
    EvolvesTransitive(b, s, b1, s1, b2, s2);
    StackEvolves(b, s, b2, s2, locals);
    FramePointees(locals, refs + free, b2.heap, s2.heap);
    NewestKept(b, s, FrameObj(locals, []), b.next, fn.localReferenceIndices);
    var o := FrameObj(locals, refs + free);
    UpdatePruned(b2, s2, b.next, o);
    EvolvesTransitive(b, s, b2, s2, b2.(heap := b2.heap[b.next := o]), s2.(heap := s2.heap[b.next := o]));
  }

  lemma {:induction false} NewestKept(b: Memory, s: Memory, o: Obj, frame: Addr, indices: seq<nat>)
    requires s.next == b.next
    ensures b.next in MakeReferences(Alloc(s, o), frame, indices).0.heap
  {
    HeapKept(Alloc(s, o), frame, indices);
  }

  lemma {:induction false} HeapKept(m: Memory, frame: Addr, indices: seq<nat>)
    ensures forall a :: a in m.heap ==> a in MakeReferences(m, frame, indices).0.heap
    decreases |indices|
  {
    if indices != [] { HeapKept(Alloc(m, ReferenceObj(frame, indices[0])), frame, indices[1..]); }
  }

  /** The same step on both sides. */
  ghost predicate SameOutcome(b: Outcome, s: Outcome) {
    match (b, s)
    case (Running(vb), Running(vs)) => Pruned(vb, vs)
    case (Finished(ob), Finished(os)) => ob == os
    case (Failed, Failed) => true
    case _ => false
  }

  /** Everything the frame stack held stays safe when memory evolves. */
  lemma {:induction false} CallersEvolve(b: Machine, s: Machine, b': Memory, s': Memory)
    requires Pruned(b, s) && Evolves(b.mem, s.mem, b', s')
    ensures SafeActivation(b'.heap, s'.heap, b.current)
    ensures forall i :: 0 <= i < |b.callers| ==> SafeActivation(b'.heap, s'.heap, b.callers[i])
  {
    hide PrunedMemory, Safe;
    StackEvolves(b.mem, s.mem, b', s', b.current.stack);
    forall i | 0 <= i < |b.callers| ensures SafeActivation(b'.heap, s'.heap, b.callers[i]) {
      assert SafeActivation(b.mem.heap, s.mem.heap, b.callers[i]);
      StackEvolves(b.mem, s.mem, b', s', b.callers[i].stack);
    }
  }

  lemma {:induction false} Resumed(b: Machine, s: Machine, ip: int, st: seq<Value>, b': Memory, s': Memory)
    requires Pruned(b, s) && Evolves(b.mem, s.mem, b', s') && SafeStack(b'.heap, s'.heap, st)
    ensures Pruned(JumpTo(b, ip, st).(mem := b'), JumpTo(s, ip, st).(mem := s'))
  {
    hide PrunedMemory, Safe, SafeStack;
    CallersEvolve(b, s, b', s');
    EvolvedPruned(b.mem, s.mem, b', s');
  }

  lemma {:induction false} EvolvedPruned(b: Memory, s: Memory, b': Memory, s': Memory)
    requires Evolves(b, s, b', s')
    ensures PrunedMemory(b', s') && s'.out == b'.out
  {}

  lemma {:induction false} ClosureSafe(b: Heap, s: Heap, v: Value)
    requires Retains(b, s) && SafeValue(b, s, v) && Look(b, v).ClosureW?
    ensures forall i :: 0 <= i < |Look(b, v).freeVars| ==> Safe(b, s, Look(b, v).freeVars[i])
  {
    forall i | 0 <= i < |Look(b, v).freeVars| ensures Safe(b, s, Look(b, v).freeVars[i]) {
      assert Look(b, v).freeVars[i] in Pointees(b[v.a]);
    }
  }

  lemma {:induction false} CallPruned(b: Machine, s: Machine, k: int)
    requires Pruned(b, s)
    ensures SameOutcome(DoCall(b, k), DoCall(s, k))
  {
    hide PrunedMemory, Retains, Safe, SafeStack, EnterFrame, ToString, Look;
    var st := b.current.stack;
    if 0 <= k < |st| {
      PrunedParts(b.mem, s.mem);
      var n := |st| - k;
      SliceSafe(b.mem.heap, s.mem.heap, st, n);
      LookPruned(b.mem.heap, s.mem.heap, st[n-1]);
      if Look(b.mem.heap, st[n-1]).ClosureW? {
        var ClosureW(fn, free) := Look(b.mem.heap, st[n-1]);
        if k == fn.parameterCount && k <= |fn.localVars| {
          ClosureSafe(b.mem.heap, s.mem.heap, st[n-1]);
          EnterFramePruned(b.mem, s.mem, fn, free, st[n..]);
          EnteredPruned(b, s, fn, free, st[n..], n - 1);
        }
      }
    }
  }

  lemma {:induction false} SliceSafe(b: Heap, s: Heap, st: seq<Value>, n: nat)
    requires SafeStack(b, s, st) && 0 < n <= |st|
    ensures SafeStack(b, s, st[n..]) && SafeStack(b, s, st[..n-1]) && SafeValue(b, s, st[n-1])
  {}

  /** After the new frame is set up: run the body, or the built-in function. */
  lemma {:induction false} EnteredPruned(b: Machine, s: Machine, fn: Function, free: seq<Addr>, args: seq<Value>, n: nat)
    requires Pruned(b, s) && |args| <= |fn.localVars| && n <= |b.current.stack|
    requires SafeStack(b.mem.heap, s.mem.heap, args) && SafeStack(b.mem.heap, s.mem.heap, b.current.stack[..n])
    requires var b', s' := EnterFrame(b.mem, fn, free, args), EnterFrame(s.mem, fn, free, args);
      Evolves(b.mem, s.mem, b', s') && Safe(b'.heap, s'.heap, b.mem.next)
    ensures var b', s' := EnterFrame(b.mem, fn, free, args), EnterFrame(s.mem, fn, free, args);
      var caller := b.current.(stack := b.current.stack[..n]);
      && Pruned(b.(callers := b.callers + [caller], current := Activation(fn, 0, b.mem.next, []), mem := b'),
                s.(callers := s.callers + [caller], current := Activation(fn, 0, s.mem.next, []), mem := s'))
      && (forall i :: 0 <= i < |args| ==> ToString(s'.heap, args[i], {}) == ToString(b'.heap, args[i], {}))
      && (forall line: string ::
            Pruned(b.(current := caller.(ip := caller.ip + 1, stack := caller.stack + [NONE]), mem := b'.(out := b'.out + [line])),
                   s.(current := caller.(ip := caller.ip + 1, stack := caller.stack + [NONE]), mem := s'.(out := s'.out + [line]))))
  {
    hide Safe, EnterFrame, ToString, Retains;
    var b', s' := EnterFrame(b.mem, fn, free, args), EnterFrame(s.mem, fn, free, args);
    PrunedParts(b.mem, s.mem);
    EvolvedPruned(b.mem, s.mem, b', s');
    CallersEvolve(b, s, b', s');
    StackEvolves(b.mem, s.mem, b', s', args);
    StackEvolves(b.mem, s.mem, b', s', b.current.stack[..n]);
    forall i | 0 <= i < |args| ensures ToString(s'.heap, args[i], {}) == ToString(b'.heap, args[i], {}) {
      ToStringPruned(b'.heap, s'.heap, args[i], {});
    }
  }

  lemma {:induction false} ReturnPruned(b: Machine, s: Machine)
    requires Pruned(b, s)
    ensures SameOutcome(DoReturn(b), DoReturn(s))
  {
    hide PrunedMemory, Safe;
    PrunedParts(b.mem, s.mem);
    if b.callers != [] && b.current.stack != [] {
      var caller := b.callers[|b.callers|-1];
      assert SafeActivation(b.mem.heap, s.mem.heap, caller);
      PushSafe(b.mem.heap, s.mem.heap, caller.stack, 0, b.current.stack[|b.current.stack|-1]);
    }
  }

  lemma {:induction false} StepPruned(b: Machine, s: Machine)
    requires Pruned(b, s)
    ensures SameOutcome(Step(b), Step(s))
  {
    hide PrunedMemory, Safe, SafeStack, DoCall, DoReturn, Operate, Retains, Look;
    var act := b.current;
    var st := act.stack;
    PrunedParts(b.mem, s.mem);
    EvolvesSelf(b.mem, s.mem);
    if act.ip >= |act.fn.instructions| {
      ReturnPruned(b, s);
    } else if act.ip >= 0 {
      var instr := act.fn.instructions[act.ip];
      match instr
      case Goto(offset) => Resumed(b, s, act.ip + offset, st, b.mem, s.mem);
      case If(offset) =>
        if st != [] {
          SliceSafe(b.mem.heap, s.mem.heap, st, |st|);
          LookPruned(b.mem.heap, s.mem.heap, st[|st|-1]);
          Resumed(b, s, act.ip + offset, st[..|st|-1], b.mem, s.mem);
          Resumed(b, s, act.ip + 1, st[..|st|-1], b.mem, s.mem);
        }
      case Return => Resumed(b, s, |act.fn.instructions| + 1, st, b.mem, s.mem);
      case Call(k) => CallPruned(b, s, k);
      case _ => PlainStepPruned(b, s, instr);
    }
  }

  lemma {:induction false} PlainStepPruned(b: Machine, s: Machine, instr: Instruction)
    requires Pruned(b, s) && IsPlain(instr)
    requires 0 <= b.current.ip < |b.current.fn.instructions| && b.current.fn.instructions[b.current.ip] == instr
    ensures SameOutcome(Step(b), Step(s))
  {
    hide PrunedMemory, Safe, SafeStack, Operate, Retains, Evolves;
    var act := b.current;
    GlobalSafe(b, s);
    OperatePruned(b.names, b.global, act.fn, act.frame, instr, act.stack, b.mem, s.mem);
    match Operate(b.names, b.global, act.fn, act.frame, instr, act.stack, b.mem)
    case None =>
    case Some((st', b')) =>
      var s' := Operate(b.names, b.global, act.fn, act.frame, instr, act.stack, s.mem).value.1;
      Resumed(b, s, act.ip + 1, st', b', s');
  }

  lemma {:induction false} GlobalSafe(b: Machine, s: Machine)
    requires Pruned(b, s)
    ensures Safe(b.mem.heap, s.mem.heap, b.global) && Safe(b.mem.heap, s.mem.heap, b.current.frame)
  {
    hide PrunedMemory, Safe;
    if b.callers != [] { assert SafeActivation(b.mem.heap, s.mem.heap, b.callers[0]); }
  }

  // ---------------------------------------------------------------- collections

  lemma {:induction false} CollectPruned(b: Machine, s: Machine)
    requires Pruned(b, s)
    ensures Pruned(b, Collect(s))
  {
    hide Pointees;
    var c := Collect(s);
    var h := s.mem.heap;
    forall a, p | a in c.mem.heap && p in Pointees(b.mem.heap[a]) ensures Safe(b.mem.heap, c.mem.heap, p) {
      assert Safe(b.mem.heap, h, p);
      if p in h { LiveClosed(s, a, p); }
    }
    forall v: Activation | RootsOf(v) <= Roots(s) && SafeActivation(b.mem.heap, h, v)
      ensures SafeActivation(b.mem.heap, c.mem.heap, v)
    {
      RootsLive(b.mem.heap, s, v);
    }
    forall i | 0 <= i < |b.callers| ensures RootsOf(b.callers[i]) <= Roots(s) {}
  }

  lemma {:induction false} LiveClosed(vm: Machine, a: Addr, p: Addr)
    requires Live(vm, a) && p in Pointees(vm.mem.heap[a]) && p in vm.mem.heap
    ensures Live(vm, p)
  {
    hide Pointees;
  }

  lemma {:induction false} RootsLive(b: Heap, vm: Machine, act: Activation)
    requires RootsOf(act) <= Roots(vm) && SafeActivation(b, vm.mem.heap, act)
    ensures SafeActivation(b, Collect(vm).mem.heap, act)
  {
    hide Pointees, Roots, Closed;
    forall a | a in RootsOf(act) && a in vm.mem.heap ensures Live(vm, a) {}
    forall i | 0 <= i < |act.stack| ensures SafeValue(b, Collect(vm).mem.heap, act.stack[i]) {
      assert SafeValue(b, vm.mem.heap, act.stack[i]);
      if act.stack[i].Ptr? { assert act.stack[i].a in RootsOf(act); }
    }
  }

  /** A run in which the collector is invoked before step `at + i` whenever
      `full(at + i)`: `executeInstruction` collects first. */
  ghost function CollectingSteps(n: nat, vm: Machine, full: nat -> bool, at: nat): Outcome {
    if n == 0 then Running(vm)
    else
      match Step(if full(at) then Collect(vm) else vm)
      case Running(vm') => CollectingSteps(n - 1, vm', full, at + 1)
      case o => o
  }

  /** Collection schedules are invisible: same output, same failure, and as long
      as the machine runs the same machine but for garbage. */
  lemma {:induction false} CollectionIsTransparent(n: nat, b: Machine, s: Machine, full: nat -> bool, at: nat)
    requires Pruned(b, s)
    ensures SameOutcome(Steps(n, b), CollectingSteps(n, s, full, at))
    decreases n
  {
    hide Pruned, Step, Collect;
    if n > 0 {
      if full(at) { CollectPruned(b, s); }
      var s0 := if full(at) then Collect(s) else s;
      StepPruned(b, s0);
      match Step(b)
      case Running(b') => CollectionIsTransparent(n - 1, b', Step(s0).vm, full, at + 1);
      case _ =>
    }
  }

  lemma {:induction false} StartPruned(program: Function)
    requires |program.functions| >= 3
    ensures Pruned(Start(program), Start(program))
  {}

  /** Any schedule, from the start of any program. */
  lemma {:induction false} AnySchedule(program: Function, full: nat -> bool, n: nat, out: seq<string>)
    requires |program.functions| >= 3
    ensures Steps(n, Start(program)) == Finished(out) <==> CollectingSteps(n, Start(program), full, 0) == Finished(out)
    ensures Steps(n, Start(program)) == Failed <==> CollectingSteps(n, Start(program), full, 0) == Failed
  {
    hide Pruned, Steps, CollectingSteps, Start;
    StartPruned(program);
    CollectionIsTransparent(n, Start(program), Start(program), full, 0);
  }
}
