/** Runs of the machine over a piece of code placed anywhere in a function. */
module Execution {
  import opened Basics
  import opened Bytecode
  import opened Machine

  /** The machine with the current activation moved on; callers are untouched. */
  function At(vm: Machine, ip: int, st: seq<Value>, m: Memory): Machine {
    vm.(current := vm.current.(ip := ip, stack := st), mem := m)
  }

  ghost predicate PlacedAt(instrs: seq<Instruction>, p: int, code: seq<Instruction>) {
    0 <= p && p + |code| <= |instrs| && instrs[p..p + |code|] == code
  }

  /** `code` is what the machine is about to execute. */
  ghost predicate Placed(vm: Machine, code: seq<Instruction>) {
    PlacedAt(vm.current.fn.instructions, vm.current.ip, code)
  }

  lemma {:induction false} PlacedSplit(instrs: seq<Instruction>, p: int, a: seq<Instruction>, b: seq<Instruction>)
    requires PlacedAt(instrs, p, a + b)
    ensures PlacedAt(instrs, p, a) && PlacedAt(instrs, p + |a|, b)
  {
    var c := instrs[p..p + |a + b|];
    assert c[..|a|] == a && c[|a|..] == b;
    assert instrs[p..p + |a|] == c[..|a|];
    assert instrs[p + |a|..p + |a| + |b|] == c[|a|..];
  }

  lemma {:induction false} PlacedSplit3(instrs: seq<Instruction>, p: int, a: seq<Instruction>, b: seq<Instruction>, c: seq<Instruction>)
    requires PlacedAt(instrs, p, a + b + c)
    ensures PlacedAt(instrs, p, a) && PlacedAt(instrs, p + |a|, b) && PlacedAt(instrs, p + |a| + |b|, c)
  {
    PlacedSplit(instrs, p, a + b, c);
    PlacedSplit(instrs, p, a, b);
  }

  // ---------------------------------------------------------------- runs

  lemma {:induction false} StepsCompose(n: nat, k: nat, vm: Machine, mid: Machine)
    requires Steps(n, vm) == Running(mid)
    ensures Steps(n + k, vm) == Steps(k, mid)
    decreases n
  {
    hide Step;
    if n > 0 {
      StepsCompose(n - 1, k, Step(vm).vm, mid);
    }
  }

  lemma {:induction false} ReachesSelf(vm: Machine)
    ensures Reaches(vm, vm)
  {
    assert Steps(0, vm) == Running(vm);
  }

  lemma {:induction false} ReachesTransitive(a: Machine, b: Machine, c: Machine)
    requires Reaches(a, b) && Reaches(b, c)
    ensures Reaches(a, c)
  {
    var n :| Steps(n, a) == Running(b);
    var k :| Steps(k, b) == Running(c);
    StepsCompose(n, k, a, b);
  }

  lemma {:induction false} ReachesStep(a: Machine, b: Machine)
    requires Step(a) == Running(b)
    ensures Reaches(a, b)
  {
    assert Steps(0, b) == Running(b);
    assert Steps(1, a) == Running(b);
  }

  // ---------------------------------------------------------------- single instructions

  predicate IsPlain(instr: Instruction) {
    !instr.Goto? && !instr.If? && !instr.Return? && !instr.Call?
  }

  /** An instruction that neither jumps nor calls. */
  lemma {:induction false} Plain(vm: Machine, instr: Instruction, st: seq<Value>, m: Memory)
    requires Placed(vm, [instr]) && IsPlain(instr)
    requires Operate(vm.names, vm.global, vm.current.fn, vm.current.frame, instr, vm.current.stack, vm.mem) == Some((st, m))
    ensures Reaches(vm, At(vm, vm.current.ip + 1, st, m))
  {
    hide Operate;
    PlacedHead(vm, instr);
    ReachesStep(vm, At(vm, vm.current.ip + 1, st, m));
  }

  lemma {:induction false} PlacedHead(vm: Machine, instr: Instruction)
    requires Placed(vm, [instr])
    ensures 0 <= vm.current.ip < |vm.current.fn.instructions|
    ensures vm.current.fn.instructions[vm.current.ip] == instr
  {
    var p := vm.current.ip;
    assert vm.current.fn.instructions[p..p + 1][0] == instr;
  }

  lemma {:induction false} Jump(vm: Machine, offset: int)
    requires Placed(vm, [Goto(offset)])
    ensures Step(vm) == Running(At(vm, vm.current.ip + offset, vm.current.stack, vm.mem))
    ensures Reaches(vm, At(vm, vm.current.ip + offset, vm.current.stack, vm.mem))
  {
    PlacedHead(vm, Goto(offset));
    ReachesStep(vm, At(vm, vm.current.ip + offset, vm.current.stack, vm.mem));
  }

  lemma {:induction false} Branch(vm: Machine, offset: int, st: seq<Value>, v: Value, b: bool)
    requires Placed(vm, [If(offset)]) && vm.current.stack == st + [v] && Look(vm.mem.heap, v) == BoolW(b)
    ensures Reaches(vm, At(vm, vm.current.ip + (if b then offset else 1), st, vm.mem))
  {
    PlacedHead(vm, If(offset));
    assert vm.current.stack[..|st|] == st;
    ReachesStep(vm, At(vm, vm.current.ip + (if b then offset else 1), st, vm.mem));
  }

  /** `Return` leaves the loop of `executeFunction` with its operand on top. */
  lemma {:induction false} Leave(vm: Machine)
    requires Placed(vm, [Return]) && vm.current.stack != []
    ensures Reaches(vm, At(vm, |vm.current.fn.instructions| + 1, vm.current.stack, vm.mem))
  {
    PlacedHead(vm, Return);
    ReachesStep(vm, At(vm, |vm.current.fn.instructions| + 1, vm.current.stack, vm.mem));
  }

  /** Past the last instruction the caller resumes with the result. */
  lemma {:induction false} Resume(vm: Machine, callers: seq<Activation>, caller: Activation, st: seq<Value>, v: Value)
    requires vm.current.ip >= |vm.current.fn.instructions|
    requires vm.callers == callers + [caller] && vm.current.stack == st + [v]
    ensures Reaches(vm, vm.(callers := callers,
                            current := caller.(ip := caller.ip + 1, stack := caller.stack + [v])))
  {
    assert vm.callers[..|callers|] == callers;
    ReachesStep(vm, vm.(callers := callers, current := caller.(ip := caller.ip + 1, stack := caller.stack + [v])));
  }
}
