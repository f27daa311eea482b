/** What a call does to its caller, and where code may sit: facts about every run
    of the machine, compiled code or not. */
module CallProtocol {
  import opened Bytecode
  import opened Machine
  import opened Execution

  // ---------------------------------------------------------------- determinism

  /** A run that finishes finishes once and with one output, and never fails. */
  lemma {:induction false} OneOutcome(n: nat, k: nat, vm: Machine, out: seq<string>)
    requires Steps(n, vm) == Finished(out)
    ensures Steps(k, vm) != Failed
    ensures Steps(k, vm).Finished? ==> Steps(k, vm) == Finished(out)
    decreases n
  {
    hide Step;
    if k > 0 {
      match Step(vm)
      case Running(vm') => OneOutcome(n - 1, k - 1, vm', out);
      case _ =>
    }
  }

  // ---------------------------------------------------------------- calls

  function Depth(vm: Machine): nat { |vm.callers| }

  /** The first `n` states all have at least `d` activations below the current one. */
  ghost predicate StaysAbove(n: nat, vm: Machine, d: nat)
    decreases n
  {
    Depth(vm) >= d && (n > 0 && Step(vm).Running? ==> StaysAbove(n - 1, Step(vm).vm, d))
  }

  lemma {:induction false} StepKeepsCallers(vm: Machine, d: nat)
    requires Step(vm).Running? && Depth(vm) >= d && Depth(Step(vm).vm) >= d
    ensures Step(vm).vm.callers[..d] == vm.callers[..d]
    ensures Step(vm).vm.names == vm.names && Step(vm).vm.global == vm.global
  {
    hide Operate, EnterFrame, ToString;
  }

  /** However deep the calls in between nest, the activations below are untouched. */
  lemma {:induction false} CallersKept(n: nat, vm: Machine, d: nat)
    requires StaysAbove(n, vm, d) && Steps(n, vm).Running?
    ensures var vm' := Steps(n, vm).vm;
      Depth(vm') >= d && vm'.callers[..d] == vm.callers[..d] && vm'.names == vm.names && vm'.global == vm.global
    decreases n
  {
    hide Step;
    if n > 0 {
      var vm1 := Step(vm).vm;
      assert StaysAbove(n - 1, vm1, d) && Depth(vm1) >= d;
      CallersKept(n - 1, vm1, d);
      StepKeepsCallers(vm, d);
    }
  }

  /** A call instruction that enters a function the machine does not supply itself. */
  ghost predicate Calls(vm: Machine, k: nat) {
    var st := vm.current.stack;
    && 0 <= vm.current.ip < |vm.current.fn.instructions|
    && vm.current.fn.instructions[vm.current.ip] == Instruction.Call(k)
    && k < |st| && Look(vm.mem.heap, st[|st|-1-k]).ClosureW?
    && Look(vm.mem.heap, st[|st|-1-k]).code.builtin == Compiled
  }

  /** A completed call: over any nesting of calls and early returns the caller gets
      back its function, instruction pointer and frame; its stack has closure and
      arguments replaced by exactly one value. */
  lemma {:induction false} CallRestoresCaller(n: nat, vm: Machine, k: nat)
    requires Calls(vm, k) && Step(vm).Running?
    requires StaysAbove(n, Step(vm).vm, Depth(vm) + 1)
    requires Steps(n, Step(vm).vm).Running? && Step(Steps(n, Step(vm).vm).vm).Running?
    requires Depth(Step(Steps(n, Step(vm).vm).vm).vm) == Depth(vm)
    ensures var last := Steps(n, Step(vm).vm).vm;
      var vm' := Step(last).vm;
      var st := vm.current.stack;
      && last.current.stack != []
      && vm'.callers == vm.callers
      && vm'.current == vm.current.(ip := vm.current.ip + 1,
           stack := st[..|st|-1-k] + [last.current.stack[|last.current.stack|-1]])
      && Steps(n + 2, vm) == Running(vm')
  {
    hide Operate, EnterFrame, ToString, Steps;
    var vm1 := Step(vm).vm;
    var d := Depth(vm) + 1;
    assert vm1.callers == vm.callers + [vm.current.(stack := vm.current.stack[..|vm.current.stack|-1-k])];
    assert vm1.callers[..d] == vm1.callers;
    CallersKept(n, vm1, d);
    var last := Steps(n, vm1).vm;
    Popped(last, d);
    assert last.callers == vm1.callers by { assert last.callers[..d] == last.callers; }
    TwoMore(n, vm);
  }

  /** Only the end of a function lowers the depth, and by one. */
  lemma {:induction false} Popped(vm: Machine, d: nat)
    requires Depth(vm) >= d && Step(vm).Running? && Depth(Step(vm).vm) < d
    ensures Depth(vm) == d && vm.current.ip >= |vm.current.fn.instructions| && vm.current.stack != []
    ensures Step(vm) == DoReturn(vm)
  {
    hide Operate, EnterFrame, ToString;
  }

  lemma {:induction false} TwoMore(n: nat, vm: Machine)
    requires Step(vm).Running? && Steps(n, Step(vm).vm).Running?
    ensures Step(Steps(n, Step(vm).vm).vm).Running? ==> Steps(n + 2, vm) == Step(Steps(n, Step(vm).vm).vm)
  {
    hide Step;
    var vm1 := Step(vm).vm;
    StepsCompose(n, 1, vm1, Steps(n, vm1).vm);
    assert Steps(n + 2, vm) == Steps(n + 1, vm1);
  }

  // ---------------------------------------------------------------- position independence

  /** Activation `d`, counted from the bottom. */
  function ActivationAt(vm: Machine, d: nat): Activation
    requires d <= Depth(vm)
  {
    if d < Depth(vm) then vm.callers[d] else vm.current
  }

  /** The machine whose activation `d` runs its code at offset `p` of `fn`. */
  function Moved(vm: Machine, d: nat, fn: Function, p: nat): Machine
    requires d <= Depth(vm)
  {
    if d < Depth(vm) then vm.(callers := vm.callers[d := vm.callers[d].(fn := fn, ip := vm.callers[d].ip + p)])
    else vm.(current := vm.current.(fn := fn, ip := vm.current.ip + p))
  }

  /** Control is in the code or in something it called, and not about to return. */
  ghost predicate Inside(vm: Machine, d: nat, code: seq<Instruction>) {
    Depth(vm) > d ||
    (Depth(vm) == d && 0 <= vm.current.ip < |code| && !code[vm.current.ip].Return?)
  }

  /** The code alone, with the pools of the function it is part of. */
  ghost predicate Alone(vm: Machine, d: nat, fn: Function, code: seq<Instruction>) {
    d <= Depth(vm) && ActivationAt(vm, d).fn == fn.(instructions := code)
  }

  /** What the moved machine comes to, when the machine alone comes to `o`. */
  ghost predicate MovesAlong(o: Outcome, moved: Outcome, d: nat, fn: Function, p: nat, code: seq<Instruction>) {
    match o
    case Running(vm) => Alone(vm, d, fn, code) && moved == Running(Moved(vm, d, fn, p))
    case _ => moved == o
  }

  lemma {:induction false} MovedStep(vm: Machine, d: nat, fn: Function, p: nat, code: seq<Instruction>)
    requires Alone(vm, d, fn, code) && PlacedAt(fn.instructions, p, code) && Inside(vm, d, code)
    ensures MovesAlong(Step(vm), Step(Moved(vm, d, fn, p)), d, fn, p, code)
  {
    hide Step, PlacedAt, MovesAlong, Moved;
    if Depth(vm) == d {
      PlacedInstruction(fn.instructions, p, code, vm.current.ip);
      var instr := code[vm.current.ip];
      if instr.Call? {
        MovedCall(vm, d, fn, p, code, instr.n);
      } else if IsPlain(instr) {
        MovedPlain(vm, d, fn, p, code, instr);
      } else {
        MovedJump(vm, d, fn, p, code, instr);
      }
    } else {
      MovedBelow(vm, d, fn, p, code);
    }
  }

  lemma {:induction false} StepsPlain(vm: Machine, instr: Instruction)
    requires 0 <= vm.current.ip < |vm.current.fn.instructions| && vm.current.fn.instructions[vm.current.ip] == instr && IsPlain(instr)
    ensures Step(vm) ==
      match Operate(vm.names, vm.global, vm.current.fn, vm.current.frame, instr, vm.current.stack, vm.mem)
      case None => Failed
      case Some((st, m)) => Running(JumpTo(vm, vm.current.ip + 1, st).(mem := m))
  {
    hide Operate;
  }

  lemma {:induction false} StepsCall(vm: Machine, k: int)
    requires 0 <= vm.current.ip < |vm.current.fn.instructions| && vm.current.fn.instructions[vm.current.ip] == Instruction.Call(k)
    ensures Step(vm) == DoCall(vm, k)
  {
    hide DoCall;
  }

  lemma {:induction false} MovedPlain(vm: Machine, d: nat, fn: Function, p: nat, code: seq<Instruction>, instr: Instruction)
    requires Depth(vm) == d && Alone(vm, d, fn, code) && 0 <= vm.current.ip < |code| && code[vm.current.ip] == instr && IsPlain(instr)
    requires vm.current.ip + p < |fn.instructions| && fn.instructions[vm.current.ip + p] == instr
    ensures MovesAlong(Step(vm), Step(Moved(vm, d, fn, p)), d, fn, p, code)
  {
    hide Step, Operate, IsPlain;
    StepsPlain(vm, instr);
    StepsPlain(Moved(vm, d, fn, p), instr);
    SamePools(vm, fn, code, instr);
  }

  lemma {:induction false} MovedJump(vm: Machine, d: nat, fn: Function, p: nat, code: seq<Instruction>, instr: Instruction)
    requires Depth(vm) == d && Alone(vm, d, fn, code) && 0 <= vm.current.ip < |code| && code[vm.current.ip] == instr
    requires instr.Goto? || instr.If?
    requires vm.current.ip + p < |fn.instructions| && fn.instructions[vm.current.ip + p] == instr
    ensures MovesAlong(Step(vm), Step(Moved(vm, d, fn, p)), d, fn, p, code)
  {
    hide Operate, DoCall, DoReturn;
  }

  lemma {:induction false} PlacedInstruction(instrs: seq<Instruction>, p: nat, code: seq<Instruction>, i: nat)
    requires PlacedAt(instrs, p, code) && i < |code|
    ensures i + p < |instrs| && instrs[i + p] == code[i]
  {
    assert instrs[p..p + |code|][i] == code[i];
  }

  /** Instructions other than jumps look at the pools only. */
  lemma {:induction false} SamePools(vm: Machine, fn: Function, code: seq<Instruction>, instr: Instruction)
    requires vm.current.fn == fn.(instructions := code)
    ensures Operate(vm.names, vm.global, fn, vm.current.frame, instr, vm.current.stack, vm.mem)
      == Operate(vm.names, vm.global, vm.current.fn, vm.current.frame, instr, vm.current.stack, vm.mem)
  {
    hide ToString, BinaryInstruction;
  }

  lemma {:induction false} MovedCall(vm: Machine, d: nat, fn: Function, p: nat, code: seq<Instruction>, k: int)
    requires Depth(vm) == d && Alone(vm, d, fn, code) && 0 <= vm.current.ip < |code| && code[vm.current.ip] == Instruction.Call(k)
    requires vm.current.ip + p < |fn.instructions| && fn.instructions[vm.current.ip + p] == Instruction.Call(k)
    ensures MovesAlong(Step(vm), Step(Moved(vm, d, fn, p)), d, fn, p, code)
  {
    hide Step, EnterFrame, ToString;
    StepsCall(vm, k);
    StepsCall(Moved(vm, d, fn, p), k);
  }

  lemma {:induction false} CallBelow(vm: Machine, d: nat, fn: Function, p: nat, k: int)
    requires Depth(vm) > d
    ensures match DoCall(vm, k)
      case Running(vm') => Depth(vm') > d && ActivationAt(vm', d) == ActivationAt(vm, d)
        && DoCall(Moved(vm, d, fn, p), k) == Running(Moved(vm', d, fn, p))
      case o => DoCall(Moved(vm, d, fn, p), k) == o
  {
    hide EnterFrame, ToString;
    var moved := Moved(vm, d, fn, p);
    match DoCall(vm, k)
    case Running(vm') =>
      if Depth(vm') > Depth(vm) {
        var caller := vm'.callers[Depth(vm)];
        assert (vm.callers + [caller])[d := moved.callers[d]] == moved.callers + [caller];
      }
    case _ =>
  }

  lemma {:induction false} ReturnBelow(vm: Machine, d: nat, fn: Function, p: nat)
    requires Depth(vm) > d
    ensures match DoReturn(vm)
      case Running(vm') => Depth(vm') >= d && ActivationAt(vm', d).fn == ActivationAt(vm, d).fn
        && DoReturn(Moved(vm, d, fn, p)) == Running(Moved(vm', d, fn, p))
      case o => DoReturn(Moved(vm, d, fn, p)) == o
  {
    var n, moved := Depth(vm), Moved(vm, d, fn, p);
    if n - 1 > d {
      assert moved.callers[..n-1] == vm.callers[..n-1][d := moved.callers[d]];
    } else {
      assert moved.callers[..n-1] == vm.callers[..n-1];
    }
  }

  /** Something the code called makes a step; maybe it returns to the code. */
  lemma {:induction false} MovedBelow(vm: Machine, d: nat, fn: Function, p: nat, code: seq<Instruction>)
    requires Alone(vm, d, fn, code) && Depth(vm) > d
    ensures MovesAlong(Step(vm), Step(Moved(vm, d, fn, p)), d, fn, p, code)
  {
    hide Operate, DoCall, DoReturn;
    var act, moved := vm.current, Moved(vm, d, fn, p);
    if act.ip >= |act.fn.instructions| {
      ReturnBelow(vm, d, fn, p);
    } else if act.ip >= 0 {
      hide Step;
      var instr := act.fn.instructions[act.ip];
      if instr.Call? {
        StepsCall(vm, instr.n);
        StepsCall(moved, instr.n);
        CallBelow(vm, d, fn, p, instr.n);
      } else if IsPlain(instr) {
        StepsPlain(vm, instr);
        StepsPlain(moved, instr);
      } else {
        JumpBelow(vm, d, fn, p, code);
      }
    }
  }

  lemma {:induction false} JumpBelow(vm: Machine, d: nat, fn: Function, p: nat, code: seq<Instruction>)
    requires Alone(vm, d, fn, code) && Depth(vm) > d && 0 <= vm.current.ip < |vm.current.fn.instructions|
    requires var instr := vm.current.fn.instructions[vm.current.ip]; instr.Goto? || instr.If? || instr.Return?
    ensures MovesAlong(Step(vm), Step(Moved(vm, d, fn, p)), d, fn, p, code)
  {
    hide Operate, DoCall, DoReturn;
  }

  /** The first `n` states are inside the code. */
  ghost predicate RunsInside(n: nat, vm: Machine, d: nat, code: seq<Instruction>)
    decreases n
  {
    n > 0 ==> Inside(vm, d, code) && (Step(vm).Running? ==> RunsInside(n - 1, Step(vm).vm, d, code))
  }

  /** Code runs at any offset of a longer instruction list as it runs alone, until
      it leaves through its own end or a return. */
  lemma {:induction false} PositionIndependence(n: nat, vm: Machine, d: nat, fn: Function, p: nat, code: seq<Instruction>)
    requires Alone(vm, d, fn, code) && PlacedAt(fn.instructions, p, code) && RunsInside(n, vm, d, code)
    ensures match Steps(n, vm)
      case Running(vm') => d <= Depth(vm') && Steps(n, Moved(vm, d, fn, p)) == Running(Moved(vm', d, fn, p))
      case o => Steps(n, Moved(vm, d, fn, p)) == o
    decreases n
  {
    hide Step, Alone, Moved, PlacedAt;
    if n > 0 {
      MovedStep(vm, d, fn, p, code);
      match Step(vm)
      case Running(vm') => PositionIndependence(n - 1, vm', d, fn, p, code);
      case _ =>
    } else {
      StillThere(vm, d, fn, code);
    }
  }

  lemma {:induction false} StillThere(vm: Machine, d: nat, fn: Function, code: seq<Instruction>)
    requires Alone(vm, d, fn, code)
    ensures d <= Depth(vm)
  {}
}
