/** The tree-walking evaluator as it is written: visitors that leave their value
    in `rval`, a return flag, and a stack of frames. Each visitor is proved to do
    what the reference semantics says. */
module TreeInterpreter {
  import opened Basics
  import opened Ast
  import opened TreeWalker
  import opened ValueText

  datatype Status = Done | Threw | Exhausted

  // ---------------------------------------------------------------- rendering

  lemma {:induction false} NextPair(keys: seq<string>, m: map<string, Value>, records: seq<map<string, Value>>, path: set<nat>)
    requires keys != [] && keys[0] in m
    ensures StringCast(m[keys[0]], records, path) == None ==> CastFields(keys, m, records, path) == None
    ensures forall t :: StringCast(m[keys[0]], records, path) == Some(t) ==>
      CastFields(keys, m, records, path) == Prefixed(keys[0] + ":" + t + " ", CastFields(keys[1..], m, records, path))
  {}

  lemma {:induction false} NoPairs(m: map<string, Value>, records: seq<map<string, Value>>, path: set<nat>)
    ensures CastFields([], m, records, path) == Some("")
    ensures forall t :: Prefixed(t, Some("")) == Some(t)
  {
    assert forall t: string :: t + "" == t;
  }

  /** `string_cast`. */
  method CastValue(v: Value, records: seq<map<string, Value>>, path: set<nat>) returns (r: Option<string>)
    ensures r == StringCast(v, records, path)
    decreases RecordIds(records) - path, 0
  {
    match v
    case NoneV => r := Some("None");
    case BoolV(b) => r := Some(if b then "true" else "false");
    case IntegerV(i) => r := Some(IntToString(i));
    case StringV(t) => r := Some(t);
    case FunctionV(_, _, _) => r := Some("FUNCTION");
    case NativeV(_) => r := Some("FUNCTION");
    case RecordV(id) =>
      if id >= |records| || id in path {
        return None;
      }
      assert id in RecordIds(records) - path;
      var keys := SortKeys(records[id].Keys);
      var text := CastPairs(keys, records[id], records, path + {id});
      r := if text.Some? then Some("{" + text.value + "}") else None;
  }

  /** The loop over an ordered map. */
  method CastPairs(keys: seq<string>, m: map<string, Value>, records: seq<map<string, Value>>, path: set<nat>) returns (r: Option<string>)
    requires forall k :: k in keys ==> k in m
    ensures r == CastFields(keys, m, records, path)
    decreases RecordIds(records) - path, 1
  {
    hide StringCast, CastFields;
    var text := "";
    assert keys[0..] == keys;
    PrefixedNothing(CastFields(keys, m, records, path));
    var i := 0;
    while i < |keys|
      invariant i <= |keys|
      invariant CastFields(keys, m, records, path) == Prefixed(text, CastFields(keys[i..], m, records, path))
    {
      assert keys[i..][0] == keys[i] && keys[i..][1..] == keys[i + 1..];
      NextPair(keys[i..], m, records, path);
      var value := CastValue(m[keys[i]], records, path);
      if value == None {
        return None;
      }
      PrefixedTwice(text, keys[i] + ":" + value.value + " ", CastFields(keys[i + 1..], m, records, path));
      text := text + (keys[i] + ":" + value.value + " ");
      i := i + 1;
    }
    assert keys[i..] == [];
    NoPairs(m, records, path);
    r := Some(text);
  }

  // ---------------------------------------------------------------- evaluator

  /** `store` holds the frames, the records and the output; `stack` the frames of
      the calls in progress. */
  class Evaluator {
    var store: Store
    var stack: seq<nat>
    var rval: Value
    var returnFlag: bool

    constructor ()
      ensures store == InitialStore(AsWritten) && stack == [GLOBAL_FRAME] && !returnFlag
    {
      store, stack, rval, returnFlag := InitialStore(AsWritten), [GLOBAL_FRAME], NoneV, false;
    }

    function Top(): nat
      requires stack != []
      reads this
    {
      stack[|stack|-1]
    }

    /** Between visits a frame is current and no return is on its way. */
    predicate Ready()
      reads this
    {
      stack != [] && !returnFlag && store.rules == AsWritten
    }

    /** The expression visitor gave what the semantics says. */
    ghost predicate Gave(r: Result<(Value, Store)>, status: Status)
      reads this
    {
      match r
      case Ok((v, s)) => status == Done && rval == v && store == s && !returnFlag
      case Err(OutOfFuel) => status == Exhausted
      case Err(_) => status == Threw
    }

    /** A statement visitor; a return leaves the value in `rval` and sets the flag. */
    ghost predicate Went(r: Result<(Flow, Store)>, status: Status)
      reads this
    {
      match r
      case Ok((flow, s)) => status == Done && store == s && returnFlag == flow.Returned? && (flow.Returned? ==> rval == flow.value)
      case Err(OutOfFuel) => status == Exhausted
      case Err(_) => status == Threw
    }

    // -------------------------------------------------------------- expressions

    method VisitVariable(e: Expr, fuel: nat) returns (status: Status)
      requires e.Var? && Ready()
      modifies this
      ensures Gave(EvalVar(e, old(store), old(Top()), fuel), status) && stack == old(stack)
    {
      var value := LookupRead(store, Top(), e.name);
      if value == None { return Threw; }
      rval := value.value;
      store := store.(strayed := store.strayed || value.value != LookupCompiled(store, Top(), e.name));
      status := Done;
    }

    method VisitExpr(e: Expr, fuel: nat) returns (status: Status)
      requires Ready()
      modifies this
      ensures Gave(Eval(e, old(store), old(Top()), fuel), status) && (status == Done ==> stack == old(stack))
      decreases fuel, e, 1
    {
      status := Done;
      match e
      case Var(_) => status := VisitVariable(e, fuel);
      case IntegerConstant(i) => rval := IntegerV(i);
      case StringConstant(t) => rval := StringV(t);
      case NoneConstant => rval := NoneV;
      case BooleanConstant(b) => rval := BoolV(b);
      case Fun(ps, body) => rval := FunctionV(Top(), ps, body);
      case Binary(_, _, _) => status := VisitBinary(e, fuel);
      case Unary(_, _) => status := VisitUnary(e, fuel);
      case Field(_, _) => status := VisitField(e, fuel);
      case Index(_, _) => status := VisitIndex(e, fuel);
      case Call(_, _) => status := VisitCall(e, fuel);
      case Record(_) => status := VisitRecord(e, fuel);
    }

    method VisitBinary(e: Expr, fuel: nat) returns (status: Status)
      requires e.Binary? && Ready()
      modifies this
      ensures Gave(EvalBinary(e, old(store), old(Top()), fuel), status) && (status == Done ==> stack == old(stack))
      decreases fuel, e, 0
    {
      hide Eval, StringCast;
      status := VisitExpr(e.left, fuel);
      if status != Done { return; }
      var left := rval;
      status := VisitExpr(e.right, fuel);
      if status != Done { return; }
      var right := rval;
      var value := Operate(e.op, left, right);
      if value.Err? { return Threw; }
      rval := value.value;
    }

    /** The operator on two values. */
    method Operate(op: Operator, left: Value, right: Value) returns (r: Result<Value>)
      ensures r == BinaryOp(op, left, right, store)
    {
      hide StringCast;
      match op
      case PLUS =>
        if left.StringV? || right.StringV? {
          var a := CastValue(left, store.records, {});
          if a == None { return Err(Raised); }
          var b := CastValue(right, store.records, {});
          if b == None { return Err(Raised); }
          r := Ok(StringV(a.value + b.value));
        } else if left.IntegerV? && right.IntegerV? {
          r := Ok(IntegerV(left.int_ + right.int_));
        } else {
          r := Err(Raised);
        }
      case SUB => r := Arithmetic(op, left, right);
      case MUL => r := Arithmetic(op, left, right);
      case DIV => r := Arithmetic(op, left, right);
      case AND => r := Logical(op, left, right);
      case OR => r := Logical(op, left, right);
      case EQ => r := Ok(BoolV(Equal(left, right)));
      case NEG => r := Err(Raised);
      case _ => r := Comparison(op, left, right);
    }

    method VisitUnary(e: Expr, fuel: nat) returns (status: Status)
      requires e.Unary? && Ready()
      modifies this
      ensures Gave(EvalUnary(e, old(store), old(Top()), fuel), status) && (status == Done ==> stack == old(stack))
      decreases fuel, e, 0
    {
      hide Eval;
      status := VisitExpr(e.operand, fuel);
      if status != Done { return; }
      var value := UnaryOp(e.uop, rval);
      if value.Err? { return Threw; }
      rval := value.value;
    }

    /** A field of a record, None when it is absent. */
    method Read(v: Value, field: string) returns (ok: bool)
      modifies this`rval
      ensures ok == ReadField(v, field, store).Ok? && (ok ==> rval == ReadField(v, field, store).value)
    {
      if !v.RecordV? || v.id >= |store.records| { return false; }
      rval := if field in store.records[v.id] then store.records[v.id][field] else NoneV;
      ok := true;
    }

    method VisitField(e: Expr, fuel: nat) returns (status: Status)
      requires e.Field? && Ready()
      modifies this
      ensures Gave(EvalField(e, old(store), old(Top()), fuel), status) && (status == Done ==> stack == old(stack))
      decreases fuel, e, 0
    {
      hide Eval;
      status := VisitExpr(e.base, fuel);
      if status != Done { return; }
      var ok := Read(rval, e.field);
      status := if ok then Done else Threw;
    }

    method VisitIndex(e: Expr, fuel: nat) returns (status: Status)
      requires e.Index? && Ready()
      modifies this
      ensures Gave(EvalIndex(e, old(store), old(Top()), fuel), status) && (status == Done ==> stack == old(stack))
      decreases fuel, e, 0
    {
      hide Eval, StringCast;
      status := VisitExpr(e.base, fuel);
      if status != Done { return; }
      var base := rval;
      if !base.RecordV? { return Threw; }
      status := VisitExpr(e.index, fuel);
      if status != Done { return; }
      var field := CastValue(rval, store.records, {});
      if field == None { return Threw; }
      var ok := Read(base, field.value);
      status := if ok then Done else Threw;
    }

    method VisitRecord(e: Expr, fuel: nat) returns (status: Status)
      requires e.Record? && Ready()
      modifies this
      ensures Gave(EvalRecord(e, old(store), old(Top()), fuel), status) && (status == Done ==> stack == old(stack))
      decreases fuel, e, 0
    {
      hide Eval;
      var id := |store.records|;
      store := store.(records := store.records + [map[]]);
      ghost var s1, f, inits := store, Top(), e.fields;
      assert inits[0..] == inits;
      for i := 0 to |e.fields|
        invariant stack == old(stack) && Ready()
        invariant EvalFields(inits, id, s1, f, fuel) == EvalFields(inits[i..], id, store, f, fuel)
      {
        assert inits[i..][0] == inits[i] && inits[i..][1..] == inits[i + 1..];
        status := VisitExpr(e.fields[i].init, fuel);
        if status != Done { return; }
        if id >= |store.records| { return Threw; }
        store := WriteRecord(store, id, e.fields[i].name, rval);
      }
      rval := RecordV(id);
      status := Done;
    }

    // -------------------------------------------------------------- calls

    method VisitCall(e: Expr, fuel: nat) returns (status: Status)
      requires e.Call? && Ready()
      modifies this
      ensures Gave(EvalCall(e, old(store), old(Top()), fuel), status) && (status == Done ==> stack == old(stack))
      decreases fuel, e, 0
    {
      hide Eval, Apply;
      status := VisitExpr(e.target, fuel);
      if status != Done { return; }
      var target := rval;
      if !target.FunctionV? && !target.NativeV? { return Threw; }
      var args;
      status, args := VisitArguments(e.args, fuel);
      if status != Done { return; }
      if fuel == 0 { return Exhausted; }
      status := CallFunction(target, args, fuel - 1);
    }

    method VisitArguments(es: seq<Expr>, fuel: nat) returns (status: Status, args: seq<Value>)
      requires Ready()
      modifies this
      ensures match EvalArgs(es, old(store), old(Top()), fuel)
        case Ok((vs, s)) => status == Done && args == vs && store == s && !returnFlag && stack == old(stack)
        case Err(OutOfFuel) => status == Exhausted
        case Err(_) => status == Threw
      decreases fuel, es, 0
    {
      hide Eval;
      args := [];
      ghost var f := Top();
      assert es[0..] == es;
      NoArgsYet(EvalArgs(es, store, f, fuel));
      for i := 0 to |es|
        invariant stack == old(stack) && Ready()
        invariant EvalArgs(es, old(store), f, fuel) == ArgsSoFar(args, EvalArgs(es[i..], store, f, fuel))
      {
        assert es[i..][0] == es[i] && es[i..][1..] == es[i + 1..];
        status := VisitExpr(es[i], fuel);
        if status != Done { return; }
        ArgsStep(args, rval, EvalArgs(es[i + 1..], store, f, fuel));
        args := args + [rval];
      }
      assert args + [] == args;
      status := Done;
    }

    /** `globals` on the body of a called function. */
    method Globals(s: Stmt, names: set<string>) returns (r: set<string>)
      ensures r == names + (set x | x in GlobalsOf(s))
      decreases s
    {
      match s
      case If(_, t) => r := GlobalsOfBody(t, names);
      case IfElse(_, t, e) =>
        r := GlobalsOfBody(t, names);
        r := GlobalsOfBody(e, r);
      case While(_, b) => r := GlobalsOfBody(b, names);
      case Global(x) => r := names + {x};
      case _ => r := names;
    }

    method GlobalsOfBody(ss: seq<Stmt>, names: set<string>) returns (r: set<string>)
      ensures r == names + (set x | x in GlobalsOfBlock(ss))
      decreases ss
    {
      r := names;
      assert ss[0..] == ss;
      for i := 0 to |ss|
        invariant names + (set x | x in GlobalsOfBlock(ss)) == r + (set x | x in GlobalsOfBlock(ss[i..]))
      {
        assert ss[i..][0] == ss[i] && ss[i..][1..] == ss[i + 1..];
        r := Globals(ss[i], r);
      }
    }

    /** `assigns`: every assigned name starts as None. */
    method Assigns(s: Stmt, vars: map<string, Value>) returns (r: map<string, Value>)
      ensures r == vars + NoneFor(AssignsOf(s))
      decreases s
    {
      hide NoneFor;
      NoneForNothing(vars);
      match s
      case AssignVar(x, _) =>
        NoneForOne(vars, x);
        r := vars[x := NoneV];
      case If(_, t) => r := AssignsOfBody(t, vars);
      case IfElse(_, t, e) =>
        NoneForBoth(vars, AssignsOfBlock(t), AssignsOfBlock(e));
        r := AssignsOfBody(t, vars);
        r := AssignsOfBody(e, r);
      case While(_, b) => r := AssignsOfBody(b, vars);
      case _ => r := vars;
    }

    method AssignsOfBody(ss: seq<Stmt>, vars: map<string, Value>) returns (r: map<string, Value>)
      ensures r == vars + NoneFor(AssignsOfBlock(ss))
      decreases ss
    {
      hide NoneFor;
      r := vars;
      assert ss[0..] == ss;
      for i := 0 to |ss|
        invariant vars + NoneFor(AssignsOfBlock(ss)) == r + NoneFor(AssignsOfBlock(ss[i..]))
      {
        assert ss[i..][0] == ss[i] && ss[i..][1..] == ss[i + 1..];
        NoneForBoth(r, AssignsOf(ss[i]), AssignsOfBlock(ss[i + 1..]));
        r := Assigns(ss[i], r);
      }
      NoneForNothing(r);
    }

    method Bind(params: seq<string>, args: seq<Value>, vars: map<string, Value>) returns (r: map<string, Value>)
      requires |params| == |args|
      ensures r == BindParams(params, args, vars)
    {
      r := vars;
      assert params[0..] == params && args[0..] == args;
      for i := 0 to |params|
        invariant BindParams(params, args, vars) == BindParams(params[i..], args[i..], r)
      {
        assert params[i..][1..] == params[i + 1..] && args[i..][1..] == args[i + 1..];
        r := r[params[i] := args[i]];
      }
    }

    /** `functionCall` after the arguments: a new frame, the body, the value. */
    method CallFunction(target: Value, args: seq<Value>, fuel: nat) returns (status: Status)
      requires target.FunctionV? || target.NativeV?
      requires Ready()
      modifies this
      ensures Gave(Apply(target, args, old(store), fuel), status) && (status == Done ==> stack == old(stack))
      decreases fuel
    {
      hide StringCast, ExecBlock;
      match target
      case NativeV(native) =>
        if |args| != NativeArity(native) || native != Print { return Threw; }
        var line := CastValue(args[0], store.records, {});
        if line == None { return Threw; }
        store := store.(frames := store.frames + [Frame(map["s" := args[0]], None, {})], out := store.out + [line.value]);
        rval := NoneV;
        status := Done;
      case FunctionV(parent, params, body) =>
        if |args| != |params| { return Threw; }
        var globals := GlobalsOfBody(body, {});
        var vars := AssignsOfBody(body, map[]);
        vars := Bind(params, args, vars);
        assert Frame(vars, Some(parent), globals) == CallFrame(parent, params, body, args) by { FrameMade(body); }
        stack := stack + [|store.frames|];
        store := store.(frames := store.frames + [Frame(vars, Some(parent), globals)]);
        status := VisitBlock(body, fuel);
        if status != Done { return; }
        stack := stack[..|stack|-1];
        if returnFlag {
          returnFlag := false;
        } else {
          rval := NoneV;
        }
    }

    // -------------------------------------------------------------- statements

    method VisitStmt(c: Stmt, fuel: nat) returns (status: Status)
      requires Ready()
      modifies this
      ensures Went(Exec(c, old(store), old(Top()), fuel), status) && (status == Done ==> stack == old(stack))
      decreases fuel, c, 1
    {
      match c
      case Global(_) => status := Done;
      case AssignVar(_, _) => status := VarAssignment(c, fuel);
      case AssignField(_, _, _) => status := HeapAssignment(c, fuel);
      case AssignIndex(_, _, _) => status := HeapIndexAssignment(c, fuel);
      case CallStmt(_) => status := VisitCallStatement(c, fuel);
      case If(_, _) => status := VisitIf(c, fuel);
      case IfElse(_, _, _) => status := VisitIfElse(c, fuel);
      case While(_, _) => status := VisitWhile(c, fuel);
      case Return(_) => status := ReturnStatement(c, fuel);
    }

    method VisitCallStatement(c: Stmt, fuel: nat) returns (status: Status)
      requires c.CallStmt? && Ready()
      modifies this
      ensures Went(ExecCallStmt(c, old(store), old(Top()), fuel), status) && (status == Done ==> stack == old(stack))
      decreases fuel, c, 0
    {
      hide Eval;
      status := VisitExpr(c.call, fuel);
    }

    method ReturnStatement(c: Stmt, fuel: nat) returns (status: Status)
      requires c.Return? && Ready()
      modifies this
      ensures Went(ExecReturn(c, old(store), old(Top()), fuel), status) && (status == Done ==> stack == old(stack))
      decreases fuel, c, 0
    {
      hide Eval;
      status := VisitExpr(c.result, fuel);
      if status == Done { returnFlag := true; }
    }

    /** The frame to write is resolved before the right-hand side runs. */
    method VarAssignment(c: Stmt, fuel: nat) returns (status: Status)
      requires c.AssignVar? && Ready()
      modifies this
      ensures Went(ExecAssignVar(c, old(store), old(Top()), fuel), status) && (status == Done ==> stack == old(stack))
      decreases fuel, c, 0
    {
      hide Eval;
      if Top() >= |store.frames| { return Threw; }
      var target := LookupWrite(store, Top(), c.name);
      status := VisitExpr(c.rhs, fuel);
      if status != Done { return; }
      if target >= |store.frames| { return Threw; }
      store := WriteVar(store, target, c.name, rval);
    }

    method HeapAssignment(c: Stmt, fuel: nat) returns (status: Status)
      requires c.AssignField? && Ready()
      modifies this
      ensures Went(ExecAssignField(c, old(store), old(Top()), fuel), status) && (status == Done ==> stack == old(stack))
      decreases fuel, c, 0
    {
      hide Eval;
      status := VisitExpr(c.base, fuel);
      if status != Done { return; }
      var base := rval;
      if !base.RecordV? { return Threw; }
      status := VisitExpr(c.rhs, fuel);
      if status != Done { return; }
      if base.id >= |store.records| { return Threw; }
      store := WriteRecord(store, base.id, c.field, rval);
    }

    /** The index is cast before the right-hand side runs; the second rendering is
        the monitor's. */
    method HeapIndexAssignment(c: Stmt, fuel: nat) returns (status: Status)
      requires c.AssignIndex? && Ready()
      modifies this
      ensures Went(ExecAssignIndex(c, old(store), old(Top()), fuel), status) && (status == Done ==> stack == old(stack))
      decreases fuel, c, 0
    {
      hide Eval, StringCast;
      status := VisitExpr(c.base, fuel);
      if status != Done { return; }
      var base := rval;
      if !base.RecordV? { return Threw; }
      status := VisitExpr(c.index, fuel);
      if status != Done { return; }
      var index := rval;
      var field := CastValue(index, store.records, {});
      if field == None { return Threw; }
      status := VisitExpr(c.rhs, fuel);
      if status != Done { return; }
      if base.id >= |store.records| { return Threw; }
      var later := CastValue(index, store.records, {});
      store := WriteRecord(store, base.id, field.value, rval);
      store := store.(strayed := store.strayed || later != field);
    }

    method VisitIf(c: Stmt, fuel: nat) returns (status: Status)
      requires c.If? && Ready()
      modifies this
      ensures Went(ExecIf(c, old(store), old(Top()), fuel), status) && (status == Done ==> stack == old(stack))
      decreases fuel, c, 0
    {
      hide Eval, ExecBlock;
      status := VisitExpr(c.cond, fuel);
      if status != Done { return; }
      if !rval.BoolV? { return Threw; }
      if rval.flag {
        status := VisitBlock(c.thenPart, fuel);
      }
    }

    method VisitIfElse(c: Stmt, fuel: nat) returns (status: Status)
      requires c.IfElse? && Ready()
      modifies this
      ensures Went(ExecIfElse(c, old(store), old(Top()), fuel), status) && (status == Done ==> stack == old(stack))
      decreases fuel, c, 0
    {
      hide Eval, ExecBlock;
      status := VisitExpr(c.cond, fuel);
      if status != Done { return; }
      if !rval.BoolV? { return Threw; }
      if rval.flag {
        status := VisitBlock(c.thenPart, fuel);
      } else {
        status := VisitBlock(c.elsePart, fuel);
      }
    }

    /** A loop is the sequence of its body and itself. */
    method VisitWhile(c: Stmt, fuel: nat) returns (status: Status)
      requires c.While? && Ready()
      modifies this
      ensures Went(ExecWhile(c, old(store), old(Top()), fuel), status) && (status == Done ==> stack == old(stack))
      decreases fuel, c, 0
    {
      hide Eval, ExecBlock, Exec;
      status := VisitExpr(c.cond, fuel);
      if status != Done { return; }
      if !rval.BoolV? { return Threw; }
      if rval.flag {
        status := VisitBlock(c.body, fuel);
        if status != Done || returnFlag { return; }
        if fuel == 0 { return Exhausted; }
        status := VisitStmt(c, fuel - 1);
      }
    }

    /** Statements are skipped once the flag is set. */
    method VisitBlock(cs: seq<Stmt>, fuel: nat) returns (status: Status)
      requires Ready()
      modifies this
      ensures Went(ExecBlock(cs, old(store), old(Top()), fuel), status) && (status == Done ==> stack == old(stack))
      decreases fuel, cs, 0
    {
      hide Exec;
      ghost var f := Top();
      assert cs[0..] == cs;
      for i := 0 to |cs|
        invariant stack == old(stack) && store.rules == AsWritten
        invariant ExecBlock(cs, old(store), f, fuel) ==
          if returnFlag then Ok((Returned(rval), store)) else ExecBlock(cs[i..], store, f, fuel)
      {
        assert cs[i..][0] == cs[i] && cs[i..][1..] == cs[i + 1..];
        if !returnFlag {
          status := VisitStmt(cs[i], fuel);
          if status != Done { return; }
        }
      }
      status := Done;
    }

    // -------------------------------------------------------------- programs

    method RunProgram(program: seq<Stmt>, fuel: nat) returns (status: Status)
      requires store == InitialStore(AsWritten) && stack == [GLOBAL_FRAME] && !returnFlag
      modifies this
      ensures match Run(program, fuel)
        case Ok(s) => status == Done && store == s
        case Err(OutOfFuel) => status == Exhausted
        case Err(_) => status == Threw
    {
      hide ExecBlock;
      status := VisitBlock(program, fuel);
    }
  }

  lemma {:induction false} NoArgsYet(r: Result<(seq<Value>, Store)>)
    ensures ArgsSoFar([], r) == r
  {
    if r.Ok? { assert [] + r.value.0 == r.value.0; }
  }

  function NoneFor(xs: seq<string>): map<string, Value> {
    map x | x in xs :: NoneV
  }

  lemma {:induction false} NoneForBoth(vars: map<string, Value>, a: seq<string>, b: seq<string>)
    ensures (vars + NoneFor(a)) + NoneFor(b) == vars + NoneFor(a + b)
  {}

  lemma {:induction false} NoneForNothing(vars: map<string, Value>)
    ensures vars + NoneFor([]) == vars
  {}

  lemma {:induction false} NoneForOne(vars: map<string, Value>, x: string)
    ensures vars[x := NoneV] == vars + NoneFor([x])
  {}

  lemma {:induction false} FrameMade(body: seq<Stmt>)
    ensures map[] + NoneFor(AssignsOfBlock(body)) == (map x | x in AssignsOfBlock(body) :: NoneV)
    ensures {} + (set x | x in GlobalsOfBlock(body)) == (set x | x in GlobalsOfBlock(body))
  {}

  /** Arguments evaluated before the rest. */
  function ArgsSoFar(args: seq<Value>, r: Result<(seq<Value>, Store)>): Result<(seq<Value>, Store)> {
    match r
    case Ok((vs, s)) => Ok((args + vs, s))
    case Err(x) => Err(x)
  }

  lemma {:induction false} ArgsStep(args: seq<Value>, v: Value, r: Result<(seq<Value>, Store)>)
    ensures r.Ok? ==> ArgsSoFar(args, Ok(([v] + r.value.0, r.value.1))) == ArgsSoFar(args + [v], r)
  {
    if r.Ok? { assert args + ([v] + r.value.0) == (args + [v]) + r.value.0; }
  }
}
