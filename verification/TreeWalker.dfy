/** The reference semantics: the tree-walking evaluator, with its chain of
    frames, records compared by identity, and the output as a sequence of lines.

    A run follows one of two sets of rules. `AsWritten` is the evaluator.
    `AsCompiled` is the evaluator with the four rules changed that compiled code
    does not keep; it says, on the level of the syntax tree, what compiled code
    does.

    `rval` is the value an evaluation returns; `return_flag` is the `Returned`
    flow. `fuel` bounds the nesting of calls plus the number of loop rounds, so
    "finishes normally" means "finishes for some fuel". */
module TreeWalker {
  import opened Basics
  import opened Ast

  datatype Native = Print | Input | Intcast

  datatype Value =
    | NoneV
    | BoolV(flag: bool)
    | IntegerV(int_: int)
    | StringV(text: string)
    | RecordV(id: nat)
    | FunctionV(frame: nat, params: seq<string>, body: seq<Stmt>)
    | NativeV(native: Native)

  /** `vars` is the frame's map, `globals` its set of names declared global. */
  datatype Frame = Frame(vars: map<string, Value>, parent: Option<nat>, globals: set<string>)

  datatype Rules = AsWritten | AsCompiled

  /** `strayed` is a monitor, not part of the evaluator: it records that a run by
      the evaluator's rules read a variable, or rendered the index of a store, to
      something else than compiled code does at that point. */
  datatype Store = Store(
    frames: seq<Frame>, records: seq<map<string, Value>>, out: seq<string>, strayed: bool, rules: Rules)

  /** `Unbound` is the exception for a variable no frame binds, `Raised` any other;
      `OutOfFuel` is no end at all. */
  datatype Error = Raised | Unbound | OutOfFuel

  datatype Result<+T> = Ok(value: T) | Err(error: Error) {
    predicate IsFailure() { Err? }
    function PropagateFailure<U>(): Result<U> requires Err? { Err(error) }
    function Extract(): T requires Ok? { value }
  }

  datatype Flow = Normal | Returned(value: Value)

  const GLOBAL_FRAME: nat := 0

  // ---------------------------------------------------------------- lookups

  /** `lookup_write`: the frame an assignment to `x` goes to. */
  function LookupWrite(s: Store, f: nat, x: string): nat
    requires f < |s.frames|
  {
    if x in s.frames[f].globals then GLOBAL_FRAME else f
  }

  /** `lookup_read`: walk the parent frames. Frames are older than the frames
      they are parents of. */
  function LookupRead(s: Store, f: nat, x: string): Option<Value>
    decreases f
  {
    if f >= |s.frames| then None
    else if x in s.frames[f].globals && x in s.frames[GLOBAL_FRAME].vars then
      Some(s.frames[GLOBAL_FRAME].vars[x])
    else if x in s.frames[f].vars then Some(s.frames[f].vars[x])
    else if s.frames[f].parent.Some? && s.frames[f].parent.value < f then
      LookupRead(s, s.frames[f].parent.value, x)
    else None
  }

  /** The value of a global; compiled code finds None before it is stored. */
  function StoredGlobal(s: Store, x: string): Value {
    if |s.frames| > 0 && x in s.frames[GLOBAL_FRAME].vars then s.frames[GLOBAL_FRAME].vars[x] else NoneV
  }

  /** What compiled code reads: a name is global where a function declares it so,
      and a name no frame binds is a global not stored yet. */
  function LookupCompiled(s: Store, f: nat, x: string): Value
    decreases f
  {
    if f >= |s.frames| then NoneV
    else if x in s.frames[f].globals then StoredGlobal(s, x)
    else if x in s.frames[f].vars then s.frames[f].vars[x]
    else if s.frames[f].parent.Some? && s.frames[f].parent.value < f then
      LookupCompiled(s, s.frames[f].parent.value, x)
    else NoneV
  }

  // ---------------------------------------------------------------- casts

  function RecordIds(records: seq<map<string, Value>>): set<nat> {
    Below(|records|)
  }

  /** `string_cast`. `path` holds the records being rendered; meeting one of
      them again means the source's recursion never ends (`None`). */
  ghost function StringCast(v: Value, records: seq<map<string, Value>>, path: set<nat>): Option<string>
    decreases RecordIds(records) - path, 0
  {
    match v
    case NoneV => Some("None")
    case BoolV(b) => Some(if b then "true" else "false")
    case IntegerV(i) => Some(IntToString(i))
    case StringV(t) => Some(t)
    case FunctionV(_, _, _) => Some("FUNCTION")
    case NativeV(_) => Some("FUNCTION")
    case RecordV(id) =>
      if id >= |records| || id in path then None
      else
        assert id in RecordIds(records) - path;
        match CastFields(KeysInOrder(records[id].Keys), records[id], records, path + {id})
        case None => None
        case Some(t) => Some("{" + t + "}")
  }

  ghost function CastFields(keys: seq<string>, m: map<string, Value>,
      records: seq<map<string, Value>>, path: set<nat>): Option<string>
    decreases RecordIds(records) - path, 1 + |keys|
  {
    if keys == [] then Some("")
    else if keys[0] !in m then None
    else
      match StringCast(m[keys[0]], records, path)
      case None => None
      case Some(t) =>
        match CastFields(keys[1..], m, records, path)
        case None => None
        case Some(rest) => Some(keys[0] + ":" + t + " " + rest)
  }

  ghost function Cast(v: Value, s: Store): Result<string> {
    match StringCast(v, s.records, {})
    case Some(t) => Ok(t)
    case None => Err(Raised)
  }

  // ---------------------------------------------------------------- operators

  ghost function Plus(l: Value, r: Value, s: Store): Result<Value> {
    if l.StringV? || r.StringV? then
      var a :- Cast(l, s);
      var b :- Cast(r, s);
      Ok(StringV(a + b))
    else if l.IntegerV? && r.IntegerV? then Ok(IntegerV(l.int_ + r.int_))
    else Err(Raised)
  }

  function Arithmetic(op: Operator, l: Value, r: Value): Result<Value> {
    if !l.IntegerV? || !r.IntegerV? then Err(Raised)
    else
      match op
      case SUB => Ok(IntegerV(l.int_ - r.int_))
      case MUL => Ok(IntegerV(l.int_ * r.int_))
      case DIV =>
        if r.int_ == 0 then Err(Raised) else Ok(IntegerV(TruncatedQuotient(l.int_, r.int_)))
      case _ => Err(Raised)
  }

  function Comparison(op: Operator, l: Value, r: Value): Result<Value> {
    if !l.IntegerV? || !r.IntegerV? then Err(Raised)
    else
      match op
      case GT => Ok(BoolV(l.int_ > r.int_))
      case LT => Ok(BoolV(l.int_ < r.int_))
      case GEQ => Ok(BoolV(l.int_ >= r.int_))
      case LEQ => Ok(BoolV(l.int_ <= r.int_))
      case _ => Err(Raised)
  }

  function Logical(op: Operator, l: Value, r: Value): Result<Value> {
    if !l.BoolV? || !r.BoolV? then Err(Raised)
    else
      match op
      case AND => Ok(BoolV(l.flag && r.flag))
      case OR => Ok(BoolV(l.flag || r.flag))
      case _ => Err(Raised)
  }

  /** Primitive values by content, records by identity, functions never equal. */
  function Equal(l: Value, r: Value): bool {
    match (l, r)
    case (IntegerV(a), IntegerV(b)) => a == b
    case (BoolV(a), BoolV(b)) => a == b
    case (StringV(a), StringV(b)) => a == b
    case (NoneV, NoneV) => true
    case (RecordV(a), RecordV(b)) => a == b
    case _ => false
  }

  ghost function BinaryOp(op: Operator, l: Value, r: Value, s: Store): Result<Value> {
    match op
    case PLUS => Plus(l, r, s)
    case SUB => Arithmetic(op, l, r)
    case MUL => Arithmetic(op, l, r)
    case DIV => Arithmetic(op, l, r)
    case AND => Logical(op, l, r)
    case OR => Logical(op, l, r)
    case EQ => Ok(BoolV(Equal(l, r)))
    case NEG => Err(Raised)
    case _ => Comparison(op, l, r)
  }

  function UnaryOp(op: Operator, v: Value): Result<Value> {
    match op
    case SUB => if v.IntegerV? then Ok(IntegerV(-v.int_)) else Err(Raised)
    case NEG => if v.BoolV? then Ok(BoolV(!v.flag)) else Err(Raised)
    case _ => Err(Raised)
  }

  ghost function ReadField(v: Value, field: string, s: Store): Result<Value> {
    if !v.RecordV? || v.id >= |s.records| then Err(Raised)
    else if field in s.records[v.id] then Ok(s.records[v.id][field])
    else Ok(NoneV)
  }

  function WriteRecord(s: Store, id: nat, field: string, v: Value): Store
    requires id < |s.records|
  {
    s.(records := s.records[id := s.records[id][field := v]])
  }

  function WriteVar(s: Store, f: nat, x: string, v: Value): Store
    requires f < |s.frames|
  {
    s.(frames := s.frames[f := s.frames[f].(vars := s.frames[f].vars[x := v])])
  }

  // ---------------------------------------------------------------- expressions

  ghost function Eval(e: Expr, s: Store, f: nat, fuel: nat): (r: Result<(Value, Store)>)
    ensures r.Ok? ==> r.value.1.rules == s.rules
    ensures r.Ok? && s.rules == AsCompiled ==> r.value.1.strayed == s.strayed
    ensures r.Ok? && !r.value.1.strayed ==> !s.strayed
    decreases fuel, e, 1
  {
    match e
    case Var(_) => EvalVar(e, s, f, fuel)
    case IntegerConstant(i) => Ok((IntegerV(i), s))
    case StringConstant(t) => Ok((StringV(t), s))
    case NoneConstant => Ok((NoneV, s))
    case BooleanConstant(b) => Ok((BoolV(b), s))
    case Fun(ps, body) => Ok((FunctionV(f, ps, body), s))
    case Binary(_, _, _) => EvalBinary(e, s, f, fuel)
    case Unary(_, _) => EvalUnary(e, s, f, fuel)
    case Field(_, _) => EvalField(e, s, f, fuel)
    case Index(_, _) => EvalIndex(e, s, f, fuel)
    case Call(_, _) => EvalCall(e, s, f, fuel)
    case Record(_) => EvalRecord(e, s, f, fuel)
  }

  ghost function EvalVar(e: Expr, s: Store, f: nat, fuel: nat): (r: Result<(Value, Store)>)
    requires e.Var?
    ensures r.Ok? ==> r.value.1.rules == s.rules
    ensures r.Ok? && s.rules == AsCompiled ==> r.value.1.strayed == s.strayed
    ensures r.Ok? && !r.value.1.strayed ==> !s.strayed
    decreases fuel, e, 0
  {
    var Var(x) := e;
    match s.rules {
      case AsCompiled => Ok((LookupCompiled(s, f, x), s))
      case AsWritten =>
        match LookupRead(s, f, x) {
          case None => Err(Unbound)
          case Some(v) => Ok((v, s.(strayed := s.strayed || v != LookupCompiled(s, f, x))))
        }
    }
  }

  ghost function EvalBinary(e: Expr, s: Store, f: nat, fuel: nat): (r: Result<(Value, Store)>)
    requires e.Binary?
    ensures r.Ok? ==> r.value.1.rules == s.rules
    ensures r.Ok? && s.rules == AsCompiled ==> r.value.1.strayed == s.strayed
    ensures r.Ok? && !r.value.1.strayed ==> !s.strayed
    decreases fuel, e, 0
  {
    var Binary(l, op, r) := e;
    if s.rules == AsCompiled && (op == LT || op == LEQ) then
      var (rv, s1) :- Eval(r, s, f, fuel);
      var (lv, s2) :- Eval(l, s1, f, fuel);
      var v :- BinaryOp(op, lv, rv, s2);
      Ok((v, s2))
    else
      var (lv, s1) :- Eval(l, s, f, fuel);
      var (rv, s2) :- Eval(r, s1, f, fuel);
      var v :- BinaryOp(op, lv, rv, s2);
      Ok((v, s2))
  }

  ghost function EvalUnary(e: Expr, s: Store, f: nat, fuel: nat): (r: Result<(Value, Store)>)
    requires e.Unary?
    ensures r.Ok? ==> r.value.1.rules == s.rules
    ensures r.Ok? && s.rules == AsCompiled ==> r.value.1.strayed == s.strayed
    ensures r.Ok? && !r.value.1.strayed ==> !s.strayed
    decreases fuel, e, 0
  {
    var Unary(op, x) := e;
    var (xv, s1) :- Eval(x, s, f, fuel);
    var v :- UnaryOp(op, xv);
    Ok((v, s1))
  }

  ghost function EvalField(e: Expr, s: Store, f: nat, fuel: nat): (r: Result<(Value, Store)>)
    requires e.Field?
    ensures r.Ok? ==> r.value.1.rules == s.rules
    ensures r.Ok? && s.rules == AsCompiled ==> r.value.1.strayed == s.strayed
    ensures r.Ok? && !r.value.1.strayed ==> !s.strayed
    decreases fuel, e, 0
  {
    var Field(b, name) := e;
    var (bv, s1) :- Eval(b, s, f, fuel);
    var v :- ReadField(bv, name, s1);
    Ok((v, s1))
  }

  ghost function EvalIndex(e: Expr, s: Store, f: nat, fuel: nat): (r: Result<(Value, Store)>)
    requires e.Index?
    ensures r.Ok? ==> r.value.1.rules == s.rules
    ensures r.Ok? && s.rules == AsCompiled ==> r.value.1.strayed == s.strayed
    ensures r.Ok? && !r.value.1.strayed ==> !s.strayed
    decreases fuel, e, 0
  {
    var Index(b, i) := e;
    var (bv, s1) :- Eval(b, s, f, fuel);
    if !bv.RecordV? then Err(Raised)
    else
      var (iv, s2) :- Eval(i, s1, f, fuel);
      var name :- Cast(iv, s2);
      var v :- ReadField(bv, name, s2);
      Ok((v, s2))
  }

  ghost function EvalCall(e: Expr, s: Store, f: nat, fuel: nat): (r: Result<(Value, Store)>)
    requires e.Call?
    ensures r.Ok? ==> r.value.1.rules == s.rules
    ensures r.Ok? && s.rules == AsCompiled ==> r.value.1.strayed == s.strayed
    ensures r.Ok? && !r.value.1.strayed ==> !s.strayed
    decreases fuel, e, 0
  {
    var Call(t, args) := e;
    var (tv, s1) :- Eval(t, s, f, fuel);
    if !tv.FunctionV? && !tv.NativeV? then Err(Raised)
    else
      var (vs, s2) :- EvalArgs(args, s1, f, fuel);
      if fuel == 0 then Err(OutOfFuel)
      else Apply(tv, vs, s2, fuel - 1)
  }

  ghost function EvalRecord(e: Expr, s: Store, f: nat, fuel: nat): (r: Result<(Value, Store)>)
    requires e.Record?
    ensures r.Ok? ==> r.value.1.rules == s.rules
    ensures r.Ok? && s.rules == AsCompiled ==> r.value.1.strayed == s.strayed
    ensures r.Ok? && !r.value.1.strayed ==> !s.strayed
    decreases fuel, e, 0
  {
    var Record(inits) := e;
    var s1 := s.(records := s.records + [map[]]);
    var s2 :- EvalFields(inits, |s.records|, s1, f, fuel);
    Ok((RecordV(|s.records|), s2))
  }

  ghost function EvalArgs(es: seq<Expr>, s: Store, f: nat, fuel: nat): (r: Result<(seq<Value>, Store)>)
    ensures r.Ok? ==> |r.value.0| == |es|
    ensures r.Ok? ==> r.value.1.rules == s.rules
    ensures r.Ok? && s.rules == AsCompiled ==> r.value.1.strayed == s.strayed
    ensures r.Ok? && !r.value.1.strayed ==> !s.strayed
    decreases fuel, es, 0
  {
    if es == [] then Ok(([], s))
    else
      var (v, s1) :- Eval(es[0], s, f, fuel);
      var (vs, s2) :- EvalArgs(es[1..], s1, f, fuel);
      Ok(([v] + vs, s2))
  }

  ghost function EvalFields(inits: seq<FieldInit>, id: nat, s: Store, f: nat, fuel: nat): (r: Result<Store>)
    ensures r.Ok? ==> r.value.rules == s.rules
    ensures r.Ok? && s.rules == AsCompiled ==> r.value.strayed == s.strayed
    ensures r.Ok? && !r.value.strayed ==> !s.strayed
    decreases fuel, inits, 0
  {
    if inits == [] then Ok(s)
    else
      var (v, s1) :- Eval(inits[0].init, s, f, fuel);
      if id >= |s1.records| then Err(Raised)
      else EvalFields(inits[1..], id, WriteRecord(s1, id, inits[0].name, v), f, fuel)
  }

  // ---------------------------------------------------------------- calls

  function NativeArity(n: Native): nat {
    if n == Input then 0 else 1
  }

  /** The variables a fresh frame starts with: `assigns` sets every assigned name
      to None, then the parameters are bound. */
  function InitialVars(params: seq<string>, body: seq<Stmt>, args: seq<Value>): map<string, Value>
    requires |params| == |args|
  {
    BindParams(params, args, map x | x in AssignsOfBlock(body) :: NoneV)
  }

  function BindParams(params: seq<string>, args: seq<Value>, m: map<string, Value>): map<string, Value>
    requires |params| == |args|
  {
    if params == [] then m
    else BindParams(params[1..], args[1..], m[params[0] := args[0]])
  }

  function CallFrame(parent: nat, params: seq<string>, body: seq<Stmt>, args: seq<Value>): Frame
    requires |params| == |args|
  {
    Frame(InitialVars(params, body, args), Some(parent), (set x | x in GlobalsOfBlock(body)))
  }

  /** `functionCall` after the arguments are evaluated. `input` and `intcast` are
      not part of this model: calling them fails. */
  ghost function Apply(fv: Value, args: seq<Value>, s: Store, fuel: nat): (r: Result<(Value, Store)>)
    requires fv.FunctionV? || fv.NativeV?
    ensures r.Ok? ==> r.value.1.rules == s.rules
    ensures r.Ok? && s.rules == AsCompiled ==> r.value.1.strayed == s.strayed
    ensures r.Ok? && !r.value.1.strayed ==> !s.strayed
    decreases fuel
  {
    match fv
    case NativeV(n) =>
      if |args| != NativeArity(n) || n != Print then Err(Raised)
      else
        var line :- Cast(args[0], s);
        Ok((NoneV, s.(frames := s.frames + [Frame(map["s" := args[0]], None, {})],
                      out := s.out + [line])))
    case FunctionV(parent, params, body) =>
      if |args| != |params| then Err(Raised)
      else
        var s1 := s.(frames := s.frames + [CallFrame(parent, params, body, args)]);
        var (flow, s2) :- ExecBlock(body, s1, |s.frames|, fuel);
        if flow.Returned? then Ok((flow.value, s2))
        else if s.rules == AsCompiled && FindReturnBlock(body) then Err(Raised)
        else Ok((NoneV, s2))
  }

  // ---------------------------------------------------------------- statements

  ghost function Exec(c: Stmt, s: Store, f: nat, fuel: nat): (r: Result<(Flow, Store)>)
    ensures r.Ok? ==> r.value.1.rules == s.rules
    ensures r.Ok? && s.rules == AsCompiled ==> r.value.1.strayed == s.strayed
    ensures r.Ok? && !r.value.1.strayed ==> !s.strayed
    decreases fuel, c, 1
  {
    match c
    case Global(_) => Ok((Normal, s))
    case AssignVar(_, _) => ExecAssignVar(c, s, f, fuel)
    case AssignField(_, _, _) => ExecAssignField(c, s, f, fuel)
    case AssignIndex(_, _, _) => ExecAssignIndex(c, s, f, fuel)
    case CallStmt(_) => ExecCallStmt(c, s, f, fuel)
    case If(_, _) => ExecIf(c, s, f, fuel)
    case IfElse(_, _, _) => ExecIfElse(c, s, f, fuel)
    case While(_, _) => ExecWhile(c, s, f, fuel)
    case Return(_) => ExecReturn(c, s, f, fuel)
  }

  ghost function ExecAssignVar(c: Stmt, s: Store, f: nat, fuel: nat): (r: Result<(Flow, Store)>)
    requires c.AssignVar?
    ensures r.Ok? ==> r.value.1.rules == s.rules
    ensures r.Ok? && s.rules == AsCompiled ==> r.value.1.strayed == s.strayed
    ensures r.Ok? && !r.value.1.strayed ==> !s.strayed
    decreases fuel, c, 0
  {
    var AssignVar(x, e) := c;
    if f >= |s.frames| then Err(Raised)
    else
      var target := LookupWrite(s, f, x);
      var (v, s1) :- Eval(e, s, f, fuel);
      if target >= |s1.frames| then Err(Raised)
      else Ok((Normal, WriteVar(s1, target, x, v)))
  }

  ghost function ExecAssignField(c: Stmt, s: Store, f: nat, fuel: nat): (r: Result<(Flow, Store)>)
    requires c.AssignField?
    ensures r.Ok? ==> r.value.1.rules == s.rules
    ensures r.Ok? && s.rules == AsCompiled ==> r.value.1.strayed == s.strayed
    ensures r.Ok? && !r.value.1.strayed ==> !s.strayed
    decreases fuel, c, 0
  {
    var AssignField(b, name, e) := c;
    var (bv, s1) :- Eval(b, s, f, fuel);
    if !bv.RecordV? then Err(Raised)
    else
      var (v, s2) :- Eval(e, s1, f, fuel);
      if bv.id >= |s2.records| then Err(Raised)
      else Ok((Normal, WriteRecord(s2, bv.id, name, v)))
  }

  ghost function ExecAssignIndex(c: Stmt, s: Store, f: nat, fuel: nat): (r: Result<(Flow, Store)>)
    requires c.AssignIndex?
    ensures r.Ok? ==> r.value.1.rules == s.rules
    ensures r.Ok? && s.rules == AsCompiled ==> r.value.1.strayed == s.strayed
    ensures r.Ok? && !r.value.1.strayed ==> !s.strayed
    decreases fuel, c, 0
  {
    var AssignIndex(b, i, e) := c;
    var (bv, s1) :- Eval(b, s, f, fuel);
    if !bv.RecordV? then Err(Raised)
    else
      var (iv, s2) :- Eval(i, s1, f, fuel);
      if s.rules == AsCompiled then
        var (v, s3) :- Eval(e, s2, f, fuel);
        var name :- Cast(iv, s3);
        if bv.id >= |s3.records| then Err(Raised) else Ok((Normal, WriteRecord(s3, bv.id, name, v)))
      else
        var name :- Cast(iv, s2);
        var (v, s3) :- Eval(e, s2, f, fuel);
        if bv.id >= |s3.records| then Err(Raised)
        else
          var s4 := WriteRecord(s3, bv.id, name, v);
          Ok((Normal, s4.(strayed := s4.strayed || Cast(iv, s3) != Ok(name))))
  }

  ghost function ExecCallStmt(c: Stmt, s: Store, f: nat, fuel: nat): (r: Result<(Flow, Store)>)
    requires c.CallStmt?
    ensures r.Ok? ==> r.value.1.rules == s.rules
    ensures r.Ok? && s.rules == AsCompiled ==> r.value.1.strayed == s.strayed
    ensures r.Ok? && !r.value.1.strayed ==> !s.strayed
    decreases fuel, c, 0
  {
    var CallStmt(e) := c;
    var (_, s1) :- Eval(e, s, f, fuel);
    Ok((Normal, s1))
  }

  ghost function ExecIf(c: Stmt, s: Store, f: nat, fuel: nat): (r: Result<(Flow, Store)>)
    requires c.If?
    ensures r.Ok? ==> r.value.1.rules == s.rules
    ensures r.Ok? && s.rules == AsCompiled ==> r.value.1.strayed == s.strayed
    ensures r.Ok? && !r.value.1.strayed ==> !s.strayed
    decreases fuel, c, 0
  {
    var If(cond, thn) := c;
    var (cv, s1) :- Eval(cond, s, f, fuel);
    if !cv.BoolV? then Err(Raised)
    else if cv.flag then ExecBlock(thn, s1, f, fuel)
    else Ok((Normal, s1))
  }

  ghost function ExecIfElse(c: Stmt, s: Store, f: nat, fuel: nat): (r: Result<(Flow, Store)>)
    requires c.IfElse?
    ensures r.Ok? ==> r.value.1.rules == s.rules
    ensures r.Ok? && s.rules == AsCompiled ==> r.value.1.strayed == s.strayed
    ensures r.Ok? && !r.value.1.strayed ==> !s.strayed
    decreases fuel, c, 0
  {
    var IfElse(cond, thn, els) := c;
    var (cv, s1) :- Eval(cond, s, f, fuel);
    if !cv.BoolV? then Err(Raised)
    else if cv.flag then ExecBlock(thn, s1, f, fuel)
    else ExecBlock(els, s1, f, fuel)
  }

  ghost function ExecWhile(c: Stmt, s: Store, f: nat, fuel: nat): (r: Result<(Flow, Store)>)
    requires c.While?
    ensures r.Ok? ==> r.value.1.rules == s.rules
    ensures r.Ok? && s.rules == AsCompiled ==> r.value.1.strayed == s.strayed
    ensures r.Ok? && !r.value.1.strayed ==> !s.strayed
    decreases fuel, c, 0
  {
    var While(cond, body) := c;
    var (cv, s1) :- Eval(cond, s, f, fuel);
    if !cv.BoolV? then Err(Raised)
    else if !cv.flag then Ok((Normal, s1))
    else
      var (flow, s2) :- ExecBlock(body, s1, f, fuel);
      if flow.Returned? then Ok((flow, s2))
      else if fuel == 0 then Err(OutOfFuel)
      else Exec(c, s2, f, fuel - 1)
  }

  ghost function ExecReturn(c: Stmt, s: Store, f: nat, fuel: nat): (r: Result<(Flow, Store)>)
    requires c.Return?
    ensures r.Ok? ==> r.value.1.rules == s.rules
    ensures r.Ok? && s.rules == AsCompiled ==> r.value.1.strayed == s.strayed
    ensures r.Ok? && !r.value.1.strayed ==> !s.strayed
    decreases fuel, c, 0
  {
    var Return(e) := c;
    var (v, s1) :- Eval(e, s, f, fuel);
    Ok((Returned(v), s1))
  }

  ghost function ExecBlock(cs: seq<Stmt>, s: Store, f: nat, fuel: nat): (r: Result<(Flow, Store)>)
    ensures r.Ok? ==> r.value.1.rules == s.rules
    ensures r.Ok? && s.rules == AsCompiled ==> r.value.1.strayed == s.strayed
    ensures r.Ok? && !r.value.1.strayed ==> !s.strayed
    decreases fuel, cs, 0
  {
    if cs == [] then Ok((Normal, s))
    else
      var (flow, s1) :- Exec(cs[0], s, f, fuel);
      if flow.Returned? then Ok((flow, s1))
      else ExecBlock(cs[1..], s1, f, fuel)
  }

  // ---------------------------------------------------------------- programs

  function InitialStore(rules: Rules): Store {
    Store(
      [Frame(map["print" := NativeV(Print), "intcast" := NativeV(Intcast), "input" := NativeV(Input)],
             None, {})],
      [], [], false, rules)
  }

  /** A whole program; a top-level `return` ends it. */
  ghost function RunBy(rules: Rules, program: seq<Stmt>, fuel: nat): Result<Store> {
    var (_, s) :- ExecBlock(program, InitialStore(rules), GLOBAL_FRAME, fuel);
    Ok(s)
  }

  ghost function Run(program: seq<Stmt>, fuel: nat): Result<Store> {
    RunBy(AsWritten, program, fuel)
  }
}
