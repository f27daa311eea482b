/** The abstract syntax both implementations start from, and the syntactic
    passes (`globals`, `assigns`, `findReturn`) that walk a function body
    without entering nested function literals. */
module Ast {
  import opened Basics

  datatype Operator = PLUS | SUB | MUL | DIV | AND | OR | NEG | GT | LT | GEQ | LEQ | EQ

  datatype Expr =
    | Var(name: string)
    | IntegerConstant(value: int)
    | StringConstant(text: string)
    | NoneConstant
    | BooleanConstant(flag: bool)
    | Fun(params: seq<string>, body: seq<Stmt>)
    | Binary(left: Expr, op: Operator, right: Expr)
    | Unary(uop: Operator, operand: Expr)
    | Field(base: Expr, field: string)
    | Index(base: Expr, index: Expr)
    | Call(target: Expr, args: seq<Expr>)
    | Record(fields: seq<FieldInit>)

  datatype FieldInit = FieldInit(name: string, init: Expr)

  /** A block is a sequence of statements. Assignments carry one of the three
      left-hand sides the grammar allows. */
  datatype Stmt =
    | Global(name: string)
    | AssignVar(name: string, rhs: Expr)
    | AssignField(base: Expr, field: string, rhs: Expr)
    | AssignIndex(base: Expr, index: Expr, rhs: Expr)
    | CallStmt(call: Expr)
    | If(cond: Expr, thenPart: seq<Stmt>)
    | IfElse(cond: Expr, thenPart: seq<Stmt>, elsePart: seq<Stmt>)
    | While(cond: Expr, body: seq<Stmt>)
    | Return(result: Expr)

  // ------------------------------------------------- syntactic passes over a body

  /** Names declared `global` in a statement, in the order the pass meets them. */
  function GlobalsOf(s: Stmt): seq<string> {
    match s
    case Global(x) => [x]
    case If(_, t) => GlobalsOfBlock(t)
    case IfElse(_, t, e) => GlobalsOfBlock(t) + GlobalsOfBlock(e)
    case While(_, b) => GlobalsOfBlock(b)
    case _ => []
  }

  function GlobalsOfBlock(ss: seq<Stmt>): seq<string> {
    if ss == [] then [] else GlobalsOf(ss[0]) + GlobalsOfBlock(ss[1..])
  }

  /** Names assigned by a simple assignment, in the order the pass meets them. */
  function AssignsOf(s: Stmt): seq<string> {
    match s
    case AssignVar(x, _) => [x]
    case If(_, t) => AssignsOfBlock(t)
    case IfElse(_, t, e) => AssignsOfBlock(t) + AssignsOfBlock(e)
    case While(_, b) => AssignsOfBlock(b)
    case _ => []
  }

  function AssignsOfBlock(ss: seq<Stmt>): seq<string> {
    if ss == [] then [] else AssignsOf(ss[0]) + AssignsOfBlock(ss[1..])
  }

  /** The compiler's return analysis: a loop counts as returning when its body does. */
  predicate FindReturn(s: Stmt) {
    match s
    case Return(_) => true
    case IfElse(_, t, e) => FindReturnBlock(t) && FindReturnBlock(e)
    case While(_, b) => FindReturnBlock(b)
    case _ => false
  }

  predicate FindReturnBlock(ss: seq<Stmt>) {
    ss != [] && (FindReturn(ss[0]) || FindReturnBlock(ss[1..]))
  }

  /** The return analysis without the loop case. */
  predicate MustReturn(s: Stmt) {
    match s
    case Return(_) => true
    case IfElse(_, t, e) => MustReturnBlock(t) && MustReturnBlock(e)
    case _ => false
  }

  predicate MustReturnBlock(ss: seq<Stmt>) {
    ss != [] && (MustReturn(ss[0]) || MustReturnBlock(ss[1..]))
  }

  // ------------------------------------------------- side conditions of the compiler

  /** No call is executed when the expression is evaluated. */
  predicate CallFree(e: Expr) {
    match e
    case Binary(l, _, r) => CallFree(l) && CallFree(r)
    case Unary(_, x) => CallFree(x)
    case Field(b, _) => CallFree(b)
    case Index(b, i) => CallFree(b) && CallFree(i)
    case Call(_, _) => false
    case Record(fs) => CallFreeFields(fs)
    case _ => true
  }

  predicate CallFreeFields(fs: seq<FieldInit>) {
    fs == [] || (CallFree(fs[0].init) && CallFreeFields(fs[1..]))
  }

  /** A literal, or operators over literals: its value depends on nothing. */
  predicate Fixed(e: Expr) {
    match e
    case IntegerConstant(_) => true
    case StringConstant(_) => true
    case NoneConstant => true
    case BooleanConstant(_) => true
    case Binary(l, _, r) => Fixed(l) && Fixed(r)
    case Unary(_, x) => Fixed(x)
    case _ => false
  }

  /** What running an operand can do: nothing, and its value is fixed; read the
      state only; or call a function. */
  datatype Kind = Settled | Quiet | Calling

  function KindOf(e: Expr): Kind {
    if Fixed(e) then Settled else if CallFree(e) then Quiet else Calling
  }

  const ALL_PAIRS: set<(Kind, Kind)> := {
    (Settled, Settled), (Settled, Quiet), (Settled, Calling),
    (Quiet, Settled), (Quiet, Quiet), (Quiet, Calling),
    (Calling, Settled), (Calling, Quiet), (Calling, Calling)}

  /** Operands whose order of evaluation cannot be observed. */
  const COMMUTING: set<(Kind, Kind)> := {
    (Settled, Settled), (Settled, Quiet), (Settled, Calling),
    (Quiet, Settled), (Quiet, Quiet), (Calling, Settled)}

  /** Conditions a program may be asked to meet: no body's only promise of a return
      is a loop; operands of `<` and `<=`, which the compiler evaluates from the
      right, are of one of these pairs of kinds; the names a function declares
      global are new to it (`Scoping.Fresh`); the index of a store renders the same
      before and after its right-hand side (`Scoping.Indexed`); every name is bound or
      global when the compiler gets to it (`NameResolution.Unresolved`). */
  datatype Conditions = Conditions(returning: bool, pairs: set<(Kind, Kind)>, scoped: bool, indexed: bool, resolved: bool)

  const SHAPE := Conditions(false, ALL_PAIRS, false, false, false)
  const RETURNS := Conditions(true, ALL_PAIRS, false, false, false)
  const RESOLVED := Conditions(false, ALL_PAIRS, false, false, true)
  const MEANING := Conditions(true, COMMUTING, false, false, true)
  const ALL := Conditions(true, COMMUTING, true, true, true)

  /** Operators of the right arity, distinct parameter names, and the first two of
      the conditions asked for, in the expression and all function literals in it. */
  predicate WellFormed(e: Expr, c: Conditions) {
    match e
    case Var(_) => true
    case IntegerConstant(_) => true
    case StringConstant(_) => true
    case NoneConstant => true
    case BooleanConstant(_) => true
    case Fun(ps, b) =>
      && (forall i, j :: 0 <= i < j < |ps| ==> ps[i] != ps[j])
      && (c.returning && FindReturnBlock(b) ==> MustReturnBlock(b))
      && WellFormedBlock(b, c)
    case Binary(l, op, r) =>
      && WellFormed(l, c) && WellFormed(r, c)
      && op != NEG
      && (op == LT || op == LEQ ==> (KindOf(l), KindOf(r)) in c.pairs)
    case Unary(op, x) => WellFormed(x, c) && (op == SUB || op == NEG)
    case Field(b, _) => WellFormed(b, c)
    case Index(b, i) => WellFormed(b, c) && WellFormed(i, c)
    case Call(t, es) => WellFormed(t, c) && WellFormedArgs(es, c)
    case Record(fs) => WellFormedFields(fs, c)
  }

  predicate WellFormedArgs(es: seq<Expr>, c: Conditions) {
    es == [] || (WellFormed(es[0], c) && WellFormedArgs(es[1..], c))
  }

  predicate WellFormedFields(fs: seq<FieldInit>, c: Conditions) {
    fs == [] || (WellFormed(fs[0].init, c) && WellFormedFields(fs[1..], c))
  }

  predicate WellFormedStmt(s: Stmt, c: Conditions) {
    match s
    case Global(_) => true
    case AssignVar(_, e) => WellFormed(e, c)
    case AssignField(b, _, e) => WellFormed(b, c) && WellFormed(e, c)
    case AssignIndex(b, i, e) => WellFormed(b, c) && WellFormed(i, c) && WellFormed(e, c)
    case CallStmt(e) => WellFormed(e, c)
    case If(d, t) => WellFormed(d, c) && WellFormedBlock(t, c)
    case IfElse(d, t, e) => WellFormed(d, c) && WellFormedBlock(t, c) && WellFormedBlock(e, c)
    case While(d, b) => WellFormed(d, c) && WellFormedBlock(b, c)
    case Return(e) => WellFormed(e, c)
  }

  predicate WellFormedBlock(ss: seq<Stmt>, c: Conditions) {
    ss == [] || (WellFormedStmt(ss[0], c) && WellFormedBlock(ss[1..], c))
  }

  // ---------------------------------------------------------------- asking for less

  ghost predicate Weaker(c: Conditions, d: Conditions) {
    && (c.returning ==> d.returning) && d.pairs <= c.pairs
    && (c.scoped ==> d.scoped) && (c.indexed ==> d.indexed) && (c.resolved ==> d.resolved)
  }

  lemma {:induction false} LessAsked(e: Expr, c: Conditions, d: Conditions)
    requires WellFormed(e, d) && Weaker(c, d)
    ensures WellFormed(e, c)
    decreases e
  {
    match e
    case Fun(_, b) => LessAskedOfBlock(b, c, d);
    case Binary(l, _, r) => LessAsked(l, c, d); LessAsked(r, c, d);
    case Unary(_, x) => LessAsked(x, c, d);
    case Field(b, _) => LessAsked(b, c, d);
    case Index(b, i) => LessAsked(b, c, d); LessAsked(i, c, d);
    case Call(t, es) => LessAsked(t, c, d); LessAskedOfArgs(es, c, d);
    case Record(fs) => LessAskedOfFields(fs, c, d);
    case _ =>
  }

  lemma {:induction false} LessAskedOfArgs(es: seq<Expr>, c: Conditions, d: Conditions)
    requires WellFormedArgs(es, d) && Weaker(c, d)
    ensures WellFormedArgs(es, c)
    decreases es
  {
    if es != [] { LessAsked(es[0], c, d); LessAskedOfArgs(es[1..], c, d); }
  }

  lemma {:induction false} LessAskedOfFields(fs: seq<FieldInit>, c: Conditions, d: Conditions)
    requires WellFormedFields(fs, d) && Weaker(c, d)
    ensures WellFormedFields(fs, c)
    decreases fs
  {
    if fs != [] { LessAsked(fs[0].init, c, d); LessAskedOfFields(fs[1..], c, d); }
  }

  lemma {:induction false} LessAskedOfStmt(s: Stmt, c: Conditions, d: Conditions)
    requires WellFormedStmt(s, d) && Weaker(c, d)
    ensures WellFormedStmt(s, c)
    decreases s
  {
    match s
    case Global(_) =>
    case AssignVar(_, e) => LessAsked(e, c, d);
    case AssignField(b, _, e) => LessAsked(b, c, d); LessAsked(e, c, d);
    case AssignIndex(b, i, e) => LessAsked(b, c, d); LessAsked(i, c, d); LessAsked(e, c, d);
    case CallStmt(e) => LessAsked(e, c, d);
    case If(g, t) => LessAsked(g, c, d); LessAskedOfBlock(t, c, d);
    case IfElse(g, t, e) => LessAsked(g, c, d); LessAskedOfBlock(t, c, d); LessAskedOfBlock(e, c, d);
    case While(g, b) => LessAsked(g, c, d); LessAskedOfBlock(b, c, d);
    case Return(e) => LessAsked(e, c, d);
  }

  lemma {:induction false} LessAskedOfBlock(ss: seq<Stmt>, c: Conditions, d: Conditions)
    requires WellFormedBlock(ss, d) && Weaker(c, d)
    ensures WellFormedBlock(ss, c)
    decreases ss
  {
    if ss != [] { LessAskedOfStmt(ss[0], c, d); LessAskedOfBlock(ss[1..], c, d); }
  }

  // ---------------------------------------------------------------- sizes

  ghost function Size(e: Expr): nat {
    match e
    case Fun(_, b) => 1 + SizeBlock(b)
    case Binary(l, _, r) => 1 + Size(l) + Size(r)
    case Unary(_, x) => 1 + Size(x)
    case Field(b, _) => 1 + Size(b)
    case Index(b, i) => 1 + Size(b) + Size(i)
    case Call(t, args) => 1 + Size(t) + SizeArgs(args)
    case Record(fs) => 1 + SizeFields(fs)
    case _ => 1
  }

  ghost function SizeArgs(es: seq<Expr>): nat {
    if es == [] then 0 else 1 + Size(es[0]) + SizeArgs(es[1..])
  }

  ghost function SizeFields(fs: seq<FieldInit>): nat {
    if fs == [] then 0 else 1 + Size(fs[0].init) + SizeFields(fs[1..])
  }

  ghost function SizeStmt(s: Stmt): nat {
    match s
    case Global(_) => 1
    case AssignVar(_, e) => 2 + Size(e)
    case AssignField(b, _, e) => 2 + Size(b) + Size(e)
    case AssignIndex(b, i, e) => 2 + Size(b) + Size(i) + Size(e)
    case CallStmt(e) => 1 + Size(e)
    case If(c, t) => 1 + Size(c) + SizeBlock(t)
    case IfElse(c, t, e) => 1 + Size(c) + SizeBlock(t) + SizeBlock(e)
    case While(c, b) => 1 + Size(c) + SizeBlock(b)
    case Return(e) => 1 + Size(e)
  }

  ghost function SizeBlock(ss: seq<Stmt>): nat {
    if ss == [] then 0 else 1 + SizeStmt(ss[0]) + SizeBlock(ss[1..])
  }

  lemma {:induction false} ArgSmaller(es: seq<Expr>, i: nat)
    requires i < |es|
    ensures Size(es[i]) < SizeArgs(es)
    decreases i
  {
    if i > 0 { ArgSmaller(es[1..], i - 1); }
  }

  lemma {:induction false} FieldSmaller(fs: seq<FieldInit>, i: nat)
    requires i < |fs|
    ensures Size(fs[i].init) < SizeFields(fs)
    decreases i
  {
    if i > 0 { FieldSmaller(fs[1..], i - 1); }
  }

  lemma {:induction false} StmtSmaller(ss: seq<Stmt>, i: nat)
    requires i < |ss|
    ensures SizeStmt(ss[i]) < SizeBlock(ss)
    decreases i
  {
    if i > 0 { StmtSmaller(ss[1..], i - 1); }
  }
}
