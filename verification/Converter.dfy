/** The converter from concrete to abstract syntax. Operator chains are flat lists
    in the concrete tree; converting them accumulates a left-nested tree. `None`
    stands for the exception an unknown escape in a string literal raises. */
module Converter {
  import opened Basics
  import opened Ast
  import opened Syntax

  // ---------------------------------------------------------------- string literals

  predicate IsEscape(c: char) { c == 'n' || c == 't' || c == '\\' || c == '"' }

  function Escaped(c: char): char {
    if c == 'n' then '\n' else if c == 't' then '\t' else c
  }

  function Prepend(c: char, s: Option<string>): Option<string> {
    match s
    case None => None
    case Some(t) => Some([c] + t)
  }

  /** The text between the quotes of a literal, with its escapes replaced. */
  function Decode(s: string): Option<string> {
    if s == "" then Some("")
    else if s[0] == '\\' && |s| > 1 then
      if IsEscape(s[1]) then Prepend(Escaped(s[1]), Decode(s[2..])) else None
    else Prepend(s[0], Decode(s[1..]))
  }

  function Join(done: string, todo: Option<string>): Option<string> {
    match todo
    case None => None
    case Some(t) => Some(done + t)
  }

  lemma {:induction false} DecodeStep(s: string, i: nat, done: string)
    requires i < |s|
    ensures Join(done, Decode(s[i..])) ==
      if s[i] == '\\' && i + 1 < |s| then
        if IsEscape(s[i + 1]) then Join(done + [Escaped(s[i + 1])], Decode(s[i + 2..])) else None
      else Join(done + [s[i]], Decode(s[i + 1..]))
  {
    assert s[i..][1..] == s[i + 1..];
    if i + 1 < |s| { assert s[i..][2..] == s[i + 2..]; }
    var rest := if s[i] == '\\' && i + 1 < |s| then Decode(s[i + 2..]) else Decode(s[i + 1..]);
    if rest.Some? {
      assert done + ([Escaped(s[if i + 1 < |s| then i + 1 else i])] + rest.value)
        == (done + [Escaped(s[if i + 1 < |s| then i + 1 else i])]) + rest.value;
      assert done + ([s[i]] + rest.value) == (done + [s[i]]) + rest.value;
    }
  }

  method DecodeLoop(val: string) returns (r: Option<string>)
    ensures r == Decode(val)
  {
    hide Decode;
    var result := "";
    var i := 0;
    assert val[0..] == val;
    NothingBefore(val);
    while i < |val|
      invariant i <= |val| && Decode(val) == Join(result, Decode(val[i..]))
    {
      DecodeStep(val, i, result);
      if val[i] == '\\' && i + 1 < |val| {
        match val[i + 1] {
          case 'n' => result := result + ['\n'];
          case 't' => result := result + ['\t'];
          case '\\' => result := result + ['\\'];
          case '"' => result := result + ['"'];
          case _ => return None;
        }
        i := i + 1;
      } else {
        result := result + [val[i]];
      }
      i := i + 1;
    }
    NothingLeft(result, val[i..]);
    r := Some(result);
  }

  lemma {:induction false} NothingBefore(s: string)
    ensures Decode(s) == Join("", Decode(s))
  {
    if Decode(s).Some? { assert "" + Decode(s).value == Decode(s).value; }
  }

  lemma {:induction false} NothingLeft(done: string, s: string)
    requires s == ""
    ensures Join(done, Decode(s)) == Some(done)
  {
    assert done + "" == done;
  }

  lemma {:induction false} DecodePlain(s: string)
    requires '\\' !in s
    ensures Decode(s) == Some(s)
  {
    if s != "" {
      assert s[0] in s && s == [s[0]] + s[1..];
      DecodePlain(s[1..]);
    }
  }

  // ---------------------------------------------------------------- the converter's image

  /** A variable with field and index accesses. */
  predicate IsLhs(e: Expr)
    decreases e, 0
  {
    match e
    case Var(_) => true
    case Field(b, _) => IsLhs(b)
    case Index(b, i) => IsLhs(b) && IsExpression(i)
    case _ => false
  }

  /** What can stand beside an operator: no record and no function literal. */
  predicate IsOperand(e: Expr)
    decreases e, 1
  {
    match e
    case Var(_) => true
    case IntegerConstant(i) => i >= 0
    case Field(_, _) => IsLhs(e)
    case Index(_, _) => IsLhs(e)
    case Call(t, args) => IsLhs(t) && AreExpressions(args)
    case Binary(l, op, r) => IsOperand(l) && op != NEG && IsOperand(r)
    case Unary(op, x) => (op == SUB || op == NEG) && IsOperand(x)
    case Fun(_, _) => false
    case Record(_) => false
    case _ => true
  }

  predicate IsExpression(e: Expr)
    decreases e, 2
  {
    match e
    case Fun(_, b) => AreStatements(b)
    case Record(fs) => AreFields(fs)
    case _ => IsOperand(e)
  }

  predicate AreExpressions(es: seq<Expr>)
    decreases es, 0
  {
    es == [] || (IsExpression(es[0]) && AreExpressions(es[1..]))
  }

  predicate AreFields(fs: seq<FieldInit>)
    decreases fs, 0
  {
    fs == [] || (IsExpression(fs[0].init) && AreFields(fs[1..]))
  }

  predicate IsStatement(s: Stmt)
    decreases s, 0
  {
    match s
    case Global(_) => true
    case AssignVar(_, e) => IsExpression(e)
    case AssignField(b, _, e) => IsLhs(b) && IsExpression(e)
    case AssignIndex(b, i, e) => IsLhs(b) && IsExpression(i) && IsExpression(e)
    case CallStmt(e) => e.Call? && IsOperand(e)
    case If(c, t) => IsExpression(c) && AreStatements(t)
    case IfElse(c, t, e) => IsExpression(c) && AreStatements(t) && AreStatements(e)
    case While(c, b) => IsExpression(c) && AreStatements(b)
    case Return(e) => IsExpression(e)
  }

  predicate AreStatements(ss: seq<Stmt>)
    decreases ss, 0
  {
    ss == [] || (IsStatement(ss[0]) && AreStatements(ss[1..]))
  }

  // ---------------------------------------------------------------- nodes

  /** `convert_operator` on the operators the grammar puts between operands. */
  function OperatorOf(t: BinaryToken): (op: Operator)
    ensures op != NEG
  {
    match t
    case Plus => PLUS case Minus => SUB case Star => MUL case Slash => DIV
    case Bar => OR case Amp => AND
    case Less => LT case Greater => GT case LessEqual => LEQ case GreaterEqual => GEQ
    case _ => EQ
  }

  function Combined(l: Option<Expr>, op: BinaryToken, r: Option<Expr>): Option<Expr> {
    if l.Some? && r.Some? then Some(Binary(l.value, OperatorOf(op), r.value)) else None
  }

  function Prefixed(prefix: bool, op: Operator, x: Option<Expr>): Option<Expr> {
    if prefix && x.Some? then Some(Unary(op, x.value)) else x
  }

  function Consed<T>(x: Option<T>, xs: Option<seq<T>>): Option<seq<T>> {
    if x.Some? && xs.Some? then Some([x.value] + xs.value) else None
  }

  function ConvertConstant(t: Token): (r: Option<Expr>)
    ensures r.Some? ==> IsOperand(r.value)
  {
    match t
    case Int(i) => Some(IntegerConstant(i))
    case Str(raw) => if Decode(raw).Some? then Some(StringConstant(Decode(raw).value)) else None
    case NoneToken => Some(NoneConstant)
    case TrueToken => Some(BooleanConstant(true))
    case FalseToken => Some(BooleanConstant(false))
    case _ => None
  }

  function Accessed(left: Option<Expr>, link: LhsLink): (r: Option<Expr>)
    requires left.Some? ==> IsLhs(left.value)
    ensures r.Some? ==> IsLhs(r.value)
    decreases link
  {
    match link
    case FieldLink(x) => if left.Some? then Some(Field(left.value, x)) else None
    case IndexLink(i) =>
      var index := ConvertExpression(i);
      if left.Some? && index.Some? then Some(Index(left.value, index.value)) else None
  }

  function ConvertLhsPrime(links: seq<LhsLink>, left: Option<Expr>): (r: Option<Expr>)
    requires left.Some? ==> IsLhs(left.value)
    ensures r.Some? ==> IsLhs(r.value)
    decreases links
  {
    if links == [] then left else ConvertLhsPrime(links[1..], Accessed(left, links[0]))
  }

  function ConvertLhs(n: LhsNode): (r: Option<Expr>)
    ensures r.Some? ==> IsLhs(r.value)
  {
    ConvertLhsPrime(n.inside, Some(Var(n.name)))
  }

  function ConvertArguments(ns: seq<ExpressionNode>): (r: Option<seq<Expr>>)
    ensures r.Some? ==> AreExpressions(r.value)
    decreases ns
  {
    if ns == [] then Some([]) else Consed(ConvertExpression(ns[0]), ConvertArguments(ns[1..]))
  }

  function ConvertCall(n: CallNode): (r: Option<Expr>)
    ensures r.Some? ==> r.value.Call? && IsOperand(r.value)
  {
    var target, args := ConvertLhs(n.lhs), ConvertArguments(n.arguments);
    if target.Some? && args.Some? then Some(Expr.Call(target.value, args.value)) else None
  }

  function ConvertUnitBody(n: UnitBody): (r: Option<Expr>)
    ensures r.Some? ==> IsOperand(r.value)
  {
    match n
    case LhsUnit(lhs) => ConvertLhs(lhs)
    case ConstantUnit(t) => ConvertConstant(t)
    case CallUnit(call) => ConvertCall(call)
    case ParenUnit(b) => ConvertBoolean(b)
  }

  function ConvertUnit(n: UnitNode): (r: Option<Expr>)
    ensures r.Some? ==> IsOperand(r.value)
  {
    Prefixed(n.minus, SUB, ConvertUnitBody(n.body))
  }

  function UnitApplied(left: Option<Expr>, link: UnitLink): (r: Option<Expr>)
    requires left.Some? ==> IsOperand(left.value)
    ensures r.Some? ==> IsOperand(r.value)
    decreases link
  {
    Combined(left, link.op, ConvertUnit(link.node))
  }

  function ConvertProductPrime(links: seq<UnitLink>, left: Option<Expr>): (r: Option<Expr>)
    requires left.Some? ==> IsOperand(left.value)
    ensures r.Some? ==> IsOperand(r.value)
    decreases links
  {
    if links == [] then left
    else ConvertProductPrime(links[1..], UnitApplied(left, links[0]))
  }

  function ConvertProduct(n: ProductNode): (r: Option<Expr>)
    ensures r.Some? ==> IsOperand(r.value)
  {
    ConvertProductPrime(n.rest, ConvertUnit(n.unit))
  }

  function ProductApplied(left: Option<Expr>, link: ProductLink): (r: Option<Expr>)
    requires left.Some? ==> IsOperand(left.value)
    ensures r.Some? ==> IsOperand(r.value)
    decreases link
  {
    Combined(left, link.op, ConvertProduct(link.node))
  }

  function ConvertArithmeticPrime(links: seq<ProductLink>, left: Option<Expr>): (r: Option<Expr>)
    requires left.Some? ==> IsOperand(left.value)
    ensures r.Some? ==> IsOperand(r.value)
    decreases links
  {
    if links == [] then left
    else ConvertArithmeticPrime(links[1..], ProductApplied(left, links[0]))
  }

  function ConvertArithmetic(n: ArithmeticNode): (r: Option<Expr>)
    ensures r.Some? ==> IsOperand(r.value)
  {
    ConvertArithmeticPrime(n.rest, ConvertProduct(n.product))
  }

  function ConvertPredicate(n: PredicateNode): (r: Option<Expr>)
    ensures r.Some? ==> IsOperand(r.value)
  {
    match n
    case Alone(a) => ConvertArithmetic(a)
    case Compared(a, op, b) => Combined(ConvertArithmetic(a), op, ConvertArithmetic(b))
  }

  function ConvertBoolUnit(n: BoolUnitNode): (r: Option<Expr>)
    ensures r.Some? ==> IsOperand(r.value)
  {
    Prefixed(n.negate, NEG, ConvertPredicate(n.body))
  }

  function BoolUnitApplied(left: Option<Expr>, link: BoolUnitLink): (r: Option<Expr>)
    requires left.Some? ==> IsOperand(left.value)
    ensures r.Some? ==> IsOperand(r.value)
    decreases link
  {
    Combined(left, link.op, ConvertBoolUnit(link.node))
  }

  function ConvertConjunctionPrime(links: seq<BoolUnitLink>, left: Option<Expr>): (r: Option<Expr>)
    requires left.Some? ==> IsOperand(left.value)
    ensures r.Some? ==> IsOperand(r.value)
    decreases links
  {
    if links == [] then left
    else ConvertConjunctionPrime(links[1..], BoolUnitApplied(left, links[0]))
  }

  function ConvertConjunction(n: ConjunctionNode): (r: Option<Expr>)
    ensures r.Some? ==> IsOperand(r.value)
  {
    ConvertConjunctionPrime(n.rest, ConvertBoolUnit(n.unit))
  }

  function ConjunctionApplied(left: Option<Expr>, link: ConjunctionLink): (r: Option<Expr>)
    requires left.Some? ==> IsOperand(left.value)
    ensures r.Some? ==> IsOperand(r.value)
    decreases link
  {
    Combined(left, link.op, ConvertConjunction(link.node))
  }

  function ConvertBooleanPrime(links: seq<ConjunctionLink>, left: Option<Expr>): (r: Option<Expr>)
    requires left.Some? ==> IsOperand(left.value)
    ensures r.Some? ==> IsOperand(r.value)
    decreases links
  {
    if links == [] then left
    else ConvertBooleanPrime(links[1..], ConjunctionApplied(left, links[0]))
  }

  function ConvertBoolean(n: BooleanNode): (r: Option<Expr>)
    ensures r.Some? ==> IsOperand(r.value)
  {
    ConvertBooleanPrime(n.rest, ConvertConjunction(n.conjunction))
  }

  function ConvertFields(ns: seq<FieldNode>): (r: Option<seq<FieldInit>>)
    ensures r.Some? ==> AreFields(r.value)
    decreases ns
  {
    if ns == [] then Some([])
    else
      var e := ConvertExpression(ns[0].value);
      Consed(if e.Some? then Some(FieldInit(ns[0].name, e.value)) else None, ConvertFields(ns[1..]))
  }

  function ConvertExpression(n: ExpressionNode): (r: Option<Expr>)
    ensures r.Some? ==> IsExpression(r.value)
  {
    match n
    case FunctionExpression(params, body) =>
      var b := ConvertStatements(body);
      if b.Some? then Some(Fun(params, b.value)) else None
    case BooleanExpression(b) => ConvertBoolean(b)
    case RecordExpression(fields) =>
      var fs := ConvertFields(fields);
      if fs.Some? then Some(Expr.Record(fs.value)) else None
  }

  /** The assignment to a left-hand side. */
  function Assigned(l: Expr, e: Expr): Stmt
    requires l.Var? || l.Field? || l.Index?
  {
    match l
    case Var(x) => AssignVar(x, e)
    case Field(b, x) => AssignField(b, x, e)
    case Index(b, i) => AssignIndex(b, i, e)
  }

  function ConvertStatement(n: StatementNode): (r: Option<Stmt>)
    ensures r.Some? ==> IsStatement(r.value)
  {
    match n
    case GlobalNode(x) => Some(Stmt.Global(x))
    case AssignmentNode(target, rhs) =>
      var l, e := ConvertLhs(target), ConvertExpression(rhs);
      if l.Some? && e.Some? then Some(Assigned(l.value, e.value)) else None
    case CallStatementNode(call) =>
      var c := ConvertCall(call);
      if c.Some? then Some(CallStmt(c.value)) else None
    case IfNode(cond, thn) =>
      var c, t := ConvertExpression(cond), ConvertStatements(thn);
      if c.Some? && t.Some? then Some(Stmt.If(c.value, t.value)) else None
    case IfElseNode(cond, thn, els) =>
      var c, t, e := ConvertExpression(cond), ConvertStatements(thn), ConvertStatements(els);
      if c.Some? && t.Some? && e.Some? then Some(IfElse(c.value, t.value, e.value)) else None
    case WhileNode(cond, body) =>
      var c, b := ConvertExpression(cond), ConvertStatements(body);
      if c.Some? && b.Some? then Some(Stmt.While(c.value, b.value)) else None
    case ReturnNode(result) =>
      var e := ConvertExpression(result);
      if e.Some? then Some(Stmt.Return(e.value)) else None
  }

  function ConvertStatements(ns: seq<StatementNode>): (r: Option<seq<Stmt>>)
    ensures r.Some? ==> AreStatements(r.value)
    decreases ns
  {
    if ns == [] then Some([]) else Consed(ConvertStatement(ns[0]), ConvertStatements(ns[1..]))
  }

  // ---------------------------------------------------------------- chains nest to the left

  /** A chain of operators of one level: the last operator is the root, and everything
      before it its left operand. */
  lemma {:induction false} ProductLeftNested(links: seq<UnitLink>, last: UnitLink, left: Option<Expr>)
    requires left.Some? ==> IsOperand(left.value)
    ensures ConvertProductPrime(links + [last], left)
      == Combined(ConvertProductPrime(links, left), last.op, ConvertUnit(last.node))
    decreases links
  {
    if links != [] {
      assert (links + [last])[1..] == links[1..] + [last];
      ProductLeftNested(links[1..], last, UnitApplied(left, links[0]));
    } else {
      assert (links + [last])[1..] == [];
    }
  }

  lemma {:induction false} ArithmeticLeftNested(links: seq<ProductLink>, last: ProductLink, left: Option<Expr>)
    requires left.Some? ==> IsOperand(left.value)
    ensures ConvertArithmeticPrime(links + [last], left)
      == Combined(ConvertArithmeticPrime(links, left), last.op, ConvertProduct(last.node))
    decreases links
  {
    if links != [] {
      assert (links + [last])[1..] == links[1..] + [last];
      ArithmeticLeftNested(links[1..], last, ProductApplied(left, links[0]));
    } else {
      assert (links + [last])[1..] == [];
    }
  }

  lemma {:induction false} ConjunctionLeftNested(links: seq<BoolUnitLink>, last: BoolUnitLink, left: Option<Expr>)
    requires left.Some? ==> IsOperand(left.value)
    ensures ConvertConjunctionPrime(links + [last], left)
      == Combined(ConvertConjunctionPrime(links, left), last.op, ConvertBoolUnit(last.node))
    decreases links
  {
    if links != [] {
      assert (links + [last])[1..] == links[1..] + [last];
      ConjunctionLeftNested(links[1..], last, BoolUnitApplied(left, links[0]));
    } else {
      assert (links + [last])[1..] == [];
    }
  }

  lemma {:induction false} BooleanLeftNested(links: seq<ConjunctionLink>, last: ConjunctionLink, left: Option<Expr>)
    requires left.Some? ==> IsOperand(left.value)
    ensures ConvertBooleanPrime(links + [last], left)
      == Combined(ConvertBooleanPrime(links, left), last.op, ConvertConjunction(last.node))
    decreases links
  {
    if links != [] {
      assert (links + [last])[1..] == links[1..] + [last];
      BooleanLeftNested(links[1..], last, ConjunctionApplied(left, links[0]));
    } else {
      assert (links + [last])[1..] == [];
    }
  }

  /** Accesses nest the same way. */
  lemma {:induction false} LhsLeftNested(links: seq<LhsLink>, last: LhsLink, left: Option<Expr>)
    requires left.Some? ==> IsLhs(left.value)
    ensures ConvertLhsPrime(links + [last], left) == Accessed(ConvertLhsPrime(links, left), last)
    decreases links
  {
    if links != [] {
      assert (links + [last])[1..] == links[1..] + [last];
      LhsLeftNested(links[1..], last, Accessed(left, links[0]));
    } else {
      assert (links + [last])[1..] == [];
    }
  }
}
