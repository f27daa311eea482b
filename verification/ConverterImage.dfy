/** What the converter can build: every tree that has the shape its results have is
    the conversion of some concrete syntax. */
module ConverterImage {
  import opened Basics
  import opened Ast
  import opened Syntax
  import opened Converter
  import opened Grammar
  import opened SyntaxText

  // ---------------------------------------------------------------- string literals

  function RawOne(c: char): string {
    if c == '\n' then "\\n"
    else if c == '\t' then "\\t"
    else if c == '"' then "\\\""
    else if c == '\\' then "\\\\"
    else [c]
  }

  /** A literal's text with the given value. */
  function RawOf(s: string): string {
    if s == "" then "" else RawOne(s[0]) + RawOf(s[1..])
  }

  lemma {:induction false} DecodeRaw(s: string)
    ensures Decode(RawOf(s)) == Some(s)
  {
    if s != "" {
      var head, rest := RawOne(s[0]), RawOf(s[1..]);
      DecodeRaw(s[1..]);
      assert (head + rest)[|head|..] == rest;
      assert s == [s[0]] + s[1..];
    }
  }

  // ---------------------------------------------------------------- levels

  function Unit(u: UnitBody): UnitNode { UnitNode(false, u) }

  function OfProduct(p: ProductNode): BooleanNode { OfArithmetic(ArithmeticNode(p, [])) }
  function OfArithmetic(a: ArithmeticNode): BooleanNode { OfPredicate(false, Alone(a)) }
  function OfPredicate(negate: bool, p: PredicateNode): BooleanNode { OfConjunction(ConjunctionNode(BoolUnitNode(negate, p), [])) }
  function OfConjunction(c: ConjunctionNode): BooleanNode { BooleanNode(c, []) }

  function ProductOfUnit(u: UnitNode): ProductNode { ProductNode(u, []) }
  function ArithmeticOfUnit(u: UnitNode): ArithmeticNode { ArithmeticNode(ProductOfUnit(u), []) }
  function BoolUnitOfUnit(u: UnitNode): BoolUnitNode { BoolUnitNode(false, Alone(ArithmeticOfUnit(u))) }
  function ConjunctionOfUnit(u: UnitNode): ConjunctionNode { ConjunctionNode(BoolUnitOfUnit(u), []) }

  /** `u op v`, read at the operator's own level. */
  function Between(u: UnitNode, op: BinaryToken, v: UnitNode): BooleanNode {
    if IsProductOp(op) then OfProduct(ProductNode(u, [UnitLink(op, v)]))
    else if IsArithmeticOp(op) then OfArithmetic(ArithmeticNode(ProductOfUnit(u), [ProductLink(op, ProductOfUnit(v))]))
    else if IsComparison(op) then OfPredicate(false, Compared(ArithmeticOfUnit(u), op, ArithmeticOfUnit(v)))
    else if op == Amp then OfConjunction(ConjunctionNode(BoolUnitOfUnit(u), [BoolUnitLink(op, BoolUnitOfUnit(v))]))
    else BooleanNode(ConjunctionOfUnit(u), [ConjunctionLink(op, ConjunctionOfUnit(v))])
  }

  lemma {:induction false} LevelsConvert(u: UnitNode)
    ensures ConvertProduct(ProductOfUnit(u)) == ConvertUnit(u) && ConvertArithmetic(ArithmeticOfUnit(u)) == ConvertUnit(u)
    ensures ConvertBoolUnit(BoolUnitOfUnit(u)) == ConvertUnit(u) && ConvertConjunction(ConjunctionOfUnit(u)) == ConvertUnit(u)
  {
    hide ConvertUnit;
  }

  lemma {:induction false} UpConverts(p: ProductNode, a: ArithmeticNode, q: PredicateNode, c: ConjunctionNode)
    ensures ConvertBoolean(OfProduct(p)) == ConvertProduct(p)
    ensures ConvertBoolean(OfArithmetic(a)) == ConvertArithmetic(a)
    ensures ConvertBoolean(OfPredicate(false, q)) == ConvertPredicate(q)
    ensures ConvertBoolean(OfPredicate(true, q)) == Prefixed(true, NEG, ConvertPredicate(q))
    ensures ConvertBoolean(OfConjunction(c)) == ConvertConjunction(c)
  {
    hide ConvertProduct;
    assert ConvertArithmetic(ArithmeticNode(p, [])) == ConvertProduct(p);
    hide ConvertArithmetic, Prefixed;
    assert ConvertPredicate(Alone(a)) == ConvertArithmetic(a) && ConvertPredicate(Alone(ArithmeticNode(p, []))) == ConvertProduct(p);
    hide ConvertPredicate;
    PredicateConverts(false, q);
    PredicateConverts(true, q);
    PredicateConverts(false, Alone(a));
    PredicateConverts(false, Alone(ArithmeticNode(p, [])));
    NotPrefixed(NEG, ConvertPredicate(q));
    NotPrefixed(NEG, ConvertPredicate(Alone(a)));
    NotPrefixed(NEG, ConvertPredicate(Alone(ArithmeticNode(p, []))));
  }

  lemma {:induction false} NotPrefixed(op: Operator, x: Option<Expr>)
    ensures Prefixed(false, op, x) == x
  {}

  lemma {:induction false} PredicateConverts(negate: bool, q: PredicateNode)
    ensures ConvertBoolean(OfPredicate(negate, q)) == Prefixed(negate, NEG, ConvertPredicate(q))
  {
    hide ConvertPredicate, Prefixed;
    var b := BoolUnitNode(negate, q);
    assert ConvertConjunction(ConjunctionNode(b, [])) == ConvertBoolUnit(b);
  }

  lemma {:induction false} BetweenConverts(u: UnitNode, op: BinaryToken, v: UnitNode)
    ensures ConvertBoolean(Between(u, op, v)) == Combined(ConvertUnit(u), op, ConvertUnit(v))
  {
    hide ConvertUnit, Combined, ConvertBoolean;
    LevelsConvert(u);
    LevelsConvert(v);
    var p := ProductNode(u, [UnitLink(op, v)]);
    var a := ArithmeticNode(ProductOfUnit(u), [ProductLink(op, ProductOfUnit(v))]);
    var q := Compared(ArithmeticOfUnit(u), op, ArithmeticOfUnit(v));
    var c := ConjunctionNode(BoolUnitOfUnit(u), [BoolUnitLink(op, BoolUnitOfUnit(v))]);
    UpConverts(p, a, q, c);
    Links(u, op, v);
  }

  lemma {:induction false} Links(u: UnitNode, op: BinaryToken, v: UnitNode)
    ensures ConvertProduct(ProductNode(u, [UnitLink(op, v)])) == Combined(ConvertUnit(u), op, ConvertUnit(v))
    ensures ConvertArithmetic(ArithmeticNode(ProductOfUnit(u), [ProductLink(op, ProductOfUnit(v))]))
      == Combined(ConvertUnit(u), op, ConvertUnit(v))
    ensures ConvertConjunction(ConjunctionNode(BoolUnitOfUnit(u), [BoolUnitLink(op, BoolUnitOfUnit(v))]))
      == Combined(ConvertUnit(u), op, ConvertUnit(v))
    ensures ConvertBoolean(BooleanNode(ConjunctionOfUnit(u), [ConjunctionLink(op, ConjunctionOfUnit(v))]))
      == Combined(ConvertUnit(u), op, ConvertUnit(v))
    ensures ConvertPredicate(Compared(ArithmeticOfUnit(u), op, ArithmeticOfUnit(v))) == Combined(ConvertUnit(u), op, ConvertUnit(v))
  {
    hide ConvertUnit, Combined;
    LevelsConvert(u);
    LevelsConvert(v);
    var x := Combined(ConvertUnit(u), op, ConvertUnit(v));
    var l1, l2 := [UnitLink(op, v)], [ProductLink(op, ProductOfUnit(v))];
    var l3, l4 := [BoolUnitLink(op, BoolUnitOfUnit(v))], [ConjunctionLink(op, ConjunctionOfUnit(v))];
    assert l1[1..] == [] && l2[1..] == [] && l3[1..] == [] && l4[1..] == [];
    assert ConvertProductPrime(l1, ConvertUnit(u)) == ConvertProductPrime([], UnitApplied(ConvertUnit(u), l1[0])) == x;
    assert ConvertArithmeticPrime(l2, ConvertUnit(u)) == ConvertArithmeticPrime([], ProductApplied(ConvertUnit(u), l2[0])) == x;
    assert ConvertConjunctionPrime(l3, ConvertUnit(u)) == ConvertConjunctionPrime([], BoolUnitApplied(ConvertUnit(u), l3[0])) == x;
    assert ConvertBooleanPrime(l4, ConvertUnit(u)) == ConvertBooleanPrime([], ConjunctionApplied(ConvertUnit(u), l4[0])) == x;
  }

  lemma {:induction false} LevelsOk(u: UnitNode)
    requires UnitOk(u)
    ensures ProductOk(ProductOfUnit(u)) && ArithmeticOk(ArithmeticOfUnit(u))
    ensures BoolUnitOk(BoolUnitOfUnit(u)) && ConjunctionOk(ConjunctionOfUnit(u))
  {
    hide UnitOk;
    assert ProductOk(ProductOfUnit(u));
    assert ArithmeticOk(ArithmeticOfUnit(u));
    assert PredicateOk(Alone(ArithmeticOfUnit(u)));
  }

  lemma {:induction false} UpOk(negate: bool, p: ProductNode, a: ArithmeticNode, q: PredicateNode, c: ConjunctionNode)
    ensures ProductOk(p) ==> BooleanOk(OfProduct(p))
    ensures ArithmeticOk(a) ==> BooleanOk(OfArithmetic(a))
    ensures PredicateOk(q) ==> BooleanOk(OfPredicate(negate, q))
    ensures ConjunctionOk(c) ==> BooleanOk(OfConjunction(c))
  {
    hide ProductOk, UnitOk;
    assert ProductOk(p) ==> ArithmeticOk(ArithmeticNode(p, []));
    assert ArithmeticOk(ArithmeticNode(p, [])) ==> PredicateOk(Alone(ArithmeticNode(p, [])));
    assert ArithmeticOk(a) ==> PredicateOk(Alone(a));
    hide ArithmeticOk, PredicateOk;
    PredicateUp(false, Alone(ArithmeticNode(p, [])));
    PredicateUp(false, Alone(a));
    PredicateUp(negate, q);
  }

  lemma {:induction false} PredicateUp(negate: bool, q: PredicateNode)
    ensures PredicateOk(q) ==> BooleanOk(OfPredicate(negate, q))
  {
    hide PredicateOk;
    var b := BoolUnitNode(negate, q);
    assert PredicateOk(q) ==> BoolUnitOk(b) && ConjunctionOk(ConjunctionNode(b, []));
  }

  /** Each operator stands at its own level. */
  lemma {:induction false} BetweenOk(u: UnitNode, op: BinaryToken, v: UnitNode)
    requires UnitOk(u) && UnitOk(v)
    ensures BooleanOk(Between(u, op, v))
  {
    hide UnitOk, BooleanOk;
    LevelsOk(u);
    LevelsOk(v);
    var p := ProductNode(u, [UnitLink(op, v)]);
    var a := ArithmeticNode(ProductOfUnit(u), [ProductLink(op, ProductOfUnit(v))]);
    var q := Compared(ArithmeticOfUnit(u), op, ArithmeticOfUnit(v));
    var c := ConjunctionNode(BoolUnitOfUnit(u), [BoolUnitLink(op, BoolUnitOfUnit(v))]);
    UpOk(false, p, a, q, c);
    if IsProductOp(op) { FactorOfUnit(u, op, v); }
    else if IsArithmeticOp(op) { TermOfUnit(u, op, v); }
    else if IsComparison(op) { assert PredicateOk(q); }
    else if op == Amp { ConjunctOfUnit(u, op, v); }
    else { DisjunctOfUnit(u, op, v); }
  }

  lemma {:induction false} FactorOfUnit(u: UnitNode, op: BinaryToken, v: UnitNode)
    requires UnitOk(u) && UnitOk(v) && IsProductOp(op)
    ensures ProductOk(ProductNode(u, [UnitLink(op, v)]))
  {
    var links := [UnitLink(op, v)];
    assert FactorOk(links[0]);
    assert links[1..] == [] && FactorsOk(links[1..]);
    assert FactorsOk(links);
  }

  lemma {:induction false} TermOfUnit(u: UnitNode, op: BinaryToken, v: UnitNode)
    requires ProductOk(ProductOfUnit(u)) && ProductOk(ProductOfUnit(v)) && IsArithmeticOp(op)
    ensures ArithmeticOk(ArithmeticNode(ProductOfUnit(u), [ProductLink(op, ProductOfUnit(v))]))
  {
    hide ProductOk;
    var links := [ProductLink(op, ProductOfUnit(v))];
    assert TermOk(links[0]);
    assert links[1..] == [] && TermsOk(links[1..]);
    assert TermsOk(links);
  }

  lemma {:induction false} ConjunctOfUnit(u: UnitNode, op: BinaryToken, v: UnitNode)
    requires BoolUnitOk(BoolUnitOfUnit(u)) && BoolUnitOk(BoolUnitOfUnit(v)) && op == Amp
    ensures ConjunctionOk(ConjunctionNode(BoolUnitOfUnit(u), [BoolUnitLink(op, BoolUnitOfUnit(v))]))
  {
    hide BoolUnitOk;
    var links := [BoolUnitLink(op, BoolUnitOfUnit(v))];
    assert ConjunctOk(links[0]);
    assert links[1..] == [] && ConjunctsOk(links[1..]);
    assert ConjunctsOk(links);
  }

  lemma {:induction false} DisjunctOfUnit(u: UnitNode, op: BinaryToken, v: UnitNode)
    requires ConjunctionOk(ConjunctionOfUnit(u)) && ConjunctionOk(ConjunctionOfUnit(v)) && op == Bar
    ensures BooleanOk(BooleanNode(ConjunctionOfUnit(u), [ConjunctionLink(op, ConjunctionOfUnit(v))]))
  {
    hide ConjunctionOk;
    var links := [ConjunctionLink(op, ConjunctionOfUnit(v))];
    assert DisjunctOk(links[0]);
    assert links[1..] == [] && DisjunctsOk(links[1..]);
    assert DisjunctsOk(links);
  }

  /** A unit in parentheses or alone as a whole expression. */
  function Whole(u: UnitNode): BooleanNode { OfConjunction(ConjunctionOfUnit(u)) }

  lemma {:induction false} WholeConverts(u: UnitNode)
    ensures ConvertBoolean(Whole(u)) == ConvertUnit(u)
  {
    hide ConvertUnit, ConvertConjunction;
    LevelsConvert(u);
  }

  lemma {:induction false} WholeOk(u: UnitNode)
    requires UnitOk(u)
    ensures BooleanOk(Whole(u))
  {
    hide UnitOk, ConjunctionOk;
    LevelsOk(u);
  }

  // ---------------------------------------------------------------- expressions

  /** A left-hand side with further accesses. */
  lemma {:induction false} LhsFor(e: Expr, more: seq<LhsLink>) returns (n: LhsNode)
    requires IsLhs(e) && LinksOk(more)
    ensures LinksOk(n.inside) && ConvertLhs(n) == ConvertLhsPrime(more, Some(e))
    decreases e, 0
  {
    hide ConvertExpression, ConvertLhsPrime;
    match e
    case Var(x) => n := LhsNode(x, more);
    case Field(b, x) =>
      n := LhsFor(b, [FieldLink(x)] + more);
      OneMoreLink(FieldLink(x), more, Some(b));
    case Index(b, i) =>
      var index := ExpressionFor(i);
      n := LhsFor(b, [IndexLink(index)] + more);
      OneMoreLink(IndexLink(index), more, Some(b));
  }

  lemma {:induction false} OneMoreLink(link: LhsLink, more: seq<LhsLink>, left: Option<Expr>)
    requires left.Some? ==> IsLhs(left.value)
    ensures ConvertLhsPrime([link] + more, left) == ConvertLhsPrime(more, Accessed(left, link))
  {
    hide Accessed, IsLhs;
    assert ([link] + more)[1..] == more;
  }

  lemma {:induction false} CallFor(e: Expr) returns (n: CallNode)
    requires e.Call? && IsOperand(e)
    ensures CallOk(n) && ConvertCall(n) == Some(e)
    decreases e, 1
  {
    hide ConvertLhs, ConvertArguments;
    var lhs := LhsFor(e.target, []);
    assert ConvertLhsPrime([], Some(e.target)) == Some(e.target);
    var args := ArgumentsFor(e.args);
    n := CallNode(lhs, args);
  }

  lemma {:induction false} ArgumentsFor(es: seq<Expr>) returns (ns: seq<ExpressionNode>)
    requires AreExpressions(es)
    ensures ArgumentsOk(ns) && ConvertArguments(ns) == Some(es)
    decreases es, 0
  {
    hide ConvertExpression, IsExpression;
    if es == [] {
      ns := [];
    } else {
      var n := ExpressionFor(es[0]);
      var more := ArgumentsFor(es[1..]);
      ns := [n] + more;
      assert ns[1..] == more && es == [es[0]] + es[1..];
    }
  }

  lemma {:induction false} OperandFor(e: Expr) returns (n: UnitBody)
    requires IsOperand(e)
    ensures UnitBodyOk(n) && ConvertUnitBody(n) == Some(e)
    decreases e, 2
  {
    hide ConvertLhs, ConvertCall, ConvertBoolean;
    if IsLhs(e) {
      var lhs := LhsFor(e, []);
      assert ConvertLhsPrime([], Some(e)) == Some(e);
      n := LhsUnit(lhs);
    } else if e.Call? {
      var call := CallFor(e);
      n := CallUnit(call);
    } else if e.Binary? || e.Unary? {
      var b := OperationFor(e);
      n := ParenUnit(b);
    } else {
      n := ConstantUnit(ConstantFor(e));
      if e.StringConstant? { DecodeRaw(e.text); }
    }
  }

  function ConstantFor(e: Expr): Token
    requires IsOperand(e) && !IsLhs(e) && !e.Call? && !e.Binary? && !e.Unary?
  {
    match e
    case IntegerConstant(i) => Int(i)
    case StringConstant(t) => Str(RawOf(t))
    case BooleanConstant(b) => if b then TrueToken else FalseToken
    case NoneConstant => NoneToken
  }

  lemma {:induction false} OperationFor(e: Expr) returns (n: BooleanNode)
    requires (e.Binary? || e.Unary?) && IsOperand(e)
    ensures BooleanOk(n) && ConvertBoolean(n) == Some(e)
    decreases e, 1
  {
    hide ConvertUnitBody, ConvertBoolean, UnitBodyOk, BooleanOk, ArithmeticOk;
    if e.Binary? {
      var l := OperandFor(e.left);
      var r := OperandFor(e.right);
      BetweenConverts(Unit(l), OperatorToken(e.op), Unit(r));
      BetweenOk(Unit(l), OperatorToken(e.op), Unit(r));
      n := Between(Unit(l), OperatorToken(e.op), Unit(r));
    } else if e.uop == SUB {
      var x := OperandFor(e.operand);
      var u := UnitNode(true, x);
      WholeConverts(u);
      WholeOk(u);
      n := Whole(u);
    } else {
      var x := OperandFor(e.operand);
      var q := Alone(ArithmeticOfUnit(Unit(x)));
      LevelsConvert(Unit(x));
      PredicateConverts(true, q);
      LevelsOk(Unit(x));
      PredicateUp(true, q);
      n := OfPredicate(true, q);
    }
  }

  lemma {:induction false} ExpressionFor(e: Expr) returns (n: ExpressionNode)
    requires IsExpression(e)
    ensures ExpressionOk(n) && ConvertExpression(n) == Some(e)
    decreases e, 3
  {
    hide ConvertBoolean, ConvertUnit, ConvertFields, ConvertStatements;
    if e.Fun? {
      var body := StatementsFor(e.body);
      n := FunctionExpression(e.params, body);
    } else if e.Record? {
      var fields := FieldsFor(e.fields);
      n := RecordExpression(fields);
    } else {
      var u := OperandFor(e);
      UnitConverts(u);
      WholeConverts(Unit(u));
      WholeOk(Unit(u));
      n := BooleanExpression(Whole(Unit(u)));
    }
  }

  lemma {:induction false} UnitConverts(u: UnitBody)
    ensures ConvertUnit(Unit(u)) == ConvertUnitBody(u)
  {
    hide ConvertUnitBody;
  }

  lemma {:induction false} FieldsFor(fs: seq<FieldInit>) returns (ns: seq<FieldNode>)
    requires AreFields(fs)
    ensures FieldsOk(ns) && ConvertFields(ns) == Some(fs)
    decreases fs, 0
  {
    hide ConvertExpression, IsExpression;
    if fs == [] {
      ns := [];
    } else {
      var n := ExpressionFor(fs[0].init);
      var more := FieldsFor(fs[1..]);
      ns := [FieldNode(fs[0].name, n)] + more;
      assert ns[1..] == more && fs == [fs[0]] + fs[1..];
    }
  }

  // ---------------------------------------------------------------- statements

  lemma {:induction false} Assignment(lhs: LhsNode, rhs: ExpressionNode, l: Expr, e: Expr)
    requires IsLhs(l) && ConvertLhs(lhs) == Some(l) && ConvertExpression(rhs) == Some(e)
    ensures ConvertStatement(AssignmentNode(lhs, rhs)) == Some(Assigned(l, e))
  {
    hide ConvertLhs, ConvertExpression;
  }

  lemma {:induction false} NameConverts(x: string)
    ensures ConvertLhs(LhsNode(x, [])) == Some(Var(x))
  {}

  lemma {:induction false} StatementFor(s: Stmt) returns (n: StatementNode)
    requires IsStatement(s)
    ensures StatementOk(n) && ConvertStatement(n) == Some(s)
    decreases s, 1
  {
    hide ConvertLhs, ConvertExpression, ConvertCall, ConvertStatements, IsExpression, AreStatements;
    match s
    case Global(x) => n := GlobalNode(x);
    case AssignVar(x, e) =>
      var rhs := ExpressionFor(e);
      var lhs := LhsNode(x, []);
      NameConverts(x);
      Assignment(lhs, rhs, Var(x), e);
      n := AssignmentNode(lhs, rhs);
    case AssignField(b, x, e) =>
      var rhs := ExpressionFor(e);
      var lhs := LhsFor(b, [FieldLink(x)] + []);
      OneMoreLink(FieldLink(x), [], Some(b));
      Assignment(lhs, rhs, Field(b, x), e);
      n := AssignmentNode(lhs, rhs);
    case AssignIndex(b, i, e) =>
      var rhs := ExpressionFor(e);
      var index := ExpressionFor(i);
      var lhs := LhsFor(b, [IndexLink(index)] + []);
      OneMoreLink(IndexLink(index), [], Some(b));
      Assignment(lhs, rhs, Index(b, i), e);
      n := AssignmentNode(lhs, rhs);
    case CallStmt(e) =>
      var call := CallFor(e);
      n := CallStatementNode(call);
    case If(c, t) =>
      var cond := ExpressionFor(c);
      var thn := StatementsFor(t);
      n := IfNode(cond, thn);
    case IfElse(c, t, e) =>
      var cond := ExpressionFor(c);
      var thn := StatementsFor(t);
      var els := StatementsFor(e);
      n := IfElseNode(cond, thn, els);
    case While(c, b) =>
      var cond := ExpressionFor(c);
      var body := StatementsFor(b);
      n := WhileNode(cond, body);
    case Return(e) =>
      var result := ExpressionFor(e);
      n := ReturnNode(result);
  }

  lemma {:induction false} StatementsFor(ss: seq<Stmt>) returns (ns: seq<StatementNode>)
    requires AreStatements(ss)
    ensures StatementsOk(ns) && ConvertStatements(ns) == Some(ss)
    decreases ss, 0
  {
    hide ConvertStatement, IsStatement;
    if ss == [] {
      ns := [];
    } else {
      var n := StatementFor(ss[0]);
      var more := StatementsFor(ss[1..]);
      ns := [n] + more;
      assert ns[1..] == more && ss == [ss[0]] + ss[1..];
    }
  }

  /** The shape is exactly the image. */
  lemma {:induction false} ImageIsExact(e: Expr, ss: seq<Stmt>)
    ensures IsExpression(e) <==> exists n :: ConvertExpression(n) == Some(e)
    ensures AreStatements(ss) <==> exists ns :: ConvertStatements(ns) == Some(ss)
  {
    hide ConvertExpression, ConvertStatements, IsExpression, AreStatements, ExpressionOk, StatementsOk;
    if IsExpression(e) { var n := ExpressionFor(e); }
    if AreStatements(ss) { var ns := StatementsFor(ss); }
  }

  // ---------------------------------------------------------------- from text to tree

  /** Parsing and converting some program text gives these statements. */
  ghost predicate Written(ts: Tokens, ss: seq<Stmt>) {
    var r := ProgramOf(ts);
    r.Got? && ConvertStatements(r.node) == Some(ss)
  }

  /** The programs that can be written: the trees of the image, and no others. */
  lemma {:induction false} ProgramsAreExactly(ss: seq<Stmt>)
    ensures AreStatements(ss) <==> exists ts :: Written(ts, ss)
  {
    hide ConvertStatements, AreStatements, StatementsOk, SpellStatements, ProgramOf;
    if AreStatements(ss) {
      var ns := StatementsFor(ss);
      ProgramExactly(SpellStatements(ns, []), ns, []);
      assert Written(SpellStatements(ns, []), ss);
    }
  }

  /** The text of a function literal becomes the literal with those parameters, in
      that order, and the body its statements become. */
  lemma {:induction false} LiteralBecomes(xs: seq<string>, body: seq<StatementNode>, rest: Tokens)
    requires StatementsOk(body)
    ensures var r := ExpressionOf(Then(KwFun, Then(LParen, SpellParameters(xs, Then(RParen, SpellBlock(body, rest))))));
      && r.Got? && r.rest == rest
      && ConvertExpression(r.node)
        == match ConvertStatements(body) { case None => None case Some(b) => Some(Fun(xs, b)) }
  {
    hide ExpressionOf, SpellParameters, SpellBlock, StatementsOk, Then, ConvertStatements;
    LiteralExactly(Then(KwFun, Then(LParen, SpellParameters(xs, Then(RParen, SpellBlock(body, rest))))), xs, body, rest);
  }
}
