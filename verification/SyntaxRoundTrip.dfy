/** Printing, parsing and converting gives the block back. */
module SyntaxRoundTrip {
  import opened Basics
  import opened Ast
  import opened Syntax
  import opened Converter
  import opened SyntaxText

  /** What can follow an expression. */
  predicate Stops(ts: Tokens) {
    var t := Head(ts);
    t == RParen || t == RBracket || t == Comma || t == Semicolon
  }

  predicate Continues(ts: Tokens) {
    var t := Head(ts);
    t == Dot || t == LBracket || t == LParen
  }

  // ---------------------------------------------------------------- precedence levels

  /** A lone unit is an expression of every level whose operator does not follow. */
  lemma {:induction false} Climb(ts: Tokens, u: UnitNode, rest: Tokens)
    requires UnitOf(ts) == Got(u, rest) && Head(ts) != Bang
    ensures var p := ProductNode(u, []);
      !IsProductOp(Head(rest)) ==>
        && ProductOf(ts) == Got(p, rest) && ConvertProduct(p) == ConvertUnit(u)
        && (!IsArithmeticOp(Head(rest)) ==>
              var a := ArithmeticNode(p, []);
              && ArithmeticOf(ts) == Got(a, rest) && ConvertArithmetic(a) == ConvertUnit(u)
              && (!IsComparison(Head(rest)) ==>
                    var b := BoolUnitNode(false, Alone(a));
                    && BoolUnitOf(ts) == Got(b, rest) && ConvertBoolUnit(b) == ConvertUnit(u)
                    && (Head(rest) != Amp ==>
                          var c := ConjunctionNode(b, []);
                          && ConjunctionOf(ts) == Got(c, rest) && ConvertConjunction(c) == ConvertUnit(u))))
  {
    hide UnitOf, ConvertUnit;
  }

  lemma {:induction false} FromConjunction(ts: Tokens, c: ConjunctionNode, rest: Tokens) returns (n: BooleanNode)
    requires ConjunctionOf(ts) == Got(c, rest) && Head(rest) != Bar
    ensures BooleanOf(ts) == Got(n, rest) && ConvertBoolean(n) == ConvertConjunction(c)
  {
    hide ConjunctionOf, ConvertConjunction;
    n := BooleanNode(c, []);
  }

  lemma {:induction false} FromBoolUnit(ts: Tokens, b: BoolUnitNode, rest: Tokens) returns (n: BooleanNode)
    requires BoolUnitOf(ts) == Got(b, rest) && Head(rest) != Amp && Head(rest) != Bar
    ensures BooleanOf(ts) == Got(n, rest) && ConvertBoolean(n) == ConvertBoolUnit(b)
  {
    hide BoolUnitOf, ConvertBoolUnit;
    n := FromConjunction(ts, ConjunctionNode(b, []), rest);
  }

  lemma {:induction false} FromPredicate(ts: Tokens, p: PredicateNode, rest: Tokens) returns (n: BooleanNode)
    requires PredicateOf(ts) == Got(p, rest) && Head(ts) != Bang && Head(rest) != Amp && Head(rest) != Bar
    ensures BooleanOf(ts) == Got(n, rest) && ConvertBoolean(n) == ConvertPredicate(p)
  {
    hide PredicateOf, ConvertPredicate;
    n := FromBoolUnit(ts, BoolUnitNode(false, p), rest);
  }

  lemma {:induction false} FromArithmetic(ts: Tokens, a: ArithmeticNode, rest: Tokens) returns (n: BooleanNode)
    requires ArithmeticOf(ts) == Got(a, rest) && Head(ts) != Bang
    requires !IsComparison(Head(rest)) && Head(rest) != Amp && Head(rest) != Bar
    ensures BooleanOf(ts) == Got(n, rest) && ConvertBoolean(n) == ConvertArithmetic(a)
  {
    hide ArithmeticOf, ConvertArithmetic;
    n := FromPredicate(ts, Alone(a), rest);
  }

  lemma {:induction false} FromProduct(ts: Tokens, p: ProductNode, rest: Tokens) returns (n: BooleanNode)
    requires ProductOf(ts) == Got(p, rest) && Head(ts) != Bang
    requires !IsArithmeticOp(Head(rest)) && !IsComparison(Head(rest)) && Head(rest) != Amp && Head(rest) != Bar
    ensures BooleanOf(ts) == Got(n, rest) && ConvertBoolean(n) == ConvertProduct(p)
  {
    hide ProductOf, ConvertProduct;
    n := FromArithmetic(ts, ArithmeticNode(p, []), rest);
  }

  /** Each operator between two units is read at its own level. */
  lemma {:induction false} AtItsLevel(ts: Tokens, u1: UnitNode, mid: Tokens, u2: UnitNode, rest: Tokens) returns (n: BooleanNode)
    requires mid != [] && Head(rest) == RParen && Head(ts) != Bang && Head(mid[1..]) != Bang
    requires IsProductOp(mid[0]) || IsArithmeticOp(mid[0]) || IsComparison(mid[0]) || mid[0] == Amp || mid[0] == Bar
    requires UnitOf(ts) == Got(u1, mid) && UnitOf(mid[1..]) == Got(u2, rest)
    ensures BooleanOf(ts) == Got(n, rest)
    ensures ConvertBoolean(n) == Combined(ConvertUnit(u1), mid[0], ConvertUnit(u2))
  {
    hide UnitOf, ConvertUnit, BooleanOf, ConvertBoolean, Combined;
    if IsProductOp(mid[0]) { n := Product(ts, u1, mid, u2, rest); }
    else if IsArithmeticOp(mid[0]) { n := Arithmetic(ts, u1, mid, u2, rest); }
    else if IsComparison(mid[0]) { n := Comparison(ts, u1, mid, u2, rest); }
    else if mid[0] == Amp { n := Conjunction(ts, u1, mid, u2, rest); }
    else { n := Disjunction(ts, u1, mid, u2, rest); }
  }

  lemma {:induction false} CombinedOperator(op: Operator, l: Option<Expr>, r: Option<Expr>)
    requires op != NEG
    ensures var t := OperatorToken(op);
      && (IsProductOp(t) || IsArithmeticOp(t) || IsComparison(t) || t == Amp || t == Bar)
      && (l.Some? && r.Some? ==> Combined(l, t, r) == Some(Binary(l.value, op, r.value)))
  {}

  /** Two units with an operator between them and a parenthesis behind are read at
      the operator's level, whichever it is. */
  lemma {:induction false} Operation(ts: Tokens, u1: UnitNode, op: Operator, more: Tokens, u2: UnitNode, rest: Tokens) returns (n: BooleanNode)
    requires op != NEG && Head(rest) == RParen && Head(ts) != Bang && Head(more) != Bang
    requires UnitOf(ts) == Got(u1, [OperatorToken(op)] + more) && UnitOf(more) == Got(u2, rest)
    ensures BooleanOf(ts) == Got(n, rest)
    ensures ConvertUnit(u1).Some? && ConvertUnit(u2).Some? ==>
      ConvertBoolean(n) == Some(Binary(ConvertUnit(u1).value, op, ConvertUnit(u2).value))
  {
    hide UnitOf, ConvertUnit, BooleanOf, ConvertBoolean, OperatorToken, Combined, IsProductOp, IsArithmeticOp, IsComparison;
    var mid, t := [OperatorToken(op)] + more, OperatorToken(op);
    assert mid[1..] == more && Head(mid) == t;
    CombinedOperator(op, ConvertUnit(u1), ConvertUnit(u2));
    n := AtItsLevel(ts, u1, mid, u2, rest);
  }

  lemma {:induction false} OneUnitLink(mid: Tokens, u: UnitNode, rest: Tokens, left: Option<Expr>)
    requires mid != [] && IsProductOp(mid[0]) && UnitOf(mid[1..]) == Got(u, rest) && !IsProductOp(Head(rest))
    requires left.Some? ==> IsOperand(left.value)
    ensures ProductPrimeOf(mid) == Got([UnitLink(mid[0], u)], rest)
    ensures ConvertProductPrime([UnitLink(mid[0], u)], left) == Combined(left, mid[0], ConvertUnit(u))
  {
    hide UnitOf, ConvertUnit, IsOperand;
    var links := [UnitLink(mid[0], u)];
    assert links + [] == links && links[1..] == [];
  }

  lemma {:induction false} OneProductLink(mid: Tokens, p: ProductNode, rest: Tokens, left: Option<Expr>)
    requires mid != [] && IsArithmeticOp(mid[0]) && ProductOf(mid[1..]) == Got(p, rest) && !IsArithmeticOp(Head(rest))
    requires left.Some? ==> IsOperand(left.value)
    ensures ArithmeticPrimeOf(mid) == Got([ProductLink(mid[0], p)], rest)
    ensures ConvertArithmeticPrime([ProductLink(mid[0], p)], left) == Combined(left, mid[0], ConvertProduct(p))
  {
    hide ProductOf, ConvertProduct, IsOperand;
    var links := [ProductLink(mid[0], p)];
    assert links + [] == links && links[1..] == [];
  }

  lemma {:induction false} OneBoolUnitLink(mid: Tokens, b: BoolUnitNode, rest: Tokens, left: Option<Expr>)
    requires mid != [] && mid[0] == Amp && BoolUnitOf(mid[1..]) == Got(b, rest) && Head(rest) != Amp
    requires left.Some? ==> IsOperand(left.value)
    ensures ConjunctionPrimeOf(mid) == Got([BoolUnitLink(Amp, b)], rest)
    ensures ConvertConjunctionPrime([BoolUnitLink(Amp, b)], left) == Combined(left, Amp, ConvertBoolUnit(b))
  {
    hide BoolUnitOf, ConvertBoolUnit, IsOperand;
    var links := [BoolUnitLink(Amp, b)];
    assert links + [] == links && links[1..] == [];
  }

  lemma {:induction false} OneConjunctionLink(mid: Tokens, c: ConjunctionNode, rest: Tokens, left: Option<Expr>)
    requires mid != [] && mid[0] == Bar && ConjunctionOf(mid[1..]) == Got(c, rest) && Head(rest) != Bar
    requires left.Some? ==> IsOperand(left.value)
    ensures BooleanPrimeOf(mid) == Got([ConjunctionLink(Bar, c)], rest)
    ensures ConvertBooleanPrime([ConjunctionLink(Bar, c)], left) == Combined(left, Bar, ConvertConjunction(c))
  {
    hide ConjunctionOf, ConvertConjunction, IsOperand;
    var links := [ConjunctionLink(Bar, c)];
    assert links + [] == links && links[1..] == [];
  }

  lemma {:induction false} Product(ts: Tokens, u1: UnitNode, mid: Tokens, u2: UnitNode, rest: Tokens) returns (n: BooleanNode)
    requires mid != [] && IsProductOp(mid[0]) && Head(rest) == RParen && Head(ts) != Bang
    requires UnitOf(ts) == Got(u1, mid) && UnitOf(mid[1..]) == Got(u2, rest)
    ensures BooleanOf(ts) == Got(n, rest)
    ensures ConvertBoolean(n) == Combined(ConvertUnit(u1), mid[0], ConvertUnit(u2))
  {
    hide UnitOf, ConvertUnit, ProductPrimeOf, ConvertProductPrime, IsOperand, Combined;
    OneUnitLink(mid, u2, rest, ConvertUnit(u1));
    n := FromProduct(ts, ProductNode(u1, [UnitLink(mid[0], u2)]), rest);
  }

  lemma {:induction false} Arithmetic(ts: Tokens, u1: UnitNode, mid: Tokens, u2: UnitNode, rest: Tokens) returns (n: BooleanNode)
    requires mid != [] && IsArithmeticOp(mid[0]) && Head(rest) == RParen && Head(ts) != Bang && Head(mid[1..]) != Bang
    requires UnitOf(ts) == Got(u1, mid) && UnitOf(mid[1..]) == Got(u2, rest)
    ensures BooleanOf(ts) == Got(n, rest)
    ensures ConvertBoolean(n) == Combined(ConvertUnit(u1), mid[0], ConvertUnit(u2))
  {
    hide UnitOf, ConvertUnit, ProductOf, ConvertProduct, ArithmeticPrimeOf, ConvertArithmeticPrime, IsOperand, Combined;
    Climb(ts, u1, mid);
    Climb(mid[1..], u2, rest);
    var p1, p2 := ProductNode(u1, []), ProductNode(u2, []);
    OneProductLink(mid, p2, rest, ConvertProduct(p1));
    n := FromArithmetic(ts, ArithmeticNode(p1, [ProductLink(mid[0], p2)]), rest);
  }

  lemma {:induction false} Comparison(ts: Tokens, u1: UnitNode, mid: Tokens, u2: UnitNode, rest: Tokens) returns (n: BooleanNode)
    requires mid != [] && IsComparison(mid[0]) && Head(rest) == RParen && Head(ts) != Bang && Head(mid[1..]) != Bang
    requires UnitOf(ts) == Got(u1, mid) && UnitOf(mid[1..]) == Got(u2, rest)
    ensures BooleanOf(ts) == Got(n, rest)
    ensures ConvertBoolean(n) == Combined(ConvertUnit(u1), mid[0], ConvertUnit(u2))
  {
    hide UnitOf, ConvertUnit, ArithmeticOf, ConvertArithmetic, IsOperand, Combined;
    Climb(ts, u1, mid);
    Climb(mid[1..], u2, rest);
    var a1, a2 := ArithmeticNode(ProductNode(u1, []), []), ArithmeticNode(ProductNode(u2, []), []);
    n := FromPredicate(ts, Compared(a1, mid[0], a2), rest);
  }

  function AsBoolUnit(u: UnitNode): BoolUnitNode {
    BoolUnitNode(false, Alone(ArithmeticNode(ProductNode(u, []), [])))
  }

  lemma {:induction false} Conjunction(ts: Tokens, u1: UnitNode, mid: Tokens, u2: UnitNode, rest: Tokens) returns (n: BooleanNode)
    requires mid != [] && mid[0] == Amp && Head(rest) == RParen && Head(ts) != Bang && Head(mid[1..]) != Bang
    requires UnitOf(ts) == Got(u1, mid) && UnitOf(mid[1..]) == Got(u2, rest)
    ensures BooleanOf(ts) == Got(n, rest)
    ensures ConvertBoolean(n) == Combined(ConvertUnit(u1), Amp, ConvertUnit(u2))
  {
    hide UnitOf, ConvertUnit, BoolUnitOf, ConvertBoolUnit, ConjunctionPrimeOf, ConvertConjunctionPrime, IsOperand, Combined;
    Climb(ts, u1, mid);
    Climb(mid[1..], u2, rest);
    var b1, b2 := AsBoolUnit(u1), AsBoolUnit(u2);
    OneBoolUnitLink(mid, b2, rest, ConvertBoolUnit(b1));
    n := FromConjunction(ts, ConjunctionNode(b1, [BoolUnitLink(Amp, b2)]), rest);
  }

  lemma {:induction false} Disjunction(ts: Tokens, u1: UnitNode, mid: Tokens, u2: UnitNode, rest: Tokens) returns (n: BooleanNode)
    requires mid != [] && mid[0] == Bar && Head(rest) == RParen && Head(ts) != Bang && Head(mid[1..]) != Bang
    requires UnitOf(ts) == Got(u1, mid) && UnitOf(mid[1..]) == Got(u2, rest)
    ensures BooleanOf(ts) == Got(n, rest)
    ensures ConvertBoolean(n) == Combined(ConvertUnit(u1), Bar, ConvertUnit(u2))
  {
    hide UnitOf, ConvertUnit, ConjunctionOf, ConvertConjunction, BooleanPrimeOf, ConvertBooleanPrime, IsOperand, Combined, ArithmeticOf,
      PredicateOf, ConvertArithmetic;
    Climb(ts, u1, mid);
    Climb(mid[1..], u2, rest);
    var c1, c2 := ConjunctionNode(AsBoolUnit(u1), []), ConjunctionNode(AsBoolUnit(u2), []);
    OneConjunctionLink(mid, c2, rest, ConvertConjunction(c1));
    n := BooleanNode(c1, [ConjunctionLink(Bar, c2)]);
  }

  /** A unit no operator follows. */
  lemma {:induction false} FromUnit(ts: Tokens, u: UnitNode, rest: Tokens) returns (n: BooleanNode)
    requires UnitOf(ts) == Got(u, rest) && Head(ts) != Bang && Stops(rest)
    ensures BooleanOf(ts) == Got(n, rest) && ConvertBoolean(n) == ConvertUnit(u)
  {
    hide UnitOf, ConvertUnit, ConjunctionOf, ConvertConjunction, BooleanOf, ConvertBoolean;
    Climb(ts, u, rest);
    n := FromConjunction(ts, ConjunctionNode(AsBoolUnit(u), []), rest);
  }

  // ---------------------------------------------------------------- expressions

  predicate StartsOperand(t: Token) {
    t.Name? || t.Int? || t.Str? || t == TrueToken || t == FalseToken || t == LParen
  }

  /** The first token of a printed operand. */
  lemma {:induction false} OperandStart(e: Expr)
    requires IsOperand(e) && Plain(e)
    ensures Print(e) != [] && StartsOperand(Print(e)[0])
    ensures IsLhs(e) || e.Call? ==> Print(e)[0].Name?
    decreases e
  {
    hide PrintArgs, PrintFields, PrintBlock, PrintParams;
    match e
    case Field(b, _) => LhsIsOperand(b); OperandStart(b);
    case Index(b, _) => LhsIsOperand(b); OperandStart(b);
    case Call(t, _) => LhsIsOperand(t); OperandStart(t);
    case _ =>
  }

  lemma {:induction false} OperandHead(e: Expr, rest: Tokens)
    requires IsOperand(e) && Plain(e)
    ensures Print(e) != [] && StartsOperand(Head(Print(e) + rest))
    ensures IsLhs(e) || e.Call? ==> Head(Print(e) + rest).Name?
  {
    hide Print, IsOperand, Plain, IsLhs;
    OperandStart(e);
  }

  lemma {:induction false} LhsIsOperand(e: Expr)
    requires IsLhs(e)
    ensures IsOperand(e)
  {}

  lemma {:induction false} ExpressionHead(e: Expr, rest: Tokens)
    requires IsExpression(e) && Plain(e)
    ensures Print(e) != [] && Head(Print(e) + rest) != RParen && Head(Print(e) + rest) != KwElse
  {
    hide PrintFields, PrintArgs, PrintParams, PrintBlock;
    if !e.Record? && !e.Fun? { OperandHead(e, rest); }
  }

  lemma {:induction false} FieldTail(x: string, more: seq<LhsLink>, tail: Tokens, rest: Tokens)
    requires LhsPrimeOf(tail) == Got(more, rest)
    ensures LhsPrimeOf([Dot, Name(x)] + tail) == Got([FieldLink(x)] + more, rest)
  {
    hide ExpressionOf;
    var ts := [Dot, Name(x)] + tail;
    assert ts[1..] == [Name(x)] + tail && ts[1..][1..] == tail;
  }

  lemma {:induction false} IndexTail(index: Tokens, n: ExpressionNode, more: seq<LhsLink>, tail: Tokens, rest: Tokens)
    requires LhsPrimeOf(tail) == Got(more, rest) && ExpressionOf(index + ([RBracket] + tail)) == Got(n, [RBracket] + tail)
    ensures LhsPrimeOf([LBracket] + (index + ([RBracket] + tail))) == Got([IndexLink(n)] + more, rest)
  {
    hide ExpressionOf;
    var ts := [LBracket] + (index + ([RBracket] + tail));
    assert ts[1..] == index + ([RBracket] + tail) && ([RBracket] + tail)[1..] == tail;
  }

  lemma {:induction false} FirstLink(link: LhsLink, more: seq<LhsLink>, left: Option<Expr>)
    requires left.Some? ==> IsLhs(left.value)
    ensures ConvertLhsPrime([link] + more, left) == ConvertLhsPrime(more, Accessed(left, link))
  {
    hide Accessed, IsLhs;
    assert ([link] + more)[1..] == more;
  }

  lemma {:induction false} FieldTokens(b: Tokens, x: string, tail: Tokens)
    ensures (b + [Dot, Name(x)]) + tail == b + ([Dot, Name(x)] + tail)
  {}

  lemma {:induction false} IndexTokens(b: Tokens, i: Tokens, tail: Tokens)
    ensures (b + ([LBracket] + (i + [RBracket]))) + tail == b + ([LBracket] + (i + ([RBracket] + tail)))
  {}

  lemma {:induction false} NameRead(x: string, more: seq<LhsLink>, tail: Tokens, rest: Tokens)
    requires LhsPrimeOf(tail) == Got(more, rest)
    ensures LhsOf([Name(x)] + tail) == Got(LhsNode(x, more), rest)
    ensures ConvertLhs(LhsNode(x, more)) == ConvertLhsPrime(more, Some(Var(x)))
  {
    hide LhsPrimeOf, ConvertLhsPrime;
    assert ([Name(x)] + tail)[1..] == tail;
  }

  /** A left-hand side followed by `tail`, whose first accesses are `more`. */
  lemma {:induction false} LhsRead(e: Expr, more: seq<LhsLink>, tail: Tokens, rest: Tokens) returns (n: LhsNode)
    requires IsLhs(e) && Clean(e) && LhsPrimeOf(tail) == Got(more, rest)
    ensures LhsOf(Print(e) + tail) == Got(n, rest) && ConvertLhs(n) == ConvertLhsPrime(more, Some(Returned(e)))
    decreases e, 0
  {
    hide ExpressionOf, ConvertExpression, LhsOf, ConvertLhs, PrintArgs, PrintFields, LhsPrimeOf, ConvertLhsPrime, ReturnedFields,
      ReturnedArgs, CleanFields, CleanArgs;
    match e
    case Var(x) =>
      NameRead(x, more, tail, rest);
      n := LhsNode(x, more);
    case Field(b, x) =>
      FieldTail(x, more, tail, rest);
      FieldTokens(Print(b), x, tail);
      n := LhsRead(b, [FieldLink(x)] + more, [Dot, Name(x)] + tail, rest);
      FirstLink(FieldLink(x), more, Some(Returned(b)));
    case Index(b, i) =>
      var ni := ExpressionRead(i, [RBracket] + tail);
      IndexTail(Print(i), ni, more, tail, rest);
      IndexTokens(Print(b), Print(i), tail);
      n := LhsRead(b, [IndexLink(ni)] + more, [LBracket] + (Print(i) + ([RBracket] + tail)), rest);
      FirstLink(IndexLink(ni), more, Some(Returned(b)));
  }

  lemma {:induction false} CallRead(e: Expr, rest: Tokens) returns (n: CallNode)
    requires e.Call? && IsOperand(e) && Clean(e)
    ensures CallOf(Print(e) + rest) == Got(n, rest) && ConvertCall(n) == Some(Returned(e))
    decreases e, 0
  {
    hide ExpressionOf, ConvertExpression, PrintArgs, ArgumentsOf, LhsOf, ConvertLhs;
    var tail := [LParen] + (PrintArgs(e.args) + ([RParen] + rest));
    assert Print(e) + rest == Print(e.target) + tail;
    var lhs := LhsRead(e.target, [], tail, tail);
    assert tail[1..] == PrintArgs(e.args) + ([RParen] + rest) && ([RParen] + rest)[1..] == rest;
    var args := ArgsRead(e.args, [RParen] + rest);
    n := CallNode(lhs, args);
  }

  lemma {:induction false} ArgsRead(es: seq<Expr>, rest: Tokens) returns (ns: seq<ExpressionNode>)
    requires AreExpressions(es) && CleanArgs(es) && Head(rest) == RParen
    ensures ArgumentsOf(PrintArgs(es) + rest) == Got(ns, rest) && ConvertArguments(ns) == Some(ReturnedArgs(es))
    decreases es, 1
  {
    hide ExpressionOf, ConvertExpression, Print, Plain, NoFunction, IsExpression, Returned;
    if es == [] {
      assert PrintArgs(es) + rest == rest;
      ns := [];
    } else {
      var tail := PrintMoreArgs(es[1..]) + rest;
      assert PrintArgs(es) + rest == Print(es[0]) + tail;
      ExpressionHead(es[0], tail);
      MoreArgsHead(es[1..], rest);
      var n := ExpressionRead(es[0], tail);
      var more := MoreArgsRead(es[1..], rest);
      ns := [n] + more;
      assert ns[1..] == more;
    }
  }

  lemma {:induction false} MoreArgsHead(es: seq<Expr>, rest: Tokens)
    requires Head(rest) == RParen
    ensures Stops(PrintMoreArgs(es) + rest)
  {
    if es == [] { assert PrintMoreArgs(es) + rest == rest; }
  }

  lemma {:induction false} MoreArgsRead(es: seq<Expr>, rest: Tokens) returns (ns: seq<ExpressionNode>)
    requires AreExpressions(es) && CleanArgs(es) && Head(rest) == RParen
    ensures MoreArgumentsOf(PrintMoreArgs(es) + rest) == Got(ns, rest) && ConvertArguments(ns) == Some(ReturnedArgs(es))
    decreases es, 0
  {
    hide ExpressionOf, ConvertExpression, Print, Plain, NoFunction, IsExpression, Returned;
    if es == [] {
      assert PrintMoreArgs(es) + rest == rest;
      ns := [];
    } else {
      var ts, tail := PrintMoreArgs(es) + rest, PrintMoreArgs(es[1..]) + rest;
      assert ts == [Comma] + (Print(es[0]) + tail) && ts[1..] == Print(es[0]) + tail;
      MoreArgsHead(es[1..], rest);
      var n := ExpressionRead(es[0], tail);
      var more := MoreArgsRead(es[1..], rest);
      ns := [n] + more;
      assert ns[1..] == more;
    }
  }

  lemma {:induction false} UnitBodyRead(e: Expr, rest: Tokens) returns (n: UnitBody)
    requires IsOperand(e) && Clean(e) && !Continues(rest)
    ensures UnitBodyOf(Print(e) + rest) == Got(n, rest) && ConvertUnitBody(n) == Some(Returned(e))
    decreases e, 2
  {
    hide UnitBodyOf, ConvertUnitBody, Print, Plain, NoFunction, Returned;
    if IsLhs(e) {
      n := LhsUnitRead(e, rest);
    } else if e.Call? {
      n := CallUnitRead(e, rest);
    } else if e.Binary? || e.Unary? {
      n := ParenthesisRead(e, rest);
    } else {
      n := ConstantRead(e, rest);
    }
  }

  lemma {:induction false} NoneRead(rest: Tokens)
    requires !Continues(rest)
    ensures var none := LhsUnit(LhsNode("none", []));
      UnitBodyOf([Name("none")] + rest) == Got(none, rest) && ConvertUnitBody(none) == Some(Var("none"))
  {
    hide CallRestOf, BooleanOf;
    var ts := [Name("none")] + rest;
    assert ts[1..] == rest;
    assert LhsOf(ts) == Got(LhsNode("none", []), rest);
  }

  lemma {:induction false} ConstantRead(e: Expr, rest: Tokens) returns (n: UnitBody)
    requires e.IntegerConstant? || e.StringConstant? || e.BooleanConstant? || e.NoneConstant?
    requires IsOperand(e) && Clean(e) && !Continues(rest)
    ensures UnitBodyOf(Print(e) + rest) == Got(n, rest) && ConvertUnitBody(n) == Some(Returned(e))
  {
    hide CallRestOf, BooleanOf, LhsOf;
    var ts := Print(e) + rest;
    assert ts[1..] == rest;
    if e.NoneConstant? {
      NoneRead(rest);
      n := LhsUnit(LhsNode("none", []));
    } else {
      n := ConstantUnit(ts[0]);
      if e.StringConstant? { DecodePlain(e.text); }
    }
  }

  lemma {:induction false} CallUnitRead(e: Expr, rest: Tokens) returns (n: UnitBody)
    requires e.Call? && IsOperand(e) && Clean(e)
    ensures UnitBodyOf(Print(e) + rest) == Got(n, rest) && ConvertUnitBody(n) == Some(Returned(e))
    decreases e, 1
  {
    hide Print, LhsOf, CallOf, ConvertCall, BooleanOf, CallRestOf, Plain, NoFunction, IsOperand, Returned;
    OperandHead(e, rest);
    var call := CallRead(e, rest);
    CallHasParenthesis(Print(e) + rest);
    n := CallUnit(call);
  }

  lemma {:induction false} LhsUnitRead(e: Expr, rest: Tokens) returns (n: UnitBody)
    requires IsLhs(e) && Clean(e) && !Continues(rest)
    ensures UnitBodyOf(Print(e) + rest) == Got(n, rest) && ConvertUnitBody(n) == Some(Returned(e))
    decreases e, 1
  {
    hide Print, LhsOf, ConvertLhs, BooleanOf, CallRestOf;
    LhsIsOperand(e);
    OperandHead(e, rest);
    var lhs := LhsRead(e, [], rest, rest);
    n := LhsUnit(lhs);
  }

  lemma {:induction false} InParentheses(inner: Tokens, b: BooleanNode, rest: Tokens)
    requires BooleanOf(inner + ([RParen] + rest)) == Got(b, [RParen] + rest)
    ensures UnitBodyOf([LParen] + (inner + [RParen]) + rest) == Got(ParenUnit(b), rest)
  {
    hide BooleanOf;
    var ts := [LParen] + (inner + [RParen]) + rest;
    assert ts[1..] == inner + ([RParen] + rest) && ([RParen] + rest)[1..] == rest;
  }

  lemma {:induction false} ParenthesisRead(e: Expr, rest: Tokens) returns (n: UnitBody)
    requires (e.Binary? || e.Unary?) && IsOperand(e) && Clean(e)
    ensures UnitBodyOf(Print(e) + rest) == Got(n, rest) && ConvertUnitBody(n) == Some(Returned(e))
    decreases e, 1
  {
    hide BooleanOf, ConvertBoolean, UnitBodyOf, IsOperand, Clean, Returned, PrintArgs, PrintFields;
    var inside := [RParen] + rest;
    var b;
    if e.Binary? {
      b := BinaryRead(e, inside);
      var inner := Print(e.left) + ([OperatorToken(e.op)] + Print(e.right));
      assert Print(e) == [LParen] + (inner + [RParen]);
      assert inner + inside == Print(e.left) + ([OperatorToken(e.op)] + (Print(e.right) + inside));
      InParentheses(inner, b, rest);
    } else {
      b := UnaryRead(e, inside);
      var inner := [OperatorToken(e.uop)] + Print(e.operand);
      assert Print(e) == [LParen] + (inner + [RParen]);
      assert inner + inside == [OperatorToken(e.uop)] + (Print(e.operand) + inside);
      InParentheses(inner, b, rest);
    }
    n := ParenUnit(b);
  }

  lemma {:induction false} UnitRead(e: Expr, rest: Tokens) returns (u: UnitNode)
    requires IsOperand(e) && Clean(e) && !Continues(rest)
    ensures UnitOf(Print(e) + rest) == Got(u, rest) && ConvertUnit(u) == Some(Returned(e))
    ensures Head(Print(e) + rest) != Bang
    decreases e, 3
  {
    hide UnitBodyOf, ConvertUnitBody, Print;
    OperandHead(e, rest);
    var n := UnitBodyRead(e, rest);
    u := UnitNode(false, n);
  }

  lemma {:induction false} BinaryRead(e: Expr, rest: Tokens) returns (n: BooleanNode)
    requires e.Binary? && IsOperand(e) && Clean(e) && Head(rest) == RParen
    ensures BooleanOf(Print(e.left) + ([OperatorToken(e.op)] + (Print(e.right) + rest))) == Got(n, rest)
    ensures ConvertBoolean(n) == Some(Returned(e))
    decreases e, 0
  {
    hide UnitOf, ConvertUnit, BooleanOf, ConvertBoolean, Print;
    var more := Print(e.right) + rest;
    var u1 := UnitRead(e.left, [OperatorToken(e.op)] + more);
    var u2 := UnitRead(e.right, rest);
    n := Operation(Print(e.left) + ([OperatorToken(e.op)] + more), u1, e.op, more, u2, rest);
  }

  /** `!` in front of a unit. */
  lemma {:induction false} NegationRead(x: Tokens, u: UnitNode, rest: Tokens) returns (n: BooleanNode)
    requires UnitOf(x) == Got(u, rest) && Head(x) != Bang && Head(rest) == RParen
    ensures BooleanOf([Bang] + x) == Got(n, rest)
    ensures ConvertBoolean(n) == (var c := ConvertUnit(u); if c.Some? then Some(Expr.Unary(NEG, c.value)) else None)
  {
    hide UnitOf, ConvertUnit, BooleanOf, ConvertBoolean, ArithmeticOf, ConvertArithmetic;
    var ts := [Bang] + x;
    assert ts[1..] == x;
    Climb(x, u, rest);
    var p := Alone(ArithmeticNode(ProductNode(u, []), []));
    assert BoolUnitOf(ts) == Got(BoolUnitNode(true, p), rest);
    n := FromBoolUnit(ts, BoolUnitNode(true, p), rest);
  }

  lemma {:induction false} UnaryRead(e: Expr, rest: Tokens) returns (n: BooleanNode)
    requires e.Unary? && IsOperand(e) && Clean(e) && Head(rest) == RParen
    ensures BooleanOf([OperatorToken(e.uop)] + (Print(e.operand) + rest)) == Got(n, rest)
    ensures ConvertBoolean(n) == Some(Returned(e))
    decreases e, 0
  {
    hide UnitBodyOf, ConvertUnitBody, BooleanOf, ConvertBoolean, Print, LhsOf, ProductPrimeOf;
    var x := Print(e.operand) + rest;
    var ts := [OperatorToken(e.uop)] + x;
    assert ts[1..] == x;
    var body := UnitBodyRead(e.operand, rest);
    if e.uop == SUB {
      assert UnitOf(ts) == Got(UnitNode(true, body), rest);
      n := FromUnit(ts, UnitNode(true, body), rest);
    } else {
      OperandHead(e.operand, rest);
      n := NegationRead(x, UnitNode(false, body), rest);
    }
  }

  lemma {:induction false} ExpressionRead(e: Expr, rest: Tokens) returns (n: ExpressionNode)
    requires IsExpression(e) && Clean(e) && Stops(rest)
    ensures ExpressionOf(Print(e) + rest) == Got(n, rest) && ConvertExpression(n) == Some(Returned(e))
    decreases e, 5
  {
    hide ExpressionOf, ConvertExpression, Returned, Print;
    if e.Record? {
      n := RecordRead(e, rest);
    } else {
      n := OperandRead(e, rest);
    }
  }

  lemma {:induction false} OperandRead(e: Expr, rest: Tokens) returns (n: ExpressionNode)
    requires IsOperand(e) && Clean(e) && Stops(rest)
    ensures ExpressionOf(Print(e) + rest) == Got(n, rest) && ConvertExpression(n) == Some(Returned(e))
    decreases e, 4
  {
    hide UnitOf, ConvertUnit, Print, BooleanOf, ConvertBoolean, RecordOf, FunctionOf, Plain, NoFunction, IsOperand, Returned;
    OperandHead(e, rest);
    var u := UnitRead(e, rest);
    var b := FromUnit(Print(e) + rest, u, rest);
    n := BooleanExpression(b);
  }

  lemma {:induction false} RecordParsed(x: Tokens, fs: seq<FieldNode>, rest: Tokens)
    requires FieldsOf(x + ([RBrace] + rest)) == Got(fs, [RBrace] + rest)
    ensures ExpressionOf(([LBrace] + (x + [RBrace])) + rest) == Got(RecordExpression(fs), rest)
  {
    hide FieldsOf, BooleanOf;
    var ts := ([LBrace] + (x + [RBrace])) + rest;
    assert ts[1..] == x + ([RBrace] + rest) && ([RBrace] + rest)[1..] == rest;
  }

  lemma {:induction false} RecordRead(e: Expr, rest: Tokens) returns (n: ExpressionNode)
    requires e.Record? && IsExpression(e) && Clean(e)
    ensures ExpressionOf(Print(e) + rest) == Got(n, rest) && ConvertExpression(n) == Some(Returned(e))
    decreases e, 3
  {
    hide ExpressionOf, FieldsOf, ConvertFields, PrintFields, PrintArgs, PlainFields, NoFunctionFields, ReturnedFields;
    var fs := FieldsRead(e.fields, [RBrace] + rest);
    RecordParsed(PrintFields(e.fields), fs, rest);
    n := RecordExpression(fs);
  }

  lemma {:induction false} OneField(x: string, e: Tokens, n: ExpressionNode, tail: Tokens, ns: seq<FieldNode>, rest: Tokens)
    requires ExpressionOf(e + ([Semicolon] + tail)) == Got(n, [Semicolon] + tail) && FieldsOf(tail) == Got(ns, rest)
    ensures FieldsOf([Name(x), Colon] + (e + ([Semicolon] + tail))) == Got([FieldNode(x, n)] + ns, rest)
  {
    hide ExpressionOf;
    var ts := [Name(x), Colon] + (e + ([Semicolon] + tail));
    assert ts[1..][1..] == e + ([Semicolon] + tail) && ([Semicolon] + tail)[1..] == tail;
  }

  lemma {:induction false} FieldText(x: string, e: Tokens, more: Tokens, rest: Tokens)
    ensures ([Name(x), Colon] + (e + ([Semicolon] + more))) + rest == [Name(x), Colon] + (e + ([Semicolon] + (more + rest)))
  {}

  lemma {:induction false} FieldsRead(fs: seq<FieldInit>, rest: Tokens) returns (ns: seq<FieldNode>)
    requires AreFields(fs) && CleanFields(fs) && Head(rest) == RBrace
    ensures FieldsOf(PrintFields(fs) + rest) == Got(ns, rest) && ConvertFields(ns) == Some(ReturnedFields(fs))
    decreases fs, 0
  {
    hide ExpressionOf, ConvertExpression, Print, Plain, NoFunction, IsExpression, Returned;
    if fs == [] {
      assert PrintFields(fs) + rest == rest;
      ns := [];
    } else {
      hide FieldsOf;
      var x, e, tail := fs[0].name, Print(fs[0].init), PrintFields(fs[1..]) + rest;
      FieldText(x, e, PrintFields(fs[1..]), rest);
      var n := ExpressionRead(fs[0].init, [Semicolon] + tail);
      var more := FieldsRead(fs[1..], rest);
      OneField(x, e, n, tail, more, rest);
      ns := [FieldNode(x, n)] + more;
      assert ns[1..] == more;
    }
  }

  // ---------------------------------------------------------------- statements

  lemma {:induction false} ConditionRead(c: Expr, rest: Tokens) returns (n: ExpressionNode)
    requires IsExpression(c) && Clean(c)
    ensures ConditionOf(PrintCondition(c) + rest) == Got(n, rest) && ConvertExpression(n) == Some(Returned(c))
  {
    hide ExpressionOf, ConvertExpression, Print;
    var ts, tail := PrintCondition(c) + rest, [RParen] + rest;
    assert ts == [LParen] + (Print(c) + tail) && ts[1..] == Print(c) + tail && tail[1..] == rest;
    n := ExpressionRead(c, tail);
  }

  lemma {:induction false} BlockRead(ss: seq<Stmt>, rest: Tokens) returns (ns: seq<StatementNode>)
    requires AreStatements(ss) && CleanStatements(ss)
    ensures BlockOf(PrintBlock(ss) + rest) == Got(ns, rest) && ConvertStatements(ns) == Some(ReturnedStatements(ss))
    decreases ss, 1
  {
    hide StatementsOf, ConvertStatements, PrintStatements;
    var ts, tail := PrintBlock(ss) + rest, [RBrace] + rest;
    assert ts == [LBrace] + (PrintStatements(ss) + tail) && ts[1..] == PrintStatements(ss) + tail && tail[1..] == rest;
    ns := StatementsRead(ss, tail);
  }

  lemma {:induction false} StatementStart(s: Stmt)
    requires IsStatement(s) && PlainStatement(s)
    ensures PrintStatement(s) != []
    ensures var t := PrintStatement(s)[0];
      match s
      case Global(_) => t == KwGlobal
      case If(_, _) => t == KwIf
      case IfElse(_, _, _) => t == KwIf
      case While(_, _) => t == KwWhile
      case Return(_) => t == KwReturn
      case _ => t.Name?
  {
    hide PrintBlock, PrintCondition, PrintArgs, Print;
    match s
    case AssignField(b, _, _) => LhsIsOperand(b); OperandStart(b);
    case AssignIndex(b, _, _) => LhsIsOperand(b); OperandStart(b);
    case CallStmt(e) => OperandStart(e);
    case _ =>
  }

  lemma {:induction false} StatementHead(s: Stmt, rest: Tokens)
    requires IsStatement(s) && PlainStatement(s)
    ensures var t := Head(PrintStatement(s) + rest);
      match s
      case Global(_) => t == KwGlobal
      case If(_, _) => t == KwIf
      case IfElse(_, _, _) => t == KwIf
      case While(_, _) => t == KwWhile
      case Return(_) => t == KwReturn
      case _ => t.Name?
  {
    hide PrintStatement, IsStatement, PlainStatement;
    StatementStart(s);
  }

  /** An if statement without an else part is not followed by one. */
  lemma {:induction false} NoElse(ss: seq<Stmt>, rest: Tokens)
    requires AreStatements(ss) && PlainStatements(ss) && Head(rest) == RBrace
    ensures Head(PrintStatements(ss) + rest) != KwElse
    ensures ss != [] ==> Head(PrintStatements(ss) + rest) != RBrace && Head(PrintStatements(ss) + rest) != EndOfFile
  {
    hide PrintStatement;
    if ss == [] {
      assert PrintStatements(ss) + rest == rest;
    } else {
      var tail := PrintStatements(ss[1..]) + rest;
      assert PrintStatements(ss) + rest == PrintStatement(ss[0]) + tail;
      StatementHead(ss[0], tail);
    }
  }

  lemma {:induction false} StatementsRead(ss: seq<Stmt>, rest: Tokens) returns (ns: seq<StatementNode>)
    requires AreStatements(ss) && CleanStatements(ss) && Head(rest) == RBrace
    ensures StatementsOf(PrintStatements(ss) + rest) == Got(ns, rest) && ConvertStatements(ns) == Some(ReturnedStatements(ss))
    decreases ss, 0
  {
    hide StatementOf, ConvertStatement, PrintStatement;
    NoElse(ss, rest);
    if ss == [] {
      assert PrintStatements(ss) + rest == rest;
      ns := [];
    } else {
      var tail := PrintStatements(ss[1..]) + rest;
      assert PrintStatements(ss) + rest == PrintStatement(ss[0]) + tail;
      NoElse(ss[1..], rest);
      var n := StatementRead(ss[0], tail);
      var more := StatementsRead(ss[1..], rest);
      ns := [n] + more;
      assert ns[1..] == more;
    }
  }

  lemma {:induction false} StatementRead(s: Stmt, rest: Tokens) returns (n: StatementNode)
    requires IsStatement(s) && CleanStatement(s) && Head(rest) != KwElse
    ensures StatementOf(PrintStatement(s) + rest) == Got(n, rest) && ConvertStatement(n) == Some(ReturnedStatement(s))
    decreases s, 1
  {
    hide GlobalOf, IfOf, WhileOf, ReturnOf, LhsStatementOf, ConvertStatement, ReturnedStatement, PrintStatement;
    StatementHead(s, rest);
    match s
    case Global(_) => n := GlobalRead(s, rest);
    case If(_, _) => n := IfRead(s, rest);
    case IfElse(_, _, _) => n := IfElseRead(s, rest);
    case While(_, _) => n := WhileRead(s, rest);
    case Return(_) => n := ReturnRead(s, rest);
    case CallStmt(_) => n := CallStatementRead(s, rest);
    case AssignVar(x, e) => n := AssignmentRead(s, Var(x), e, rest);
    case AssignField(b, x, e) => n := AssignmentRead(s, Field(b, x), e, rest);
    case AssignIndex(b, i, e) => n := AssignmentRead(s, Index(b, i), e, rest);
  }

  lemma {:induction false} GlobalRead(s: Stmt, rest: Tokens) returns (n: StatementNode)
    requires s.Global?
    ensures GlobalOf(PrintStatement(s) + rest) == Got(n, rest) && ConvertStatement(n) == Some(ReturnedStatement(s))
  {
    n := GlobalNode(s.name);
    var ts := PrintStatement(s) + rest;
    assert ts[1..] == [Name(s.name), Semicolon] + rest && ts[1..][1..] == [Semicolon] + rest && ts[1..][1..][1..] == rest;
  }

  lemma {:induction false} ReturnParsed(x: Tokens, e: ExpressionNode, rest: Tokens)
    requires ExpressionOf(x + ([Semicolon] + rest)) == Got(e, [Semicolon] + rest)
    ensures ReturnOf(([KwReturn] + (x + [Semicolon])) + rest) == Got(ReturnNode(e), rest)
  {
    hide ExpressionOf;
    var ts := ([KwReturn] + (x + [Semicolon])) + rest;
    assert ts[1..] == x + ([Semicolon] + rest) && ([Semicolon] + rest)[1..] == rest;
  }

  lemma {:induction false} ReturnRead(s: Stmt, rest: Tokens) returns (n: StatementNode)
    requires s.Return? && IsStatement(s) && CleanStatement(s)
    ensures ReturnOf(PrintStatement(s) + rest) == Got(n, rest) && ConvertStatement(n) == Some(ReturnedStatement(s))
  {
    hide ExpressionOf, ConvertExpression, Print, ReturnOf;
    var e := ExpressionRead(s.result, [Semicolon] + rest);
    ReturnParsed(Print(s.result), e, rest);
    n := ReturnNode(e);
  }

  lemma {:induction false} IfRead(s: Stmt, rest: Tokens) returns (n: StatementNode)
    requires s.If? && IsStatement(s) && CleanStatement(s) && Head(rest) != KwElse
    ensures IfOf(PrintStatement(s) + rest) == Got(n, rest) && ConvertStatement(n) == Some(ReturnedStatement(s))
    decreases s, 0
  {
    hide ConditionOf, BlockOf, PrintCondition, PrintBlock, ConvertExpression, ConvertStatements, PrintArgs, Print;
    var ts, tail := PrintStatement(s) + rest, PrintBlock(s.thenPart) + rest;
    assert ts == [KwIf] + (PrintCondition(s.cond) + tail) && ts[1..] == PrintCondition(s.cond) + tail;
    var c := ConditionRead(s.cond, tail);
    var b := BlockRead(s.thenPart, rest);
    n := IfNode(c, b);
  }

  lemma {:induction false} IfElseParsed(c: Tokens, thn: Tokens, els: Tokens, rest: Tokens, cn: ExpressionNode, tn: seq<StatementNode>,
      en: seq<StatementNode>)
    requires var last := [KwElse] + (els + rest);
      && ConditionOf(c + (thn + last)) == Got(cn, thn + last)
      && BlockOf(thn + last) == Got(tn, last) && BlockOf(els + rest) == Got(en, rest)
    ensures IfOf(([KwIf] + (c + (thn + ([KwElse] + els)))) + rest) == Got(IfElseNode(cn, tn, en), rest)
  {
    hide ConditionOf, BlockOf;
    var ts, last := ([KwIf] + (c + (thn + ([KwElse] + els)))) + rest, [KwElse] + (els + rest);
    assert ts == [KwIf] + (c + (thn + last)) && ts[1..] == c + (thn + last) && last[1..] == els + rest;
  }

  lemma {:induction false} IfElseRead(s: Stmt, rest: Tokens) returns (n: StatementNode)
    requires s.IfElse? && IsStatement(s) && CleanStatement(s)
    ensures IfOf(PrintStatement(s) + rest) == Got(n, rest) && ConvertStatement(n) == Some(ReturnedStatement(s))
    decreases s, 0
  {
    hide IfOf, ConditionOf, BlockOf, PrintCondition, PrintBlock, ConvertExpression, ConvertStatements, Plain, NoFunction, IsExpression,
      Returned, PlainStatements, NoFunctionStatements, AreStatements, ReturnedStatements, Print;
    var last := [KwElse] + (PrintBlock(s.elsePart) + rest);
    var c := ConditionRead(s.cond, PrintBlock(s.thenPart) + last);
    var b := BlockRead(s.thenPart, last);
    var d := BlockRead(s.elsePart, rest);
    IfElseParsed(PrintCondition(s.cond), PrintBlock(s.thenPart), PrintBlock(s.elsePart), rest, c, b, d);
    n := IfElseNode(c, b, d);
  }

  lemma {:induction false} WhileRead(s: Stmt, rest: Tokens) returns (n: StatementNode)
    requires s.While? && IsStatement(s) && CleanStatement(s)
    ensures WhileOf(PrintStatement(s) + rest) == Got(n, rest) && ConvertStatement(n) == Some(ReturnedStatement(s))
    decreases s, 0
  {
    hide ConditionOf, BlockOf, PrintCondition, PrintBlock, ConvertExpression, ConvertStatements, PrintArgs, Print;
    var ts, tail := PrintStatement(s) + rest, PrintBlock(s.body) + rest;
    assert ts == [KwWhile] + (PrintCondition(s.cond) + tail) && ts[1..] == PrintCondition(s.cond) + tail;
    var c := ConditionRead(s.cond, tail);
    var b := BlockRead(s.body, rest);
    n := WhileNode(c, b);
  }

  lemma {:induction false} CallStatementRead(s: Stmt, rest: Tokens) returns (n: StatementNode)
    requires s.CallStmt? && IsStatement(s) && CleanStatement(s)
    ensures LhsStatementOf(PrintStatement(s) + rest) == Got(n, rest) && ConvertStatement(n) == Some(ReturnedStatement(s))
  {
    hide LhsOf, CallRestOf, ConvertCall, Print;
    var ts, tail := PrintStatement(s) + rest, [Semicolon] + rest;
    assert ts == Print(s.call) + tail && tail[1..] == rest;
    var call := CallRead(s.call, tail);
    CallHasParenthesis(ts);
    n := CallStatementNode(call);
  }

  lemma {:induction false} CallHasParenthesis(ts: Tokens)
    requires CallOf(ts).Got?
    ensures LhsOf(ts).Got? && Head(LhsOf(ts).rest) == LParen
    ensures CallOf(ts) == CallRestOf(LhsOf(ts).node, LhsOf(ts).rest)
  {
    hide LhsOf, ArgumentsOf;
  }

  lemma {:induction false} AssignmentText(l: Expr, e: Expr)
    requires IsLhs(l)
    ensures PrintStatement(Assigned(l, e)) == Print(l) + ([Assign] + (Print(e) + [Semicolon]))
  {
    hide IsExpression, PrintArgs, PrintFields;
  }

  lemma {:induction false} AssignmentEnds(l: Tokens, e: Tokens, rest: Tokens)
    ensures (l + ([Assign] + (e + [Semicolon]))) + rest == l + ([Assign] + (e + ([Semicolon] + rest)))
  {}

  lemma {:induction false} AssignmentTokens(l: Expr, e: Expr, rest: Tokens)
    requires IsLhs(l)
    ensures PrintStatement(Assigned(l, e)) + rest == Print(l) + ([Assign] + (Print(e) + ([Semicolon] + rest)))
  {
    hide IsLhs, Print, PrintStatement, Assigned;
    AssignmentText(l, e);
    AssignmentEnds(Print(l), Print(e), rest);
  }

  lemma {:induction false} AssignmentParsed(ts: Tokens, lhs: LhsNode, e: Tokens, n: ExpressionNode, rest: Tokens)
    requires LhsOf(ts) == Got(lhs, [Assign] + (e + ([Semicolon] + rest)))
    requires ExpressionOf(e + ([Semicolon] + rest)) == Got(n, [Semicolon] + rest)
    ensures LhsStatementOf(ts) == Got(AssignmentNode(lhs, n), rest)
  {
    hide LhsOf, ExpressionOf, CallRestOf;
    var tail := [Assign] + (e + ([Semicolon] + rest));
    assert tail[1..] == e + ([Semicolon] + rest) && ([Semicolon] + rest)[1..] == rest;
  }

  lemma {:induction false} AssignmentRead(s: Stmt, l: Expr, e: Expr, rest: Tokens) returns (n: StatementNode)
    requires IsLhs(l) && Clean(l) && IsExpression(e) && Clean(e) && s == Assigned(l, e) && CleanStatement(s)
    ensures LhsStatementOf(PrintStatement(s) + rest) == Got(n, rest) && ConvertStatement(n) == Some(ReturnedStatement(s))
  {
    hide LhsOf, LhsStatementOf, ExpressionOf, ConvertExpression, ConvertLhs, PrintStatement, Print;
    var end := [Semicolon] + rest;
    var tail := [Assign] + (Print(e) + end);
    AssignmentTokens(l, e, rest);
    NothingMore(tail, Returned(l));
    var lhs := LhsRead(l, [], tail, tail);
    var value := ExpressionRead(e, end);
    AssignmentParsed(PrintStatement(s) + rest, lhs, Print(e), value, rest);
    n := AssignmentNode(lhs, value);
  }

  lemma {:induction false} NothingMore(tail: Tokens, l: Expr)
    requires Head(tail) == Assign && IsLhs(l)
    ensures LhsPrimeOf(tail) == Got([], tail) && ConvertLhsPrime([], Some(l)) == Some(l)
  {}

  // ---------------------------------------------------------------- main results

  predicate NoNone(e: Expr)
    decreases e
  {
    match e
    case NoneConstant => false
    case Binary(l, _, r) => NoNone(l) && NoNone(r)
    case Unary(_, x) => NoNone(x)
    case Field(b, _) => NoNone(b)
    case Index(b, i) => NoNone(b) && NoNone(i)
    case Call(t, args) => NoNone(t) && NoNoneArgs(args)
    case Record(fs) => NoNoneFields(fs)
    case _ => true
  }

  predicate NoNoneArgs(es: seq<Expr>)
    decreases es
  {
    es == [] || (NoNone(es[0]) && NoNoneArgs(es[1..]))
  }

  predicate NoNoneFields(fs: seq<FieldInit>)
    decreases fs
  {
    fs == [] || (NoNone(fs[0].init) && NoNoneFields(fs[1..]))
  }

  predicate NoNoneStatement(s: Stmt)
    decreases s
  {
    match s
    case Global(_) => true
    case AssignVar(_, e) => NoNone(e)
    case AssignField(b, _, e) => NoNone(b) && NoNone(e)
    case AssignIndex(b, i, e) => NoNone(b) && NoNone(i) && NoNone(e)
    case CallStmt(e) => NoNone(e)
    case If(c, t) => NoNone(c) && NoNoneBlock(t)
    case IfElse(c, t, e) => NoNone(c) && NoNoneBlock(t) && NoNoneBlock(e)
    case While(c, b) => NoNone(c) && NoNoneBlock(b)
    case Return(e) => NoNone(e)
  }

  predicate NoNoneBlock(ss: seq<Stmt>)
    decreases ss
  {
    ss == [] || (NoNoneStatement(ss[0]) && NoNoneBlock(ss[1..]))
  }

  lemma {:induction false} ReturnedSame(e: Expr)
    requires Clean(e)
    ensures Returned(e) == e <==> NoNone(e)
    decreases e
  {
    match e
    case Binary(l, _, r) => ReturnedSame(l); ReturnedSame(r);
    case Unary(_, x) => ReturnedSame(x);
    case Field(b, _) => ReturnedSame(b);
    case Index(b, i) => ReturnedSame(b); ReturnedSame(i);
    case Call(t, args) => ReturnedSame(t); ReturnedArgsSame(args);
    case Record(fs) => ReturnedFieldsSame(fs);
    case _ =>
  }

  lemma {:induction false} ReturnedArgsSame(es: seq<Expr>)
    requires CleanArgs(es)
    ensures ReturnedArgs(es) == es <==> NoNoneArgs(es)
    decreases es
  {
    if es != [] {
      ReturnedSame(es[0]);
      ReturnedArgsSame(es[1..]);
      SameHeadAndTail(Returned(es[0]), ReturnedArgs(es[1..]), es);
    }
  }

  lemma {:induction false} ReturnedFieldsSame(fs: seq<FieldInit>)
    requires CleanFields(fs)
    ensures ReturnedFields(fs) == fs <==> NoNoneFields(fs)
    decreases fs
  {
    if fs != [] {
      ReturnedSame(fs[0].init);
      ReturnedFieldsSame(fs[1..]);
      SameHeadAndTail(FieldInit(fs[0].name, Returned(fs[0].init)), ReturnedFields(fs[1..]), fs);
    }
  }

  lemma {:induction false} SameHeadAndTail<T>(x: T, xs: seq<T>, s: seq<T>)
    requires s != []
    ensures [x] + xs == s <==> x == s[0] && xs == s[1..]
  {
    assert s == [s[0]] + s[1..];
    if [x] + xs == s { assert s[0] == x && s[1..] == ([x] + xs)[1..] == xs; }
  }

  lemma {:induction false} ReturnedStatementSame(s: Stmt)
    requires CleanStatement(s)
    ensures ReturnedStatement(s) == s <==> NoNoneStatement(s)
    decreases s
  {
    match s
    case Global(_) =>
    case AssignVar(_, e) => ReturnedSame(e);
    case AssignField(b, _, e) => ReturnedSame(b); ReturnedSame(e);
    case AssignIndex(b, i, e) => ReturnedSame(b); ReturnedSame(i); ReturnedSame(e);
    case CallStmt(e) => ReturnedSame(e);
    case If(c, t) => ReturnedSame(c); ReturnedStatementsSame(t);
    case IfElse(c, t, e) => ReturnedSame(c); ReturnedStatementsSame(t); ReturnedStatementsSame(e);
    case While(c, b) => ReturnedSame(c); ReturnedStatementsSame(b);
    case Return(e) => ReturnedSame(e);
  }

  lemma {:induction false} ReturnedStatementsSame(ss: seq<Stmt>)
    requires CleanStatements(ss)
    ensures ReturnedStatements(ss) == ss <==> NoNoneBlock(ss)
    decreases ss
  {
    if ss != [] {
      ReturnedStatementSame(ss[0]);
      ReturnedStatementsSame(ss[1..]);
      SameHeadAndTail(ReturnedStatement(ss[0]), ReturnedStatements(ss[1..]), ss);
    }
  }

  /** Every clean block of the converter's image is parsed and converted again;
      what comes back is the block itself if and only if it holds no None. */
  lemma {:induction false} BlockRoundTrip(ss: seq<Stmt>, rest: Tokens)
    requires AreStatements(ss) && CleanStatements(ss)
    ensures var r := BlockOf(PrintBlock(ss) + rest);
      && r.Got? && r.rest == rest && ConvertStatements(r.node) == Some(ReturnedStatements(ss))
      && (ConvertStatements(r.node) == Some(ss) <==> NoNoneBlock(ss))
  {
    hide BlockOf, PrintBlock, ConvertStatements, ReturnedStatements, AreStatements, CleanStatements, NoNoneBlock;
    var ns := BlockRead(ss, rest);
    ReturnedStatementsSame(ss);
  }

  /** A printed program starts with a brace, and no program does. */
  lemma {:induction false} ProgramIsNotReadBack(ss: seq<Stmt>, rest: Tokens)
    ensures ProgramOf(PrintBlock(ss) + rest) == Error
  {
    hide PrintStatements;
    var ts := PrintBlock(ss) + rest;
    assert Head(ts) == LBrace && NameOf(ts) == Error;
    assert LhsOf(ts) == Error;
    assert StatementOf(ts) == LhsStatementOf(ts);
  }

  // ---------------------------------------------------------------- function literals

  function AsVars(xs: seq<string>): (r: seq<Expr>)
    ensures |r| == |xs|
  {
    if xs == [] then [] else [Var(xs[0])] + AsVars(xs[1..])
  }

  lemma {:induction false} VarsAreArguments(xs: seq<string>)
    ensures AreExpressions(AsVars(xs)) && CleanArgs(AsVars(xs))
  {
    if xs != [] {
      VarsAreArguments(xs[1..]);
      var r := AsVars(xs);
      assert r[0] == Var(xs[0]) && r[1..] == AsVars(xs[1..]);
      assert IsOperand(r[0]) && IsExpression(r[0]);
    }
  }

  lemma {:induction false} ParamsLookLikeArgs(xs: seq<string>)
    ensures PrintParams(xs) == PrintArgs(AsVars(xs))
    ensures xs != [] ==> PrintMoreArgs(AsVars(xs)) == [Comma] + PrintParams(xs)
  {
    if xs != [] {
      ParamsLookLikeArgs(xs[1..]);
      assert AsVars(xs)[1..] == AsVars(xs[1..]) && Print(AsVars(xs)[0]) == [Name(xs[0])];
      hide Print;
      if |xs| == 1 {
        assert [Name(xs[0])] + [] == [Name(xs[0])];
      } else {
        assert [Name(xs[0]), Comma] + PrintParams(xs[1..]) == [Name(xs[0])] + ([Comma] + PrintParams(xs[1..]));
      }
    }
  }

  lemma {:induction false} CallOfVars(params: seq<string>)
    ensures var call := Expr.Call(Var("function"), AsVars(params)); IsOperand(call) && Clean(call)
  {
    VarsAreArguments(params);
  }

  lemma {:induction false} BraceStartsBlock(body: seq<Stmt>, rest: Tokens)
    ensures Head(PrintBlock(body) + rest) == LBrace
  {}

  lemma {:induction false} FunctionLooksLikeCall(params: seq<string>, body: seq<Stmt>)
    ensures Print(Fun(params, body)) == Print(Expr.Call(Var("function"), AsVars(params))) + PrintBlock(body)
  {
    hide PrintArgs, PrintParams, PrintBlock;
    ParamsLookLikeArgs(params);
  }

  lemma {:induction false} BraceAfterCall(call: Expr, tail: Tokens)
    requires call.Call? && IsOperand(call) && Clean(call) && Head(tail) == LBrace
    ensures var r := ExpressionOf(Print(call) + tail); r.Got? && Head(r.rest) == LBrace
  {
    hide UnitOf, ConvertUnit, Print, ConjunctionOf, ConvertConjunction, BooleanOf, ConvertBoolean, RecordOf, FunctionOf, Plain, NoFunction,
      IsOperand, Returned;
    OperandHead(call, tail);
    var u := UnitRead(call, tail);
    Climb(Print(call) + tail, u, tail);
    var b := FromConjunction(Print(call) + tail, ConjunctionNode(AsBoolUnit(u), []), tail);
  }
}
