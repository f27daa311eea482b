/** The language's grammar, written out: the tokens each concrete tree is spelled with.
    The parser reads a tree exactly from the tokens the tree is spelled with. */
module Grammar {
  import opened Basics
  import opened Syntax

  // ---------------------------------------------------------------- spelling

  // `SpellX(n, rest)` is the text of `n` with `rest` behind it.

  function Then(t: Token, rest: Tokens): (r: Tokens)
    ensures r != [] && r[0] == t && r[1..] == rest
  {
    [t] + rest
  }

  function SpellLink(link: LhsLink, rest: Tokens): Tokens
    decreases link
  {
    match link
    case FieldLink(x) => Then(Dot, Then(Name(x), rest))
    case IndexLink(e) => Then(LBracket, SpellExpression(e, Then(RBracket, rest)))
  }

  function SpellLinks(links: seq<LhsLink>, rest: Tokens): Tokens
    decreases links
  {
    if links == [] then rest else SpellLink(links[0], SpellLinks(links[1..], rest))
  }

  function SpellLhs(n: LhsNode, rest: Tokens): Tokens
    decreases n
  {
    Then(Name(n.name), SpellLinks(n.inside, rest))
  }

  function SpellMoreArguments(es: seq<ExpressionNode>, rest: Tokens): Tokens
    decreases es, 0
  {
    if es == [] then rest else Then(Comma, SpellExpression(es[0], SpellMoreArguments(es[1..], rest)))
  }

  function SpellArguments(es: seq<ExpressionNode>, rest: Tokens): Tokens
    decreases es, 1
  {
    if es == [] then rest else SpellExpression(es[0], SpellMoreArguments(es[1..], rest))
  }

  function SpellCall(n: CallNode, rest: Tokens): Tokens
    decreases n
  {
    SpellLhs(n.lhs, Then(LParen, SpellArguments(n.arguments, Then(RParen, rest))))
  }

  function SpellUnitBody(u: UnitBody, rest: Tokens): Tokens
    decreases u
  {
    match u
    case LhsUnit(lhs) => SpellLhs(lhs, rest)
    case ConstantUnit(t) => Then(t, rest)
    case CallUnit(call) => SpellCall(call, rest)
    case ParenUnit(b) => Then(LParen, SpellBoolean(b, Then(RParen, rest)))
  }

  function SpellUnit(u: UnitNode, rest: Tokens): Tokens
    decreases u
  {
    if u.minus then Then(Minus, SpellUnitBody(u.body, rest)) else SpellUnitBody(u.body, rest)
  }

  function SpellFactor(link: UnitLink, rest: Tokens): Tokens
    decreases link
  {
    Then(link.op, SpellUnit(link.node, rest))
  }

  function SpellFactors(links: seq<UnitLink>, rest: Tokens): Tokens
    decreases links
  {
    if links == [] then rest else SpellFactor(links[0], SpellFactors(links[1..], rest))
  }

  function SpellProduct(p: ProductNode, rest: Tokens): Tokens
    decreases p
  {
    SpellUnit(p.unit, SpellFactors(p.rest, rest))
  }

  function SpellTerm(link: ProductLink, rest: Tokens): Tokens
    decreases link
  {
    Then(link.op, SpellProduct(link.node, rest))
  }

  function SpellTerms(links: seq<ProductLink>, rest: Tokens): Tokens
    decreases links
  {
    if links == [] then rest else SpellTerm(links[0], SpellTerms(links[1..], rest))
  }

  function SpellArithmetic(a: ArithmeticNode, rest: Tokens): Tokens
    decreases a
  {
    SpellProduct(a.product, SpellTerms(a.rest, rest))
  }

  function SpellPredicate(p: PredicateNode, rest: Tokens): Tokens
    decreases p
  {
    match p
    case Alone(a) => SpellArithmetic(a, rest)
    case Compared(a, op, b) => SpellArithmetic(a, Then(op, SpellArithmetic(b, rest)))
  }

  function SpellBoolUnit(b: BoolUnitNode, rest: Tokens): Tokens
    decreases b
  {
    if b.negate then Then(Bang, SpellPredicate(b.body, rest)) else SpellPredicate(b.body, rest)
  }

  function SpellConjunct(link: BoolUnitLink, rest: Tokens): Tokens
    decreases link
  {
    Then(link.op, SpellBoolUnit(link.node, rest))
  }

  function SpellConjuncts(links: seq<BoolUnitLink>, rest: Tokens): Tokens
    decreases links
  {
    if links == [] then rest else SpellConjunct(links[0], SpellConjuncts(links[1..], rest))
  }

  function SpellConjunction(c: ConjunctionNode, rest: Tokens): Tokens
    decreases c
  {
    SpellBoolUnit(c.unit, SpellConjuncts(c.rest, rest))
  }

  function SpellDisjunct(link: ConjunctionLink, rest: Tokens): Tokens
    decreases link
  {
    Then(link.op, SpellConjunction(link.node, rest))
  }

  function SpellDisjuncts(links: seq<ConjunctionLink>, rest: Tokens): Tokens
    decreases links
  {
    if links == [] then rest else SpellDisjunct(links[0], SpellDisjuncts(links[1..], rest))
  }

  function SpellBoolean(b: BooleanNode, rest: Tokens): Tokens
    decreases b
  {
    SpellConjunction(b.conjunction, SpellDisjuncts(b.rest, rest))
  }

  function SpellFields(fs: seq<FieldNode>, rest: Tokens): Tokens
    decreases fs
  {
    if fs == [] then rest
    else Then(Name(fs[0].name), Then(Colon, SpellExpression(fs[0].value, Then(Semicolon, SpellFields(fs[1..], rest)))))
  }

  function SpellMoreParameters(xs: seq<string>, rest: Tokens): Tokens {
    if xs == [] then rest else Then(Comma, Then(Name(xs[0]), SpellMoreParameters(xs[1..], rest)))
  }

  /** The names with commas between them. */
  function SpellParameters(xs: seq<string>, rest: Tokens): Tokens {
    if xs == [] then rest else Then(Name(xs[0]), SpellMoreParameters(xs[1..], rest))
  }

  function SpellExpression(e: ExpressionNode, rest: Tokens): Tokens
    decreases e, 0
  {
    match e
    case FunctionExpression(xs, body) =>
      Then(KwFun, Then(LParen, SpellParameters(xs, Then(RParen, SpellBlock(body, rest)))))
    case BooleanExpression(b) => SpellBoolean(b, rest)
    case RecordExpression(fs) => Then(LBrace, SpellFields(fs, Then(RBrace, rest)))
  }

  function SpellCondition(c: ExpressionNode, rest: Tokens): Tokens
    decreases c, 1
  {
    Then(LParen, SpellExpression(c, Then(RParen, rest)))
  }

  function SpellBlock(ss: seq<StatementNode>, rest: Tokens): Tokens
    decreases ss, 1
  {
    Then(LBrace, SpellStatements(ss, Then(RBrace, rest)))
  }

  function SpellStatements(ss: seq<StatementNode>, rest: Tokens): Tokens
    decreases ss, 0
  {
    if ss == [] then rest else SpellStatement(ss[0], SpellStatements(ss[1..], rest))
  }

  function SpellStatement(s: StatementNode, rest: Tokens): Tokens
    decreases s
  {
    match s
    case GlobalNode(x) => Then(KwGlobal, Then(Name(x), Then(Semicolon, rest)))
    case AssignmentNode(lhs, e) => SpellLhs(lhs, Then(Assign, SpellExpression(e, Then(Semicolon, rest))))
    case CallStatementNode(call) => SpellCall(call, Then(Semicolon, rest))
    case IfNode(c, t) => Then(KwIf, SpellCondition(c, SpellBlock(t, rest)))
    case IfElseNode(c, t, e) => Then(KwIf, SpellCondition(c, SpellBlock(t, Then(KwElse, SpellBlock(e, rest)))))
    case WhileNode(c, b) => Then(KwWhile, SpellCondition(c, SpellBlock(b, rest)))
    case ReturnNode(e) => Then(KwReturn, SpellExpression(e, Then(Semicolon, rest)))
  }

  // ---------------------------------------------------------------- trees of the grammar

  // Each operator stands at its own level, and a constant is a constant.

  predicate LinkOk(link: LhsLink)
    decreases link
  {
    link.IndexLink? ==> ExpressionOk(link.index)
  }

  predicate LinksOk(links: seq<LhsLink>)
    decreases links
  {
    links == [] || (LinkOk(links[0]) && LinksOk(links[1..]))
  }

  predicate ArgumentsOk(es: seq<ExpressionNode>)
    decreases es
  {
    es == [] || (ExpressionOk(es[0]) && ArgumentsOk(es[1..]))
  }

  predicate CallOk(n: CallNode)
    decreases n
  {
    LinksOk(n.lhs.inside) && ArgumentsOk(n.arguments)
  }

  predicate UnitBodyOk(u: UnitBody)
    decreases u
  {
    match u
    case LhsUnit(lhs) => LinksOk(lhs.inside)
    case ConstantUnit(t) => IsConstant(t)
    case CallUnit(call) => CallOk(call)
    case ParenUnit(b) => BooleanOk(b)
  }

  predicate UnitOk(u: UnitNode)
    decreases u
  {
    UnitBodyOk(u.body)
  }

  predicate FactorOk(link: UnitLink)
    decreases link
  {
    IsProductOp(link.op) && UnitOk(link.node)
  }

  predicate FactorsOk(links: seq<UnitLink>)
    decreases links
  {
    links == [] || (FactorOk(links[0]) && FactorsOk(links[1..]))
  }

  predicate ProductOk(p: ProductNode)
    decreases p
  {
    UnitOk(p.unit) && FactorsOk(p.rest)
  }

  predicate TermOk(link: ProductLink)
    decreases link
  {
    IsArithmeticOp(link.op) && ProductOk(link.node)
  }

  predicate TermsOk(links: seq<ProductLink>)
    decreases links
  {
    links == [] || (TermOk(links[0]) && TermsOk(links[1..]))
  }

  predicate ArithmeticOk(a: ArithmeticNode)
    decreases a
  {
    ProductOk(a.product) && TermsOk(a.rest)
  }

  predicate PredicateOk(p: PredicateNode)
    decreases p
  {
    match p
    case Alone(a) => ArithmeticOk(a)
    case Compared(a, op, b) => ArithmeticOk(a) && IsComparison(op) && ArithmeticOk(b)
  }

  predicate BoolUnitOk(b: BoolUnitNode)
    decreases b
  {
    PredicateOk(b.body)
  }

  predicate ConjunctOk(link: BoolUnitLink)
    decreases link
  {
    link.op == Amp && BoolUnitOk(link.node)
  }

  predicate ConjunctsOk(links: seq<BoolUnitLink>)
    decreases links
  {
    links == [] || (ConjunctOk(links[0]) && ConjunctsOk(links[1..]))
  }

  predicate ConjunctionOk(c: ConjunctionNode)
    decreases c
  {
    BoolUnitOk(c.unit) && ConjunctsOk(c.rest)
  }

  predicate DisjunctOk(link: ConjunctionLink)
    decreases link
  {
    link.op == Bar && ConjunctionOk(link.node)
  }

  predicate DisjunctsOk(links: seq<ConjunctionLink>)
    decreases links
  {
    links == [] || (DisjunctOk(links[0]) && DisjunctsOk(links[1..]))
  }

  predicate BooleanOk(b: BooleanNode)
    decreases b
  {
    ConjunctionOk(b.conjunction) && DisjunctsOk(b.rest)
  }

  predicate FieldsOk(fs: seq<FieldNode>)
    decreases fs
  {
    fs == [] || (ExpressionOk(fs[0].value) && FieldsOk(fs[1..]))
  }

  predicate ExpressionOk(e: ExpressionNode)
    decreases e
  {
    match e
    case FunctionExpression(_, body) => StatementsOk(body)
    case BooleanExpression(b) => BooleanOk(b)
    case RecordExpression(fs) => FieldsOk(fs)
  }

  predicate StatementsOk(ss: seq<StatementNode>)
    decreases ss
  {
    ss == [] || (StatementOk(ss[0]) && StatementsOk(ss[1..]))
  }

  predicate StatementOk(s: StatementNode)
    decreases s
  {
    match s
    case GlobalNode(_) => true
    case AssignmentNode(lhs, e) => LinksOk(lhs.inside) && ExpressionOk(e)
    case CallStatementNode(call) => CallOk(call)
    case IfNode(c, t) => ExpressionOk(c) && StatementsOk(t)
    case IfElseNode(c, t, e) => ExpressionOk(c) && StatementsOk(t) && StatementsOk(e)
    case WhileNode(c, b) => ExpressionOk(c) && StatementsOk(b)
    case ReturnNode(e) => ExpressionOk(e)
  }

  // ---------------------------------------------------------------- what is read was spelled

  lemma {:induction false} Uncons(ts: Tokens)
    requires ts != []
    ensures ts == Then(ts[0], ts[1..])
  {}

  lemma {:induction false} Expected(t: Token, ts: Tokens)
    ensures Expect(t, ts).Got? ==> ts == Then(t, Expect(t, ts).rest)
  {}

  lemma {:induction false} NameRead(ts: Tokens)
    ensures NameOf(ts).Got? ==> ts == Then(Name(NameOf(ts).node), NameOf(ts).rest)
  {}

  lemma {:induction false} LinksRead(ts: Tokens, links: seq<LhsLink>, rest: Tokens)
    requires LhsPrimeOf(ts) == Got(links, rest)
    ensures LinksOk(links) && ts == SpellLinks(links, rest)
    decreases |ts|, 0
  {
    hide Expect, NameOf, Then, ExpressionOf, SpellExpression, ExpressionOk;
    if Head(ts) == Dot {
      Uncons(ts);
      NameRead(ts[1..]);
      LinksRead(NameOf(ts[1..]).rest, links[1..], rest);
    } else if Head(ts) == LBracket {
      Uncons(ts);
      var t1 := ExpressionOf(ts[1..]).rest;
      var t2 := Expect(RBracket, t1).rest;
      Expected(RBracket, t1);
      ExpressionRead(ts[1..], links[0].index, t1);
      LinksRead(t2, links[1..], rest);
    }
  }

  lemma {:induction false} LhsRead(ts: Tokens, n: LhsNode, rest: Tokens)
    requires LhsOf(ts) == Got(n, rest)
    ensures LinksOk(n.inside) && ts == SpellLhs(n, rest)
    decreases |ts|, 0
  {
    hide LhsPrimeOf, SpellLinks, LinksOk;
    NameRead(ts);
    LinksRead(NameOf(ts).rest, n.inside, rest);
  }

  lemma {:induction false} MoreArgumentsRead(ts: Tokens, es: seq<ExpressionNode>, rest: Tokens)
    requires MoreArgumentsOf(ts) == Got(es, rest)
    ensures ArgumentsOk(es) && ts == SpellMoreArguments(es, rest)
    decreases |ts|, 0
  {
    hide ExpressionOf, SpellExpression, ExpressionOk;
    if Head(ts) == Comma {
      Uncons(ts);
      var t1 := ExpressionOf(ts[1..]).rest;
      ExpressionRead(ts[1..], es[0], t1);
      MoreArgumentsRead(t1, es[1..], rest);
    }
  }

  lemma {:induction false} ArgumentsRead(ts: Tokens, es: seq<ExpressionNode>, rest: Tokens)
    requires ArgumentsOf(ts) == Got(es, rest)
    ensures ArgumentsOk(es) && ts == SpellArguments(es, rest)
    decreases |ts|, 10
  {
    hide ExpressionOf, SpellExpression, ExpressionOk, MoreArgumentsOf, SpellMoreArguments;
    if Head(ts) != RParen {
      var t1 := ExpressionOf(ts).rest;
      ExpressionRead(ts, es[0], t1);
      MoreArgumentsRead(t1, es[1..], rest);
    }
  }

  /** A call's text behind its left-hand side. */
  lemma {:induction false} CallRestRead(lhs: LhsNode, ts: Tokens, n: CallNode, rest: Tokens)
    requires CallRestOf(lhs, ts) == Got(n, rest)
    ensures n.lhs == lhs && ArgumentsOk(n.arguments)
    ensures ts == Then(LParen, SpellArguments(n.arguments, Then(RParen, rest)))
    decreases |ts|, 0
  {
    hide ArgumentsOf, SpellArguments, ArgumentsOk;
    var t1 := Expect(LParen, ts).rest;
    var t2 := ArgumentsOf(t1).rest;
    Expected(LParen, ts);
    ArgumentsRead(t1, n.arguments, t2);
    Expected(RParen, t2);
  }

  lemma {:induction false} UnitBodyRead(ts: Tokens, u: UnitBody, rest: Tokens)
    requires UnitBodyOf(ts) == Got(u, rest)
    ensures UnitBodyOk(u) && ts == SpellUnitBody(u, rest)
    decreases |ts|, 1
  {
    hide BooleanOf, SpellBoolean, BooleanOk, LhsOf, SpellLhs, LinksOk, CallRestOf, SpellArguments, ArgumentsOk;
    if Head(ts) == LParen {
      Uncons(ts);
      var t1 := BooleanOf(ts[1..]).rest;
      BooleanRead(ts[1..], u.inner, t1);
      Expected(RParen, t1);
    } else if Head(ts).Name? {
      var lhs, t1 := LhsOf(ts).node, LhsOf(ts).rest;
      LhsRead(ts, lhs, t1);
      if Head(t1) == LParen { CallRestRead(lhs, t1, u.call, rest); }
    } else {
      Uncons(ts);
    }
  }

  lemma {:induction false} UnitRead(ts: Tokens, u: UnitNode, rest: Tokens)
    requires UnitOf(ts) == Got(u, rest)
    ensures UnitOk(u) && ts == SpellUnit(u, rest)
    decreases |ts|, 2
  {
    hide UnitBodyOf, SpellUnitBody, UnitBodyOk;
    if Head(ts) == Minus {
      Uncons(ts);
      UnitBodyRead(ts[1..], u.body, rest);
    } else {
      UnitBodyRead(ts, u.body, rest);
    }
  }

  lemma {:induction false} FactorsRead(ts: Tokens, links: seq<UnitLink>, rest: Tokens)
    requires ProductPrimeOf(ts) == Got(links, rest)
    ensures FactorsOk(links) && ts == SpellFactors(links, rest)
    decreases |ts|, 0
  {
    hide UnitOf, SpellUnit, UnitOk;
    if IsProductOp(Head(ts)) {
      Uncons(ts);
      var t1 := UnitOf(ts[1..]).rest;
      UnitRead(ts[1..], links[0].node, t1);
      FactorsRead(t1, links[1..], rest);
    }
  }

  lemma {:induction false} ProductRead(ts: Tokens, p: ProductNode, rest: Tokens)
    requires ProductOf(ts) == Got(p, rest)
    ensures ProductOk(p) && ts == SpellProduct(p, rest)
    decreases |ts|, 3
  {
    hide UnitOf, SpellUnit, UnitOk, ProductPrimeOf, SpellFactors, FactorsOk;
    var t1 := UnitOf(ts).rest;
    UnitRead(ts, p.unit, t1);
    FactorsRead(t1, p.rest, rest);
  }

  lemma {:induction false} TermsRead(ts: Tokens, links: seq<ProductLink>, rest: Tokens)
    requires ArithmeticPrimeOf(ts) == Got(links, rest)
    ensures TermsOk(links) && ts == SpellTerms(links, rest)
    decreases |ts|, 0
  {
    hide ProductOf, SpellProduct, ProductOk;
    if IsArithmeticOp(Head(ts)) {
      Uncons(ts);
      var t1 := ProductOf(ts[1..]).rest;
      ProductRead(ts[1..], links[0].node, t1);
      TermsRead(t1, links[1..], rest);
    }
  }

  lemma {:induction false} ArithmeticRead(ts: Tokens, a: ArithmeticNode, rest: Tokens)
    requires ArithmeticOf(ts) == Got(a, rest)
    ensures ArithmeticOk(a) && ts == SpellArithmetic(a, rest)
    decreases |ts|, 4
  {
    hide ProductOf, SpellProduct, ProductOk, ArithmeticPrimeOf, SpellTerms, TermsOk;
    var t1 := ProductOf(ts).rest;
    ProductRead(ts, a.product, t1);
    TermsRead(t1, a.rest, rest);
  }

  lemma {:induction false} PredicateRead(ts: Tokens, p: PredicateNode, rest: Tokens)
    requires PredicateOf(ts) == Got(p, rest)
    ensures PredicateOk(p) && ts == SpellPredicate(p, rest)
    decreases |ts|, 5
  {
    hide ArithmeticOf, SpellArithmetic, ArithmeticOk;
    var a, t1 := ArithmeticOf(ts).node, ArithmeticOf(ts).rest;
    ArithmeticRead(ts, a, t1);
    if IsComparison(Head(t1)) {
      Uncons(t1);
      ArithmeticRead(t1[1..], p.right, rest);
    }
  }

  lemma {:induction false} BoolUnitRead(ts: Tokens, b: BoolUnitNode, rest: Tokens)
    requires BoolUnitOf(ts) == Got(b, rest)
    ensures BoolUnitOk(b) && ts == SpellBoolUnit(b, rest)
    decreases |ts|, 6
  {
    hide PredicateOf, SpellPredicate, PredicateOk;
    if Head(ts) == Bang {
      Uncons(ts);
      PredicateRead(ts[1..], b.body, rest);
    } else {
      PredicateRead(ts, b.body, rest);
    }
  }

  lemma {:induction false} ConjunctsRead(ts: Tokens, links: seq<BoolUnitLink>, rest: Tokens)
    requires ConjunctionPrimeOf(ts) == Got(links, rest)
    ensures ConjunctsOk(links) && ts == SpellConjuncts(links, rest)
    decreases |ts|, 0
  {
    hide BoolUnitOf, SpellBoolUnit, BoolUnitOk;
    if Head(ts) == Amp {
      Uncons(ts);
      var t1 := BoolUnitOf(ts[1..]).rest;
      BoolUnitRead(ts[1..], links[0].node, t1);
      ConjunctsRead(t1, links[1..], rest);
    }
  }

  lemma {:induction false} ConjunctionRead(ts: Tokens, c: ConjunctionNode, rest: Tokens)
    requires ConjunctionOf(ts) == Got(c, rest)
    ensures ConjunctionOk(c) && ts == SpellConjunction(c, rest)
    decreases |ts|, 7
  {
    hide BoolUnitOf, SpellBoolUnit, BoolUnitOk, ConjunctionPrimeOf, SpellConjuncts, ConjunctsOk;
    var t1 := BoolUnitOf(ts).rest;
    BoolUnitRead(ts, c.unit, t1);
    ConjunctsRead(t1, c.rest, rest);
  }

  lemma {:induction false} DisjunctsRead(ts: Tokens, links: seq<ConjunctionLink>, rest: Tokens)
    requires BooleanPrimeOf(ts) == Got(links, rest)
    ensures DisjunctsOk(links) && ts == SpellDisjuncts(links, rest)
    decreases |ts|, 0
  {
    hide ConjunctionOf, SpellConjunction, ConjunctionOk;
    if Head(ts) == Bar {
      Uncons(ts);
      var t1 := ConjunctionOf(ts[1..]).rest;
      ConjunctionRead(ts[1..], links[0].node, t1);
      DisjunctsRead(t1, links[1..], rest);
    }
  }

  lemma {:induction false} BooleanRead(ts: Tokens, b: BooleanNode, rest: Tokens)
    requires BooleanOf(ts) == Got(b, rest)
    ensures BooleanOk(b) && ts == SpellBoolean(b, rest)
    decreases |ts|, 8
  {
    hide ConjunctionOf, SpellConjunction, ConjunctionOk, BooleanPrimeOf, SpellDisjuncts, DisjunctsOk;
    var t1 := ConjunctionOf(ts).rest;
    ConjunctionRead(ts, b.conjunction, t1);
    DisjunctsRead(t1, b.rest, rest);
  }

  lemma {:induction false} FieldsRead(ts: Tokens, fs: seq<FieldNode>, rest: Tokens)
    requires FieldsOf(ts) == Got(fs, rest)
    ensures FieldsOk(fs) && ts == SpellFields(fs, rest) && Head(rest) == RBrace
    decreases |ts|, 0
  {
    hide Expect, NameOf, Then, ExpressionOf, SpellExpression, ExpressionOk;
    if Head(ts) != RBrace {
      var t1 := NameOf(ts).rest;
      var t2 := Expect(Colon, t1).rest;
      var t3 := ExpressionOf(t2).rest;
      var t4 := Expect(Semicolon, t3).rest;
      NameRead(ts);
      Expected(Colon, t1);
      ExpressionRead(t2, fs[0].value, t3);
      Expected(Semicolon, t3);
      FieldsRead(t4, fs[1..], rest);
    }
  }

  lemma {:induction false} RecordRead(ts: Tokens, e: ExpressionNode, rest: Tokens)
    requires RecordOf(ts) == Got(e, rest)
    ensures ExpressionOk(e) && ts == SpellExpression(e, rest)
    decreases |ts|, 0
  {
    hide Expect, NameOf, Then, FieldsOf, SpellFields, FieldsOk;
    var t1 := Expect(LBrace, ts).rest;
    var t2 := FieldsOf(t1).rest;
    Expected(LBrace, ts);
    FieldsRead(t1, e.fields, t2);
    Expected(RBrace, t2);
  }

  lemma {:induction false} MoreParametersRead(ts: Tokens, xs: seq<string>, rest: Tokens)
    requires MoreParametersOf(ts) == Got(xs, rest)
    ensures ts == SpellMoreParameters(xs, rest)
    decreases |ts|
  {
    if Head(ts) == Comma {
      Uncons(ts);
      NameRead(ts[1..]);
      MoreParametersRead(NameOf(ts[1..]).rest, xs[1..], rest);
    }
  }

  lemma {:induction false} ParametersRead(ts: Tokens, xs: seq<string>, rest: Tokens)
    requires ParametersOf(ts) == Got(xs, rest)
    ensures ts == SpellParameters(xs, rest)
  {
    hide MoreParametersOf, SpellMoreParameters;
    if Head(ts) != RParen {
      NameRead(ts);
      MoreParametersRead(NameOf(ts).rest, xs[1..], rest);
    }
  }

  lemma {:induction false} FunctionRead(ts: Tokens, e: ExpressionNode, rest: Tokens)
    requires FunctionOf(ts) == Got(e, rest)
    ensures ExpressionOk(e) && ts == SpellExpression(e, rest)
    decreases |ts|, 0
  {
    hide Expect, NameOf, Then, ParametersOf, SpellParameters, BlockOf, SpellBlock, StatementsOk;
    var t1 := Expect(KwFun, ts).rest;
    var t2 := Expect(LParen, t1).rest;
    var t3 := ParametersOf(t2).rest;
    var t4 := Expect(RParen, t3).rest;
    Expected(KwFun, ts);
    Expected(LParen, t1);
    ParametersRead(t2, e.params, t3);
    Expected(RParen, t3);
    BlockRead(t4, e.body, rest);
  }

  lemma {:induction false} ExpressionRead(ts: Tokens, e: ExpressionNode, rest: Tokens)
    requires ExpressionOf(ts) == Got(e, rest)
    ensures ExpressionOk(e) && ts == SpellExpression(e, rest)
    decreases |ts|, 9
  {
    hide RecordOf, FunctionOf, BooleanOf, SpellBoolean, BooleanOk;
    if Head(ts) == LBrace { RecordRead(ts, e, rest); }
    else if Head(ts) == KwFun { FunctionRead(ts, e, rest); }
    else { BooleanRead(ts, e.boolean, rest); }
  }

  lemma {:induction false} ConditionRead(ts: Tokens, c: ExpressionNode, rest: Tokens)
    requires ConditionOf(ts) == Got(c, rest)
    ensures ExpressionOk(c) && ts == SpellCondition(c, rest)
    decreases |ts|, 0
  {
    hide Expect, NameOf, Then, ExpressionOf, SpellExpression, ExpressionOk;
    var t1 := Expect(LParen, ts).rest;
    var t2 := ExpressionOf(t1).rest;
    Expected(LParen, ts);
    ExpressionRead(t1, c, t2);
    Expected(RParen, t2);
  }

  lemma {:induction false} BlockRead(ts: Tokens, ss: seq<StatementNode>, rest: Tokens)
    requires BlockOf(ts) == Got(ss, rest)
    ensures StatementsOk(ss) && ts == SpellBlock(ss, rest)
    decreases |ts|, 0
  {
    hide Expect, NameOf, Then, StatementsOf, SpellStatements, StatementsOk;
    var t1 := Expect(LBrace, ts).rest;
    var t2 := StatementsOf(t1).rest;
    Expected(LBrace, ts);
    StatementsRead(t1, ss, t2);
    Expected(RBrace, t2);
  }

  lemma {:induction false} StatementsRead(ts: Tokens, ss: seq<StatementNode>, rest: Tokens)
    requires StatementsOf(ts) == Got(ss, rest)
    ensures StatementsOk(ss) && ts == SpellStatements(ss, rest)
    ensures Head(rest) == RBrace || Head(rest) == EndOfFile
    decreases |ts|, 3
  {
    hide StatementOf, SpellStatement, StatementOk;
    if Head(ts) != RBrace && Head(ts) != EndOfFile {
      var t1 := StatementOf(ts).rest;
      StatementRead(ts, ss[0], t1);
      StatementsRead(t1, ss[1..], rest);
    }
  }

  lemma {:induction false} IfRead(ts: Tokens, s: StatementNode, rest: Tokens)
    requires IfOf(ts) == Got(s, rest)
    ensures StatementOk(s) && ts == SpellStatement(s, rest)
    decreases |ts|, 0
  {
    hide Expect, NameOf, Then, ConditionOf, SpellCondition, ExpressionOk, BlockOf, SpellBlock, StatementsOk;
    var t0 := Expect(KwIf, ts).rest;
    var t1 := ConditionOf(t0).rest;
    var thn, t2 := BlockOf(t1).node, BlockOf(t1).rest;
    Expected(KwIf, ts);
    ConditionRead(t0, s.cond, t1);
    BlockRead(t1, thn, t2);
    if Head(t2) == KwElse {
      Uncons(t2);
      BlockRead(t2[1..], s.elseBlock, rest);
    }
  }

  lemma {:induction false} WhileRead(ts: Tokens, s: StatementNode, rest: Tokens)
    requires WhileOf(ts) == Got(s, rest)
    ensures StatementOk(s) && ts == SpellStatement(s, rest)
    decreases |ts|, 0
  {
    hide Expect, NameOf, Then, ConditionOf, SpellCondition, ExpressionOk, BlockOf, SpellBlock, StatementsOk;
    var t0 := Expect(KwWhile, ts).rest;
    var t1 := ConditionOf(t0).rest;
    Expected(KwWhile, ts);
    ConditionRead(t0, s.cond, t1);
    BlockRead(t1, s.body, rest);
  }

  lemma {:induction false} ReturnRead(ts: Tokens, s: StatementNode, rest: Tokens)
    requires ReturnOf(ts) == Got(s, rest)
    ensures StatementOk(s) && ts == SpellStatement(s, rest)
    decreases |ts|, 0
  {
    hide Expect, NameOf, Then, ExpressionOf, SpellExpression, ExpressionOk;
    var t0 := Expect(KwReturn, ts).rest;
    var t1 := ExpressionOf(t0).rest;
    Expected(KwReturn, ts);
    ExpressionRead(t0, s.result, t1);
    Expected(Semicolon, t1);
  }

  lemma {:induction false} GlobalRead(ts: Tokens, s: StatementNode, rest: Tokens)
    requires GlobalOf(ts) == Got(s, rest)
    ensures StatementOk(s) && ts == SpellStatement(s, rest)
  {
    var t1 := Expect(KwGlobal, ts).rest;
    var t2 := NameOf(t1).rest;
    Expected(KwGlobal, ts);
    NameRead(t1);
    Expected(Semicolon, t2);
  }

  lemma {:induction false} AfterLhsRead(lhs: LhsNode, ts: Tokens, s: StatementNode, rest: Tokens)
    requires AfterLhsOf(lhs, ts) == Got(s, rest) && LinksOk(lhs.inside)
    ensures StatementOk(s) && SpellLhs(lhs, ts) == SpellStatement(s, rest)
    decreases |ts|, 1
  {
    hide Expect, NameOf, Then, ExpressionOf, SpellExpression, ExpressionOk, CallRestOf, SpellArguments, ArgumentsOk, LinksOk, SpellLhs;
    if Head(ts) == Assign {
      Uncons(ts);
      var t1 := ExpressionOf(ts[1..]).rest;
      ExpressionRead(ts[1..], s.rhs, t1);
      Expected(Semicolon, t1);
    } else {
      var t1 := CallRestOf(lhs, ts).rest;
      CallRestRead(lhs, ts, s.call, t1);
      Expected(Semicolon, t1);
    }
  }

  lemma {:induction false} StatementRead(ts: Tokens, s: StatementNode, rest: Tokens)
    requires StatementOf(ts) == Got(s, rest)
    ensures StatementOk(s) && ts == SpellStatement(s, rest)
    decreases |ts|, 2
  {
    hide GlobalOf, IfOf, WhileOf, ReturnOf, LhsOf, AfterLhsOf, SpellStatement, StatementOk, SpellLhs, LinksOk;
    match Head(ts)
    case KwGlobal => GlobalRead(ts, s, rest);
    case KwIf => IfRead(ts, s, rest);
    case KwWhile => WhileRead(ts, s, rest);
    case KwReturn => ReturnRead(ts, s, rest);
    case _ =>
      var lhs, t1 := LhsOf(ts).node, LhsOf(ts).rest;
      LhsRead(ts, lhs, t1);
      AfterLhsRead(lhs, t1, s, rest);
  }

  // ---------------------------------------------------------------- what is spelled is read

  // What may follow: a token that continues no level up to this one.

  predicate EndsLhs(t: Token) { t != Dot && t != LBracket }
  predicate EndsUnit(t: Token) { EndsLhs(t) && t != LParen }
  predicate EndsProduct(t: Token) { EndsUnit(t) && !IsProductOp(t) }
  predicate EndsArithmetic(t: Token) { EndsProduct(t) && !IsArithmeticOp(t) }
  predicate EndsPredicate(t: Token) { EndsArithmetic(t) && !IsComparison(t) }
  predicate EndsConjunction(t: Token) { EndsPredicate(t) && t != Amp }
  predicate EndsExpression(t: Token) { EndsConjunction(t) && t != Bar }

  // What a text begins with.

  predicate StartsUnitBody(t: Token) { t == LParen || t.Name? || IsConstant(t) }
  predicate StartsUnit(t: Token) { t == Minus || StartsUnitBody(t) }
  predicate StartsBoolean(t: Token) { t == Bang || StartsUnit(t) }
  predicate StartsExpression(t: Token) { t == LBrace || t == KwFun || StartsBoolean(t) }
  predicate StartsStatement(t: Token) { t == KwGlobal || t == KwIf || t == KwWhile || t == KwReturn || t.Name? }

  lemma {:induction false} Recons<T>(s: seq<T>)
    requires s != []
    ensures [s[0]] + s[1..] == s
  {}

  lemma {:induction false} LinksSpelled(links: seq<LhsLink>, rest: Tokens)
    requires LinksOk(links) && EndsLhs(Head(rest))
    ensures LhsPrimeOf(SpellLinks(links, rest)) == Got(links, rest)
    decreases links
  {
    hide ExpressionOf, SpellExpression, ExpressionOk, Then;
    if links != [] {
      var more := SpellLinks(links[1..], rest);
      Recons(links);
      LinksSpelled(links[1..], rest);
      if links[0].IndexLink? { IndexSpelled(links[0], Then(RBracket, more)); }
    }
  }

  lemma {:induction false} IndexSpelled(link: LhsLink, rest: Tokens)
    requires link.IndexLink? && LinkOk(link) && EndsExpression(Head(rest))
    ensures ExpressionOf(SpellExpression(link.index, rest)) == Got(link.index, rest)
    decreases link
  {
    ExpressionSpelled(link.index, rest);
  }

  lemma {:induction false} LhsSpelled(n: LhsNode, rest: Tokens)
    requires LinksOk(n.inside) && EndsLhs(Head(rest))
    ensures LhsOf(SpellLhs(n, rest)) == Got(n, rest) && Head(SpellLhs(n, rest)).Name?
    decreases n
  {
    hide LhsPrimeOf, SpellLinks, LinksOk;
    LinksSpelled(n.inside, rest);
  }

  lemma {:induction false} MoreArgumentsSpelled(es: seq<ExpressionNode>, rest: Tokens)
    requires ArgumentsOk(es) && Head(rest) == RParen
    ensures MoreArgumentsOf(SpellMoreArguments(es, rest)) == Got(es, rest)
    ensures EndsExpression(Head(SpellMoreArguments(es, rest)))
    decreases es, 0
  {
    hide ExpressionOf, SpellExpression, ExpressionOk;
    if es != [] {
      Recons(es);
      MoreArgumentsSpelled(es[1..], rest);
      ExpressionSpelled(es[0], SpellMoreArguments(es[1..], rest));
    }
  }

  lemma {:induction false} ArgumentsSpelled(es: seq<ExpressionNode>, rest: Tokens)
    requires ArgumentsOk(es) && Head(rest) == RParen
    ensures ArgumentsOf(SpellArguments(es, rest)) == Got(es, rest)
    decreases es, 1
  {
    hide ExpressionOf, SpellExpression, ExpressionOk, MoreArgumentsOf, SpellMoreArguments;
    if es != [] {
      Recons(es);
      MoreArgumentsSpelled(es[1..], rest);
      ExpressionSpelled(es[0], SpellMoreArguments(es[1..], rest));
    }
  }

  lemma {:induction false} CallRestSpelled(n: CallNode, rest: Tokens)
    requires ArgumentsOk(n.arguments)
    ensures CallRestOf(n.lhs, Then(LParen, SpellArguments(n.arguments, Then(RParen, rest)))) == Got(n, rest)
    decreases n, 0
  {
    hide ArgumentsOf, SpellArguments, ArgumentsOk;
    ArgumentsSpelled(n.arguments, Then(RParen, rest));
  }

  /** A call is a left-hand side and its parentheses. */
  lemma {:induction false} CallSpelled(n: CallNode, rest: Tokens)
    requires CallOk(n)
    ensures var ts := SpellCall(n, rest);
      && Head(ts).Name? && LhsOf(ts).Got? && LhsOf(ts).node == n.lhs && Head(LhsOf(ts).rest) == LParen
      && CallRestOf(n.lhs, LhsOf(ts).rest) == Got(n, rest)
    decreases n, 1
  {
    hide ArgumentsOf, SpellArguments, ArgumentsOk, LhsOf, SpellLhs, LinksOk, CallRestOf;
    LhsSpelled(n.lhs, Then(LParen, SpellArguments(n.arguments, Then(RParen, rest))));
    CallRestSpelled(n, rest);
  }

  lemma {:induction false} UnitBodySpelled(u: UnitBody, rest: Tokens)
    requires UnitBodyOk(u) && EndsUnit(Head(rest))
    ensures UnitBodyOf(SpellUnitBody(u, rest)) == Got(u, rest)
    ensures StartsUnitBody(Head(SpellUnitBody(u, rest)))
    decreases u
  {
    hide BooleanOf, SpellBoolean, BooleanOk, LhsOf, SpellLhs, LinksOk, CallRestOf, SpellCall, CallOk, Then;
    match u
    case LhsUnit(lhs) => LhsSpelled(lhs, rest);
    case ConstantUnit(t) =>
    case CallUnit(call) => CallSpelled(call, rest);
    case ParenUnit(b) => BooleanSpelled(b, Then(RParen, rest));
  }

  lemma {:induction false} UnitSpelled(u: UnitNode, rest: Tokens)
    requires UnitOk(u) && EndsUnit(Head(rest))
    ensures UnitOf(SpellUnit(u, rest)) == Got(u, rest)
    ensures StartsUnit(Head(SpellUnit(u, rest)))
    decreases u
  {
    hide UnitBodyOf, SpellUnitBody, UnitBodyOk;
    UnitBodySpelled(u.body, rest);
  }

  lemma {:induction false} FactorSpelled(link: UnitLink, rest: Tokens)
    requires FactorOk(link) && EndsUnit(Head(rest))
    ensures var ts := SpellFactor(link, rest); Head(ts) == link.op && UnitOf(ts[1..]) == Got(link.node, rest)
    decreases link
  {
    hide UnitOf, SpellUnit, UnitOk;
    UnitSpelled(link.node, rest);
  }

  lemma {:induction false} FactorsSpelled(links: seq<UnitLink>, rest: Tokens)
    requires FactorsOk(links) && EndsProduct(Head(rest))
    ensures ProductPrimeOf(SpellFactors(links, rest)) == Got(links, rest)
    ensures EndsUnit(Head(SpellFactors(links, rest)))
    decreases links
  {
    hide UnitOf, SpellFactor;
    if links != [] {
      Recons(links);
      FactorsSpelled(links[1..], rest);
      FactorSpelled(links[0], SpellFactors(links[1..], rest));
    }
  }

  lemma {:induction false} ProductSpelled(p: ProductNode, rest: Tokens)
    requires ProductOk(p) && EndsProduct(Head(rest))
    ensures ProductOf(SpellProduct(p, rest)) == Got(p, rest)
    ensures StartsUnit(Head(SpellProduct(p, rest)))
    decreases p
  {
    hide UnitOf, SpellUnit, UnitOk, ProductPrimeOf, SpellFactors, FactorsOk;
    FactorsSpelled(p.rest, rest);
    UnitSpelled(p.unit, SpellFactors(p.rest, rest));
  }

  lemma {:induction false} TermSpelled(link: ProductLink, rest: Tokens)
    requires TermOk(link) && EndsProduct(Head(rest))
    ensures var ts := SpellTerm(link, rest); Head(ts) == link.op && ProductOf(ts[1..]) == Got(link.node, rest)
    decreases link
  {
    hide ProductOf, SpellProduct, ProductOk;
    ProductSpelled(link.node, rest);
  }

  lemma {:induction false} TermsSpelled(links: seq<ProductLink>, rest: Tokens)
    requires TermsOk(links) && EndsArithmetic(Head(rest))
    ensures ArithmeticPrimeOf(SpellTerms(links, rest)) == Got(links, rest)
    ensures EndsProduct(Head(SpellTerms(links, rest)))
    decreases links
  {
    hide ProductOf, SpellTerm;
    if links != [] {
      Recons(links);
      TermsSpelled(links[1..], rest);
      TermSpelled(links[0], SpellTerms(links[1..], rest));
    }
  }

  lemma {:induction false} ArithmeticSpelled(a: ArithmeticNode, rest: Tokens)
    requires ArithmeticOk(a) && EndsArithmetic(Head(rest))
    ensures ArithmeticOf(SpellArithmetic(a, rest)) == Got(a, rest)
    ensures StartsUnit(Head(SpellArithmetic(a, rest)))
    decreases a
  {
    hide ProductOf, SpellProduct, ProductOk, ArithmeticPrimeOf, SpellTerms, TermsOk;
    TermsSpelled(a.rest, rest);
    ProductSpelled(a.product, SpellTerms(a.rest, rest));
  }

  lemma {:induction false} PredicateSpelled(p: PredicateNode, rest: Tokens)
    requires PredicateOk(p) && EndsPredicate(Head(rest))
    ensures PredicateOf(SpellPredicate(p, rest)) == Got(p, rest)
    ensures StartsUnit(Head(SpellPredicate(p, rest)))
    decreases p
  {
    hide ArithmeticOf, SpellArithmetic, ArithmeticOk;
    match p
    case Alone(a) => ArithmeticSpelled(a, rest);
    case Compared(a, op, b) =>
      ArithmeticSpelled(b, rest);
      ArithmeticSpelled(a, Then(op, SpellArithmetic(b, rest)));
  }

  lemma {:induction false} BoolUnitSpelled(b: BoolUnitNode, rest: Tokens)
    requires BoolUnitOk(b) && EndsPredicate(Head(rest))
    ensures BoolUnitOf(SpellBoolUnit(b, rest)) == Got(b, rest)
    ensures StartsBoolean(Head(SpellBoolUnit(b, rest)))
    decreases b
  {
    hide PredicateOf, SpellPredicate, PredicateOk;
    PredicateSpelled(b.body, rest);
  }

  lemma {:induction false} ConjunctSpelled(link: BoolUnitLink, rest: Tokens)
    requires ConjunctOk(link) && EndsPredicate(Head(rest))
    ensures var ts := SpellConjunct(link, rest); Head(ts) == link.op && BoolUnitOf(ts[1..]) == Got(link.node, rest)
    decreases link
  {
    hide BoolUnitOf, SpellBoolUnit, BoolUnitOk;
    BoolUnitSpelled(link.node, rest);
  }

  lemma {:induction false} ConjunctsSpelled(links: seq<BoolUnitLink>, rest: Tokens)
    requires ConjunctsOk(links) && EndsConjunction(Head(rest))
    ensures ConjunctionPrimeOf(SpellConjuncts(links, rest)) == Got(links, rest)
    ensures EndsPredicate(Head(SpellConjuncts(links, rest)))
    decreases links
  {
    assert EndsPredicate(Amp);
    hide BoolUnitOf, SpellConjunct, EndsPredicate;
    if links != [] {
      Recons(links);
      ConjunctsSpelled(links[1..], rest);
      ConjunctSpelled(links[0], SpellConjuncts(links[1..], rest));
    }
  }

  lemma {:induction false} ConjunctionSpelled(c: ConjunctionNode, rest: Tokens)
    requires ConjunctionOk(c) && EndsConjunction(Head(rest))
    ensures ConjunctionOf(SpellConjunction(c, rest)) == Got(c, rest)
    ensures StartsBoolean(Head(SpellConjunction(c, rest)))
    decreases c
  {
    hide BoolUnitOf, SpellBoolUnit, BoolUnitOk, ConjunctionPrimeOf, SpellConjuncts, ConjunctsOk;
    ConjunctsSpelled(c.rest, rest);
    BoolUnitSpelled(c.unit, SpellConjuncts(c.rest, rest));
  }

  lemma {:induction false} DisjunctSpelled(link: ConjunctionLink, rest: Tokens)
    requires DisjunctOk(link) && EndsConjunction(Head(rest))
    ensures var ts := SpellDisjunct(link, rest); Head(ts) == link.op && ConjunctionOf(ts[1..]) == Got(link.node, rest)
    decreases link
  {
    hide ConjunctionOf, SpellConjunction, ConjunctionOk;
    ConjunctionSpelled(link.node, rest);
  }

  lemma {:induction false} DisjunctsSpelled(links: seq<ConjunctionLink>, rest: Tokens)
    requires DisjunctsOk(links) && EndsExpression(Head(rest))
    ensures BooleanPrimeOf(SpellDisjuncts(links, rest)) == Got(links, rest)
    ensures EndsConjunction(Head(SpellDisjuncts(links, rest)))
    decreases links
  {
    assert EndsConjunction(Bar);
    hide ConjunctionOf, SpellDisjunct, EndsConjunction;
    if links != [] {
      Recons(links);
      DisjunctsSpelled(links[1..], rest);
      DisjunctSpelled(links[0], SpellDisjuncts(links[1..], rest));
    }
  }

  lemma {:induction false} BooleanSpelled(b: BooleanNode, rest: Tokens)
    requires BooleanOk(b) && EndsExpression(Head(rest))
    ensures BooleanOf(SpellBoolean(b, rest)) == Got(b, rest)
    ensures StartsBoolean(Head(SpellBoolean(b, rest)))
    decreases b
  {
    hide ConjunctionOf, SpellConjunction, ConjunctionOk, BooleanPrimeOf, SpellDisjuncts, DisjunctsOk;
    DisjunctsSpelled(b.rest, rest);
    ConjunctionSpelled(b.conjunction, SpellDisjuncts(b.rest, rest));
  }

  lemma {:induction false} FieldSpelled(f: FieldNode, rest: Tokens)
    requires ExpressionOk(f.value) && Head(rest) == Semicolon
    ensures ExpressionOf(SpellExpression(f.value, rest)) == Got(f.value, rest)
    decreases f
  {
    hide ExpressionOf, SpellExpression, ExpressionOk;
    ExpressionSpelled(f.value, rest);
  }

  lemma {:induction false} FieldsSpelled(fs: seq<FieldNode>, rest: Tokens)
    requires FieldsOk(fs) && Head(rest) == RBrace
    ensures FieldsOf(SpellFields(fs, rest)) == Got(fs, rest)
    decreases fs
  {
    hide ExpressionOf, SpellExpression, ExpressionOk, Then;
    if fs != [] {
      Recons(fs);
      FieldsSpelled(fs[1..], rest);
      FieldSpelled(fs[0], Then(Semicolon, SpellFields(fs[1..], rest)));
    }
  }

  lemma {:induction false} MoreParametersSpelled(xs: seq<string>, rest: Tokens)
    requires Head(rest) != Comma
    ensures MoreParametersOf(SpellMoreParameters(xs, rest)) == Got(xs, rest)
  {
    if xs != [] {
      Recons(xs);
      MoreParametersSpelled(xs[1..], rest);
    }
  }

  /** A list of parameters is exactly its names with commas between them. */
  lemma {:induction false} ParametersExactly(ts: Tokens, xs: seq<string>, rest: Tokens)
    requires Head(rest) == RParen
    ensures ParametersOf(ts) == Got(xs, rest) <==> ts == SpellParameters(xs, rest)
  {
    hide MoreParametersOf, SpellMoreParameters;
    if ParametersOf(ts) == Got(xs, rest) { ParametersRead(ts, xs, rest); }
    if ts == SpellParameters(xs, rest) && xs != [] {
      Recons(xs);
      MoreParametersSpelled(xs[1..], rest);
    }
  }

  lemma {:induction false} FunctionSpelled(e: ExpressionNode, rest: Tokens)
    requires e.FunctionExpression? && ExpressionOk(e)
    ensures FunctionOf(SpellExpression(e, rest)) == Got(e, rest)
    decreases e, 0
  {
    hide ParametersOf, SpellParameters, BlockOf, SpellBlock, StatementsOk, Then;
    var body := SpellBlock(e.body, rest);
    BlockSpelled(e.body, rest);
    ParametersExactly(SpellParameters(e.params, Then(RParen, body)), e.params, Then(RParen, body));
  }

  lemma {:induction false} ExpressionSpelled(e: ExpressionNode, rest: Tokens)
    requires ExpressionOk(e) && EndsExpression(Head(rest))
    ensures ExpressionOf(SpellExpression(e, rest)) == Got(e, rest)
    ensures StartsExpression(Head(SpellExpression(e, rest)))
    decreases e, 1
  {
    hide BooleanOf, SpellBoolean, BooleanOk, FunctionOf, FieldsOf, SpellFields, FieldsOk, SpellBlock, SpellParameters;
    match e
    case FunctionExpression(_, _) => FunctionSpelled(e, rest);
    case BooleanExpression(b) => BooleanSpelled(b, rest);
    case RecordExpression(fs) => FieldsSpelled(fs, Then(RBrace, rest));
  }

  lemma {:induction false} ConditionSpelled(c: ExpressionNode, rest: Tokens)
    requires ExpressionOk(c)
    ensures ConditionOf(SpellCondition(c, rest)) == Got(c, rest)
    decreases c, 2
  {
    hide ExpressionOf, SpellExpression, ExpressionOk;
    ExpressionSpelled(c, Then(RParen, rest));
  }

  lemma {:induction false} BlockSpelled(ss: seq<StatementNode>, rest: Tokens)
    requires StatementsOk(ss)
    ensures BlockOf(SpellBlock(ss, rest)) == Got(ss, rest)
    decreases ss, 1
  {
    hide StatementsOf, SpellStatements, StatementsOk;
    StatementsSpelled(ss, Then(RBrace, rest));
  }

  lemma {:induction false} StatementsSpelled(ss: seq<StatementNode>, rest: Tokens)
    requires StatementsOk(ss) && (Head(rest) == RBrace || Head(rest) == EndOfFile)
    ensures StatementsOf(SpellStatements(ss, rest)) == Got(ss, rest)
    ensures Head(SpellStatements(ss, rest)) != KwElse
    decreases ss, 0
  {
    hide StatementOf, SpellStatement, StatementOk;
    if ss != [] {
      Recons(ss);
      StatementsSpelled(ss[1..], rest);
      StatementSpelled(ss[0], SpellStatements(ss[1..], rest));
    }
  }

  lemma {:induction false} IfSpelled(s: StatementNode, rest: Tokens)
    requires (s.IfNode? || s.IfElseNode?) && StatementOk(s) && (s.IfNode? ==> Head(rest) != KwElse)
    ensures IfOf(SpellStatement(s, rest)) == Got(s, rest) && Head(SpellStatement(s, rest)) == KwIf
    decreases s, 0
  {
    hide ConditionOf, SpellCondition, ExpressionOk, BlockOf, SpellBlock, StatementsOk, Then;
    var t := if s.IfNode? then rest else Then(KwElse, SpellBlock(s.elseBlock, rest));
    ConditionSpelled(s.cond, SpellBlock(s.thenBlock, t));
    BlockSpelled(s.thenBlock, t);
    if s.IfElseNode? { BlockSpelled(s.elseBlock, rest); }
  }

  lemma {:induction false} WhileSpelled(s: StatementNode, rest: Tokens)
    requires s.WhileNode? && StatementOk(s)
    ensures WhileOf(SpellStatement(s, rest)) == Got(s, rest) && Head(SpellStatement(s, rest)) == KwWhile
    decreases s, 0
  {
    hide ConditionOf, SpellCondition, ExpressionOk, BlockOf, SpellBlock, StatementsOk, Then;
    ConditionSpelled(s.cond, SpellBlock(s.body, rest));
    BlockSpelled(s.body, rest);
  }

  lemma {:induction false} ReturnSpelled(s: StatementNode, rest: Tokens)
    requires s.ReturnNode? && StatementOk(s)
    ensures ReturnOf(SpellStatement(s, rest)) == Got(s, rest) && Head(SpellStatement(s, rest)) == KwReturn
    decreases s, 0
  {
    hide ExpressionOf, SpellExpression, ExpressionOk, Then;
    ExpressionSpelled(s.result, Then(Semicolon, rest));
  }

  lemma {:induction false} AssignmentSpelled(s: StatementNode, rest: Tokens)
    requires s.AssignmentNode? && StatementOk(s)
    ensures LhsStatementOf(SpellStatement(s, rest)) == Got(s, rest) && Head(SpellStatement(s, rest)).Name?
    decreases s, 0
  {
    hide ExpressionOf, SpellExpression, ExpressionOk, LhsOf, SpellLhs, LinksOk, CallRestOf, Then;
    var t := Then(Semicolon, rest);
    ExpressionSpelled(s.rhs, t);
    LhsSpelled(s.target, Then(Assign, SpellExpression(s.rhs, t)));
  }

  lemma {:induction false} CallStatementSpelled(s: StatementNode, rest: Tokens)
    requires s.CallStatementNode? && StatementOk(s)
    ensures LhsStatementOf(SpellStatement(s, rest)) == Got(s, rest) && Head(SpellStatement(s, rest)).Name?
    decreases s, 0
  {
    hide ExpressionOf, LhsOf, SpellCall, CallOk, CallRestOf, Then;
    CallSpelled(s.call, Then(Semicolon, rest));
  }

  lemma {:induction false} GlobalSpelled(x: string, rest: Tokens)
    ensures var ts := SpellStatement(GlobalNode(x), rest); GlobalOf(ts) == Got(GlobalNode(x), rest) && Head(ts) == KwGlobal
  {
    hide Then;
  }

  lemma {:induction false} StatementSpelled(s: StatementNode, rest: Tokens)
    requires StatementOk(s) && (s.IfNode? ==> Head(rest) != KwElse)
    ensures StatementOf(SpellStatement(s, rest)) == Got(s, rest)
    ensures StartsStatement(Head(SpellStatement(s, rest)))
    decreases s, 1
  {
    hide StatementOk, SpellStatement, GlobalOf, IfOf, WhileOf, ReturnOf, LhsStatementOf;
    match s
    case GlobalNode(x) => GlobalSpelled(x, rest);
    case AssignmentNode(_, _) => AssignmentSpelled(s, rest);
    case CallStatementNode(_) => CallStatementSpelled(s, rest);
    case WhileNode(_, _) => WhileSpelled(s, rest);
    case ReturnNode(_) => ReturnSpelled(s, rest);
    case _ => IfSpelled(s, rest);
  }

  // ---------------------------------------------------------------- the language

  /** A function literal is read from exactly the tokens `fun ( x1 , ... , xn ) { body }`,
      whatever follows. */
  lemma {:induction false} LiteralExactly(ts: Tokens, xs: seq<string>, body: seq<StatementNode>, rest: Tokens)
    ensures ExpressionOf(ts) == Got(FunctionExpression(xs, body), rest) <==>
      StatementsOk(body)
      && ts == Then(KwFun, Then(LParen, SpellParameters(xs, Then(RParen, SpellBlock(body, rest)))))
  {
    hide FunctionOf, RecordOf, BooleanOf, StatementsOk, SpellParameters, SpellBlock, Then;
    var e := FunctionExpression(xs, body);
    if ExpressionOf(ts) == Got(e, rest) { ExpressionRead(ts, e, rest); }
    if StatementsOk(body) { FunctionSpelled(e, rest); }
  }

  /** A program is read from exactly the tokens it is spelled with. */
  lemma {:induction false} ProgramExactly(ts: Tokens, ss: seq<StatementNode>, rest: Tokens)
    ensures ProgramOf(ts) == Got(ss, rest) <==>
      StatementsOk(ss) && ts == SpellStatements(ss, rest) && Head(rest) == EndOfFile
    decreases |ts|
  {
    if ProgramOf(ts) == Got(ss, rest) { ProgramRead(ts, ss, rest); }
    if StatementsOk(ss) && ts == SpellStatements(ss, rest) && Head(rest) == EndOfFile { ProgramSpelled(ss, rest); }
  }

  lemma {:induction false} ProgramRead(ts: Tokens, ss: seq<StatementNode>, rest: Tokens)
    requires ProgramOf(ts) == Got(ss, rest)
    ensures StatementsOk(ss) && ts == SpellStatements(ss, rest) && Head(rest) == EndOfFile
    decreases |ts|
  {
    hide StatementOf, SpellStatement, StatementOk;
    if Head(ts) != EndOfFile {
      var t1 := StatementOf(ts).rest;
      StatementRead(ts, ss[0], t1);
      ProgramRead(t1, ss[1..], rest);
    }
  }

  lemma {:induction false} ProgramSpelled(ss: seq<StatementNode>, rest: Tokens)
    requires StatementsOk(ss) && Head(rest) == EndOfFile
    ensures ProgramOf(SpellStatements(ss, rest)) == Got(ss, rest)
    ensures Head(SpellStatements(ss, rest)) != KwElse
    decreases ss
  {
    hide StatementOf, SpellStatement, StatementOk;
    if ss != [] {
      Recons(ss);
      ProgramSpelled(ss[1..], rest);
      StatementSpelled(ss[0], SpellStatements(ss[1..], rest));
    }
  }

  /** No two programs are spelled alike. */
  lemma {:induction false} Unambiguous(ss: seq<StatementNode>, tt: seq<StatementNode>)
    requires StatementsOk(ss) && StatementsOk(tt) && SpellStatements(ss, []) == SpellStatements(tt, [])
    ensures ss == tt
  {
    hide SpellStatements, StatementsOk, ProgramOf;
    ProgramExactly(SpellStatements(ss, []), ss, []);
    ProgramExactly(SpellStatements(ss, []), tt, []);
  }
}
