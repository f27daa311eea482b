/** The concrete syntax of the recursive-descent parser, and its grammar as a
    single pass over the tokens left to read. */
module Syntax {
  import opened Basics

  datatype Token =
    | Name(text: string) | Int(value: nat) | Str(raw: string) | TrueToken | FalseToken | NoneToken
    | Star | Slash | Plus | Minus | Less | Greater | LessEqual | GreaterEqual | Equals | Amp | Bar | Bang
    | KwGlobal | KwIf | KwElse | KwWhile | KwReturn | KwFun
    | Assign | Dot | LBrace | RBrace | LParen | RParen | LBracket | RBracket | Colon | Semicolon | Comma
    | EndOfFile

  type Tokens = seq<Token>

  /** The token at the cursor. */
  function Head(ts: Tokens): Token {
    if ts == [] then EndOfFile else ts[0]
  }

  predicate IsProductOp(t: Token) { t == Star || t == Slash }
  predicate IsArithmeticOp(t: Token) { t == Plus || t == Minus }
  predicate IsComparison(t: Token) { t == Less || t == Greater || t == LessEqual || t == GreaterEqual || t == Equals }

  type BinaryToken = t: Token | IsProductOp(t) || IsArithmeticOp(t) || IsComparison(t) || t == Amp || t == Bar witness Plus

  // ---------------------------------------------------------------- concrete syntax

  // A link is an operator and its right operand: one node of a `...PrimeNode` list.

  datatype LhsLink = FieldLink(name: string) | IndexLink(index: ExpressionNode)
  datatype LhsNode = LhsNode(name: string, inside: seq<LhsLink>)
  datatype CallNode = CallNode(lhs: LhsNode, arguments: seq<ExpressionNode>)
  datatype UnitBody = LhsUnit(lhs: LhsNode) | ConstantUnit(token: Token) | CallUnit(call: CallNode) | ParenUnit(inner: BooleanNode)
  datatype UnitNode = UnitNode(minus: bool, body: UnitBody)
  datatype UnitLink = UnitLink(op: BinaryToken, node: UnitNode)
  datatype ProductNode = ProductNode(unit: UnitNode, rest: seq<UnitLink>)
  datatype ProductLink = ProductLink(op: BinaryToken, node: ProductNode)
  datatype ArithmeticNode = ArithmeticNode(product: ProductNode, rest: seq<ProductLink>)
  datatype PredicateNode = Alone(only: ArithmeticNode) | Compared(left: ArithmeticNode, op: BinaryToken, right: ArithmeticNode)
  datatype BoolUnitNode = BoolUnitNode(negate: bool, body: PredicateNode)
  datatype BoolUnitLink = BoolUnitLink(op: BinaryToken, node: BoolUnitNode)
  datatype ConjunctionNode = ConjunctionNode(unit: BoolUnitNode, rest: seq<BoolUnitLink>)
  datatype ConjunctionLink = ConjunctionLink(op: BinaryToken, node: ConjunctionNode)
  datatype BooleanNode = BooleanNode(conjunction: ConjunctionNode, rest: seq<ConjunctionLink>)
  datatype FieldNode = FieldNode(name: string, value: ExpressionNode)
  datatype ExpressionNode =
    | FunctionExpression(params: seq<string>, body: seq<StatementNode>)
    | BooleanExpression(boolean: BooleanNode)
    | RecordExpression(fields: seq<FieldNode>)
  datatype StatementNode =
    | GlobalNode(name: string)
    | AssignmentNode(target: LhsNode, rhs: ExpressionNode)
    | CallStatementNode(call: CallNode)
    | IfNode(cond: ExpressionNode, thenBlock: seq<StatementNode>)
    | IfElseNode(cond: ExpressionNode, thenBlock: seq<StatementNode>, elseBlock: seq<StatementNode>)
    | WhileNode(cond: ExpressionNode, body: seq<StatementNode>)
    | ReturnNode(result: ExpressionNode)

  // ---------------------------------------------------------------- grammar

  /** What was read and the tokens left; `Error` is a reported error. */
  datatype Read<+T> = Error | Got(node: T, rest: Tokens) {
    predicate IsFailure() { Error? }
    function PropagateFailure<U>(): Read<U>
      requires Error?
    {
      Error
    }
    function Extract(): (T, Tokens)
      requires Got?
    {
      (node, rest)
    }
  }

  function Expect(t: Token, ts: Tokens): (r: Read<Token>)
    ensures r.Got? ==> |r.rest| + 1 == |ts|
  {
    if ts != [] && ts[0] == t then Got(t, ts[1..]) else Error
  }

  function NameOf(ts: Tokens): (r: Read<string>)
    ensures r.Got? ==> |r.rest| + 1 == |ts|
  {
    if ts != [] && ts[0].Name? then Got(ts[0].text, ts[1..]) else Error
  }

  predicate IsConstant(t: Token) {
    t.Int? || t.Str? || t == TrueToken || t == FalseToken || t == NoneToken
  }

  function LhsPrimeOf(ts: Tokens): (r: Read<seq<LhsLink>>)
    ensures r.Got? ==> |r.rest| <= |ts|
    decreases |ts|, 0
  {
    if Head(ts) == Dot then
      var (x, t1) :- NameOf(ts[1..]);
      var (links, t2) :- LhsPrimeOf(t1);
      Got([FieldLink(x)] + links, t2)
    else if Head(ts) == LBracket then
      var (e, t1) :- ExpressionOf(ts[1..]);
      var (_, t2) :- Expect(RBracket, t1);
      var (links, t3) :- LhsPrimeOf(t2);
      Got([IndexLink(e)] + links, t3)
    else Got([], ts)
  }

  function LhsOf(ts: Tokens): (r: Read<LhsNode>)
    ensures r.Got? ==> |r.rest| < |ts|
    decreases |ts|, 0
  {
    var (x, t1) :- NameOf(ts);
    var (links, t2) :- LhsPrimeOf(t1);
    Got(LhsNode(x, links), t2)
  }

  /** `ParameterPrime`. */
  function MoreArgumentsOf(ts: Tokens): (r: Read<seq<ExpressionNode>>)
    ensures r.Got? ==> |r.rest| <= |ts|
    decreases |ts|, 0
  {
    if Head(ts) != Comma then Got([], ts)
    else
      var (e, t1) :- ExpressionOf(ts[1..]);
      var (es, t2) :- MoreArgumentsOf(t1);
      Got([e] + es, t2)
  }

  /** `Parameter`. */
  function ArgumentsOf(ts: Tokens): (r: Read<seq<ExpressionNode>>)
    ensures r.Got? ==> |r.rest| <= |ts|
    decreases |ts|, 10
  {
    if Head(ts) == RParen then Got([], ts)
    else
      var (e, t1) :- ExpressionOf(ts);
      var (es, t2) :- MoreArgumentsOf(t1);
      Got([e] + es, t2)
  }

  /** `Call` from its parenthesis on: the left-hand side is already read. */
  function CallRestOf(lhs: LhsNode, ts: Tokens): (r: Read<CallNode>)
    ensures r.Got? ==> |r.rest| < |ts|
    decreases |ts|, 0
  {
    var (_, t1) :- Expect(LParen, ts);
    var (es, t2) :- ArgumentsOf(t1);
    var (_, t3) :- Expect(RParen, t2);
    Got(CallNode(lhs, es), t3)
  }

  /** `Call`, `Assignment` and `CallStatement` as the rewound parser reads them:
      each reads the left-hand side itself. */
  function CallOf(ts: Tokens): (r: Read<CallNode>)
    ensures r.Got? ==> |r.rest| < |ts|
  {
    var (lhs, t1) :- LhsOf(ts);
    CallRestOf(lhs, t1)
  }

  function AssignmentOf(ts: Tokens): (r: Read<StatementNode>)
    ensures r.Got? ==> |r.rest| < |ts|
  {
    var (lhs, t1) :- LhsOf(ts);
    var (_, t2) :- Expect(Assign, t1);
    AfterLhsOf(lhs, t1)
  }

  function CallStatementOf(ts: Tokens): (r: Read<StatementNode>)
    ensures r.Got? ==> |r.rest| < |ts|
  {
    var (call, t1) :- CallOf(ts);
    var (_, t2) :- Expect(Semicolon, t1);
    Got(CallStatementNode(call), t2)
  }

  function ConstantOf(ts: Tokens): (r: Read<UnitBody>)
    ensures r.Got? ==> |r.rest| < |ts|
  {
    if IsConstant(Head(ts)) then Got(ConstantUnit(ts[0]), ts[1..]) else Error
  }

  /** `Unit` after the optional minus. */
  function UnitBodyOf(ts: Tokens): (r: Read<UnitBody>)
    ensures r.Got? ==> |r.rest| < |ts|
    decreases |ts|, 1
  {
    if Head(ts) == LParen then
      var (b, t1) :- BooleanOf(ts[1..]);
      var (_, t2) :- Expect(RParen, t1);
      Got(ParenUnit(b), t2)
    else if Head(ts).Name? then
      var (lhs, t1) :- LhsOf(ts);
      if Head(t1) == LParen then
        var (call, t2) :- CallRestOf(lhs, t1);
        Got(CallUnit(call), t2)
      else Got(LhsUnit(lhs), t1)
    else ConstantOf(ts)
  }

  function UnitOf(ts: Tokens): (r: Read<UnitNode>)
    ensures r.Got? ==> |r.rest| < |ts|
    decreases |ts|, 2
  {
    var minus := Head(ts) == Minus;
    var (body, t1) :- UnitBodyOf(if minus then ts[1..] else ts);
    Got(UnitNode(minus, body), t1)
  }

  function ProductPrimeOf(ts: Tokens): (r: Read<seq<UnitLink>>)
    ensures r.Got? ==> |r.rest| <= |ts|
    decreases |ts|, 0
  {
    if !IsProductOp(Head(ts)) then Got([], ts)
    else
      var (u, t1) :- UnitOf(ts[1..]);
      var (links, t2) :- ProductPrimeOf(t1);
      Got([UnitLink(ts[0], u)] + links, t2)
  }

  function ProductOf(ts: Tokens): (r: Read<ProductNode>)
    ensures r.Got? ==> |r.rest| < |ts|
    decreases |ts|, 3
  {
    var (u, t1) :- UnitOf(ts);
    var (links, t2) :- ProductPrimeOf(t1);
    Got(ProductNode(u, links), t2)
  }

  function ArithmeticPrimeOf(ts: Tokens): (r: Read<seq<ProductLink>>)
    ensures r.Got? ==> |r.rest| <= |ts|
    decreases |ts|, 0
  {
    if !IsArithmeticOp(Head(ts)) then Got([], ts)
    else
      var (p, t1) :- ProductOf(ts[1..]);
      var (links, t2) :- ArithmeticPrimeOf(t1);
      Got([ProductLink(ts[0], p)] + links, t2)
  }

  function ArithmeticOf(ts: Tokens): (r: Read<ArithmeticNode>)
    ensures r.Got? ==> |r.rest| < |ts|
    decreases |ts|, 4
  {
    var (p, t1) :- ProductOf(ts);
    var (links, t2) :- ArithmeticPrimeOf(t1);
    Got(ArithmeticNode(p, links), t2)
  }

  /** Comparisons do not chain. */
  function PredicateOf(ts: Tokens): (r: Read<PredicateNode>)
    ensures r.Got? ==> |r.rest| < |ts|
    decreases |ts|, 5
  {
    var (a, t1) :- ArithmeticOf(ts);
    if !IsComparison(Head(t1)) then Got(Alone(a), t1)
    else
      var (b, t2) :- ArithmeticOf(t1[1..]);
      Got(Compared(a, t1[0], b), t2)
  }

  function BoolUnitOf(ts: Tokens): (r: Read<BoolUnitNode>)
    ensures r.Got? ==> |r.rest| < |ts|
    decreases |ts|, 6
  {
    var negate := Head(ts) == Bang;
    var (p, t1) :- PredicateOf(if negate then ts[1..] else ts);
    Got(BoolUnitNode(negate, p), t1)
  }

  function ConjunctionPrimeOf(ts: Tokens): (r: Read<seq<BoolUnitLink>>)
    ensures r.Got? ==> |r.rest| <= |ts|
    decreases |ts|, 0
  {
    if Head(ts) != Amp then Got([], ts)
    else
      var (b, t1) :- BoolUnitOf(ts[1..]);
      var (links, t2) :- ConjunctionPrimeOf(t1);
      Got([BoolUnitLink(ts[0], b)] + links, t2)
  }

  function ConjunctionOf(ts: Tokens): (r: Read<ConjunctionNode>)
    ensures r.Got? ==> |r.rest| < |ts|
    decreases |ts|, 7
  {
    var (b, t1) :- BoolUnitOf(ts);
    var (links, t2) :- ConjunctionPrimeOf(t1);
    Got(ConjunctionNode(b, links), t2)
  }

  function BooleanPrimeOf(ts: Tokens): (r: Read<seq<ConjunctionLink>>)
    ensures r.Got? ==> |r.rest| <= |ts|
    decreases |ts|, 0
  {
    if Head(ts) != Bar then Got([], ts)
    else
      var (c, t1) :- ConjunctionOf(ts[1..]);
      var (links, t2) :- BooleanPrimeOf(t1);
      Got([ConjunctionLink(ts[0], c)] + links, t2)
  }

  function BooleanOf(ts: Tokens): (r: Read<BooleanNode>)
    ensures r.Got? ==> |r.rest| < |ts|
    decreases |ts|, 8
  {
    var (c, t1) :- ConjunctionOf(ts);
    var (links, t2) :- BooleanPrimeOf(t1);
    Got(BooleanNode(c, links), t2)
  }

  /** `RecordPrime`. */
  function FieldsOf(ts: Tokens): (r: Read<seq<FieldNode>>)
    ensures r.Got? ==> |r.rest| <= |ts|
    decreases |ts|, 0
  {
    if Head(ts) == RBrace then Got([], ts)
    else
      var (x, t1) :- NameOf(ts);
      var (_, t2) :- Expect(Colon, t1);
      var (e, t3) :- ExpressionOf(t2);
      var (_, t4) :- Expect(Semicolon, t3);
      var (fs, t5) :- FieldsOf(t4);
      Got([FieldNode(x, e)] + fs, t5)
  }

  function RecordOf(ts: Tokens): (r: Read<ExpressionNode>)
    ensures r.Got? ==> |r.rest| < |ts|
    decreases |ts|, 0
  {
    var (_, t1) :- Expect(LBrace, ts);
    var (fs, t2) :- FieldsOf(t1);
    var (_, t3) :- Expect(RBrace, t2);
    Got(RecordExpression(fs), t3)
  }

  /** `ArgumentPrime`. */
  function MoreParametersOf(ts: Tokens): (r: Read<seq<string>>)
    ensures r.Got? ==> |r.rest| <= |ts|
    decreases |ts|
  {
    if Head(ts) != Comma then Got([], ts)
    else
      var (x, t1) :- NameOf(ts[1..]);
      var (xs, t2) :- MoreParametersOf(t1);
      Got([x] + xs, t2)
  }

  /** `Argument`. */
  function ParametersOf(ts: Tokens): (r: Read<seq<string>>)
    ensures r.Got? ==> |r.rest| <= |ts|
  {
    if Head(ts) == RParen then Got([], ts)
    else
      var (x, t1) :- NameOf(ts);
      var (xs, t2) :- MoreParametersOf(t1);
      Got([x] + xs, t2)
  }

  function FunctionOf(ts: Tokens): (r: Read<ExpressionNode>)
    ensures r.Got? ==> |r.rest| < |ts|
    decreases |ts|, 0
  {
    var (_, t1) :- Expect(KwFun, ts);
    var (_, t2) :- Expect(LParen, t1);
    var (xs, t3) :- ParametersOf(t2);
    var (_, t4) :- Expect(RParen, t3);
    var (body, t5) :- BlockOf(t4);
    Got(FunctionExpression(xs, body), t5)
  }

  function ExpressionOf(ts: Tokens): (r: Read<ExpressionNode>)
    ensures r.Got? ==> |r.rest| < |ts|
    decreases |ts|, 9
  {
    if Head(ts) == LBrace then RecordOf(ts)
    else if Head(ts) == KwFun then FunctionOf(ts)
    else
      var (b, t1) :- BooleanOf(ts);
      Got(BooleanExpression(b), t1)
  }

  // ---------------------------------------------------------------- statements

  /** `( condition )`. */
  function ConditionOf(ts: Tokens): (r: Read<ExpressionNode>)
    ensures r.Got? ==> |r.rest| < |ts|
    decreases |ts|, 0
  {
    var (_, t1) :- Expect(LParen, ts);
    var (e, t2) :- ExpressionOf(t1);
    var (_, t3) :- Expect(RParen, t2);
    Got(e, t3)
  }

  function BlockOf(ts: Tokens): (r: Read<seq<StatementNode>>)
    ensures r.Got? ==> |r.rest| < |ts|
    decreases |ts|, 0
  {
    var (_, t1) :- Expect(LBrace, ts);
    var (ss, t2) :- StatementsOf(t1);
    var (_, t3) :- Expect(RBrace, t2);
    Got(ss, t3)
  }

  /** `BlockPrime`. */
  function StatementsOf(ts: Tokens): (r: Read<seq<StatementNode>>)
    ensures r.Got? ==> |r.rest| <= |ts|
    decreases |ts|, 3
  {
    if Head(ts) == RBrace || Head(ts) == EndOfFile then Got([], ts)
    else
      var (s, t1) :- StatementOf(ts);
      var (ss, t2) :- StatementsOf(t1);
      Got([s] + ss, t2)
  }

  function GlobalOf(ts: Tokens): (r: Read<StatementNode>)
    ensures r.Got? ==> |r.rest| < |ts|
  {
    var (_, t1) :- Expect(KwGlobal, ts);
    var (x, t2) :- NameOf(t1);
    var (_, t3) :- Expect(Semicolon, t2);
    Got(GlobalNode(x), t3)
  }

  function IfOf(ts: Tokens): (r: Read<StatementNode>)
    ensures r.Got? ==> |r.rest| < |ts|
    decreases |ts|, 0
  {
    var (_, t0) :- Expect(KwIf, ts);
    var (c, t1) :- ConditionOf(t0);
    var (thn, t2) :- BlockOf(t1);
    if Head(t2) != KwElse then Got(IfNode(c, thn), t2)
    else
      var (els, t3) :- BlockOf(t2[1..]);
      Got(IfElseNode(c, thn, els), t3)
  }

  function WhileOf(ts: Tokens): (r: Read<StatementNode>)
    ensures r.Got? ==> |r.rest| < |ts|
    decreases |ts|, 0
  {
    var (_, t0) :- Expect(KwWhile, ts);
    var (c, t1) :- ConditionOf(t0);
    var (body, t2) :- BlockOf(t1);
    Got(WhileNode(c, body), t2)
  }

  function ReturnOf(ts: Tokens): (r: Read<StatementNode>)
    ensures r.Got? ==> |r.rest| < |ts|
    decreases |ts|, 0
  {
    var (_, t0) :- Expect(KwReturn, ts);
    var (e, t1) :- ExpressionOf(t0);
    var (_, t2) :- Expect(Semicolon, t1);
    Got(ReturnNode(e), t2)
  }

  /** An assignment or a call, its left-hand side already read. */
  function AfterLhsOf(lhs: LhsNode, ts: Tokens): (r: Read<StatementNode>)
    ensures r.Got? ==> |r.rest| < |ts|
    decreases |ts|, 1
  {
    if Head(ts) == Assign then
      var (e, t1) :- ExpressionOf(ts[1..]);
      var (_, t2) :- Expect(Semicolon, t1);
      Got(AssignmentNode(lhs, e), t2)
    else
      var (call, t1) :- CallRestOf(lhs, ts);
      var (_, t2) :- Expect(Semicolon, t1);
      Got(CallStatementNode(call), t2)
  }

  function LhsStatementOf(ts: Tokens): (r: Read<StatementNode>)
    ensures r.Got? ==> |r.rest| < |ts|
    decreases |ts|, 1
  {
    var (lhs, t1) :- LhsOf(ts);
    AfterLhsOf(lhs, t1)
  }

  function StatementOf(ts: Tokens): (r: Read<StatementNode>)
    ensures r.Got? ==> |r.rest| < |ts|
    decreases |ts|, 2
  {
    match Head(ts)
    case KwGlobal => GlobalOf(ts)
    case KwIf => IfOf(ts)
    case KwWhile => WhileOf(ts)
    case KwReturn => ReturnOf(ts)
    case _ => LhsStatementOf(ts)
  }

  /** A program: statements up to the end of file. */
  function ProgramOf(ts: Tokens): (r: Read<seq<StatementNode>>)
    decreases |ts|
  {
    if Head(ts) == EndOfFile then Got([], ts)
    else
      var (s, t1) :- StatementOf(ts);
      var (ss, t2) :- ProgramOf(t1);
      Got([s] + ss, t2)
  }
}
