/** The recursive-descent parser as it is written: one cursor over the tokens,
    consumed, peeked at and rewound. It is proved to read exactly what the
    single-pass grammar reads and never to move past the end of file. */
module Parser {
  import opened Basics
  import opened Syntax

  /** What the token after the left-hand side decides. */
  lemma {:induction false} RewindingIsHarmless(ts: Tokens)
    ensures LhsOf(ts).Error? ==> LhsStatementOf(ts).Error?
    ensures LhsOf(ts).Got? ==>
      LhsStatementOf(ts) == match Head(LhsOf(ts).rest)
        case Assign => AssignmentOf(ts)
        case LParen => CallStatementOf(ts)
        case _ => Error
  {
    hide LhsOf, ExpressionOf, ArgumentsOf;
    if LhsOf(ts).Got? {
      var lhs, t1 := LhsOf(ts).node, LhsOf(ts).rest;
      assert LhsStatementOf(ts) == AfterLhsOf(lhs, t1);
      match Head(t1)
      case Assign =>
      case LParen => assert CallOf(ts) == CallRestOf(lhs, t1);
      case _ => assert CallRestOf(lhs, t1).Error?;
    }
  }

  class Parser {
    const tokens: Tokens
    var index: nat

    /** The cursor is on a token, and the last token is the end of file. */
    ghost predicate Valid()
      reads this
    {
      index < |tokens| && tokens[|tokens|-1] == EndOfFile
    }

    ghost function Rest(): Tokens
      requires Valid()
      reads this
    {
      tokens[index..]
    }

    /** `None` is a reported error; otherwise node and cursor are the grammar's. */
    ghost predicate Did<T>(r: Option<T>, spec: Read<T>)
      reads this
    {
      match spec
      case Error => r.None?
      case Got(node, rest) => r == Some(node) && Valid() && Rest() == rest
    }

    constructor (tokens: Tokens)
      requires tokens != [] && tokens[|tokens|-1] == EndOfFile
      ensures Valid() && Rest() == tokens
    {
      this.tokens := tokens;
      index := 0;
    }

    /** `tokens.get(tokens.index())`. */
    method Peek() returns (t: Token)
      requires Valid()
      ensures t == Head(Rest())
    {
      t := tokens[index];
    }

    method Consume()
      requires Valid() && Head(Rest()) != EndOfFile
      modifies this
      ensures Valid() && Rest() == old(Rest())[1..] && index == old(index) + 1
    {
      index := index + 1;
    }

    /** One expected token; anything else is an error. */
    method Accept(t: Token) returns (ok: bool)
      requires Valid() && t != EndOfFile
      modifies this
      ensures ok == Expect(t, old(Rest())).Got?
      ensures ok ==> Valid() && Rest() == Expect(t, old(Rest())).rest && index == old(index) + 1
    {
      var token := Peek();
      ok := token == t;
      if ok { Consume(); }
    }

    method AcceptName() returns (r: Option<string>)
      requires Valid()
      modifies this
      ensures Did(r, NameOf(old(Rest())))
    {
      var token := Peek();
      if !token.Name? { return None; }
      Consume();
      r := Some(token.text);
    }

    // -------------------------------------------------------------- left-hand sides and calls

    method LhsPrime() returns (r: Option<seq<LhsLink>>)
      requires Valid()
      modifies this
      ensures Did(r, LhsPrimeOf(old(Rest())))
      decreases |tokens| - index, 0
    {
      var token := Peek();
      if token == Dot {
        Consume();
        var name := AcceptName();
        if name == None { return None; }
        var links := LhsPrime();
        if links == None { return None; }
        r := Some([FieldLink(name.value)] + links.value);
      } else if token == LBracket {
        Consume();
        var expr := Expression();
        if expr == None { return None; }
        var ok := Accept(RBracket);
        if !ok { return None; }
        var links := LhsPrime();
        if links == None { return None; }
        r := Some([IndexLink(expr.value)] + links.value);
      } else {
        r := Some([]);
      }
    }

    method Lhs() returns (r: Option<LhsNode>)
      requires Valid()
      modifies this
      ensures Did(r, LhsOf(old(Rest())))
      decreases |tokens| - index, 0
    {
      var name := AcceptName();
      if name == None { return None; }
      var inside := LhsPrime();
      if inside == None { return None; }
      r := Some(LhsNode(name.value, inside.value));
    }

    method ParameterPrime() returns (r: Option<seq<ExpressionNode>>)
      requires Valid()
      modifies this
      ensures Did(r, MoreArgumentsOf(old(Rest())))
      decreases |tokens| - index, 0
    {
      var token := Peek();
      if token != Comma { return Some([]); }
      Consume();
      var expr := Expression();
      if expr == None { return None; }
      var rest := ParameterPrime();
      if rest == None { return None; }
      r := Some([expr.value] + rest.value);
    }

    method Parameter() returns (r: Option<seq<ExpressionNode>>)
      requires Valid()
      modifies this
      ensures Did(r, ArgumentsOf(old(Rest())))
      decreases |tokens| - index, 11
    {
      var token := Peek();
      if token == RParen { return Some([]); }
      var expr := Expression();
      if expr == None { return None; }
      var rest := ParameterPrime();
      if rest == None { return None; }
      r := Some([expr.value] + rest.value);
    }

    method Call() returns (r: Option<CallNode>)
      requires Valid()
      modifies this
      ensures Did(r, CallOf(old(Rest())))
      decreases |tokens| - index, 1
    {
      var lhs := Lhs();
      if lhs == None { return None; }
      var ok := Accept(LParen);
      if !ok { return None; }
      var args := Parameter();
      if args == None { return None; }
      ok := Accept(RParen);
      if !ok { return None; }
      r := Some(CallNode(lhs.value, args.value));
    }

    // -------------------------------------------------------------- operators

    method Constant() returns (r: Option<UnitBody>)
      requires Valid()
      modifies this
      ensures Did(r, ConstantOf(old(Rest())))
    {
      var token := Peek();
      if !IsConstant(token) { return None; }
      Consume();
      r := Some(ConstantUnit(token));
    }

    /** The left-hand side is read to see whether a call follows, then the cursor
        goes back and it is read again. */
    method UnitBodyHere() returns (r: Option<UnitBody>)
      requires Valid()
      modifies this
      ensures Did(r, UnitBodyOf(old(Rest())))
      decreases |tokens| - index, 2
    {
      var token := Peek();
      if token == LParen {
        Consume();
        var boolean := Boolean();
        if boolean == None { return None; }
        var ok := Accept(RParen);
        if !ok { return None; }
        r := Some(ParenUnit(boolean.value));
      } else if token.Name? {
        var curTokenIndex := index;
        var lhs := Lhs();
        if lhs == None { return None; }
        token := Peek();
        if token == LParen {
          index := curTokenIndex;
          var call := Call();
          if call == None { return None; }
          r := Some(CallUnit(call.value));
        } else {
          r := Some(LhsUnit(lhs.value));
        }
      } else {
        r := Constant();
      }
    }

    method Unit() returns (r: Option<UnitNode>)
      requires Valid()
      modifies this
      ensures Did(r, UnitOf(old(Rest())))
      decreases |tokens| - index, 3
    {
      var token := Peek();
      var minus := token == Minus;
      if minus { Consume(); }
      var body := UnitBodyHere();
      if body == None { return None; }
      r := Some(UnitNode(minus, body.value));
    }

    method ProductPrime() returns (r: Option<seq<UnitLink>>)
      requires Valid()
      modifies this
      ensures Did(r, ProductPrimeOf(old(Rest())))
      decreases |tokens| - index, 0
    {
      var token := Peek();
      if !IsProductOp(token) { return Some([]); }
      Consume();
      var unit := Unit();
      if unit == None { return None; }
      var rest := ProductPrime();
      if rest == None { return None; }
      r := Some([UnitLink(token, unit.value)] + rest.value);
    }

    method Product() returns (r: Option<ProductNode>)
      requires Valid()
      modifies this
      ensures Did(r, ProductOf(old(Rest())))
      decreases |tokens| - index, 4
    {
      var unit := Unit();
      if unit == None { return None; }
      var rest := ProductPrime();
      if rest == None { return None; }
      r := Some(ProductNode(unit.value, rest.value));
    }

    method ArithmeticPrime() returns (r: Option<seq<ProductLink>>)
      requires Valid()
      modifies this
      ensures Did(r, ArithmeticPrimeOf(old(Rest())))
      decreases |tokens| - index, 0
    {
      var token := Peek();
      if !IsArithmeticOp(token) { return Some([]); }
      Consume();
      var product := Product();
      if product == None { return None; }
      var rest := ArithmeticPrime();
      if rest == None { return None; }
      r := Some([ProductLink(token, product.value)] + rest.value);
    }

    method Arithmetic() returns (r: Option<ArithmeticNode>)
      requires Valid()
      modifies this
      ensures Did(r, ArithmeticOf(old(Rest())))
      decreases |tokens| - index, 5
    {
      var product := Product();
      if product == None { return None; }
      var rest := ArithmeticPrime();
      if rest == None { return None; }
      r := Some(ArithmeticNode(product.value, rest.value));
    }

    method Predicate() returns (r: Option<PredicateNode>)
      requires Valid()
      modifies this
      ensures Did(r, PredicateOf(old(Rest())))
      decreases |tokens| - index, 6
    {
      var left := Arithmetic();
      if left == None { return None; }
      var token := Peek();
      if !IsComparison(token) { return Some(Alone(left.value)); }
      Consume();
      var right := Arithmetic();
      if right == None { return None; }
      r := Some(Compared(left.value, token, right.value));
    }

    method BoolUnit() returns (r: Option<BoolUnitNode>)
      requires Valid()
      modifies this
      ensures Did(r, BoolUnitOf(old(Rest())))
      decreases |tokens| - index, 7
    {
      var token := Peek();
      var negate := token == Bang;
      if negate { Consume(); }
      var body := Predicate();
      if body == None { return None; }
      r := Some(BoolUnitNode(negate, body.value));
    }

    method ConjunctionPrime() returns (r: Option<seq<BoolUnitLink>>)
      requires Valid()
      modifies this
      ensures Did(r, ConjunctionPrimeOf(old(Rest())))
      decreases |tokens| - index, 0
    {
      var token := Peek();
      if token != Amp { return Some([]); }
      Consume();
      var unit := BoolUnit();
      if unit == None { return None; }
      var rest := ConjunctionPrime();
      if rest == None { return None; }
      r := Some([BoolUnitLink(token, unit.value)] + rest.value);
    }

    method Conjunction() returns (r: Option<ConjunctionNode>)
      requires Valid()
      modifies this
      ensures Did(r, ConjunctionOf(old(Rest())))
      decreases |tokens| - index, 8
    {
      var unit := BoolUnit();
      if unit == None { return None; }
      var rest := ConjunctionPrime();
      if rest == None { return None; }
      r := Some(ConjunctionNode(unit.value, rest.value));
    }

    method BooleanPrime() returns (r: Option<seq<ConjunctionLink>>)
      requires Valid()
      modifies this
      ensures Did(r, BooleanPrimeOf(old(Rest())))
      decreases |tokens| - index, 0
    {
      var token := Peek();
      if token != Bar { return Some([]); }
      Consume();
      var conjunction := Conjunction();
      if conjunction == None { return None; }
      var rest := BooleanPrime();
      if rest == None { return None; }
      r := Some([ConjunctionLink(token, conjunction.value)] + rest.value);
    }

    method Boolean() returns (r: Option<BooleanNode>)
      requires Valid()
      modifies this
      ensures Did(r, BooleanOf(old(Rest())))
      decreases |tokens| - index, 9
    {
      var conjunction := Conjunction();
      if conjunction == None { return None; }
      var rest := BooleanPrime();
      if rest == None { return None; }
      r := Some(BooleanNode(conjunction.value, rest.value));
    }

    // -------------------------------------------------------------- expressions

    method RecordPrime() returns (r: Option<seq<FieldNode>>)
      requires Valid()
      modifies this
      ensures Did(r, FieldsOf(old(Rest())))
      decreases |tokens| - index, 0
    {
      var token := Peek();
      if token == RBrace { return Some([]); }
      var name := AcceptName();
      if name == None { return None; }
      var ok := Accept(Colon);
      if !ok { return None; }
      var expr := Expression();
      if expr == None { return None; }
      ok := Accept(Semicolon);
      if !ok { return None; }
      var rest := RecordPrime();
      if rest == None { return None; }
      r := Some([FieldNode(name.value, expr.value)] + rest.value);
    }

    method Record() returns (r: Option<ExpressionNode>)
      requires Valid()
      modifies this
      ensures Did(r, RecordOf(old(Rest())))
      decreases |tokens| - index, 0
    {
      var ok := Accept(LBrace);
      if !ok { return None; }
      var inside := RecordPrime();
      if inside == None { return None; }
      ok := Accept(RBrace);
      if !ok { return None; }
      r := Some(RecordExpression(inside.value));
    }

    method ArgumentPrime() returns (r: Option<seq<string>>)
      requires Valid()
      modifies this
      ensures Did(r, MoreParametersOf(old(Rest())))
      decreases |tokens| - index
    {
      var token := Peek();
      if token != Comma { return Some([]); }
      Consume();
      var name := AcceptName();
      if name == None { return None; }
      var rest := ArgumentPrime();
      if rest == None { return None; }
      r := Some([name.value] + rest.value);
    }

    method Argument() returns (r: Option<seq<string>>)
      requires Valid()
      modifies this
      ensures Did(r, ParametersOf(old(Rest())))
    {
      var token := Peek();
      if token == RParen { return Some([]); }
      var name := AcceptName();
      if name == None { return None; }
      var rest := ArgumentPrime();
      if rest == None { return None; }
      r := Some([name.value] + rest.value);
    }

    method Function() returns (r: Option<ExpressionNode>)
      requires Valid()
      modifies this
      ensures Did(r, FunctionOf(old(Rest())))
      decreases |tokens| - index, 0
    {
      var ok := Accept(KwFun);
      if !ok { return None; }
      ok := Accept(LParen);
      if !ok { return None; }
      var args := Argument();
      if args == None { return None; }
      ok := Accept(RParen);
      if !ok { return None; }
      var block := Block();
      if block == None { return None; }
      r := Some(FunctionExpression(args.value, block.value));
    }

    method Expression() returns (r: Option<ExpressionNode>)
      requires Valid()
      modifies this
      ensures Did(r, ExpressionOf(old(Rest())))
      decreases |tokens| - index, 10
    {
      var token := Peek();
      if token == LBrace {
        r := Record();
      } else if token == KwFun {
        r := Function();
      } else {
        var boolean := Boolean();
        if boolean == None { return None; }
        r := Some(BooleanExpression(boolean.value));
      }
    }

    // -------------------------------------------------------------- statements

    method Block() returns (r: Option<seq<StatementNode>>)
      requires Valid()
      modifies this
      ensures Did(r, BlockOf(old(Rest())))
      decreases |tokens| - index, 0
    {
      var ok := Accept(LBrace);
      if !ok { return None; }
      var inside := BlockPrime();
      if inside == None { return None; }
      ok := Accept(RBrace);
      if !ok { return None; }
      r := inside;
    }

    method BlockPrime() returns (r: Option<seq<StatementNode>>)
      requires Valid()
      modifies this
      ensures Did(r, StatementsOf(old(Rest())))
      decreases |tokens| - index, 5
    {
      var token := Peek();
      if token == RBrace || token == EndOfFile { return Some([]); }
      var statement := Statement();
      if statement == None { return None; }
      var rest := BlockPrime();
      if rest == None { return None; }
      r := Some([statement.value] + rest.value);
    }

    method Global() returns (r: Option<StatementNode>)
      requires Valid()
      modifies this
      ensures Did(r, GlobalOf(old(Rest())))
    {
      var ok := Accept(KwGlobal);
      if !ok { return None; }
      var name := AcceptName();
      if name == None { return None; }
      ok := Accept(Semicolon);
      if !ok { return None; }
      r := Some(GlobalNode(name.value));
    }

    method Condition() returns (r: Option<ExpressionNode>)
      requires Valid()
      modifies this
      ensures Did(r, ConditionOf(old(Rest())))
      decreases |tokens| - index, 0
    {
      var ok := Accept(LParen);
      if !ok { return None; }
      var expr := Expression();
      if expr == None { return None; }
      ok := Accept(RParen);
      if !ok { return None; }
      r := expr;
    }

    method IfStatement() returns (r: Option<StatementNode>)
      requires Valid()
      modifies this
      ensures Did(r, IfOf(old(Rest())))
      decreases |tokens| - index, 0
    {
      var ok := Accept(KwIf);
      if !ok { return None; }
      var cond := Condition();
      if cond == None { return None; }
      var block := Block();
      if block == None { return None; }
      var token := Peek();
      if token != KwElse { return Some(IfNode(cond.value, block.value)); }
      Consume();
      var elseBlock := Block();
      if elseBlock == None { return None; }
      r := Some(IfElseNode(cond.value, block.value, elseBlock.value));
    }

    method While() returns (r: Option<StatementNode>)
      requires Valid()
      modifies this
      ensures Did(r, WhileOf(old(Rest())))
      decreases |tokens| - index, 0
    {
      var ok := Accept(KwWhile);
      if !ok { return None; }
      var cond := Condition();
      if cond == None { return None; }
      var block := Block();
      if block == None { return None; }
      r := Some(WhileNode(cond.value, block.value));
    }

    method Return() returns (r: Option<StatementNode>)
      requires Valid()
      modifies this
      ensures Did(r, ReturnOf(old(Rest())))
      decreases |tokens| - index, 0
    {
      var ok := Accept(KwReturn);
      if !ok { return None; }
      var expr := Expression();
      if expr == None { return None; }
      ok := Accept(Semicolon);
      if !ok { return None; }
      r := Some(ReturnNode(expr.value));
    }

    method Assignment() returns (r: Option<StatementNode>)
      requires Valid()
      modifies this
      ensures Did(r, AssignmentOf(old(Rest())))
      decreases |tokens| - index, 1
    {
      hide LhsOf, ExpressionOf;
      var lhs := Lhs();
      if lhs == None { return None; }
      var ok := Accept(Assign);
      if !ok { return None; }
      var expr := Expression();
      if expr == None { return None; }
      ok := Accept(Semicolon);
      if !ok { return None; }
      r := Some(AssignmentNode(lhs.value, expr.value));
    }

    method CallStatement() returns (r: Option<StatementNode>)
      requires Valid()
      modifies this
      ensures Did(r, CallStatementOf(old(Rest())))
      decreases |tokens| - index, 2
    {
      var call := Call();
      if call == None { return None; }
      var ok := Accept(Semicolon);
      if !ok { return None; }
      r := Some(CallStatementNode(call.value));
    }

    /** An assignment and a call both start with a left-hand side: it is read, the
        next token decides, and the cursor goes back. */
    method LhsStatement() returns (r: Option<StatementNode>)
      requires Valid()
      modifies this
      ensures Did(r, LhsStatementOf(old(Rest())))
      decreases |tokens| - index, 3
    {
      hide LhsOf, LhsStatementOf, AssignmentOf, CallStatementOf;
      RewindingIsHarmless(Rest());
      var curTokenIndex := index;
      var lhs := Lhs();
      if lhs == None { return None; }
      var token := Peek();
      if token == Assign {
        index := curTokenIndex;
        r := Assignment();
      } else if token == LParen {
        index := curTokenIndex;
        r := CallStatement();
      } else {
        r := None;
      }
    }

    method Statement() returns (r: Option<StatementNode>)
      requires Valid()
      modifies this
      ensures Did(r, StatementOf(old(Rest())))
      decreases |tokens| - index, 4
    {
      hide GlobalOf, IfOf, WhileOf, ReturnOf, LhsStatementOf;
      var token := Peek();
      match token
      case KwGlobal => r := Global();
      case KwIf => r := IfStatement();
      case KwWhile => r := While();
      case KwReturn => r := Return();
      case _ => r := LhsStatement();
    }

    method StatementList() returns (r: Option<seq<StatementNode>>)
      requires Valid()
      modifies this
      ensures Did(r, ProgramOf(old(Rest())))
      decreases |tokens| - index, 5
    {
      var token := Peek();
      if token == EndOfFile { return Some([]); }
      var statement := Statement();
      if statement == None { return None; }
      var rest := StatementList();
      if rest == None { return None; }
      r := Some([statement.value] + rest.value);
    }
  }
}
