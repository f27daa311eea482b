/** A printed function literal cannot be read: the printer writes a keyword the
    language does not have, which reads as a call of `function`, and the brace of
    the body is an error wherever the literal stands. So a printed block reads back
    as itself exactly when it holds no function literal and no None. */
module LostLiterals {
  import opened Basics
  import opened Ast
  import opened Syntax
  import opened Converter
  import opened SyntaxText
  import opened SyntaxRoundTrip

  /** Nothing was read, or a brace is next, which no context of an expression takes. */
  ghost predicate Lost<T>(r: Read<T>) {
    r.Got? ==> Head(r.rest) == LBrace
  }

  // ---------------------------------------------------------------- precedence levels

  /** An error in a unit is one at every level. */
  lemma {:induction false} ClimbLost(ts: Tokens)
    requires UnitOf(ts) == Error && Head(ts) != Bang
    ensures ProductOf(ts) == Error && ArithmeticOf(ts) == Error && PredicateOf(ts) == Error && BoolUnitOf(ts) == Error
    ensures ConjunctionOf(ts) == Error && BooleanOf(ts) == Error
  {
    hide UnitOf;
  }

  /** ... also in the second operand of an operator. */
  lemma {:induction false} OperationLost(ts: Tokens, u1: UnitNode, op: Operator, more: Tokens)
    requires op != NEG && Head(ts) != Bang && Head(more) != Bang
    requires UnitOf(ts) == Got(u1, [OperatorToken(op)] + more) && UnitOf(more) == Error
    ensures BooleanOf(ts) == Error
  {
    hide UnitOf, ProductOf, ArithmeticOf, PredicateOf, BoolUnitOf, ConjunctionOf, BooleanOf, ProductPrimeOf, ArithmeticPrimeOf;
    var mid := [OperatorToken(op)] + more;
    assert mid[1..] == more && Head(mid) == OperatorToken(op);
    ClimbLost(more);
    if op == MUL || op == DIV {
      ProductLost(ts, u1, mid);
    } else if op == PLUS || op == SUB {
      Climb(ts, u1, mid);
      ArithmeticLost(ts, ProductNode(u1, []), mid);
    } else {
      LooseOperationLost(ts, u1, mid);
    }
  }

  /** The operators that bind less than `+`. */
  lemma {:induction false} LooseOperationLost(ts: Tokens, u1: UnitNode, mid: Tokens)
    requires mid != [] && (IsComparison(mid[0]) || mid[0] == Amp || mid[0] == Bar) && Head(ts) != Bang && UnitOf(ts) == Got(u1, mid)
    requires ArithmeticOf(mid[1..]) == Error && BoolUnitOf(mid[1..]) == Error && ConjunctionOf(mid[1..]) == Error
    ensures BooleanOf(ts) == Error
  {
    hide UnitOf, ProductOf, ArithmeticOf, PredicateOf, BoolUnitOf, ConjunctionOf, BooleanOf;
    Climb(ts, u1, mid);
    if mid[0] == Amp {
      ConjunctionLost(ts, AsBoolUnit(u1), mid);
    } else if mid[0] == Bar {
      DisjunctionLost(ts, ConjunctionNode(AsBoolUnit(u1), []), mid);
    } else {
      ComparisonLost(ts, ArithmeticNode(ProductNode(u1, []), []), mid);
    }
  }

  lemma {:induction false} PredicateLost(ts: Tokens)
    requires ArithmeticOf(ts) == Error && Head(ts) != Bang
    ensures BooleanOf(ts) == Error
  {
    hide ArithmeticOf;
    assert PredicateOf(ts) == Error && BoolUnitOf(ts) == Error;
    assert ConjunctionOf(ts) == Error;
  }

  lemma {:induction false} ProductLost(ts: Tokens, u1: UnitNode, mid: Tokens)
    requires mid != [] && IsProductOp(mid[0]) && Head(ts) != Bang && UnitOf(ts) == Got(u1, mid) && UnitOf(mid[1..]) == Error
    ensures BooleanOf(ts) == Error
  {
    hide UnitOf;
    assert ProductPrimeOf(mid) == Error && ProductOf(ts) == Error;
    assert ArithmeticOf(ts) == Error;
    PredicateLost(ts);
  }

  lemma {:induction false} ArithmeticLost(ts: Tokens, p: ProductNode, mid: Tokens)
    requires mid != [] && IsArithmeticOp(mid[0]) && Head(ts) != Bang && ProductOf(ts) == Got(p, mid) && ProductOf(mid[1..]) == Error
    ensures BooleanOf(ts) == Error
  {
    hide ProductOf;
    assert ArithmeticPrimeOf(mid) == Error && ArithmeticOf(ts) == Error;
    PredicateLost(ts);
  }

  lemma {:induction false} ComparisonLost(ts: Tokens, a: ArithmeticNode, mid: Tokens)
    requires mid != [] && IsComparison(mid[0]) && Head(ts) != Bang && ArithmeticOf(ts) == Got(a, mid) && ArithmeticOf(mid[1..]) == Error
    ensures BooleanOf(ts) == Error
  {
    hide ArithmeticOf;
    assert PredicateOf(ts) == Error && BoolUnitOf(ts) == Error;
    assert ConjunctionOf(ts) == Error;
  }

  lemma {:induction false} ConjunctionLost(ts: Tokens, b: BoolUnitNode, mid: Tokens)
    requires mid != [] && mid[0] == Amp && BoolUnitOf(ts) == Got(b, mid) && BoolUnitOf(mid[1..]) == Error
    ensures BooleanOf(ts) == Error
  {
    hide BoolUnitOf;
    assert ConjunctionPrimeOf(mid) == Error;
  }

  lemma {:induction false} DisjunctionLost(ts: Tokens, c: ConjunctionNode, mid: Tokens)
    requires mid != [] && mid[0] == Bar && ConjunctionOf(ts) == Got(c, mid) && ConjunctionOf(mid[1..]) == Error
    ensures BooleanOf(ts) == Error
  {
    hide ConjunctionOf;
    assert BooleanPrimeOf(mid) == Error;
  }

  // ---------------------------------------------------------------- left-hand sides and calls

  /** An error in the accesses after a left-hand side that reads well. */
  lemma {:induction false} TailLost(e: Expr, tail: Tokens)
    requires IsLhs(e) && Clean(e) && LhsPrimeOf(tail) == Error
    ensures LhsOf(Print(e) + tail) == Error
    decreases e
  {
    hide ExpressionOf, PrintArgs, PrintFields, LhsPrimeOf;
    match e
    case Var(x) => assert ([Name(x)] + tail)[1..] == tail;
    case Field(b, x) =>
      FieldTailLost(x, tail);
      assert Print(e) + tail == Print(b) + ([Dot, Name(x)] + tail);
      TailLost(b, [Dot, Name(x)] + tail);
    case Index(b, i) =>
      var n := ExpressionRead(i, [RBracket] + tail);
      IndexTailLost(Print(i), tail);
      assert Print(e) + tail == Print(b) + ([LBracket] + (Print(i) + ([RBracket] + tail)));
      TailLost(b, [LBracket] + (Print(i) + ([RBracket] + tail)));
  }

  lemma {:induction false} FieldTailLost(x: string, tail: Tokens)
    requires LhsPrimeOf(tail) == Error
    ensures LhsPrimeOf([Dot, Name(x)] + tail) == Error
  {
    hide ExpressionOf;
    var ts := [Dot, Name(x)] + tail;
    assert ts[1..] == [Name(x)] + tail && ts[1..][1..] == tail;
  }

  lemma {:induction false} IndexTailLost(index: Tokens, tail: Tokens)
    requires var r := ExpressionOf(index + ([RBracket] + tail));
      Lost(r) || (r.Got? && r.rest == [RBracket] + tail && LhsPrimeOf(tail) == Error)
    ensures LhsPrimeOf([LBracket] + (index + ([RBracket] + tail))) == Error
  {
    hide ExpressionOf;
    var ts := [LBracket] + (index + ([RBracket] + tail));
    assert ts[1..] == index + ([RBracket] + tail) && ([RBracket] + tail)[1..] == tail;
  }

  lemma {:induction false} LhsLost(e: Expr, tail: Tokens)
    requires IsLhs(e) && Plain(e) && !NoFunction(e)
    ensures LhsOf(Print(e) + tail) == Error
    decreases e, 0
  {
    hide ExpressionOf, PrintArgs, PrintFields, LhsPrimeOf, LhsOf;
    match e
    case Field(b, x) =>
      assert Print(e) + tail == Print(b) + ([Dot, Name(x)] + tail);
      LhsLost(b, [Dot, Name(x)] + tail);
    case Index(b, i) =>
      var inside := [LBracket] + (Print(i) + ([RBracket] + tail));
      assert Print(e) + tail == Print(b) + inside;
      if NoFunction(b) {
        ExpressionLost(i, [RBracket] + tail);
        IndexTailLost(Print(i), tail);
        TailLost(b, inside);
      } else {
        LhsLost(b, inside);
      }
  }

  lemma {:induction false} CallLost(e: Expr, rest: Tokens)
    requires e.Call? && IsOperand(e) && Plain(e) && !NoFunction(e)
    ensures CallOf(Print(e) + rest) == Error
    ensures var r := LhsOf(Print(e) + rest); r.Got? ==> Head(r.rest) == LParen
    decreases e, 0
  {
    hide ExpressionOf, PrintArgs, ArgumentsOf, LhsOf;
    var tail := [LParen] + (PrintArgs(e.args) + ([RParen] + rest));
    assert Print(e) + rest == Print(e.target) + tail;
    if NoFunction(e.target) {
      NoAccess(tail);
      var lhs := LhsRead(e.target, [], tail, tail);
      assert tail[1..] == PrintArgs(e.args) + ([RParen] + rest);
      ArgsLost(e.args, [RParen] + rest);
    } else {
      LhsLost(e.target, tail);
    }
  }

  lemma {:induction false} NoAccess(tail: Tokens)
    requires Head(tail) != Dot && Head(tail) != LBracket
    ensures LhsPrimeOf(tail) == Got([], tail)
  {}

  lemma {:induction false} ArgsLost(es: seq<Expr>, rest: Tokens)
    requires AreExpressions(es) && PlainArgs(es) && !NoFunctionArgs(es) && Head(rest) == RParen
    ensures Lost(ArgumentsOf(PrintArgs(es) + rest))
    decreases es, 1
  {
    hide ExpressionOf, Print, Plain, NoFunction, IsExpression;
    var tail := PrintMoreArgs(es[1..]) + rest;
    assert PrintArgs(es) + rest == Print(es[0]) + tail;
    ExpressionHead(es[0], tail);
    if NoFunction(es[0]) {
      MoreArgsHead(es[1..], rest);
      var n := ExpressionRead(es[0], tail);
      MoreArgsLost(es[1..], rest);
    } else {
      ExpressionLost(es[0], tail);
    }
  }

  lemma {:induction false} MoreArgsLost(es: seq<Expr>, rest: Tokens)
    requires AreExpressions(es) && PlainArgs(es) && !NoFunctionArgs(es) && Head(rest) == RParen
    ensures Lost(MoreArgumentsOf(PrintMoreArgs(es) + rest))
    decreases es, 0
  {
    hide ExpressionOf, Print, Plain, NoFunction, IsExpression;
    var ts, tail := PrintMoreArgs(es) + rest, PrintMoreArgs(es[1..]) + rest;
    assert ts == [Comma] + (Print(es[0]) + tail) && ts[1..] == Print(es[0]) + tail;
    if NoFunction(es[0]) {
      MoreArgsHead(es[1..], rest);
      var n := ExpressionRead(es[0], tail);
      MoreArgsLost(es[1..], rest);
    } else {
      ExpressionLost(es[0], tail);
    }
  }

  // ---------------------------------------------------------------- operands and expressions

  lemma {:induction false} UnitBodyLost(e: Expr, rest: Tokens)
    requires IsOperand(e) && Plain(e) && !NoFunction(e)
    ensures UnitBodyOf(Print(e) + rest) == Error
    decreases e, 2
  {
    hide BooleanOf, CallRestOf, LhsOf, Print;
    OperandHead(e, rest);
    if IsLhs(e) {
      LhsLost(e, rest);
    } else if e.Call? {
      CallLost(e, rest);
    } else {
      ParenthesisLost(e, rest);
    }
  }

  lemma {:induction false} InsideLost(x: Tokens)
    requires BooleanOf(x) == Error
    ensures UnitBodyOf([LParen] + x) == Error
  {
    hide BooleanOf;
    assert ([LParen] + x)[1..] == x;
  }

  lemma {:induction false} BinaryTokens(l: Tokens, op: Token, r: Tokens, rest: Tokens)
    ensures ([LParen] + (l + ([op] + (r + [RParen])))) + rest == [LParen] + (l + ([op] + (r + ([RParen] + rest))))
    ensures ([LParen, op] + (l + [RParen])) + rest == [LParen] + ([op] + (l + ([RParen] + rest)))
  {}

  lemma {:induction false} ParenthesisLost(e: Expr, rest: Tokens)
    requires (e.Binary? || e.Unary?) && IsOperand(e) && Plain(e) && !NoFunction(e)
    ensures UnitBodyOf(Print(e) + rest) == Error
    decreases e, 1
  {
    hide BooleanOf, UnitBodyOf, PrintArgs, PrintFields;
    var inside := [RParen] + rest;
    if e.Binary? {
      BinaryTokens(Print(e.left), OperatorToken(e.op), Print(e.right), rest);
      BinaryLost(e, inside);
      InsideLost(Print(e.left) + ([OperatorToken(e.op)] + (Print(e.right) + inside)));
    } else {
      BinaryTokens(Print(e.operand), OperatorToken(e.uop), [], rest);
      UnaryLost(e, inside);
      InsideLost([OperatorToken(e.uop)] + (Print(e.operand) + inside));
    }
  }

  lemma {:induction false} UnitLost(e: Expr, rest: Tokens)
    requires IsOperand(e) && Plain(e) && !NoFunction(e)
    ensures UnitOf(Print(e) + rest) == Error && Head(Print(e) + rest) != Bang
    decreases e, 3
  {
    hide UnitBodyOf, Print;
    OperandHead(e, rest);
    UnitBodyLost(e, rest);
  }

  lemma {:induction false} BinaryLost(e: Expr, rest: Tokens)
    requires e.Binary? && IsOperand(e) && Plain(e) && !NoFunction(e)
    ensures BooleanOf(Print(e.left) + ([OperatorToken(e.op)] + (Print(e.right) + rest))) == Error
    decreases e, 0
  {
    hide UnitOf, BooleanOf, ProductOf, ArithmeticOf, PredicateOf, BoolUnitOf, ConjunctionOf, Print;
    var more := Print(e.right) + rest;
    var ts := Print(e.left) + ([OperatorToken(e.op)] + more);
    if NoFunction(e.left) {
      var u1 := UnitRead(e.left, [OperatorToken(e.op)] + more);
      UnitLost(e.right, rest);
      OperationLost(ts, u1, e.op, more);
    } else {
      UnitLost(e.left, [OperatorToken(e.op)] + more);
      ClimbLost(ts);
    }
  }

  lemma {:induction false} UnaryLost(e: Expr, rest: Tokens)
    requires e.Unary? && IsOperand(e) && Plain(e) && !NoFunction(e)
    ensures BooleanOf([OperatorToken(e.uop)] + (Print(e.operand) + rest)) == Error
    decreases e, 0
  {
    hide UnitBodyOf, BooleanOf, Print;
    var x := Print(e.operand) + rest;
    var ts := [OperatorToken(e.uop)] + x;
    assert ts[1..] == x;
    UnitBodyLost(e.operand, rest);
    if e.uop == SUB {
      ClimbLost(ts);
    } else {
      OperandHead(e.operand, rest);
      ClimbLost(x);
      NegationLost(ts);
    }
  }

  lemma {:induction false} NegationLost(ts: Tokens)
    requires ts != [] && ts[0] == Bang && PredicateOf(ts[1..]) == Error
    ensures BooleanOf(ts) == Error
  {
    hide PredicateOf;
    assert BoolUnitOf(ts) == Error && ConjunctionOf(ts) == Error;
  }

  /** A literal reads as a call, up to the brace of its body. */
  lemma {:induction false} FunctionLost(e: Expr, rest: Tokens)
    requires e.Fun?
    ensures Lost(ExpressionOf(Print(e) + rest))
  {
    hide PrintBlock, ExpressionOf, Print;
    var call, tail := Expr.Call(Var("function"), AsVars(e.params)), PrintBlock(e.body) + rest;
    FunctionLooksLikeCall(e.params, e.body);
    assert Print(e) + rest == Print(call) + tail;
    CallOfVars(e.params);
    BraceStartsBlock(e.body, rest);
    BraceAfterCall(call, tail);
  }

  lemma {:induction false} ExpressionLost(e: Expr, rest: Tokens)
    requires IsExpression(e) && Plain(e) && !NoFunction(e)
    ensures Lost(ExpressionOf(Print(e) + rest))
    decreases e, 5
  {
    hide ExpressionOf, Print, PrintFields;
    if e.Fun? {
      FunctionLost(e, rest);
    } else if e.Record? {
      RecordLost(e, rest);
    } else {
      OperandLost(e, rest);
    }
  }

  lemma {:induction false} OperandLost(e: Expr, rest: Tokens)
    requires IsOperand(e) && Plain(e) && !NoFunction(e)
    ensures ExpressionOf(Print(e) + rest) == Error
    decreases e, 4
  {
    hide Print, UnitOf, BooleanOf, ProductOf, ArithmeticOf, PredicateOf, BoolUnitOf, ConjunctionOf, RecordOf, FunctionOf;
    OperandHead(e, rest);
    UnitLost(e, rest);
    ClimbLost(Print(e) + rest);
  }

  lemma {:induction false} RecordLost(e: Expr, rest: Tokens)
    requires e.Record? && AreFields(e.fields) && PlainFields(e.fields) && !NoFunctionFields(e.fields)
    ensures ExpressionOf(Print(e) + rest) == Error
    decreases e, 3
  {
    hide FieldsOf, PrintFields;
    var ts, tail := Print(e) + rest, [RBrace] + rest;
    assert ts == [LBrace] + (PrintFields(e.fields) + tail) && ts[1..] == PrintFields(e.fields) + tail;
    FieldsLost(e.fields, tail);
  }

  lemma {:induction false} OneFieldLost(x: string, e: Tokens, tail: Tokens)
    requires var r := ExpressionOf(e + ([Semicolon] + tail));
      Lost(r) || (r.Got? && r.rest == [Semicolon] + tail && FieldsOf(tail) == Error)
    ensures FieldsOf([Name(x), Colon] + (e + ([Semicolon] + tail))) == Error
  {
    hide ExpressionOf;
    var ts := [Name(x), Colon] + (e + ([Semicolon] + tail));
    assert ts[1..][1..] == e + ([Semicolon] + tail) && ([Semicolon] + tail)[1..] == tail;
  }

  lemma {:induction false} FieldsLost(fs: seq<FieldInit>, rest: Tokens)
    requires AreFields(fs) && PlainFields(fs) && !NoFunctionFields(fs) && Head(rest) == RBrace
    ensures FieldsOf(PrintFields(fs) + rest) == Error
    decreases fs, 0
  {
    hide ExpressionOf, Print, Plain, NoFunction, IsExpression, FieldsOf;
    var x, e, tail := fs[0].name, Print(fs[0].init), PrintFields(fs[1..]) + rest;
    assert PrintFields(fs) + rest == [Name(x), Colon] + (e + ([Semicolon] + tail));
    if NoFunction(fs[0].init) {
      var n := ExpressionRead(fs[0].init, [Semicolon] + tail);
      FieldsLost(fs[1..], rest);
    } else {
      ExpressionLost(fs[0].init, [Semicolon] + tail);
    }
    OneFieldLost(x, e, tail);
  }

  // ---------------------------------------------------------------- statements

  lemma {:induction false} ConditionLost(c: Expr, rest: Tokens)
    requires IsExpression(c) && Plain(c) && !NoFunction(c)
    ensures ConditionOf(PrintCondition(c) + rest) == Error
  {
    hide ExpressionOf, Print;
    var ts, tail := PrintCondition(c) + rest, [RParen] + rest;
    assert ts == [LParen] + (Print(c) + tail) && ts[1..] == Print(c) + tail;
    ExpressionLost(c, tail);
  }

  lemma {:induction false} BlockLost(ss: seq<Stmt>, rest: Tokens)
    requires AreStatements(ss) && PlainStatements(ss) && !NoFunctionStatements(ss)
    ensures BlockOf(PrintBlock(ss) + rest) == Error
    decreases ss, 1
  {
    hide StatementsOf, PrintStatements;
    var ts, tail := PrintBlock(ss) + rest, [RBrace] + rest;
    assert ts == [LBrace] + (PrintStatements(ss) + tail) && ts[1..] == PrintStatements(ss) + tail;
    StatementsLost(ss, tail);
  }

  lemma {:induction false} StatementsLost(ss: seq<Stmt>, rest: Tokens)
    requires AreStatements(ss) && PlainStatements(ss) && !NoFunctionStatements(ss) && Head(rest) == RBrace
    ensures StatementsOf(PrintStatements(ss) + rest) == Error
    decreases ss, 0
  {
    hide StatementOf, PrintStatement, PlainStatement, NoFunctionStatement, IsStatement;
    NoElse(ss, rest);
    var tail := PrintStatements(ss[1..]) + rest;
    assert PrintStatements(ss) + rest == PrintStatement(ss[0]) + tail;
    if NoFunctionStatement(ss[0]) {
      NoElse(ss[1..], rest);
      var n := StatementRead(ss[0], tail);
      StatementsLost(ss[1..], rest);
    } else {
      StatementLost(ss[0], tail);
    }
  }

  lemma {:induction false} StatementLost(s: Stmt, rest: Tokens)
    requires IsStatement(s) && PlainStatement(s) && !NoFunctionStatement(s)
    ensures StatementOf(PrintStatement(s) + rest) == Error
    decreases s, 1
  {
    hide IfOf, WhileOf, ReturnOf, LhsStatementOf, PrintStatement;
    StatementHead(s, rest);
    match s
    case If(_, _) => IfLost(s, rest);
    case IfElse(_, _, _) => IfElseLost(s, rest);
    case While(_, _) => WhileLost(s, rest);
    case Return(_) => ReturnLost(s, rest);
    case CallStmt(_) => CallStatementLost(s, rest);
    case AssignVar(x, e) => AssignmentLost(s, Var(x), e, rest);
    case AssignField(b, x, e) => AssignmentLost(s, Field(b, x), e, rest);
    case AssignIndex(b, i, e) => AssignmentLost(s, Index(b, i), e, rest);
  }

  lemma {:induction false} ReturnLost(s: Stmt, rest: Tokens)
    requires s.Return? && IsStatement(s) && PlainStatement(s) && !NoFunctionStatement(s)
    ensures ReturnOf(PrintStatement(s) + rest) == Error
  {
    hide ExpressionOf, Print;
    var ts, tail := PrintStatement(s) + rest, [Semicolon] + rest;
    assert ts == [KwReturn] + (Print(s.result) + tail) && ts[1..] == Print(s.result) + tail;
    ExpressionLost(s.result, tail);
  }

  lemma {:induction false} IfLost(s: Stmt, rest: Tokens)
    requires s.If? && IsStatement(s) && PlainStatement(s) && !NoFunctionStatement(s)
    ensures IfOf(PrintStatement(s) + rest) == Error
    decreases s, 0
  {
    hide ConditionOf, BlockOf, PrintCondition, PrintBlock, Plain, NoFunction, PlainStatements, NoFunctionStatements, IsExpression, AreStatements;
    var ts, tail := PrintStatement(s) + rest, PrintBlock(s.thenPart) + rest;
    assert ts == [KwIf] + (PrintCondition(s.cond) + tail) && ts[1..] == PrintCondition(s.cond) + tail;
    if !NoFunction(s.cond) {
      ConditionLost(s.cond, tail);
    } else {
      var c := ConditionRead(s.cond, tail);
      BlockLost(s.thenPart, rest);
    }
  }

  lemma {:induction false} IfElseLost(s: Stmt, rest: Tokens)
    requires s.IfElse? && IsStatement(s) && PlainStatement(s) && !NoFunctionStatement(s)
    ensures IfOf(PrintStatement(s) + rest) == Error
    decreases s, 0
  {
    hide ConditionOf, BlockOf, PrintCondition, PrintBlock, Plain, NoFunction, PlainStatements, NoFunctionStatements, IsExpression, AreStatements,
      ConvertExpression, ConvertStatements, Returned, ReturnedStatements;
    var els := [KwElse] + (PrintBlock(s.elsePart) + rest);
    var ts, tail := PrintStatement(s) + rest, PrintBlock(s.thenPart) + els;
    assert ts == [KwIf] + (PrintCondition(s.cond) + tail) && ts[1..] == PrintCondition(s.cond) + tail;
    if !NoFunction(s.cond) {
      ConditionLost(s.cond, tail);
    } else {
      var c := ConditionRead(s.cond, tail);
      if !NoFunctionStatements(s.thenPart) {
        BlockLost(s.thenPart, els);
      } else {
        var b := BlockRead(s.thenPart, els);
        assert els[1..] == PrintBlock(s.elsePart) + rest;
        BlockLost(s.elsePart, rest);
      }
    }
  }

  lemma {:induction false} WhileLost(s: Stmt, rest: Tokens)
    requires s.While? && IsStatement(s) && PlainStatement(s) && !NoFunctionStatement(s)
    ensures WhileOf(PrintStatement(s) + rest) == Error
    decreases s, 0
  {
    hide ConditionOf, BlockOf, PrintCondition, PrintBlock, Plain, NoFunction, PlainStatements, NoFunctionStatements, IsExpression, AreStatements;
    var ts, tail := PrintStatement(s) + rest, PrintBlock(s.body) + rest;
    assert ts == [KwWhile] + (PrintCondition(s.cond) + tail) && ts[1..] == PrintCondition(s.cond) + tail;
    if !NoFunction(s.cond) {
      ConditionLost(s.cond, tail);
    } else {
      var c := ConditionRead(s.cond, tail);
      BlockLost(s.body, rest);
    }
  }

  lemma {:induction false} CallStatementLost(s: Stmt, rest: Tokens)
    requires s.CallStmt? && IsStatement(s) && PlainStatement(s) && !NoFunctionStatement(s)
    ensures LhsStatementOf(PrintStatement(s) + rest) == Error
  {
    hide LhsOf, CallRestOf, Print;
    var ts, tail := PrintStatement(s) + rest, [Semicolon] + rest;
    assert ts == Print(s.call) + tail;
    CallLost(s.call, tail);
  }

  lemma {:induction false} AssignmentLost(s: Stmt, l: Expr, e: Expr, rest: Tokens)
    requires IsLhs(l) && Plain(l) && IsExpression(e) && Plain(e) && s == Assigned(l, e)
    requires !NoFunction(l) || !NoFunction(e)
    ensures LhsStatementOf(PrintStatement(s) + rest) == Error
  {
    hide LhsOf, ExpressionOf, CallRestOf, PrintStatement, Print, Plain, NoFunction;
    var end := [Semicolon] + rest;
    var tail := [Assign] + (Print(e) + end);
    AssignmentTokens(l, e, rest);
    if NoFunction(l) {
      NothingMore(tail, Returned(l));
      var lhs := LhsRead(l, [], tail, tail);
      assert tail[1..] == Print(e) + end;
      ExpressionLost(e, end);
    } else {
      LhsLost(l, tail);
    }
  }

  // ---------------------------------------------------------------- main result

  /** The block's text is read, nothing else is, and the tree is the block. */
  ghost predicate ReadsBack(ss: seq<Stmt>, rest: Tokens) {
    var r := BlockOf(PrintBlock(ss) + rest);
    r.Got? && r.rest == rest && ConvertStatements(r.node) == Some(ss)
  }

  /** Of the blocks the converter can build, whose integers and strings survive as
      tokens, the printed form can be parsed if and only if it holds no function
      literal, and it comes back as the block if and only if it holds no None either. */
  lemma {:induction false} ReadsBackIff(ss: seq<Stmt>, rest: Tokens)
    requires AreStatements(ss) && PlainStatements(ss)
    ensures BlockOf(PrintBlock(ss) + rest).Got? <==> NoFunctionStatements(ss)
    ensures ReadsBack(ss, rest) <==> NoFunctionStatements(ss) && NoNoneBlock(ss)
  {
    hide BlockOf, PrintBlock, ConvertStatements, ReturnedStatements, AreStatements, PlainStatements, NoFunctionStatements, NoNoneBlock;
    if NoFunctionStatements(ss) {
      BlockRoundTrip(ss, rest);
    } else {
      BlockLost(ss, rest);
    }
  }
}
