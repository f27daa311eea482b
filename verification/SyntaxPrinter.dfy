/** The printer of abstract syntax as it is written: visitors that append to the
    output and keep the indentation level, with loops over lists. Blanks are not
    part of the output. */
module SyntaxPrinter {
  import opened Ast
  import opened Syntax
  import opened SyntaxText

  // ---------------------------------------------------------------- appending in pieces

  lemma {:induction false} Join2(s: Tokens, a: Tokens, b: Tokens)
    ensures s + a + b == s + (a + b)
  {}

  lemma {:induction false} Join3(s: Tokens, a: Tokens, b: Tokens, c: Tokens)
    ensures s + a + b + c == s + (a + (b + c))
  {
    Join2(s, a, b);
    Join2(a, b, c);
    Join2(s, a + b, c);
  }

  lemma {:induction false} Join4(s: Tokens, a: Tokens, b: Tokens, c: Tokens, d: Tokens)
    ensures s + a + b + c + d == s + (a + (b + (c + d)))
  {
    Join3(s, a, b, c);
    Join3(a, b, c, d);
    Join2(s, a + (b + c), d);
    assert a + (b + c) == a + b + c;
  }

  lemma {:induction false} Join5(s: Tokens, a: Tokens, b: Tokens, c: Tokens, d: Tokens, e: Tokens)
    ensures s + a + b + c + d + e == s + (a + (b + (c + (d + e))))
  {
    Join4(s, a, b, c, d);
    Join2(s, a + (b + (c + d)), e);
    assert a + (b + (c + d)) + e == a + (b + (c + (d + e)));
  }

  class PrettyPrinter {
    var indentLevel: nat
    var out: Tokens

    constructor ()
      ensures indentLevel == 0 && out == []
    {
      indentLevel, out := 0, [];
    }

    /** Visiting appended these tokens and restored the indentation. */
    twostate predicate Printed(text: Tokens)
      reads this
    {
      out == old(out) + text && indentLevel == old(indentLevel)
    }

    method Put(text: Tokens)
      modifies this`out
      ensures out == old(out) + text
    {
      out := out + text;
    }

    method VisitExpr(e: Expr)
      modifies this
      ensures Printed(Print(e))
      decreases Size(e), 1
    {
      hide PrintArgs, PrintFields, PrintBlock, PrintParams;
      match e
      case Var(x) => Put([Name(x)]);
      case IntegerConstant(i) => Put(if i >= 0 then [Int(i)] else [Minus, Int(-i)]);
      case StringConstant(t) => Put([Str(t)]);
      case NoneConstant => Put([Name("none")]);
      case BooleanConstant(b) => Put([if b then TrueToken else FalseToken]);
      case Fun(_, _) => VisitFunction(e);
      case Binary(_, _, _) => VisitBinary(e);
      case Unary(_, _) => VisitUnary(e);
      case Field(_, _) => VisitField(e);
      case Index(_, _) => VisitIndex(e);
      case Call(_, _) => VisitCall(e);
      case Record(_) => VisitRecord(e);
    }

    method VisitBinary(e: Expr)
      requires e.Binary?
      modifies this
      ensures Printed(Print(e))
      decreases Size(e), 0
    {
      ghost var start := out;
      Put([LParen]);
      VisitExpr(e.left);
      Put([OperatorToken(e.op)]);
      VisitExpr(e.right);
      Put([RParen]);
      Join5(start, [LParen], Print(e.left), [OperatorToken(e.op)], Print(e.right), [RParen]);
    }

    method VisitUnary(e: Expr)
      requires e.Unary?
      modifies this
      ensures Printed(Print(e))
      decreases Size(e), 0
    {
      ghost var start := out;
      Put([LParen, OperatorToken(e.uop)]);
      VisitExpr(e.operand);
      Put([RParen]);
      Join3(start, [LParen, OperatorToken(e.uop)], Print(e.operand), [RParen]);
    }

    method VisitField(e: Expr)
      requires e.Field?
      modifies this
      ensures Printed(Print(e))
      decreases Size(e), 0
    {
      ghost var start := out;
      VisitExpr(e.base);
      Put([Dot, Name(e.field)]);
      Join2(start, Print(e.base), [Dot, Name(e.field)]);
    }

    method VisitIndex(e: Expr)
      requires e.Index?
      modifies this
      ensures Printed(Print(e))
      decreases Size(e), 0
    {
      ghost var start := out;
      VisitExpr(e.base);
      Put([LBracket]);
      VisitExpr(e.index);
      Put([RBracket]);
      Join4(start, Print(e.base), [LBracket], Print(e.index), [RBracket]);
    }

    method VisitFunction(e: Expr)
      requires e.Fun?
      modifies this
      ensures Printed(Print(e))
      decreases Size(e), 0
    {
      hide PrintBlock, PrintParams;
      ghost var start := out;
      Put([Name("function"), LParen]);
      PutParameters(e.params);
      Put([RParen]);
      VisitBlock(e.body);
      Join4(start, [Name("function"), LParen], PrintParams(e.params), [RParen], PrintBlock(e.body));
    }

    /** The loop over the argument names. */
    method PutParameters(xs: seq<string>)
      modifies this
      ensures Printed(PrintParams(xs))
    {
      hide PrintParams;
      ghost var start := out;
      assert xs[0..] == xs;
      NoParams();
      for i := 0 to |xs|
        invariant indentLevel == old(indentLevel)
        invariant start + PrintParams(xs) == out + (if i == 0 then PrintParams(xs) else MoreParams(xs[i..]))
      {
        assert xs[i..][0] == xs[i] && xs[i..][1..] == xs[i + 1..];
        ParamsInTurn(xs[i..]);
        ghost var before := out;
        if i != 0 { Put([Comma]); }
        Put([Name(xs[i])]);
        Join2(before, [Name(xs[i])], MoreParams(xs[i + 1..]));
        Join3(before, [Comma], [Name(xs[i])], MoreParams(xs[i + 1..]));
      }
    }

    method VisitCall(e: Expr)
      requires e.Call?
      modifies this
      ensures Printed(Print(e))
      decreases Size(e), 0
    {
      hide PrintArgs;
      ghost var start := out;
      VisitExpr(e.target);
      Put([LParen]);
      PutArguments(e.args);
      Put([RParen]);
      Join4(start, Print(e.target), [LParen], PrintArgs(e.args), [RParen]);
    }

    /** The loop over the arguments. */
    method PutArguments(es: seq<Expr>)
      modifies this
      ensures Printed(PrintArgs(es))
      decreases SizeArgs(es), 2
    {
      hide Print, PrintArgs, PrintMoreArgs;
      NoArgs();
      ghost var start := out;
      assert es[0..] == es;
      for i := 0 to |es|
        invariant indentLevel == old(indentLevel)
        invariant start + PrintArgs(es) == out + (if i == 0 then PrintArgs(es) else PrintMoreArgs(es[i..]))
      {
        ArgSmaller(es, i);
        assert es[i..][0] == es[i] && es[i..][1..] == es[i + 1..];
        ArgsInTurn(es[i..]);
        ghost var before := out;
        if i != 0 { Put([Comma]); }
        VisitExpr(es[i]);
        Join2(before, Print(es[i]), PrintMoreArgs(es[i + 1..]));
        Join3(before, [Comma], Print(es[i]), PrintMoreArgs(es[i + 1..]));
      }
    }

    method VisitRecord(e: Expr)
      requires e.Record?
      modifies this
      ensures Printed(Print(e))
      decreases Size(e), 0
    {
      hide PrintFields;
      ghost var start := out;
      Put([LBrace]);
      indentLevel := indentLevel + 1;
      PutFields(e.fields);
      indentLevel := indentLevel - 1;
      Put([RBrace]);
      Join3(start, [LBrace], PrintFields(e.fields), [RBrace]);
    }

    /** The loop over the fields. */
    method PutFields(fs: seq<FieldInit>)
      modifies this
      ensures Printed(PrintFields(fs))
      decreases SizeFields(fs), 2
    {
      hide Print;
      ghost var start := out;
      assert fs[0..] == fs;
      for i := 0 to |fs|
        invariant indentLevel == old(indentLevel)
        invariant start + PrintFields(fs) == out + PrintFields(fs[i..])
      {
        FieldSmaller(fs, i);
        assert fs[i..][0] == fs[i] && fs[i..][1..] == fs[i + 1..];
        ghost var before := out;
        Put([Name(fs[i].name), Colon]);
        VisitExpr(fs[i].init);
        Put([Semicolon]);
        Join4(before, [Name(fs[i].name), Colon], Print(fs[i].init), [Semicolon], PrintFields(fs[i + 1..]));
      }
    }

    method VisitBlock(ss: seq<Stmt>)
      modifies this
      ensures Printed(PrintBlock(ss))
      decreases SizeBlock(ss), 1
    {
      hide PrintStatements;
      ghost var start := out;
      Put([LBrace]);
      indentLevel := indentLevel + 1;
      PutStatements(ss);
      indentLevel := indentLevel - 1;
      Put([RBrace]);
      Join3(start, [LBrace], PrintStatements(ss), [RBrace]);
    }

    /** The loop over the statements. */
    method PutStatements(ss: seq<Stmt>)
      modifies this
      ensures Printed(PrintStatements(ss))
      decreases SizeBlock(ss), 0
    {
      hide PrintStatement;
      ghost var start := out;
      assert ss[0..] == ss;
      for i := 0 to |ss|
        invariant indentLevel == old(indentLevel)
        invariant start + PrintStatements(ss) == out + PrintStatements(ss[i..])
      {
        StmtSmaller(ss, i);
        assert ss[i..][0] == ss[i] && ss[i..][1..] == ss[i + 1..];
        ghost var before := out;
        VisitStatement(ss[i]);
        Join2(before, PrintStatement(ss[i]), PrintStatements(ss[i + 1..]));
      }
    }

    method VisitCondition(c: Expr)
      modifies this
      ensures Printed(PrintCondition(c))
      decreases Size(c), 2
    {
      hide Print;
      ghost var start := out;
      Put([LParen]);
      VisitExpr(c);
      Put([RParen]);
      Join3(start, [LParen], Print(c), [RParen]);
    }

    method VisitStatement(s: Stmt)
      modifies this
      ensures Printed(PrintStatement(s))
      decreases SizeStmt(s), 1
    {
      hide Print, PrintBlock, PrintCondition;
      ghost var start := out;
      match s
      case Global(x) => Put([KwGlobal, Name(x), Semicolon]);
      case CallStmt(e) =>
        VisitExpr(e);
        Put([Semicolon]);
        Join2(start, Print(e), [Semicolon]);
      case If(c, t) =>
        Put([KwIf]);
        VisitCondition(c);
        VisitBlock(t);
        Join3(start, [KwIf], PrintCondition(c), PrintBlock(t));
      case IfElse(c, t, e) =>
        Put([KwIf]);
        VisitCondition(c);
        VisitBlock(t);
        Put([KwElse]);
        VisitBlock(e);
        Join5(start, [KwIf], PrintCondition(c), PrintBlock(t), [KwElse], PrintBlock(e));
      case While(c, b) =>
        Put([KwWhile]);
        VisitCondition(c);
        VisitBlock(b);
        Join3(start, [KwWhile], PrintCondition(c), PrintBlock(b));
      case Return(e) =>
        Put([KwReturn]);
        VisitExpr(e);
        Put([Semicolon]);
        Join3(start, [KwReturn], Print(e), [Semicolon]);
      case _ => VisitAssignment(s);
    }

    method VisitAssignment(s: Stmt)
      requires s.AssignVar? || s.AssignField? || s.AssignIndex?
      modifies this
      ensures Printed(PrintStatement(s))
      decreases SizeStmt(s), 0
    {
      ghost var start := out;
      VisitTarget(s);
      Put([Assign]);
      VisitExpr(s.rhs);
      Put([Semicolon]);
      Join4(start, TargetText(s), [Assign], Print(s.rhs), [Semicolon]);
      AssignmentText(s);
    }

    method VisitTarget(s: Stmt)
      requires s.AssignVar? || s.AssignField? || s.AssignIndex?
      modifies this
      ensures Printed(TargetText(s))
      decreases SizeStmt(s) - 1, 2
    {
      hide Print;
      ghost var start := out;
      match s
      case AssignVar(x, _) => Put([Name(x)]);
      case AssignField(b, x, _) =>
        VisitExpr(b);
        Put([Dot, Name(x)]);
        Join2(start, Print(b), [Dot, Name(x)]);
      case AssignIndex(b, i, _) =>
        VisitExpr(b);
        Put([LBracket]);
        VisitExpr(i);
        Put([RBracket]);
        Join4(start, Print(b), [LBracket], Print(i), [RBracket]);
    }
  }

  function TargetText(s: Stmt): Tokens
    requires s.AssignVar? || s.AssignField? || s.AssignIndex?
  {
    match s
    case AssignVar(x, _) => [Name(x)]
    case AssignField(b, x, _) => Print(b) + [Dot, Name(x)]
    case AssignIndex(b, i, _) => Print(b) + ([LBracket] + (Print(i) + [RBracket]))
  }

  lemma {:induction false} AssignmentText(s: Stmt)
    requires s.AssignVar? || s.AssignField? || s.AssignIndex?
    ensures PrintStatement(s) == TargetText(s) + ([Assign] + (Print(s.rhs) + [Semicolon]))
  {
    hide Print;
  }

  /** Parameters after the first, each behind a comma. */
  function MoreParams(xs: seq<string>): Tokens {
    if xs == [] then [] else [Comma] + PrintParams(xs)
  }

  lemma {:induction false} NoArgs()
    ensures PrintArgs([]) == [] && PrintMoreArgs([]) == []
  {}

  lemma {:induction false} ArgsInTurn(es: seq<Expr>)
    requires es != []
    ensures PrintArgs(es) == Print(es[0]) + PrintMoreArgs(es[1..])
    ensures PrintMoreArgs(es) == [Comma] + (Print(es[0]) + PrintMoreArgs(es[1..]))
  {}

  lemma {:induction false} NoParams()
    ensures PrintParams([]) == []
  {}

  lemma {:induction false} ParamsInTurn(xs: seq<string>)
    requires xs != []
    ensures PrintParams(xs) == [Name(xs[0])] + MoreParams(xs[1..])
  {
    if |xs| == 1 {
      assert [Name(xs[0])] + [] == [Name(xs[0])];
    } else {
      assert [Name(xs[0]), Comma] + PrintParams(xs[1..]) == [Name(xs[0])] + ([Comma] + PrintParams(xs[1..]));
    }
  }
}
