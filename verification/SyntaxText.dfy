/** The printer of abstract syntax, as the tokens its text is made of, and what
    parsing and converting the printed text gives back. */
module SyntaxText {
  import opened Ast
  import opened Syntax
  import opened Converter

  // ---------------------------------------------------------------- printer

  function OperatorToken(op: Operator): Token {
    match op
    case PLUS => Plus case SUB => Minus case MUL => Star case DIV => Slash
    case OR => Bar case AND => Amp case NEG => Bang
    case LT => Less case GT => Greater case LEQ => LessEqual case GEQ => GreaterEqual
    case EQ => Equals
  }

  function Print(e: Expr): Tokens
    decreases e, 0
  {
    match e
    case Var(x) => [Name(x)]
    case IntegerConstant(i) => if i >= 0 then [Int(i)] else [Minus, Int(-i)]
    case StringConstant(t) => [Str(t)]
    case NoneConstant => [Name("none")]
    case BooleanConstant(b) => [if b then TrueToken else FalseToken]
    case Fun(params, body) => [Name("function"), LParen] + (PrintParams(params) + ([RParen] + PrintBlock(body)))
    case Binary(l, op, r) => [LParen] + (Print(l) + ([OperatorToken(op)] + (Print(r) + [RParen])))
    case Unary(op, x) => [LParen, OperatorToken(op)] + (Print(x) + [RParen])
    case Field(b, x) => Print(b) + [Dot, Name(x)]
    case Index(b, i) => Print(b) + ([LBracket] + (Print(i) + [RBracket]))
    case Call(t, args) => Print(t) + ([LParen] + (PrintArgs(args) + [RParen]))
    case Record(fs) => [LBrace] + (PrintFields(fs) + [RBrace])
  }

  function PrintParams(xs: seq<string>): Tokens {
    if xs == [] then [] else if |xs| == 1 then [Name(xs[0])] else [Name(xs[0]), Comma] + PrintParams(xs[1..])
  }

  function PrintArgs(es: seq<Expr>): Tokens
    decreases es, 1
  {
    if es == [] then [] else Print(es[0]) + PrintMoreArgs(es[1..])
  }

  function PrintMoreArgs(es: seq<Expr>): Tokens
    decreases es, 0
  {
    if es == [] then [] else [Comma] + (Print(es[0]) + PrintMoreArgs(es[1..]))
  }

  function PrintFields(fs: seq<FieldInit>): Tokens
    decreases fs, 0
  {
    if fs == [] then [] else [Name(fs[0].name), Colon] + (Print(fs[0].init) + ([Semicolon] + PrintFields(fs[1..])))
  }

  function PrintBlock(ss: seq<Stmt>): Tokens
    decreases ss, 1
  {
    [LBrace] + (PrintStatements(ss) + [RBrace])
  }

  function PrintStatements(ss: seq<Stmt>): Tokens
    decreases ss, 0
  {
    if ss == [] then [] else PrintStatement(ss[0]) + PrintStatements(ss[1..])
  }

  /** A condition in parentheses. */
  function PrintCondition(c: Expr): Tokens
    decreases c, 1
  {
    [LParen] + (Print(c) + [RParen])
  }

  function PrintStatement(s: Stmt): Tokens
    decreases s, 0
  {
    match s
    case Global(x) => [KwGlobal, Name(x), Semicolon]
    case AssignVar(x, e) => [Name(x)] + ([Assign] + (Print(e) + [Semicolon]))
    case AssignField(b, x, e) => (Print(b) + [Dot, Name(x)]) + ([Assign] + (Print(e) + [Semicolon]))
    case AssignIndex(b, i, e) => (Print(b) + ([LBracket] + (Print(i) + [RBracket]))) + ([Assign] + (Print(e) + [Semicolon]))
    case CallStmt(e) => Print(e) + [Semicolon]
    case If(c, t) => [KwIf] + (PrintCondition(c) + PrintBlock(t))
    case IfElse(c, t, e) => [KwIf] + (PrintCondition(c) + (PrintBlock(t) + ([KwElse] + PrintBlock(e))))
    case While(c, b) => [KwWhile] + (PrintCondition(c) + PrintBlock(b))
    case Return(e) => [KwReturn] + (Print(e) + [Semicolon])
  }

  // ---------------------------------------------------------------- what can be read back

  /** Outside function literals no quote or backslash in a string. */
  predicate Plain(e: Expr)
    decreases e
  {
    match e
    case StringConstant(t) => '"' !in t && '\\' !in t
    case Binary(l, _, r) => Plain(l) && Plain(r)
    case Unary(_, x) => Plain(x)
    case Field(b, _) => Plain(b)
    case Index(b, i) => Plain(b) && Plain(i)
    case Call(t, args) => Plain(t) && PlainArgs(args)
    case Record(fs) => PlainFields(fs)
    case _ => true
  }

  predicate PlainArgs(es: seq<Expr>)
    decreases es
  {
    es == [] || (Plain(es[0]) && PlainArgs(es[1..]))
  }

  predicate PlainFields(fs: seq<FieldInit>)
    decreases fs
  {
    fs == [] || (Plain(fs[0].init) && PlainFields(fs[1..]))
  }

  predicate PlainStatement(s: Stmt)
    decreases s
  {
    match s
    case Global(_) => true
    case AssignVar(_, e) => Plain(e)
    case AssignField(b, _, e) => Plain(b) && Plain(e)
    case AssignIndex(b, i, e) => Plain(b) && Plain(i) && Plain(e)
    case CallStmt(e) => Plain(e)
    case If(c, t) => Plain(c) && PlainStatements(t)
    case IfElse(c, t, e) => Plain(c) && PlainStatements(t) && PlainStatements(e)
    case While(c, b) => Plain(c) && PlainStatements(b)
    case Return(e) => Plain(e)
  }

  predicate PlainStatements(ss: seq<Stmt>)
    decreases ss
  {
    ss == [] || (PlainStatement(ss[0]) && PlainStatements(ss[1..]))
  }

  /** No function literal. */
  predicate NoFunction(e: Expr)
    decreases e
  {
    match e
    case Fun(_, _) => false
    case Binary(l, _, r) => NoFunction(l) && NoFunction(r)
    case Unary(_, x) => NoFunction(x)
    case Field(b, _) => NoFunction(b)
    case Index(b, i) => NoFunction(b) && NoFunction(i)
    case Call(t, args) => NoFunction(t) && NoFunctionArgs(args)
    case Record(fs) => NoFunctionFields(fs)
    case _ => true
  }

  predicate NoFunctionArgs(es: seq<Expr>)
    decreases es
  {
    es == [] || (NoFunction(es[0]) && NoFunctionArgs(es[1..]))
  }

  predicate NoFunctionFields(fs: seq<FieldInit>)
    decreases fs
  {
    fs == [] || (NoFunction(fs[0].init) && NoFunctionFields(fs[1..]))
  }

  predicate NoFunctionStatement(s: Stmt)
    decreases s
  {
    match s
    case Global(_) => true
    case AssignVar(_, e) => NoFunction(e)
    case AssignField(b, _, e) => NoFunction(b) && NoFunction(e)
    case AssignIndex(b, i, e) => NoFunction(b) && NoFunction(i) && NoFunction(e)
    case CallStmt(e) => NoFunction(e)
    case If(c, t) => NoFunction(c) && NoFunctionStatements(t)
    case IfElse(c, t, e) => NoFunction(c) && NoFunctionStatements(t) && NoFunctionStatements(e)
    case While(c, b) => NoFunction(c) && NoFunctionStatements(b)
    case Return(e) => NoFunction(e)
  }

  predicate NoFunctionStatements(ss: seq<Stmt>)
    decreases ss
  {
    ss == [] || (NoFunctionStatement(ss[0]) && NoFunctionStatements(ss[1..]))
  }

  predicate Clean(e: Expr) { Plain(e) && NoFunction(e) }
  predicate CleanArgs(es: seq<Expr>) { PlainArgs(es) && NoFunctionArgs(es) }
  predicate CleanFields(fs: seq<FieldInit>) { PlainFields(fs) && NoFunctionFields(fs) }
  predicate CleanStatement(s: Stmt) { PlainStatement(s) && NoFunctionStatement(s) }
  predicate CleanStatements(ss: seq<Stmt>) { PlainStatements(ss) && NoFunctionStatements(ss) }

  /** What comes back: None is printed as the variable `none`. */
  function Returned(e: Expr): (r: Expr)
    requires Clean(e)
    ensures (IsLhs(e) ==> IsLhs(r)) && (IsOperand(e) ==> IsOperand(r)) && (IsExpression(e) ==> IsExpression(r))
    ensures e.Var? ==> r == e
    decreases e
  {
    match e
    case NoneConstant => Var("none")
    case Binary(l, op, r) => Binary(Returned(l), op, Returned(r))
    case Unary(op, x) => Unary(op, Returned(x))
    case Field(b, x) => Field(Returned(b), x)
    case Index(b, i) => Index(Returned(b), Returned(i))
    case Call(t, args) => Expr.Call(Returned(t), ReturnedArgs(args))
    case Record(fs) => Expr.Record(ReturnedFields(fs))
    case _ => e
  }

  function ReturnedArgs(es: seq<Expr>): (r: seq<Expr>)
    requires CleanArgs(es)
    ensures |r| == |es| && (AreExpressions(es) ==> AreExpressions(r))
    decreases es
  {
    if es == [] then [] else [Returned(es[0])] + ReturnedArgs(es[1..])
  }

  function ReturnedFields(fs: seq<FieldInit>): (r: seq<FieldInit>)
    requires CleanFields(fs)
    ensures |r| == |fs| && (AreFields(fs) ==> AreFields(r))
    decreases fs
  {
    if fs == [] then [] else [FieldInit(fs[0].name, Returned(fs[0].init))] + ReturnedFields(fs[1..])
  }

  function ReturnedStatement(s: Stmt): Stmt
    requires CleanStatement(s)
    decreases s
  {
    match s
    case Global(_) => s
    case AssignVar(x, e) => AssignVar(x, Returned(e))
    case AssignField(b, x, e) => AssignField(Returned(b), x, Returned(e))
    case AssignIndex(b, i, e) => AssignIndex(Returned(b), Returned(i), Returned(e))
    case CallStmt(e) => CallStmt(Returned(e))
    case If(c, t) => Stmt.If(Returned(c), ReturnedStatements(t))
    case IfElse(c, t, e) => IfElse(Returned(c), ReturnedStatements(t), ReturnedStatements(e))
    case While(c, b) => Stmt.While(Returned(c), ReturnedStatements(b))
    case Return(e) => Stmt.Return(Returned(e))
  }

  function ReturnedStatements(ss: seq<Stmt>): (r: seq<Stmt>)
    requires CleanStatements(ss)
    ensures |r| == |ss|
    decreases ss
  {
    if ss == [] then [] else [ReturnedStatement(ss[0])] + ReturnedStatements(ss[1..])
  }
}
