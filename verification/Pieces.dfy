/** The expressions and statements a program's text consists of, in the order of the
    text, each with the function literals around it; and the syntactic passes and
    conditions, said of these pieces. */
module Pieces {
  import opened Basics
  import opened Ast
  import opened Scoping

  datatype Node = E(expr: Expr) | S(stmt: Stmt)

  /** `around` lists the literals the node is in, outermost first. */
  datatype Piece = Piece(node: Node, around: seq<Expr>)

  function Of(e: Expr, around: seq<Expr>): (ps: seq<Piece>)
    ensures forall p :: p in ps ==> around <= p.around && (p.node.S? ==> |around| < |p.around|)
  {
    [Piece(E(e), around)]
    + match e
      case Fun(_, b) => OfBlock(b, around + [e])
      case Binary(l, _, r) => Of(l, around) + Of(r, around)
      case Unary(_, x) => Of(x, around)
      case Field(b, _) => Of(b, around)
      case Index(b, i) => Of(b, around) + Of(i, around)
      case Call(t, es) => Of(t, around) + OfArgs(es, around)
      case Record(fs) => OfFields(fs, around)
      case _ => []
  }

  function OfArgs(es: seq<Expr>, around: seq<Expr>): (ps: seq<Piece>)
    ensures forall p :: p in ps ==> around <= p.around && (p.node.S? ==> |around| < |p.around|)
  {
    if es == [] then [] else Of(es[0], around) + OfArgs(es[1..], around)
  }

  function OfFields(fs: seq<FieldInit>, around: seq<Expr>): (ps: seq<Piece>)
    ensures forall p :: p in ps ==> around <= p.around && (p.node.S? ==> |around| < |p.around|)
  {
    if fs == [] then [] else Of(fs[0].init, around) + OfFields(fs[1..], around)
  }

  function OfStmt(s: Stmt, around: seq<Expr>): (ps: seq<Piece>)
    ensures forall p :: p in ps ==> around <= p.around
  {
    [Piece(S(s), around)]
    + match s
      case Global(_) => []
      case AssignVar(_, e) => Of(e, around)
      case AssignField(b, _, e) => Of(b, around) + Of(e, around)
      case AssignIndex(b, i, e) => Of(b, around) + Of(i, around) + Of(e, around)
      case CallStmt(e) => Of(e, around)
      case If(c, t) => Of(c, around) + OfBlock(t, around)
      case IfElse(c, t, e) => Of(c, around) + (OfBlock(t, around) + OfBlock(e, around))
      case While(c, b) => Of(c, around) + OfBlock(b, around)
      case Return(e) => Of(e, around)
  }

  function OfBlock(ss: seq<Stmt>, around: seq<Expr>): (ps: seq<Piece>)
    ensures forall p :: p in ps ==> around <= p.around
  {
    if ss == [] then [] else OfStmt(ss[0], around) + OfBlock(ss[1..], around)
  }

  // ---------------------------------------------------------------- names a body assigns and declares

  datatype Pass = Assigning | Declaring

  /** The name the statement gives to the pass. */
  function NameIn(s: Stmt, pass: Pass): seq<string> {
    if pass.Assigning? && s.AssignVar? then [s.name]
    else if pass.Declaring? && s.Global? then [s.name]
    else []
  }

  /** The names of the statements in no more than `depth` literals, in order. */
  function NamesIn(ps: seq<Piece>, pass: Pass, depth: nat): seq<string> {
    if ps == [] then [] else NamedBy(ps[0], pass, depth) + NamesIn(ps[1..], pass, depth)
  }

  function NamedBy(p: Piece, pass: Pass, depth: nat): seq<string> {
    if p.node.S? && |p.around| <= depth then NameIn(p.node.stmt, pass) else []
  }

  lemma {:induction false} Associates(a: seq<string>, b: seq<string>, c: seq<string>)
    ensures a + (b + c) == (a + b) + c
  {}

  lemma {:induction false} NamesInSum(ps: seq<Piece>, qs: seq<Piece>, pass: Pass, depth: nat)
    ensures NamesIn(ps + qs, pass, depth) == NamesIn(ps, pass, depth) + NamesIn(qs, pass, depth)
  {
    hide NamedBy;
    if ps == [] {
      assert ps + qs == qs;
    } else {
      NamesInSum(ps[1..], qs, pass, depth);
      assert (ps + qs)[1..] == ps[1..] + qs && (ps + qs)[0] == ps[0];
      Associates(NamedBy(ps[0], pass, depth), NamesIn(ps[1..], pass, depth), NamesIn(qs, pass, depth));
    }
  }

  lemma {:induction false} NoNames(ps: seq<Piece>, pass: Pass, depth: nat)
    requires forall p :: p in ps && p.node.S? ==> depth < |p.around|
    ensures NamesIn(ps, pass, depth) == []
  {
    if ps != [] {
      assert ps[0] in ps;
      NoNames(ps[1..], pass, depth);
    }
  }

  /** What a pass collects: the names of the statements outside inner literals, in the
      order of the text, repetitions included. */
  function Collected(s: Stmt, pass: Pass): seq<string> {
    if pass.Assigning? then AssignsOf(s) else GlobalsOf(s)
  }

  function CollectedBlock(ss: seq<Stmt>, pass: Pass): seq<string> {
    if pass.Assigning? then AssignsOfBlock(ss) else GlobalsOfBlock(ss)
  }

  /** A statement's own name, and then those of its parts. */
  lemma {:induction false} NamesBehind(s: Stmt, parts: seq<Piece>, pass: Pass, around: seq<Expr>)
    ensures NamesIn([Piece(S(s), around)] + parts, pass, |around|) == NameIn(s, pass) + NamesIn(parts, pass, |around|)
  {
    hide NameIn;
    assert ([Piece(S(s), around)] + parts)[1..] == parts;
  }

  /** A condition adds no names. */
  lemma {:induction false} NamesPast(c: Expr, parts: seq<Piece>, pass: Pass, around: seq<Expr>)
    ensures NamesIn(Of(c, around) + parts, pass, |around|) == NamesIn(parts, pass, |around|)
  {
    hide Of;
    NoNames(Of(c, around), pass, |around|);
    NamesInSum(Of(c, around), parts, pass, |around|);
  }

  lemma {:induction false} NamesOfStmt(s: Stmt, pass: Pass, around: seq<Expr>)
    ensures NamesIn(OfStmt(s, around), pass, |around|) == Collected(s, pass)
    decreases s
  {
    hide Of, OfBlock, NamesIn;
    var parts := OfStmt(s, around)[1..];
    assert OfStmt(s, around) == [Piece(S(s), around)] + parts;
    NamesBehind(s, parts, pass, around);
    match s
    case If(c, t) =>
      NamesPast(c, OfBlock(t, around), pass, around);
      NamesOfBlock(t, pass, around);
    case IfElse(c, t, e) =>
      NamesPast(c, OfBlock(t, around) + OfBlock(e, around), pass, around);
      NamesInSum(OfBlock(t, around), OfBlock(e, around), pass, |around|);
      NamesOfBlock(t, pass, around);
      NamesOfBlock(e, pass, around);
    case While(c, b) =>
      NamesPast(c, OfBlock(b, around), pass, around);
      NamesOfBlock(b, pass, around);
    case _ =>
      NoNames(parts, pass, |around|);
  }

  /** The two passes over a body collect exactly the names its own statements assign and
      declare global, in the order of the text. */
  lemma {:induction false} NamesOfBlock(ss: seq<Stmt>, pass: Pass, around: seq<Expr>)
    ensures NamesIn(OfBlock(ss, around), pass, |around|) == CollectedBlock(ss, pass)
    decreases ss
  {
    hide OfStmt;
    if ss != [] {
      NamesOfStmt(ss[0], pass, around);
      NamesOfBlock(ss[1..], pass, around);
      NamesInSum(OfStmt(ss[0], around), OfBlock(ss[1..], around), pass, |around|);
    }
  }

  // ---------------------------------------------------------------- calls and constants

  /** An expression is call-free exactly when it has no call outside literals. */
  lemma {:induction false} CallFreeIff(e: Expr, around: seq<Expr>)
    ensures CallFree(e) <==> forall p :: p in Of(e, around) && p.around == around ==> !p.node.expr.Call?
    decreases e
  {
    assert Piece(E(e), around) in Of(e, around);
    match e
    case Binary(l, _, r) => CallFreeIff(l, around); CallFreeIff(r, around);
    case Unary(_, x) => CallFreeIff(x, around);
    case Field(b, _) => CallFreeIff(b, around);
    case Index(b, i) => CallFreeIff(b, around); CallFreeIff(i, around);
    case Record(fs) => CallFreeFieldsIff(fs, around);
    case _ =>
  }

  lemma {:induction false} CallFreeFieldsIff(fs: seq<FieldInit>, around: seq<Expr>)
    ensures CallFreeFields(fs) <==> forall p :: p in OfFields(fs, around) && p.around == around ==> !p.node.expr.Call?
    decreases fs
  {
    hide Of;
    if fs != [] {
      CallFreeIff(fs[0].init, around);
      CallFreeFieldsIff(fs[1..], around);
    }
  }

  predicate IsConstantOrOperator(e: Expr) {
    e.IntegerConstant? || e.StringConstant? || e.NoneConstant? || e.BooleanConstant? || e.Binary? || e.Unary?
  }

  /** An expression is fixed exactly when it consists of constants and operators. */
  lemma {:induction false} FixedIff(e: Expr, around: seq<Expr>)
    ensures Fixed(e) <==> forall p :: p in Of(e, around) ==> p.node.E? && IsConstantOrOperator(p.node.expr)
    decreases e
  {
    assert Piece(E(e), around) in Of(e, around);
    match e
    case Binary(l, _, r) => FixedIff(l, around); FixedIff(r, around);
    case Unary(_, x) => FixedIff(x, around);
    case _ =>
  }

  // ---------------------------------------------------------------- the conditions

  /** The locals of all the literals around. */
  function Locals(around: seq<Expr>): set<string> {
    if around == [] then {}
    else
      var inner := around[|around| - 1];
      Locals(around[..|around| - 1]) + (if inner.Fun? then LocalsOf(inner.params, inner.body) else {})
  }

  /** What the text conditions ask of one piece. */
  predicate Meets(p: Piece, c: Conditions) {
    match p.node
    case E(Fun(ps, b)) =>
      && (forall i, j :: 0 <= i < j < |ps| ==> ps[i] != ps[j])
      && (c.returning && FindReturnBlock(b) ==> MustReturnBlock(b))
    case E(Binary(l, op, r)) => op != NEG && (op == LT || op == LEQ ==> (KindOf(l), KindOf(r)) in c.pairs)
    case E(Unary(op, _)) => op == SUB || op == NEG
    case _ => true
  }

  /** A literal's global names are none of its parameters and no local around it. */
  predicate DeclaresNew(p: Piece) {
    p.node.E? && p.node.expr.Fun? ==>
      forall x :: x in GlobalsOfBlock(p.node.expr.body) ==> x !in p.node.expr.params && x !in Locals(p.around)
  }

  /** The index of a store is never a record, or its right-hand side calls nothing. */
  predicate StoresStable(p: Piece) {
    p.node.S? && p.node.stmt.AssignIndex? ==> NeverRecord(p.node.stmt.index) || CallFree(p.node.stmt.rhs)
  }

  lemma {:induction false} WellFormedIff(e: Expr, around: seq<Expr>, c: Conditions)
    ensures WellFormed(e, c) <==> forall p :: p in Of(e, around) ==> Meets(p, c)
    decreases e
  {
    assert Piece(E(e), around) in Of(e, around);
    match e
    case Fun(ps, b) =>
      WellFormedBlockIff(b, around + [e], c);
    case Binary(l, _, r) => WellFormedIff(l, around, c); WellFormedIff(r, around, c);
    case Unary(_, x) => WellFormedIff(x, around, c);
    case Field(b, _) => WellFormedIff(b, around, c);
    case Index(b, i) => WellFormedIff(b, around, c); WellFormedIff(i, around, c);
    case Call(t, es) => WellFormedIff(t, around, c); WellFormedArgsIff(es, around, c);
    case Record(fs) => WellFormedFieldsIff(fs, around, c);
    case _ =>
  }

  lemma {:induction false} WellFormedArgsIff(es: seq<Expr>, around: seq<Expr>, c: Conditions)
    ensures WellFormedArgs(es, c) <==> forall p :: p in OfArgs(es, around) ==> Meets(p, c)
    decreases es
  {
    hide Of, Meets;
    if es != [] { WellFormedIff(es[0], around, c); WellFormedArgsIff(es[1..], around, c); }
  }

  lemma {:induction false} WellFormedFieldsIff(fs: seq<FieldInit>, around: seq<Expr>, c: Conditions)
    ensures WellFormedFields(fs, c) <==> forall p :: p in OfFields(fs, around) ==> Meets(p, c)
    decreases fs
  {
    hide Of, Meets;
    if fs != [] { WellFormedIff(fs[0].init, around, c); WellFormedFieldsIff(fs[1..], around, c); }
  }

  lemma {:induction false} WellFormedStmtIff(s: Stmt, around: seq<Expr>, c: Conditions)
    ensures WellFormedStmt(s, c) <==> forall p :: p in OfStmt(s, around) ==> Meets(p, c)
    decreases s
  {
    hide Of, OfBlock;
    assert Piece(S(s), around) in OfStmt(s, around);
    match s
    case Global(_) =>
    case AssignVar(_, e) => WellFormedIff(e, around, c);
    case AssignField(b, _, e) => WellFormedIff(b, around, c); WellFormedIff(e, around, c);
    case AssignIndex(b, i, e) => WellFormedIff(b, around, c); WellFormedIff(i, around, c); WellFormedIff(e, around, c);
    case CallStmt(e) => WellFormedIff(e, around, c);
    case If(d, t) => WellFormedIff(d, around, c); WellFormedBlockIff(t, around, c);
    case IfElse(d, t, e) => WellFormedIff(d, around, c); WellFormedBlockIff(t, around, c); WellFormedBlockIff(e, around, c);
    case While(d, b) => WellFormedIff(d, around, c); WellFormedBlockIff(b, around, c);
    case Return(e) => WellFormedIff(e, around, c);
  }

  lemma {:induction false} WellFormedBlockIff(ss: seq<Stmt>, around: seq<Expr>, c: Conditions)
    ensures WellFormedBlock(ss, c) <==> forall p :: p in OfBlock(ss, around) ==> Meets(p, c)
    decreases ss
  {
    hide OfStmt, Meets;
    if ss != [] { WellFormedStmtIff(ss[0], around, c); WellFormedBlockIff(ss[1..], around, c); }
  }

  lemma {:induction false} FreshIff(e: Expr, around: seq<Expr>)
    ensures Fresh(e, Locals(around)) <==> forall p :: p in Of(e, around) ==> DeclaresNew(p)
    decreases e
  {
    assert Piece(E(e), around) in Of(e, around);
    match e
    case Fun(ps, b) =>
      assert (around + [e])[..|around|] == around;
      FreshBlockIff(b, around + [e]);
    case Binary(l, _, r) => FreshIff(l, around); FreshIff(r, around);
    case Unary(_, x) => FreshIff(x, around);
    case Field(b, _) => FreshIff(b, around);
    case Index(b, i) => FreshIff(b, around); FreshIff(i, around);
    case Call(t, es) => FreshIff(t, around); FreshArgsIff(es, around);
    case Record(fs) => FreshFieldsIff(fs, around);
    case _ =>
  }

  lemma {:induction false} FreshArgsIff(es: seq<Expr>, around: seq<Expr>)
    ensures FreshArgs(es, Locals(around)) <==> forall p :: p in OfArgs(es, around) ==> DeclaresNew(p)
    decreases es
  {
    hide Of, DeclaresNew;
    if es != [] { FreshIff(es[0], around); FreshArgsIff(es[1..], around); }
  }

  lemma {:induction false} FreshFieldsIff(fs: seq<FieldInit>, around: seq<Expr>)
    ensures FreshFields(fs, Locals(around)) <==> forall p :: p in OfFields(fs, around) ==> DeclaresNew(p)
    decreases fs
  {
    hide Of, DeclaresNew;
    if fs != [] { FreshIff(fs[0].init, around); FreshFieldsIff(fs[1..], around); }
  }

  lemma {:induction false} FreshStmtIff(s: Stmt, around: seq<Expr>)
    ensures FreshStmt(s, Locals(around)) <==> forall p :: p in OfStmt(s, around) ==> DeclaresNew(p)
    decreases s
  {
    hide Of, OfBlock;
    assert Piece(S(s), around) in OfStmt(s, around);
    match s
    case Global(_) =>
    case AssignVar(_, e) => FreshIff(e, around);
    case AssignField(b, _, e) => FreshIff(b, around); FreshIff(e, around);
    case AssignIndex(b, i, e) => FreshIff(b, around); FreshIff(i, around); FreshIff(e, around);
    case CallStmt(e) => FreshIff(e, around);
    case If(d, t) => FreshIff(d, around); FreshBlockIff(t, around);
    case IfElse(d, t, e) => FreshIff(d, around); FreshBlockIff(t, around); FreshBlockIff(e, around);
    case While(d, b) => FreshIff(d, around); FreshBlockIff(b, around);
    case Return(e) => FreshIff(e, around);
  }

  lemma {:induction false} FreshBlockIff(ss: seq<Stmt>, around: seq<Expr>)
    ensures FreshBlock(ss, Locals(around)) <==> forall p :: p in OfBlock(ss, around) ==> DeclaresNew(p)
    decreases ss
  {
    hide OfStmt, DeclaresNew;
    if ss != [] { FreshStmtIff(ss[0], around); FreshBlockIff(ss[1..], around); }
  }

  lemma {:induction false} IndexedIff(e: Expr, around: seq<Expr>)
    ensures Indexed(e) <==> forall p :: p in Of(e, around) ==> StoresStable(p)
    decreases e
  {
    assert Piece(E(e), around) in Of(e, around);
    match e
    case Fun(ps, b) =>
      IndexedBlockIff(b, around + [e]);
    case Binary(l, _, r) => IndexedIff(l, around); IndexedIff(r, around);
    case Unary(_, x) => IndexedIff(x, around);
    case Field(b, _) => IndexedIff(b, around);
    case Index(b, i) => IndexedIff(b, around); IndexedIff(i, around);
    case Call(t, es) => IndexedIff(t, around); IndexedArgsIff(es, around);
    case Record(fs) => IndexedFieldsIff(fs, around);
    case _ =>
  }

  lemma {:induction false} IndexedArgsIff(es: seq<Expr>, around: seq<Expr>)
    ensures IndexedArgs(es) <==> forall p :: p in OfArgs(es, around) ==> StoresStable(p)
    decreases es
  {
    hide Of, StoresStable;
    if es != [] { IndexedIff(es[0], around); IndexedArgsIff(es[1..], around); }
  }

  lemma {:induction false} IndexedFieldsIff(fs: seq<FieldInit>, around: seq<Expr>)
    ensures IndexedFields(fs) <==> forall p :: p in OfFields(fs, around) ==> StoresStable(p)
    decreases fs
  {
    hide Of, StoresStable;
    if fs != [] { IndexedIff(fs[0].init, around); IndexedFieldsIff(fs[1..], around); }
  }

  lemma {:induction false} IndexedStmtIff(s: Stmt, around: seq<Expr>)
    ensures IndexedStmt(s) <==> forall p :: p in OfStmt(s, around) ==> StoresStable(p)
    decreases s
  {
    hide Of, OfBlock;
    assert Piece(S(s), around) in OfStmt(s, around);
    match s
    case Global(_) =>
    case AssignVar(_, e) => IndexedIff(e, around);
    case AssignField(b, _, e) => IndexedIff(b, around); IndexedIff(e, around);
    case AssignIndex(b, i, e) => IndexedIff(b, around); IndexedIff(i, around); IndexedIff(e, around);
    case CallStmt(e) => IndexedIff(e, around);
    case If(d, t) => IndexedIff(d, around); IndexedBlockIff(t, around);
    case IfElse(d, t, e) => IndexedIff(d, around); IndexedBlockIff(t, around); IndexedBlockIff(e, around);
    case While(d, b) => IndexedIff(d, around); IndexedBlockIff(b, around);
    case Return(e) => IndexedIff(e, around);
  }

  lemma {:induction false} IndexedBlockIff(ss: seq<Stmt>, around: seq<Expr>)
    ensures IndexedBlock(ss) <==> forall p :: p in OfBlock(ss, around) ==> StoresStable(p)
    decreases ss
  {
    hide OfStmt, StoresStable;
    if ss != [] { IndexedStmtIff(ss[0], around); IndexedBlockIff(ss[1..], around); }
  }

  /** The text of a program meets the conditions exactly when each piece of it does. */
  lemma {:induction false} ProgramMeetsIff(program: seq<Stmt>, c: Conditions)
    ensures WellFormedBlock(program, c) <==> forall p :: p in OfBlock(program, []) ==> Meets(p, c)
    ensures FreshBlock(program, {}) <==> forall p :: p in OfBlock(program, []) ==> DeclaresNew(p)
    ensures IndexedBlock(program) <==> forall p :: p in OfBlock(program, []) ==> StoresStable(p)
  {
    hide WellFormedBlock, FreshBlock, IndexedBlock, Meets, DeclaresNew, StoresStable, OfBlock;
    WellFormedBlockIff(program, [], c);
    FreshBlockIff(program, []);
    IndexedBlockIff(program, []);
  }
}
