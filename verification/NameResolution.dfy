/** Which names the compiler fails to resolve, told from the program text: names
    that no literal around them binds and that are not global when the compiler
    gets there. A literal's declarations are known from the moment it is opened. */
module NameResolution {
  import opened Basics
  import opened Ast
  import opened Bytecode
  import opened Codegen
  import opened Layout
  import opened ScopeAnalysis

  // ---------------------------------------------------------------- names

  /** The literals around a piece of program, innermost first. */
  datatype Around = Program | Literal(globals: set<string>, locals: set<string>, around: Around)

  function AroundBody(params: seq<string>, body: seq<Stmt>, around: Around): Around {
    var gs := set x | x in GlobalsOfBlock(body);
    Literal(gs, (set x | x in params) + ((set x | x in AssignsOfBlock(body)) - gs), around)
  }

  /** `known` holds the program's global names so far. */
  predicate IsGlobal(x: string, known: set<string>, around: Around) {
    match around
    case Program => x in known
    case Literal(gs, ls, up) => x in gs || (x !in ls && IsGlobal(x, known, up))
  }

  /** A use adds the name to the free variables unless it is global or bound here. */
  function Use(x: string, known: set<string>, around: Around): set<string> {
    if IsGlobal(x, known, around) || (around.Literal? && x in around.locals) then {} else {x}
  }

  /** The names literals inside declare global. */
  function Opened(e: Expr): set<string> {
    match e
    case Fun(_, b) => (set x | x in GlobalsOfBlock(b)) + OpenedBlock(b)
    case Binary(l, _, r) => Opened(l) + Opened(r)
    case Unary(_, x) => Opened(x)
    case Field(b, _) => Opened(b)
    case Index(b, i) => Opened(b) + Opened(i)
    case Call(t, es) => Opened(t) + OpenedArgs(es)
    case Record(fs) => OpenedFields(fs)
    case _ => {}
  }

  function OpenedArgs(es: seq<Expr>): set<string> {
    if es == [] then {} else Opened(es[0]) + OpenedArgs(es[1..])
  }

  function OpenedFields(fs: seq<FieldInit>): set<string> {
    if fs == [] then {} else Opened(fs[0].init) + OpenedFields(fs[1..])
  }

  function OpenedStmt(s: Stmt): set<string> {
    match s
    case Global(x) => {x}
    case AssignVar(_, e) => Opened(e)
    case AssignField(b, _, e) => Opened(b) + Opened(e)
    case AssignIndex(b, i, e) => Opened(b) + Opened(i) + Opened(e)
    case CallStmt(e) => Opened(e)
    case If(c, t) => Opened(c) + OpenedBlock(t)
    case IfElse(c, t, e) => Opened(c) + OpenedBlock(t) + OpenedBlock(e)
    case While(c, b) => Opened(c) + OpenedBlock(b)
    case Return(e) => Opened(e)
  }

  function OpenedBlock(ss: seq<Stmt>): set<string> {
    if ss == [] then {} else OpenedStmt(ss[0]) + OpenedBlock(ss[1..])
  }

  function LocalNames(around: Around): set<string> {
    if around.Literal? then around.locals else {}
  }

  /** The free variables a piece of program adds to the function it is in; those of
      a literal that are locals around it are captured there. */
  function Free(e: Expr, known: set<string>, around: Around): set<string> {
    match e
    case Var(x) => Use(x, known, around)
    case Fun(ps, b) =>
      FreeBlock(b, known + (set x | x in GlobalsOfBlock(b)), AroundBody(ps, b, around))
      - LocalNames(around)
    case Binary(l, _, r) => Free(l, known, around) + Free(r, known + Opened(l), around)
    case Unary(_, x) => Free(x, known, around)
    case Field(b, _) => Free(b, known, around)
    case Index(b, i) => Free(b, known, around) + Free(i, known + Opened(b), around)
    case Call(t, es) => Free(t, known, around) + FreeArgs(es, known + Opened(t), around)
    case Record(fs) => FreeFields(fs, known, around)
    case _ => {}
  }

  function FreeArgs(es: seq<Expr>, known: set<string>, around: Around): set<string> {
    if es == [] then {} else Free(es[0], known, around) + FreeArgs(es[1..], known + Opened(es[0]), around)
  }

  function FreeFields(fs: seq<FieldInit>, known: set<string>, around: Around): set<string> {
    if fs == [] then {}
    else Free(fs[0].init, known, around) + FreeFields(fs[1..], known + Opened(fs[0].init), around)
  }

  function FreeStmt(s: Stmt, known: set<string>, around: Around): set<string> {
    match s
    case Global(_) => {}
    case AssignVar(x, e) => Use(x, known, around) + Free(e, known, around)
    case AssignField(b, _, e) => Free(b, known, around) + Free(e, known + Opened(b), around)
    case AssignIndex(b, i, e) =>
      Free(b, known, around) + Free(i, known + Opened(b), around) + Free(e, known + Opened(b) + Opened(i), around)
    case CallStmt(e) => Free(e, known, around)
    case If(c, t) => Free(c, known, around) + FreeBlock(t, known + Opened(c), around)
    case IfElse(c, t, e) =>
      Free(c, known, around) + FreeBlock(t, known + Opened(c), around)
      + FreeBlock(e, known + Opened(c) + OpenedBlock(t), around)
    case While(c, b) => Free(c, known, around) + FreeBlock(b, known + Opened(c), around)
    case Return(e) => Free(e, known, around)
  }

  function FreeBlock(ss: seq<Stmt>, known: set<string>, around: Around): set<string> {
    if ss == [] then {}
    else FreeStmt(ss[0], known, around) + FreeBlock(ss[1..], known + OpenedStmt(ss[0]), around)
  }

  /** The names a program never resolves. */
  function Unresolved(program: seq<Stmt>): set<string> {
    FreeBlock(program, (set x | x in NATIVE_NAMES + GlobalsOfBlock(program) + AssignsOfBlock(program)), Program)
  }

  // ---------------------------------------------------------------- scopes

  /** The symbol tables say what `known` and `around` say. */
  ghost predicate Fits(cs: Scopes, known: set<string>, around: Around)
    decreases around
  {
    match around
    case Program => |cs| == 1 && cs[0].table.Keys == known && AllGlobal(cs[0].table) && cs[0].fn.localVars == []
    case Literal(gs, ls, up) =>
      && |cs| > 1 && Fits(cs[..|cs|-1], known, up)
      && Last(cs).table.Keys == gs + ls
      && (forall x :: x in Last(cs).table ==> Last(cs).table[x] == if x in gs then GLOBAL else LOCAL)
      && (forall x :: x in Last(cs).fn.localVars <==> x in ls)
  }

  /** Tables, locals and the suspended functions' free variables are as before. */
  ghost predicate Alike(a: Scopes, b: Scopes) {
    && |a| == |b|
    && (forall i :: 0 <= i < |a| ==> b[i].table == a[i].table && b[i].fn.localVars == a[i].fn.localVars)
    && (forall i :: 0 <= i < |a| - 1 ==> b[i].fn.freeVars == a[i].fn.freeVars)
  }

  /** A compile step from `a` to `b` that declares `added` global and leaves `free` unresolved
      here. */
  ghost predicate Adds(a: Scopes, b: Scopes, known: set<string>, added: set<string>, free: set<string>, around: Around) {
    && a != [] && |b| == |a| && Fits(b, known + added, around)
    && (forall i :: 0 <= i < |a| - 1 ==> b[i].fn.freeVars == a[i].fn.freeVars)
    && (forall x :: x in Last(b).fn.freeVars <==> x in Last(a).fn.freeVars || x in free)
  }

  lemma {:induction false} FitsAlike(a: Scopes, b: Scopes, known: set<string>, around: Around)
    requires a != [] && Fits(a, known, around) && Alike(a, b)
    ensures Fits(b, known, around)
    decreases around
  {
    if around.Literal? { FitsAlike(a[..|a|-1], b[..|b|-1], known, around.around); }
  }

  lemma {:induction false} Nothing(a: Scopes, b: Scopes, known: set<string>, around: Around)
    requires a != [] && Fits(a, known, around) && Alike(a, b) && Last(b).fn.freeVars == Last(a).fn.freeVars
    ensures Adds(a, b, known, {}, {}, around)
  {
    FitsAlike(a, b, known, around);
    assert known + {} == known;
  }

  lemma {:induction false} Then(a: Scopes, b: Scopes, c: Scopes, known: set<string>, o: set<string>, f: set<string>,
      o': set<string>, f': set<string>, around: Around)
    requires Adds(a, b, known, o, f, around) && Adds(b, c, known + o, o', f', around)
    ensures Adds(a, c, known, o + o', f + f', around)
  {
    assert known + o + o' == known + (o + o');
    hide Fits;
  }

  lemma {:induction false} PoolsOnly(cs: Scopes, known: set<string>, around: Around, c: Constant, x: string)
    requires cs != [] && Fits(cs, known, around)
    ensures Adds(cs, AllocConstant(cs, c).0, known, {}, {}, around)
    ensures Adds(cs, AllocName(cs, x).0, known, {}, {}, around)
    ensures Adds(cs, AddFreeVar(cs, x), known, {}, {x}, around)
    ensures Adds(cs, cs, known, {}, {}, around)
  {
    Nothing(cs, AllocConstant(cs, c).0, known, around);
    Nothing(cs, AllocName(cs, x).0, known, around);
    Nothing(cs, cs, known, around);
    FitsAlike(cs, AddFreeVar(cs, x), known, around);
    assert known + {} == known;
  }

  lemma {:induction false} LookupFits(cs: Scopes, known: set<string>, around: Around, x: string)
    requires cs != [] && Fits(cs, known, around)
    ensures Lookup(cs, x) == GLOBAL <==> IsGlobal(x, known, around)
    ensures Lookup(cs, x) == LOCAL ==> around.Literal? && x in around.locals
    ensures Lookup(cs, x) in {FREE, NOT_FOUND} ==> Use(x, known, around) == {x}
    decreases around
  {
    if around.Literal? { LookupFits(cs[..|cs|-1], known, around.around, x); }
  }

  // ---------------------------------------------------------------- declarations

  lemma {:induction false} FitsGlobal(cs: Scopes, b: Scopes, known: set<string>, x: string, around: Around)
    requires cs != [] && |b| == |cs| && Fits(cs, known, around)
    requires around.Literal? ==> x in around.globals
    requires forall i :: 0 < i < |cs| ==> b[i].fn.localVars == cs[i].fn.localVars
    requires forall i :: 0 < i < |cs| - 1 ==> b[i].table == cs[i].table
    requires b[0].table == cs[0].table[x := GLOBAL] && b[0].fn.localVars == cs[0].fn.localVars
    requires Last(b).table == Last(cs).table[x := GLOBAL]
    ensures Fits(b, known + {x}, around)
    decreases around
  {
    if around.Literal? { Below(cs[..|cs|-1], b[..|b|-1], known, x, around.around); }
  }

  /** A literal further out may bind the name as it likes. */
  lemma {:induction false} Below(cs: Scopes, b: Scopes, known: set<string>, x: string, around: Around)
    requires cs != [] && |b| == |cs| && Fits(cs, known, around)
    requires forall i :: 0 < i < |cs| ==> b[i].fn.localVars == cs[i].fn.localVars && b[i].table == cs[i].table
    requires b[0].table == cs[0].table[x := GLOBAL] && b[0].fn.localVars == cs[0].fn.localVars
    ensures Fits(b, known + {x}, around)
    decreases around
  {
    if around.Literal? { Below(cs[..|cs|-1], b[..|b|-1], known, x, around.around); }
  }

  lemma {:induction false} DeclareGlobalAdds(cs: Scopes, known: set<string>, x: string, around: Around)
    requires cs != [] && Fits(cs, known, around) && (around.Literal? ==> x in around.globals)
    ensures Adds(cs, DeclareGlobal(cs, x), known, {x}, {}, around)
  {
    FitsGlobal(cs, DeclareGlobal(cs, x), known, x, around);
  }

  lemma {:induction false} DeclareGlobalsProgram(cs: Scopes, xs: seq<string>)
    requires |cs| > 1
    ensures var r := DeclareGlobals(cs, xs);
      && r[0].table.Keys == cs[0].table.Keys + (set x | x in xs) && (AllGlobal(cs[0].table) ==> AllGlobal(r[0].table))
      && r[0].fn.localVars == cs[0].fn.localVars && r[0].fn.freeVars == cs[0].fn.freeVars
      && r[1..|cs|-1] == cs[1..|cs|-1]
    decreases |xs|
  {
    if xs != [] {
      DeclareGlobalsProgram(DeclareGlobal(cs, xs[0]), xs[1..]);
      assert forall x :: x in xs <==> x == xs[0] || x in xs[1..];
    }
  }

  /** A program scope that knows more names does not disturb the literals around. */
  lemma {:induction false} FitsMore(cs: Scopes, b: Scopes, known: set<string>, xs: set<string>, around: Around)
    requires cs != [] && |b| == |cs| && Fits(cs, known, around)
    requires b[0].table.Keys == cs[0].table.Keys + xs && AllGlobal(b[0].table) && b[0].fn.localVars == cs[0].fn.localVars
    requires b[1..] == cs[1..]
    requires |cs| > 1 ==> around.Literal?
    ensures Fits(b, known + xs, around)
    decreases around
  {
    if around.Literal? {
      var n := |cs| - 1;
      assert b[n] == b[1..][n - 1] == cs[1..][n - 1] == cs[n];
      assert b[..n][1..] == b[1..][..n - 1] && cs[..n][1..] == cs[1..][..n - 1];
      FitsMore(cs[..n], b[..n], known, xs, around.around);
    }
  }

  lemma {:induction false} ProgramTable(cs: Scopes, known: set<string>, around: Around)
    requires cs != [] && Fits(cs, known, around)
    ensures AllGlobal(cs[0].table) && (|cs| > 1 ==> around.Literal?)
    decreases around
  {
    if around.Literal? { ProgramTable(cs[..|cs|-1], known, around.around); }
  }

  /** The chain when the body of a literal starts to be compiled. */
  lemma {:induction false} OpenFits(cs: Scopes, params: seq<string>, body: seq<Stmt>, known: set<string>, around: Around)
    requires cs != [] && Fits(cs, known, around) && NoDuplicates(params)
    ensures var o := OpenFunction(cs, params, body);
      && Fits(o, known + (set x | x in GlobalsOfBlock(body)), AroundBody(params, body, around))
      && Last(o).fn.freeVars == []
      && (forall i :: 0 <= i < |cs| ==> o[i].fn.freeVars == cs[i].fn.freeVars)
  {
    hide DeclareParams, DeclareGlobals, DeclareAssigns, GlobalsOfBlock, AssignsOfBlock, Fits, Grows;
    var n, gs, xs, o := |cs|, GlobalsOfBlock(body), AssignsOfBlock(body), OpenFunction(cs, params, body);
    OpenFunctionScope(cs, params, body);
    var c0 := cs + [Scope(EMPTY_FUNCTION, map[])];
    assert c0[..n] == cs && EMPTY_FUNCTION.localVars + params == params;
    DeclareParamsFacts(c0, params);
    var c1 := DeclareParams(c0, params);
    DeclareGlobalsProgram(c1, gs);
    var c2 := DeclareGlobals(c1, gs);
    DeclareAssignsBelow(c2, xs);
    var c3 := DeclareAssigns(c2, xs);
    assert o[..n] == c3[..n] == c2[..n];
    assert c1[0] == c1[..n][0] == cs[0];
    assert o[..n][0] == c2[0] by { assert c2[..n][0] == c2[0]; }
    ProgramTable(cs, known, around);
    assert o[..n][1..] == cs[1..] by {
      assert c2[..n][1..] == c2[1..n] && c1[..n][1..] == c1[1..n];
    }
    FitsMore(cs, o[..n], known, (set x | x in gs), around);
    forall i | 0 <= i < n ensures o[i].fn.freeVars == cs[i].fn.freeVars {
      assert o[i] == o[..n][i] && (i > 0 ==> o[..n][i] == o[..n][1..][i - 1] && cs[i] == cs[1..][i - 1]);
    }
    LiteralScope(o, params, gs, xs, known + (set x | x in gs), around, body);
  }

  lemma {:induction false} LiteralScope(o: Scopes, params: seq<string>, gs: seq<string>, xs: seq<string>, known: set<string>,
      around: Around, body: seq<Stmt>)
    requires |o| > 1 && Fits(o[..|o|-1], known, around) && TableOf(Last(o), params, gs, xs)
    requires gs == GlobalsOfBlock(body) && xs == AssignsOfBlock(body)
    ensures Fits(o, known, AroundBody(params, body, around))
  {
    hide GlobalsOfBlock, AssignsOfBlock;
    var a := AroundBody(params, body, around);
    assert Last(o).table.Keys == a.globals + a.locals;
  }

  // ---------------------------------------------------------------- closing a literal

  /** Capturing one variable: a local, or one more free variable. */
  lemma {:induction false} CaptureOne(cs: Scopes, x: string, known: set<string>, around: Around) returns (c1: Scopes)
    requires cs != [] && Fits(cs, known, around)
    ensures Adds(cs, c1, known, {}, {x} - LocalNames(around), around) && c1 != [] && Fits(c1, known, around)
    ensures forall rest :: CaptureAll(cs, [x] + rest).0 == CaptureAll(c1, rest).0
  {
    hide AddUnique, IndexOf;
    var fn := Last(cs).fn;
    c1 := if x in fn.localVars then WithFn(cs, fn.(localReferenceVars := AddUnique(fn.localReferenceVars, x))) else AddFreeVar(cs, x);
    FitsAlike(cs, c1, known, around);
    if x in fn.localVars {
      Nothing(cs, c1, known, around);
      assert {x} - LocalNames(around) == {};
    } else {
      PoolsOnly(cs, known, around, NoneC, x);
      assert {x} - LocalNames(around) == {x};
    }
    forall rest ensures CaptureAll(cs, [x] + rest).0 == CaptureAll(c1, rest).0 { assert ([x] + rest)[1..] == rest; }
  }

  /** Free variables of a literal that are not locals here become free here. */
  lemma {:induction false} CaptureAdds(cs: Scopes, free: seq<string>, known: set<string>, around: Around)
    requires cs != [] && Fits(cs, known, around)
    ensures Adds(cs, CaptureAll(cs, free).0, known, {}, (set x | x in free) - LocalNames(around), around)
    decreases |free|
  {
    hide AddUnique, IndexOf, Fits, Adds, LocalNames;
    var locals := LocalNames(around);
    if free == [] {
      PoolsOnly(cs, known, around, NoneC, "");
      assert (set x | x in free) - locals == {};
    } else {
      var x := free[0];
      assert free == [x] + free[1..];
      var c1 := CaptureOne(cs, x, known, around);
      assert known + {} == known;
      var none: set<string> := {};
      assert none + none == none;
      var one, rest := {x} - locals, (set y | y in free[1..]) - locals;
      CaptureAdds(c1, free[1..], known, around);
      Then(cs, c1, CaptureAll(cs, free).0, known, {}, one, {}, rest, around);
      assert forall y :: y in free <==> y == x || y in free[1..];
      assert one + rest == (set y | y in free) - locals;
    }
  }

  lemma {:induction false} CloseAdds(cs: Scopes, c1: Scopes, body: seq<Stmt>, code: seq<Instruction>, known: set<string>, added: set<string>,
      free: set<string>, inner: Around, around: Around)
    requires cs != [] && |c1| == |cs| + 1 && inner.Literal? && inner.around == around
    requires Fits(c1, known + added, inner)
    requires forall i :: 0 <= i < |cs| ==> c1[i].fn.freeVars == cs[i].fn.freeVars
    requires forall x :: x in Last(c1).fn.freeVars <==> x in free
    ensures Adds(cs, CloseFunction(c1, body, code).0, known, added,
      free - LocalNames(around), around)
  {
    hide CaptureAll, Patch, ReferenceIndices, FindReturnBlock, IndexOf, AddUnique, Adds, LocalNames;
    var n := |cs|;
    var (c2, code2) := WithImplicitReturn(c1, body, code);
    var g := Finish(Last(c2).fn, code2);
    var outer := c2[..n];
    assert outer == c1[..n];
    assert g.freeVars == Last(c1).fn.freeVars;
    CaptureAdds(outer, g.freeVars, known + added, around);
    assert (set x | x in g.freeVars) == free;
    OneMoreFunction(cs, outer, CaptureAll(outer, g.freeVars).0, g, known, added, free - LocalNames(around), around);
  }

  /** Adding the finished function to the pool changes no name. */
  lemma {:induction false} OneMoreFunction(cs: Scopes, outer: Scopes, c3: Scopes, g: Function, known: set<string>, added: set<string>,
      free: set<string>, around: Around)
    requires cs != [] && |outer| == |cs| == |c3| && Adds(outer, c3, known + added, {}, free, around)
    requires forall i :: 0 <= i < |cs| ==> outer[i].fn.freeVars == cs[i].fn.freeVars
    ensures Adds(cs, WithFn(c3, Last(c3).fn.(functions := Last(c3).fn.functions + [g])), known, added, free, around)
  {
    hide Fits;
    var c4 := WithFn(c3, Last(c3).fn.(functions := Last(c3).fn.functions + [g]));
    assert known + added + {} == known + added;
    FitsAlike(c3, c4, known + added, around);
  }

  // ---------------------------------------------------------------- every compile step

  /** The names a statement declares global are already global here. */
  ghost predicate Declared(xs: seq<string>, around: Around) {
    around.Literal? ==> forall x :: x in xs ==> x in around.globals
  }

  lemma {:induction false} ExprAdds(e: Expr, cs: Scopes, known: set<string>, around: Around)
    requires cs != [] && Fits(cs, known, around) && WellFormed(e, SHAPE)
    ensures Adds(cs, CompileExpr(e, cs).0, known, Opened(e), Free(e, known, around), around)
    decreases e, 1
  {
    hide Adds, Fits, AllocConstant, AllocName, AddFreeVar, CompileArgs, CompileFields, CompileFun, Lookup, Use, IsGlobal;
    match e
    case Var(x) =>
      LookupFits(cs, known, around, x);
      LookupLocal(cs, known, around, x);
      PoolsOnly(cs, known, around, NoneC, x);
    case Fun(_, _) => FunAdds(e, cs, known, around);
    case Binary(l, _, r) =>
      var c1 := CompileExpr(l, cs).0;
      ExprAdds(l, cs, known, around);
      AddsFits(cs, c1, known, Opened(l), Free(l, known, around), around);
      ExprAdds(r, c1, known + Opened(l), around);
      Then(cs, c1, CompileExpr(r, c1).0, known, Opened(l), Free(l, known, around), Opened(r), Free(r, known + Opened(l), around), around);
    case Unary(_, x) => ExprAdds(x, cs, known, around);
    case Field(b, x) =>
      var c1 := CompileExpr(b, cs).0;
      ExprAdds(b, cs, known, around);
      NameToo(cs, c1, known, Opened(b), Free(b, known, around), around, x);
    case Index(b, i) =>
      var c1 := CompileExpr(b, cs).0;
      ExprAdds(b, cs, known, around);
      AddsFits(cs, c1, known, Opened(b), Free(b, known, around), around);
      ExprAdds(i, c1, known + Opened(b), around);
      Then(cs, c1, CompileExpr(i, c1).0, known, Opened(b), Free(b, known, around), Opened(i), Free(i, known + Opened(b), around), around);
    case Call(t, es) =>
      var c1 := CompileExpr(t, cs).0;
      ExprAdds(t, cs, known, around);
      AddsFits(cs, c1, known, Opened(t), Free(t, known, around), around);
      ArgsAdd(es, c1, known + Opened(t), around);
      Then(cs, c1, CompileArgs(es, c1).0, known, Opened(t), Free(t, known, around), OpenedArgs(es), FreeArgs(es, known + Opened(t), around), around);
    case Record(fs) => FieldsAdd(fs, cs, known, around);
    case IntegerConstant(i) => PoolsOnly(cs, known, around, IntegerC(i), "");
    case StringConstant(t) => PoolsOnly(cs, known, around, StringC(t), "");
    case BooleanConstant(b) => PoolsOnly(cs, known, around, BooleanC(b), "");
    case NoneConstant => PoolsOnly(cs, known, around, NoneC, "");
  }

  lemma {:induction false} LookupLocal(cs: Scopes, known: set<string>, around: Around, x: string)
    requires cs != [] && Fits(cs, known, around)
    ensures Lookup(cs, x) in {LOCAL, GLOBAL} ==> Use(x, known, around) == {}
  {
    LookupFits(cs, known, around, x);
  }

  lemma {:induction false} AddsFits(cs: Scopes, b: Scopes, known: set<string>, added: set<string>, free: set<string>, around: Around)
    requires Adds(cs, b, known, added, free, around)
    ensures |b| == |cs| && b != [] && Fits(b, known + added, around)
  {}

  lemma {:induction false} NameToo(cs: Scopes, c1: Scopes, known: set<string>, added: set<string>, free: set<string>, around: Around, x: string)
    requires c1 != [] && Adds(cs, c1, known, added, free, around)
    ensures Adds(cs, AllocName(c1, x).0, known, added, free, around)
  {
    hide Fits, AllocName;
    PoolsOnly(c1, known + added, around, NoneC, x);
    Then(cs, c1, AllocName(c1, x).0, known, added, free, {}, {}, around);
    assert added + {} == added && free + {} == free;
  }

  lemma {:induction false} FunAdds(e: Expr, cs: Scopes, known: set<string>, around: Around)
    requires e.Fun? && cs != [] && Fits(cs, known, around) && WellFormed(e, SHAPE)
    ensures Adds(cs, CompileFun(e, cs).0, known, Opened(e), Free(e, known, around), around)
    decreases e, 0
  {
    hide Fits, OpenFunction, CompileBlock, CloseFunction, FreeBlock, GlobalsOfBlock, AssignsOfBlock;
    var Fun(params, body) := e;
    var gs, inner := (set x | x in GlobalsOfBlock(body)), AroundBody(params, body, around);
    var o := OpenFunction(cs, params, body);
    OpenFits(cs, params, body, known, around);
    BlockAdds(body, o, known + gs, inner);
    var (c1, code) := CompileBlock(body, o);
    assert known + gs + OpenedBlock(body) == known + Opened(e);
    CloseAdds(cs, c1, body, code, known, Opened(e), FreeBlock(body, known + gs, inner), inner, around);
  }

  lemma {:induction false} ArgsAdd(es: seq<Expr>, cs: Scopes, known: set<string>, around: Around)
    requires cs != [] && Fits(cs, known, around) && WellFormedArgs(es, SHAPE)
    ensures Adds(cs, CompileArgs(es, cs).0, known, OpenedArgs(es), FreeArgs(es, known, around), around)
    decreases es, 0
  {
    hide Adds, Fits, CompileExpr, WellFormed;
    if es == [] {
      PoolsOnly(cs, known, around, NoneC, "");
    } else {
      var c1, o, f := CompileExpr(es[0], cs).0, Opened(es[0]), Free(es[0], known, around);
      ExprAdds(es[0], cs, known, around);
      AddsFits(cs, c1, known, o, f, around);
      ArgsAdd(es[1..], c1, known + o, around);
      Then(cs, c1, CompileArgs(es[1..], c1).0, known, o, f, OpenedArgs(es[1..]), FreeArgs(es[1..], known + o, around), around);
    }
  }

  lemma {:induction false} FieldsAdd(fs: seq<FieldInit>, cs: Scopes, known: set<string>, around: Around)
    requires cs != [] && Fits(cs, known, around) && WellFormedFields(fs, SHAPE)
    ensures Adds(cs, CompileFields(fs, cs).0, known, OpenedFields(fs), FreeFields(fs, known, around), around)
    decreases fs, 0
  {
    hide Adds, Fits, CompileExpr, AllocName, WellFormed;
    if fs == [] {
      PoolsOnly(cs, known, around, NoneC, "");
    } else {
      var e := fs[0].init;
      var c1, o, f := CompileExpr(e, cs).0, Opened(e), Free(e, known, around);
      ExprAdds(e, cs, known, around);
      NameToo(cs, c1, known, o, f, around, fs[0].name);
      var c2 := AllocName(c1, fs[0].name).0;
      AddsFits(cs, c2, known, o, f, around);
      FieldsAdd(fs[1..], c2, known + o, around);
      Then(cs, c2, CompileFields(fs[1..], c2).0, known, o, f, OpenedFields(fs[1..]), FreeFields(fs[1..], known + o, around), around);
    }
  }

  lemma {:induction false} StmtAdds(s: Stmt, cs: Scopes, known: set<string>, around: Around)
    requires cs != [] && Fits(cs, known, around) && WellFormedStmt(s, SHAPE) && Declared(GlobalsOf(s), around)
    ensures Adds(cs, CompileStmt(s, cs).0, known, OpenedStmt(s), FreeStmt(s, known, around), around)
    decreases s, 1
  {
    hide Adds, Fits, CompileExpr, CompileBlock, AllocName, AddFreeVar, DeclareGlobal, Lookup, Use, WellFormed, WellFormedBlock,
      Opened, OpenedBlock, Free, FreeBlock;
    match s
    case Global(x) => DeclareGlobalAdds(cs, known, x, around);
    case AssignVar(x, e) =>
      var c1 := CompileTarget(x, cs).0;
      LookupFits(cs, known, around, x);
      LookupLocal(cs, known, around, x);
      PoolsOnly(cs, known, around, NoneC, x);
      AddsFits(cs, c1, known, {}, Use(x, known, around), around);
      assert known + {} == known;
      ExprAdds(e, c1, known, around);
      Then(cs, c1, CompileExpr(e, c1).0, known, {}, Use(x, known, around), Opened(e), Free(e, known, around), around);
      assert {} + Opened(e) == Opened(e);
    case AssignField(b, x, e) =>
      var c1, o, f := CompileExpr(b, cs).0, Opened(b), Free(b, known, around);
      ExprAdds(b, cs, known, around);
      NameToo(cs, c1, known, o, f, around, x);
      var c2 := AllocName(c1, x).0;
      AddsFits(cs, c2, known, o, f, around);
      ExprAdds(e, c2, known + o, around);
      Then(cs, c2, CompileExpr(e, c2).0, known, o, f, Opened(e), Free(e, known + o, around), around);
    case AssignIndex(_, _, _) => AssignIndexAdds(s, cs, known, around);
    case CallStmt(e) => ExprAdds(e, cs, known, around);
    case If(c, t) =>
      var c1, o, f := CompileExpr(c, cs).0, Opened(c), Free(c, known, around);
      ExprAdds(c, cs, known, around);
      AddsFits(cs, c1, known, o, f, around);
      BlockAdds(t, c1, known + o, around);
      Then(cs, c1, CompileBlock(t, c1).0, known, o, f, OpenedBlock(t), FreeBlock(t, known + o, around), around);
    case IfElse(_, _, _) => IfElseAdds(s, cs, known, around);
    case While(c, b) =>
      var c1, o, f := CompileExpr(c, cs).0, Opened(c), Free(c, known, around);
      ExprAdds(c, cs, known, around);
      AddsFits(cs, c1, known, o, f, around);
      BlockAdds(b, c1, known + o, around);
      Then(cs, c1, CompileBlock(b, c1).0, known, o, f, OpenedBlock(b), FreeBlock(b, known + o, around), around);
    case Return(e) => ExprAdds(e, cs, known, around);
  }

  lemma {:induction false} AssignIndexAdds(s: Stmt, cs: Scopes, known: set<string>, around: Around)
    requires s.AssignIndex?
    requires cs != [] && Fits(cs, known, around) && WellFormedStmt(s, SHAPE)
    ensures Adds(cs, CompileAssignIndex(s, cs).0, known, OpenedStmt(s), FreeStmt(s, known, around), around)
    decreases s, 0
  {
    hide Adds, Fits, CompileExpr, WellFormed, Opened, Free;
    var AssignIndex(b, i, e) := s;
    var c1, o1, f1 := CompileExpr(b, cs).0, Opened(b), Free(b, known, around);
    ExprAdds(b, cs, known, around);
    AddsFits(cs, c1, known, o1, f1, around);
    var c2, o2, f2 := CompileExpr(i, c1).0, Opened(i), Free(i, known + o1, around);
    ExprAdds(i, c1, known + o1, around);
    Then(cs, c1, c2, known, o1, f1, o2, f2, around);
    AddsFits(cs, c2, known, o1 + o2, f1 + f2, around);
    assert known + (o1 + o2) == known + o1 + o2;
    ExprAdds(e, c2, known + o1 + o2, around);
    Then(cs, c2, CompileExpr(e, c2).0, known, o1 + o2, f1 + f2, Opened(e), Free(e, known + o1 + o2, around), around);
  }

  lemma {:induction false} IfElseAdds(s: Stmt, cs: Scopes, known: set<string>, around: Around)
    requires s.IfElse?
    requires cs != [] && Fits(cs, known, around) && WellFormedStmt(s, SHAPE) && Declared(GlobalsOf(s), around)
    ensures Adds(cs, CompileIfElse(s, cs).0, known, OpenedStmt(s), FreeStmt(s, known, around), around)
    decreases s, 0
  {
    hide Adds, Fits, CompileExpr, CompileBlock, WellFormed, WellFormedBlock, Opened, OpenedBlock, Free, FreeBlock;
    var IfElse(c, t, e) := s;
    var c1, o1, f1 := CompileExpr(c, cs).0, Opened(c), Free(c, known, around);
    ExprAdds(c, cs, known, around);
    AddsFits(cs, c1, known, o1, f1, around);
    var c2, o2, f2 := CompileBlock(t, c1).0, OpenedBlock(t), FreeBlock(t, known + o1, around);
    BlockAdds(t, c1, known + o1, around);
    Then(cs, c1, c2, known, o1, f1, o2, f2, around);
    AddsFits(cs, c2, known, o1 + o2, f1 + f2, around);
    assert known + (o1 + o2) == known + o1 + o2;
    BlockAdds(e, c2, known + o1 + o2, around);
    Then(cs, c2, CompileBlock(e, c2).0, known, o1 + o2, f1 + f2, OpenedBlock(e), FreeBlock(e, known + o1 + o2, around), around);
  }

  lemma {:induction false} BlockAdds(ss: seq<Stmt>, cs: Scopes, known: set<string>, around: Around)
    requires cs != [] && Fits(cs, known, around) && WellFormedBlock(ss, SHAPE) && Declared(GlobalsOfBlock(ss), around)
    ensures Adds(cs, CompileBlock(ss, cs).0, known, OpenedBlock(ss), FreeBlock(ss, known, around), around)
    decreases ss, 0
  {
    hide Adds, Fits, CompileStmt, WellFormedStmt, OpenedStmt, FreeStmt;
    if ss == [] {
      PoolsOnly(cs, known, around, NoneC, "");
    } else {
      var c1, o, f := CompileStmt(ss[0], cs).0, OpenedStmt(ss[0]), FreeStmt(ss[0], known, around);
      StmtAdds(ss[0], cs, known, around);
      AddsFits(cs, c1, known, o, f, around);
      BlockAdds(ss[1..], c1, known + o, around);
      Then(cs, c1, CompileBlock(ss[1..], c1).0, known, o, f, OpenedBlock(ss[1..]), FreeBlock(ss[1..], known + o, around), around);
    }
  }

  // ---------------------------------------------------------------- programs

  lemma {:induction false} ProgramGlobals(cs: Scopes, xs: seq<string>, known: set<string>)
    requires |cs| == 1 && Fits(cs, known, Program)
    ensures var r := DeclareGlobals(cs, xs);
      Fits(r, known + (set x | x in xs), Program) && r[0].fn.freeVars == cs[0].fn.freeVars
    decreases |xs|
  {
    if xs != [] {
      ProgramGlobals(DeclareGlobal(cs, xs[0]), xs[1..], known + {xs[0]});
      assert forall x :: x in xs <==> x == xs[0] || x in xs[1..];
      assert known + {xs[0]} + (set x | x in xs[1..]) == known + (set x | x in xs);
    } else {
      assert known + (set x | x in xs) == known;
    }
  }

  lemma {:induction false} ProgramAssigns(cs: Scopes, xs: seq<string>, known: set<string>)
    requires |cs| == 1 && Fits(cs, known, Program)
    ensures var r := DeclareAssigns(cs, xs);
      Fits(r, known + (set x | x in xs), Program) && r[0].fn.freeVars == cs[0].fn.freeVars
    decreases |xs|
  {
    if xs != [] {
      ProgramAssigns(DeclareAssigned(cs, xs[0]), xs[1..], known + {xs[0]});
      assert forall x :: x in xs <==> x == xs[0] || x in xs[1..];
      assert known + {xs[0]} + (set x | x in xs[1..]) == known + (set x | x in xs);
    } else {
      assert known + (set x | x in xs) == known;
    }
  }

  lemma {:induction false} OpenProgramFits(program: seq<Stmt>)
    ensures var o := OpenProgram(program);
      && Fits(o, (set x | x in NATIVE_NAMES + GlobalsOfBlock(program) + AssignsOfBlock(program)), Program)
      && o[0].fn.freeVars == []
  {
    hide DeclareGlobals, DeclareAssigns, GlobalsOfBlock, AssignsOfBlock;
    var gs, xs := GlobalsOfBlock(program), AssignsOfBlock(program);
    var c0, k0 := [ProgramScope()], {"print", "input", "intcast"};
    assert ProgramScope().table.Keys == k0;
    ProgramGlobals(c0, gs, k0);
    var c1, k1 := DeclareGlobals(c0, gs), k0 + (set x | x in gs);
    ProgramAssigns(c1, xs, k1);
    assert k1 + (set x | x in xs) == set x | x in NATIVE_NAMES + gs + xs;
  }

  /** The free variables of the program are exactly the names it never resolves. */
  lemma {:induction false} FreeVarsAreUnresolved(program: seq<Stmt>)
    requires WellFormedBlock(program, SHAPE)
    ensures forall x :: x in CompileProgram(program).freeVars <==> x in Unresolved(program)
  {
    hide CompileBlock, DeclareGlobals, DeclareAssigns, GlobalsOfBlock, AssignsOfBlock, FreeBlock, OpenedBlock, WellFormedBlock;
    OpenProgramFits(program);
    BlockAdds(program, OpenProgram(program), (set x | x in NATIVE_NAMES + GlobalsOfBlock(program) + AssignsOfBlock(program)), Program);
  }

  /** A literal of the program that leaves a name unresolved is closed over a
      reference that is still given by name. */
  lemma {:induction false} LiteralPushesName(e: Expr, cs: Scopes, known: set<string>)
    requires e.Fun? && |cs| == 1 && Fits(cs, known, Program) && WellFormed(e, SHAPE) && Free(e, known, Program) != {}
    ensures var code := CompileExpr(e, cs).1; |code| >= 2 && code[0].LoadFunc? && code[1].PushNamed?
  {
    hide Fits, OpenFunction, CompileBlock, FreeBlock, GlobalsOfBlock, AssignsOfBlock, Patch, ReferenceIndices, FindReturnBlock;
    var Fun(params, body) := e;
    var gs, inner := (set x | x in GlobalsOfBlock(body)), AroundBody(params, body, Program);
    var o := OpenFunction(cs, params, body);
    OpenFits(cs, params, body, known, Program);
    BlockAdds(body, o, known + gs, inner);
    var (c1, code) := CompileBlock(body, o);
    var (c2, code2) := WithImplicitReturn(c1, body, code);
    var free := Last(c1).fn.freeVars;
    assert forall x :: x in free <==> x in FreeBlock(body, known + gs, inner);
    var x :| x in Free(e, known, Program);
    assert x in free;
    NoLocals(c1, known + gs + OpenedBlock(body), inner);
    assert c2[..1] == c1[..1];
    assert CompileExpr(e, cs) == CompileFun(e, cs) == CloseFunction(c1, body, code);
    FirstPush(c1[..1], free);
  }

  lemma {:induction false} NoLocals(cs: Scopes, known: set<string>, inner: Around)
    requires |cs| == 2 && inner.Literal? && inner.around == Program && Fits(cs, known, inner)
    ensures cs[0].fn.localVars == []
  {
    assert cs[..1][0] == cs[0];
  }

  lemma {:induction false} FirstPush(cs: Scopes, free: seq<string>)
    requires |cs| == 1 && cs[0].fn.localVars == [] && free != []
    ensures var pushes := CaptureAll(cs, free).1; pushes != [] && pushes[0] == PushNamed(free[0])
  {}

  /** Every name is resolved if and only if nothing is left unresolved in the text. */
  lemma {:induction false} ResolvedIff(program: seq<Stmt>)
    requires WellFormedBlock(program, SHAPE)
    ensures CompileProgram(program).freeVars == [] <==> Unresolved(program) == {}
  {
    hide CompileProgram, Unresolved, WellFormedBlock;
    FreeVarsAreUnresolved(program);
    var free := CompileProgram(program).freeVars;
    if free != [] { assert free[0] in Unresolved(program); }
  }
}
