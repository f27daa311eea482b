/** Facts about the tree-walker alone: what an expression without calls can
    change, and what the return analysis promises about a body. */
module ReferenceRuns {
  import opened Basics
  import opened Ast
  import opened TreeWalker

  // ---------------------------------------------------------------- reads

  /** The frame of a read and the frames around it; a frame is younger than its parent. */
  function Visited(s: Store, f: nat): (r: set<nat>)
    ensures forall g :: g in r ==> g <= f && g < |s.frames|
    decreases f
  {
    if f >= |s.frames| then {}
    else
      var up := s.frames[f].parent;
      {f} + (if up.Some? && up.value < f then Visited(s, up.value) else {})
  }

  /** What one frame has for a name: the program's value for a name it declares global,
      once there is one, and its own otherwise. */
  function Offered(s: Store, g: nat, x: string): Option<Value>
    requires g < |s.frames|
  {
    if x in s.frames[g].globals && x in s.frames[GLOBAL_FRAME].vars then Some(s.frames[GLOBAL_FRAME].vars[x])
    else if x in s.frames[g].vars then Some(s.frames[g].vars[x])
    else None
  }

  ghost predicate IsNearest(s: Store, f: nat, x: string, g: nat) {
    && g in Visited(s, f) && Offered(s, g, x).Some?
    && forall h :: h in Visited(s, f) && h > g ==> Offered(s, h, x) == None
  }

  /** A read gives what the innermost frame that has the name offers, and fails exactly
      when none of the frames has it. */
  lemma {:induction false} NearestIsRead(s: Store, f: nat, x: string)
    requires f < |s.frames|
    ensures LookupRead(s, f, x) == None <==> forall g :: g in Visited(s, f) ==> Offered(s, g, x) == None
    ensures forall g :: IsNearest(s, f, x, g) ==> LookupRead(s, f, x) == Offered(s, g, x)
    ensures LookupRead(s, f, x).Some? ==> exists g :: IsNearest(s, f, x, g)
    decreases f
  {
    var up := s.frames[f].parent;
    if Offered(s, f, x).Some? {
      assert IsNearest(s, f, x, f);
    } else if up.Some? && up.value < f {
      NearestIsRead(s, up.value, x);
      forall g ensures IsNearest(s, f, x, g) <==> IsNearest(s, up.value, x, g) {}
    }
  }

  /** Existing frames and records are as they were, and nothing was printed. */
  ghost predicate OnlyAdds(s: Store, s': Store) {
    s.frames <= s'.frames && s.records <= s'.records && s'.out == s.out
  }

  /** The same, but record `id` may have changed. */
  ghost predicate OnlyAddsBut(s: Store, s': Store, id: nat) {
    && s.frames <= s'.frames && s'.out == s.out && |s.records| <= |s'.records|
    && (forall i :: 0 <= i < |s.records| && i != id ==> s'.records[i] == s.records[i])
  }

  lemma {:induction false} CallFreeOnlyAdds(e: Expr, s: Store, f: nat, fuel: nat)
    requires CallFree(e) && Eval(e, s, f, fuel).Ok?
    ensures OnlyAdds(s, Eval(e, s, f, fuel).value.1)
    decreases e
  {
    match e
    case Binary(l, op, r) =>
      if s.rules == AsCompiled && (op == LT || op == LEQ) {
        CallFreeOnlyAdds(r, s, f, fuel);
        CallFreeOnlyAdds(l, Eval(r, s, f, fuel).value.1, f, fuel);
      } else {
        CallFreeOnlyAdds(l, s, f, fuel);
        CallFreeOnlyAdds(r, Eval(l, s, f, fuel).value.1, f, fuel);
      }
    case Unary(_, x) => CallFreeOnlyAdds(x, s, f, fuel);
    case Field(b, _) => CallFreeOnlyAdds(b, s, f, fuel);
    case Index(b, i) =>
      CallFreeOnlyAdds(b, s, f, fuel);
      CallFreeOnlyAdds(i, Eval(b, s, f, fuel).value.1, f, fuel);
    case Record(fs) =>
      CallFreeFieldsOnlyAdd(fs, |s.records|, s.(records := s.records + [map[]]), f, fuel);
    case _ =>
  }

  lemma {:induction false} CallFreeFieldsOnlyAdd(fs: seq<FieldInit>, id: nat, s: Store, f: nat, fuel: nat)
    requires CallFreeFields(fs) && EvalFields(fs, id, s, f, fuel).Ok?
    ensures OnlyAddsBut(s, EvalFields(fs, id, s, f, fuel).value, id)
    decreases fs
  {
    if fs != [] {
      CallFreeOnlyAdds(fs[0].init, s, f, fuel);
      var (v, s1) := Eval(fs[0].init, s, f, fuel).value;
      CallFreeFieldsOnlyAdd(fs[1..], id, WriteRecord(s1, id, fs[0].name, v), f, fuel);
    }
  }

  // ---------------------------------------------------------------- fixed expressions

  predicate IsPrimitive(v: Value) {
    v.NoneV? || v.BoolV? || v.IntegerV? || v.StringV?
  }

  lemma {:induction false} PrimitiveOperation(op: Operator, l: Value, r: Value, s: Store, s': Store)
    requires IsPrimitive(l) && IsPrimitive(r)
    ensures BinaryOp(op, l, r, s) == BinaryOp(op, l, r, s')
    ensures BinaryOp(op, l, r, s).Ok? ==> IsPrimitive(BinaryOp(op, l, r, s).value)
  {}

  /** A fixed expression changes nothing and has the same value everywhere. */
  lemma {:induction false} FixedAnywhere(e: Expr, s: Store, f: nat, fuel: nat, s': Store)
    requires Fixed(e) && Eval(e, s, f, fuel).Ok?
    ensures Eval(e, s, f, fuel).value.1 == s && IsPrimitive(Eval(e, s, f, fuel).value.0)
    ensures Eval(e, s', f, fuel) == Ok((Eval(e, s, f, fuel).value.0, s'))
    decreases e
  {
    hide BinaryOp, IsPrimitive;
    match e
    case Binary(l, op, r) =>
      if s.rules == AsCompiled && (op == LT || op == LEQ) {
        FixedAnywhere(r, s, f, fuel, s');
        FixedAnywhere(l, s, f, fuel, s');
      } else {
        FixedAnywhere(l, s, f, fuel, s');
        FixedAnywhere(r, s, f, fuel, s');
      }
      PrimitiveOperation(op, Eval(l, s, f, fuel).value.0, Eval(r, s, f, fuel).value.0, s, s');
    case Unary(op, x) =>
      FixedAnywhere(x, s, f, fuel, s');
      PrimitiveUnary(op, Eval(x, s, f, fuel).value.0);
    case IntegerConstant(i) => PrimitiveConstant(IntegerV(i));
    case StringConstant(t) => PrimitiveConstant(StringV(t));
    case NoneConstant => PrimitiveConstant(NoneV);
    case BooleanConstant(b) => PrimitiveConstant(BoolV(b));
  }

  lemma {:induction false} PrimitiveUnary(op: Operator, v: Value)
    ensures UnaryOp(op, v).Ok? ==> IsPrimitive(UnaryOp(op, v).value)
  {}

  lemma {:induction false} PrimitiveConstant(v: Value)
    requires v.NoneV? || v.BoolV? || v.IntegerV? || v.StringV?
    ensures IsPrimitive(v)
  {}

  /** With a fixed operand the two orders of evaluation are one. */
  lemma {:induction false} FixedCommutes(l: Expr, r: Expr, s: Store, f: nat, fuel: nat)
    requires Fixed(l) || Fixed(r)
    requires Eval(l, s, f, fuel).Ok? && Eval(r, Eval(l, s, f, fuel).value.1, f, fuel).Ok?
    ensures var (lv, s1) := Eval(l, s, f, fuel).value;
      var (rv, s2) := Eval(r, s1, f, fuel).value;
      Eval(r, s, f, fuel).Ok? && Eval(r, s, f, fuel).value.0 == rv
      && Eval(l, Eval(r, s, f, fuel).value.1, f, fuel) == Ok((lv, s2))
  {
    hide Eval, Fixed;
    var (lv, s1) := Eval(l, s, f, fuel).value;
    var (rv, s2) := Eval(r, s1, f, fuel).value;
    if Fixed(l) {
      FixedAnywhere(l, s, f, fuel, s2);
    } else {
      FixedAnywhere(r, s1, f, fuel, s);
    }
  }

  /** A conditional without an else part does nothing when its condition is false. */
  lemma {:induction false} IfIsIfElse(cond: Expr, thn: seq<Stmt>, s: Store, f: nat, fuel: nat)
    ensures Exec(Stmt.If(cond, thn), s, f, fuel) == Exec(IfElse(cond, thn, []), s, f, fuel)
  {
    hide Eval;
    assert Exec(Stmt.If(cond, thn), s, f, fuel) == ExecIf(Stmt.If(cond, thn), s, f, fuel);
    assert Exec(IfElse(cond, thn, []), s, f, fuel) == ExecIfElse(IfElse(cond, thn, []), s, f, fuel);
  }

  // ---------------------------------------------------------------- return analysis

  /** A body the analysis accepts without its loop case cannot fall off its end. */
  lemma {:induction false} MustReturnReturns(c: Stmt, s: Store, f: nat, fuel: nat)
    requires MustReturn(c) && Exec(c, s, f, fuel).Ok?
    ensures Exec(c, s, f, fuel).value.0.Returned?
    decreases c, 1
  {
    if c.IfElse? {
      var s1 := Eval(c.cond, s, f, fuel).value.1;
      if Eval(c.cond, s, f, fuel).value.0.flag {
        MustReturnBlockReturns(c.thenPart, s1, f, fuel);
      } else {
        MustReturnBlockReturns(c.elsePart, s1, f, fuel);
      }
    }
  }

  lemma {:induction false} MustReturnBlockReturns(cs: seq<Stmt>, s: Store, f: nat, fuel: nat)
    requires MustReturnBlock(cs) && ExecBlock(cs, s, f, fuel).Ok?
    ensures ExecBlock(cs, s, f, fuel).value.0.Returned?
    decreases cs, 0
  {
    var (flow, s1) := Exec(cs[0], s, f, fuel).value;
    if MustReturn(cs[0]) {
      MustReturnReturns(cs[0], s, f, fuel);
    } else if flow.Normal? {
      MustReturnBlockReturns(cs[1..], s1, f, fuel);
    }
  }
}
