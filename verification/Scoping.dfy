/** When the evaluator and compiled code read and render the same, told from the
    program text. No run of a program whose literals declare only new names
    global, and whose index stores have a stable index, is ever marked as
    straying. */
module Scoping {
  import opened Basics
  import opened Ast
  import opened TreeWalker
  import opened ReferenceRuns

  // ---------------------------------------------------------------- names

  /** The names a literal's own frame binds and does not declare global. */
  function LocalsOf(params: seq<string>, body: seq<Stmt>): set<string> {
    set x | x in params + AssignsOfBlock(body) && x !in GlobalsOfBlock(body)
  }

  /** A name a literal declares global is no parameter of it and no local of a
      literal around it; `outer` holds the locals of the literals around. */
  predicate Fresh(e: Expr, outer: set<string>) {
    match e
    case Fun(ps, b) =>
      && (forall x :: x in GlobalsOfBlock(b) ==> x !in ps && x !in outer)
      && FreshBlock(b, outer + LocalsOf(ps, b))
    case Binary(l, _, r) => Fresh(l, outer) && Fresh(r, outer)
    case Unary(_, x) => Fresh(x, outer)
    case Field(b, _) => Fresh(b, outer)
    case Index(b, i) => Fresh(b, outer) && Fresh(i, outer)
    case Call(t, es) => Fresh(t, outer) && FreshArgs(es, outer)
    case Record(fs) => FreshFields(fs, outer)
    case _ => true
  }

  predicate FreshArgs(es: seq<Expr>, outer: set<string>) {
    es == [] || (Fresh(es[0], outer) && FreshArgs(es[1..], outer))
  }

  predicate FreshFields(fs: seq<FieldInit>, outer: set<string>) {
    fs == [] || (Fresh(fs[0].init, outer) && FreshFields(fs[1..], outer))
  }

  predicate FreshStmt(s: Stmt, outer: set<string>) {
    match s
    case Global(_) => true
    case AssignVar(_, e) => Fresh(e, outer)
    case AssignField(b, _, e) => Fresh(b, outer) && Fresh(e, outer)
    case AssignIndex(b, i, e) => Fresh(b, outer) && Fresh(i, outer) && Fresh(e, outer)
    case CallStmt(e) => Fresh(e, outer)
    case If(d, t) => Fresh(d, outer) && FreshBlock(t, outer)
    case IfElse(d, t, e) => Fresh(d, outer) && FreshBlock(t, outer) && FreshBlock(e, outer)
    case While(d, b) => Fresh(d, outer) && FreshBlock(b, outer)
    case Return(e) => Fresh(e, outer)
  }

  predicate FreshBlock(ss: seq<Stmt>, outer: set<string>) {
    ss == [] || (FreshStmt(ss[0], outer) && FreshBlock(ss[1..], outer))
  }

  // ---------------------------------------------------------------- indices

  /** An expression whose value is never a record. */
  predicate NeverRecord(e: Expr) {
    !e.Var? && !e.Field? && !e.Index? && !e.Call? && !e.Record?
  }

  /** The index of a store is no record, or nothing is called after it is evaluated. */
  predicate Indexed(e: Expr) {
    match e
    case Fun(_, b) => IndexedBlock(b)
    case Binary(l, _, r) => Indexed(l) && Indexed(r)
    case Unary(_, x) => Indexed(x)
    case Field(b, _) => Indexed(b)
    case Index(b, i) => Indexed(b) && Indexed(i)
    case Call(t, es) => Indexed(t) && IndexedArgs(es)
    case Record(fs) => IndexedFields(fs)
    case _ => true
  }

  predicate IndexedArgs(es: seq<Expr>) {
    es == [] || (Indexed(es[0]) && IndexedArgs(es[1..]))
  }

  predicate IndexedFields(fs: seq<FieldInit>) {
    fs == [] || (Indexed(fs[0].init) && IndexedFields(fs[1..]))
  }

  predicate IndexedStmt(s: Stmt) {
    match s
    case Global(_) => true
    case AssignVar(_, e) => Indexed(e)
    case AssignField(b, _, e) => Indexed(b) && Indexed(e)
    case AssignIndex(b, i, e) => Indexed(b) && Indexed(i) && Indexed(e) && (NeverRecord(i) || CallFree(e))
    case CallStmt(e) => Indexed(e)
    case If(d, t) => Indexed(d) && IndexedBlock(t)
    case IfElse(d, t, e) => Indexed(d) && IndexedBlock(t) && IndexedBlock(e)
    case While(d, b) => Indexed(d) && IndexedBlock(b)
    case Return(e) => Indexed(e)
  }

  predicate IndexedBlock(ss: seq<Stmt>) {
    ss == [] || (IndexedStmt(ss[0]) && IndexedBlock(ss[1..]))
  }

  // ---------------------------------------------------------------- stores

  /** The locals of frame `f` and of the frames around it, the program's excepted. */
  function Outer(s: Store, f: nat): set<string>
    decreases f
  {
    if f == 0 || f >= |s.frames| then {}
    else
      var fr := s.frames[f];
      (fr.vars.Keys - fr.globals)
      + (if fr.parent.Some? && fr.parent.value < f then Outer(s, fr.parent.value) else {})
  }

  /** A closure's literal obeys the conditions in the frame it was made in. */
  ghost predicate ValueTidy(v: Value, s: Store) {
    v.FunctionV? ==>
      v.frame < |s.frames| && Fresh(Fun(v.params, v.body), Outer(s, v.frame)) && IndexedBlock(v.body)
  }

  /** Names declared global are not bound here, but to None, nor local further out. */
  ghost predicate FrameTidy(s: Store, f: nat)
    requires f < |s.frames|
  {
    var fr := s.frames[f];
    && (f == 0 ==> fr.globals == {})
    && (f > 0 ==> forall x :: x in fr.globals && x in fr.vars ==> fr.vars[x] == NoneV)
    && (fr.parent.Some? && fr.parent.value < f ==> fr.globals !! Outer(s, fr.parent.value))
    && (forall x :: x in fr.vars ==> ValueTidy(fr.vars[x], s))
  }

  ghost predicate RecordTidy(s: Store, id: nat)
    requires id < |s.records|
  {
    forall x :: x in s.records[id] ==> ValueTidy(s.records[id][x], s)
  }

  ghost predicate Tidy(s: Store) {
    && s.frames != [] && s.rules == AsWritten && !s.strayed
    && (forall f :: 0 <= f < |s.frames| ==> FrameTidy(s, f))
    && (forall id :: 0 <= id < |s.records| ==> RecordTidy(s, id))
  }

  /** Frames keep what they declare and, but for the program's, what they bind. */
  ghost predicate SameShape(s: Store, s': Store) {
    && |s.frames| <= |s'.frames|
    && (forall i :: 0 <= i < |s.frames| ==>
          s'.frames[i].globals == s.frames[i].globals && s'.frames[i].parent == s.frames[i].parent)
    && (forall i :: 0 < i < |s.frames| ==> s'.frames[i].vars.Keys == s.frames[i].vars.Keys)
  }

  ghost predicate Goes(s: Store, s': Store) {
    Tidy(s') && SameShape(s, s')
  }

  lemma {:induction false} OuterSame(s: Store, s': Store, f: nat)
    requires SameShape(s, s') && f < |s.frames|
    ensures Outer(s', f) == Outer(s, f)
    decreases f
  {
    if f > 0 && s.frames[f].parent.Some? && s.frames[f].parent.value < f {
      OuterSame(s, s', s.frames[f].parent.value);
    }
  }

  lemma {:induction false} ValueStays(v: Value, s: Store, s': Store)
    requires ValueTidy(v, s) && SameShape(s, s')
    ensures ValueTidy(v, s')
  {
    if v.FunctionV? { OuterSame(s, s', v.frame); }
  }

  lemma {:induction false} ShapeTransitive(s: Store, s1: Store, s2: Store)
    requires SameShape(s, s1) && SameShape(s1, s2)
    ensures SameShape(s, s2)
  {}

  lemma {:induction false} FrameStays(s: Store, s': Store, f: nat)
    requires SameShape(s, s') && f < |s.frames| && FrameTidy(s, f)
    requires s'.frames[f] == s.frames[f]
    ensures FrameTidy(s', f)
  {
    hide Outer, SameShape;
    var fr := s.frames[f];
    if fr.parent.Some? && fr.parent.value < f { OuterSame(s, s', fr.parent.value); }
    forall x | x in fr.vars ensures ValueTidy(fr.vars[x], s') { ValueStays(fr.vars[x], s, s'); }
  }

  lemma {:induction false} RecordStays(s: Store, s': Store, id: nat)
    requires SameShape(s, s') && id < |s.records| && RecordTidy(s, id)
    requires id < |s'.records| && s'.records[id] == s.records[id]
    ensures RecordTidy(s', id)
  {
    hide SameShape;
    forall x | x in s.records[id] ensures ValueTidy(s.records[id][x], s') { ValueStays(s.records[id][x], s, s'); }
  }

  // ---------------------------------------------------------------- reads

  /** Further out a name that is no global yet and nobody's local reads None or nothing. */
  lemma {:induction false} NothingOutside(s: Store, f: nat, x: string)
    requires Tidy(s) && f < |s.frames| && x !in s.frames[0].vars && x !in Outer(s, f)
    ensures LookupRead(s, f, x) in {None, Some(NoneV)}
    decreases f
  {
    var fr := s.frames[f];
    assert FrameTidy(s, f);
    if x !in fr.vars && fr.parent.Some? && fr.parent.value < f { NothingOutside(s, fr.parent.value, x); }
  }

  lemma {:induction false} ReadsAlike(s: Store, f: nat, x: string)
    requires Tidy(s) && f < |s.frames| && LookupRead(s, f, x).Some?
    ensures LookupRead(s, f, x).value == LookupCompiled(s, f, x)
    decreases f
  {
    var fr := s.frames[f];
    assert FrameTidy(s, f);
    if fr.parent.Some? && fr.parent.value < f && x !in fr.vars && !(x in fr.globals && x in s.frames[0].vars) {
      if x in fr.globals {
        NothingOutside(s, fr.parent.value, x);
      } else {
        ReadsAlike(s, fr.parent.value, x);
      }
    }
  }

  lemma {:induction false} ReadTidy(s: Store, f: nat, x: string)
    requires Tidy(s) && f < |s.frames| && LookupRead(s, f, x).Some?
    ensures ValueTidy(LookupRead(s, f, x).value, s)
    decreases f
  {
    hide ValueTidy;
    var fr := s.frames[f];
    assert FrameTidy(s, f) && FrameTidy(s, 0);
    if x !in fr.vars && fr.parent.Some? && fr.parent.value < f && !(x in fr.globals && x in s.frames[0].vars) {
      ReadTidy(s, fr.parent.value, x);
    }
  }

  // ---------------------------------------------------------------- updates

  lemma {:induction false} WriteVarGoes(s: Store, f: nat, x: string, v: Value)
    requires Tidy(s) && f < |s.frames| && ValueTidy(v, s)
    requires f > 0 ==> x in s.frames[f].vars || x in s.frames[f].globals
    ensures LookupWrite(s, f, x) < |s.frames| && Goes(s, WriteVar(s, LookupWrite(s, f, x), x, v))
  {
    hide Outer, ValueTidy;
    assert FrameTidy(s, f) && FrameTidy(s, 0);
    var target := LookupWrite(s, f, x);
    var s' := WriteVar(s, target, x, v);
    assert SameShape(s, s');
    forall g | 0 <= g < |s.frames| ensures FrameTidy(s', g) {
      assert FrameTidy(s, g);
      if g == target { WrittenTidy(s, s', g, x, v); } else { FrameStays(s, s', g); }
    }
    forall id | 0 <= id < |s.records| ensures RecordTidy(s', id) { RecordStays(s, s', id); }
  }

  lemma {:induction false} WrittenTidy(s: Store, s': Store, g: nat, x: string, v: Value)
    requires SameShape(s, s') && g < |s.frames| <= |s'.frames| && FrameTidy(s, g) && ValueTidy(v, s)
    requires s'.frames[g] == s.frames[g].(vars := s.frames[g].vars[x := v])
    requires x !in s.frames[g].globals
    ensures FrameTidy(s', g)
  {
    hide Outer, SameShape, ValueTidy;
    var fr := s.frames[g];
    if fr.parent.Some? && fr.parent.value < g { OuterSame(s, s', fr.parent.value); }
    forall y | y in s'.frames[g].vars ensures ValueTidy(s'.frames[g].vars[y], s') {
      ValueStays(if y == x then v else fr.vars[y], s, s');
    }
  }

  lemma {:induction false} WriteRecordGoes(s: Store, id: nat, field: string, v: Value)
    requires Tidy(s) && id < |s.records| && ValueTidy(v, s)
    ensures Goes(s, WriteRecord(s, id, field, v))
  {
    hide Outer, ValueTidy;
    var s' := WriteRecord(s, id, field, v);
    assert SameShape(s, s');
    forall g | 0 <= g < |s.frames| ensures FrameTidy(s', g) { FrameStays(s, s', g); }
    forall i | 0 <= i < |s.records| ensures RecordTidy(s', i) {
      assert RecordTidy(s, i);
      if i == id {
        forall x | x in s'.records[i] ensures ValueTidy(s'.records[i][x], s') {
          ValueStays(if x == field then v else s.records[i][x], s, s');
        }
      } else {
        RecordStays(s, s', i);
      }
    }
  }

  lemma {:induction false} NewRecordGoes(s: Store)
    requires Tidy(s)
    ensures Goes(s, s.(records := s.records + [map[]]))
  {
    hide Outer, ValueTidy;
    var s' := s.(records := s.records + [map[]]);
    forall g | 0 <= g < |s.frames| ensures FrameTidy(s', g) { FrameStays(s, s', g); }
    forall i | 0 <= i < |s'.records| ensures RecordTidy(s', i) {
      if i < |s.records| { RecordStays(s, s', i); }
    }
  }

  /** A frame that binds tidy values and declares nothing it should not. */
  lemma {:induction false} NewFrameGoes(s: Store, fr: Frame, out: seq<string>)
    requires Tidy(s)
    requires forall x :: x in fr.vars ==> ValueTidy(fr.vars[x], s)
    requires forall x :: x in fr.globals && x in fr.vars ==> fr.vars[x] == NoneV
    requires fr.parent.Some? && fr.parent.value < |s.frames| ==> fr.globals !! Outer(s, fr.parent.value)
    ensures Goes(s, s.(frames := s.frames + [fr], out := out))
  {
    hide Outer, ValueTidy;
    var s' := s.(frames := s.frames + [fr], out := out);
    assert SameShape(s, s');
    forall g | 0 <= g < |s'.frames| ensures FrameTidy(s', g) {
      if g < |s.frames| {
        FrameStays(s, s', g);
      } else {
        if fr.parent.Some? && fr.parent.value < g { OuterSame(s, s', fr.parent.value); }
        forall x | x in fr.vars ensures ValueTidy(fr.vars[x], s') { ValueStays(fr.vars[x], s, s'); }
      }
    }
    forall i | 0 <= i < |s.records| ensures RecordTidy(s', i) { RecordStays(s, s', i); }
  }

  // ---------------------------------------------------------------- indices

  lemma {:induction false} NoRecord(e: Expr, s: Store, f: nat, fuel: nat)
    requires NeverRecord(e) && Eval(e, s, f, fuel).Ok?
    ensures !Eval(e, s, f, fuel).value.0.RecordV?
  {
    hide StringCast, Equal;
    match e
    case Binary(l, op, r) => assert Eval(e, s, f, fuel) == EvalBinary(e, s, f, fuel);
    case Unary(op, x) => assert Eval(e, s, f, fuel) == EvalUnary(e, s, f, fuel);
    case _ =>
  }

  /** More records do not change how a value renders. */
  lemma {:induction false} RendersOn(v: Value, records: seq<map<string, Value>>, more: seq<map<string, Value>>, path: set<nat>)
    requires records <= more && StringCast(v, records, path).Some?
    ensures StringCast(v, more, path) == StringCast(v, records, path)
    decreases RecordIds(records) - path, 0
  {
    if v.RecordV? {
      assert more[v.id] == records[v.id];
      assert v.id in RecordIds(records) - path;
      FieldsRenderOn(KeysInOrder(records[v.id].Keys), records[v.id], records, more, path + {v.id});
    }
  }

  lemma {:induction false} FieldsRenderOn(keys: seq<string>, m: map<string, Value>, records: seq<map<string, Value>>,
      more: seq<map<string, Value>>, path: set<nat>)
    requires records <= more && CastFields(keys, m, records, path).Some?
    ensures CastFields(keys, m, more, path) == CastFields(keys, m, records, path)
    decreases RecordIds(records) - path, 1 + |keys|
  {
    if keys != [] {
      RendersOn(m[keys[0]], records, more, path);
      FieldsRenderOn(keys[1..], m, records, more, path);
    }
  }

  /** The index of a store renders after the right-hand side as before it. */
  lemma {:induction false} IndexStable(i: Expr, e: Expr, s: Store, f: nat, fuel: nat)
    requires NeverRecord(i) || CallFree(e)
    requires Eval(i, s, f, fuel).Ok?
    requires var (iv, s2) := Eval(i, s, f, fuel).value; Cast(iv, s2).Ok? && Eval(e, s2, f, fuel).Ok?
    ensures var (iv, s2) := Eval(i, s, f, fuel).value;
      Cast(iv, Eval(e, s2, f, fuel).value.1) == Cast(iv, s2)
  {
    hide Eval;
    var (iv, s2) := Eval(i, s, f, fuel).value;
    if NeverRecord(i) {
      NoRecord(i, s, f, fuel);
    } else {
      CallFreeOnlyAdds(e, s2, f, fuel);
      RendersOn(iv, s2.records, Eval(e, s2, f, fuel).value.1.records, {});
    }
  }

  // ---------------------------------------------------------------- runs

  /** What an evaluation in frame `f` may start from. */
  ghost predicate Underway(s: Store, f: nat) {
    Tidy(s) && f < |s.frames|
  }

  ghost predicate ValueGoes(s: Store, v: Value, s': Store) {
    Goes(s, s') && ValueTidy(v, s')
  }

  /** The names a statement assigns are bound in the frame it runs in. */
  ghost predicate Bound(xs: seq<string>, s: Store, f: nat) {
    f > 0 && f < |s.frames| ==> forall x :: x in xs ==> x in s.frames[f].vars
  }

  lemma {:induction false} Onward(s: Store, s1: Store, f: nat)
    requires Underway(s, f) && Goes(s, s1)
    ensures Underway(s1, f) && Outer(s1, f) == Outer(s, f)
  {
    OuterSame(s, s1, f);
  }

  lemma {:induction false} ReadFieldTidy(v: Value, field: string, s: Store)
    requires Tidy(s) && ReadField(v, field, s).Ok?
    ensures ValueTidy(ReadField(v, field, s).value, s)
  {
    assert RecordTidy(s, v.id);
  }

  lemma {:induction false} OperationTidy(op: Operator, l: Value, r: Value, s: Store)
    ensures BinaryOp(op, l, r, s).Ok? ==> ValueTidy(BinaryOp(op, l, r, s).value, s)
    ensures UnaryOp(op, l).Ok? ==> ValueTidy(UnaryOp(op, l).value, s)
  {
    hide StringCast, Equal;
  }

  lemma {:induction false} ExprGoes(e: Expr, s: Store, f: nat, fuel: nat)
    requires Underway(s, f) && Fresh(e, Outer(s, f)) && Indexed(e) && Eval(e, s, f, fuel).Ok?
    ensures ValueGoes(s, Eval(e, s, f, fuel).value.0, Eval(e, s, f, fuel).value.1)
    decreases fuel, e, 1
  {
    hide Tidy, SameShape, Outer, BinaryOp, UnaryOp, ReadField, StringCast, LookupRead, LookupCompiled, Apply, EvalArgs, EvalFields;
    Idle(s);
    match e
    case Var(x) =>
      ReadsAlike(s, f, x);
      ReadTidy(s, f, x);
      assert s.(strayed := s.strayed || false) == s;
    case Binary(l, op, r) =>
      var (lv, s1) := Eval(l, s, f, fuel).value;
      ExprGoes(l, s, f, fuel);
      Onward(s, s1, f);
      ExprGoes(r, s1, f, fuel);
      var (rv, s2) := Eval(r, s1, f, fuel).value;
      OperationTidy(op, lv, rv, s2);
      ShapeTransitive(s, s1, s2);
    case Unary(op, x) =>
      ExprGoes(x, s, f, fuel);
      var (v, s1) := Eval(x, s, f, fuel).value;
      OperationTidy(op, v, v, s1);
    case Field(b, x) =>
      ExprGoes(b, s, f, fuel);
      var (v, s1) := Eval(b, s, f, fuel).value;
      ReadFieldTidy(v, x, s1);
    case Index(b, i) =>
      ExprGoes(b, s, f, fuel);
      var (v, s1) := Eval(b, s, f, fuel).value;
      Onward(s, s1, f);
      ExprGoes(i, s1, f, fuel);
      var (iv, s2) := Eval(i, s1, f, fuel).value;
      ReadFieldTidy(v, Cast(iv, s2).value, s2);
      ShapeTransitive(s, s1, s2);
    case Call(_, _) => CallGoes(e, s, f, fuel);
    case Record(fs) =>
      var s1 := s.(records := s.records + [map[]]);
      NewRecordGoes(s);
      Onward(s, s1, f);
      FieldsGo(fs, |s.records|, s1, f, fuel);
      ShapeTransitive(s, s1, EvalFields(fs, |s.records|, s1, f, fuel).value);
    case _ =>
  }

  lemma {:induction false} Idle(s: Store)
    requires Tidy(s)
    ensures Goes(s, s) && s.rules == AsWritten && !s.strayed
  {}

  lemma {:induction false} CallGoes(e: Expr, s: Store, f: nat, fuel: nat)
    requires e.Call? && Underway(s, f) && Fresh(e, Outer(s, f)) && Indexed(e) && EvalCall(e, s, f, fuel).Ok?
    ensures ValueGoes(s, EvalCall(e, s, f, fuel).value.0, EvalCall(e, s, f, fuel).value.1)
    decreases fuel, e, 0
  {
    hide Tidy, SameShape, Outer, ValueTidy, Apply, Eval;
    var Call(t, args) := e;
    var (tv, s1) := Eval(t, s, f, fuel).value;
    ExprGoes(t, s, f, fuel);
    Onward(s, s1, f);
    ArgsGo(args, s1, f, fuel);
    var (vs, s2) := EvalArgs(args, s1, f, fuel).value;
    ValueStays(tv, s1, s2);
    ApplyGoes(tv, vs, s2, fuel - 1);
    var s3 := Apply(tv, vs, s2, fuel - 1).value.1;
    ShapeTransitive(s, s1, s2);
    ShapeTransitive(s, s2, s3);
  }

  lemma {:induction false} ArgsGo(es: seq<Expr>, s: Store, f: nat, fuel: nat)
    requires Underway(s, f) && FreshArgs(es, Outer(s, f)) && IndexedArgs(es) && EvalArgs(es, s, f, fuel).Ok?
    ensures var (vs, s') := EvalArgs(es, s, f, fuel).value; Goes(s, s') && forall v :: v in vs ==> ValueTidy(v, s')
    decreases fuel, es, 0
  {
    hide Tidy, SameShape, Outer, ValueTidy, Eval, Fresh, Indexed;
    if es == [] {
      Idle(s);
    } else {
      var (v, s1) := Eval(es[0], s, f, fuel).value;
      ExprGoes(es[0], s, f, fuel);
      Onward(s, s1, f);
      ArgsGo(es[1..], s1, f, fuel);
      var (vs, s2) := EvalArgs(es[1..], s1, f, fuel).value;
      ValueStays(v, s1, s2);
      ShapeTransitive(s, s1, s2);
    }
  }

  lemma {:induction false} FieldsGo(fs: seq<FieldInit>, id: nat, s: Store, f: nat, fuel: nat)
    requires Underway(s, f) && FreshFields(fs, Outer(s, f)) && IndexedFields(fs) && EvalFields(fs, id, s, f, fuel).Ok?
    ensures Goes(s, EvalFields(fs, id, s, f, fuel).value)
    decreases fuel, fs, 0
  {
    hide Tidy, SameShape, Outer, ValueTidy, Eval, Fresh, Indexed;
    if fs == [] {
      Idle(s);
    } else {
      var (v, s1) := Eval(fs[0].init, s, f, fuel).value;
      ExprGoes(fs[0].init, s, f, fuel);
      Onward(s, s1, f);
      var s2 := WriteRecord(s1, id, fs[0].name, v);
      WriteRecordGoes(s1, id, fs[0].name, v);
      Onward(s1, s2, f);
      FieldsGo(fs[1..], id, s2, f, fuel);
      var s3 := EvalFields(fs[1..], id, s2, f, fuel).value;
      ShapeTransitive(s, s1, s2);
      ShapeTransitive(s, s2, s3);
    }
  }

  // ---------------------------------------------------------------- calls

  lemma {:induction false} BindKeys(params: seq<string>, args: seq<Value>, m: map<string, Value>)
    requires |params| == |args|
    ensures var r := BindParams(params, args, m);
      && (forall x :: x in r <==> x in m || x in params)
      && (forall x :: x in r ==> r[x] in args || (x in m && r[x] == m[x]))
      && (forall x :: x in m && x !in params ==> r[x] == m[x])
    decreases |params|
  {
    if params != [] {
      var m1, r := m[params[0] := args[0]], BindParams(params, args, m);
      BindKeys(params[1..], args[1..], m1);
      forall x ensures x in r <==> x in m || x in params {
        assert x in params <==> x == params[0] || x in params[1..];
        assert x in r <==> x in m1 || x in params[1..];
      }
      forall x | x in r ensures r[x] in args || (x in m && r[x] == m[x]) {
        if r[x] !in args[1..] { assert r[x] == m1[x]; }
      }
    }
  }

  /** The frame of a call binds the literal's locals and nothing it declares global. */
  lemma {:induction false} CallFrameTidy(parent: nat, params: seq<string>, body: seq<Stmt>, args: seq<Value>, s: Store)
    requires |params| == |args| && Tidy(s) && parent < |s.frames|
    requires Fresh(Fun(params, body), Outer(s, parent))
    requires forall v :: v in args ==> ValueTidy(v, s)
    ensures var fr := CallFrame(parent, params, body, args);
      var s1 := s.(frames := s.frames + [fr]);
      && Goes(s, s1) && FreshBlock(body, Outer(s1, |s.frames|)) && Bound(AssignsOfBlock(body), s1, |s.frames|)
  {
    hide ValueTidy, Outer, Tidy, GlobalsOfBlock, AssignsOfBlock, BindParams, FreshBlock;
    var fr, m := CallFrame(parent, params, body, args), map x | x in AssignsOfBlock(body) :: NoneV;
    var s1 := s.(frames := s.frames + [fr]);
    BindKeys(params, args, m);
    forall x | x in fr.vars ensures ValueTidy(fr.vars[x], s) {
      if fr.vars[x] !in args { NoneTidy(s); }
    }
    NewFrameGoes(s, fr, s.out);
    assert s1 == s.(frames := s.frames + [fr], out := s.out);
    OuterOfNew(s, s1, parent, fr);
    assert fr.vars.Keys - fr.globals == LocalsOf(params, body);
    assert Outer(s1, |s.frames|) == Outer(s, parent) + LocalsOf(params, body);
  }

  lemma {:induction false} NoneTidy(s: Store)
    ensures ValueTidy(NoneV, s)
  {}

  lemma {:induction false} OuterOfNew(s: Store, s1: Store, parent: nat, fr: Frame)
    requires SameShape(s, s1) && s.frames != [] && s1.frames == s.frames + [fr] && parent < |s.frames| && fr.parent == Some(parent)
    ensures Outer(s1, |s.frames|) == (fr.vars.Keys - fr.globals) + Outer(s, parent)
  {
    OuterSame(s, s1, parent);
  }

  lemma {:induction false} ApplyGoes(fv: Value, args: seq<Value>, s: Store, fuel: nat)
    requires (fv.FunctionV? || fv.NativeV?) && Tidy(s) && ValueTidy(fv, s)
    requires forall v :: v in args ==> ValueTidy(v, s)
    requires Apply(fv, args, s, fuel).Ok?
    ensures ValueGoes(s, Apply(fv, args, s, fuel).value.0, Apply(fv, args, s, fuel).value.1)
    decreases fuel
  {
    hide Tidy, SameShape, Outer, StringCast, ExecBlock, Bound, CallFrame;
    match fv
    case NativeV(n) =>
      var fr := Frame(map["s" := args[0]], None, {});
      NewFrameGoes(s, fr, s.out + [Cast(args[0], s).value]);
    case FunctionV(parent, params, body) =>
      var s1 := s.(frames := s.frames + [CallFrame(parent, params, body, args)]);
      CallFrameTidy(parent, params, body, args, s);
      BlockGoes(body, s1, |s.frames|, fuel);
      var (flow, s2) := ExecBlock(body, s1, |s.frames|, fuel).value;
      Idle(s);
      ShapeTransitive(s, s1, s2);
  }

  // ---------------------------------------------------------------- statements

  ghost predicate FlowGoes(s: Store, r: (Flow, Store)) {
    Goes(s, r.1) && (r.0.Returned? ==> ValueTidy(r.0.value, r.1))
  }

  lemma {:induction false} BoundOn(xs: seq<string>, s: Store, s1: Store, f: nat)
    requires Bound(xs, s, f) && f < |s.frames| && SameShape(s, s1)
    ensures Bound(xs, s1, f)
  {
    if f > 0 { assert s1.frames[f].vars.Keys == s.frames[f].vars.Keys; }
  }

  lemma {:induction false} StmtGoes(c: Stmt, s: Store, f: nat, fuel: nat)
    requires Underway(s, f) && FreshStmt(c, Outer(s, f)) && IndexedStmt(c) && Bound(AssignsOf(c), s, f) && Exec(c, s, f, fuel).Ok?
    ensures FlowGoes(s, Exec(c, s, f, fuel).value)
    decreases fuel, c, 1
  {
    hide Tidy, SameShape, Outer, Eval, ExecBlock, ValueTidy, StringCast, Bound, Fresh, Indexed, FreshBlock, IndexedBlock;
    match c
    case Global(_) => Idle(s);
    case AssignVar(x, e) => AssignVarGoes(c, s, f, fuel);
    case AssignField(b, x, e) =>
      var (bv, s1) := Eval(b, s, f, fuel).value;
      ExprGoes(b, s, f, fuel);
      Onward(s, s1, f);
      ExprGoes(e, s1, f, fuel);
      var (v, s2) := Eval(e, s1, f, fuel).value;
      WriteRecordGoes(s2, bv.id, x, v);
      ShapeTransitive(s, s1, s2);
      ShapeTransitive(s, s2, WriteRecord(s2, bv.id, x, v));
    case AssignIndex(_, _, _) => AssignIndexGoes(c, s, f, fuel);
    case CallStmt(e) => ExprGoes(e, s, f, fuel);
    case If(_, _) => BranchGoes(c, s, f, fuel);
    case IfElse(_, _, _) => BranchGoes(c, s, f, fuel);
    case While(_, _) => WhileGoes(c, s, f, fuel);
    case Return(e) => ExprGoes(e, s, f, fuel);
  }

  lemma {:induction false} AssignVarGoes(c: Stmt, s: Store, f: nat, fuel: nat)
    requires c.AssignVar?
    requires Underway(s, f) && FreshStmt(c, Outer(s, f)) && Indexed(c.rhs) && Bound([c.name], s, f) && ExecAssignVar(c, s, f, fuel).Ok?
    ensures FlowGoes(s, ExecAssignVar(c, s, f, fuel).value)
    decreases fuel, c, 0
  {
    hide Tidy, Outer, Eval, ValueTidy, Fresh, Indexed;
    var (v, s1) := Eval(c.rhs, s, f, fuel).value;
    ExprGoes(c.rhs, s, f, fuel);
    assert c.name in [c.name];
    if f > 0 { assert s1.frames[f].vars.Keys == s.frames[f].vars.Keys; }
    WriteVarGoes(s1, f, c.name, v);
    assert LookupWrite(s1, f, c.name) == LookupWrite(s, f, c.name);
    ShapeTransitive(s, s1, WriteVar(s1, LookupWrite(s, f, c.name), c.name, v));
  }

  lemma {:induction false} AssignIndexGoes(c: Stmt, s: Store, f: nat, fuel: nat)
    requires c.AssignIndex?
    requires Underway(s, f) && FreshStmt(c, Outer(s, f)) && IndexedStmt(c) && ExecAssignIndex(c, s, f, fuel).Ok?
    ensures FlowGoes(s, ExecAssignIndex(c, s, f, fuel).value)
    decreases fuel, c, 0
  {
    hide Tidy, SameShape, Outer, Eval, ValueTidy, Fresh, Indexed, StringCast, NeverRecord;
    var AssignIndex(b, i, e) := c;
    var (bv, s1) := Eval(b, s, f, fuel).value;
    ExprGoes(b, s, f, fuel);
    Onward(s, s1, f);
    var (iv, s2) := Eval(i, s1, f, fuel).value;
    ExprGoes(i, s1, f, fuel);
    Onward(s1, s2, f);
    Idle(s);
    var (v, s3) := Eval(e, s2, f, fuel).value;
    ExprGoes(e, s2, f, fuel);
    Idle(s3);
    IndexStable(i, e, s1, f, fuel);
    var name := Cast(iv, s2).value;
    WriteRecordGoes(s3, bv.id, name, v);
    var s4 := WriteRecord(s3, bv.id, name, v);
    assert s4.(strayed := s4.strayed || false) == s4;
    ShapeTransitive(s, s1, s2);
    ShapeTransitive(s, s2, s3);
    ShapeTransitive(s, s3, s4);
  }

  lemma {:induction false} BranchGoes(c: Stmt, s: Store, f: nat, fuel: nat)
    requires c.If? || c.IfElse?
    requires Underway(s, f) && FreshStmt(c, Outer(s, f)) && IndexedStmt(c) && Bound(AssignsOf(c), s, f) && Exec(c, s, f, fuel).Ok?
    ensures FlowGoes(s, Exec(c, s, f, fuel).value)
    decreases fuel, c, 0
  {
    hide Tidy, SameShape, Outer, Eval, ExecBlock, ValueTidy, Fresh, Indexed, FreshBlock, IndexedBlock;
    var (cv, s1) := Eval(c.cond, s, f, fuel).value;
    ExprGoes(c.cond, s, f, fuel);
    Onward(s, s1, f);
    BoundOn(AssignsOf(c), s, s1, f);
    if cv.flag {
      BlockGoes(c.thenPart, s1, f, fuel);
      ShapeTransitive(s, s1, ExecBlock(c.thenPart, s1, f, fuel).value.1);
    } else if c.IfElse? {
      BlockGoes(c.elsePart, s1, f, fuel);
      ShapeTransitive(s, s1, ExecBlock(c.elsePart, s1, f, fuel).value.1);
    }
  }

  lemma {:induction false} WhileGoes(c: Stmt, s: Store, f: nat, fuel: nat)
    requires c.While?
    requires Underway(s, f) && FreshStmt(c, Outer(s, f)) && IndexedStmt(c) && Bound(AssignsOf(c), s, f) && ExecWhile(c, s, f, fuel).Ok?
    ensures FlowGoes(s, ExecWhile(c, s, f, fuel).value)
    decreases fuel, c, 0
  {
    hide Tidy, SameShape, Outer, Eval, ExecBlock, Exec, ValueTidy, Fresh, Indexed, FreshBlock, IndexedBlock, Bound;
    var (cv, s1) := Eval(c.cond, s, f, fuel).value;
    ExprGoes(c.cond, s, f, fuel);
    if cv.flag {
      Onward(s, s1, f);
      BoundOn(AssignsOf(c), s, s1, f);
      BlockGoes(c.body, s1, f, fuel);
      var (flow, s2) := ExecBlock(c.body, s1, f, fuel).value;
      ShapeTransitive(s, s1, s2);
      if flow.Normal? {
        Onward(s1, s2, f);
        BoundOn(AssignsOf(c), s1, s2, f);
        StmtGoes(c, s2, f, fuel - 1);
        ShapeTransitive(s, s2, Exec(c, s2, f, fuel - 1).value.1);
      }
    }
  }

  lemma {:induction false} BlockGoes(cs: seq<Stmt>, s: Store, f: nat, fuel: nat)
    requires Underway(s, f) && FreshBlock(cs, Outer(s, f)) && IndexedBlock(cs) && Bound(AssignsOfBlock(cs), s, f)
    requires ExecBlock(cs, s, f, fuel).Ok?
    ensures FlowGoes(s, ExecBlock(cs, s, f, fuel).value)
    decreases fuel, cs, 0
  {
    hide Tidy, SameShape, Outer, Exec, ValueTidy, FreshStmt, IndexedStmt;
    if cs == [] {
      Idle(s);
    } else {
      var (flow, s1) := Exec(cs[0], s, f, fuel).value;
      StmtGoes(cs[0], s, f, fuel);
      if flow.Normal? {
        Onward(s, s1, f);
        BoundOn(AssignsOfBlock(cs), s, s1, f);
        BlockGoes(cs[1..], s1, f, fuel);
        ShapeTransitive(s, s1, ExecBlock(cs[1..], s1, f, fuel).value.1);
      }
    }
  }

  /** No run of such a program reads or renders anything compiled code does not. */
  lemma {:induction false} NeverStrays(program: seq<Stmt>, fuel: nat)
    requires FreshBlock(program, {}) && IndexedBlock(program) && Run(program, fuel).Ok?
    ensures !Run(program, fuel).value.strayed
  {
    hide FreshBlock, IndexedBlock, ExecBlock;
    var s := InitialStore(AsWritten);
    assert FrameTidy(s, 0);
    BlockGoes(program, s, 0, fuel);
  }
}
