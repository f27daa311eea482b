/** Both evaluators render a value the same way, and operators give the same
    results on related operands. */
module Rendering {
  import opened Basics
  import opened Ast
  import T = TreeWalker
  import opened Bytecode
  import opened Codegen
  import opened Layout
  import opened Machine
  import opened Relation
  import opened RelationUpdates

  ghost predicate RecordsOk(w: World, s: T.Store, h: Heap) {
    && (forall id :: id in w.records ==> RecordOk(w, s, h, id))
    && (forall a, b :: a in w.records && b in w.records && a != b ==> w.records[a] != w.records[b])
  }

  /** `apath` are the machine records of the tree-walker records in `path`. */
  ghost predicate PathOk(w: World, path: set<nat>, apath: set<Addr>) {
    && (forall id :: id in path ==> id in w.records && w.records[id] in apath)
    && (forall id :: id in w.records && w.records[id] in apath ==> id in path)
  }

  lemma {:induction false} PathStep(w: World, path: set<nat>, apath: set<Addr>, id: nat)
    requires PathOk(w, path, apath) && id in w.records
    requires forall a, b :: a in w.records && b in w.records && a != b ==> w.records[a] != w.records[b]
    ensures PathOk(w, path + {id}, apath + {w.records[id]})
  {}

  /** Whatever string the tree-walker produces the machine produces too, and where
      one rendering never ends neither does the other. */
  lemma {:induction false} RenderingAgrees(w: World, s: T.Store, h: Heap, sv: T.Value, v: Value, path: set<nat>, apath: set<Addr>)
    requires RecordsOk(w, s, h) && ValueOk(w, sv, v, h) && PathOk(w, path, apath)
    ensures ToString(h, v, apath) == T.StringCast(sv, s.records, path)
    decreases T.RecordIds(s.records) - path, 1
  {
    hide ClosureOk;
    if sv.RecordV? {
      var id := sv.id;
      var a := w.records[id];
      assert RecordOk(w, s, h, id);
      if id !in path { RecordRenderingAgrees(w, s, h, id, path, apath); }
    }
  }

  lemma {:induction false} RecordRenderingAgrees(w: World, s: T.Store, h: Heap, id: nat, path: set<nat>, apath: set<Addr>)
    requires RecordsOk(w, s, h) && id in w.records && PathOk(w, path, apath)
    requires id < |s.records| && id !in path
    ensures var a := w.records[id];
      && a in h && h[a].RecordObj? && a !in apath
      && FieldsToString(h, KeysInOrder(h[a].fields.Keys), h[a].fields, apath + {a})
           == T.CastFields(KeysInOrder(s.records[id].Keys), s.records[id], s.records, path + {id})
    decreases T.RecordIds(s.records) - path, 0
  {
    hide ValueOk;
    var a := w.records[id];
    assert RecordOk(w, s, h, id);
    PathStep(w, path, apath, id);
    assert id in T.RecordIds(s.records) - path;
    FieldsRenderingAgrees(w, s, h, KeysInOrder(s.records[id].Keys), s.records[id], h[a].fields, path + {id}, apath + {a});
  }

  lemma {:induction false} FieldsRenderingAgrees(w: World, s: T.Store, h: Heap, keys: seq<string>, r: map<string, T.Value>,
      fields: map<string, Value>, path: set<nat>, apath: set<Addr>)
    requires RecordsOk(w, s, h) && FieldsOk(w, r, fields, h) && PathOk(w, path, apath)
    requires forall x :: x in keys ==> x in r
    ensures FieldsToString(h, keys, fields, apath) == T.CastFields(keys, r, s.records, path)
    decreases T.RecordIds(s.records) - path, 2 + |keys|
  {
    hide ValueOk, RecordsOk, PathOk;
    if keys != [] {
      RenderingAgrees(w, s, h, r[keys[0]], fields[keys[0]], path, apath);
      FieldsRenderingAgrees(w, s, h, keys[1..], r, fields, path, apath);
    }
  }

  lemma {:induction false} CastAgrees(w: World, program: Function, s: T.Store, m: Memory, sv: T.Value, v: Value)
    requires Rel(w, program, s, m) && ValueOk(w, sv, v, m.heap)
    ensures ToString(m.heap, v, {}) == if T.Cast(sv, s).Ok? then Some(T.Cast(sv, s).value) else None
  {
    hide FrameOk, RecordOk, ValueOk;
    assert RecordsOk(w, s, m.heap);
    RenderingAgrees(w, s, m.heap, sv, v, {}, {});
  }

  // ---------------------------------------------------------------- operators

  /** Result of an instruction that only allocates. */
  ghost predicate ResultOk(w: World, m: Memory, sv: T.Value, r: Option<(Value, Memory)>) {
    && r.Some?
    && HeapExtends(m.heap, r.value.1.heap) && MemoryOk(r.value.1) && r.value.1.out == m.out
    && ValueOk(w, sv, r.value.0, r.value.1.heap)
  }

  lemma {:induction false} PlusAgrees(w: World, program: Function, s: T.Store, m: Memory, l: T.Value, r: T.Value, lv: Value, rv: Value)
    requires Rel(w, program, s, m) && ValueOk(w, l, lv, m.heap) && ValueOk(w, r, rv, m.heap)
    requires T.Plus(l, r, s).Ok?
    ensures ResultOk(w, m, T.Plus(l, r, s).value, AddValues(m, lv, rv))
  {
    hide FrameOk, RecordOk, ClosureOk, Rel;
    OutOfRel(w, program, s, m);
    if l.StringV? || r.StringV? {
      CastAgrees(w, program, s, m, l, lv);
      CastAgrees(w, program, s, m, r, rv);
    }
  }

  lemma {:induction false} IntegerOpAgrees(w: World, op: Operator, m: Memory, l: T.Value, r: T.Value, lv: Value, rv: Value)
    requires MemoryOk(m) && ValueOk(w, l, lv, m.heap) && ValueOk(w, r, rv, m.heap)
    requires op in {SUB, MUL, DIV} && T.Arithmetic(op, l, r).Ok?
    ensures ResultOk(w, m, T.Arithmetic(op, l, r).value, IntegerOp(OperatorInstruction(op), m, lv, rv))
  {
    hide ClosureOk;
  }

  /** `a < b` runs as `b > a`. */
  lemma {:induction false} ComparisonAgrees(w: World, op: Operator, m: Memory, l: T.Value, r: T.Value, lv: Value, rv: Value)
    requires MemoryOk(m) && ValueOk(w, l, lv, m.heap) && ValueOk(w, r, rv, m.heap)
    requires op in {GT, LT, GEQ, LEQ} && T.Comparison(op, l, r).Ok?
    ensures ResultOk(w, m, T.Comparison(op, l, r).value,
      if Exchanged(op) then IntegerOp(OperatorInstruction(op), m, rv, lv)
      else IntegerOp(OperatorInstruction(op), m, lv, rv))
  {
    hide ClosureOk;
  }

  lemma {:induction false} LogicalAgrees(w: World, op: Operator, m: Memory, l: T.Value, r: T.Value, lv: Value, rv: Value)
    requires MemoryOk(m) && ValueOk(w, l, lv, m.heap) && ValueOk(w, r, rv, m.heap)
    requires op in {AND, OR} && T.Logical(op, l, r).Ok?
    ensures ResultOk(w, m, T.Logical(op, l, r).value, BooleanOp(OperatorInstruction(op), m, lv, rv))
  {
    hide ClosureOk;
  }

  /** Equality by content, and by identity on records: the record map is injective. */
  lemma {:induction false} EqualAgrees(w: World, h: Heap, l: T.Value, r: T.Value, lv: Value, rv: Value)
    requires Injective(w) && ValueOk(w, l, lv, h) && ValueOk(w, r, rv, h)
    ensures EqualValues(h, lv, rv) == T.Equal(l, r)
  {
    hide ClosureOk;
  }

  lemma {:induction false} EqualityAgrees(w: World, m: Memory, l: T.Value, r: T.Value, lv: Value, rv: Value)
    requires MemoryOk(m) && Injective(w) && ValueOk(w, l, lv, m.heap) && ValueOk(w, r, rv, m.heap)
    ensures ResultOk(w, m, T.BoolV(T.Equal(l, r)), Some((Boolean(EqualValues(m.heap, lv, rv)), m)))
  {
    hide ValueOk, MemoryOk, EqualValues, T.Equal, Injective;
    EqualAgrees(w, m.heap, l, r, lv, rv);
    BooleanOk(w, T.Equal(l, r), m.heap);
  }

  lemma {:induction false} BinaryAgrees(w: World, program: Function, s: T.Store, m: Memory, op: Operator,
      l: T.Value, r: T.Value, lv: Value, rv: Value)
    requires Rel(w, program, s, m) && ValueOk(w, l, lv, m.heap) && ValueOk(w, r, rv, m.heap)
    requires T.BinaryOp(op, l, r, s).Ok?
    ensures ResultOk(w, m, T.BinaryOp(op, l, r, s).value,
      if Exchanged(op) then BinaryInstruction(OperatorInstruction(op), m, rv, lv)
      else BinaryInstruction(OperatorInstruction(op), m, lv, rv))
  {
    hide Rel, ValueOk, ResultOk, AddValues, IntegerOp, BooleanOp, EqualValues, T.Plus, T.Arithmetic, T.Logical, T.Comparison, T.Equal, ToString, MemoryOk,
      Injective;
    assert MemoryOk(m) && Injective(w) by { OutOfRel(w, program, s, m); InjectiveOfRel(w, program, s, m); }
    match op
    case PLUS => PlusAgrees(w, program, s, m, l, r, lv, rv);
    case SUB => IntegerOpAgrees(w, op, m, l, r, lv, rv);
    case MUL => IntegerOpAgrees(w, op, m, l, r, lv, rv);
    case DIV => IntegerOpAgrees(w, op, m, l, r, lv, rv);
    case AND => LogicalAgrees(w, op, m, l, r, lv, rv);
    case OR => LogicalAgrees(w, op, m, l, r, lv, rv);
    case EQ => EqualityAgrees(w, m, l, r, lv, rv);
    case GT => ComparisonAgrees(w, op, m, l, r, lv, rv);
    case LT => ComparisonAgrees(w, op, m, l, r, lv, rv);
    case GEQ => ComparisonAgrees(w, op, m, l, r, lv, rv);
    case LEQ => ComparisonAgrees(w, op, m, l, r, lv, rv);
    case NEG =>
  }

  lemma {:induction false} BooleanOk(w: World, b: bool, h: Heap)
    ensures ValueOk(w, T.BoolV(b), Boolean(b), h)
  {}
}
