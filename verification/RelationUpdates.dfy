/** Each effect of the tree-walker and the matching effect of the machine keep
    the states related. */
module RelationUpdates {
  import opened Basics
  import opened Ast
  import T = TreeWalker
  import opened Bytecode
  import opened Codegen
  import opened Layout
  import opened Machine
  import opened Relation

  /** The store only gained frames and records. */
  ghost predicate StoreExtends(s: T.Store, s': T.Store) {
    s.frames <= s'.frames && s.records <= s'.records && s'.rules == s.rules
  }

  /** Both sides only gained garbage. */
  lemma {:induction false} RelExtends(w: World, program: Function, s: T.Store, s': T.Store, m: Memory, m': Memory)
    requires Rel(w, program, s, m)
    requires StoreExtends(s, s') && HeapExtends(m.heap, m'.heap) && MemoryOk(m') && s'.out == m'.out
    ensures Rel(w, program, s', m') && HeapGrows(m.heap, m'.heap)
  {
    hide FrameOk, RecordOk, HeapExtends, HeapGrows;
    ExtendsGrows(m.heap, m'.heap);
    forall f | f in w.frames ensures FrameOk(w, program, s', m'.heap, f) {
      assert FrameOk(w, program, s, m.heap, f);
      FrameExtends(w, program, s, s', m.heap, m'.heap, f);
    }
    forall id | id in w.records ensures RecordOk(w, s', m'.heap, id) {
      assert RecordOk(w, s, m.heap, id);
      RecordExtends(w, s, s', m.heap, m'.heap, id);
    }
  }

  lemma {:induction false} FrameExtends(w: World, program: Function, s: T.Store, s': T.Store, h: Heap, h': Heap, f: nat)
    requires FrameOk(w, program, s, h, f) && StoreExtends(s, s') && HeapExtends(h, h')
    ensures FrameOk(w, program, s', h', f)
  {
    hide GlobalsOk, LocalsOk, SlotsOk;
    ExtendsGrows(h, h');
    assert s'.frames[f] == s.frames[f];
    FrameStable(w, w, program, s, s', h, h', f);
  }

  lemma {:induction false} RecordExtends(w: World, s: T.Store, s': T.Store, h: Heap, h': Heap, id: nat)
    requires RecordOk(w, s, h, id) && StoreExtends(s, s') && HeapExtends(h, h')
    ensures RecordOk(w, s', h', id)
  {
    hide FieldsOk;
    ExtendsGrows(h, h');
    assert s'.records[id] == s.records[id];
    RecordStable(w, w, s, s', h, h', id);
  }

  // ---------------------------------------------------------------- stores to variables

  lemma {:induction false} SetLocalGrows(m: Memory, a: Addr, i: nat, v: Value)
    requires a in m.heap && m.heap[a].FrameObj? && i < |m.heap[a].locals|
    ensures HeapGrows(m.heap, SetLocal(m, a, i, v).heap)
  {}

  /** Everything but one frame is untouched by a store to a variable. */
  lemma {:induction false} OthersStable(w: World, program: Function, s: T.Store, s': T.Store, m: Memory, m': Memory, f: nat)
    requires Rel(w, program, s, m) && f in w.frames
    requires HeapGrows(m.heap, m'.heap) && m'.heap.Keys == m.heap.Keys && m'.next == m.next
    requires forall a :: a in m.heap && a != w.frames[f].addr ==> m'.heap[a] == m.heap[a]
    requires m.heap[w.frames[f].addr].FrameObj?
    requires |s'.frames| == |s.frames| && s'.records == s.records && s'.out == m'.out && s'.rules == s.rules
    requires forall g :: 0 <= g < |s.frames| && g != f ==> s'.frames[g] == s.frames[g]
    requires FrameOk(w, program, s', m'.heap, f)
    ensures Rel(w, program, s', m')
  {
    hide HeapGrows;
    var h, h' := m.heap, m'.heap;
    assert MemoryOk(m');
    forall g | g in w.frames ensures FrameOk(w, program, s', h', g) {
      if g != f {
        OtherFrame(w, program, s, s', h, h', f, g);
      }
    }
    forall id | id in w.records ensures RecordOk(w, s', h', id) {
      OtherRecord(w, s, s', h, h', w.frames[f].addr, id);
    }
  }

  lemma {:induction false} OtherFrame(w: World, program: Function, s: T.Store, s': T.Store, h: Heap, h': Heap, f: nat, g: nat)
    requires f in w.frames && g in w.frames && f != g && Injective(w)
    requires HeapGrows(h, h') && FrameOk(w, program, s, h, g)
    requires forall a :: a in h && a != w.frames[f].addr ==> a in h' && h'[a] == h[a]
    requires g < |s'.frames| && s'.frames[g] == s.frames[g]
    ensures FrameOk(w, program, s', h', g)
  {
    hide GlobalsOk, LocalsOk, SlotsOk;
    FrameStable(w, w, program, s, s', h, h', g);
  }

  lemma {:induction false} OtherRecord(w: World, s: T.Store, s': T.Store, h: Heap, h': Heap, frame: Addr, id: nat)
    requires HeapGrows(h, h') && RecordOk(w, s, h, id) && s'.records == s.records
    requires frame in h && h[frame].FrameObj?
    requires forall a :: a in h && a != frame ==> a in h' && h'[a] == h[a]
    ensures RecordOk(w, s', h', id)
  {
    hide FieldsOk;
    RecordStable(w, w, s, s', h, h', id);
  }

  lemma {:induction false} StoreLocalOk(w: World, program: Function, s: T.Store, m: Memory, f: nat, x: string,
      sv: T.Value, v: Value)
    requires Rel(w, program, s, m) && f in w.frames && ValueOk(w, sv, v, m.heap)
    requires w.frames[f].env.Nested? && x !in w.frames[f].env.globals && x in w.frames[f].env.fn.localVars
    ensures f < |s.frames| && HasLocal(m.heap, w.frames[f].addr, IndexOf(w.frames[f].env.fn.localVars, x))
    ensures var m' := SetLocal(m, w.frames[f].addr, IndexOf(w.frames[f].env.fn.localVars, x), v);
      Rel(w, program, T.WriteVar(s, f, x, sv), m') && HeapGrows(m.heap, m'.heap)
  {
    hide Rel, FrameOk, ValueOk, HeapGrows;
    FrameOfRel(w, program, s, m, f);
    StoreLocalFrame(w, program, s, m, f, x, sv, v);
    var info := w.frames[f];
    var i := IndexOf(info.env.fn.localVars, x);
    assert HasLocal(m.heap, info.addr, i) by { FrameShape(w, program, s, m.heap, f); }
    var m' := SetLocal(m, info.addr, i, v);
    SetLocalGrows(m, info.addr, i, v);
    OutOfRel(w, program, s, m);
    OthersStable(w, program, s, T.WriteVar(s, f, x, sv), m, m', f);
  }

  lemma {:induction false} FrameOfRel(w: World, program: Function, s: T.Store, m: Memory, f: nat)
    requires Rel(w, program, s, m) && f in w.frames
    ensures FrameOk(w, program, s, m.heap, f)
  {}

  lemma {:induction false} OutOfRel(w: World, program: Function, s: T.Store, m: Memory)
    requires Rel(w, program, s, m)
    ensures s.out == m.out && MemoryOk(m) && s.rules == w.rules
  {}

  lemma {:induction false} InjectiveOfRel(w: World, program: Function, s: T.Store, m: Memory)
    requires Rel(w, program, s, m)
    ensures Injective(w) && MemoryOk(m)
  {}

  lemma {:induction false} FrameShape(w: World, program: Function, s: T.Store, h: Heap, f: nat)
    requires FrameOk(w, program, s, h, f)
    ensures var a := w.frames[f].addr;
      f < |s.frames| && a in h && h[a].FrameObj?
      && (w.frames[f].env.Nested? ==> |h[a].locals| == |w.frames[f].env.fn.localVars|)
      && (w.frames[f].env.Top? ==> f == 0 && a == 0 && |h[a].locals| == |w.frames[f].env.fn.names|)
  {}

  lemma {:induction false} StoreLocalFrame(w: World, program: Function, s: T.Store, m: Memory, f: nat, x: string,
      sv: T.Value, v: Value)
    requires FrameOk(w, program, s, m.heap, f) && ValueOk(w, sv, v, m.heap)
    requires w.frames[f].env.Nested? && x !in w.frames[f].env.globals && x in w.frames[f].env.fn.localVars
    ensures HasLocal(m.heap, w.frames[f].addr, IndexOf(w.frames[f].env.fn.localVars, x))
    ensures FrameOk(w, program, T.WriteVar(s, f, x, sv),
                    SetLocal(m, w.frames[f].addr, IndexOf(w.frames[f].env.fn.localVars, x), v).heap, f)
  {
    hide SlotsOk, ValueOk, HeapGrows, LocalsOk;
    var info := w.frames[f];
    var Nested(fn, gs, _) := info.env;
    var i := IndexOf(fn.localVars, x);
    FrameShape(w, program, s, m.heap, f);
    var m' := SetLocal(m, info.addr, i, v);
    SetLocalGrows(m, info.addr, i, v);
    StoreLocalVars(w, s.frames[f].vars, gs, fn, m.heap[info.addr].locals, m.heap, m'.heap, x, sv, v);
    SlotsStable(w, w, info, m.heap[info.addr].refs, m.heap, m'.heap);
  }

  lemma {:induction false} StoreLocalVars(w: World, vars: map<string, T.Value>, gs: set<string>, fn: Function,
      locals: seq<Value>, h: Heap, h': Heap, x: string, sv: T.Value, v: Value)
    requires LocalsOk(w, vars, gs, fn, locals, h) && ValueOk(w, sv, v, h) && HeapGrows(h, h')
    requires x !in gs && x in fn.localVars && NoDuplicates(fn.localVars)
    ensures LocalsOk(w, vars[x := sv], gs, fn, locals[IndexOf(fn.localVars, x) := v], h')
  {
    hide ValueOk, HeapGrows;
    var i := IndexOf(fn.localVars, x);
    forall j | 0 <= j < |locals| && fn.localVars[j] !in gs
      ensures ValueOk(w, vars[x := sv][fn.localVars[j]], locals[i := v][j], h')
    {
      if j == i {
        ValueStable(w, w, sv, v, h, h');
      } else {
        ValueStable(w, w, vars[fn.localVars[j]], locals[j], h, h');
      }
    }
  }

  lemma {:induction false} StoreGlobalOk(w: World, program: Function, s: T.Store, m: Memory, x: string, sv: T.Value, v: Value)
    requires Rel(w, program, s, m) && ValueOk(w, sv, v, m.heap) && x in program.names
    ensures 0 < |s.frames| && HasLocal(m.heap, 0, IndexOf(program.names, x))
    ensures var m' := SetLocal(m, 0, IndexOf(program.names, x), v);
      Rel(w, program, T.WriteVar(s, 0, x, sv), m') && HeapGrows(m.heap, m'.heap)
  {
    hide FrameOk, ValueOk, HeapGrows;
    assert 0 in w.frames && w.frames[0].env == Top(program);
    FrameShape(w, program, s, m.heap, 0);
    var i := IndexOf(program.names, x);
    var m' := SetLocal(m, 0, i, v);
    StoreGlobalFrame(w, program, s, m, x, sv, v);
    SetLocalGrows(m, 0, i, v);
    OthersStable(w, program, s, T.WriteVar(s, 0, x, sv), m, m', 0);
  }

  lemma {:induction false} StoreGlobalFrame(w: World, program: Function, s: T.Store, m: Memory, x: string, sv: T.Value, v: Value)
    requires FrameOk(w, program, s, m.heap, 0) && ValueOk(w, sv, v, m.heap) && x in program.names
    requires w.frames[0].env == Top(program)
    ensures HasLocal(m.heap, 0, IndexOf(program.names, x))
    ensures FrameOk(w, program, T.WriteVar(s, 0, x, sv), SetLocal(m, 0, IndexOf(program.names, x), v).heap, 0)
  {
    hide ValueOk, HeapGrows, GlobalsOk;
    FrameShape(w, program, s, m.heap, 0);
    var i := IndexOf(program.names, x);
    var m' := SetLocal(m, 0, i, v);
    SetLocalGrows(m, 0, i, v);
    StoreGlobalVars(w, s.frames[0].vars, program, m.heap[0].locals, m.heap, m'.heap, x, sv, v);
  }

  lemma {:induction false} StoreGlobalVars(w: World, vars: map<string, T.Value>, fn: Function, locals: seq<Value>,
      h: Heap, h': Heap, x: string, sv: T.Value, v: Value)
    requires GlobalsOk(w, vars, fn, locals, h) && ValueOk(w, sv, v, h) && HeapGrows(h, h') && x in fn.names
    ensures GlobalsOk(w, vars[x := sv], fn, locals[IndexOf(fn.names, x) := v], h')
  {
    hide ValueOk, HeapGrows;
    var i := IndexOf(fn.names, x);
    forall y | y in fn.names
      ensures ValueOk(w, Stored(vars[x := sv], y), locals[i := v][IndexOf(fn.names, y)], h')
    {
      if y == x {
        ValueStable(w, w, sv, v, h, h');
      } else {
        assert fn.names[IndexOf(fn.names, y)] == y && fn.names[i] == x;
        ValueStable(w, w, Stored(vars, y), locals[IndexOf(fn.names, y)], h, h');
      }
    }
  }

  // ---------------------------------------------------------------- records

  lemma {:induction false} StoreFieldOk(w: World, program: Function, s: T.Store, m: Memory, id: nat, x: string,
      sv: T.Value, v: Value)
    requires Rel(w, program, s, m) && id in w.records && ValueOk(w, sv, v, m.heap)
    ensures id < |s.records| && w.records[id] in m.heap && m.heap[w.records[id]].RecordObj?
    ensures var m' := SetField(m, w.records[id], x, v);
      Rel(w, program, T.WriteRecord(s, id, x, sv), m') && HeapGrows(m.heap, m'.heap)
  {
    hide ValueOk, FieldsOk, FrameOk, HeapGrows;
    assert RecordOk(w, s, m.heap, id);
    var a := w.records[id];
    var m' := SetField(m, a, x, v);
    var s' := T.WriteRecord(s, id, x, sv);
    var h, h' := m.heap, m'.heap;
    SetFieldGrows(m, a, x, v);
    StoreFieldFields(w, s.records[id], h[a].fields, h, h', x, sv, v);
    forall f | f in w.frames ensures FrameOk(w, program, s', h', f) {
      assert FrameOk(w, program, s, h, f);
      FrameBesideRecord(w, program, s, s', h, h', a, f);
    }
    forall r | r in w.records ensures RecordOk(w, s', h', r) {
      assert RecordOk(w, s, h, r);
      if r != id { RecordStable(w, w, s, s', h, h', r); }
    }
  }

  lemma {:induction false} SetFieldGrows(m: Memory, a: Addr, x: string, v: Value)
    requires a in m.heap && m.heap[a].RecordObj?
    ensures HeapGrows(m.heap, SetField(m, a, x, v).heap)
  {}

  lemma {:induction false} FrameBesideRecord(w: World, program: Function, s: T.Store, s': T.Store, h: Heap, h': Heap,
      record: Addr, f: nat)
    requires FrameOk(w, program, s, h, f) && s'.frames == s.frames
    requires HeapGrows(h, h') && record in h && h[record].RecordObj?
    requires forall a :: a in h && a != record ==> a in h' && h'[a] == h[a]
    ensures FrameOk(w, program, s', h', f)
  {
    hide GlobalsOk, LocalsOk, SlotsOk;
    FrameStable(w, w, program, s, s', h, h', f);
  }

  lemma {:induction false} HeapGrowsReflexive(h: Heap)
    ensures HeapGrows(h, h)
  {}

  lemma {:induction false} StoreFieldFields(w: World, r: map<string, T.Value>, fields: map<string, Value>, h: Heap, h': Heap,
      x: string, sv: T.Value, v: Value)
    requires FieldsOk(w, r, fields, h) && ValueOk(w, sv, v, h) && HeapGrows(h, h')
    ensures FieldsOk(w, r[x := sv], fields[x := v], h')
  {
    hide ValueOk, HeapGrows;
    var r' := r[x := sv];
    forall y {:trigger y in r'} | y in r' ensures ValueOk(w, r'[y], fields[x := v][y], h') {
      if y == x { ValueStable(w, w, sv, v, h, h'); } else { ValueStable(w, w, r[y], fields[y], h, h'); }
    }
  }

  lemma {:induction false} AllocExtends(m: Memory, o: Obj)
    requires MemoryOk(m)
    ensures HeapExtends(m.heap, Alloc(m, o).heap) && MemoryOk(Alloc(m, o))
  {}

  /** A new record on both sides, mapped to each other. */
  lemma {:induction false} NewRecordOk(w: World, program: Function, s: T.Store, m: Memory)
    requires Rel(w, program, s, m)
    ensures var s' := s.(records := s.records + [map[]]);
      var m' := Alloc(m, RecordObj(map[]));
      var w' := w.(records := w.records[|s.records| := m.next]);
      && Rel(w', program, s', m') && WorldGrows(w, w') && HeapExtends(m.heap, m'.heap)
      && ValueOk(w', T.RecordV(|s.records|), Ptr(m.next), m'.heap)
  {
    hide FrameOk, RecordOk;
    var s' := s.(records := s.records + [map[]]);
    var m' := Alloc(m, RecordObj(map[]));
    var w' := w.(records := w.records[|s.records| := m.next]);
    AllocExtends(m, RecordObj(map[]));
    RecordsInjective(w, program, s, m);
    forall f {:trigger f in w.frames} | f in w.frames ensures FrameOk(w', program, s', m'.heap, f) {
      FrameOfRel(w, program, s, m, f);
      FrameExtends(w, program, s, s', m.heap, m'.heap, f);
      FrameWorld(w, w', program, s', m'.heap, f);
    }
    assert forall id :: id in w.records ==> RecordOk(w, s, m.heap, id);
    forall id | id in w'.records ensures RecordOk(w', s', m'.heap, id) {
      if id == |s.records| && id !in w.records {
        NewRecordIsOk(w', s', m'.heap, id);
      } else {
        RecordBound(w, s, m.heap, id);
        RecordExtends(w, s, s', m.heap, m'.heap, id);
        RecordWorld(w, w', s', m'.heap, id);
      }
    }
  }

  lemma {:induction false} NewRecordIsOk(w: World, s: T.Store, h: Heap, id: nat)
    requires id in w.records && id < |s.records| && s.records[id] == map[]
    requires w.records[id] in h && h[w.records[id]] == RecordObj(map[])
    ensures RecordOk(w, s, h, id)
  {}

  lemma {:induction false} RecordBound(w: World, s: T.Store, h: Heap, id: nat)
    requires RecordOk(w, s, h, id)
    ensures id < |s.records| && w.records[id] in h
  {}

  lemma {:induction false} FrameWorld(w: World, w': World, program: Function, s: T.Store, h: Heap, f: nat)
    requires WorldGrows(w, w') && FrameOk(w, program, s, h, f)
    ensures FrameOk(w', program, s, h, f)
  {
    hide GlobalsOk, LocalsOk, SlotsOk;
    HeapGrowsReflexive(h);
    FrameStable(w, w', program, s, s, h, h, f);
  }

  lemma {:induction false} RecordWorld(w: World, w': World, s: T.Store, h: Heap, id: nat)
    requires WorldGrows(w, w') && RecordOk(w, s, h, id)
    ensures RecordOk(w', s, h, id)
  {
    hide FieldsOk;
    HeapGrowsReflexive(h);
    RecordStable(w, w', s, s, h, h, id);
  }

  lemma {:induction false} RecordsInjective(w: World, program: Function, s: T.Store, m: Memory)
    requires Rel(w, program, s, m)
    ensures |s.records| !in w.records
    ensures Injective(w.(records := w.records[|s.records| := m.next]))
  {
    hide FrameOk, FieldsOk;
    var w' := w.(records := w.records[|s.records| := m.next]);
    forall id | id in w.records ensures id < |s.records| && w.records[id] < m.next {
      assert RecordOk(w, s, m.heap, id);
    }
    forall a, b | a in w'.records && b in w'.records && a != b ensures w'.records[a] != w'.records[b] {
    }
  }
}
