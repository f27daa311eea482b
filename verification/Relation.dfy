/** When a tree-walker store and a machine memory describe the same state.

    A world maps tree-walker frames and records to machine addresses. It is
    partial: whatever is not mapped is garbage no mapped value mentions. */
module Relation {
  import opened Basics
  import opened Ast
  import T = TreeWalker
  import opened Bytecode
  import opened Codegen
  import opened Layout
  import opened Machine

  /** Where a tree-walker frame lives, the lexical environment of the function it
      belongs to, and the frame that function was created in. */
  datatype FrameInfo = FrameInfo(addr: Addr, env: Env, parent: nat)

  /** `rules` are the rules the tree-walker runs by. */
  datatype World = World(frames: map<nat, FrameInfo>, records: map<nat, Addr>, rules: T.Rules)

  /** Compiled code follows its own rules unconditionally; the evaluator's only on
      programs that meet all conditions. */
  function Needed(rules: T.Rules): Conditions {
    if rules == T.AsWritten then MEANING else RESOLVED
  }

  ghost predicate WorldGrows(w: World, w': World) {
    && w'.rules == w.rules
    && (forall f :: f in w.frames ==> f in w'.frames && w'.frames[f] == w.frames[f])
    && (forall r :: r in w.records ==> r in w'.records && w'.records[r] == w.records[r])
  }

  /** Objects keep their kind; only record fields and frame locals are mutable. */
  ghost predicate ObjGrows(o: Obj, o': Obj) {
    match o
    case FrameObj(locals, refs) => o'.FrameObj? && o'.refs == refs && |o'.locals| == |locals|
    case RecordObj(_) => o'.RecordObj?
    case _ => o' == o
  }

  ghost predicate HeapGrows(h: Heap, h': Heap) {
    forall a :: a in h ==> a in h' && ObjGrows(h[a], h'[a])
  }

  /** Nothing that existed was changed. */
  ghost predicate HeapExtends(h: Heap, h': Heap) {
    forall a :: a in h ==> a in h' && h'[a] == h[a]
  }

  lemma {:induction false} ExtendsGrows(h: Heap, h': Heap)
    requires HeapExtends(h, h')
    ensures HeapGrows(h, h')
  {}

  // ---------------------------------------------------------------- references

  /** The frame whose own local `x` is, seen from frame `f`. */
  function Owner(w: World, f: nat, x: string): nat
    decreases f
  {
    if f in w.frames && w.frames[f].env.Nested? && x !in w.frames[f].env.fn.localVars && w.frames[f].parent < f then
      Owner(w, w.frames[f].parent, x)
    else f
  }

  /** `r` is a reference object for the variable `x` seen from frame `f`. */
  ghost predicate ReferenceOk(w: World, f: nat, x: string, r: Addr, h: Heap) {
    var o := Owner(w, f, x);
    && f in w.frames && OwnerPath(w, f, x)
    && o in w.frames
    && x in w.frames[o].env.fn.localVars
    && r in h && h[r] == ReferenceObj(w.frames[o].addr, IndexOf(w.frames[o].env.fn.localVars, x))
  }

  /** The walk from `f` to the owner of `x` stays inside the world. */
  ghost predicate OwnerPath(w: World, f: nat, x: string)
    decreases f
  {
    && f in w.frames
    && (w.frames[f].env.Nested? && x !in w.frames[f].env.fn.localVars && w.frames[f].parent < f ==>
          OwnerPath(w, w.frames[f].parent, x))
  }

  lemma {:induction false} OwnerStable(w: World, w': World, f: nat, x: string)
    requires WorldGrows(w, w') && OwnerPath(w, f, x)
    ensures Owner(w', f, x) == Owner(w, f, x) && OwnerPath(w', f, x)
    decreases f
  {
    if w.frames[f].env.Nested? && x !in w.frames[f].env.fn.localVars && w.frames[f].parent < f {
      OwnerStable(w, w', w.frames[f].parent, x);
    }
  }

  lemma {:induction false} ReferenceStable(w: World, w': World, f: nat, x: string, r: Addr, h: Heap, h': Heap)
    requires WorldGrows(w, w') && HeapGrows(h, h') && ReferenceOk(w, f, x, r, h)
    ensures ReferenceOk(w', f, x, r, h')
  {
    OwnerStable(w, w', f, x);
    assert ObjGrows(h[r], h'[r]);
  }

  // ---------------------------------------------------------------- values

  function BuiltinOf(n: T.Native): Builtin {
    match n
    case Print => PrintFunction
    case Input => InputFunction
    case Intcast => IntcastFunction
  }

  ghost predicate ReferencesOk(w: World, f: nat, xs: seq<string>, rs: seq<Addr>, h: Heap) {
    |rs| == |xs| && forall j :: 0 <= j < |xs| ==> ReferenceOk(w, f, xs[j], rs[j], h)
  }

  /** `fn` with captured references `free` is the literal `fun(params) body`
      evaluated in frame `f`. */
  ghost predicate ClosureOk(w: World, f: nat, params: seq<string>, body: seq<Stmt>, fn: Function,
      free: seq<Addr>, h: Heap) {
    && f in w.frames
    && WellFormed(Fun(params, body), Needed(w.rules))
    && FunctionOk(params, body, fn, w.frames[f].env)
    && ReferencesOk(w, f, fn.freeVars, free, h)
  }

  ghost predicate ValueOk(w: World, sv: T.Value, v: Value, h: Heap) {
    var l := Look(h, v);
    match sv
    case NoneV => l == NoneW
    case BoolV(b) => l == BoolW(b)
    case IntegerV(i) => l == IntegerW(i)
    case StringV(t) => l == StringW(t)
    case RecordV(id) => id in w.records && l == RecordW(w.records[id])
    case FunctionV(f, params, body) => l.ClosureW? && ClosureOk(w, f, params, body, l.code, l.freeVars, h)
    case NativeV(n) => l == ClosureW(BuiltinFunction(BuiltinOf(n)), [])
  }

  ghost predicate ValuesOk(w: World, svs: seq<T.Value>, vs: seq<Value>, h: Heap) {
    |svs| == |vs| && forall i :: 0 <= i < |vs| ==> ValueOk(w, svs[i], vs[i], h)
  }

  lemma {:induction false} LookStable(h: Heap, h': Heap, v: Value)
    requires HeapGrows(h, h') && Look(h, v) != Invalid
    ensures Look(h', v) == Look(h, v)
  {
    if v.Ptr? { assert ObjGrows(h[v.a], h'[v.a]); }
  }

  lemma {:induction false} ReferencesStable(w: World, w': World, f: nat, xs: seq<string>, rs: seq<Addr>, h: Heap, h': Heap)
    requires WorldGrows(w, w') && HeapGrows(h, h') && ReferencesOk(w, f, xs, rs, h)
    ensures ReferencesOk(w', f, xs, rs, h')
  {
    hide ReferenceOk, WorldGrows, HeapGrows;
    forall j | 0 <= j < |xs| ensures ReferenceOk(w', f, xs[j], rs[j], h') {
      ReferenceStable(w, w', f, xs[j], rs[j], h, h');
    }
  }

  lemma {:induction false} ValueStable(w: World, w': World, sv: T.Value, v: Value, h: Heap, h': Heap)
    requires WorldGrows(w, w') && HeapGrows(h, h') && ValueOk(w, sv, v, h)
    ensures ValueOk(w', sv, v, h')
  {
    hide FunctionOk, ReferencesOk, HeapGrows, WellFormed;
    LookStable(h, h', v);
    if sv.FunctionV? {
      var l := Look(h, v);
      ReferencesStable(w, w', sv.frame, l.code.freeVars, l.freeVars, h, h');
    }
  }

  // ---------------------------------------------------------------- frames and records

  function Stored(vars: map<string, T.Value>, x: string): T.Value {
    if x in vars then vars[x] else T.NoneV
  }

  /** The program's frame: a slot for every name; stored globals agree, the others
      are None. */
  ghost predicate GlobalsOk(w: World, vars: map<string, T.Value>, fn: Function, locals: seq<Value>, h: Heap) {
    && |locals| == |fn.names|
    && (forall x :: x in vars ==> x in fn.names)
    && (forall x :: x in fn.names ==> ValueOk(w, Stored(vars, x), locals[IndexOf(fn.names, x)], h))
  }

  /** A function's frame: exactly the locals are bound, and they agree. */
  ghost predicate LocalsOk(w: World, vars: map<string, T.Value>, globals: set<string>, fn: Function,
      locals: seq<Value>, h: Heap) {
    && |locals| == |fn.localVars|
    && (forall x :: x !in globals ==> (x in vars <==> x in fn.localVars))
    && (forall i :: 0 <= i < |locals| && fn.localVars[i] !in globals ==>
          ValueOk(w, vars[fn.localVars[i]], locals[i], h))
  }

  /** Reference slots: the function's captured locals, then its free variables. */
  ghost predicate SlotsOk(w: World, info: FrameInfo, refs: seq<Addr>, h: Heap) {
    var fn := info.env.fn;
    && |refs| == |fn.localReferenceVars| + |fn.freeVars|
    && (forall i :: 0 <= i < |fn.localReferenceVars| ==>
          refs[i] in h && h[refs[i]] == ReferenceObj(info.addr, IndexOf(fn.localVars, fn.localReferenceVars[i])))
    && ReferencesOk(w, info.parent, fn.freeVars, refs[|fn.localReferenceVars|..], h)
  }

  ghost predicate EnvShapeOk(env: Env) {
    && NoDuplicates(env.fn.localVars)
    && (forall x :: x in env.fn.localReferenceVars ==> x in env.fn.localVars)
  }

  ghost predicate FrameOk(w: World, program: Function, s: T.Store, h: Heap, f: nat) {
    && f in w.frames && f < |s.frames|
    && var info, fr := w.frames[f], s.frames[f];
    && info.addr in h && h[info.addr].FrameObj?
    && ProgramOf(info.env) == program
    && match info.env
       case Top(fn) =>
         f == 0 && info.addr == 0 && fr.globals == {} && fr.parent == None && fn.localVars == []
         && GlobalsOk(w, fr.vars, fn, h[info.addr].locals, h)
       case Nested(fn, gs, parent) =>
         && fr.globals == gs && fr.parent == Some(info.parent)
         && info.parent < f && info.parent in w.frames && w.frames[info.parent].env == parent
         && EnvShapeOk(info.env)
         && LocalsOk(w, fr.vars, gs, fn, h[info.addr].locals, h)
         && SlotsOk(w, info, h[info.addr].refs, h)
  }

  ghost predicate FieldsOk(w: World, m: map<string, T.Value>, fields: map<string, Value>, h: Heap) {
    && m.Keys == fields.Keys
    && (forall x :: x in m ==> ValueOk(w, m[x], fields[x], h))
  }

  ghost predicate RecordOk(w: World, s: T.Store, h: Heap, id: nat) {
    && id in w.records && id < |s.records|
    && w.records[id] in h && h[w.records[id]].RecordObj?
    && FieldsOk(w, s.records[id], h[w.records[id]].fields, h)
  }

  ghost predicate Injective(w: World) {
    && (forall f, g :: f in w.frames && g in w.frames && f != g ==> w.frames[f].addr != w.frames[g].addr)
    && (forall a, b :: a in w.records && b in w.records && a != b ==> w.records[a] != w.records[b])
  }

  ghost predicate MemoryOk(m: Memory) {
    forall a :: a in m.heap ==> a < m.next
  }

  /** The states agree. */
  ghost predicate Rel(w: World, program: Function, s: T.Store, m: Memory) {
    && MemoryOk(m)
    && Injective(w)
    && 0 in w.frames && w.frames[0].env == Top(program)
    && (forall f :: f in w.frames ==> FrameOk(w, program, s, m.heap, f))
    && (forall id :: id in w.records ==> RecordOk(w, s, m.heap, id))
    && s.out == m.out
    && s.rules == w.rules
  }

  // ---------------------------------------------------------------- stability

  lemma {:induction false} GlobalsStable(w: World, w': World, vars: map<string, T.Value>, fn: Function,
      locals: seq<Value>, h: Heap, h': Heap)
    requires WorldGrows(w, w') && HeapGrows(h, h') && GlobalsOk(w, vars, fn, locals, h)
    ensures GlobalsOk(w', vars, fn, locals, h')
  {
    hide ValueOk, WorldGrows, HeapGrows;
    forall x | x in fn.names ensures ValueOk(w', Stored(vars, x), locals[IndexOf(fn.names, x)], h') {
      ValueStable(w, w', Stored(vars, x), locals[IndexOf(fn.names, x)], h, h');
    }
  }

  lemma {:induction false} LocalsStable(w: World, w': World, vars: map<string, T.Value>, globals: set<string>, fn: Function,
      locals: seq<Value>, h: Heap, h': Heap)
    requires WorldGrows(w, w') && HeapGrows(h, h') && LocalsOk(w, vars, globals, fn, locals, h)
    ensures LocalsOk(w', vars, globals, fn, locals, h')
  {
    hide ValueOk, WorldGrows, HeapGrows;
    forall i | 0 <= i < |locals| && fn.localVars[i] !in globals
      ensures ValueOk(w', vars[fn.localVars[i]], locals[i], h')
    {
      ValueStable(w, w', vars[fn.localVars[i]], locals[i], h, h');
    }
  }

  lemma {:induction false} SlotsStable(w: World, w': World, info: FrameInfo, refs: seq<Addr>, h: Heap, h': Heap)
    requires WorldGrows(w, w') && HeapGrows(h, h') && SlotsOk(w, info, refs, h)
    ensures SlotsOk(w', info, refs, h')
  {
    hide ReferencesOk, WorldGrows;
    ReferencesStable(w, w', info.parent, info.env.fn.freeVars, refs[|info.env.fn.localReferenceVars|..], h, h');
    forall i | 0 <= i < |info.env.fn.localReferenceVars|
      ensures refs[i] in h' && h'[refs[i]] == h[refs[i]]
    {
      assert ObjGrows(h[refs[i]], h'[refs[i]]);
    }
  }

  lemma {:induction false} FieldsStable(w: World, w': World, m: map<string, T.Value>, fields: map<string, Value>, h: Heap, h': Heap)
    requires WorldGrows(w, w') && HeapGrows(h, h') && FieldsOk(w, m, fields, h)
    ensures FieldsOk(w', m, fields, h')
  {
    hide ValueOk, WorldGrows, HeapGrows;
    forall x | x in m ensures ValueOk(w', m[x], fields[x], h') {
      ValueStable(w, w', m[x], fields[x], h, h');
    }
  }

  /** A frame neither evaluator touched stays related. */
  lemma {:induction false} FrameStable(w: World, w': World, program: Function, s: T.Store, s': T.Store, h: Heap, h': Heap, f: nat)
    requires WorldGrows(w, w') && HeapGrows(h, h') && FrameOk(w, program, s, h, f)
    requires f < |s'.frames| && s'.frames[f] == s.frames[f]
    requires h'[w.frames[f].addr] == h[w.frames[f].addr]
    ensures FrameOk(w', program, s', h', f)
  {
    hide GlobalsOk, LocalsOk, SlotsOk;
    var info := w.frames[f];
    assert ObjGrows(h[info.addr], h'[info.addr]);
    match info.env
    case Top(fn) => GlobalsStable(w, w', s.frames[f].vars, fn, h[info.addr].locals, h, h');
    case Nested(fn, gs, _) =>
      LocalsStable(w, w', s.frames[f].vars, gs, fn, h[info.addr].locals, h, h');
      SlotsStable(w, w', info, h[info.addr].refs, h, h');
  }

  lemma {:induction false} RecordStable(w: World, w': World, s: T.Store, s': T.Store, h: Heap, h': Heap, id: nat)
    requires WorldGrows(w, w') && HeapGrows(h, h') && RecordOk(w, s, h, id)
    requires id < |s'.records| && s'.records[id] == s.records[id]
    requires h'[w.records[id]] == h[w.records[id]]
    ensures RecordOk(w', s', h', id)
  {
    hide FieldsOk;
    FieldsStable(w, w', s.records[id], h[w.records[id]].fields, h, h');
  }
}
