/** Entering a function: the tree-walker's new frame and the machine's new frame
    object, with its reference objects, describe the same variables. */
module RelationCalls {
  import opened Basics
  import opened Ast
  import T = TreeWalker
  import opened Bytecode
  import opened Codegen
  import opened Layout
  import opened Machine
  import opened Relation
  import opened RelationUpdates

  // ---------------------------------------------------------------- machine side

  lemma {:induction false} MakeReferencesOk(m: Memory, frame: Addr, indices: seq<nat>)
    requires MemoryOk(m)
    ensures var (m', refs) := MakeReferences(m, frame, indices);
      && HeapExtends(m.heap, m'.heap) && MemoryOk(m') && m'.out == m.out && m.next <= m'.next
      && |refs| == |indices|
      && (forall i :: 0 <= i < |refs| ==>
            m.next <= refs[i] && refs[i] in m'.heap && m'.heap[refs[i]] == ReferenceObj(frame, indices[i]))
    decreases |indices|
  {
    if indices != [] {
      var m1 := Alloc(m, ReferenceObj(frame, indices[0]));
      MakeReferencesOk(m1, frame, indices[1..]);
      var (m', refs) := MakeReferences(m1, frame, indices[1..]);
      assert m1.heap[m.next] == ReferenceObj(frame, indices[0]);
      assert m.next in m1.heap;
    }
  }

  lemma {:induction false} EnterFrameOk(m: Memory, fn: Function, free: seq<Addr>, args: seq<Value>)
    requires MemoryOk(m) && |args| <= |fn.localVars|
    ensures var m' := EnterFrame(m, fn, free, args);
      && HeapExtends(m.heap, m'.heap) && MemoryOk(m') && m'.out == m.out
      && m.next in m'.heap && m'.heap[m.next].FrameObj?
      && m'.heap[m.next].locals == args + seq(|fn.localVars| - |args|, _ => NONE)
      && |m'.heap[m.next].refs| == |fn.localReferenceIndices| + |free|
      && m'.heap[m.next].refs[|fn.localReferenceIndices|..] == free
      && (forall i :: 0 <= i < |fn.localReferenceIndices| ==>
            m'.heap[m.next].refs[i] in m'.heap
            && m'.heap[m'.heap[m.next].refs[i]] == ReferenceObj(m.next, fn.localReferenceIndices[i]))
  {
    var locals := args + seq(|fn.localVars| - |args|, _ => NONE);
    var m1 := Alloc(m, FrameObj(locals, []));
    MakeReferencesOk(m1, m.next, fn.localReferenceIndices);
    var (m2, refs) := MakeReferences(m1, m.next, fn.localReferenceIndices);
    var m' := EnterFrame(m, fn, free, args);
    assert m1.heap[m.next] == FrameObj(locals, []);
    assert m'.heap[m.next] == FrameObj(locals, refs + free);
    assert (refs + free)[|refs|..] == free;
    forall i | 0 <= i < |refs|
      ensures (refs + free)[i] in m'.heap && m'.heap[(refs + free)[i]] == ReferenceObj(m.next, fn.localReferenceIndices[i])
    {
      assert refs[i] != m.next;
    }
    forall a | a in m.heap ensures a in m'.heap && m'.heap[a] == m.heap[a] {
      assert a in m1.heap && m1.heap[a] == m.heap[a];
    }
  }

  // ---------------------------------------------------------------- tree-walker side

  lemma {:induction false} BindParamsOk(params: seq<string>, args: seq<T.Value>, m: map<string, T.Value>)
    requires |params| == |args| && NoDuplicates(params)
    ensures var r := T.BindParams(params, args, m);
      && (forall x :: x in r <==> x in m || x in params)
      && (forall i :: 0 <= i < |params| ==> r[params[i]] == args[i])
      && (forall x :: x in m && x !in params ==> r[x] == m[x])
    decreases |params|
  {
    if params != [] {
      var m1 := m[params[0] := args[0]];
      BindParamsOk(params[1..], args[1..], m1);
      var r := T.BindParams(params, args, m);
      assert forall x :: x in params <==> x == params[0] || x in params[1..];
      assert params[0] !in params[1..];
      forall i | 0 <= i < |params| ensures r[params[i]] == args[i] {
        if i > 0 { assert params[1..][i-1] == params[i]; }
      }
    }
  }

  // ---------------------------------------------------------------- together

  lemma {:induction false} NewLocalsOk(w: World, params: seq<string>, body: seq<Stmt>, fn: Function,
      svs: seq<T.Value>, vs: seq<Value>, h: Heap)
    requires ShapeOk(params, body, fn) && NoDuplicates(params) && |svs| == |params| == |vs|
    requires ValuesOk(w, svs, vs, h)
    ensures |vs| <= |fn.localVars|
    ensures LocalsOk(w, T.InitialVars(params, body, svs), (set x | x in GlobalsOfBlock(body)), fn,
                     vs + seq(|fn.localVars| - |vs|, _ => NONE), h)
  {
    hide ValueOk;
    var base := map x | x in AssignsOfBlock(body) :: T.NoneV;
    BindParamsOk(params, svs, base);
    var vars := T.InitialVars(params, body, svs);
    var locals := vs + seq(|fn.localVars| - |vs|, _ => NONE);
    var gs := set x | x in GlobalsOfBlock(body);
    forall i | 0 <= i < |locals| && fn.localVars[i] !in gs ensures ValueOk(w, vars[fn.localVars[i]], locals[i], h) {
      if i < |params| {
        assert fn.localVars[i] == params[i];
      } else {
        var x := fn.localVars[i];
        assert x !in params by {
          forall j | 0 <= j < |params| ensures params[j] != x { assert fn.localVars[j] == params[j]; }
        }
        assert x in base && vars[x] == T.NoneV;
        NoneOk(w, h);
      }
    }
  }

  lemma {:induction false} NoneOk(w: World, h: Heap)
    ensures ValueOk(w, T.NoneV, NONE, h)
  {}

  lemma {:induction false} NewSlotsOk(w: World, w': World, params: seq<string>, body: seq<Stmt>, fn: Function, info: FrameInfo,
      free: seq<Addr>, refs: seq<Addr>, h: Heap, h': Heap)
    requires ShapeOk(params, body, fn) && info.env.fn == fn
    requires WorldGrows(w, w') && HeapGrows(h, h') && ReferencesOk(w, info.parent, fn.freeVars, free, h)
    requires |refs| == |fn.localReferenceIndices| + |free| && refs[|fn.localReferenceIndices|..] == free
    requires forall i :: 0 <= i < |fn.localReferenceIndices| ==>
      refs[i] in h' && h'[refs[i]] == ReferenceObj(info.addr, fn.localReferenceIndices[i])
    ensures SlotsOk(w', info, refs, h')
  {
    hide WorldGrows, HeapGrows, ReferenceOk;
    ReferencesStable(w, w', info.parent, fn.freeVars, free, h, h');
  }

  function CallInfo(w: World, m: Memory, parent: nat, body: seq<Stmt>, fn: Function): FrameInfo
    requires parent in w.frames
  {
    FrameInfo(m.next, BodyEnv(body, fn, w.frames[parent].env), parent)
  }

  /** The new frame itself. */
  lemma {:induction false} NewFrameIsOk(w: World, w': World, program: Function, s: T.Store, m: Memory, parent: nat,
      params: seq<string>, body: seq<Stmt>, fn: Function, free: seq<Addr>, svs: seq<T.Value>, vs: seq<Value>)
    requires MemoryOk(m) && parent in w.frames && parent < |s.frames| && ProgramOf(w.frames[parent].env) == program
    requires ShapeOk(params, body, fn) && NoDuplicates(params) && |svs| == |params| == |vs|
    requires ReferencesOk(w, parent, fn.freeVars, free, m.heap) && ValuesOk(w, svs, vs, m.heap)
    requires WorldGrows(w, w') && |s.frames| in w'.frames
    requires w'.frames[|s.frames|] == CallInfo(w, m, parent, body, fn)
    ensures |vs| <= |fn.localVars|
    ensures FrameOk(w', program, s.(frames := s.frames + [T.CallFrame(parent, params, body, svs)]),
                    EnterFrame(m, fn, free, vs).heap, |s.frames|)
  {
    hide ReferencesOk, ValuesOk, LocalsOk, SlotsOk, HeapExtends, HeapGrows, MemoryOk;
    var info := CallInfo(w, m, parent, body, fn);
    var gs := set x | x in GlobalsOfBlock(body);
    NewLocalsOk(w, params, body, fn, svs, vs, m.heap);
    EnterFrameOk(m, fn, free, vs);
    var m' := EnterFrame(m, fn, free, vs);
    ExtendsGrows(m.heap, m'.heap);
    LocalsStable(w, w', T.InitialVars(params, body, svs), gs, fn, vs + seq(|fn.localVars| - |vs|, _ => NONE), m.heap, m'.heap);
    NewSlotsOk(w, w', params, body, fn, info, free, m'.heap[m.next].refs, m.heap, m'.heap);
  }

  lemma {:induction false} FrameBound(w: World, program: Function, s: T.Store, m: Memory, f: nat)
    requires Rel(w, program, s, m) && f in w.frames
    ensures f < |s.frames| && w.frames[f].addr < m.next && ProgramOf(w.frames[f].env) == program
  {
    hide GlobalsOk, LocalsOk, SlotsOk, RecordOk;
    assert FrameOk(w, program, s, m.heap, f);
  }

  lemma {:induction false} FramesInjective(w: World, program: Function, s: T.Store, m: Memory, info: FrameInfo)
    requires Rel(w, program, s, m) && info.addr == m.next
    ensures |s.frames| !in w.frames
    ensures Injective(w.(frames := w.frames[|s.frames| := info]))
  {
    hide Rel;
    forall f | f in w.frames ensures f < |s.frames| && w.frames[f].addr < m.next {
      FrameBound(w, program, s, m, f);
    }
    assert Injective(w) by { InjectiveOfRel(w, program, s, m); }
  }

  lemma {:induction false} RecordOfRel(w: World, program: Function, s: T.Store, m: Memory, id: nat)
    requires Rel(w, program, s, m) && id in w.records
    ensures RecordOk(w, s, m.heap, id)
  {}

  /** Both evaluators have entered the function; the new frames are mapped. */
  lemma {:induction false} NewFrameOk(w: World, program: Function, s: T.Store, m: Memory, parent: nat,
      params: seq<string>, body: seq<Stmt>, fn: Function, free: seq<Addr>, svs: seq<T.Value>, vs: seq<Value>)
    requires Rel(w, program, s, m) && ClosureOk(w, parent, params, body, fn, free, m.heap)
    requires |svs| == |params| == |vs| && ValuesOk(w, svs, vs, m.heap)
    ensures |vs| <= |fn.localVars|
    ensures var s' := s.(frames := s.frames + [T.CallFrame(parent, params, body, svs)]);
      var m' := EnterFrame(m, fn, free, vs);
      var w' := w.(frames := w.frames[|s.frames| := CallInfo(w, m, parent, body, fn)]);
      && Rel(w', program, s', m') && WorldGrows(w, w') && HeapExtends(m.heap, m'.heap)
  {
    hide FrameOk, RecordOk, HeapExtends, HeapGrows, ReferencesOk, ValuesOk, OkBlock, FunctionCode, WellFormedBlock, EnterFrame, MemoryOk;
    var s' := s.(frames := s.frames + [T.CallFrame(parent, params, body, svs)]);
    var info := CallInfo(w, m, parent, body, fn);
    var w' := w.(frames := w.frames[|s.frames| := info]);
    FrameBound(w, program, s, m, parent);
    FramesInjective(w, program, s, m, info);
    NewFrameIsOk(w, w', program, s, m, parent, params, body, fn, free, svs, vs);
    EnterFrameOk(m, fn, free, vs);
    var m' := EnterFrame(m, fn, free, vs);
    forall f | f in w'.frames ensures FrameOk(w', program, s', m'.heap, f) {
      if f != |s.frames| {
        FrameOfRel(w, program, s, m, f);
        FrameExtends(w, program, s, s', m.heap, m'.heap, f);
        FrameWorld(w, w', program, s', m'.heap, f);
      }
    }
    forall id {:trigger id in w.records} | id in w.records ensures RecordOk(w', s', m'.heap, id) {
      RecordOfRel(w, program, s, m, id);
      RecordExtends(w, s, s', m.heap, m'.heap, id);
      RecordWorld(w, w', s', m'.heap, id);
    }
  }
}
