/** The cell a compiled variable access uses is the cell the tree-walker finds by
    walking its chain of frames. */
module LexicalAddressing {
  import opened Basics
  import opened Ast
  import T = TreeWalker
  import opened Bytecode
  import opened Codegen
  import opened Layout
  import opened Machine
  import opened Relation
  import opened RelationUpdates
  import Scoping

  /** Frame object `a` holds the value of `sv` in slot `i`. */
  ghost predicate CellOk(w: World, h: Heap, a: Addr, i: nat, sv: T.Value) {
    HasLocal(h, a, i) && ValueOk(w, sv, h[a].locals[i], h)
  }

  /** The frame that owns `x` seen from `f`, and the cell of `x` in it. */
  ghost predicate OwnerCellOk(w: World, h: Heap, f: nat, x: string, sv: T.Value) {
    var o := Owner(w, f, x);
    && OwnerPath(w, f, x) && o in w.frames && x in w.frames[o].env.fn.localVars
    && CellOk(w, h, w.frames[o].addr, IndexOf(w.frames[o].env.fn.localVars, x), sv)
  }

  /** What the walk up the frames finds is in the cell static scoping names. */
  lemma {:induction false} LookupFindsCell(w: World, program: Function, s: T.Store, m: Memory, f: nat, x: string)
    requires Rel(w, program, s, m) && f in w.frames
    requires Resolve(w.frames[f].env, x) == GlobalPlace ==> x in program.names
    ensures var sv := T.LookupCompiled(s, f, x);
      match Resolve(w.frames[f].env, x)
      case GlobalPlace => CellOk(w, m.heap, 0, IndexOf(program.names, x), sv)
      case LocalPlace => OwnerCellOk(w, m.heap, f, x, sv) && Owner(w, f, x) == f
      case FreePlace => OwnerCellOk(w, m.heap, f, x, sv)
    decreases f
  {
    hide Rel, ValueOk, SlotsOk, GlobalsOk, LocalsOk;
    FrameOfRel(w, program, s, m, f);
    var env := w.frames[f].env;
    match env
    case Top(fn) =>
      GlobalCell(w, program, s, m, x);
    case Nested(fn, gs, parent) =>
      if x in gs {
        GlobalCell(w, program, s, m, x);
      } else if x in fn.localVars {
        LocalCell(w, s.frames[f].vars, gs, fn, m.heap[w.frames[f].addr].locals, m.heap, x);
      } else {
        UnboundHere(w, s.frames[f].vars, gs, fn, m.heap[w.frames[f].addr].locals, m.heap, x);
        LookupFindsCell(w, program, s, m, w.frames[f].parent, x);
      }
  }

  /** ... and what the evaluator's own walk finds, in every state in which no frame
      binds a name that it or a frame inside it declares global. */
  lemma {:induction false} WalkFindsCell(w: World, program: Function, s: T.Store, m: Memory, f: nat, x: string)
    requires Rel(w, program, s, m) && f in w.frames && f < |s.frames|
    requires Resolve(w.frames[f].env, x) == GlobalPlace ==> x in program.names
    requires Scoping.Tidy(s) && T.LookupRead(s, f, x).Some?
    ensures var sv := T.LookupRead(s, f, x).value;
      match Resolve(w.frames[f].env, x)
      case GlobalPlace => CellOk(w, m.heap, 0, IndexOf(program.names, x), sv)
      case LocalPlace => OwnerCellOk(w, m.heap, f, x, sv) && Owner(w, f, x) == f
      case FreePlace => OwnerCellOk(w, m.heap, f, x, sv)
  {
    hide Rel, ValueOk, Scoping.Tidy;
    Scoping.ReadsAlike(s, f, x);
    LookupFindsCell(w, program, s, m, f, x);
  }

  lemma {:induction false} GlobalCell(w: World, program: Function, s: T.Store, m: Memory, x: string)
    requires Rel(w, program, s, m) && x in program.names
    ensures CellOk(w, m.heap, 0, IndexOf(program.names, x), T.StoredGlobal(s, x))
  {
    hide ValueOk, RecordOk;
    assert FrameOk(w, program, s, m.heap, 0);
    assert T.StoredGlobal(s, x) == Stored(s.frames[0].vars, x);
  }

  lemma {:induction false} LocalCell(w: World, vars: map<string, T.Value>, gs: set<string>, fn: Function,
      locals: seq<Value>, h: Heap, x: string)
    requires LocalsOk(w, vars, gs, fn, locals, h) && x !in gs && x in fn.localVars
    ensures x in vars && IndexOf(fn.localVars, x) < |locals|
    ensures ValueOk(w, vars[x], locals[IndexOf(fn.localVars, x)], h)
  {
    hide ValueOk;
    assert fn.localVars[IndexOf(fn.localVars, x)] == x;
  }

  lemma {:induction false} UnboundHere(w: World, vars: map<string, T.Value>, gs: set<string>, fn: Function,
      locals: seq<Value>, h: Heap, x: string)
    requires LocalsOk(w, vars, gs, fn, locals, h) && x !in gs && x !in fn.localVars
    ensures x !in vars
  {}

  /** The reference in the slot of free variable `x` leads to its owner's cell. */
  lemma {:induction false} FreeSlotLeadsToOwner(w: World, program: Function, s: T.Store, m: Memory, f: nat, x: string)
    requires Rel(w, program, s, m) && f in w.frames
    requires Resolve(w.frames[f].env, x) == FreePlace && x in w.frames[f].env.fn.freeVars
    ensures var a := w.frames[f].addr;
      var i := FreeSlot(w.frames[f].env.fn, x);
      && a in m.heap && m.heap[a].FrameObj? && i < |m.heap[a].refs|
      && ReferenceOk(w, f, x, m.heap[a].refs[i], m.heap)
  {
    hide Rel, ReferenceOk, LocalsOk, GlobalsOk;
    FrameOfRel(w, program, s, m, f);
    var info := w.frames[f];
    var fn := info.env.fn;
    var refs := m.heap[info.addr].refs;
    var j := IndexOf(fn.freeVars, x);
    assert ReferenceOk(w, info.parent, x, refs[|fn.localReferenceVars|..][j], m.heap);
    OneStepUp(w, f, x, refs[|fn.localReferenceVars| + j], m.heap);
  }

  /** A variable that is not a local is owned by whoever owns it one frame up. */
  lemma {:induction false} OneStepUp(w: World, f: nat, x: string, r: Addr, h: Heap)
    requires f in w.frames && w.frames[f].env.Nested? && w.frames[f].parent < f
    requires x !in w.frames[f].env.fn.localVars && ReferenceOk(w, w.frames[f].parent, x, r, h)
    ensures ReferenceOk(w, f, x, r, h)
  {}

  /** The slot a literal's enclosing function passes on for a captured variable
      holds a reference to that variable as seen from the enclosing frame. */
  lemma {:induction false} CaptureSlotOk(w: World, program: Function, s: T.Store, m: Memory, f: nat, x: string)
    requires Rel(w, program, s, m) && f in w.frames && w.frames[f].env.Nested?
    requires Resolve(w.frames[f].env, x) != GlobalPlace
    requires var fn := w.frames[f].env.fn; if x in fn.localVars then x in fn.localReferenceVars else x in fn.freeVars
    ensures var a := w.frames[f].addr;
      var i := CaptureSlot(w.frames[f].env.fn, x);
      && a in m.heap && m.heap[a].FrameObj? && i < |m.heap[a].refs|
      && ReferenceOk(w, f, x, m.heap[a].refs[i], m.heap)
  {
    hide Rel, LocalsOk, GlobalsOk;
    var fn := w.frames[f].env.fn;
    if x in fn.localVars {
      FrameOfRel(w, program, s, m, f);
    } else {
      FreeSlotLeadsToOwner(w, program, s, m, f, x);
    }
  }
}
