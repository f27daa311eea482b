/** What compiling does to the chain of scopes: pools only grow at the end, the
    tables of functions under construction stay fixed while a body is compiled,
    and free variables are exactly names no enclosing table calls global. */
module ScopeAnalysis {
  import opened Basics
  import opened Ast
  import opened Bytecode
  import opened Codegen
  import opened Layout

  // ---------------------------------------------------------------- growth

  ghost predicate FnGrows(f: Function, g: Function) {
    && f.constants <= g.constants
    && f.functions <= g.functions
    && f.names <= g.names
    && f.freeVars <= g.freeVars
    && f.localReferenceVars <= g.localReferenceVars
    && g == f.(constants := g.constants, functions := g.functions, names := g.names,
               freeVars := g.freeVars, localReferenceVars := g.localReferenceVars)
  }

  ghost predicate AllGlobal(table: map<string, SymbolType>) {
    forall x :: x in table ==> table[x] == GLOBAL
  }

  ghost predicate TableGrows(t: map<string, SymbolType>, u: map<string, SymbolType>) {
    && (forall x :: x in t ==> x in u)
    && (AllGlobal(t) ==> AllGlobal(u))
  }

  /** Every name in the table is in the function's name pool. */
  ghost predicate TableNamed(sc: Scope) {
    forall x :: x in sc.table ==> x in sc.fn.names
  }

  /** Scope `i` of a chain whose scopes below `top` are suspended. */
  ghost predicate ScopeGrows(a: Scope, b: Scope, i: nat, top: nat) {
    && FnGrows(a.fn, b.fn)
    && (i == 0 ==> TableGrows(a.table, b.table) && (TableNamed(a) ==> TableNamed(b)))
    && (i > 0 ==> b.table == a.table)
    && (i < top ==> b.fn == a.fn.(names := b.fn.names))
    && (0 < i < top ==> b.fn == a.fn)
  }

  ghost predicate GrowsBelow(a: Scopes, b: Scopes, top: nat) {
    |a| == |b| && forall i :: 0 <= i < |a| ==> ScopeGrows(a[i], b[i], i, top)
  }

  ghost predicate Grows(a: Scopes, b: Scopes) {
    a != [] && GrowsBelow(a, b, |a| - 1)
  }

  lemma {:induction false} GrowsTransitive(a: Scopes, b: Scopes, c: Scopes, top: nat)
    requires GrowsBelow(a, b, top) && GrowsBelow(b, c, top)
    ensures GrowsBelow(a, c, top)
  {
    forall i | 0 <= i < |a| ensures ScopeGrows(a[i], c[i], i, top) {
      assert ScopeGrows(a[i], b[i], i, top) && ScopeGrows(b[i], c[i], i, top);
    }
  }

  lemma {:induction false} GrowsReflexive(a: Scopes, top: nat)
    ensures GrowsBelow(a, a, top)
  {}

  // ---------------------------------------------------------------- tables against environments

  /** The tables under construction agree with the finished functions around. */
  ghost predicate Consistent(cs: Scopes, env: Env)
    requires cs != []
    decreases env
  {
    match env
    case Top(fn) =>
      && |cs| == 1
      && AllGlobal(cs[0].table)
      && TableNamed(cs[0])
      && cs[0].fn.localVars == [] && fn.localVars == []
      && |cs[0].fn.functions| >= 3
    case Nested(fn, gs, parent) =>
      && |cs| > 1
      && Consistent(cs[..|cs|-1], parent)
      && Last(cs).fn.localVars == fn.localVars
      && (forall x :: x in gs ==> x in cs[0].fn.names)
      && (forall x :: LookupLocally(Last(cs), x) ==
            if x in gs then GLOBAL else if x in fn.localVars then LOCAL else NOT_FOUND)
      && (forall x :: x in Last(cs).table <==> x in gs || x in fn.localVars)
  }

  lemma {:induction false} ConsistentGrows(a: Scopes, b: Scopes, top: nat, env: Env)
    requires a != [] && GrowsBelow(a, b, top) && Consistent(a, env)
    ensures Consistent(b, env)
    decreases env
  {
    var n := |a|;
    assert ScopeGrows(a[n-1], b[n-1], n-1, top) && ScopeGrows(a[0], b[0], 0, top);
    if env.Nested? {
      assert GrowsBelow(a[..n-1], b[..n-1], top);
      ConsistentGrows(a[..n-1], b[..n-1], top, env.parent);
      forall x | x in env.globals ensures x in b[0].fn.names {
        PrefixMember(a[0].fn.names, b[0].fn.names, x);
      }
    }
  }

  /** No enclosing table says `x` is global before one says it is local. */
  ghost predicate NotGlobal(env: Env, x: string) {
    match env
    case Top(_) => true
    case Nested(fn, gs, parent) => x !in gs && (x in fn.localVars || NotGlobal(parent, x))
  }

  /** The compiler's lookup against static scoping over the finished functions. */
  lemma {:induction false} LookupAgrees(cs: Scopes, env: Env, x: string)
    requires cs != [] && Consistent(cs, env)
    ensures Lookup(cs, x) == LOCAL ==> x in env.fn.localVars && Resolve(env, x) == LocalPlace
    ensures Lookup(cs, x) == GLOBAL ==> Resolve(env, x) == GlobalPlace && x in cs[0].fn.names
    ensures Lookup(cs, x) in {FREE, NOT_FOUND} ==> x !in env.fn.localVars && NotGlobal(env, x)
    ensures Lookup(cs, x) != GLOBAL ==> NotGlobal(env, x)
    decreases env
  {
    assert LookupLocally(Last(cs), x) == LookupLocally(Last(cs), x);
    if env.Nested? {
      LookupAgrees(cs[..|cs|-1], env.parent, x);
    }
  }

  /** Free and captured variables of the function under construction. */
  ghost predicate FreeVarsOk(cs: Scopes, env: Env)
    requires cs != []
  {
    && (forall y :: y in Last(cs).fn.freeVars ==> y !in env.fn.localVars && NotGlobal(env, y))
    && (forall y :: y in Last(cs).fn.localReferenceVars ==> y in env.fn.localVars)
  }

  ghost predicate NamedIn(code: seq<Instruction>, free: seq<string>) {
    forall i :: 0 <= i < |code| && code[i].PushNamed? ==> code[i].name in free
  }

  lemma {:induction false} NamedInGrows(code: seq<Instruction>, free: seq<string>, free': seq<string>)
    requires NamedIn(code, free) && free <= free'
    ensures NamedIn(code, free')
  {
    forall i | 0 <= i < |code| && code[i].PushNamed? ensures code[i].name in free' {
      PrefixMember(free, free', code[i].name);
    }
  }

  /** Bookkeeping all compile steps keep: `r` is the new chain and the code. */
  ghost predicate Kept(cs: Scopes, r: (Scopes, seq<Instruction>), env: Env, literals: nat)
    requires cs != []
  {
    && Grows(cs, r.0)
    && Consistent(r.0, env)
    && FreeVarsOk(r.0, env)
    && NamedIn(r.1, Last(r.0).fn.freeVars)
    && |Last(r.0).fn.functions| == |Last(cs).fn.functions| + literals
  }

  /** Two steps in a row, with their code in either order. */
  lemma {:induction false} KeptThen(cs: Scopes, a: (Scopes, seq<Instruction>), b: (Scopes, seq<Instruction>),
      env: Env, n: nat, m: nat)
    requires cs != [] && Kept(cs, a, env, n)
    requires a.0 != [] && Kept(a.0, b, env, m)
    ensures Kept(cs, (b.0, a.1 + b.1), env, n + m)
    ensures Kept(cs, (b.0, b.1 + a.1), env, n + m)
  {
    GrowsTransitive(cs, a.0, b.0, |cs| - 1);
    var i := |cs| - 1;
    assert ScopeGrows(a.0[i], b.0[i], i, i);
    NamedInGrows(a.1, Last(a.0).fn.freeVars, Last(b.0).fn.freeVars);
  }

  /** Code without late references can be put anywhere. */
  lemma {:induction false} KeptAround(cs: Scopes, a: (Scopes, seq<Instruction>), env: Env, n: nat,
      pre: seq<Instruction>, post: seq<Instruction>)
    requires cs != [] && Kept(cs, a, env, n)
    requires NamedIn(pre, []) && NamedIn(post, [])
    ensures Kept(cs, (a.0, pre + a.1 + post), env, n)
  {}

  // ---------------------------------------------------------------- single pool operations

  lemma {:induction false} AllocConstantKept(cs: Scopes, env: Env, c: Constant, code: seq<Instruction>)
    requires cs != [] && Consistent(cs, env) && FreeVarsOk(cs, env) && NamedIn(code, [])
    ensures Kept(cs, (AllocConstant(cs, c).0, code), env, 0)
  {
    ConsistentGrows(cs, AllocConstant(cs, c).0, |cs| - 1, env);
  }

  lemma {:induction false} AllocNameKept(cs: Scopes, env: Env, x: string, code: seq<Instruction>)
    requires cs != [] && Consistent(cs, env) && FreeVarsOk(cs, env) && NamedIn(code, [])
    ensures Kept(cs, (AllocName(cs, x).0, code), env, 0)
  {
    ConsistentGrows(cs, AllocName(cs, x).0, |cs| - 1, env);
  }

  lemma {:induction false} AddFreeVarKept(cs: Scopes, env: Env, x: string, code: seq<Instruction>)
    requires cs != [] && Consistent(cs, env) && FreeVarsOk(cs, env) && NamedIn(code, [x])
    requires x !in env.fn.localVars && NotGlobal(env, x)
    ensures Kept(cs, (AddFreeVar(cs, x), code), env, 0)
  {
    ConsistentGrows(cs, AddFreeVar(cs, x), |cs| - 1, env);
  }

  /** Declaring a name global again, where the first pass already did. */
  lemma {:induction false} DeclareGlobalKept(cs: Scopes, env: Env, x: string)
    requires cs != [] && Consistent(cs, env) && FreeVarsOk(cs, env)
    requires LookupLocally(Last(cs), x) == GLOBAL
    ensures Kept(cs, (DeclareGlobal(cs, x), []), env, 0)
  {
    var n := |cs|;
    var r := DeclareGlobal(cs, x);
    assert cs[n-1].table[x := GLOBAL] == cs[n-1].table;
    forall i | 0 <= i < n ensures ScopeGrows(cs[i], r[i], i, n - 1) {
    }
    ConsistentGrows(cs, r, n - 1, env);
  }

  // ---------------------------------------------------------------- opening a function

  lemma {:induction false} DeclareParamsFacts(cs: Scopes, xs: seq<string>)
    requires |cs| > 1 && NoDuplicates(Last(cs).fn.localVars + xs)
    ensures var r := DeclareParams(cs, xs);
      && r[..|cs|-1] == cs[..|cs|-1]
      && Last(r).fn == Last(cs).fn.(localVars := Last(cs).fn.localVars + xs)
      && (forall x :: x in Last(r).table <==> x in Last(cs).table || x in xs)
      && (forall x :: x in Last(r).table ==>
            Last(r).table[x] == if x in xs then LOCAL else Last(cs).table[x])
    decreases |xs|
  {
    if xs == [] {
      assert Last(cs).fn.localVars + xs == Last(cs).fn.localVars;
    } else {
      var L := Last(cs).fn.localVars;
      var c1 := Insert(AddLocalVar(cs, xs[0]), |cs|-1, xs[0], LOCAL);
      assert xs[0] !in L by {
        assert (L + xs)[|L|] == xs[0];
        assert forall i :: 0 <= i < |L| ==> (L + xs)[i] == L[i];
      }
      assert L + xs == (L + [xs[0]]) + xs[1..];
      DeclareParamsFacts(c1, xs[1..]);
    }
  }

  /** Table `u` is `t` with every name of `xs` bound to `type_`. */
  ghost predicate TableWith(t: map<string, SymbolType>, xs: seq<string>, type_: SymbolType,
      u: map<string, SymbolType>) {
    && (forall x :: x in u <==> x in t || x in xs)
    && (forall x :: x in u ==> u[x] == if x in xs then type_ else t[x])
  }

  lemma {:induction false} DeclareGlobalTop(cs: Scopes, x: string)
    requires |cs| > 1
    ensures var r := DeclareGlobal(cs, x);
      && Last(r).fn == Last(cs).fn.(names := Last(r).fn.names)
      && Last(cs).fn.names <= Last(r).fn.names
      && Last(r).table == Last(cs).table[x := GLOBAL]
      && x in r[0].fn.names
  {}

  lemma {:induction false} DeclareGlobalsTop(cs: Scopes, xs: seq<string>)
    requires |cs| > 1
    ensures var r := DeclareGlobals(cs, xs);
      && Last(r).fn == Last(cs).fn.(names := Last(r).fn.names)
      && TableWith(Last(cs).table, xs, GLOBAL, Last(r).table)
    decreases |xs|
  {
    if xs != [] {
      DeclareGlobalTop(cs, xs[0]);
      DeclareGlobalsTop(DeclareGlobal(cs, xs[0]), xs[1..]);
      assert forall x :: x in xs <==> x == xs[0] || x in xs[1..];
    }
  }

  lemma {:induction false} DeclareGlobalBelow(cs: Scopes, x: string)
    requires |cs| > 1
    ensures GrowsBelow(cs[..|cs|-1], DeclareGlobal(cs, x)[..|cs|-1], |cs|-1)
  {
    var n, a, b := |cs| - 1, cs[..|cs|-1], DeclareGlobal(cs, x)[..|cs|-1];
    forall i {:trigger a[i]} | 0 <= i < n ensures ScopeGrows(a[i], b[i], i, n) {
      assert a[i] == cs[i] && b[i] == DeclareGlobal(cs, x)[i];
    }
  }

  lemma {:induction false} DeclareGlobalsBelow(cs: Scopes, xs: seq<string>)
    requires |cs| > 1
    ensures var r := DeclareGlobals(cs, xs);
      && GrowsBelow(cs[..|cs|-1], r[..|cs|-1], |cs|-1)
      && (forall x :: x in xs ==> x in r[0].fn.names)
    decreases |xs|
  {
    var n := |cs| - 1;
    if xs == [] {
      GrowsReflexive(cs[..n], n);
    } else {
      var c1 := DeclareGlobal(cs, xs[0]);
      var r := DeclareGlobals(c1, xs[1..]);
      DeclareGlobalTop(cs, xs[0]);
      DeclareGlobalBelow(cs, xs[0]);
      DeclareGlobalsBelow(c1, xs[1..]);
      GrowsTransitive(cs[..n], c1[..n], r[..n], n);
      assert ScopeGrows(c1[..n][0], r[..n][0], 0, n);
      PrefixMember(c1[0].fn.names, r[0].fn.names, xs[0]);
    }
  }

  lemma {:induction false} DeclareAssignedTop(cs: Scopes, x: string)
    requires |cs| > 1
    ensures var r := DeclareAssigned(cs, x);
      var g := LookupLocally(Last(cs), x) == GLOBAL;
      && r[..|cs|-1] == cs[..|cs|-1]
      && Last(r).fn == Last(cs).fn.(names := Last(r).fn.names, localVars := Last(r).fn.localVars)
      && Last(r).fn.localVars == (if g then Last(cs).fn.localVars else AddUnique(Last(cs).fn.localVars, x))
      && Last(r).table == Last(cs).table[x := if g then GLOBAL else LOCAL]
  {}

  lemma {:induction false} DeclareAssignsBelow(cs: Scopes, xs: seq<string>)
    requires |cs| > 1
    ensures var r := DeclareAssigns(cs, xs);
      && r[..|cs|-1] == cs[..|cs|-1]
      && Last(r).fn == Last(cs).fn.(names := Last(r).fn.names, localVars := Last(r).fn.localVars)
    decreases |xs|
  {
    if xs != [] {
      DeclareAssignedTop(cs, xs[0]);
      DeclareAssignsBelow(DeclareAssigned(cs, xs[0]), xs[1..]);
    }
  }

  /** The names `assigns` makes local: assigned and not declared global. */
  ghost predicate LocalsWith(sc: Scope, xs: seq<string>, locals: seq<string>) {
    && sc.fn.localVars <= locals
    && (NoDuplicates(sc.fn.localVars) ==> NoDuplicates(locals))
    && (forall x :: x in locals <==>
          x in sc.fn.localVars || (x in xs && LookupLocally(sc, x) != GLOBAL))
  }

  /** One more name assigned before `xs`. */
  lemma {:induction false} LocalsStep(sc: Scope, sc1: Scope, x: string, xs: seq<string>, locals: seq<string>)
    requires sc1.fn.localVars == if LookupLocally(sc, x) == GLOBAL then sc.fn.localVars else AddUnique(sc.fn.localVars, x)
    requires sc1.table == sc.table[x := if LookupLocally(sc, x) == GLOBAL then GLOBAL else LOCAL]
    requires LocalsWith(sc1, xs, locals)
    ensures LocalsWith(sc, [x] + xs, locals)
  {
    AddUniqueKeepsPool(sc.fn.localVars, x);
    var first := sc1.fn.localVars;
    assert forall y :: y in first <==> y in sc.fn.localVars || (y == x && LookupLocally(sc, x) != GLOBAL);
    hide AddUnique, NoDuplicates;
    forall y ensures y in locals <==> y in sc.fn.localVars || (y in [x] + xs && LookupLocally(sc, y) != GLOBAL) {
      assert y in [x] + xs <==> y == x || y in xs;
    }
  }

  lemma {:induction false} DeclareAssignsLocals(cs: Scopes, xs: seq<string>)
    requires |cs| > 1
    ensures LocalsWith(Last(cs), xs, Last(DeclareAssigns(cs, xs)).fn.localVars)
    decreases |xs|
  {
    if xs != [] {
      hide LocalsWith, DeclareAssigned;
      var c1 := DeclareAssigned(cs, xs[0]);
      DeclareAssignedTop(cs, xs[0]);
      DeclareAssignsLocals(c1, xs[1..]);
      LocalsStep(Last(cs), Last(c1), xs[0], xs[1..], Last(DeclareAssigns(cs, xs)).fn.localVars);
      assert [xs[0]] + xs[1..] == xs;
    }
  }

  lemma {:induction false} DeclareAssignsDomain(cs: Scopes, xs: seq<string>)
    requires |cs| > 1
    ensures forall x :: x in Last(DeclareAssigns(cs, xs)).table <==> x in Last(cs).table || x in xs
    decreases |xs|
  {
    if xs != [] {
      var c1 := DeclareAssigned(cs, xs[0]);
      DeclareAssignedTop(cs, xs[0]);
      DeclareAssignsDomain(c1, xs[1..]);
      hide DeclareAssigned;
      assert forall x :: x in xs <==> x == xs[0] || x in xs[1..];
    }
  }

  lemma {:induction false} DeclareAssignsTypes(cs: Scopes, xs: seq<string>)
    requires |cs| > 1
    ensures forall x ::
      LookupLocally(Last(DeclareAssigns(cs, xs)), x) ==
        if LookupLocally(Last(cs), x) == GLOBAL then GLOBAL else if x in xs then LOCAL else LookupLocally(Last(cs), x)
    decreases |xs|
  {
    if xs != [] {
      var c1 := DeclareAssigned(cs, xs[0]);
      DeclareAssignedTop(cs, xs[0]);
      DeclareAssignsTypes(c1, xs[1..]);
      hide DeclareAssigned;
      assert forall x :: x in xs <==> x == xs[0] || x in xs[1..];
    }
  }

  lemma {:induction false} DeclareAssignsTop(cs: Scopes, xs: seq<string>)
    requires |cs| > 1
    ensures var r := DeclareAssigns(cs, xs);
      && LocalsWith(Last(cs), xs, Last(r).fn.localVars)
      && (forall x :: x in Last(r).table <==> x in Last(cs).table || x in xs)
      && (forall x :: x in Last(r).table ==>
            Last(r).table[x] == (
              if LookupLocally(Last(cs), x) == GLOBAL then GLOBAL
              else if x in xs then LOCAL else Last(cs).table[x]))
  {
    hide DeclareAssigns, LocalsWith;
    DeclareAssignsLocals(cs, xs);
    DeclareAssignsDomain(cs, xs);
    DeclareAssignsTypes(cs, xs);
    var r := Last(DeclareAssigns(cs, xs));
    forall x | x in r.table ensures r.table[x] == LookupLocally(r, x) {}
  }

  /** The environment in which the body of a literal is compiled. */
  function OpenEnv(cs: Scopes, params: seq<string>, body: seq<Stmt>, env: Env): Env {
    BodyEnv(body, Last(OpenFunction(cs, params, body)).fn, env)
  }

  /** The innermost table after the passes over parameters, `gs` and `xs`. */
  ghost predicate TableOf(sc: Scope, params: seq<string>, gs: seq<string>, xs: seq<string>) {
    && (forall x :: x in sc.fn.localVars <==> x in params || (x in xs && x !in gs))
    && (forall x :: x in sc.table <==> x in gs || x in sc.fn.localVars)
    && (forall x :: x in sc.table ==> sc.table[x] == if x in gs then GLOBAL else LOCAL)
  }

  lemma {:induction false} TableAfterPasses(sc: Scope, params: seq<string>, gs: seq<string>, t: map<string, SymbolType>,
      xs: seq<string>, r: Scope)
    requires sc.fn.localVars == params
    requires (forall x :: x in sc.table <==> x in params) && (forall x :: x in sc.table ==> sc.table[x] == LOCAL)
    requires TableWith(sc.table, gs, GLOBAL, t)
    requires LocalsWith(sc.(table := t), xs, r.fn.localVars)
    requires forall x :: x in r.table <==> x in t || x in xs
    requires forall x :: x in r.table ==>
      r.table[x] == (if x in t && t[x] == GLOBAL then GLOBAL else if x in xs then LOCAL else t[x])
    ensures TableOf(r, params, gs, xs)
  {}

  lemma {:induction false} OpenFunctionScope(cs: Scopes, params: seq<string>, body: seq<Stmt>)
    requires cs != [] && NoDuplicates(params)
    ensures var o := OpenFunction(cs, params, body);
      && GrowsBelow(cs, o[..|cs|], |cs|)
      && (forall x :: x in GlobalsOfBlock(body) ==> x in o[0].fn.names)
      && Last(o).fn == EMPTY_FUNCTION.(parameterCount := |params|, names := Last(o).fn.names,
                                      localVars := Last(o).fn.localVars)
      && params <= Last(o).fn.localVars && NoDuplicates(Last(o).fn.localVars)
      && TableOf(Last(o), params, GlobalsOfBlock(body), AssignsOfBlock(body))
  {
    hide DeclareParams, DeclareGlobals, DeclareAssigns, GlobalsOfBlock, AssignsOfBlock, GrowsBelow, TableOf, TableWith;
    var n, gs, xs := |cs|, GlobalsOfBlock(body), AssignsOfBlock(body);
    var c0 := cs + [Scope(EMPTY_FUNCTION, map[])];
    assert c0[..n] == cs && EMPTY_FUNCTION.localVars + params == params;
    DeclareParamsFacts(c0, params);
    var c1 := DeclareParams(c0, params);
    DeclareGlobalsTop(c1, gs);
    DeclareGlobalsBelow(c1, gs);
    var c2 := DeclareGlobals(c1, gs);
    DeclareAssignsTop(c2, xs);
    DeclareAssignsBelow(c2, xs);
    var c3 := DeclareAssigns(c2, xs);
    var o := OpenFunction(cs, params, body);
    assert o[..n] == c2[..n] && o[0] == c2[0] by { assert c3[..n][0] == c2[..n][0]; }
    assert Last(c2) == Last(c1).(fn := Last(c2).fn, table := Last(c2).table);
    TableAfterPasses(Last(c1), params, gs, Last(c2).table, xs, Last(c3));
    assert TableOf(Last(o), params, gs, xs) by { SameTable(Last(c3), Last(o), params, gs, xs); }
  }

  lemma {:induction false} SameTable(a: Scope, b: Scope, params: seq<string>, gs: seq<string>, xs: seq<string>)
    requires TableOf(a, params, gs, xs) && b.table == a.table && b.fn.localVars == a.fn.localVars
    ensures TableOf(b, params, gs, xs)
  {}

  lemma {:induction false} OpenFunctionOk(cs: Scopes, params: seq<string>, body: seq<Stmt>, env: Env)
    requires cs != [] && Consistent(cs, env) && NoDuplicates(params)
    ensures var o := OpenFunction(cs, params, body);
      && GrowsBelow(cs, o[..|cs|], |cs|)
      && Consistent(o, OpenEnv(cs, params, body, env)) && FreeVarsOk(o, OpenEnv(cs, params, body, env))
      && Last(o).fn == EMPTY_FUNCTION.(parameterCount := |params|, names := Last(o).fn.names,
                                      localVars := Last(o).fn.localVars)
      && params <= Last(o).fn.localVars && NoDuplicates(Last(o).fn.localVars)
      && (forall x :: x in Last(o).fn.localVars <==>
            x in params || (x in AssignsOfBlock(body) && x !in GlobalsOfBlock(body)))
      && Scanned(o, GlobalsOfBlock(body), AssignsOfBlock(body))
  {
    hide OpenFunction, GrowsBelow, GlobalsOfBlock, AssignsOfBlock;
    var n, o := |cs|, OpenFunction(cs, params, body);
    OpenFunctionScope(cs, params, body);
    ConsistentGrows(cs, o[..n], n, env);
  }

  /** The passes over a body have been here: declared names are global in the
      innermost table, assigned names are bound there. */
  ghost predicate Scanned(cs: Scopes, globals: seq<string>, assigns: seq<string>)
    requires cs != []
  {
    && (forall x :: x in globals ==> LookupLocally(Last(cs), x) == GLOBAL)
    && (forall x :: x in assigns ==> LookupLocally(Last(cs), x) in {GLOBAL, LOCAL})
  }

  lemma {:induction false} ScannedGrows(a: Scopes, b: Scopes, globals: seq<string>, assigns: seq<string>, env: Env)
    requires Grows(a, b) && Consistent(a, env) && Scanned(a, globals, assigns)
    ensures Scanned(b, globals, assigns)
  {
    var i := |a| - 1;
    assert ScopeGrows(a[i], b[i], i, i);
  }

  // ---------------------------------------------------------------- closing a function

  lemma {:induction false} AddReferenceVarKept(cs: Scopes, env: Env, x: string, code: seq<Instruction>)
    requires cs != [] && Consistent(cs, env) && FreeVarsOk(cs, env) && x in Last(cs).fn.localVars && NamedIn(code, [])
    ensures var fn := Last(cs).fn;
      Kept(cs, (WithFn(cs, fn.(localReferenceVars := AddUnique(fn.localReferenceVars, x))), code), env, 0)
  {
    var fn := Last(cs).fn;
    LastLocals(cs, env);
    ConsistentGrows(cs, WithFn(cs, fn.(localReferenceVars := AddUnique(fn.localReferenceVars, x))), |cs| - 1, env);
  }

  lemma {:induction false} CaptureAllKept(cs: Scopes, env: Env, free: seq<string>)
    requires cs != [] && Consistent(cs, env) && FreeVarsOk(cs, env)
    requires forall y :: y in free ==> NotGlobal(env, y)
    ensures Kept(cs, CaptureAll(cs, free), env, 0)
    decreases |free|
  {
    if free == [] {
      GrowsReflexive(cs, |cs| - 1);
    } else {
      hide Consistent, FreeVarsOk, Grows, AddUnique, IndexOf;
      var fn, x := Last(cs).fn, free[0];
      if x in fn.localVars {
        var fn' := fn.(localReferenceVars := AddUnique(fn.localReferenceVars, x));
        var c1 := WithFn(cs, fn');
        var code := [PushReference(IndexOf(fn'.localReferenceVars, x))];
        AddReferenceVarKept(cs, env, x, code);
        CaptureAllKept(c1, env, free[1..]);
        KeptThen(cs, (c1, code), CaptureAll(c1, free[1..]), env, 0, 0);
      } else {
        LastLocals(cs, env);
        AddFreeVarKept(cs, env, x, [PushNamed(x)]);
        var c1 := AddFreeVar(cs, x);
        CaptureAllKept(c1, env, free[1..]);
        KeptThen(cs, (c1, [PushNamed(x)]), CaptureAll(c1, free[1..]), env, 0, 0);
      }
    }
  }

  lemma {:induction false} LastLocals(cs: Scopes, env: Env)
    requires cs != [] && Consistent(cs, env)
    ensures Last(cs).fn.localVars == env.fn.localVars
  {}

  /** The scope chain and code just before a literal's function is finished. */
  function WithImplicitReturn(cs: Scopes, body: seq<Stmt>, code: seq<Instruction>): (r: (Scopes, seq<Instruction>))
    requires cs != []
    ensures |r.0| == |cs|
  {
    if FindReturnBlock(body) then (cs, code)
    else (AllocConstant(cs, NoneC).0, code + [LoadConst(AllocConstant(cs, NoneC).1), Instruction.Return])
  }

  /** While the literal was compiled, the chain below it only saw global names. */
  lemma {:induction false} OuterKept(cs: Scopes, outer: Scopes, env: Env)
    requires cs != [] && Consistent(cs, env) && FreeVarsOk(cs, env)
    requires GrowsBelow(cs, outer, |cs|)
    ensures Kept(cs, (outer, []), env, 0)
  {
    var n := |cs|;
    ConsistentGrows(cs, outer, n, env);
    forall i | 0 <= i < n ensures ScopeGrows(cs[i], outer[i], i, n - 1) {
      assert ScopeGrows(cs[i], outer[i], i, n);
    }
    assert ScopeGrows(cs[n-1], outer[n-1], n - 1, n);
  }

  lemma {:induction false} AddFunctionKept(cs: Scopes, g: Function, env: Env)
    requires cs != [] && Consistent(cs, env) && FreeVarsOk(cs, env)
    ensures Kept(cs, (WithFn(cs, Last(cs).fn.(functions := Last(cs).fn.functions + [g])), []), env, 1)
  {
    ConsistentGrows(cs, WithFn(cs, Last(cs).fn.(functions := Last(cs).fn.functions + [g])), |cs| - 1, env);
  }

  lemma {:induction false} CloseFunctionKept(cs: Scopes, c1: Scopes, body: seq<Stmt>, code: seq<Instruction>, env: Env, inner: Env)
    requires cs != [] && Consistent(cs, env) && FreeVarsOk(cs, env)
    requires |c1| == |cs| + 1 && GrowsBelow(cs, c1[..|cs|], |cs|)
    requires inner.Nested? && inner.parent == env && FreeVarsOk(c1, inner)
    ensures Kept(cs, CloseFunction(c1, body, code), env, 1)
  {
    hide CaptureAll, Patch, ReferenceIndices;
    var n := |cs|;
    var (c2, code2) := WithImplicitReturn(c1, body, code);
    var g := Finish(Last(c2).fn, code2);
    var outer := c2[..n];
    assert outer == c1[..n];
    OuterKept(cs, outer, env);
    forall y | y in g.freeVars ensures NotGlobal(env, y) {
      assert y in Last(c1).fn.freeVars;
    }
    CaptureAllKept(outer, env, g.freeVars);
    var (c3, pushes) := CaptureAll(outer, g.freeVars);
    KeptThen(cs, (outer, []), (c3, pushes), env, 0, 0);
    assert [] + pushes == pushes;
    AddFunctionKept(c3, g, env);
    var c4 := WithFn(c3, Last(c3).fn.(functions := Last(c3).fn.functions + [g]));
    KeptThen(cs, (c3, pushes), (c4, []), env, 0, 1);
    assert pushes + [] == pushes;
    KeptAround(cs, (c4, pushes), env, 1, [LoadFunc(|Last(outer).fn.functions|)], [AllocClosure(|g.freeVars|)]);
  }

  // ---------------------------------------------------------------- every compile step

  lemma {:induction false} CompileVarKept(x: string, cs: Scopes, env: Env)
    requires cs != [] && Consistent(cs, env) && FreeVarsOk(cs, env)
    ensures Kept(cs, CompileVar(x, cs), env, 0)
  {
    LookupAgrees(cs, env, x);
    GrowsReflexive(cs, |cs| - 1);
    match Lookup(cs, x)
    case LOCAL =>
    case GLOBAL => AllocNameKept(cs, env, x, [LoadGlobal(AllocName(cs, x).1)]);
    case FREE => AddFreeVarKept(cs, env, x, [PushNamed(x), LoadReference]);
    case NOT_FOUND => AddFreeVarKept(cs, env, x, [PushNamed(x), LoadReference]);
  }

  lemma {:induction false} FunctionKept(cs: Scopes, o: Scopes, c1: Scopes, body: seq<Stmt>, code: seq<Instruction>, env: Env, inner: Env)
    requires cs != [] && Consistent(cs, env) && FreeVarsOk(cs, env)
    requires |o| == |cs| + 1 && GrowsBelow(cs, o[..|cs|], |cs|) && Grows(o, c1)
    requires inner.Nested? && inner.parent == env && FreeVarsOk(c1, inner)
    ensures Kept(cs, CloseFunction(c1, body, code), env, 1)
  {
    var n := |cs|;
    assert GrowsBelow(o[..n], c1[..n], n) by {
      var a, b := o[..n], c1[..n];
      forall i {:trigger a[i]} | 0 <= i < n ensures ScopeGrows(a[i], b[i], i, n) {
        assert ScopeGrows(o[i], c1[i], i, n);
      }
    }
    GrowsTransitive(cs, o[..n], c1[..n], n);
    CloseFunctionKept(cs, c1, body, code, env, inner);
  }

  lemma {:induction false} ExprKept(e: Expr, cs: Scopes, env: Env)
    requires cs != [] && Consistent(cs, env) && FreeVarsOk(cs, env) && WellFormed(e, SHAPE)
    ensures Kept(cs, CompileExpr(e, cs), env, Literals(e))
    decreases e, 1
  {
    hide Consistent, FreeVarsOk, Grows, IndexOf, AddUnique;
    match e
    case Var(x) => CompileVarKept(x, cs, env);
    case IntegerConstant(i) => AllocConstantKept(cs, env, IntegerC(i), CompileExpr(e, cs).1);
    case StringConstant(t) => AllocConstantKept(cs, env, StringC(t), CompileExpr(e, cs).1);
    case NoneConstant => AllocConstantKept(cs, env, NoneC, CompileExpr(e, cs).1);
    case BooleanConstant(b) => AllocConstantKept(cs, env, BooleanC(b), CompileExpr(e, cs).1);
    case Fun(_, _) => FunKept(e, cs, env);
    case Binary(_, _, _) => BinaryKept(e, cs, env);
    case Unary(_, _) => UnaryKept(e, cs, env);
    case Field(_, _) => FieldKept(e, cs, env);
    case Index(_, _) => IndexKept(e, cs, env);
    case Call(_, _) => CallKept(e, cs, env);
    case Record(_) => RecordKept(e, cs, env);
  }

  lemma {:induction false} FunKept(e: Expr, cs: Scopes, env: Env)
    requires e.Fun?
    requires cs != [] && Consistent(cs, env) && FreeVarsOk(cs, env) && WellFormed(e, SHAPE)
    ensures Kept(cs, CompileFun(e, cs), env, Literals(e))
    decreases e, 0
  {
    var Fun(params, body) := e;
    var o := OpenFunction(cs, params, body);
    var inner := OpenEnv(cs, params, body, env);
    OpenFunctionOk(cs, params, body, env);
    BlockKept(body, o, inner);
    var (c1, code) := CompileBlock(body, o);
    FunctionKept(cs, o, c1, body, code, env, inner);
  }

  lemma {:induction false} BinaryKept(e: Expr, cs: Scopes, env: Env)
    requires e.Binary?
    requires cs != [] && Consistent(cs, env) && FreeVarsOk(cs, env) && WellFormed(e, SHAPE)
    ensures Kept(cs, CompileBinary(e, cs), env, Literals(e))
    decreases e, 0
  {
    hide Consistent, FreeVarsOk, Grows, IndexOf, AddUnique, CompileExpr, NamedIn;
    var Binary(l, op, r) := e;
    ExprKept(l, cs, env);
    var a := CompileExpr(l, cs);
    ExprKept(r, a.0, env);
    var b := CompileExpr(r, a.0);
    KeptThen(cs, a, b, env, Literals(l), Literals(r));
    var code := if Exchanged(op) then b.1 + a.1 else a.1 + b.1;
    KeptAround(cs, (b.0, code), env, Literals(e), [], [OperatorInstruction(op)]);
    assert [] + code == code;
  }

  lemma {:induction false} UnaryKept(e: Expr, cs: Scopes, env: Env)
    requires e.Unary?
    requires cs != [] && Consistent(cs, env) && FreeVarsOk(cs, env) && WellFormed(e, SHAPE)
    ensures Kept(cs, CompileUnary(e, cs), env, Literals(e))
    decreases e, 0
  {
    hide Consistent, FreeVarsOk, Grows, IndexOf, AddUnique, CompileExpr, NamedIn;
    var Unary(op, x) := e;
    ExprKept(x, cs, env);
    var a := CompileExpr(x, cs);
    KeptAround(cs, a, env, Literals(x), [], [if op == SUB then Neg else Not]);
    assert [] + a.1 == a.1;
  }

  lemma {:induction false} FieldKept(e: Expr, cs: Scopes, env: Env)
    requires e.Field?
    requires cs != [] && Consistent(cs, env) && FreeVarsOk(cs, env) && WellFormed(e, SHAPE)
    ensures Kept(cs, CompileField(e, cs), env, Literals(e))
    decreases e, 0
  {
    var Field(b, name) := e;
    ExprKept(b, cs, env);
    var a := CompileExpr(b, cs);
    var (c2, i) := AllocName(a.0, name);
    AllocNameKept(a.0, env, name, [FieldLoad(i)]);
    KeptThen(cs, a, (c2, [FieldLoad(i)]), env, Literals(b), 0);
  }

  lemma {:induction false} IndexKept(e: Expr, cs: Scopes, env: Env)
    requires e.Index?
    requires cs != [] && Consistent(cs, env) && FreeVarsOk(cs, env) && WellFormed(e, SHAPE)
    ensures Kept(cs, CompileIndex(e, cs), env, Literals(e))
    decreases e, 0
  {
    hide Consistent, FreeVarsOk, Grows, IndexOf, AddUnique, CompileExpr, NamedIn;
    var Index(b, i) := e;
    ExprKept(b, cs, env);
    var x := CompileExpr(b, cs);
    ExprKept(i, x.0, env);
    var y := CompileExpr(i, x.0);
    KeptThen(cs, x, y, env, Literals(b), Literals(i));
    KeptAround(cs, (y.0, x.1 + y.1), env, Literals(e), [], [IndexLoad]);
    assert [] + (x.1 + y.1) == x.1 + y.1;
  }

  lemma {:induction false} CallKept(e: Expr, cs: Scopes, env: Env)
    requires e.Call?
    requires cs != [] && Consistent(cs, env) && FreeVarsOk(cs, env) && WellFormed(e, SHAPE)
    ensures Kept(cs, CompileCall(e, cs), env, Literals(e))
    decreases e, 0
  {
    hide Consistent, FreeVarsOk, Grows, IndexOf, AddUnique, CompileExpr, NamedIn;
    var Call(t, args) := e;
    ExprKept(t, cs, env);
    var a := CompileExpr(t, cs);
    ArgsKept(args, a.0, env);
    var b := CompileArgs(args, a.0);
    KeptThen(cs, a, b, env, Literals(t), LiteralsArgs(args));
    KeptAround(cs, (b.0, a.1 + b.1), env, Literals(e), [], [Instruction.Call(|args|)]);
    assert [] + (a.1 + b.1) == a.1 + b.1;
  }

  lemma {:induction false} RecordKept(e: Expr, cs: Scopes, env: Env)
    requires e.Record?
    requires cs != [] && Consistent(cs, env) && FreeVarsOk(cs, env) && WellFormed(e, SHAPE)
    ensures Kept(cs, CompileRecord(e, cs), env, Literals(e))
    decreases e, 0
  {
    hide Consistent, FreeVarsOk, Grows, IndexOf, AddUnique, CompileExpr, NamedIn;
    var Record(fs) := e;
    FieldsKept(fs, cs, env);
    var a := CompileFields(fs, cs);
    var pre := [AllocRecord] + seq(|fs|, _ => Dup);
    KeptAround(cs, a, env, Literals(e), pre, []);
    assert pre + a.1 + [] == pre + a.1;
  }

  lemma {:induction false} ArgsKept(es: seq<Expr>, cs: Scopes, env: Env)
    requires cs != [] && Consistent(cs, env) && FreeVarsOk(cs, env) && WellFormedArgs(es, SHAPE)
    ensures Kept(cs, CompileArgs(es, cs), env, LiteralsArgs(es))
    decreases es, 0
  {
    if es == [] {
      GrowsReflexive(cs, |cs| - 1);
    } else {
      ExprKept(es[0], cs, env);
      var a := CompileExpr(es[0], cs);
      ArgsKept(es[1..], a.0, env);
      KeptThen(cs, a, CompileArgs(es[1..], a.0), env, Literals(es[0]), LiteralsArgs(es[1..]));
    }
  }

  lemma {:induction false} FieldsKept(fs: seq<FieldInit>, cs: Scopes, env: Env)
    requires cs != [] && Consistent(cs, env) && FreeVarsOk(cs, env) && WellFormedFields(fs, SHAPE)
    ensures Kept(cs, CompileFields(fs, cs), env, LiteralsFields(fs))
    decreases fs, 0
  {
    if fs == [] {
      GrowsReflexive(cs, |cs| - 1);
    } else {
      ExprKept(fs[0].init, cs, env);
      var a := CompileExpr(fs[0].init, cs);
      var (c2, i) := AllocName(a.0, fs[0].name);
      AllocNameKept(a.0, env, fs[0].name, [FieldStore(i)]);
      KeptThen(cs, a, (c2, [FieldStore(i)]), env, Literals(fs[0].init), 0);
      FieldsKept(fs[1..], c2, env);
      KeptThen(cs, (c2, a.1 + [FieldStore(i)]), CompileFields(fs[1..], c2), env,
               Literals(fs[0].init), LiteralsFields(fs[1..]));
    }
  }

  lemma {:induction false} TargetKept(x: string, cs: Scopes, env: Env)
    requires cs != [] && Consistent(cs, env) && FreeVarsOk(cs, env)
    ensures var (c1, before, store) := CompileTarget(x, cs);
      Kept(cs, (c1, before), env, 0) && !store.PushNamed?
  {
    LookupAgrees(cs, env, x);
    GrowsReflexive(cs, |cs| - 1);
    match Lookup(cs, x)
    case LOCAL =>
    case GLOBAL => AllocNameKept(cs, env, x, []);
    case FREE => AddFreeVarKept(cs, env, x, [PushNamed(x)]);
    case NOT_FOUND => AddFreeVarKept(cs, env, x, [PushNamed(x)]);
  }

  lemma {:induction false} StmtKept(s: Stmt, cs: Scopes, env: Env)
    requires cs != [] && Consistent(cs, env) && FreeVarsOk(cs, env) && WellFormedStmt(s, SHAPE)
    requires Scanned(cs, GlobalsOf(s), AssignsOf(s))
    ensures Kept(cs, CompileStmt(s, cs), env, LiteralsStmt(s))
    decreases s, 1
  {
    match s
    case Global(_) => GlobalKept(s, cs, env);
    case AssignVar(_, _) => AssignVarKept(s, cs, env);
    case AssignField(_, _, _) => AssignFieldKept(s, cs, env);
    case AssignIndex(_, _, _) => AssignIndexKept(s, cs, env);
    case CallStmt(_) => CallStmtKept(s, cs, env);
    case If(_, _) => IfKept(s, cs, env);
    case IfElse(_, _, _) => IfElseKept(s, cs, env);
    case While(_, _) => WhileKept(s, cs, env);
    case Return(_) => ReturnKept(s, cs, env);
  }

  lemma {:induction false} GlobalKept(s: Stmt, cs: Scopes, env: Env)
    requires s.Global?
    requires cs != [] && Consistent(cs, env) && FreeVarsOk(cs, env) && WellFormedStmt(s, SHAPE)
    requires Scanned(cs, GlobalsOf(s), AssignsOf(s))
    ensures Kept(cs, CompileStmt(s, cs), env, LiteralsStmt(s))
    decreases s, 0
  {
    var Global(x) := s;
    assert x in GlobalsOf(s);
    DeclareGlobalKept(cs, env, x);
  }

  lemma {:induction false} AssignVarKept(s: Stmt, cs: Scopes, env: Env)
    requires s.AssignVar?
    requires cs != [] && Consistent(cs, env) && FreeVarsOk(cs, env) && WellFormedStmt(s, SHAPE)
    requires Scanned(cs, GlobalsOf(s), AssignsOf(s))
    ensures Kept(cs, CompileStmt(s, cs), env, LiteralsStmt(s))
    decreases s, 0
  {
    hide Consistent, FreeVarsOk, Grows, IndexOf, AddUnique, CompileExpr, CompileBlock, NamedIn;
    var AssignVar(x, e) := s;
    TargetKept(x, cs, env);
    var (c1, before, store) := CompileTarget(x, cs);
    ExprKept(e, c1, env);
    var a := CompileExpr(e, c1);
    KeptThen(cs, (c1, before), a, env, 0, Literals(e));
    KeptAround(cs, (a.0, before + a.1), env, Literals(e), [], [store]);
    assert [] + (before + a.1) == before + a.1;
  }

  lemma {:induction false} AssignFieldKept(s: Stmt, cs: Scopes, env: Env)
    requires s.AssignField?
    requires cs != [] && Consistent(cs, env) && FreeVarsOk(cs, env) && WellFormedStmt(s, SHAPE)
    requires Scanned(cs, GlobalsOf(s), AssignsOf(s))
    ensures Kept(cs, CompileStmt(s, cs), env, LiteralsStmt(s))
    decreases s, 0
  {
    hide Consistent, FreeVarsOk, Grows, IndexOf, AddUnique, CompileExpr, CompileBlock, NamedIn;
    var AssignField(b, name, e) := s;
    ExprKept(b, cs, env);
    var x := CompileExpr(b, cs);
    var (c2, i) := AllocName(x.0, name);
    AllocNameKept(x.0, env, name, []);
    KeptThen(cs, x, (c2, []), env, Literals(b), 0);
    assert x.1 + [] == x.1;
    ExprKept(e, c2, env);
    var y := CompileExpr(e, c2);
    KeptThen(cs, (c2, x.1), y, env, Literals(b), Literals(e));
    KeptAround(cs, (y.0, x.1 + y.1), env, LiteralsStmt(s), [], [FieldStore(i)]);
    assert [] + (x.1 + y.1) == x.1 + y.1;
  }

  lemma {:induction false} AssignIndexKept(s: Stmt, cs: Scopes, env: Env)
    requires s.AssignIndex?
    requires cs != [] && Consistent(cs, env) && FreeVarsOk(cs, env) && WellFormedStmt(s, SHAPE)
    requires Scanned(cs, GlobalsOf(s), AssignsOf(s))
    ensures Kept(cs, CompileStmt(s, cs), env, LiteralsStmt(s))
    decreases s, 0
  {
    hide Consistent, FreeVarsOk, Grows, IndexOf, AddUnique, CompileExpr, CompileBlock, NamedIn;
    var AssignIndex(b, i, e) := s;
    ExprKept(b, cs, env);
    var x := CompileExpr(b, cs);
    ExprKept(i, x.0, env);
    var y := CompileExpr(i, x.0);
    KeptThen(cs, x, y, env, Literals(b), Literals(i));
    ExprKept(e, y.0, env);
    var z := CompileExpr(e, y.0);
    KeptThen(cs, (y.0, x.1 + y.1), z, env, Literals(b) + Literals(i), Literals(e));
    KeptAround(cs, (z.0, x.1 + y.1 + z.1), env, LiteralsStmt(s), [], [IndexStore]);
    assert [] + (x.1 + y.1 + z.1) == x.1 + y.1 + z.1;
  }

  lemma {:induction false} CallStmtKept(s: Stmt, cs: Scopes, env: Env)
    requires s.CallStmt?
    requires cs != [] && Consistent(cs, env) && FreeVarsOk(cs, env) && WellFormedStmt(s, SHAPE)
    requires Scanned(cs, GlobalsOf(s), AssignsOf(s))
    ensures Kept(cs, CompileStmt(s, cs), env, LiteralsStmt(s))
    decreases s, 0
  {
    hide Consistent, FreeVarsOk, Grows, IndexOf, AddUnique, CompileExpr, CompileBlock, NamedIn;
    var CallStmt(e) := s;
    ExprKept(e, cs, env);
    var a := CompileExpr(e, cs);
    KeptAround(cs, a, env, Literals(e), [], [Pop]);
    assert [] + a.1 == a.1;
  }

  lemma {:induction false} IfKept(s: Stmt, cs: Scopes, env: Env)
    requires s.If?
    requires cs != [] && Consistent(cs, env) && FreeVarsOk(cs, env) && WellFormedStmt(s, SHAPE)
    requires Scanned(cs, GlobalsOf(s), AssignsOf(s))
    ensures Kept(cs, CompileStmt(s, cs), env, LiteralsStmt(s))
    decreases s, 0
  {
    hide Consistent, FreeVarsOk, Grows, IndexOf, AddUnique, CompileExpr, CompileBlock, NamedIn;
    var If(c, t) := s;
    ExprKept(c, cs, env);
    var a := CompileExpr(c, cs);
    ScannedGrows(cs, a.0, GlobalsOfBlock(t), AssignsOfBlock(t), env);
    BlockKept(t, a.0, env);
    var b := CompileBlock(t, a.0);
    var jump := [Not, Instruction.If(|b.1| + 1)];
    KeptAround(cs, a, env, Literals(c), [], jump);
    assert [] + a.1 == a.1;
    KeptThen(cs, (a.0, a.1 + jump), b, env, Literals(c), LiteralsBlock(t));
  }

  lemma {:induction false} IfElseKept(s: Stmt, cs: Scopes, env: Env)
    requires s.IfElse?
    requires cs != [] && Consistent(cs, env) && FreeVarsOk(cs, env) && WellFormedStmt(s, SHAPE)
    requires Scanned(cs, GlobalsOf(s), AssignsOf(s))
    ensures Kept(cs, CompileStmt(s, cs), env, LiteralsStmt(s))
    decreases s, 0
  {
    hide Consistent, FreeVarsOk, Grows, NamedIn, Scanned, CompileExpr, CompileBlock;
    var IfElse(c, t, e) := s;
    ScannedParts(s, cs);
    ExprKept(c, cs, env);
    var a := CompileExpr(c, cs);
    ScannedGrows(cs, a.0, GlobalsOfBlock(t), AssignsOfBlock(t), env);
    BlockKept(t, a.0, env);
    var b := CompileBlock(t, a.0);
    GrowsOn(cs, a.0, b.0);
    ScannedGrows(cs, b.0, GlobalsOfBlock(e), AssignsOfBlock(e), env);
    BlockKept(e, b.0, env);
    BranchesKept(cs, a, b, CompileBlock(e, b.0), env, Literals(c), LiteralsBlock(t), LiteralsBlock(e));
  }

  lemma {:induction false} ScannedParts(s: Stmt, cs: Scopes)
    requires s.IfElse? && cs != [] && Scanned(cs, GlobalsOf(s), AssignsOf(s))
    ensures Scanned(cs, GlobalsOfBlock(s.thenPart), AssignsOfBlock(s.thenPart))
    ensures Scanned(cs, GlobalsOfBlock(s.elsePart), AssignsOfBlock(s.elsePart))
  {}

  lemma {:induction false} GrowsOn(a: Scopes, b: Scopes, c: Scopes)
    requires Grows(a, b) && Grows(b, c)
    ensures Grows(a, c)
  {
    GrowsTransitive(a, b, c, |a| - 1);
  }

  lemma {:induction false} WhileKept(s: Stmt, cs: Scopes, env: Env)
    requires s.While?
    requires cs != [] && Consistent(cs, env) && FreeVarsOk(cs, env) && WellFormedStmt(s, SHAPE)
    requires Scanned(cs, GlobalsOf(s), AssignsOf(s))
    ensures Kept(cs, CompileStmt(s, cs), env, LiteralsStmt(s))
    decreases s, 0
  {
    hide Consistent, FreeVarsOk, Grows, IndexOf, AddUnique, CompileExpr, CompileBlock, NamedIn;
    var While(c, body) := s;
    ExprKept(c, cs, env);
    var a := CompileExpr(c, cs);
    ScannedGrows(cs, a.0, GlobalsOfBlock(body), AssignsOfBlock(body), env);
    BlockKept(body, a.0, env);
    var b := CompileBlock(body, a.0);
    var jump := [Not, Instruction.If(|b.1| + 2)];
    KeptAround(cs, a, env, Literals(c), [], jump);
    assert [] + a.1 == a.1;
    KeptThen(cs, (a.0, a.1 + jump), b, env, Literals(c), LiteralsBlock(body));
    var code := a.1 + jump + b.1;
    KeptAround(cs, (b.0, code), env, LiteralsStmt(s), [], [Goto(-(|a.1 + jump| + |b.1|))]);
    assert [] + code == code;
  }

  lemma {:induction false} ReturnKept(s: Stmt, cs: Scopes, env: Env)
    requires s.Return?
    requires cs != [] && Consistent(cs, env) && FreeVarsOk(cs, env) && WellFormedStmt(s, SHAPE)
    requires Scanned(cs, GlobalsOf(s), AssignsOf(s))
    ensures Kept(cs, CompileStmt(s, cs), env, LiteralsStmt(s))
    decreases s, 0
  {
    hide Consistent, FreeVarsOk, Grows, IndexOf, AddUnique, CompileExpr, CompileBlock, NamedIn;
    var Return(e) := s;
    ExprKept(e, cs, env);
    var a := CompileExpr(e, cs);
    KeptAround(cs, a, env, Literals(e), [], [Instruction.Return]);
    assert [] + a.1 == a.1;
  }

  /** A conditional is compiled condition, then-part, else-part, and laid out
      condition, else-part, then-part. */
  lemma {:induction false} BranchesKept(cs: Scopes, a: (Scopes, seq<Instruction>), b: (Scopes, seq<Instruction>),
      d: (Scopes, seq<Instruction>), env: Env, n: nat, m: nat, l: nat)
    requires cs != [] && Kept(cs, a, env, n)
    requires a.0 != [] && Kept(a.0, b, env, m)
    requires b.0 != [] && Kept(b.0, d, env, l)
    ensures var d' := d.1 + [Goto(|b.1| + 1)];
      Kept(cs, (d.0, a.1 + [Instruction.If(|d'| + 1)] + d' + b.1), env, n + m + l)
  {
    var d' := d.1 + [Goto(|b.1| + 1)];
    KeptAround(b.0, d, env, l, [], [Goto(|b.1| + 1)]);
    assert [] + d.1 == d.1;
    KeptThen(a.0, b, (d.0, d'), env, m, l);
    KeptAround(cs, a, env, n, [], [Instruction.If(|d'| + 1)]);
    assert [] + a.1 == a.1;
    KeptThen(cs, (a.0, a.1 + [Instruction.If(|d'| + 1)]), (d.0, d' + b.1), env, n, m + l);
    assert a.1 + [Instruction.If(|d'| + 1)] + (d' + b.1) == a.1 + [Instruction.If(|d'| + 1)] + d' + b.1;
  }

  lemma {:induction false} BlockKept(ss: seq<Stmt>, cs: Scopes, env: Env)
    requires cs != [] && Consistent(cs, env) && FreeVarsOk(cs, env) && WellFormedBlock(ss, SHAPE)
    requires Scanned(cs, GlobalsOfBlock(ss), AssignsOfBlock(ss))
    ensures Kept(cs, CompileBlock(ss, cs), env, LiteralsBlock(ss))
    decreases ss, 0
  {
    if ss == [] {
      GrowsReflexive(cs, |cs| - 1);
    } else {
      StmtKept(ss[0], cs, env);
      var a := CompileStmt(ss[0], cs);
      ScannedGrows(cs, a.0, GlobalsOfBlock(ss[1..]), AssignsOfBlock(ss[1..]), env);
      BlockKept(ss[1..], a.0, env);
      KeptThen(cs, a, CompileBlock(ss[1..], a.0), env, LiteralsStmt(ss[0]), LiteralsBlock(ss[1..]));
    }
  }
}
