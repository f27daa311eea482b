/** What the compiler's return analysis says of a body: every way through it that
    enters each loop it comes to meets a return. Ways through a body are told
    apart by the outcomes of its conditions, whatever these are. */
module ReturnAnalysis {
  import opened Ast
  import opened TreeWalker

  // ---------------------------------------------------------------- ways through a body

  function Pick(picks: seq<bool>): bool { picks != [] && picks[0] }

  function Rest(picks: seq<bool>): (r: seq<bool>)
    ensures |r| <= |picks| && (picks != [] ==> |r| < |picks|)
  {
    if picks == [] then [] else picks[1..]
  }

  /** The way `picks` leads: whether it meets a return, and the picks not used. With
      `once` every loop runs its body before its condition is asked. */
  function Route(ss: seq<Stmt>, picks: seq<bool>, once: bool): (r: (bool, seq<bool>))
    ensures |r.1| <= |picks|
    decreases |picks|, ss, 0
  {
    if ss == [] then (false, picks)
    else
      var r := RouteStmt(ss[0], picks, once);
      if r.0 then r else Route(ss[1..], r.1, once)
  }

  function RouteStmt(s: Stmt, picks: seq<bool>, once: bool): (r: (bool, seq<bool>))
    ensures |r.1| <= |picks|
    decreases |picks|, s, 1
  {
    match s
    case If(_, t) => if Pick(picks) then Route(t, Rest(picks), once) else (false, Rest(picks))
    case IfElse(_, t, e) => if Pick(picks) then Route(t, Rest(picks), once) else Route(e, Rest(picks), once)
    case While(_, b) =>
      if !once then Rounds(s, picks, once)
      else
        var r := Route(b, picks, once);
        if r.0 then r else Rounds(s, r.1, once)
    case Return(_) => (true, picks)
    case _ => (false, picks)
  }

  function Rounds(s: Stmt, picks: seq<bool>, once: bool): (r: (bool, seq<bool>))
    requires s.While?
    ensures |r.1| <= |picks|
    decreases |picks|, s, 0
  {
    if !Pick(picks) then (false, Rest(picks))
    else
      var r := Route(s.body, Rest(picks), once);
      if r.0 then r else Rounds(s, r.1, once)
  }

  // ---------------------------------------------------------------- the analysis

  lemma {:induction false} FoundOnEveryRoute(ss: seq<Stmt>, picks: seq<bool>)
    requires FindReturnBlock(ss)
    ensures Route(ss, picks, true).0
    decreases ss, 0
  {
    if FindReturn(ss[0]) {
      FoundByStmt(ss[0], picks);
    } else {
      FoundOnEveryRoute(ss[1..], RouteStmt(ss[0], picks, true).1);
    }
  }

  lemma {:induction false} FoundByStmt(s: Stmt, picks: seq<bool>)
    requires FindReturn(s)
    ensures RouteStmt(s, picks, true).0
    decreases s, 1
  {
    match s
    case IfElse(_, t, e) => if Pick(picks) { FoundOnEveryRoute(t, Rest(picks)); } else { FoundOnEveryRoute(e, Rest(picks)); }
    case While(_, b) => FoundOnEveryRoute(b, picks);
    case Return(_) =>
  }

  lemma {:induction false} MustOnEveryRoute(ss: seq<Stmt>, picks: seq<bool>, once: bool)
    requires MustReturnBlock(ss)
    ensures Route(ss, picks, once).0
    decreases ss, 0
  {
    if MustReturn(ss[0]) {
      MustByStmt(ss[0], picks, once);
    } else {
      MustOnEveryRoute(ss[1..], RouteStmt(ss[0], picks, once).1, once);
    }
  }

  lemma {:induction false} MustByStmt(s: Stmt, picks: seq<bool>, once: bool)
    requires MustReturn(s)
    ensures RouteStmt(s, picks, once).0
    decreases s, 1
  {
    match s
    case IfElse(_, t, e) => if Pick(picks) { MustOnEveryRoute(t, Rest(picks), once); } else { MustOnEveryRoute(e, Rest(picks), once); }
    case Return(_) =>
  }

  /** What the analysis does not see a return in, by either reading. */
  predicate Sees(ss: seq<Stmt>, once: bool) {
    if once then FindReturnBlock(ss) else MustReturnBlock(ss)
  }

  predicate SeesStmt(s: Stmt, once: bool) {
    if once then FindReturn(s) else MustReturn(s)
  }

  /** Picks that lead past every return. */
  function Past(ss: seq<Stmt>, once: bool): seq<bool>
    decreases ss, 0
  {
    if ss == [] then [] else PastStmt(ss[0], once) + Past(ss[1..], once)
  }

  function PastStmt(s: Stmt, once: bool): seq<bool>
    decreases s, 1
  {
    match s
    case If(_, _) => [false]
    case IfElse(_, t, e) => if !Sees(t, once) then [true] + Past(t, once) else [false] + Past(e, once)
    case While(_, b) => if once then Past(b, once) + [false] else [false]
    case _ => []
  }

  lemma {:induction false} PastFalls(ss: seq<Stmt>, once: bool, more: seq<bool>)
    requires !Sees(ss, once)
    ensures Route(ss, Past(ss, once) + more, once) == (false, more)
    decreases ss, 0
  {
    if ss == [] {
      assert [] + more == more;
    } else {
      var a, b := PastStmt(ss[0], once), Past(ss[1..], once);
      assert a + b + more == a + (b + more);
      PastStmtFalls(ss[0], once, b + more);
      PastFalls(ss[1..], once, more);
    }
  }

  lemma {:induction false} PastStmtFalls(s: Stmt, once: bool, more: seq<bool>)
    requires !SeesStmt(s, once)
    ensures RouteStmt(s, PastStmt(s, once) + more, once) == (false, more)
    decreases s, 1
  {
    hide Route, Past, Rounds, Sees;
    match s
    case If(_, _) => assert ([false] + more)[1..] == more;
    case IfElse(_, _, _) => PastBranchesFall(s, once, more);
    case While(_, _) => PastLoopFalls(s, once, more);
    case Return(_) =>
    case _ => assert [] + more == more;
  }

  lemma {:induction false} PastBranchesFall(s: Stmt, once: bool, more: seq<bool>)
    requires s.IfElse? && !SeesStmt(s, once)
    ensures RouteStmt(s, PastStmt(s, once) + more, once) == (false, more)
    decreases s, 0
  {
    hide Route, Past, Rounds;
    var left := !Sees(s.thenPart, once);
    var branch := if left then s.thenPart else s.elsePart;
    assert ([left] + Past(branch, once) + more)[1..] == Past(branch, once) + more;
    PastFalls(branch, once, more);
  }

  lemma {:induction false} PastLoopFalls(s: Stmt, once: bool, more: seq<bool>)
    requires s.While? && !SeesStmt(s, once)
    ensures RouteStmt(s, PastStmt(s, once) + more, once) == (false, more)
    decreases s, 0
  {
    hide Route, Past;
    assert ([false] + more)[1..] == more;
    if once {
      assert Past(s.body, once) + [false] + more == Past(s.body, once) + ([false] + more);
      PastFalls(s.body, once, [false] + more);
    }
  }

  /** The analysis finds a return exactly when every way meets one, each loop on it
      being entered. */
  lemma {:induction false} FindReturnIff(ss: seq<Stmt>)
    ensures FindReturnBlock(ss) <==> forall picks :: Route(ss, picks, true).0
  {
    if FindReturnBlock(ss) {
      forall picks ensures Route(ss, picks, true).0 { FoundOnEveryRoute(ss, picks); }
    } else {
      PastFalls(ss, true, []);
    }
  }

  /** A body must return exactly when every way meets a return. */
  lemma {:induction false} MustReturnIff(ss: seq<Stmt>)
    ensures MustReturnBlock(ss) <==> forall picks :: Route(ss, picks, false).0
  {
    if MustReturnBlock(ss) {
      forall picks ensures Route(ss, picks, false).0 { MustOnEveryRoute(ss, picks, false); }
    } else {
      PastFalls(ss, false, []);
    }
  }

  predicate LoopFree(ss: seq<Stmt>)
    decreases ss, 0
  {
    ss == [] || (LoopFreeStmt(ss[0]) && LoopFree(ss[1..]))
  }

  predicate LoopFreeStmt(s: Stmt)
    decreases s, 1
  {
    match s
    case If(_, t) => LoopFree(t)
    case IfElse(_, t, e) => LoopFree(t) && LoopFree(e)
    case While(_, _) => false
    case _ => true
  }

  /** Only a loop makes the analysis promise more than holds. */
  lemma {:induction false} LoopFreeAgrees(ss: seq<Stmt>)
    requires LoopFree(ss)
    ensures FindReturnBlock(ss) <==> MustReturnBlock(ss)
    decreases ss, 0
  {
    if ss != [] {
      LoopFreeStmtAgrees(ss[0]);
      LoopFreeAgrees(ss[1..]);
    }
  }

  lemma {:induction false} LoopFreeStmtAgrees(s: Stmt)
    requires LoopFreeStmt(s)
    ensures FindReturn(s) <==> MustReturn(s)
    decreases s, 1
  {
    match s
    case IfElse(_, t, e) => LoopFreeAgrees(t); LoopFreeAgrees(e);
    case _ =>
  }

  // ---------------------------------------------------------------- runs

  /** In the run of these statements every loop met is entered. */
  ghost predicate Enters(ss: seq<Stmt>, s: Store, f: nat, fuel: nat)
    decreases fuel, ss, 0
  {
    ss != [] && Exec(ss[0], s, f, fuel).Ok? ==>
      var (flow, s1) := Exec(ss[0], s, f, fuel).value;
      EntersStmt(ss[0], s, f, fuel, true) && (flow.Normal? ==> Enters(ss[1..], s1, f, fuel))
  }

  /** ... with `first` for a loop that has not run its body yet. */
  ghost predicate EntersStmt(c: Stmt, s: Store, f: nat, fuel: nat, first: bool)
    decreases fuel, c, 1
  {
    match c
    case If(g, t) =>
      var r := Eval(g, s, f, fuel);
      r.Ok? && r.value.0 == BoolV(true) ==> Enters(t, r.value.1, f, fuel)
    case IfElse(g, t, e) =>
      var r := Eval(g, s, f, fuel);
      r.Ok? && r.value.0.BoolV? ==> Enters(if r.value.0.flag then t else e, r.value.1, f, fuel)
    case While(g, b) =>
      var r := Eval(g, s, f, fuel);
      r.Ok? && r.value.0.BoolV? ==>
        && (first ==> r.value.0.flag)
        && (r.value.0.flag ==>
              var o := ExecBlock(b, r.value.1, f, fuel);
              && Enters(b, r.value.1, f, fuel)
              && (o.Ok? && o.value.0.Normal? && fuel > 0 ==> EntersStmt(c, o.value.1, f, fuel - 1, false)))
    case _ => true
  }

  /** A run takes one of the routes: any run one that asks before the first round,
      a run that enters its loops one that does not. */
  lemma {:induction false} RunTakesRoute(ss: seq<Stmt>, s: Store, f: nat, fuel: nat, once: bool, more: seq<bool>) returns (picks: seq<bool>)
    requires ExecBlock(ss, s, f, fuel).Ok? && (once ==> Enters(ss, s, f, fuel))
    ensures Route(ss, picks + more, once) == (ExecBlock(ss, s, f, fuel).value.0.Returned?, more)
    decreases fuel, ss, 0
  {
    hide Exec, RouteStmt, EntersStmt;
    if ss == [] {
      picks := [];
      assert [] + more == more;
    } else {
      var (flow, s1) := Exec(ss[0], s, f, fuel).value;
      if flow.Returned? {
        picks := StmtTakesRoute(ss[0], s, f, fuel, once, more);
      } else {
        var later := RunTakesRoute(ss[1..], s1, f, fuel, once, more);
        var now := StmtTakesRoute(ss[0], s, f, fuel, once, later + more);
        picks := now + later;
        assert picks + more == now + (later + more);
      }
    }
  }

  lemma {:induction false} StmtTakesRoute(c: Stmt, s: Store, f: nat, fuel: nat, once: bool, more: seq<bool>) returns (picks: seq<bool>)
    requires Exec(c, s, f, fuel).Ok? && (once ==> EntersStmt(c, s, f, fuel, true))
    ensures RouteStmt(c, picks + more, once) == (Exec(c, s, f, fuel).value.0.Returned?, more)
    decreases fuel, c, 1
  {
    hide Eval, Route, Rounds;
    match c
    case If(_, _) => picks := BranchTakesRoute(c, s, f, fuel, once, more);
    case IfElse(_, _, _) => picks := BranchTakesRoute(c, s, f, fuel, once, more);
    case While(_, _) => picks := LoopTakesRoute(c, s, f, fuel, once, more);
    case _ =>
      picks := [];
      assert [] + more == more;
  }

  lemma {:induction false} BranchTakesRoute(c: Stmt, s: Store, f: nat, fuel: nat, once: bool, more: seq<bool>) returns (picks: seq<bool>)
    requires (c.If? || c.IfElse?) && Exec(c, s, f, fuel).Ok? && (once ==> EntersStmt(c, s, f, fuel, true))
    ensures RouteStmt(c, picks + more, once) == (Exec(c, s, f, fuel).value.0.Returned?, more)
    decreases fuel, c, 0
  {
    hide Eval, Route, Rounds, Enters, ExecBlock;
    var (v, s1) := Eval(c.cond, s, f, fuel).value;
    var later: seq<bool> := [];
    if v.flag {
      later := RunTakesRoute(c.thenPart, s1, f, fuel, once, more);
    } else if c.IfElse? {
      later := RunTakesRoute(c.elsePart, s1, f, fuel, once, more);
    }
    picks := [v.flag] + later;
    assert (picks + more)[1..] == later + more && [] + more == more;
  }

  lemma {:induction false} LoopTakesRoute(c: Stmt, s: Store, f: nat, fuel: nat, once: bool, more: seq<bool>) returns (picks: seq<bool>)
    requires c.While? && ExecWhile(c, s, f, fuel).Ok? && (once ==> EntersStmt(c, s, f, fuel, true))
    ensures RouteStmt(c, picks + more, once) == (ExecWhile(c, s, f, fuel).value.0.Returned?, more)
    decreases fuel, c, 0
  {
    hide Eval, ExecBlock, Route;
    if once {
      var s1 := Eval(c.cond, s, f, fuel).value.1;
      var (flow, s2) := ExecBlock(c.body, s1, f, fuel).value;
      if flow.Returned? {
        picks := RunTakesRoute(c.body, s1, f, fuel, once, more);
      } else {
        var later := RoundsTakeRoute(c, s2, f, fuel - 1, once, more);
        var now := RunTakesRoute(c.body, s1, f, fuel, once, later + more);
        picks := now + later;
        assert picks + more == now + (later + more);
      }
    } else {
      picks := RoundsTakeRoute(c, s, f, fuel, once, more);
    }
  }

  lemma {:induction false} RoundsTakeRoute(c: Stmt, s: Store, f: nat, fuel: nat, once: bool, more: seq<bool>) returns (picks: seq<bool>)
    requires c.While? && ExecWhile(c, s, f, fuel).Ok? && (once ==> EntersStmt(c, s, f, fuel, false))
    ensures Rounds(c, picks + more, once) == (ExecWhile(c, s, f, fuel).value.0.Returned?, more)
    decreases fuel, c.body, 1
  {
    hide Eval, ExecBlock, Route;
    var (v, s1) := Eval(c.cond, s, f, fuel).value;
    if !v.flag {
      picks := [false];
      assert (picks + more)[1..] == more;
    } else {
      var (flow, s2) := ExecBlock(c.body, s1, f, fuel).value;
      var later: seq<bool> := [];
      if flow.Normal? { later := RoundsTakeRoute(c, s2, f, fuel - 1, once, more); }
      var now := RunTakesRoute(c.body, s1, f, fuel, once, later + more);
      picks := [true] + now + later;
      assert (picks + more)[1..] == now + (later + more);
      assert [] + more == more;
    }
  }

  /** Where the analysis finds a return, a run that ends without one has left a loop
      out; a body without loops always returns. */
  lemma {:induction false} FoundReturns(ss: seq<Stmt>, s: Store, f: nat, fuel: nat)
    requires FindReturnBlock(ss) && ExecBlock(ss, s, f, fuel).Ok? && (Enters(ss, s, f, fuel) || LoopFree(ss))
    ensures ExecBlock(ss, s, f, fuel).value.0.Returned?
  {
    hide ExecBlock, Enters, Route, LoopFree;
    if Enters(ss, s, f, fuel) {
      var picks := RunTakesRoute(ss, s, f, fuel, true, []);
      FoundOnEveryRoute(ss, picks + []);
    } else {
      LoopFreeAgrees(ss);
      var picks := RunTakesRoute(ss, s, f, fuel, false, []);
      MustOnEveryRoute(ss, picks + [], false);
    }
  }
}
