/** Statement code is as long as announced, and its tables only grow. */
module StmtFacts {
  import opened Syntax
  import opened Machine
  import opened Semantics
  import opened CodeGen
  import opened Lengths
  import opened ExprCorrect
  import opened StmtGen

  /** Length as announced, and tables as every later fragment needs them. */
  ghost predicate Regular(g: Gen, len: nat, T: Tables, user: nat) {
    |g.code| == len && (Wf(T, user) ==> Later(T, g.tabs, user))
  }

  lemma ClauseRegular(e: Option<Expr>, base: nat, T: Tables, sc: Scope, user: nat)
    ensures Wf(T, user) ==> Later(T, GenClause(e, base, T, sc).tabs, user)
    ensures |GenClause(e, base, T, sc).code| == LenClause(e, sc)
  {
    if e.Some? {
      if Wf(T, user) {
        ExprTables(e.value, base, T, sc, user);
      }
      ExprLength(e.value, base, T, sc);
    }
  }

  lemma ExprRegular(e: Expr, base: nat, T: Tables, sc: Scope, user: nat)
    ensures Wf(T, user) ==> Later(T, GenExpr(e, base, T, sc).tabs, user)
    ensures |GenExpr(e, base, T, sc).code| == LenExpr(e, sc)
  {
    if Wf(T, user) {
      ExprTables(e, base, T, sc, user);
    }
    ExprLength(e, base, T, sc);
  }

  lemma {:induction false} StmtRegular(s: Stmt, base: nat, labels: seq<string>, sh: Shape, tg: Targets, T: Tables,
                                       sc: Scope, user: nat)
    ensures Regular(GenStmt(s, base, labels, sh, tg, T, sc), LenStmt(s, labels, sh, sc), T, user)
    decreases s, 2
  {
    hide GenExpr, Wf, GenIf, GenIfElse, GenWhile, GenDo, GenFor, GenSwitch, GenList;
    match s
    case Empty =>
    case Block(body) => ListRegular(body, base, sh, tg, T, sc, user);
    case ExprStmt(e) => ExprRegular(e, base, T, sc, user);
    case Return(None) =>
    case Return(Some(e)) => ExprRegular(e, base, T, sc, user);
    case ThrowStmt(e) => ExprRegular(e, base, T, sc, user);
    case If(_, _, None) => IfRegular(s, base, sh, tg, T, sc, user);
    case If(_, _, Some(_)) => IfElseRegular(s, base, sh, tg, T, sc, user);
    case While(_, _) => WhileRegular(s, base, labels, sh, tg, T, sc, user);
    case DoWhile(_, _) => DoRegular(s, base, labels, sh, tg, T, sc, user);
    case For(_, _, _, _) => ForRegular(s, base, labels, sh, tg, T, sc, user);
    case Switch(_, _) => SwitchRegular(s, base, sh, tg, T, sc, user);
    case Break(_) =>
    case Continue(_) =>
    case Labeled(name, body) =>
      if PassesLabels(body) {
        StmtRegular(body, base, labels + [name], sh, tg, T, sc, user);
      } else {
        var inner := PushBlock(sh, labels + [name]);
        StmtRegular(body, base, [], inner, PushExit(tg, base + LenStmt(body, [], inner, sc)), T, sc, user);
      }
  }

  lemma {:induction false} ListRegular(ss: StmtList, base: nat, sh: Shape, tg: Targets, T: Tables, sc: Scope, user: nat)
    ensures Regular(GenList(ss, base, sh, tg, T, sc), LenList(ss, sh, sc), T, user)
    decreases ss, 0
  {
    hide GenStmt, LenStmt, Wf;
    match ss
    case SNil =>
    case SCons(s, tail) =>
      var a := GenStmt(s, base, [], sh, tg, T, sc);
      StmtRegular(s, base, [], sh, tg, T, sc, user);
      ListRegular(tail, base + |a.code|, sh, tg, a.tabs, sc, user);
  }

  lemma {:induction false} IfRegular(s: Stmt, base: nat, sh: Shape, tg: Targets, T: Tables, sc: Scope, user: nat)
    requires s.If? && s.alt.None?
    ensures Regular(GenIf(s, base, sh, tg, T, sc), LenStmt(s, [], sh, sc), T, user)
    decreases s, 0
  {
    hide GenStmt, GenExpr, Wf;
    var t := GenExpr(s.test, base, T, sc);
    ExprRegular(s.test, base, T, sc, user);
    StmtRegular(s.cons, base + |t.code| + 1, [], sh, tg, t.tabs, sc, user);
  }

  lemma {:induction false} IfElseRegular(s: Stmt, base: nat, sh: Shape, tg: Targets, T: Tables, sc: Scope, user: nat)
    requires s.If? && s.alt.Some?
    ensures Regular(GenIfElse(s, base, sh, tg, T, sc), LenStmt(s, [], sh, sc), T, user)
    decreases s, 0
  {
    hide GenStmt, GenExpr, Wf;
    var t := GenExpr(s.test, base, T, sc);
    var pc := base + |t.code| + 1;
    var c := GenStmt(s.cons, pc, [], sh, tg, t.tabs, sc);
    ExprRegular(s.test, base, T, sc, user);
    StmtRegular(s.cons, pc, [], sh, tg, t.tabs, sc, user);
    StmtRegular(s.alt.value, pc + |c.code| + 1, [], sh, tg, c.tabs, sc, user);
  }

  lemma {:induction false} WhileRegular(s: Stmt, base: nat, labels: seq<string>, sh: Shape, tg: Targets, T: Tables,
                                        sc: Scope, user: nat)
    requires s.While?
    ensures Regular(GenWhile(s, base, labels, sh, tg, T, sc), LenStmt(s, labels, sh, sc), T, user)
    decreases s, 0
  {
    hide GenStmt, GenExpr, Wf;
    var inner := PushLoop(sh, labels, true);
    var t := GenExpr(s.test, base, T, sc);
    var pb := base + |t.code| + 1;
    var end := pb + LenStmt(s.loopBody, [], inner, sc) + 1;
    ExprRegular(s.test, base, T, sc, user);
    StmtRegular(s.loopBody, pb, [], inner, PushLoopTarget(tg, end, base), t.tabs, sc, user);
  }

  lemma {:induction false} DoRegular(s: Stmt, base: nat, labels: seq<string>, sh: Shape, tg: Targets, T: Tables,
                                     sc: Scope, user: nat)
    requires s.DoWhile?
    ensures Regular(GenDo(s, base, labels, sh, tg, T, sc), LenStmt(s, labels, sh, sc), T, user)
    decreases s, 0
  {
    hide GenStmt, GenExpr, Wf;
    var inner := PushLoop(sh, labels, true);
    var pt := base + LenStmt(s.loopBody, [], inner, sc);
    var tg' := PushLoopTarget(tg, pt + LenExpr(s.test, sc) + 1, pt);
    StmtRegular(s.loopBody, base, [], inner, tg', T, sc, user);
    ExprRegular(s.test, pt, GenStmt(s.loopBody, base, [], inner, tg', T, sc).tabs, sc, user);
  }

  lemma {:induction false} ForRegular(s: Stmt, base: nat, labels: seq<string>, sh: Shape, tg: Targets, T: Tables,
                                      sc: Scope, user: nat)
    requires s.For?
    ensures Regular(GenFor(s, base, labels, sh, tg, T, sc), LenStmt(s, labels, sh, sc), T, user)
    decreases s, 1
  {
    hide GenForLoop, GenClause, Wf;
    var i := GenClause(s.init, base, T, sc);
    ClauseRegular(s.init, base, T, sc, user);
    ForLoopRegular(s, base + |i.code| + |PopIf(s.init)|, labels, sh, tg, i.tabs, sc, user);
  }

  lemma {:induction false} ForLoopRegular(s: Stmt, base: nat, labels: seq<string>, sh: Shape, tg: Targets, T: Tables,
                                          sc: Scope, user: nat)
    requires s.For?
    ensures Regular(GenForLoop(s, base, labels, sh, tg, T, sc), LenStmt(s, labels, sh, sc) - LenOptional(s.init, sc),
                    T, user)
    decreases s, 0
  {
    hide GenStmt, GenClause, Wf;
    var inner := PushLoop(sh, labels, true);
    var c := GenClause(s.cond, base, T, sc);
    var pb := base + |c.code| + |ExitIf(s.cond, 0)|;
    var pu := pb + LenStmt(s.loopBody, [], inner, sc);
    var tg' := PushLoopTarget(tg, pu + LenOptional(s.update, sc) + 1, pu);
    ClauseRegular(s.cond, base, T, sc, user);
    StmtRegular(s.loopBody, pb, [], inner, tg', c.tabs, sc, user);
    ClauseRegular(s.update, pu, GenStmt(s.loopBody, pb, [], inner, tg', c.tabs, sc).tabs, sc, user);
  }

  lemma {:induction false} SwitchRegular(s: Stmt, base: nat, sh: Shape, tg: Targets, T: Tables, sc: Scope, user: nat)
    requires s.Switch?
    ensures Regular(GenSwitch(s, base, sh, tg, T, sc), LenStmt(s, [], sh, sc), T, user)
    decreases s, 0
  {
    hide GenExpr, GenTests, GenBodies, Wf;
    var inner := PushLoop(sh, [], false);
    var d := GenExpr(s.disc, base, T, sc);
    var tmp := InternLocal(SwitchDisc, d.tabs);
    var pt := base + |d.code| + 1;
    var pb := pt + LenTests(s.cases, sc) + 1;
    var end := pb + LenBodies(s.cases, inner, sc);
    ExprRegular(s.disc, base, T, sc, user);
    if Wf(d.tabs, user) {
      InternLocalKeeps(SwitchDisc, d.tabs, user);
    }
    TestsRegular(s.cases, pt, tmp.index, pb, inner, tmp.tabs, sc, user);
    var c := GenTests(s.cases, pt, tmp.index, pb, inner, tmp.tabs, sc);
    BodiesRegular(s.cases, pb, inner, PushLoopTarget(tg, end, end), c.tabs, sc, user);
  }

  lemma {:induction false} TestsRegular(cases: CaseList, pc: nat, tmp: nat, bodyPc: nat, sh: Shape, T: Tables,
                                        sc: Scope, user: nat)
    ensures Wf(T, user) ==> Later(T, GenTests(cases, pc, tmp, bodyPc, sh, T, sc).tabs, user)
    ensures |GenTests(cases, pc, tmp, bodyPc, sh, T, sc).code| == LenTests(cases, sc)
  {
    hide GenExpr, Wf;
    match cases
    case CNil =>
    case CCons(c, tail) =>
      var next := bodyPc + LenList(c.body, sh, sc);
      match c.test
      case None => TestsRegular(tail, pc, tmp, next, sh, T, sc, user);
      case Some(e) =>
        var t := GenExpr(e, pc + 1, T, sc);
        ExprRegular(e, pc + 1, T, sc, user);
        TestsRegular(tail, pc + 1 + |t.code| + 2, tmp, next, sh, t.tabs, sc, user);
  }

  lemma {:induction false} BodiesRegular(cases: CaseList, base: nat, sh: Shape, tg: Targets, T: Tables, sc: Scope,
                                         user: nat)
    ensures Regular(GenBodies(cases, base, sh, tg, T, sc), LenBodies(cases, sh, sc), T, user)
    decreases cases, 0
  {
    hide GenList, Wf;
    match cases
    case CNil =>
    case CCons(c, tail) =>
      var a := GenList(c.body, base, sh, tg, T, sc);
      ListRegular(c.body, base, sh, tg, T, sc, user);
      BodiesRegular(tail, base + |a.code|, sh, tg, a.tabs, sc, user);
  }

  lemma {:induction false} TopTables(ss: StmtList, base: nat, T: Tables, sc: Scope, user: nat)
    requires Wf(T, user)
    ensures Later(T, GenTop(ss, base, T, sc).tabs, user)
  {
    hide Wf, GenStmt, GenExpr;
    match ss
    case SNil =>
    case SCons(s, tail) =>
      if s.ExprStmt? {
        var a := GenExpr(s.expr, base, T, sc);
        ExprTables(s.expr, base, T, sc, user);
        TopTables(tail, base + |a.code|, a.tabs, sc, user);
      } else {
        var a := GenStmt(s, base, [], NoShape, NoTargets, T, sc);
        StmtRegular(s, base, [], NoShape, NoTargets, T, sc, user);
        TopTables(tail, base + |a.code|, a.tabs, sc, user);
      }
  }
}
