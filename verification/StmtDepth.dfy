/** Compiled statements keep the stack discipline: they are left, and left by
    every jump, at the depth at which they were entered. */
module StmtDepth {
  import opened Syntax
  import opened Machine
  import opened Semantics
  import opened CodeGen
  import opened Lengths
  import opened ExprCorrect
  import opened StmtGen
  import opened StmtFacts
  import opened JumpTargets
  import opened StackDepth
  import opened ExprDepth

  /** Every enclosing jump target is expected at depth `n`. */
  ghost predicate TargetsOut(sh: Shape, tg: Targets, n: nat, out: set<Point>) {
    && Fits(sh, tg)
    && (forall i :: 0 <= i < |tg.breaks| ==> Point(tg.breaks[i], n) in out)
    && (forall i :: 0 <= i < |tg.continues| ==> Point(tg.continues[i], n) in out)
    && (forall i :: 0 <= i < |tg.exits| ==> Point(tg.exits[i], n) in out)
  }

  lemma TargetsWiden(sh: Shape, tg: Targets, n: nat, out: set<Point>, inner: set<Point>)
    requires TargetsOut(sh, tg, n, out) && out <= inner
    ensures TargetsOut(sh, tg, n, inner)
  {
  }

  lemma TargetsLoop(sh: Shape, tg: Targets, labels: seq<string>, it: bool, brk: nat, cont: nat, n: nat, out: set<Point>)
    requires TargetsOut(sh, tg, n, out) && Point(brk, n) in out && Point(cont, n) in out
    ensures TargetsOut(PushLoop(sh, labels, it), PushLoopTarget(tg, brk, cont), n, out)
  {
  }

  lemma TargetsBlock(sh: Shape, tg: Targets, labels: seq<string>, exit: nat, n: nat, out: set<Point>)
    requires TargetsOut(sh, tg, n, out) && Point(exit, n) in out
    ensures TargetsOut(PushBlock(sh, labels), PushExit(tg, exit), n, out)
  {
  }

  lemma FoundOut(sh: Shape, tg: Targets, n: nat, out: set<Point>, l: Option<string>)
    requires TargetsOut(sh, tg, n, out)
    ensures FindBreak(sh, l).Some? ==> Point(Addr(tg, FindBreak(sh, l).value), n) in out
    ensures FindContinue(sh, l).Some? ==> Point(Addr(tg, FindContinue(sh, l).value), n) in out
  {
    LastIterationBound(sh.loops, l);
    if l.Some? {
      LastLabelledBound(sh.loops, l.value);
      LastBlockBound(sh.blocks, l.value);
    }
  }

  lemma JumpFlows(found: Option<Slot>, base: nat, tg: Targets, T: Tables, err: JumpError, n: nat, out: set<Point>,
                  z: Limits)
    requires found.Some? ==> Point(Addr(tg, found.value), n) in out
    ensures Flows(GenJump(found, base, tg, T, err).code, base, n, n, {}, out, z)
  {
    hide Flows;
    match found
    case Some(slot) => JumpOne(Addr(tg, slot), base, n, n, z, out);
    case None => FlowsEmpty(base, n, out, z);
  }

  // ----- statements -----

  lemma {:induction false} StmtFlows(s: Stmt, base: nat, labels: seq<string>, sh: Shape, tg: Targets, T: Tables,
                                     v: View, n: nat, out: set<Point>)
    requires TargetsOut(sh, tg, n, out) && Ready(T, GenStmt(s, base, labels, sh, tg, T, v.scope).tabs, v)
    ensures Flows(GenStmt(s, base, labels, sh, tg, T, v.scope).code, base, n, n, {}, out, v.limits)
    decreases s, 4
  {
    hide GenExpr, Flows, Ready, TargetsOut, GenIf, GenIfElse, GenWhile, GenDo, GenFor, GenSwitch, GenList, GenJump;
    hide GenLabeledBlock, FindBreak, FindContinue;
    match s
    case Empty => FlowsEmpty(base, n, out, v.limits);
    case Block(body) => ListFlows(body, base, sh, tg, T, v, n, out);
    case ExprStmt(e) => ThenFlows(e, Pop, base, T, v, n, out);
    case Return(None) => ReturnFlows(base, n, out, v.limits);
    case Return(Some(e)) => ThenFlows(e, ReturnOp, base, T, v, n, out);
    case ThrowStmt(e) => ThenFlows(e, ThrowOp, base, T, v, n, out);
    case If(_, _, None) => IfFlows(s, base, sh, tg, T, v, n, out);
    case If(_, _, Some(_)) => IfElseFlows(s, base, sh, tg, T, v, n, out);
    case While(_, _) => WhileFlows(s, base, labels, sh, tg, T, v, n, out);
    case DoWhile(_, _) => DoFlows(s, base, labels, sh, tg, T, v, n, out);
    case For(_, _, _, _) => ForFlows(s, base, labels, sh, tg, T, v, n, out);
    case Switch(_, _) => SwitchFlows(s, base, sh, tg, T, v, n, out);
    case Break(l) =>
      FoundOut(sh, tg, n, out, l);
      JumpFlows(FindBreak(sh, l), base, tg, T, NoBreakTarget, n, out, v.limits);
    case Continue(l) =>
      FoundOut(sh, tg, n, out, l);
      JumpFlows(FindContinue(sh, l), base, tg, T, NoContinueTarget, n, out, v.limits);
    case Labeled(name, body) =>
      if PassesLabels(body) {
        StmtFlows(body, base, labels + [name], sh, tg, T, v, n, out);
      } else {
        BlockFlows(body, base, labels + [name], sh, tg, T, v, n, out);
      }
  }

  /** An expression and the instruction that takes its value. */
  lemma ThenFlows(e: Expr, last: Opcode, base: nat, T: Tables, v: View, n: nat, out: set<Point>)
    requires last == Pop || last == ReturnOp || last == ThrowOp
    requires Ready(T, GenExpr(e, base, T, v.scope).tabs, v)
    ensures Flows(GenExpr(e, base, T, v.scope).code + [Bare(last)], base, n, n, {}, out, v.limits)
  {
    hide Flows, GenExpr, Ready;
    var g := GenExpr(e, base, T, v.scope);
    ExprFlows(e, base, T, v, n, out);
    FlowsOne(Bare(last), base + |g.code|, n + 1, n, out, v.limits);
    Join2(g.code, [Bare(last)], base, n, n + 1, n, out, v.limits);
  }

  lemma ReturnFlows(base: nat, n: nat, out: set<Point>, z: Limits)
    ensures Flows([Bare(LdaUndefined), Bare(ReturnOp)], base, n, n, {}, out, z)
  {
    hide Flows;
    FlowsOne(Bare(LdaUndefined), base, n, n + 1, out, z);
    FlowsOne(Bare(ReturnOp), base + 1, n + 1, n, out, z);
    FlowsTwo(Bare(LdaUndefined), Bare(ReturnOp), base, n, n + 1, n, out, z);
  }

  lemma {:induction false} ListFlows(ss: StmtList, base: nat, sh: Shape, tg: Targets, T: Tables, v: View, n: nat,
                                     out: set<Point>)
    requires TargetsOut(sh, tg, n, out) && Ready(T, GenList(ss, base, sh, tg, T, v.scope).tabs, v)
    ensures Flows(GenList(ss, base, sh, tg, T, v.scope).code, base, n, n, {}, out, v.limits)
    decreases ss, 0
  {
    hide Flows, GenStmt, LenStmt, LenList, TargetsOut, Wf, ScopeIn;
    match ss
    case SNil => FlowsEmpty(base, n, out, v.limits);
    case SCons(s, tail) =>
      var a := GenStmt(s, base, [], sh, tg, T, v.scope);
      var b := GenList(tail, base + |a.code|, sh, tg, a.tabs, v.scope);
      StmtRegular(s, base, [], sh, tg, T, v.scope, v.user);
      ListRegular(tail, base + |a.code|, sh, tg, a.tabs, v.scope, v.user);
      StmtFlows(s, base, [], sh, tg, T, v, n, out);
      ListFlows(tail, base + |a.code|, sh, tg, a.tabs, v, n, out);
      Join2(a.code, b.code, base, n, n, n, out, v.limits);
  }

  lemma {:induction false} IfFlows(s: Stmt, base: nat, sh: Shape, tg: Targets, T: Tables, v: View, n: nat,
                                   out: set<Point>)
    requires s.If? && TargetsOut(sh, tg, n, out) && Ready(T, GenIf(s, base, sh, tg, T, v.scope).tabs, v)
    ensures Flows(GenIf(s, base, sh, tg, T, v.scope).code, base, n, n, {}, out, v.limits)
    decreases s, 0
  {
    hide Flows, GenExpr, GenStmt, LenStmt, LenExpr, TargetsOut, Wf, ScopeIn;
    var t := GenExpr(s.test, base, T, v.scope);
    var pc := base + |t.code| + 1;
    var c := GenStmt(s.cons, pc, [], sh, tg, t.tabs, v.scope);
    var end := pc + |c.code|;
    var inner := out + {Point(end, n)};
    ExprRegular(s.test, base, T, v.scope, v.user);
    StmtRegular(s.cons, pc, [], sh, tg, t.tabs, v.scope, v.user);
    TargetsWiden(sh, tg, n, out, inner);
    ExprFlows(s.test, base, T, v, n, inner);
    BranchOne(JumpIfFalse, end, pc - 1, n, v.limits, inner);
    StmtFlows(s.cons, pc, [], sh, tg, t.tabs, v, n, inner);
    Join3(t.code, [Instr(JumpIfFalse, end)], c.code, base, n, n + 1, n, n, inner, v.limits);
    Seal(t.code + [Instr(JumpIfFalse, end)] + c.code, base, n, n, {}, inner, out, v.limits);
  }

  lemma {:induction false} IfElseFlows(s: Stmt, base: nat, sh: Shape, tg: Targets, T: Tables, v: View, n: nat,
                                       out: set<Point>)
    requires s.If? && s.alt.Some?
    requires TargetsOut(sh, tg, n, out) && Ready(T, GenIfElse(s, base, sh, tg, T, v.scope).tabs, v)
    ensures Flows(GenIfElse(s, base, sh, tg, T, v.scope).code, base, n, n, {}, out, v.limits)
    decreases s, 0
  {
    hide Flows, GenExpr, GenStmt, LenStmt, LenExpr, TargetsOut, Wf, ScopeIn;
    var t := GenExpr(s.test, base, T, v.scope);
    var pc := base + |t.code| + 1;
    var c := GenStmt(s.cons, pc, [], sh, tg, t.tabs, v.scope);
    var mid := pc + |c.code| + 1;
    var d := GenStmt(s.alt.value, mid, [], sh, tg, c.tabs, v.scope);
    var inner := out + {Point(mid, n), Point(mid + |d.code|, n)};
    ExprRegular(s.test, base, T, v.scope, v.user);
    StmtRegular(s.cons, pc, [], sh, tg, t.tabs, v.scope, v.user);
    StmtRegular(s.alt.value, mid, [], sh, tg, c.tabs, v.scope, v.user);
    TargetsWiden(sh, tg, n, out, inner);
    ExprFlows(s.test, base, T, v, n, inner);
    StmtFlows(s.cons, pc, [], sh, tg, t.tabs, v, n, inner);
    StmtFlows(s.alt.value, mid, [], sh, tg, c.tabs, v, n, inner);
    BranchFlows(t.code, c.code, d.code, base, n, n, out, v.limits);
  }

  lemma {:induction false} WhileFlows(s: Stmt, base: nat, labels: seq<string>, sh: Shape, tg: Targets, T: Tables,
                                      v: View, n: nat, out: set<Point>)
    requires s.While? && TargetsOut(sh, tg, n, out) && Ready(T, GenWhile(s, base, labels, sh, tg, T, v.scope).tabs, v)
    ensures Flows(GenWhile(s, base, labels, sh, tg, T, v.scope).code, base, n, n, {}, out, v.limits)
    decreases s, 0
  {
    hide Flows, GenExpr, GenStmt, LenStmt, LenExpr, TargetsOut, Wf, ScopeIn;
    var inner := PushLoop(sh, labels, true);
    var t := GenExpr(s.test, base, T, v.scope);
    var pb := base + |t.code| + 1;
    var end := pb + LenStmt(s.loopBody, [], inner, v.scope) + 1;
    var tg' := PushLoopTarget(tg, end, base);
    var b := GenStmt(s.loopBody, pb, [], inner, tg', t.tabs, v.scope);
    var within := out + {Point(base, n), Point(end, n)};
    var test, again := Instr(JumpIfFalse, end), Instr(Jump, base);
    ExprRegular(s.test, base, T, v.scope, v.user);
    StmtRegular(s.loopBody, pb, [], inner, tg', t.tabs, v.scope, v.user);
    TargetsWiden(sh, tg, n, out, within);
    TargetsLoop(sh, tg, labels, true, end, base, n, within);
    ExprFlows(s.test, base, T, v, n, within);
    BranchOne(JumpIfFalse, end, pb - 1, n, v.limits, within);
    StmtFlows(s.loopBody, pb, [], inner, tg', t.tabs, v, n, within);
    JumpOne(base, pb + |b.code|, n, n, v.limits, within);
    Join4(t.code, [test], b.code, [again], base, n, n + 1, n, n, n, within, v.limits);
    Seal(t.code + [test] + b.code + [again], base, n, n, {}, within, out, v.limits);
  }

  lemma {:induction false} DoFlows(s: Stmt, base: nat, labels: seq<string>, sh: Shape, tg: Targets, T: Tables, v: View,
                                   n: nat, out: set<Point>)
    requires s.DoWhile? && TargetsOut(sh, tg, n, out) && Ready(T, GenDo(s, base, labels, sh, tg, T, v.scope).tabs, v)
    ensures Flows(GenDo(s, base, labels, sh, tg, T, v.scope).code, base, n, n, {}, out, v.limits)
    decreases s, 0
  {
    hide Flows, GenExpr, GenStmt, LenStmt, LenExpr, TargetsOut, Wf, ScopeIn;
    var inner := PushLoop(sh, labels, true);
    var pt := base + LenStmt(s.loopBody, [], inner, v.scope);
    var end := pt + LenExpr(s.test, v.scope) + 1;
    var tg' := PushLoopTarget(tg, end, pt);
    var b := GenStmt(s.loopBody, base, [], inner, tg', T, v.scope);
    var t := GenExpr(s.test, pt, b.tabs, v.scope);
    var within := out + {Point(base, n), Point(pt, n), Point(end, n)};
    var again := Instr(JumpIfTrue, base);
    StmtRegular(s.loopBody, base, [], inner, tg', T, v.scope, v.user);
    ExprRegular(s.test, pt, b.tabs, v.scope, v.user);
    TargetsWiden(sh, tg, n, out, within);
    TargetsLoop(sh, tg, labels, true, end, pt, n, within);
    StmtFlows(s.loopBody, base, [], inner, tg', T, v, n, within);
    ExprFlows(s.test, pt, b.tabs, v, n, within);
    BranchOne(JumpIfTrue, base, end - 1, n, v.limits, within);
    Join3(b.code, t.code, [again], base, n, n, n + 1, n, within, v.limits);
    Seal(b.code + t.code + [again], base, n, n, {Point(pt, n), Point(end - 1, n + 1)}, within, out, v.limits);
  }

  // ----- for -----

  /** A present clause leaves its value. */
  function ClauseDepth(e: Option<Expr>, n: nat): nat {
    if e.Some? then n + 1 else n
  }

  lemma ClauseFlows(e: Option<Expr>, base: nat, T: Tables, v: View, n: nat, out: set<Point>)
    requires Ready(T, GenClause(e, base, T, v.scope).tabs, v)
    ensures Flows(GenClause(e, base, T, v.scope).code, base, n, ClauseDepth(e, n), {}, out, v.limits)
  {
    hide Flows, GenExpr, Ready;
    if e.Some? {
      ExprFlows(e.value, base, T, v, n, out);
    } else {
      FlowsEmpty(base, n, out, v.limits);
    }
  }

  lemma PopIfFlows(e: Option<Expr>, base: nat, n: nat, out: set<Point>, z: Limits)
    ensures Flows(PopIf(e), base, ClauseDepth(e, n), n, {}, out, z)
  {
    hide Flows;
    FlowsEmpty(base, n, out, z);
    FlowsOne(Bare(Pop), base, n + 1, n, out, z);
  }

  lemma ExitIfFlows(e: Option<Expr>, end: nat, base: nat, n: nat, out: set<Point>, z: Limits)
    requires Point(end, n) in out
    ensures Flows(ExitIf(e, end), base, ClauseDepth(e, n), n, {}, out, z)
  {
    hide Flows;
    FlowsEmpty(base, n, out, z);
    FlowsOne(Instr(JumpIfFalse, end), base, n + 1, n, out, z);
  }

  lemma {:induction false} ForFlows(s: Stmt, base: nat, labels: seq<string>, sh: Shape, tg: Targets, T: Tables, v: View,
                                    n: nat, out: set<Point>)
    requires s.For? && TargetsOut(sh, tg, n, out) && Ready(T, GenFor(s, base, labels, sh, tg, T, v.scope).tabs, v)
    ensures Flows(GenFor(s, base, labels, sh, tg, T, v.scope).code, base, n, n, {}, out, v.limits)
    decreases s, 1
  {
    hide Flows, GenClause, GenForLoop, LenStmt, LenOptional, TargetsOut, Wf, ScopeIn, PopIf, ClauseDepth;
    var i := GenClause(s.init, base, T, v.scope);
    var start := base + |i.code| + |PopIf(s.init)|;
    var l := GenForLoop(s, start, labels, sh, tg, i.tabs, v.scope);
    ClauseRegular(s.init, base, T, v.scope, v.user);
    ForLoopRegular(s, start, labels, sh, tg, i.tabs, v.scope, v.user);
    ClauseFlows(s.init, base, T, v, n, out);
    PopIfFlows(s.init, base + |i.code|, n, out, v.limits);
    ForLoopFlows(s, start, labels, sh, tg, i.tabs, v, n, out);
    Join3(i.code, PopIf(s.init), l.code, base, n, ClauseDepth(s.init, n), n, n, out, v.limits);
  }

  lemma {:induction false} ForLoopFlows(s: Stmt, start: nat, labels: seq<string>, sh: Shape, tg: Targets, T: Tables,
                                        v: View, n: nat, out: set<Point>)
    requires s.For? && TargetsOut(sh, tg, n, out) && Ready(T, GenForLoop(s, start, labels, sh, tg, T, v.scope).tabs, v)
    ensures Flows(GenForLoop(s, start, labels, sh, tg, T, v.scope).code, start, n, n, {}, out, v.limits)
    decreases s, 0
  {
    hide Flows, GenClause, GenStmt, LenStmt, LenOptional, LenClause, TargetsOut, Wf, ScopeIn, PopIf, ExitIf;
    hide ClauseDepth;
    var inner := PushLoop(sh, labels, true);
    var c := GenClause(s.cond, start, T, v.scope);
    var pb := start + |c.code| + |ExitIf(s.cond, 0)|;
    var pu := pb + LenStmt(s.loopBody, [], inner, v.scope);
    var end := pu + LenOptional(s.update, v.scope) + 1;
    var tg' := PushLoopTarget(tg, end, pu);
    var b := GenStmt(s.loopBody, pb, [], inner, tg', c.tabs, v.scope);
    var u := GenClause(s.update, pu, b.tabs, v.scope);
    var within := out + {Point(start, n), Point(pu, n), Point(end, n)};
    var exit, again := ExitIf(s.cond, end), Instr(Jump, start);
    ClauseRegular(s.cond, start, T, v.scope, v.user);
    StmtRegular(s.loopBody, pb, [], inner, tg', c.tabs, v.scope, v.user);
    ClauseRegular(s.update, pu, b.tabs, v.scope, v.user);
    ForSizes(s, end, v.scope);
    TargetsWiden(sh, tg, n, out, within);
    TargetsLoop(sh, tg, labels, true, end, pu, n, within);
    ClauseFlows(s.cond, start, T, v, n, within);
    ExitIfFlows(s.cond, end, start + |c.code|, n, within, v.limits);
    StmtFlows(s.loopBody, pb, [], inner, tg', c.tabs, v, n, within);
    UpdateClauseFlows(s.update, pu, b.tabs, v, n, within);
    JumpOne(start, end - 1, n, n, v.limits, within);
    var update := u.code + PopIf(s.update);
    Join5(c.code, exit, b.code, update, [again], start, n, ClauseDepth(s.cond, n), n, n, n, n, within, v.limits);
    Seal(c.code + exit + b.code + update + [again], start, n, n,
         {Point(start + |c.code|, ClauseDepth(s.cond, n)), Point(pb, n), Point(pu, n), Point(end - 1, n)}, within, out,
         v.limits);
  }

  lemma ForSizes(s: Stmt, end: nat, sc: Scope)
    requires s.For?
    ensures |ExitIf(s.cond, end)| == |ExitIf(s.cond, 0)|
    ensures LenClause(s.update, sc) + |PopIf(s.update)| == LenOptional(s.update, sc)
  {
    hide LenExpr;
  }

  lemma UpdateClauseFlows(e: Option<Expr>, base: nat, T: Tables, v: View, n: nat, out: set<Point>)
    requires Ready(T, GenClause(e, base, T, v.scope).tabs, v)
    ensures Flows(GenClause(e, base, T, v.scope).code + PopIf(e), base, n, n, {}, out, v.limits)
  {
    hide Flows, GenClause, Ready, PopIf, ClauseDepth;
    var u := GenClause(e, base, T, v.scope);
    ClauseFlows(e, base, T, v, n, out);
    PopIfFlows(e, base + |u.code|, n, out, v.limits);
    Join2(u.code, PopIf(e), base, n, ClauseDepth(e, n), n, out, v.limits);
  }

  lemma {:induction false} BlockFlows(body: Stmt, base: nat, all: seq<string>, sh: Shape, tg: Targets, T: Tables,
                                      v: View, n: nat, out: set<Point>)
    requires TargetsOut(sh, tg, n, out) && Ready(T, GenLabeledBlock(body, base, all, sh, tg, T, v.scope).tabs, v)
    ensures Flows(GenLabeledBlock(body, base, all, sh, tg, T, v.scope).code, base, n, n, {}, out, v.limits)
    decreases body, 5
  {
    hide Flows, GenStmt, LenStmt, TargetsOut, Ready;
    var inner := PushBlock(sh, all);
    var end := base + LenStmt(body, [], inner, v.scope);
    var tg' := PushExit(tg, end);
    var within := out + {Point(end, n)};
    StmtRegular(body, base, [], inner, tg', T, v.scope, v.user);
    TargetsWiden(sh, tg, n, out, within);
    TargetsBlock(sh, tg, all, end, n, within);
    StmtFlows(body, base, [], inner, tg', T, v, n, within);
    Seal(GenStmt(body, base, [], inner, tg', T, v.scope).code, base, n, n, {}, within, out, v.limits);
  }

  // ----- switch -----

  /** The starts of the bodies and the end of the last one. */
  ghost function StartPoints(cases: CaseList, pb: nat, n: nat, sh: Shape, sc: Scope): set<Point> {
    match cases
    case CNil => {Point(pb, n)}
    case CCons(c, tail) => {Point(pb, n)} + StartPoints(tail, pb + LenList(c.body, sh, sc), n, sh, sc)
  }

  lemma {:induction false} StartIsPoint(cases: CaseList, i: nat, pb: nat, n: nat, sh: Shape, sc: Scope)
    ensures Point(BodyStart(cases, i, pb, sh, sc), n) in StartPoints(cases, pb, n, sh, sc)
    decreases cases
  {
    hide LenList;
    if cases.CCons? && i > 0 {
      StartIsPoint(cases.tail, i - 1, pb + LenList(cases.head.body, sh, sc), n, sh, sc);
    }
  }

  lemma {:induction false} EndIsPoint(cases: CaseList, pb: nat, n: nat, sh: Shape, sc: Scope)
    ensures Point(pb + LenBodies(cases, sh, sc), n) in StartPoints(cases, pb, n, sh, sc)
    decreases cases
  {
    hide LenList;
    if cases.CCons? {
      EndIsPoint(cases.tail, pb + LenList(cases.head.body, sh, sc), n, sh, sc);
    }
  }

  lemma DefaultIsPoint(cases: CaseList, pb: nat, n: nat, sh: Shape, sc: Scope)
    ensures Point(DefaultStart(cases, pb, pb + LenBodies(cases, sh, sc), sh, sc), n)
            in StartPoints(cases, pb, n, sh, sc)
  {
    hide BodyStart, StartPoints, LenBodies;
    EndIsPoint(cases, pb, n, sh, sc);
    if DefaultIndex(cases, 0).Some? {
      StartIsPoint(cases, DefaultIndex(cases, 0).value, pb, n, sh, sc);
    }
  }

  lemma {:induction false} TestsFlows(cases: CaseList, pc: nat, tmp: nat, pb: nat, sh: Shape, T: Tables, v: View,
                                      n: nat, out: set<Point>)
    requires Ready(T, GenTests(cases, pc, tmp, pb, sh, T, v.scope).tabs, v) && tmp < v.limits.locals
    requires StartPoints(cases, pb, n, sh, v.scope) <= out
    ensures Flows(GenTests(cases, pc, tmp, pb, sh, T, v.scope).code, pc, n, n, {}, out, v.limits)
    decreases cases
  {
    hide Flows, GenExpr, LenList, LenTests, Wf, ScopeIn, StartPoints;
    match cases
    case CNil => FlowsEmpty(pc, n, out, v.limits);
    case CCons(c, tail) =>
      var next := pb + LenList(c.body, sh, v.scope);
      LaterPoints(c, tail, pb, n, sh, v.scope);
      match c.test
      case None => TestsFlows(tail, pc, tmp, next, sh, T, v, n, out);
      case Some(e) =>
        var g := GenExpr(e, pc + 1, T, v.scope);
        var pe := pc + 1 + |g.code|;
        var rest := GenTests(tail, pe + 2, tmp, next, sh, g.tabs, v.scope);
        ExprTables(e, pc + 1, T, v.scope, v.user);
        TestsRegular(tail, pe + 2, tmp, next, sh, g.tabs, v.scope, v.user);
        SlotFlows(tmp, pc, n, v, out);
        ExprFlows(e, pc + 1, T, v, n + 1, out);
        CompareFlows(pe, pb, n, out, v.limits);
        TestsFlows(tail, pe + 2, tmp, next, sh, g.tabs, v, n, out);
        Join4([Instr(LdaLocal, tmp)], g.code, [Bare(BinaryOp(StrictEq)), Instr(JumpIfTrue, pb)], rest.code, pc, n,
              n + 1,
              n + 2, n, n, out, v.limits);
  }

  lemma LaterPoints(c: Case, tail: CaseList, pb: nat, n: nat, sh: Shape, sc: Scope)
    ensures Point(pb, n) in StartPoints(CCons(c, tail), pb, n, sh, sc)
    ensures StartPoints(tail, pb + LenList(c.body, sh, sc), n, sh, sc) <= StartPoints(CCons(c, tail), pb, n, sh, sc)
  {
    hide LenList;
  }

  lemma CompareFlows(pc: nat, body: nat, n: nat, out: set<Point>, z: Limits)
    requires Point(body, n) in out
    ensures Flows([Bare(BinaryOp(StrictEq)), Instr(JumpIfTrue, body)], pc, n + 2, n, {}, out, z)
  {
    hide Flows;
    var a, b := Bare(BinaryOp(StrictEq)), Instr(JumpIfTrue, body);
    FlowsOne(a, pc, n + 2, n + 1, out, z);
    BranchOne(JumpIfTrue, body, pc + 1, n, z, out);
    FlowsTwo(a, b, pc, n + 2, n + 1, n, out, z);
  }

  lemma {:induction false} BodiesFlow(cases: CaseList, base: nat, sh: Shape, tg: Targets, T: Tables, v: View, n: nat,
                                      out: set<Point>)
    requires TargetsOut(sh, tg, n, out) && Ready(T, GenBodies(cases, base, sh, tg, T, v.scope).tabs, v)
    ensures Flows(GenBodies(cases, base, sh, tg, T, v.scope).code, base, n, n,
                  StartPoints(cases, base, n, sh, v.scope), out, v.limits)
    decreases cases, 0
  {
    hide Flows, GenList, LenList, LenBodies, TargetsOut, Wf, ScopeIn;
    match cases
    case CNil => EmptyMarked(base, n, out, v.limits);
    case CCons(c, tail) =>
      var a := GenList(c.body, base, sh, tg, T, v.scope);
      var pb := base + |a.code|;
      var b := GenBodies(tail, pb, sh, tg, a.tabs, v.scope);
      var starts := StartPoints(tail, pb, n, sh, v.scope);
      ListRegular(c.body, base, sh, tg, T, v.scope, v.user);
      BodiesRegular(tail, pb, sh, tg, a.tabs, v.scope, v.user);
      ListFlows(c.body, base, sh, tg, T, v, n, out);
      BodiesFlow(tail, pb, sh, tg, a.tabs, v, n, out);
      Join(a.code, b.code, base, n, n, n, {}, starts, out, v.limits);
      Remark(a.code + b.code, base, n, n, {} + starts + {Point(pb, n)}, {Point(base, n)} + starts, out, v.limits);
  }

  lemma EmptyMarked(base: nat, n: nat, out: set<Point>, z: Limits)
    ensures Flows([], base, n, n, {Point(base, n)}, out, z)
  {
    var ds := [n];
    assert Depths(ds, [], base, out, z) && Marked(ds, base, {Point(base, n)});
  }

  /** The entry is a mark as well. */
  lemma Remark(code: seq<Instr>, base: nat, n: nat, m: nat, marks: set<Point>, more: set<Point>, out: set<Point>,
               z: Limits)
    requires Flows(code, base, n, m, marks, out, z) && more <= marks + {Point(base, n)}
    ensures Flows(code, base, n, m, more, out, z)
  {
    hide Depths;
    var ds :|
      |ds| == |code| + 1 && Depths(ds, code, base, out, z) && ds[0] == n && ds[|code|] == m && Marked(ds, base, marks);
    assert Marked(ds, base, more);
  }

  lemma {:induction false} SwitchFlows(s: Stmt, base: nat, sh: Shape, tg: Targets, T: Tables, v: View, n: nat,
                                       out: set<Point>)
    requires s.Switch? && TargetsOut(sh, tg, n, out) && Ready(T, GenSwitch(s, base, sh, tg, T, v.scope).tabs, v)
    ensures Flows(GenSwitch(s, base, sh, tg, T, v.scope).code, base, n, n, {}, out, v.limits)
    decreases s, 0
  {
    hide Flows, GenExpr, GenTests, GenBodies, LenTests, LenBodies, LenExpr, TargetsOut, Wf, ScopeIn, StartPoints;
    hide DefaultStart;
    var inner := PushLoop(sh, [], false);
    var d := GenExpr(s.disc, base, T, v.scope);
    var tmp := InternLocal(SwitchDisc, d.tabs);
    var pt := base + |d.code| + 1;
    var pb := pt + LenTests(s.cases, v.scope) + 1;
    var end := pb + LenBodies(s.cases, inner, v.scope);
    var tg' := PushLoopTarget(tg, end, end);
    var c := GenTests(s.cases, pt, tmp.index, pb, inner, tmp.tabs, v.scope);
    var b := GenBodies(s.cases, pb, inner, tg', c.tabs, v.scope);
    var starts := StartPoints(s.cases, pb, n, inner, v.scope);
    var within := out + starts;
    var store, pick := Instr(StaLocal, tmp.index), Instr(Jump, DefaultStart(s.cases, pb, end, inner, v.scope));
    ExprRegular(s.disc, base, T, v.scope, v.user);
    InternLocalKeeps(SwitchDisc, d.tabs, v.user);
    TestsRegular(s.cases, pt, tmp.index, pb, inner, tmp.tabs, v.scope, v.user);
    BodiesRegular(s.cases, pb, inner, tg', c.tabs, v.scope, v.user);
    DefaultIsPoint(s.cases, pb, n, inner, v.scope);
    EndIsPoint(s.cases, pb, n, inner, v.scope);
    TargetsWiden(sh, tg, n, out, within);
    TargetsLoop(sh, tg, [], false, end, end, n, within);
    ExprFlows(s.disc, base, T, v, n, within);
    SlotFlows(tmp.index, pt - 1, n, v, within);
    TestsFlows(s.cases, pt, tmp.index, pb, inner, tmp.tabs, v, n, within);
    JumpOne(pick.operand, pb - 1, n, n, v.limits, within);
    Join4(d.code, [store], c.code, [pick], base, n, n + 1, n, n, n, within, v.limits);
    BodiesFlow(s.cases, pb, inner, tg', c.tabs, v, n, within);
    var head := d.code + [store] + c.code + [pick];
    Join(head, b.code, base, n, n, n, {}, starts, within, v.limits);
    Seal(head + b.code, base, n, n, {} + starts + {Point(pb, n)}, within, out, v.limits);
  }

  // ----- functions and scripts -----

  /** A function body needs an empty stack and leaves one. */
  lemma FunctionFlows(body: StmtList, T: Tables, v: View)
    requires Ready(T, GenFunction(body, T, v.scope).tabs, v)
    ensures Flows(GenFunction(body, T, v.scope).code, 0, 0, 0, {}, {}, v.limits)
  {
    hide Flows, GenList, Ready;
    var g := GenList(body, 0, NoShape, NoTargets, T, v.scope);
    ListFlows(body, 0, NoShape, NoTargets, T, v, 0, {});
    ReturnFlows(|g.code|, 0, {}, v.limits);
    Join2(g.code, [Bare(LdaUndefined), Bare(ReturnOp)], 0, 0, 0, 0, {}, v.limits);
  }

  /** Expression statements at top level, each of which leaves its value. */
  function Values(ss: StmtList): nat {
    match ss
    case SNil => 0
    case SCons(s, tail) => (if s.ExprStmt? then 1 else 0) + Values(tail)
  }

  lemma {:induction false} TopFlows(ss: StmtList, base: nat, T: Tables, v: View, n: nat)
    requires Ready(T, GenTop(ss, base, T, v.scope).tabs, v)
    ensures Flows(GenTop(ss, base, T, v.scope).code, base, n, n + Values(ss), {}, {}, v.limits)
    decreases ss
  {
    hide Flows, GenExpr, GenStmt, Wf, ScopeIn;
    match ss
    case SNil => FlowsEmpty(base, n, {}, v.limits);
    case SCons(s, tail) =>
      if s.ExprStmt? {
        var a := GenExpr(s.expr, base, T, v.scope);
        var b := GenTop(tail, base + |a.code|, a.tabs, v.scope);
        ExprTables(s.expr, base, T, v.scope, v.user);
        TopTables(tail, base + |a.code|, a.tabs, v.scope, v.user);
        ExprFlows(s.expr, base, T, v, n, {});
        TopFlows(tail, base + |a.code|, a.tabs, v, n + 1);
        Join2(a.code, b.code, base, n, n + 1, n + 1 + Values(tail), {}, v.limits);
      } else {
        var a := GenStmt(s, base, [], NoShape, NoTargets, T, v.scope);
        var b := GenTop(tail, base + |a.code|, a.tabs, v.scope);
        StmtRegular(s, base, [], NoShape, NoTargets, T, v.scope, v.user);
        TopTables(tail, base + |a.code|, a.tabs, v.scope, v.user);
        StmtFlows(s, base, [], NoShape, NoTargets, T, v, n, {});
        TopFlows(tail, base + |a.code|, a.tabs, v, n);
        Join2(a.code, b.code, base, n, n, n + Values(tail), {}, v.limits);
      }
  }

  lemma ScriptFlows(body: StmtList, T: Tables, v: View)
    requires Ready(T, GenScript(body, T, v.scope).tabs, v)
    ensures Flows(GenScript(body, T, v.scope).code, 0, 0, 0, {}, {}, v.limits)
  {
    hide Flows, GenTop, Ready;
    var g := GenTop(body, 0, T, v.scope);
    TopFlows(body, 0, T, v, 0);
    FlowsOne(Bare(ReturnOp), |g.code|, Values(body), 0, {}, v.limits);
    Join2(g.code, [Bare(ReturnOp)], 0, 0, Values(body), 0, {}, v.limits);
  }
}
