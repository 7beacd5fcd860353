/** Compiled statements do what the source statement does: a statement that
    completes brings the machine to the matching place with the same
    environment and the same operand stack, and one that is still looping
    keeps the machine running. */
module StmtCorrect {
  import opened Syntax
  import opened Machine
  import opened Semantics
  import opened CodeGen
  import opened Execution
  import opened Lengths
  import opened ExprCorrect
  import opened StmtGen
  import opened StmtFacts
  import opened JumpTargets
  import opened StmtOutcome

  lemma {:induction false} StmtRuns<E>(s: Stmt, base: nat, labels: seq<string>, sh: Shape, tg: Targets, T: Tables,
                                       x: Ctx<E>, a: State<E>, st: seq<Value>, t: Temps, env: E, fuel: nat)
    returns (t': Temps)
    requires (labels != [] ==> PassesLabels(s)) && StmtPlaced(x, GenStmt(s, base, labels, sh, tg, T, x.sc), base, T)
    requires Fits(sh, tg) && JumpsOk(s, labels, sh)
    requires Goes(x, a, Running(Config(base, st, t, env)))
    ensures Ends(Exec(s, labels, x.sc, x.h, env, fuel), x, a,
                 base + |GenStmt(s, base, labels, sh, tg, T, x.sc).code|, labels, sh, tg, st, t', fuel)
    decreases fuel, s, 6
  {
    hide At, Wf, Agree, Goes, Sound, GenExpr, EvalExpr;
    hide GenIf, GenIfElse, GenWhile, GenDo, GenFor, GenSwitch, GenList;
    t' := t;
    match s
    case Empty =>
    case Block(body) => t' := ListRuns(body, base, sh, tg, T, x, a, st, t, env, fuel);
    case ExprStmt(_) => t' := SimpleRuns(s, base, labels, sh, tg, T, x, a, st, t, env, fuel);
    case Return(_) => t' := SimpleRuns(s, base, labels, sh, tg, T, x, a, st, t, env, fuel);
    case ThrowStmt(_) => t' := SimpleRuns(s, base, labels, sh, tg, T, x, a, st, t, env, fuel);
    case If(_, _, None) => t' := IfRuns(s, base, sh, tg, T, x, a, st, t, env, fuel);
    case If(_, _, Some(_)) => t' := IfElseRuns(s, base, sh, tg, T, x, a, st, t, env, fuel);
    case While(_, _) => t' := WhileRuns(s, base, labels, sh, tg, T, x, a, st, t, env, fuel);
    case DoWhile(_, _) => t' := DoRuns(s, base, labels, sh, tg, T, x, a, st, t, env, fuel);
    case For(_, _, _, _) => t' := ForRuns(s, base, labels, sh, tg, T, x, a, st, t, env, fuel);
    case Switch(_, _) => t' := SwitchRuns(s, base, sh, tg, T, x, a, st, t, env, fuel);
    case Break(l) => BreakRuns(s, base, labels, sh, tg, T, x, a, st, t, env, fuel);
    case Continue(l) => BreakRuns(s, base, labels, sh, tg, T, x, a, st, t, env, fuel);
    case Labeled(_, _) => t' := LabeledRuns(s, base, labels, sh, tg, T, x, a, st, t, env, fuel);
  }

  /** `return;` */
  lemma ReturnRuns<E>(base: nat, x: Ctx<E>, a: State<E>, st: seq<Value>, t: Temps, env: E)
    requires At(x.f.code, base, [Bare(LdaUndefined), Bare(ReturnOp)])
    requires Goes(x, a, Running(Config(base, st, t, env)))
    ensures Goes(x, a, Halted(Returned(Undefined, env)))
  {
    hide At, Goes;
    assert [Bare(LdaUndefined), Bare(ReturnOp)] == [Bare(LdaUndefined)] + [Bare(ReturnOp)];
    AtSplit(x.f.code, base, [Bare(LdaUndefined)], [Bare(ReturnOp)]);
    ExecPush(x, a, base, st, t, env, Bare(LdaUndefined), Undefined);
    Peel(st, Undefined);
    ThenExec(x, a, Config(base + 1, st + [Undefined], t, env), Bare(ReturnOp));
  }

  /** What an instruction that takes the value of a statement's expression
      leaves behind. */
  function Consumed<E>(o: Outcome<E>, last: Opcode, next: nat, st: seq<Value>, t: Temps): State<E>
    requires last.Pop? || last.ReturnOp? || last.ThrowOp?
  {
    match o
    case Thrown(v, env) => Halted(Threw(v, env))
    case Ok(v, env) =>
      if last.ReturnOp? then Halted(Returned(v, env))
      else if last.ThrowOp? then Halted(Threw(v, env))
      else Running(Config(next, st, t, env))
  }

  lemma ConsumeRuns<E>(e: Expr, last: Opcode, base: nat, T: Tables, x: Ctx<E>, a: State<E>, st: seq<Value>, t: Temps,
                       env: E)
    returns (t': Temps)
    requires last.Pop? || last.ReturnOp? || last.ThrowOp?
    requires Placed(x, GenExpr(e, base, T, x.sc), base, T)
    requires At(x.f.code, base + |GenExpr(e, base, T, x.sc).code|, [Bare(last)])
    requires Goes(x, a, Running(Config(base, st, t, env)))
    ensures Goes(x, a, Consumed(EvalExpr(e, x.sc, x.h, env), last, base + |GenExpr(e, base, T, x.sc).code| + 1, st, t'))
  {
    hide At, Wf, Agree, Sound, Goes, GenExpr, EvalExpr;
    t' := ExprRuns(e, base, T, x, a, st, t, env);
    match EvalExpr(e, x.sc, x.h, env)
    case Thrown(_, _) =>
    case Ok(v, env1) =>
      Peel(st, v);
      ThenExec(x, a, Config(base + |GenExpr(e, base, T, x.sc).code|, st + [v], t', env1), Bare(last));
  }

  lemma SimpleRuns<E>(s: Stmt, base: nat, labels: seq<string>, sh: Shape, tg: Targets, T: Tables, x: Ctx<E>,
                      a: State<E>, st: seq<Value>, t: Temps, env: E, fuel: nat)
    returns (t': Temps)
    requires s.ExprStmt? || s.Return? || s.ThrowStmt?
    requires StmtPlaced(x, GenStmt(s, base, labels, sh, tg, T, x.sc), base, T)
    requires Goes(x, a, Running(Config(base, st, t, env)))
    ensures Ends(Exec(s, labels, x.sc, x.h, env, fuel), x, a,
                 base + |GenStmt(s, base, labels, sh, tg, T, x.sc).code|, labels, sh, tg, st, t', fuel)
  {
    hide At, Wf, Agree, Sound, Goes, GenExpr, EvalExpr, BreakAddr, ContinueAddr;
    t' := t;
    if s == Return(None) {
      ReturnRuns(base, x, a, st, t, env);
    } else {
      var e := if s.Return? then s.arg.value else s.expr;
      var last := if s.Return? then ReturnOp else if s.ThrowStmt? then ThrowOp else Pop;
      AtSplit(x.f.code, base, GenExpr(e, base, T, x.sc).code, [Bare(last)]);
      t' := ConsumeRuns(e, last, base, T, x, a, st, t, env);
    }
  }

  lemma BreakRuns<E>(s: Stmt, base: nat, labels: seq<string>, sh: Shape, tg: Targets, T: Tables, x: Ctx<E>,
                     a: State<E>, st: seq<Value>, t: Temps, env: E, fuel: nat)
    requires (s.Break? || s.Continue?) && labels == []
    requires StmtPlaced(x, GenStmt(s, base, labels, sh, tg, T, x.sc), base, T)
    requires JumpsOk(s, labels, sh)
    requires Goes(x, a, Running(Config(base, st, t, env)))
    ensures Ends(Exec(s, labels, x.sc, x.h, env, fuel), x, a,
                 base + |GenStmt(s, base, labels, sh, tg, T, x.sc).code|, labels, sh, tg, st, t, fuel)
  {
    hide At, Wf, Goes, Sound;
    var slot := if s.Break? then FindBreak(sh, s.jumpLabel) else FindContinue(sh, s.jumpLabel);
    ExecJump(x, a, base, st, t, env, Addr(tg, slot.value));
  }

  lemma {:induction false} ListRuns<E>(ss: StmtList, base: nat, sh: Shape, tg: Targets, T: Tables, x: Ctx<E>,
                                       a: State<E>, st: seq<Value>, t: Temps, env: E, fuel: nat)
    returns (t': Temps)
    requires StmtPlaced(x, GenList(ss, base, sh, tg, T, x.sc), base, T)
    requires Fits(sh, tg) && ListJumpsOk(ss, sh)
    requires Goes(x, a, Running(Config(base, st, t, env)))
    ensures Ends(ExecList(ss, x.sc, x.h, env, fuel), x, a,
                 base + |GenList(ss, base, sh, tg, T, x.sc).code|, [], sh, tg, st, t', fuel)
    decreases fuel, ss, 0
  {
    hide At, Wf, Goes, Sound, GenStmt, Exec, Ends, Fits, JumpsOk;
    t' := t;
    match ss
    case SNil => EndsNormal(env, x, a, base, sh, tg, st, t, fuel);
    case SCons(s, tail) =>
      var g := GenStmt(s, base, [], sh, tg, T, x.sc);
      var mid := base + |g.code|;
      var rest := GenList(tail, mid, sh, tg, g.tabs, x.sc);
      StmtRegular(s, base, [], sh, tg, T, x.sc, x.f.userSlots);
      ListRegular(tail, mid, sh, tg, g.tabs, x.sc, x.f.userSlots);
      AtSplit(x.f.code, base, g.code, rest.code);
      t' := StmtRuns(s, base, [], sh, tg, T, x, a, st, t, env, fuel);
      match Exec(s, [], x.sc, x.h, env, fuel)
      case Done(Normal, env1) =>
        EndsNormal(env1, x, a, mid, sh, tg, st, t', fuel);
        t' := ListRuns(tail, mid, sh, tg, g.tabs, x, a, st, t', env1, fuel);
      case r => EndsAbrupt(r, x, a, mid, mid + |rest.code|, sh, tg, st, t', fuel);
  }

  lemma {:induction false} IfRuns<E>(s: Stmt, base: nat, sh: Shape, tg: Targets, T: Tables, x: Ctx<E>,
                           a: State<E>, st: seq<Value>, t: Temps, env: E, fuel: nat)
    returns (t': Temps)
    requires s.If? && s.alt.None? && StmtPlaced(x, GenIf(s, base, sh, tg, T, x.sc), base, T)
    requires Fits(sh, tg) && JumpsOk(s, [], sh)
    requires Goes(x, a, Running(Config(base, st, t, env)))
    ensures Ends(Exec(s, [], x.sc, x.h, env, fuel), x, a,
                 base + |GenIf(s, base, sh, tg, T, x.sc).code|, [], sh, tg, st, t', fuel)
    decreases fuel, s, 0
  {
    hide At, Wf, Goes, Agree, Sound, GenStmt, GenExpr, EvalExpr, BreakAddr, ContinueAddr;
    var g := GenExpr(s.test, base, T, x.sc);
    var pc := base + |g.code|;
    var c := GenStmt(s.cons, pc + 1, [], sh, tg, g.tabs, x.sc);
    ExprTables(s.test, base, T, x.sc, x.f.userSlots);
    StmtRegular(s.cons, pc + 1, [], sh, tg, g.tabs, x.sc, x.f.userSlots);
    AtSplit3(x.f.code, base, g.code, [Instr(JumpIfFalse, pc + 1 + |c.code|)], c.code);
    t' := ExprRuns(s.test, base, T, x, a, st, t, env);
    match EvalExpr(s.test, x.sc, x.h, env)
    case Thrown(_, _) =>
    case Ok(v, env1) =>
      ExecBranch(x, a, pc, st, v, t', env1, Instr(JumpIfFalse, pc + 1 + |c.code|));
      if Truthy(v) {
        t' := StmtRuns(s.cons, pc + 1, [], sh, tg, g.tabs, x, a, st, t', env1, fuel);
      }
  }

  lemma {:induction false} IfElseRuns<E>(s: Stmt, base: nat, sh: Shape, tg: Targets, T: Tables, x: Ctx<E>,
                           a: State<E>, st: seq<Value>, t: Temps, env: E, fuel: nat)
    returns (t': Temps)
    requires s.If? && s.alt.Some? && StmtPlaced(x, GenIfElse(s, base, sh, tg, T, x.sc), base, T)
    requires Fits(sh, tg) && JumpsOk(s, [], sh)
    requires Goes(x, a, Running(Config(base, st, t, env)))
    ensures Ends(Exec(s, [], x.sc, x.h, env, fuel), x, a,
                 base + |GenIfElse(s, base, sh, tg, T, x.sc).code|, [], sh, tg, st, t', fuel)
    decreases fuel, s, 0
  {
    hide At, Wf, Goes, Agree, Sound, GenStmt, GenExpr, EvalExpr, BreakAddr, ContinueAddr;
    var g := GenExpr(s.test, base, T, x.sc);
    var pc := base + |g.code|;
    var c := GenStmt(s.cons, pc + 1, [], sh, tg, g.tabs, x.sc);
    var mid := pc + 1 + |c.code| + 1;
    var d := GenStmt(s.alt.value, mid, [], sh, tg, c.tabs, x.sc);
    ExprTables(s.test, base, T, x.sc, x.f.userSlots);
    StmtRegular(s.cons, pc + 1, [], sh, tg, g.tabs, x.sc, x.f.userSlots);
    StmtRegular(s.alt.value, mid, [], sh, tg, c.tabs, x.sc, x.f.userSlots);
    AtSplit5(x.f.code, base, g.code, [Instr(JumpIfFalse, mid)], c.code, [Instr(Jump, mid + |d.code|)], d.code);
    t' := ExprRuns(s.test, base, T, x, a, st, t, env);
    match EvalExpr(s.test, x.sc, x.h, env)
    case Thrown(_, _) =>
    case Ok(v, env1) =>
      ExecBranch(x, a, pc, st, v, t', env1, Instr(JumpIfFalse, mid));
      if Truthy(v) {
        t' := StmtRuns(s.cons, pc + 1, [], sh, tg, g.tabs, x, a, st, t', env1, fuel);
        SkipElse(Exec(s.cons, [], x.sc, x.h, env1, fuel), x, a, mid - 1, mid + |d.code|, sh, tg, st, t', fuel);
      } else {
        t' := StmtRuns(s.alt.value, mid, [], sh, tg, c.tabs, x, a, st, t', env1, fuel);
      }
  }

  /** A branch that completes normally jumps over the other one. */
  lemma SkipElse<E>(r: StmtResult<E>, x: Ctx<E>, a: State<E>, pc: nat, end: nat, sh: Shape, tg: Targets,
                    st: seq<Value>, t: Temps, fuel: nat)
    requires At(x.f.code, pc, [Instr(Jump, end)])
    requires Ends(r, x, a, pc, [], sh, tg, st, t, fuel)
    ensures Ends(r, x, a, end, [], sh, tg, st, t, fuel)
  {
    hide At, BreakAddr, ContinueAddr;
    match r
    case Done(Normal, env) => ExecJump(x, a, pc, st, t, env, end);
    case _ =>
  }

  lemma {:induction false} LabeledRuns<E>(s: Stmt, base: nat, labels: seq<string>, sh: Shape, tg: Targets, T: Tables,
                                          x: Ctx<E>, a: State<E>, st: seq<Value>, t: Temps, env: E, fuel: nat)
    returns (t': Temps)
    requires s.Labeled? && StmtPlaced(x, GenStmt(s, base, labels, sh, tg, T, x.sc), base, T)
    requires Fits(sh, tg) && JumpsOk(s, labels, sh)
    requires Goes(x, a, Running(Config(base, st, t, env)))
    ensures Ends(Exec(s, labels, x.sc, x.h, env, fuel), x, a,
                 base + |GenStmt(s, base, labels, sh, tg, T, x.sc).code|, labels, sh, tg, st, t', fuel)
    decreases fuel, s, 5
  {
    hide At, Wf, Goes, Sound, Ends;
    var all := labels + [s.name];
    var body := s.labeled;
    var end := base + |GenStmt(s, base, labels, sh, tg, T, x.sc).code|;
    if PassesLabels(body) {
      t' := StmtRuns(body, base, all, sh, tg, T, x, a, st, t, env, fuel);
    } else {
      var inner := PushBlock(sh, all);
      var tg' := PushExit(tg, base + LenStmt(body, [], inner, x.sc));
      StmtRegular(body, base, [], inner, tg', T, x.sc, x.f.userSlots);
      t' := StmtRuns(body, base, [], inner, tg', T, x, a, st, t, env, fuel);
      LabelsIgnored(body, all, x.sc, x.h, env, fuel);
      LeaveBlock(Exec(body, [], x.sc, x.h, env, fuel), x, a, end, all, sh, tg, st, t', fuel);
    }
    LeaveLabel(Exec(body, all, x.sc, x.h, env, fuel), s.name, x, a, end, labels, sh, tg, st, t', fuel);
  }

  lemma {:induction false} WhileRuns<E>(s: Stmt, base: nat, labels: seq<string>, sh: Shape, tg: Targets, T: Tables,
                                        x: Ctx<E>, a: State<E>, st: seq<Value>, t: Temps, env: E, fuel: nat)
    returns (t': Temps)
    requires s.While? && StmtPlaced(x, GenWhile(s, base, labels, sh, tg, T, x.sc), base, T)
    requires Fits(sh, tg) && JumpsOk(s, labels, sh)
    requires Goes(x, a, Running(Config(base, st, t, env)))
    ensures Ends(Exec(s, labels, x.sc, x.h, env, fuel), x, a,
                 base + |GenWhile(s, base, labels, sh, tg, T, x.sc).code|, labels, sh, tg, st, t', fuel)
    decreases fuel, s, 4
  {
    hide At, Wf, Sound, GenWhile, ExecWhile, Ends;
    var c0 := Running(Config(base, st, t, env));
    t' := WhileLoop(s, base, labels, sh, tg, T, x, st, t, env, fuel);
    EndsFrom(Exec(s, labels, x.sc, x.h, env, fuel), x, a, c0,
             base + |GenWhile(s, base, labels, sh, tg, T, x.sc).code|, labels, sh, tg, st, t', fuel);
  }

  lemma {:induction false} WhileLoop<E>(s: Stmt, base: nat, labels: seq<string>, sh: Shape, tg: Targets, T: Tables,
                                        x: Ctx<E>, st: seq<Value>, t: Temps, env: E, fuel: nat)
    returns (t': Temps)
    requires s.While? && StmtPlaced(x, GenWhile(s, base, labels, sh, tg, T, x.sc), base, T)
    requires Fits(sh, tg) && JumpsOk(s, labels, sh)
    ensures Ends(AbsorbBreak(ExecWhile(s.test, s.loopBody, labels, x.sc, x.h, env, fuel)), x,
                 Running(Config(base, st, t, env)),
                 base + |GenWhile(s, base, labels, sh, tg, T, x.sc).code|, labels, sh, tg, st, t', fuel)
    decreases fuel, s, 3
  {
    hide At, Wf, Goes, Agree, Sound, GenStmt, GenExpr, EvalExpr, Exec, BreakAddr, ContinueAddr;
    t' := t;
    if fuel == 0 {
      return;
    }
    var c0 := Running(Config(base, st, t, env));
    var inner := PushLoop(sh, labels, true);
    var g := GenExpr(s.test, base, T, x.sc);
    var pb := base + |g.code| + 1;
    var end := pb + LenStmt(s.loopBody, [], inner, x.sc) + 1;
    var tg' := PushLoopTarget(tg, end, base);
    var b := GenStmt(s.loopBody, pb, [], inner, tg', g.tabs, x.sc);
    ExprTables(s.test, base, T, x.sc, x.f.userSlots);
    StmtRegular(s.loopBody, pb, [], inner, tg', g.tabs, x.sc, x.f.userSlots);
    AtSplit4(x.f.code, base, g.code, [Instr(JumpIfFalse, end)], b.code, [Instr(Jump, base)]);
    ReachesSelf(x.f, x.h, c0);
    SelfGoes(x, c0);
    t' := ExprRuns(s.test, base, T, x, c0, st, t, env);
    match EvalExpr(s.test, x.sc, x.h, env)
    case Thrown(_, _) =>
    case Ok(v, env1) =>
      if !Truthy(v) {
        ExecBranch(x, c0, pb - 1, st, v, t', env1, Instr(JumpIfFalse, end));
      } else {
        t' := WhileBody(s, base, labels, sh, tg, T, x, st, t, env, v, t', env1, fuel);
      }
  }

  lemma SelfGoes<E>(x: Ctx<E>, a: State<E>)
    ensures Goes(x, a, a)
  {
    ReachesSelf(x.f, x.h, a);
  }

  /** From a true test on: the body, and what follows it. */
  lemma {:induction false} WhileBody<E>(s: Stmt, base: nat, labels: seq<string>, sh: Shape, tg: Targets, T: Tables,
                                        x: Ctx<E>, st: seq<Value>, t: Temps, env: E, v: Value, t1: Temps, env1: E,
                                        fuel: nat)
    returns (t': Temps)
    requires s.While? && StmtPlaced(x, GenWhile(s, base, labels, sh, tg, T, x.sc), base, T)
    requires Fits(sh, tg) && JumpsOk(s, labels, sh)
    requires fuel > 0 && EvalExpr(s.test, x.sc, x.h, env) == Ok(v, env1) && Truthy(v)
    requires Goes(x, Running(Config(base, st, t, env)),
                  Running(Config(base + |GenExpr(s.test, base, T, x.sc).code|, st + [v], t1, env1)))
    ensures Ends(AbsorbBreak(ExecWhile(s.test, s.loopBody, labels, x.sc, x.h, env, fuel)), x,
                 Running(Config(base, st, t, env)),
                 base + |GenWhile(s, base, labels, sh, tg, T, x.sc).code|, labels, sh, tg, st, t', fuel)
    decreases fuel, s, 2
  {
    hide At, Wf, Goes, Agree, Sound, GenStmt, GenExpr, EvalExpr, Exec, BreakAddr, ContinueAddr, Ends;
    var c0 := Running(Config(base, st, t, env));
    var a1 := Step(x.f, x.h, c0);
    var inner := PushLoop(sh, labels, true);
    var g := GenExpr(s.test, base, T, x.sc);
    var pb := base + |g.code| + 1;
    var end := pb + LenStmt(s.loopBody, [], inner, x.sc) + 1;
    var tg' := PushLoopTarget(tg, end, base);
    var b := GenStmt(s.loopBody, pb, [], inner, tg', g.tabs, x.sc);
    ExprTables(s.test, base, T, x.sc, x.f.userSlots);
    StmtRegular(s.loopBody, pb, [], inner, tg', g.tabs, x.sc, x.f.userSlots);
    AtSplit4(x.f.code, base, g.code, [Instr(JumpIfFalse, end)], b.code, [Instr(Jump, base)]);
    Strict(x, c0, Running(Config(pb - 1, st + [v], t1, env1)));
    ExecBranch(x, a1, pb - 1, st, v, t1, env1, Instr(JumpIfFalse, end));
    t' := StmtRuns(s.loopBody, pb, [], inner, tg', g.tabs, x, a1, st, t1, env1, fuel);
    var r := Exec(s.loopBody, [], x.sc, x.h, env1, fuel);
    OneStep(x, c0);
    if r.Timeout? {
      TimeoutAny(x, a1, pb + |b.code|, [], inner, tg', end, labels, sh, tg, st, t', fuel);
      EndsFrom(r, x, c0, a1, end, labels, sh, tg, st, t', fuel);
    } else if !LoopContinues(r.completion, labels) {
      LeaveLoop(r.completion, r.env, x, a1, pb + |b.code|, labels, true, end, base, sh, tg, st, t', fuel);
      EndsFrom(AbsorbBreak(r), x, c0, a1, end, labels, sh, tg, st, t', fuel);
    } else {
      StayInLoop(r.completion, r.env, x, a1, pb + |b.code|, labels, end, base, sh, tg, st, t', fuel);
      if r.completion.Normal? {
        ExecJump(x, a1, pb + |b.code|, st, t', r.env, base);
      }
      var t2 := t';
      t' := WhileLoop(s, base, labels, sh, tg, T, x, st, t2, r.env, fuel - 1);
      EndsAfterIteration(AbsorbBreak(ExecWhile(s.test, s.loopBody, labels, x.sc, x.h, r.env, fuel - 1)), x, c0,
                         Running(Config(base, st, t2, r.env)), end, labels, sh, tg, st, t', fuel);
    }
  }

  lemma OneStep<E>(x: Ctx<E>, a: State<E>)
    ensures Goes(x, a, Step(x.f, x.h, a))
  {
    SelfGoes(x, Step(x.f, x.h, a));
    StepThen(x.f, x.h, a, Step(x.f, x.h, a));
  }

  lemma TimeoutAny<E>(x: Ctx<E>, a: State<E>, end: nat, labels: seq<string>, sh: Shape, tg: Targets,
                      end': nat, labels': seq<string>, sh': Shape, tg': Targets, st: seq<Value>, t: Temps, fuel: nat)
    requires Ends(Timeout, x, a, end, labels, sh, tg, st, t, fuel)
    ensures Ends(Timeout, x, a, end', labels', sh', tg', st, t, fuel)
  {
  }

  lemma {:induction false} DoRuns<E>(s: Stmt, base: nat, labels: seq<string>, sh: Shape, tg: Targets, T: Tables,
                                     x: Ctx<E>, a: State<E>, st: seq<Value>, t: Temps, env: E, fuel: nat)
    returns (t': Temps)
    requires s.DoWhile? && StmtPlaced(x, GenDo(s, base, labels, sh, tg, T, x.sc), base, T)
    requires Fits(sh, tg) && JumpsOk(s, labels, sh)
    requires Goes(x, a, Running(Config(base, st, t, env)))
    ensures Ends(Exec(s, labels, x.sc, x.h, env, fuel), x, a,
                 base + |GenDo(s, base, labels, sh, tg, T, x.sc).code|, labels, sh, tg, st, t', fuel)
    decreases fuel, s, 4
  {
    hide At, Wf, Sound, GenDo, ExecDo, Ends;
    t' := DoLoop(s, base, labels, sh, tg, T, x, st, t, env, fuel);
    EndsFrom(Exec(s, labels, x.sc, x.h, env, fuel), x, a, Running(Config(base, st, t, env)),
             base + |GenDo(s, base, labels, sh, tg, T, x.sc).code|, labels, sh, tg, st, t', fuel);
  }

  lemma {:induction false} DoLoop<E>(s: Stmt, base: nat, labels: seq<string>, sh: Shape, tg: Targets, T: Tables,
                                     x: Ctx<E>, st: seq<Value>, t: Temps, env: E, fuel: nat)
    returns (t': Temps)
    requires s.DoWhile? && StmtPlaced(x, GenDo(s, base, labels, sh, tg, T, x.sc), base, T)
    requires Fits(sh, tg) && JumpsOk(s, labels, sh)
    ensures Ends(AbsorbBreak(ExecDo(s.loopBody, s.test, labels, x.sc, x.h, env, fuel)), x,
                 Running(Config(base, st, t, env)),
                 base + |GenDo(s, base, labels, sh, tg, T, x.sc).code|, labels, sh, tg, st, t', fuel)
    decreases fuel, s, 3
  {
    hide At, Wf, Goes, Agree, Sound, GenStmt, GenExpr, EvalExpr, Exec, BreakAddr, ContinueAddr, Ends;
    t' := t;
    var c0 := Running(Config(base, st, t, env));
    var inner := PushLoop(sh, labels, true);
    var pt := base + LenStmt(s.loopBody, [], inner, x.sc);
    var end := pt + LenExpr(s.test, x.sc) + 1;
    var tg' := PushLoopTarget(tg, end, pt);
    var b := GenStmt(s.loopBody, base, [], inner, tg', T, x.sc);
    var g := GenExpr(s.test, pt, b.tabs, x.sc);
    StmtRegular(s.loopBody, base, [], inner, tg', T, x.sc, x.f.userSlots);
    ExprRegular(s.test, pt, b.tabs, x.sc, x.f.userSlots);
    AtSplit3(x.f.code, base, b.code, g.code, [Instr(JumpIfTrue, base)]);
    if fuel == 0 {
      EndsTimeout(Timeout, x, c0, end, labels, sh, tg, st, t', fuel);
      return;
    }
    SelfGoes(x, c0);
    t' := StmtRuns(s.loopBody, base, [], inner, tg', T, x, c0, st, t, env, fuel);
    var r := Exec(s.loopBody, [], x.sc, x.h, env, fuel);
    if r.Timeout? {
      TimeoutAny(x, c0, pt, [], inner, tg', end, labels, sh, tg, st, t', fuel);
    } else if !LoopContinues(r.completion, labels) {
      LeaveLoop(r.completion, r.env, x, c0, pt, labels, true, end, pt, sh, tg, st, t', fuel);
    } else {
      StayInLoop(r.completion, r.env, x, c0, pt, labels, end, pt, sh, tg, st, t', fuel);
      t' := ExprRuns(s.test, pt, b.tabs, x, c0, st, t', r.env);
      match EvalExpr(s.test, x.sc, x.h, r.env)
      case Thrown(v, env2) => EndsDone(ThrowWith(v), env2, x, c0, end, labels, sh, tg, st, t', fuel);
      case Ok(v, env2) =>
        if Truthy(v) {
          var t2 := t';
          BranchBack(x, c0, end - 1, st, v, t2, env2, base);
          t' := DoLoop(s, base, labels, sh, tg, T, x, st, t2, env2, fuel - 1);
          EndsAfterIteration(AbsorbBreak(ExecDo(s.loopBody, s.test, labels, x.sc, x.h, env2, fuel - 1)), x, c0,
                             Running(Config(base, st, t2, env2)), end, labels, sh, tg, st, t', fuel);
        } else {
          ExecBranch(x, c0, end - 1, st, v, t', env2, Instr(JumpIfTrue, base));
          EndsDone(Normal, env2, x, c0, end, labels, sh, tg, st, t', fuel);
        }
    }
  }

  /** The two completions that need no jump target. */
  lemma EndsDone<E>(c: Completion, env: E, x: Ctx<E>, a: State<E>, end: nat, labels: seq<string>, sh: Shape,
                    tg: Targets, st: seq<Value>, t: Temps, fuel: nat)
    requires c.Normal? || c.ThrowWith?
    requires c.Normal? ==> Goes(x, a, Running(Config(end, st, t, env)))
    requires c.ThrowWith? ==> Goes(x, a, Halted(Threw(c.value, env)))
    ensures Ends(Done(c, env), x, a, end, labels, sh, tg, st, t, fuel)
  {
  }

  // ----- for -----

  /** A clause evaluated for its effect. */
  lemma DiscardRuns<E>(e: Option<Expr>, base: nat, T: Tables, x: Ctx<E>, a: State<E>, st: seq<Value>, t: Temps, env: E)
    returns (t': Temps)
    requires Placed(x, GenClause(e, base, T, x.sc), base, T)
    requires At(x.f.code, base + |GenClause(e, base, T, x.sc).code|, PopIf(e))
    requires Goes(x, a, Running(Config(base, st, t, env)))
    ensures Goes(x, a, Proceed(EvalOptional(e, x.sc, x.h, env),
                               base + |GenClause(e, base, T, x.sc).code| + |PopIf(e)|, st, t'))
  {
    hide At, Wf, Agree, Goes, Sound, GenExpr, EvalExpr;
    t' := t;
    if e.Some? {
      t' := ExprRuns(e.value, base, T, x, a, st, t, env);
      match EvalExpr(e.value, x.sc, x.h, env)
      case Thrown(_, _) =>
      case Ok(v, env1) => ExecPop(x, a, base + |GenExpr(e.value, base, T, x.sc).code|, st, v, t', env1);
    }
  }

  /** Whether a `for` test lets the loop go on. */
  predicate Continues(e: Option<Expr>, v: Value) {
    e.Some? ==> Truthy(v)
  }

  lemma CondRuns<E>(e: Option<Expr>, base: nat, end: nat, T: Tables, x: Ctx<E>, a: State<E>, st: seq<Value>, t: Temps,
                    env: E)
    returns (t': Temps)
    requires Placed(x, GenClause(e, base, T, x.sc), base, T)
    requires At(x.f.code, base + |GenClause(e, base, T, x.sc).code|, ExitIf(e, end))
    requires Goes(x, a, Running(Config(base, st, t, env)))
    ensures match EvalOptional(e, x.sc, x.h, env)
            case Thrown(v, env1) => Goes(x, a, Halted(Threw(v, env1)))
            case Ok(v, env1) =>
              Goes(x, a, Running(Config(if Continues(e, v)
                                        then base + |GenClause(e, base, T, x.sc).code| + |ExitIf(e, end)|
                                        else end, st, t', env1)))
  {
    hide At, Wf, Agree, Goes, Sound, GenExpr, EvalExpr;
    t' := t;
    if e.Some? {
      t' := ExprRuns(e.value, base, T, x, a, st, t, env);
      match EvalExpr(e.value, x.sc, x.h, env)
      case Thrown(_, _) =>
      case Ok(v, env1) =>
        ExecBranch(x, a, base + |GenExpr(e.value, base, T, x.sc).code|, st, v, t', env1, Instr(JumpIfFalse, end));
    }
  }

  lemma {:induction false} ForRuns<E>(s: Stmt, base: nat, labels: seq<string>, sh: Shape, tg: Targets, T: Tables,
                                      x: Ctx<E>, a: State<E>, st: seq<Value>, t: Temps, env: E, fuel: nat)
    returns (t': Temps)
    requires s.For? && StmtPlaced(x, GenFor(s, base, labels, sh, tg, T, x.sc), base, T)
    requires Fits(sh, tg) && JumpsOk(s, labels, sh)
    requires Goes(x, a, Running(Config(base, st, t, env)))
    ensures Ends(Exec(s, labels, x.sc, x.h, env, fuel), x, a,
                 base + |GenFor(s, base, labels, sh, tg, T, x.sc).code|, labels, sh, tg, st, t', fuel)
    decreases fuel, s, 5
  {
    hide At, Wf, Goes, Agree, Sound, GenForLoop, GenClause, EvalOptional, ExecFor, Ends;
    var i := GenClause(s.init, base, T, x.sc);
    var start := base + |i.code| + |PopIf(s.init)|;
    var l := GenForLoop(s, start, labels, sh, tg, i.tabs, x.sc);
    ClauseRegular(s.init, base, T, x.sc, x.f.userSlots);
    ForLoopRegular(s, start, labels, sh, tg, i.tabs, x.sc, x.f.userSlots);
    AtSplit3(x.f.code, base, i.code, PopIf(s.init), l.code);
    t' := DiscardRuns(s.init, base, T, x, a, st, t, env);
    match EvalOptional(s.init, x.sc, x.h, env)
    case Thrown(v, env1) => EndsDone(ThrowWith(v), env1, x, a, start + |l.code|, labels, sh, tg, st, t', fuel);
    case Ok(_, env1) =>
      var c0 := Running(Config(start, st, t', env1));
      t' := ForLoop(s, start, labels, sh, tg, i.tabs, x, st, t', env1, fuel);
      EndsFrom(AbsorbBreak(ExecFor(s.cond, s.update, s.loopBody, labels, x.sc, x.h, env1, fuel)), x, a, c0,
               start + |l.code|, labels, sh, tg, st, t', fuel);
  }

  lemma {:induction false} ForLoop<E>(s: Stmt, start: nat, labels: seq<string>, sh: Shape, tg: Targets, T: Tables,
                                      x: Ctx<E>, st: seq<Value>, t: Temps, env: E, fuel: nat)
    returns (t': Temps)
    requires s.For? && StmtPlaced(x, GenForLoop(s, start, labels, sh, tg, T, x.sc), start, T)
    requires Fits(sh, tg) && JumpsOk(s, labels, sh)
    ensures Ends(AbsorbBreak(ExecFor(s.cond, s.update, s.loopBody, labels, x.sc, x.h, env, fuel)), x,
                 Running(Config(start, st, t, env)),
                 start + |GenForLoop(s, start, labels, sh, tg, T, x.sc).code|, labels, sh, tg, st, t', fuel)
    decreases fuel, s, 4
  {
    hide At, Wf, Goes, Agree, Sound, GenStmt, GenClause, EvalOptional, Exec, BreakAddr, ContinueAddr, Ends;
    t' := t;
    var c0 := Running(Config(start, st, t, env));
    var inner := PushLoop(sh, labels, true);
    var c := GenClause(s.cond, start, T, x.sc);
    var pb := start + |c.code| + |ExitIf(s.cond, 0)|;
    var pu := pb + LenStmt(s.loopBody, [], inner, x.sc);
    var end := pu + LenOptional(s.update, x.sc) + 1;
    var tg' := PushLoopTarget(tg, end, pu);
    var b := GenStmt(s.loopBody, pb, [], inner, tg', c.tabs, x.sc);
    var u := GenClause(s.update, pu, b.tabs, x.sc);
    ForParts(s, start, labels, sh, tg, T, x.sc, x.f.userSlots);
    AtSplit5(x.f.code, start, c.code, ExitIf(s.cond, end), b.code, u.code + PopIf(s.update), [Instr(Jump, start)]);
    if fuel == 0 {
      EndsTimeout(Timeout, x, c0, end, labels, sh, tg, st, t', fuel);
      return;
    }
    SelfGoes(x, c0);
    t' := CondRuns(s.cond, start, end, T, x, c0, st, t, env);
    match EvalOptional(s.cond, x.sc, x.h, env)
    case Thrown(v, env1) => EndsDone(ThrowWith(v), env1, x, c0, end, labels, sh, tg, st, t', fuel);
    case Ok(v, env1) =>
      if !Continues(s.cond, v) {
        EndsDone(Normal, env1, x, c0, end, labels, sh, tg, st, t', fuel);
        return;
      }
      t' := ForBody(s, start, labels, sh, tg, T, x, st, t, env, v, t', env1, fuel);
  }

  lemma ForParts(s: Stmt, start: nat, labels: seq<string>, sh: Shape, tg: Targets, T: Tables, sc: Scope, user: nat)
    requires s.For? && Wf(T, user)
    ensures var inner := PushLoop(sh, labels, true);
            var c := GenClause(s.cond, start, T, sc);
            var pb := start + |c.code| + |ExitIf(s.cond, 0)|;
            var pu := pb + LenStmt(s.loopBody, [], inner, sc);
            var tg' := PushLoopTarget(tg, pu + LenOptional(s.update, sc) + 1, pu);
            var b := GenStmt(s.loopBody, pb, [], inner, tg', c.tabs, sc);
            var u := GenClause(s.update, pu, b.tabs, sc);
            && Later(T, c.tabs, user) && Later(c.tabs, b.tabs, user) && Later(b.tabs, u.tabs, user)
            && pb + |b.code| == pu && |u.code| + |PopIf(s.update)| == LenOptional(s.update, sc)
  {
    hide Wf, GenStmt, GenClause;
    var inner := PushLoop(sh, labels, true);
    var c := GenClause(s.cond, start, T, sc);
    var pb := start + |c.code| + |ExitIf(s.cond, 0)|;
    var pu := pb + LenStmt(s.loopBody, [], inner, sc);
    var tg' := PushLoopTarget(tg, pu + LenOptional(s.update, sc) + 1, pu);
    ClauseRegular(s.cond, start, T, sc, user);
    StmtRegular(s.loopBody, pb, [], inner, tg', c.tabs, sc, user);
    ClauseRegular(s.update, pu, GenStmt(s.loopBody, pb, [], inner, tg', c.tabs, sc).tabs, sc, user);
  }

  /** The rest of a `for` loop after a body that lets it go on. */
  function ForAgain<E>(s: Stmt, labels: seq<string>, sc: Scope, h: Host<E>, env: E, fuel: nat): StmtResult<E>
    requires s.For? && fuel > 0
  {
    match EvalOptional(s.update, sc, h, env)
    case Thrown(v, env1) => Done(ThrowWith(v), env1)
    case Ok(_, env1) => AbsorbBreak(ExecFor(s.cond, s.update, s.loopBody, labels, sc, h, env1, fuel - 1))
  }

  lemma {:induction false} ForUpdate<E>(s: Stmt, start: nat, labels: seq<string>, sh: Shape, tg: Targets, T: Tables,
                                        x: Ctx<E>, a: State<E>, st: seq<Value>, pu: nat, t2: Temps, env2: E, U: Tables,
                                        fuel: nat)
    returns (t': Temps)
    requires s.For? && StmtPlaced(x, GenForLoop(s, start, labels, sh, tg, T, x.sc), start, T)
    requires Fits(sh, tg) && JumpsOk(s, labels, sh) && fuel > 0
    requires Placed(x, GenClause(s.update, pu, U, x.sc), pu, U)
    requires At(x.f.code, pu + |GenClause(s.update, pu, U, x.sc).code|, PopIf(s.update))
    requires At(x.f.code, pu + |GenClause(s.update, pu, U, x.sc).code| + |PopIf(s.update)|, [Instr(Jump, start)])
    requires Goes(x, a, Running(Config(pu, st, t2, env2)))
    ensures Ends(ForAgain(s, labels, x.sc, x.h, env2, fuel), x, a,
                 start + |GenForLoop(s, start, labels, sh, tg, T, x.sc).code|, labels, sh, tg, st, t', fuel)
    decreases fuel, s, 2
  {
    hide At, Wf, Goes, Agree, Sound, GenForLoop, GenClause, EvalOptional, ExecFor, BreakAddr, ContinueAddr, Ends;
    var end := start + |GenForLoop(s, start, labels, sh, tg, T, x.sc).code|;
    t' := DiscardRuns(s.update, pu, U, x, a, st, t2, env2);
    match EvalOptional(s.update, x.sc, x.h, env2)
    case Thrown(w, env3) => EndsDone(ThrowWith(w), env3, x, a, end, labels, sh, tg, st, t', fuel);
    case Ok(_, env3) =>
      var t3 := t';
      JumpBack(x, a, pu + |GenClause(s.update, pu, U, x.sc).code| + |PopIf(s.update)|, st, t3, env3, start);
      t' := ForLoop(s, start, labels, sh, tg, T, x, st, t3, env3, fuel - 1);
      EndsAfterIteration(AbsorbBreak(ExecFor(s.cond, s.update, s.loopBody, labels, x.sc, x.h, env3, fuel - 1)),
                         x, a, Running(Config(start, st, t3, env3)), end, labels, sh, tg, st, t', fuel);
  }

  /** From a test that does not end the loop on. */
  lemma {:induction false} ForBody<E>(s: Stmt, start: nat, labels: seq<string>, sh: Shape, tg: Targets, T: Tables,
                                      x: Ctx<E>, st: seq<Value>, t: Temps, env: E, v: Value, t1: Temps, env1: E,
                                      fuel: nat)
    returns (t': Temps)
    requires s.For? && StmtPlaced(x, GenForLoop(s, start, labels, sh, tg, T, x.sc), start, T)
    requires Fits(sh, tg) && JumpsOk(s, labels, sh)
    requires fuel > 0 && EvalOptional(s.cond, x.sc, x.h, env) == Ok(v, env1) && Continues(s.cond, v)
    requires Goes(x, Running(Config(start, st, t, env)),
                  Running(Config(start + |GenClause(s.cond, start, T, x.sc).code| + |ExitIf(s.cond, 0)|, st, t1, env1)))
    ensures Ends(AbsorbBreak(ExecFor(s.cond, s.update, s.loopBody, labels, x.sc, x.h, env, fuel)), x,
                 Running(Config(start, st, t, env)),
                 start + |GenForLoop(s, start, labels, sh, tg, T, x.sc).code|, labels, sh, tg, st, t', fuel)
    decreases fuel, s, 3
  {
    hide At, Wf, Goes, Agree, Sound, GenStmt, GenClause, EvalOptional, Exec, BreakAddr, ContinueAddr, Ends;
    var c0 := Running(Config(start, st, t, env));
    var inner := PushLoop(sh, labels, true);
    var c := GenClause(s.cond, start, T, x.sc);
    var pb := start + |c.code| + |ExitIf(s.cond, 0)|;
    var pu := pb + LenStmt(s.loopBody, [], inner, x.sc);
    var end := pu + LenOptional(s.update, x.sc) + 1;
    var tg' := PushLoopTarget(tg, end, pu);
    var b := GenStmt(s.loopBody, pb, [], inner, tg', c.tabs, x.sc);
    var u := GenClause(s.update, pu, b.tabs, x.sc);
    ForParts(s, start, labels, sh, tg, T, x.sc, x.f.userSlots);
    AtSplit5(x.f.code, start, c.code, ExitIf(s.cond, end), b.code, u.code + PopIf(s.update), [Instr(Jump, start)]);
    t' := StmtRuns(s.loopBody, pb, [], inner, tg', c.tabs, x, c0, st, t1, env1, fuel);
    var r := Exec(s.loopBody, [], x.sc, x.h, env1, fuel);
    if r.Timeout? {
      TimeoutAny(x, c0, pu, [], inner, tg', end, labels, sh, tg, st, t', fuel);
    } else if !LoopContinues(r.completion, labels) {
      LeaveLoop(r.completion, r.env, x, c0, pu, labels, true, end, pu, sh, tg, st, t', fuel);
    } else {
      StayInLoop(r.completion, r.env, x, c0, pu, labels, end, pu, sh, tg, st, t', fuel);
      AtSplit(x.f.code, pu, u.code, PopIf(s.update));
      t' := ForUpdate(s, start, labels, sh, tg, T, x, c0, st, pu, t', r.env, b.tabs, fuel);
    }
  }

  // ----- switch -----

  /** Where selecting a case has brought the machine: to the body of the match
      or to the jump behind the tests. */
  ghost predicate Selects<E>(r: Selection<E>, x: Ctx<E>, a: State<E>, none: nat, cases: CaseList, i: nat, bodyPc: nat,
                             sh: Shape, st: seq<Value>, t: Temps) {
    match r
    case NoCase(v, env) => Goes(x, a, Halted(Threw(v, env)))
    case Chosen(None, env) => Goes(x, a, Running(Config(none, st, t, env)))
    case Chosen(Some(k), env) =>
      i <= k && Goes(x, a, Running(Config(BodyStart(cases, k - i, bodyPc, sh, x.sc), st, t, env)))
  }

  lemma {:induction false} TestsRun<E>(cases: CaseList, pc: nat, tmp: nat, bodyPc: nat, sh: Shape, T: Tables, i: nat,
                                       d: Value, x: Ctx<E>, a: State<E>, st: seq<Value>, t: Temps, env: E)
    returns (t': Temps)
    requires Placed(x, GenTests(cases, pc, tmp, bodyPc, sh, T, x.sc), pc, T)
    requires x.f.userSlots <= tmp < T.count && ReadTemp(t, tmp) == d
    requires Goes(x, a, Running(Config(pc, st, t, env)))
    ensures Selects(SelectCase(cases, i, d, x.sc, x.h, env), x, a,
                    pc + |GenTests(cases, pc, tmp, bodyPc, sh, T, x.sc).code|, cases, i, bodyPc, sh, st, t')
    decreases cases
  {
    hide At, Wf, Goes, Agree, Sound, GenExpr, EvalExpr, LenList;
    t' := t;
    match cases
    case CNil =>
    case CCons(c, tail) =>
      var next := bodyPc + LenList(c.body, sh, x.sc);
      match c.test
      case None => t' := TestsRun(tail, pc, tmp, next, sh, T, i + 1, d, x, a, st, t, env);
      case Some(e) =>
        var g := GenExpr(e, pc + 1, T, x.sc);
        var pe := pc + 1 + |g.code|;
        var rest := GenTests(tail, pe + 2, tmp, next, sh, g.tabs, x.sc);
        ExprTables(e, pc + 1, T, x.sc, x.f.userSlots);
        TestsRegular(tail, pe + 2, tmp, next, sh, g.tabs, x.sc, x.f.userSlots);
        AtSplit4(x.f.code, pc, [Instr(LdaLocal, tmp)], g.code,
                 [Bare(BinaryOp(StrictEq)), Instr(JumpIfTrue, bodyPc)], rest.code);
        ExecPush(x, a, pc, st, t, env, Instr(LdaLocal, tmp), d);
        t' := ExprRuns(e, pc + 1, T, x, a, st + [d], t, env);
        match EvalExpr(e, x.sc, x.h, env)
        case Thrown(_, _) =>
        case Ok(v, env1) =>
          CompareRuns(pe, bodyPc, d, v, x, a, st, t', env1);
          if !x.h.strictEq(d, v) {
            AgreeAt(t, t', T.count, tmp);
            t' := TestsRun(tail, pe + 2, tmp, next, sh, g.tabs, i + 1, d, x, a, st, t', env1);
          }
  }

  lemma CompareRuns<E>(pc: nat, body: nat, d: Value, v: Value, x: Ctx<E>, a: State<E>, st: seq<Value>, t: Temps, env: E)
    requires At(x.f.code, pc, [Bare(BinaryOp(StrictEq)), Instr(JumpIfTrue, body)])
    requires Goes(x, a, Running(Config(pc, st + [d] + [v], t, env)))
    ensures Goes(x, a, Running(Config(if x.h.strictEq(d, v) then body else pc + 2, st, t, env)))
  {
    hide At, Goes;
    assert [Bare(BinaryOp(StrictEq)), Instr(JumpIfTrue, body)]
        == [Bare(BinaryOp(StrictEq))] + [Instr(JumpIfTrue, body)];
    AtSplit(x.f.code, pc, [Bare(BinaryOp(StrictEq))], [Instr(JumpIfTrue, body)]);
    ExecBinary(x, a, pc, st, d, v, t, env, StrictEq);
    ExecBranch(x, a, pc + 1, st, Boolean(x.h.strictEq(d, v)), t, env, Instr(JumpIfTrue, body));
  }

  lemma {:induction false} BodiesRun<E>(cases: CaseList, from: nat, base: nat, sh: Shape, tg: Targets, T: Tables,
                                        x: Ctx<E>, a: State<E>, st: seq<Value>, t: Temps, env: E, fuel: nat)
    returns (t': Temps)
    requires StmtPlaced(x, GenBodies(cases, base, sh, tg, T, x.sc), base, T)
    requires Fits(sh, tg) && CasesJumpsOk(cases, sh)
    requires Goes(x, a, Running(Config(BodyStart(cases, from, base, sh, x.sc), st, t, env)))
    ensures Ends(ExecCases(cases, from, x.sc, x.h, env, fuel), x, a,
                 base + |GenBodies(cases, base, sh, tg, T, x.sc).code|, [], sh, tg, st, t', fuel)
    decreases fuel, cases, 1
  {
    hide At, Wf, Goes, Sound, GenList, LenList, ExecList, BreakAddr, ContinueAddr;
    hide Ends, ExecCases, GenBodies, BodyStart, StmtPlaced, CasesJumpsOk;
    t' := t;
    match cases
    case CNil => NoBodies(from, base, sh, tg, T, x, a, st, t, env, fuel);
    case CCons(c, tail) =>
      BodiesPlaced(cases, base, sh, tg, T, x);
      if from == 0 {
        BodyStartZero(cases, base, sh, x.sc);
        t' := FirstBodyRuns(cases, base, sh, tg, T, x, a, st, t, env, fuel);
      } else {
        var g := GenList(c.body, base, sh, tg, T, x.sc);
        SkipsBody(c, tail, from, base, sh, tg, T, x.sc, x.h, env, fuel);
        t' := BodiesRun(tail, from - 1, base + |g.code|, sh, tg, g.tabs, x, a, st, t, env, fuel);
      }
  }

  lemma NoBodies<E>(from: nat, base: nat, sh: Shape, tg: Targets, T: Tables, x: Ctx<E>, a: State<E>, st: seq<Value>,
                    t: Temps, env: E, fuel: nat)
    requires Goes(x, a, Running(Config(BodyStart(CNil, from, base, sh, x.sc), st, t, env)))
    ensures Ends(ExecCases(CNil, from, x.sc, x.h, env, fuel), x, a,
                 base + |GenBodies(CNil, base, sh, tg, T, x.sc).code|, [], sh, tg, st, t, fuel)
  {
    hide Goes, BreakAddr, ContinueAddr;
  }

  /** A body before the chosen one is passed over. */
  lemma SkipsBody<E>(c: Case, tail: CaseList, from: nat, base: nat, sh: Shape, tg: Targets, T: Tables, sc: Scope,
                     h: Host<E>, env: E, fuel: nat)
    requires from > 0 && |GenList(c.body, base, sh, tg, T, sc).code| == LenList(c.body, sh, sc)
    ensures CasesJumpsOk(CCons(c, tail), sh) ==> CasesJumpsOk(tail, sh)
    ensures ExecCases(CCons(c, tail), from, sc, h, env, fuel) == ExecCases(tail, from - 1, sc, h, env, fuel)
    ensures var g := GenList(c.body, base, sh, tg, T, sc);
            && BodyStart(CCons(c, tail), from, base, sh, sc) == BodyStart(tail, from - 1, base + |g.code|, sh, sc)
            && |GenBodies(CCons(c, tail), base, sh, tg, T, sc).code|
               == |g.code| + |GenBodies(tail, base + |g.code|, sh, tg, g.tabs, sc).code|
  {
    hide GenList, LenList, ExecList;
  }

  /** The first body and the others, each in its place. */
  lemma BodiesPlaced<E>(cases: CaseList, base: nat, sh: Shape, tg: Targets, T: Tables, x: Ctx<E>)
    requires cases.CCons? && StmtPlaced(x, GenBodies(cases, base, sh, tg, T, x.sc), base, T)
    ensures var g := GenList(cases.head.body, base, sh, tg, T, x.sc);
            && StmtPlaced(x, g, base, T) && |g.code| == LenList(cases.head.body, sh, x.sc)
            && StmtPlaced(x, GenBodies(cases.tail, base + |g.code|, sh, tg, g.tabs, x.sc), base + |g.code|, g.tabs)
  {
    hide At, Wf, Sound, GenList, LenList;
    var g := GenList(cases.head.body, base, sh, tg, T, x.sc);
    var rest := GenBodies(cases.tail, base + |g.code|, sh, tg, g.tabs, x.sc);
    ListRegular(cases.head.body, base, sh, tg, T, x.sc, x.f.userSlots);
    BodiesRegular(cases.tail, base + |g.code|, sh, tg, g.tabs, x.sc, x.f.userSlots);
    AtSplit(x.f.code, base, g.code, rest.code);
  }

  lemma {:induction false} FirstBodyRuns<E>(cases: CaseList, base: nat, sh: Shape, tg: Targets, T: Tables, x: Ctx<E>,
                                            a: State<E>, st: seq<Value>, t: Temps, env: E, fuel: nat)
    returns (t': Temps)
    requires cases.CCons? && StmtPlaced(x, GenBodies(cases, base, sh, tg, T, x.sc), base, T)
    requires Fits(sh, tg) && CasesJumpsOk(cases, sh)
    requires Goes(x, a, Running(Config(base, st, t, env)))
    ensures Ends(ExecCases(cases, 0, x.sc, x.h, env, fuel), x, a,
                 base + |GenBodies(cases, base, sh, tg, T, x.sc).code|, [], sh, tg, st, t', fuel)
    decreases fuel, cases, 0
  {
    hide At, Wf, Goes, Sound, GenList, LenList, ExecList, BreakAddr, ContinueAddr;
    var g := GenList(cases.head.body, base, sh, tg, T, x.sc);
    BodiesPlaced(cases, base, sh, tg, T, x);
    t' := ListRuns(cases.head.body, base, sh, tg, T, x, a, st, t, env, fuel);
    match ExecList(cases.head.body, x.sc, x.h, env, fuel)
    case Done(Normal, env1) =>
      BodyStartZero(cases.tail, base + |g.code|, sh, x.sc);
      t' := BodiesRun(cases.tail, 0, base + |g.code|, sh, tg, g.tabs, x, a, st, t', env1, fuel);
    case _ =>
  }

  lemma BodyStartZero(cases: CaseList, pc: nat, sh: Shape, sc: Scope)
    ensures BodyStart(cases, 0, pc, sh, sc) == pc
  {
  }

  lemma {:induction false} BodyStartEnd(cases: CaseList, pc: nat, sh: Shape, sc: Scope)
    ensures BodyStart(cases, CaseCount(cases), pc, sh, sc) == pc + LenBodies(cases, sh, sc)
  {
    match cases
    case CNil =>
    case CCons(c, tail) => BodyStartEnd(tail, pc + LenList(c.body, sh, sc), sh, sc);
  }

  lemma {:induction false} SwitchRuns<E>(s: Stmt, base: nat, sh: Shape, tg: Targets, T: Tables, x: Ctx<E>,
                           a: State<E>, st: seq<Value>, t: Temps, env: E, fuel: nat)
    returns (t': Temps)
    requires s.Switch? && StmtPlaced(x, GenSwitch(s, base, sh, tg, T, x.sc), base, T)
    requires Fits(sh, tg) && JumpsOk(s, [], sh)
    requires Goes(x, a, Running(Config(base, st, t, env)))
    ensures Ends(Exec(s, [], x.sc, x.h, env, fuel), x, a,
                 base + |GenSwitch(s, base, sh, tg, T, x.sc).code|, [], sh, tg, st, t', fuel)
    decreases fuel, s, 2
  {
    hide At, Wf, Goes, Agree, Sound, GenExpr, EvalExpr, GenTests, GenBodies, SelectCase, ExecCases, Ends;
    var user := x.f.userSlots;
    var inner := PushLoop(sh, [], false);
    var g := GenExpr(s.disc, base, T, x.sc);
    var tmp := InternLocal(SwitchDisc, g.tabs);
    var pt := base + |g.code| + 1;
    var pb := pt + LenTests(s.cases, x.sc) + 1;
    var end := pb + LenBodies(s.cases, inner, x.sc);
    var tg' := PushLoopTarget(tg, end, end);
    var c := GenTests(s.cases, pt, tmp.index, pb, inner, tmp.tabs, x.sc);
    var b := GenBodies(s.cases, pb, inner, tg', c.tabs, x.sc);
    var dflt := DefaultStart(s.cases, pb, end, inner, x.sc);
    ExprRegular(s.disc, base, T, x.sc, user);
    InternLocalKeeps(SwitchDisc, g.tabs, user);
    TestsRegular(s.cases, pt, tmp.index, pb, inner, tmp.tabs, x.sc, user);
    BodiesRegular(s.cases, pb, inner, tg', c.tabs, x.sc, user);
    AtSplit5(x.f.code, base, g.code, [Instr(StaLocal, tmp.index)], c.code, [Instr(Jump, dflt)], b.code);
    t' := ExprRuns(s.disc, base, T, x, a, st, t, env);
    match EvalExpr(s.disc, x.sc, x.h, env)
    case Thrown(v, env1) => EndsDone(ThrowWith(v), env1, x, a, end, [], sh, tg, st, t', fuel);
    case Ok(d, env1) =>
      ExecStoreTemp(x, a, pt - 1, st, d, t', env1, tmp.index);
      t' := TestsRun(s.cases, pt, tmp.index, pb, inner, tmp.tabs, 0, d, x, a, st, t'[tmp.index := d], env1);
      match SelectCase(s.cases, 0, d, x.sc, x.h, env1)
      case NoCase(v, env2) => EndsDone(ThrowWith(v), env2, x, a, end, [], sh, tg, st, t', fuel);
      case Chosen(index, env2) =>
        if index.None? {
          BodyStartEnd(s.cases, pb, inner, x.sc);
          ExecJump(x, a, pb - 1, st, t', env2, dflt);
        }
        t' := SelectedRuns(s, StartCase(s.cases, index), pb, sh, tg, c.tabs, x, a, st, t', env2, fuel);
  }

  /** From the chosen body to the end of the switch. */
  lemma {:induction false} SelectedRuns<E>(s: Stmt, from: nat, pb: nat, sh: Shape, tg: Targets, T: Tables, x: Ctx<E>,
                                           a: State<E>, st: seq<Value>, t: Temps, env: E, fuel: nat)
    returns (t': Temps)
    requires s.Switch? && Fits(sh, tg) && JumpsOk(s, [], sh)
    requires var inner := PushLoop(sh, [], false);
             var end := pb + LenBodies(s.cases, inner, x.sc);
             && StmtPlaced(x, GenBodies(s.cases, pb, inner, PushLoopTarget(tg, end, end), T, x.sc), pb, T)
             && Goes(x, a, Running(Config(BodyStart(s.cases, from, pb, inner, x.sc), st, t, env)))
    ensures Ends(AbsorbBreak(ExecCases(s.cases, from, x.sc, x.h, env, fuel)), x, a,
                 pb + LenBodies(s.cases, PushLoop(sh, [], false), x.sc), [], sh, tg, st, t', fuel)
    decreases fuel, s, 1
  {
    hide At, Wf, Goes, Sound, GenBodies, ExecCases, Ends;
    var inner := PushLoop(sh, [], false);
    var end := pb + LenBodies(s.cases, inner, x.sc);
    var tg' := PushLoopTarget(tg, end, end);
    BodiesRegular(s.cases, pb, inner, tg', T, x.sc, x.f.userSlots);
    t' := BodiesRun(s.cases, from, pb, inner, tg', T, x, a, st, t, env, fuel);
    var r := ExecCases(s.cases, from, x.sc, x.h, env, fuel);
    match r
    case Timeout => TimeoutAny(x, a, end, [], inner, tg', end, [], sh, tg, st, t', fuel);
    case Done(Normal, env1) => NormalAny(env1, x, a, end, inner, tg', sh, tg, st, t', fuel);
    case Done(c, env1) => LeaveLoop(c, env1, x, a, end, [], false, end, end, sh, tg, st, t', fuel);
  }

  lemma NormalAny<E>(env: E, x: Ctx<E>, a: State<E>, end: nat, sh: Shape, tg: Targets, sh': Shape, tg': Targets,
                     st: seq<Value>, t: Temps, fuel: nat)
    requires Ends(Done(Normal, env), x, a, end, [], sh, tg, st, t, fuel)
    ensures Ends(Done(Normal, env), x, a, end, [], sh', tg', st, t, fuel)
  {
  }
}
