/** How the execution of a statement shows on the machine, and what closing a
    loop, a switch or a labelled block does to it. */
module StmtOutcome {
  import opened Syntax
  import opened Machine
  import opened Semantics
  import opened CodeGen
  import opened Execution
  import opened Lengths
  import opened ExprCorrect
  import opened StmtGen
  import opened StmtFacts
  import opened JumpTargets

  ghost predicate StmtPlaced<E>(x: Ctx<E>, g: Gen, base: nat, T: Tables) {
    Placed(x, Code(g.code, g.tabs), base, T)
  }

  /** A pending jump has brought the machine to its target. */
  ghost predicate Jumped<E>(x: Ctx<E>, a: State<E>, target: Option<nat>, st: seq<Value>, t: Temps, env: E) {
    target.Some? && Goes(x, a, Running(Config(target.value, st, t, env)))
  }

  /** Where execution `r` of a statement has brought the machine that started
      in `a`. Breaks to the statement's own labels end it. */
  ghost predicate Ends<E>(r: StmtResult<E>, x: Ctx<E>, a: State<E>, end: nat, labels: seq<string>, sh: Shape,
                          tg: Targets, st: seq<Value>, t: Temps, fuel: nat) {
    match r
    case Timeout => Alive(x.f, x.h, a, fuel)
    case Done(Normal, env) => Goes(x, a, Running(Config(end, st, t, env)))
    case Done(BreakTo(l), env) =>
      Jumped(x, a, if l.Some? && l.value in labels then Some(end) else BreakAddr(sh, tg, l), st, t, env)
    case Done(ContinueTo(l), env) => Jumped(x, a, ContinueAddr(sh, tg, l), st, t, env)
    case Done(ReturnWith(v), env) => Goes(x, a, Halted(Returned(v, env)))
    case Done(ThrowWith(v), env) => Goes(x, a, Halted(Threw(v, env)))
  }

  /** An abrupt completion does not depend on where the statement ends. */
  lemma EndsAbrupt<E>(r: StmtResult<E>, x: Ctx<E>, a: State<E>, end: nat, other: nat, sh: Shape, tg: Targets,
                      st: seq<Value>, t: Temps, fuel: nat)
    requires Ends(r, x, a, end, [], sh, tg, st, t, fuel) && !(r.Done? && r.completion.Normal?)
    ensures Ends(r, x, a, other, [], sh, tg, st, t, fuel)
  {
  }

  lemma EndsNormal<E>(env: E, x: Ctx<E>, a: State<E>, end: nat, sh: Shape, tg: Targets, st: seq<Value>, t: Temps,
                      fuel: nat)
    ensures Ends(Done(Normal, env), x, a, end, [], sh, tg, st, t, fuel) <==>
              Goes(x, a, Running(Config(end, st, t, env)))
  {
  }

  /** The start of a run can be moved back. */
  lemma EndsFrom<E>(r: StmtResult<E>, x: Ctx<E>, a: State<E>, b: State<E>, end: nat, labels: seq<string>, sh: Shape,
                    tg: Targets, st: seq<Value>, t: Temps, fuel: nat)
    requires Goes(x, a, b) && Ends(r, x, b, end, labels, sh, tg, st, t, fuel)
    ensures Ends(r, x, a, end, labels, sh, tg, st, t, fuel)
  {
    hide BreakAddr, ContinueAddr;
    match r
    case Timeout => AliveAfter(x.f, x.h, a, b, fuel);
    case Done(Normal, env) => GoesTrans(x, a, b, Running(Config(end, st, t, env)));
    case Done(BreakTo(l), env) =>
      var to := if l.Some? && l.value in labels then Some(end) else BreakAddr(sh, tg, l);
      GoesTrans(x, a, b, Running(Config(to.value, st, t, env)));
    case Done(ContinueTo(l), env) => GoesTrans(x, a, b, Running(Config(ContinueAddr(sh, tg, l).value, st, t, env)));
    case Done(ReturnWith(v), env) => GoesTrans(x, a, b, Halted(Returned(v, env)));
    case Done(ThrowWith(v), env) => GoesTrans(x, a, b, Halted(Threw(v, env)));
  }

  /** A whole loop iteration takes at least the step that jumps back. */
  lemma EndsAfterIteration<E>(r: StmtResult<E>, x: Ctx<E>, a: State<E>, b: State<E>, end: nat, labels: seq<string>,
                              sh: Shape, tg: Targets, st: seq<Value>, t: Temps, fuel: nat)
    requires fuel > 0 && Goes(x, Step(x.f, x.h, a), b)
    requires Ends(r, x, b, end, labels, sh, tg, st, t, fuel - 1)
    ensures Ends(r, x, a, end, labels, sh, tg, st, t, fuel)
  {
    hide Ends, BreakAddr, ContinueAddr;
    StepThen(x.f, x.h, a, b);
    if r.Timeout? {
      assert Alive(x.f, x.h, b, fuel - 1) by { EndsTimeout(r, x, b, end, labels, sh, tg, st, t, fuel - 1); }
      AliveAdvance(x.f, x.h, a, b, fuel - 1);
      EndsTimeout(r, x, a, end, labels, sh, tg, st, t, fuel);
    } else {
      EndsAnyFuel(r, x, b, end, labels, sh, tg, st, t, fuel - 1, fuel);
      EndsFrom(r, x, a, b, end, labels, sh, tg, st, t, fuel);
    }
  }

  lemma EndsTimeout<E>(r: StmtResult<E>, x: Ctx<E>, a: State<E>, end: nat, labels: seq<string>, sh: Shape,
                       tg: Targets, st: seq<Value>, t: Temps, fuel: nat)
    requires r.Timeout?
    ensures Ends(r, x, a, end, labels, sh, tg, st, t, fuel) <==> Alive(x.f, x.h, a, fuel)
  {
  }

  lemma EndsAnyFuel<E>(r: StmtResult<E>, x: Ctx<E>, a: State<E>, end: nat, labels: seq<string>, sh: Shape,
                       tg: Targets, st: seq<Value>, t: Temps, m: nat, n: nat)
    requires r.Done? && Ends(r, x, a, end, labels, sh, tg, st, t, m)
    ensures Ends(r, x, a, end, labels, sh, tg, st, t, n)
  {
  }

  lemma ThenAdvance<E>(x: Ctx<E>, a: State<E>, b: State<E>)
    requires Goes(x, a, b)
    ensures Goes(x, Step(x.f, x.h, a), Step(x.f, x.h, b))
  {
    var n: nat :| Run(x.f, x.h, a, n) == b;
    RunAdd(x.f, x.h, a, n, 1);
    RunAdd(x.f, x.h, a, 1, n);
    assert Run(x.f, x.h, b, 1) == Run(x.f, x.h, Step(x.f, x.h, b), 0);
    assert Run(x.f, x.h, a, 1) == Run(x.f, x.h, Step(x.f, x.h, a), 0);
    assert Run(x.f, x.h, Step(x.f, x.h, a), n) == Step(x.f, x.h, b);
  }

  /** The jump that closes an iteration. */
  lemma JumpBack<E>(x: Ctx<E>, a: State<E>, pc: nat, st: seq<Value>, t: Temps, env: E, target: nat)
    requires Goes(x, a, Running(Config(pc, st, t, env))) && At(x.f.code, pc, [Instr(Jump, target)])
    ensures Goes(x, Step(x.f, x.h, a), Running(Config(target, st, t, env)))
  {
    var b := Running(Config(pc, st, t, env));
    assert x.f.code[pc] == x.f.code[pc..pc + 1][0];
    assert Step(x.f, x.h, b) == Running(Config(target, st, t, env));
    ThenAdvance(x, a, b);
  }

  lemma BranchBack<E>(x: Ctx<E>, a: State<E>, pc: nat, st: seq<Value>, v: Value, t: Temps, env: E, target: nat)
    requires Goes(x, a, Running(Config(pc, st + [v], t, env))) && At(x.f.code, pc, [Instr(JumpIfTrue, target)])
    requires Truthy(v)
    ensures Goes(x, Step(x.f, x.h, a), Running(Config(target, st, t, env)))
  {
    var b := Running(Config(pc, st + [v], t, env));
    Peel(st, v);
    assert x.f.code[pc] == x.f.code[pc..pc + 1][0];
    assert Step(x.f, x.h, b) == Running(Config(target, st, t, env));
    ThenAdvance(x, a, b);
  }

  /** Reaching a different state takes a step. */
  lemma Strict<E>(x: Ctx<E>, a: State<E>, b: State<E>)
    requires Goes(x, a, b) && a != b
    ensures Goes(x, Step(x.f, x.h, a), b)
  {
    var n: nat :| Run(x.f, x.h, a, n) == b;
    assert Run(x.f, x.h, Step(x.f, x.h, a), n - 1) == b;
  }

  // ----- leaving loops, switches and labelled blocks -----

  /** A body whose completion leaves its loop does so for the whole loop. */
  lemma LeaveLoop<E>(c: Completion, env: E, x: Ctx<E>, a: State<E>, bodyEnd: nat, labels: seq<string>, it: bool,
                     brk: nat, cont: nat, sh: Shape, tg: Targets, st: seq<Value>, t: Temps, fuel: nat)
    requires Fits(sh, tg)
    requires Ends(Done(c, env), x, a, bodyEnd, [], PushLoop(sh, labels, it), PushLoopTarget(tg, brk, cont), st, t, fuel)
    requires if it then !LoopContinues(c, labels) else c != Normal
    ensures Ends(AbsorbBreak(Done(c, env)), x, a, brk, labels, sh, tg, st, t, fuel)
  {
    match c
    case BreakTo(l) => LoopBreaks(sh, tg, labels, it, brk, cont, l);
    case ContinueTo(l) => LoopContinuesAt(sh, tg, labels, it, brk, cont, l);
    case _ =>
  }

  /** A body that completes or continues its loop is at the continue target
      or falls off its end. */
  lemma StayInLoop<E>(c: Completion, env: E, x: Ctx<E>, a: State<E>, bodyEnd: nat, labels: seq<string>, brk: nat,
                      cont: nat, sh: Shape, tg: Targets, st: seq<Value>, t: Temps, fuel: nat)
    requires Fits(sh, tg)
    requires Ends(Done(c, env), x, a, bodyEnd, [], PushLoop(sh, labels, true), PushLoopTarget(tg, brk, cont), st, t,
                  fuel)
    requires LoopContinues(c, labels)
    ensures Goes(x, a, Running(Config(if c.Normal? then bodyEnd else cont, st, t, env)))
  {
    if c.ContinueTo? {
      LoopContinuesAt(sh, tg, labels, true, brk, cont, c.lbl);
    }
  }

  lemma LeaveBlock<E>(r: StmtResult<E>, x: Ctx<E>, a: State<E>, end: nat, all: seq<string>, sh: Shape, tg: Targets,
                      st: seq<Value>, t: Temps, fuel: nat)
    requires Fits(sh, tg) && Unclaimed(all, sh)
    requires Ends(r, x, a, end, [], PushBlock(sh, all), PushExit(tg, end), st, t, fuel)
    ensures Ends(r, x, a, end, all, sh, tg, st, t, fuel)
  {
    match r
    case Done(BreakTo(l), _) => BlockBreaks(sh, tg, all, end, l);
    case Done(ContinueTo(l), _) => BlockBreaks(sh, tg, all, end, l);
    case _ =>
  }

  /** The label of a labelled statement absorbs the breaks that name it. */
  lemma LeaveLabel<E>(r: StmtResult<E>, name: string, x: Ctx<E>, a: State<E>, end: nat, labels: seq<string>, sh: Shape,
                      tg: Targets, st: seq<Value>, t: Temps, fuel: nat)
    requires Ends(r, x, a, end, labels + [name], sh, tg, st, t, fuel)
    ensures Ends(AbsorbLabel(r, name), x, a, end, labels, sh, tg, st, t, fuel)
  {
  }

  /** Only loops and labelled loops look at the labels they are given. */
  lemma LabelsIgnored<E>(s: Stmt, labels: seq<string>, sc: Scope, h: Host<E>, env: E, fuel: nat)
    requires !PassesLabels(s)
    ensures Exec(s, labels, sc, h, env, fuel) == Exec(s, [], sc, h, env, fuel)
  {
  }
}
