/** Whole function bodies and scripts: the machine, started at the first
    instruction with an empty operand stack, halts with a result exactly when
    the source run ends with it, and runs forever exactly when the source run
    does. In particular no instruction ever finds the operand stack too short. */
module FunctionCorrect {
  import opened Syntax
  import opened Machine
  import opened Semantics
  import opened CodeGen
  import opened Execution
  import opened Lengths
  import opened ExprCorrect
  import opened StmtGen
  import opened StmtFacts
  import opened JumpTargets
  import opened StmtOutcome
  import opened StmtCorrect

  function Start<E>(t: Temps, env: E): State<E> {
    Running(Config(0, [], t, env))
  }

  /** How the machine ends when the body of a function has completed. */
  function Final<E>(r: StmtResult<E>): Option<Result<E>> {
    match r
    case Timeout => None
    case Done(Normal, env) => Some(Returned(Undefined, env))
    case Done(ReturnWith(v), env) => Some(Returned(v, env))
    case Done(ThrowWith(v), env) => Some(Threw(v, env))
    case Done(BreakTo(_), _) => Some(Fault)
    case Done(ContinueTo(_), _) => Some(Fault)
  }

  ghost predicate Follows<E>(r: Option<Result<E>>, x: Ctx<E>, a: State<E>, fuel: nat) {
    match r
    case None => Alive(x.f, x.h, a, fuel)
    case Some(q) => q != Fault && Goes(x, a, Halted(q))
  }

  /** Enough fuel for a machine that halts. */
  lemma HaltFuel<E>(x: Ctx<E>, a: State<E>, q: Result<E>)
    returns (n: nat)
    requires Goes(x, a, Halted(q))
    ensures !Alive(x.f, x.h, a, n)
  {
    n :| Run(x.f, x.h, a, n) == Halted(q);
  }

  /** With enough fuel the source run ends as the machine does. */
  lemma FollowsHalted<E>(r: Option<Result<E>>, x: Ctx<E>, a: State<E>, q: Result<E>, n: nat)
    requires Goes(x, a, Halted(q)) && !Alive(x.f, x.h, a, n) && Follows(r, x, a, n)
    ensures r == Some(q)
  {
    HaltUnique(x.f, x.h, a, Halted(q), Halted(r.value));
  }

  ghost predicate Diverges<E>(x: Ctx<E>, a: State<E>) {
    forall k: nat :: Alive(x.f, x.h, a, k)
  }

  // ----- functions -----

  ghost predicate FunctionLoops<E>(body: StmtList, x: Ctx<E>, env: E) {
    forall fuel: nat :: Final(ExecList(body, x.sc, x.h, env, fuel)) == None
  }

  /** `x` runs the code generated for `body`. */
  ghost predicate RunsFunction<E>(x: Ctx<E>, body: StmtList, T: Tables) {
    && Sound(x) && Wf(T, x.f.userSlots)
    && x.f.code == GenFunction(body, T, x.sc).code && GenFunction(body, T, x.sc).tabs.consts <= x.f.consts
  }

  lemma FunctionFollows<E>(x: Ctx<E>, body: StmtList, T: Tables, t: Temps, env: E, fuel: nat)
    requires RunsFunction(x, body, T) && ListJumpsOk(body, NoShape)
    ensures Follows(Final(ExecList(body, x.sc, x.h, env, fuel)), x, Start(t, env), fuel)
  {
    hide Wf, Sound, GenList, ExecList, Goes, ListJumpsOk;
    var a := Start(t, env);
    var g := GenList(body, 0, NoShape, NoTargets, T, x.sc);
    var exit := [Bare(LdaUndefined), Bare(ReturnOp)];
    assert x.f.code[..|g.code|] == g.code && x.f.code[|g.code|..|g.code| + 2] == exit;
    assert At(x.f.code, 0, g.code) && At(x.f.code, |g.code|, exit);
    SelfGoes(x, a);
    var t' := ListRuns(body, 0, NoShape, NoTargets, T, x, a, [], t, env, fuel);
    match ExecList(body, x.sc, x.h, env, fuel)
    case Done(Normal, env1) => ReturnRuns(|g.code|, x, a, [], t', env1);
    case _ =>
  }

  /** The machine halts with `q` if and only if the source run ends so. */
  lemma FunctionCorrect<E>(x: Ctx<E>, body: StmtList, T: Tables, t: Temps, env: E, q: Result<E>)
    requires RunsFunction(x, body, T) && ListJumpsOk(body, NoShape)
    ensures Goes(x, Start(t, env), Halted(q))
            <==> exists fuel: nat :: Final(ExecList(body, x.sc, x.h, env, fuel)) == Some(q)
    ensures !Goes(x, Start(t, env), Halted(Fault))
  {
    hide RunsFunction, ListJumpsOk, Goes, ExecList, Final;
    if Goes(x, Start(t, env), Halted(q)) {
      var fuel := HaltFuel(x, Start(t, env), q);
      FunctionFollows(x, body, T, t, env, fuel);
      FollowsHalted(Final(ExecList(body, x.sc, x.h, env, fuel)), x, Start(t, env), q, fuel);
    }
    if fuel: nat :| Final(ExecList(body, x.sc, x.h, env, fuel)) == Some(q) {
      FunctionFollows(x, body, T, t, env, fuel);
    }
    if Goes(x, Start(t, env), Halted(Fault)) {
      var fuel := HaltFuel(x, Start(t, env), Fault);
      FunctionFollows(x, body, T, t, env, fuel);
      FollowsHalted(Final(ExecList(body, x.sc, x.h, env, fuel)), x, Start(t, env), Fault, fuel);
    }
  }

  lemma FunctionDiverges<E>(x: Ctx<E>, body: StmtList, T: Tables, t: Temps, env: E)
    requires RunsFunction(x, body, T) && ListJumpsOk(body, NoShape)
    ensures Diverges(x, Start(t, env)) <==> FunctionLoops(body, x, env)
  {
    hide RunsFunction, ListJumpsOk, Goes, ExecList, Final;
    if Diverges(x, Start(t, env)) {
      forall fuel: nat ensures Final(ExecList(body, x.sc, x.h, env, fuel)) == None {
        FunctionFollows(x, body, T, t, env, fuel);
        if Final(ExecList(body, x.sc, x.h, env, fuel)).Some? {
          var n := HaltFuel(x, Start(t, env), Final(ExecList(body, x.sc, x.h, env, fuel)).value);
        }
      }
    }
    if FunctionLoops(body, x, env) {
      forall k: nat ensures Alive(x.f, x.h, Start(t, env), k) {
        FunctionFollows(x, body, T, t, env, k);
      }
    }
  }

  // ----- scripts -----

  /** The completion value of a script: the value of the last top-level
      expression statement that was evaluated, here starting from `last`. */
  function RunScript<E>(ss: StmtList, last: Value, sc: Scope, h: Host<E>, env: E, fuel: nat): Option<Result<E>> {
    match ss
    case SNil => Some(Returned(last, env))
    case SCons(s, tail) =>
      if s.ExprStmt? then
        match EvalExpr(s.expr, sc, h, env)
        case Ok(v, env1) => RunScript(tail, v, sc, h, env1, fuel)
        case Thrown(v, env1) => Some(Threw(v, env1))
      else
        match Exec(s, [], sc, h, env, fuel)
        case Done(Normal, env1) => RunScript(tail, last, sc, h, env1, fuel)
        case r => Final(r)
  }

  ghost predicate ScriptLoops<E>(body: StmtList, x: Ctx<E>, env: E) {
    forall fuel: nat :: RunScript(body, Undefined, x.sc, x.h, env, fuel) == None
  }

  ghost predicate RunsScript<E>(x: Ctx<E>, body: StmtList, T: Tables) {
    && Sound(x) && Wf(T, x.f.userSlots)
    && x.f.code == GenScript(body, T, x.sc).code && GenScript(body, T, x.sc).tabs.consts <= x.f.consts
  }

  /** The value that a return would pop. */
  function LastValue(st: seq<Value>): Value {
    if st == [] then Undefined else Top(st)
  }

  lemma {:induction false} TopFollows<E>(ss: StmtList, base: nat, T: Tables, x: Ctx<E>, a: State<E>, st: seq<Value>,
                                         t: Temps, env: E, fuel: nat)
    requires StmtPlaced(x, GenTop(ss, base, T, x.sc), base, T)
    requires At(x.f.code, base + |GenTop(ss, base, T, x.sc).code|, [Bare(ReturnOp)])
    requires ListJumpsOk(ss, NoShape)
    requires Goes(x, a, Running(Config(base, st, t, env)))
    ensures Follows(RunScript(ss, LastValue(st), x.sc, x.h, env, fuel), x, a, fuel)
    decreases ss, 0
  {
    hide At, Wf, Sound, Goes, GenStmt, Exec, GenExpr, EvalExpr, JumpsOk;
    match ss
    case SNil => ThenExec(x, a, Config(base, st, t, env), Bare(ReturnOp));
    case SCons(s, tail) =>
      if s.ExprStmt? {
        ValueFollows(s.expr, tail, base, T, x, a, st, t, env, fuel);
      } else {
        StatementFollows(s, tail, base, T, x, a, st, t, env, fuel);
      }
  }

  lemma {:induction false} ValueFollows<E>(e: Expr, tail: StmtList, base: nat, T: Tables, x: Ctx<E>, a: State<E>,
                                           st: seq<Value>, t: Temps, env: E, fuel: nat)
    requires StmtPlaced(x, GenTop(SCons(ExprStmt(e), tail), base, T, x.sc), base, T)
    requires At(x.f.code, base + |GenTop(SCons(ExprStmt(e), tail), base, T, x.sc).code|, [Bare(ReturnOp)])
    requires ListJumpsOk(tail, NoShape)
    requires Goes(x, a, Running(Config(base, st, t, env)))
    ensures Follows(RunScript(SCons(ExprStmt(e), tail), LastValue(st), x.sc, x.h, env, fuel), x, a, fuel)
    decreases tail, 1
  {
    hide At, Wf, Agree, Sound, Goes, GenExpr, EvalExpr, Follows, Alive;
    var g := GenExpr(e, base, T, x.sc);
    var rest := GenTop(tail, base + |g.code|, g.tabs, x.sc);
    ExprTables(e, base, T, x.sc, x.f.userSlots);
    TopTables(tail, base + |g.code|, g.tabs, x.sc, x.f.userSlots);
    AtSplit(x.f.code, base, g.code, rest.code);
    var t' := ExprRuns(e, base, T, x, a, st, t, env);
    match EvalExpr(e, x.sc, x.h, env)
    case Thrown(v, env1) => FollowsResult(Threw(v, env1), x, a, fuel);
    case Ok(v, env1) =>
      Peel(st, v);
      TopFollows(tail, base + |g.code|, g.tabs, x, a, st + [v], t', env1, fuel);
  }

  lemma FollowsResult<E>(q: Result<E>, x: Ctx<E>, a: State<E>, fuel: nat)
    requires q != Fault && Goes(x, a, Halted(q))
    ensures Follows(Some(q), x, a, fuel)
  {
  }

  lemma {:induction false} StatementFollows<E>(s: Stmt, tail: StmtList, base: nat, T: Tables, x: Ctx<E>, a: State<E>,
                                               st: seq<Value>, t: Temps, env: E, fuel: nat)
    requires !s.ExprStmt? && StmtPlaced(x, GenTop(SCons(s, tail), base, T, x.sc), base, T)
    requires At(x.f.code, base + |GenTop(SCons(s, tail), base, T, x.sc).code|, [Bare(ReturnOp)])
    requires ListJumpsOk(SCons(s, tail), NoShape)
    requires Goes(x, a, Running(Config(base, st, t, env)))
    ensures Follows(RunScript(SCons(s, tail), LastValue(st), x.sc, x.h, env, fuel), x, a, fuel)
    decreases tail, 1
  {
    hide At, Wf, Sound, Goes, GenStmt, Exec, GenExpr, EvalExpr, JumpsOk;
    var g := GenStmt(s, base, [], NoShape, NoTargets, T, x.sc);
    var rest := GenTop(tail, base + |g.code|, g.tabs, x.sc);
    StmtRegular(s, base, [], NoShape, NoTargets, T, x.sc, x.f.userSlots);
    TopTables(tail, base + |g.code|, g.tabs, x.sc, x.f.userSlots);
    AtSplit(x.f.code, base, g.code, rest.code);
    var t' := StmtRuns(s, base, [], NoShape, NoTargets, T, x, a, st, t, env, fuel);
    match Exec(s, [], x.sc, x.h, env, fuel)
    case Done(Normal, env1) => TopFollows(tail, base + |g.code|, g.tabs, x, a, st, t', env1, fuel);
    case _ =>
  }

  lemma ScriptFollows<E>(x: Ctx<E>, body: StmtList, T: Tables, t: Temps, env: E, fuel: nat)
    requires RunsScript(x, body, T) && ListJumpsOk(body, NoShape)
    ensures Follows(RunScript(body, Undefined, x.sc, x.h, env, fuel), x, Start(t, env), fuel)
  {
    hide Wf, Sound, GenTop, RunScript, Goes, ListJumpsOk;
    var g := GenTop(body, 0, T, x.sc);
    assert x.f.code[..|g.code|] == g.code && x.f.code[|g.code|..|g.code| + 1] == [Bare(ReturnOp)];
    assert At(x.f.code, 0, g.code) && At(x.f.code, |g.code|, [Bare(ReturnOp)]);
    SelfGoes(x, Start(t, env));
    TopFollows(body, 0, T, x, Start(t, env), [], t, env, fuel);
  }

  /** A script ends with its completion value, and an empty operand stack is
      popped only by the last `Return`. */
  lemma ScriptCorrect<E>(x: Ctx<E>, body: StmtList, T: Tables, t: Temps, env: E, q: Result<E>)
    requires RunsScript(x, body, T) && ListJumpsOk(body, NoShape)
    ensures Goes(x, Start(t, env), Halted(q))
            <==> exists fuel: nat :: RunScript(body, Undefined, x.sc, x.h, env, fuel) == Some(q)
    ensures !Goes(x, Start(t, env), Halted(Fault))
  {
    hide RunsScript, ListJumpsOk, Goes, RunScript;
    if Goes(x, Start(t, env), Halted(q)) {
      var fuel := HaltFuel(x, Start(t, env), q);
      ScriptFollows(x, body, T, t, env, fuel);
      FollowsHalted(RunScript(body, Undefined, x.sc, x.h, env, fuel), x, Start(t, env), q, fuel);
    }
    if fuel: nat :| RunScript(body, Undefined, x.sc, x.h, env, fuel) == Some(q) {
      ScriptFollows(x, body, T, t, env, fuel);
    }
    if Goes(x, Start(t, env), Halted(Fault)) {
      var fuel := HaltFuel(x, Start(t, env), Fault);
      ScriptFollows(x, body, T, t, env, fuel);
      FollowsHalted(RunScript(body, Undefined, x.sc, x.h, env, fuel), x, Start(t, env), Fault, fuel);
    }
  }

  lemma ScriptDiverges<E>(x: Ctx<E>, body: StmtList, T: Tables, t: Temps, env: E)
    requires RunsScript(x, body, T) && ListJumpsOk(body, NoShape)
    ensures Diverges(x, Start(t, env)) <==> ScriptLoops(body, x, env)
  {
    hide RunsScript, ListJumpsOk, Goes, RunScript;
    if Diverges(x, Start(t, env)) {
      forall fuel: nat ensures RunScript(body, Undefined, x.sc, x.h, env, fuel) == None {
        ScriptFollows(x, body, T, t, env, fuel);
        if RunScript(body, Undefined, x.sc, x.h, env, fuel).Some? {
          var n := HaltFuel(x, Start(t, env), RunScript(body, Undefined, x.sc, x.h, env, fuel).value);
        }
      }
    }
    if ScriptLoops(body, x, env) {
      forall k: nat ensures Alive(x.f, x.h, Start(t, env), k) {
        ScriptFollows(x, body, T, t, env, k);
      }
    }
  }
}
