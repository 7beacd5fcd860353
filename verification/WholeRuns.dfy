/** Whole runs of compiled code against whole runs of its source, in the order
    that is emitted and in the one that is specified. */
module WholeRuns {
  import opened Syntax
  import opened Machine
  import opened Semantics
  import opened FunctionCorrect
  import opened SpecifiedOrder
  import opened CompletionValues

  ghost predicate EndsWith<E(!new)>(f: Function, h: Host<E>, t: Temps, env: E, q: Result<E>) {
    Reaches(f, h, Start(t, env), Halted(q))
  }

  /** The code of `f` ends, with any host, exactly as the source of `body` does
      in the emitted order. */
  ghost predicate RunsAsFunction<E(!new)>(f: Function, body: StmtList, sc: Scope) {
    forall h: Host<E>, t: Temps, env: E, q: Result<E> :: h.order.Emitted? ==>
      (EndsWith(f, h, t, env, q) <==> exists fuel: nat :: Final(ExecList(body, sc, h, env, fuel)) == Some(q))
  }

  ghost predicate RunsAsScript<E(!new)>(f: Function, body: StmtList, sc: Scope) {
    forall h: Host<E>, t: Temps, env: E, q: Result<E> :: h.order.Emitted? ==>
      (EndsWith(f, h, t, env, q) <==> exists fuel: nat :: RunScript(body, Undefined, sc, h, env, fuel) == Some(q))
  }

  /** A runtime in the specified order in which the counters hold numbers. */
  ghost predicate Lawful<E(!new)>(h: Host<E>, counters: Counters) {
    h.order.Specified? && Runtime(h) && HoldNumbers(h, counters)
  }

  /** The same in the specified order, with any lawful host. */
  ghost predicate FunctionAsSpecified<E(!new)>(f: Function, body: StmtList, sc: Scope, counters: Counters) {
    forall h: Host<E>, t: Temps, env: E, q: Result<E> :: Lawful(h, counters) ==>
      (EndsWith(f, h, t, env, q) <==> exists fuel: nat :: Final(ExecList(body, sc, h, env, fuel)) == Some(q))
  }

  ghost predicate ScriptAsSpecified<E(!new)>(f: Function, body: StmtList, sc: Scope, counters: Counters) {
    forall h: Host<E>, t: Temps, env: E, q: Result<E> :: Lawful(h, counters) ==>
      (EndsWith(f, h, t, env, q) <==> exists fuel: nat :: RunScript(body, Undefined, sc, h, env, fuel) == Some(q))
  }

  /** The code ends as the standard says, also in its value. */
  ghost predicate ScriptAsStandard<E(!new)>(f: Function, body: StmtList, sc: Scope, counters: Counters) {
    forall h: Host<E>, t: Temps, env: E, q: Result<E> :: Lawful(h, counters) ==>
      (EndsWith(f, h, t, env, q) <==> exists fuel: nat :: StandardScript(body, sc, h, env, fuel) == Some(q))
  }

  // ----- the machine does not look at the order -----

  lemma StepBlind<E>(f: Function, h: Host<E>, k: Host<E>, a: State<E>)
    requires k == h.(order := k.order)
    ensures Step(f, k, a) == Step(f, h, a)
  {
  }

  lemma {:induction false} RunBlind<E>(f: Function, h: Host<E>, k: Host<E>, a: State<E>, n: nat)
    requires k == h.(order := k.order)
    ensures Run(f, k, a, n) == Run(f, h, a, n)
    decreases n
  {
    hide Step;
    if n > 0 {
      StepBlind(f, h, k, a);
      RunBlind(f, h, k, Step(f, h, a), n - 1);
    }
  }

  lemma EndsBlind<E(!new)>(f: Function, h: Host<E>, k: Host<E>, t: Temps, env: E, q: Result<E>)
    requires k == h.(order := k.order)
    ensures EndsWith(f, k, t, env, q) <==> EndsWith(f, h, t, env, q)
  {
    hide Run;
    forall n: nat ensures Run(f, k, Start(t, env), n) == Run(f, h, Start(t, env), n) {
      RunBlind(f, h, k, Start(t, env), n);
    }
  }

  /** The host `h` with the emitted order. */
  lemma EmittedTwin<E(!new)>(h: Host<E>, counters: Counters)
    returns (e: Host<E>)
    requires Lawful(h, counters)
    ensures e == h.(order := Emitted) && Twins(e, h, counters)
  {
    e := h.(order := Emitted);
    TwinCounters(h, e, counters);
    TwinReads(h, e);
    TwinOperators(h, e);
  }

  lemma TwinCounters<E(!new)>(h: Host<E>, e: Host<E>, counters: Counters)
    requires e == h.(order := e.order) && HoldNumbers(h, counters)
    ensures HoldNumbers(e, counters)
  {
    assert forall r, env :: e.load(r, env) == h.load(r, env) && forall v, w :: e.numeric(v, w) == h.numeric(v, w);
    assert forall o, k, env :: e.getProp(o, k, env) == h.getProp(o, k, env);
  }

  lemma TwinReads<E(!new)>(h: Host<E>, e: Host<E>)
    requires e == h.(order := e.order) && QuietReads(h)
    ensures QuietReads(e)
  {
    assert forall r, env :: e.load(r, env) == h.load(r, env);
  }

  lemma TwinOperators<E(!new)>(h: Host<E>, e: Host<E>)
    requires e == h.(order := e.order) && QuietOperators(h)
    ensures QuietOperators(e)
  {
    assert forall op, a, b, env :: e.binary(op, a, b, env) == h.binary(op, a, b, env);
    assert forall op, v, env :: e.unary(op, v, env) == h.unary(op, v, env);
  }

  // ----- code whose meaning does not depend on the order -----

  /** Code that runs as its source in the emitted order also runs as it in the
      specified one when no part of it depends on the order. */
  lemma FunctionSame<E(!new)>(f: Function, body: StmtList, sc: Scope, counters: Counters)
    requires RunsAsFunction<E>(f, body, sc) && FreeList(body, sc, counters)
    ensures FunctionAsSpecified<E>(f, body, sc, counters)
  {
    hide FreeList, ExecList, Final, EndsWith, Twins, HoldNumbers, Runtime;
    forall h: Host<E>, t: Temps, env: E, q: Result<E> | Lawful(h, counters)
      ensures EndsWith(f, h, t, env, q) <==> exists fuel: nat :: Final(ExecList(body, sc, h, env, fuel)) == Some(q)
    {
      var e := EmittedTwin(h, counters);
      EndsBlind(f, e, h, t, env, q);
      if fuel: nat :| Final(ExecList(body, sc, h, env, fuel)) == Some(q) {
        ListSame(body, sc, e, h, counters, env, fuel);
      }
      if EndsWith(f, e, t, env, q) {
        var fuel: nat :| Final(ExecList(body, sc, e, env, fuel)) == Some(q);
        ListSame(body, sc, e, h, counters, env, fuel);
      }
    }
  }

  lemma ScriptSame<E(!new)>(f: Function, body: StmtList, sc: Scope, counters: Counters)
    requires RunsAsScript<E>(f, body, sc) && FreeList(body, sc, counters)
    ensures ScriptAsSpecified<E>(f, body, sc, counters)
  {
    hide FreeList, RunScript, EndsWith, Twins, HoldNumbers, Runtime;
    forall h: Host<E>, t: Temps, env: E, q: Result<E> | Lawful(h, counters)
      ensures EndsWith(f, h, t, env, q) <==> exists fuel: nat :: RunScript(body, Undefined, sc, h, env, fuel) == Some(q)
    {
      var e := EmittedTwin(h, counters);
      EndsBlind(f, e, h, t, env, q);
      if fuel: nat :| RunScript(body, Undefined, sc, h, env, fuel) == Some(q) {
        TopSame(body, Undefined, sc, e, h, counters, env, fuel);
      }
      if EndsWith(f, e, t, env, q) {
        var fuel: nat :| RunScript(body, Undefined, sc, e, env, fuel) == Some(q);
        TopSame(body, Undefined, sc, e, h, counters, env, fuel);
      }
    }
  }

  /** A script without a value after its last top-level expression statement
      also has the value of the standard. */
  lemma StandardSame<E(!new)>(f: Function, body: StmtList, sc: Scope, counters: Counters)
    requires ScriptAsSpecified<E>(f, body, sc, counters) && SilentTail(body)
    ensures ScriptAsStandard<E>(f, body, sc, counters)
  {
    hide RunScript, EndsWith, Lawful, SilentTail, StandardScript;
    forall h: Host<E>, t: Temps, env: E, q: Result<E> | Lawful(h, counters)
      ensures EndsWith(f, h, t, env, q) <==> exists fuel: nat :: StandardScript(body, sc, h, env, fuel) == Some(q)
    {
      forall fuel: nat
        ensures RunScript(body, Undefined, sc, h, env, fuel) == StandardScript(body, sc, h, env, fuel)
      {
        ScriptValue(body, sc, h, env, fuel);
      }
    }
  }

  lemma {:induction false} TopSame<E(!new)>(ss: StmtList, last: Value, sc: Scope, h: Host<E>, k: Host<E>,
                                            counters: Counters, env: E, fuel: nat)
    requires Twins(h, k, counters) && FreeList(ss, sc, counters)
    ensures RunScript(ss, last, sc, k, env, fuel) == RunScript(ss, last, sc, h, env, fuel)
    decreases ss
  {
    hide Twins, EvalExpr, Exec, Free;
    match ss
    case SNil =>
    case SCons(s, tail) =>
      if s.ExprStmt? {
        ExprSame(s.expr, sc, h, k, counters, env);
        var v := EvalExpr(s.expr, sc, h, env);
        if v.Ok? {
          TopSame(tail, v.value, sc, h, k, counters, v.env, fuel);
        }
      } else {
        StmtSame(s, [], sc, h, k, counters, env, fuel);
        match Exec(s, [], sc, h, env, fuel)
        case Done(Normal, env1) => TopSame(tail, last, sc, h, k, counters, env1, fuel);
        case _ =>
      }
  }
}
