/** The names that code mentions, and that its meaning depends on a scope through
    them alone. */
module NameUse {
  import opened Syntax
  import opened Machine
  import opened Semantics

  function PropertyNames(p: Property): set<string> {
    if p.Computed? then ExprNames(p.key) else {}
  }

  function TargetNames(t: Target): set<string> {
    match t
    case IdentTarget(name) => {name}
    case MemberTarget(obj, prop) => ExprNames(obj) + PropertyNames(prop)
  }

  /** The names that an expression mentions. */
  function ExprNames(e: Expr): set<string> {
    match e
    case Lit(_) => {}
    case Ident(name) => {name}
    case Paren(inner) => ExprNames(inner)
    case Unary(_, arg) => ExprNames(arg)
    case Binary(_, l, r) => ExprNames(l) + ExprNames(r)
    case LogicalExpr(_, l, r) => ExprNames(l) + ExprNames(r)
    case Conditional(test, cons, alt) => ExprNames(test) + ExprNames(cons) + ExprNames(alt)
    case Sequence(es) => AllNames(es)
    case AssignExpr(_, target, right) => TargetNames(target) + ExprNames(right)
    case Update(_, _, target) => TargetNames(target)
    case Member(obj, prop, _) => ExprNames(obj) + PropertyNames(prop)
  }

  function AllNames(es: ExprList): set<string> {
    match es
    case ENil => {}
    case ECons(e, tail) => ExprNames(e) + AllNames(tail)
  }

  function OptionalNames(e: Option<Expr>): set<string> {
    if e.Some? then ExprNames(e.value) else {}
  }

  function StmtNames(s: Stmt): set<string> {
    match s
    case Block(body) => ListNames(body)
    case ExprStmt(e) => ExprNames(e)
    case Return(e) => OptionalNames(e)
    case ThrowStmt(e) => ExprNames(e)
    case If(test, cons, alt) => ExprNames(test) + StmtNames(cons) + (if alt.Some? then StmtNames(alt.value) else {})
    case While(test, body) => ExprNames(test) + StmtNames(body)
    case DoWhile(body, test) => ExprNames(test) + StmtNames(body)
    case For(init, cond, update, body) =>
      OptionalNames(init) + OptionalNames(cond) + OptionalNames(update) + StmtNames(body)
    case Switch(disc, cases) => ExprNames(disc) + CaseNames(cases)
    case Labeled(_, body) => StmtNames(body)
    case _ => {}
  }

  function ListNames(ss: StmtList): set<string> {
    match ss
    case SNil => {}
    case SCons(s, tail) => StmtNames(s) + ListNames(tail)
  }

  function CaseNames(cases: CaseList): set<string> {
    match cases
    case CNil => {}
    case CCons(c, tail) => OptionalNames(c.test) + ListNames(c.body) + CaseNames(tail)
  }

  /** Both scopes resolve these names alike. */
  ghost predicate Alike(a: Scope, b: Scope, names: set<string>) {
    forall x :: x in names ==> Resolve(a, x) == Resolve(b, x)
  }

  // ----- expressions -----

  lemma {:induction false} StripNames(e: Expr)
    ensures ExprNames(Strip(e)) == ExprNames(e)
    decreases e
  {
    if e.Paren? {
      StripNames(e.inner);
    }
  }

  lemma {:induction false} ExprAlike<E>(e: Expr, a: Scope, b: Scope, h: Host<E>, env: E)
    requires Alike(a, b, ExprNames(e))
    ensures EvalExpr(e, a, h, env) == EvalExpr(e, b, h, env)
    decreases e, 4
  {
    hide EvalUnary, EvalOperands, EvalLogical, EvalConditional, EvalSequence, EvalChain, EvalUpdate, EvalNumericUpdate;
    hide EvalPlainAssign, EvalTargetFirst, EvalCombinedAssign;
    match e
    case Lit(_) =>
    case Ident(_) =>
    case Paren(inner) => ExprAlike(inner, a, b, h, env);
    case Unary(_, _) => UnaryAlike(e, a, b, h, env);
    case Binary(_, _, _) => OperandsAlike(e, a, b, h, env);
    case LogicalExpr(_, _, _) => LogicalAlike(e, a, b, h, env);
    case Conditional(_, _, _) => ConditionalAlike(e, a, b, h, env);
    case Sequence(es) => SequenceAlike(es, a, b, h, env);
    case AssignExpr(_, _, _) =>
      PlainAlike(e, a, b, h, env);
      TargetFirstAlike(e, a, b, h, env);
      CombinedAlike(e, a, b, h, env);
    case Update(_, _, _) =>
      UpdateAlike(e, a, b, h, env);
      NumericAlike(e, a, b, h, env);
    case Member(_, _, _) => ChainAlike(e, a, b, h, env);
  }

  lemma {:induction false} UnaryAlike<E>(e: Expr, a: Scope, b: Scope, h: Host<E>, env: E)
    requires e.Unary? && Alike(a, b, ExprNames(e))
    ensures TypeofName(e, a, h) == TypeofName(e, b, h) && EvalUnary(e, a, h, env) == EvalUnary(e, b, h, env)
    decreases e, 0
  {
    hide EvalExpr, Resolve;
    StripNames(e.arg);
    ExprAlike(e.arg, a, b, h, env);
  }

  lemma {:induction false} OperandsAlike<E>(e: Expr, a: Scope, b: Scope, h: Host<E>, env: E)
    requires e.Binary? && Alike(a, b, ExprNames(e))
    ensures EvalOperands(e, a, h, env) == EvalOperands(e, b, h, env)
    decreases e, 0
  {
    hide EvalExpr, Resolve;
    ExprAlike(e.left, a, b, h, env);
    ExprAlike(e.right, a, b, h, EvalExpr(e.left, a, h, env).env);
  }

  lemma {:induction false} LogicalAlike<E>(e: Expr, a: Scope, b: Scope, h: Host<E>, env: E)
    requires e.LogicalExpr? && Alike(a, b, ExprNames(e))
    ensures EvalLogical(e, a, h, env) == EvalLogical(e, b, h, env)
    decreases e, 0
  {
    hide EvalExpr, Resolve;
    ExprAlike(e.left, a, b, h, env);
    ExprAlike(e.right, a, b, h, EvalExpr(e.left, a, h, env).env);
  }

  lemma {:induction false} ConditionalAlike<E>(e: Expr, a: Scope, b: Scope, h: Host<E>, env: E)
    requires e.Conditional? && Alike(a, b, ExprNames(e))
    ensures EvalConditional(e, a, h, env) == EvalConditional(e, b, h, env)
    decreases e, 0
  {
    hide EvalExpr, Resolve;
    ExprAlike(e.test, a, b, h, env);
    ExprAlike(e.cons, a, b, h, EvalExpr(e.test, a, h, env).env);
    ExprAlike(e.alt, a, b, h, EvalExpr(e.test, a, h, env).env);
  }

  lemma {:induction false} SequenceAlike<E>(es: ExprList, a: Scope, b: Scope, h: Host<E>, env: E)
    requires Alike(a, b, AllNames(es))
    ensures EvalSequence(es, a, h, env) == EvalSequence(es, b, h, env)
    decreases es, 0
  {
    hide EvalExpr, Resolve;
    if es.ECons? {
      ExprAlike(es.head, a, b, h, env);
      SequenceAlike(es.tail, a, b, h, EvalExpr(es.head, a, h, env).env);
    }
  }

  lemma {:induction false} PropertyAlike<E>(p: Property, a: Scope, b: Scope, h: Host<E>, env: E)
    requires Alike(a, b, PropertyNames(p))
    ensures EvalProperty(p, a, h, env) == EvalProperty(p, b, h, env)
    decreases p, 0
  {
    hide EvalExpr, Resolve;
    if p.Computed? {
      ExprAlike(p.key, a, b, h, env);
    }
  }

  lemma {:induction false} TargetAlike<E>(t: Target, a: Scope, b: Scope, h: Host<E>, env: E)
    requires Alike(a, b, TargetNames(t))
    ensures EvalTarget(t, a, h, env) == EvalTarget(t, b, h, env)
    decreases t, 0
  {
    hide EvalExpr, EvalProperty, Resolve;
    if t.MemberTarget? {
      ExprAlike(t.obj, a, b, h, env);
      PropertyAlike(t.prop, a, b, h, EvalExpr(t.obj, a, h, env).env);
    }
  }

  /** What a target evaluates to is loaded and stored alike. */
  lemma RefAlike<E>(t: Target, a: Scope, b: Scope, h: Host<E>, env: E)
    requires Alike(a, b, TargetNames(t)) && EvalTarget(t, a, h, env).RefOk?
    ensures var r := EvalTarget(t, a, h, env).ref;
            && (forall e :: LoadRef(r, a, h, e) == LoadRef(r, b, h, e))
            && (forall v, w, e :: StoreAndYield(r, v, w, a, h, e) == StoreAndYield(r, v, w, b, h, e))
  {
    hide EvalExpr, EvalProperty;
  }

  lemma {:induction false} PlainAlike<E>(e: Expr, a: Scope, b: Scope, h: Host<E>, env: E)
    requires e.AssignExpr? && Alike(a, b, ExprNames(e))
    ensures EvalPlainAssign(e, a, h, env) == EvalPlainAssign(e, b, h, env)
    decreases e, 0
  {
    hide EvalExpr, EvalTarget, Resolve, StoreAndYield;
    ExprAlike(e.right, a, b, h, env);
    var v := EvalExpr(e.right, a, h, env);
    TargetAlike(e.target, a, b, h, v.env);
    if EvalTarget(e.target, a, h, v.env).RefOk? {
      RefAlike(e.target, a, b, h, v.env);
    }
  }

  lemma {:induction false} TargetFirstAlike<E>(e: Expr, a: Scope, b: Scope, h: Host<E>, env: E)
    requires e.AssignExpr? && Alike(a, b, ExprNames(e))
    ensures EvalTargetFirst(e, a, h, env) == EvalTargetFirst(e, b, h, env)
    decreases e, 0
  {
    hide EvalExpr, EvalTarget, Resolve, StoreAndYield;
    TargetAlike(e.target, a, b, h, env);
    var r := EvalTarget(e.target, a, h, env);
    ExprAlike(e.right, a, b, h, r.env);
    if r.RefOk? {
      RefAlike(e.target, a, b, h, env);
    }
  }

  lemma {:induction false} CombinedAlike<E>(e: Expr, a: Scope, b: Scope, h: Host<E>, env: E)
    requires e.AssignExpr? && Alike(a, b, ExprNames(e))
    ensures EvalCombinedAssign(e, a, h, env) == EvalCombinedAssign(e, b, h, env)
    decreases e, 0
  {
    hide EvalExpr, EvalTarget, Resolve, StoreAndYield, LoadRef, CombineAssigned;
    TargetAlike(e.target, a, b, h, env);
    var r := EvalTarget(e.target, a, h, env);
    if r.RefOk? {
      RefAlike(e.target, a, b, h, env);
      ExprAlike(e.right, a, b, h, LoadRef(r.ref, a, h, r.env).env);
    }
  }

  lemma {:induction false} UpdateAlike<E>(e: Expr, a: Scope, b: Scope, h: Host<E>, env: E)
    requires e.Update? && Alike(a, b, ExprNames(e))
    ensures EvalUpdate(e, a, h, env) == EvalUpdate(e, b, h, env)
    decreases e, 0
  {
    hide EvalTarget, Resolve, StoreAndYield, LoadRef, EvalBinary;
    TargetAlike(e.target, a, b, h, env);
    if EvalTarget(e.target, a, h, env).RefOk? {
      RefAlike(e.target, a, b, h, env);
    }
  }

  lemma {:induction false} NumericAlike<E>(e: Expr, a: Scope, b: Scope, h: Host<E>, env: E)
    requires e.Update? && Alike(a, b, ExprNames(e))
    ensures EvalNumericUpdate(e, a, h, env) == EvalNumericUpdate(e, b, h, env)
    decreases e, 0
  {
    hide EvalTarget, Resolve, StoreAndYield, LoadRef, EvalBinary;
    TargetAlike(e.target, a, b, h, env);
    var r := EvalTarget(e.target, a, h, env);
    if r.RefOk? {
      RefAlike(e.target, a, b, h, env);
      var o := LoadRef(r.ref, a, h, r.env);
      assert o == LoadRef(r.ref, b, h, r.env);
      if o.Ok? && h.numeric(o.value, o.env).Ok? {
        var n := h.numeric(o.value, o.env);
        var w := EvalBinary(UpdateBinOp(e.updop), n.value, Unit(n.value), h, n.env);
        var y := if e.prefix then w.value else n.value;
        assert StoreAndYield(r.ref, w.value, y, a, h, w.env) == StoreAndYield(r.ref, w.value, y, b, h, w.env);
      }
    }
  }

  lemma {:induction false} ChainAlike<E>(e: Expr, a: Scope, b: Scope, h: Host<E>, env: E)
    requires Alike(a, b, ExprNames(e))
    ensures EvalChain(e, a, h, env) == EvalChain(e, b, h, env)
    decreases e, if e.Member? then 0 else 5
  {
    hide EvalExpr, EvalProperty, Resolve;
    if e.Member? {
      ChainAlike(e.obj, a, b, h, env);
      match EvalChain(e.obj, a, h, env)
      case Through(Ok(_, env1)) => PropertyAlike(e.prop, a, b, h, env1);
      case _ =>
    } else {
      ExprAlike(e, a, b, h, env);
    }
  }

  lemma OptionalAlike<E>(e: Option<Expr>, a: Scope, b: Scope, h: Host<E>, env: E)
    requires Alike(a, b, OptionalNames(e))
    ensures EvalOptional(e, a, h, env) == EvalOptional(e, b, h, env)
  {
    hide EvalExpr;
    if e.Some? {
      ExprAlike(e.value, a, b, h, env);
    }
  }

  // ----- statements -----

  lemma {:induction false} StmtAlike<E>(s: Stmt, labels: seq<string>, a: Scope, b: Scope, h: Host<E>, env: E, fuel: nat)
    requires Alike(a, b, StmtNames(s))
    ensures Exec(s, labels, a, h, env, fuel) == Exec(s, labels, b, h, env, fuel)
    decreases fuel, s, 1
  {
    hide EvalExpr, ExecList, ExecWhile, ExecDo, ExecFor, ExecCases, EvalOptional, SelectCase, Resolve;
    match s
    case Empty =>
    case Block(body) => ListAlike(body, a, b, h, env, fuel);
    case ExprStmt(e) => ExprAlike(e, a, b, h, env);
    case Return(e) => ReturnAlike(e, labels, a, b, h, env, fuel);
    case ThrowStmt(e) => ExprAlike(e, a, b, h, env);
    case If(_, _, _) => IfAlike(s, labels, a, b, h, env, fuel);
    case While(test, body) => WhileAlike(test, body, labels, a, b, h, env, fuel);
    case DoWhile(body, test) => DoAlike(body, test, labels, a, b, h, env, fuel);
    case For(init, cond, update, body) =>
      OptionalAlike(init, a, b, h, env);
      ForAlike(cond, update, body, labels, a, b, h, EvalOptional(init, a, h, env).env, fuel);
    case Switch(_, _) => SwitchAlike(s, labels, a, b, h, env, fuel);
    case Break(_) =>
    case Continue(_) =>
    case Labeled(name, body) => StmtAlike(body, labels + [name], a, b, h, env, fuel);
  }

  lemma ReturnAlike<E>(e: Option<Expr>, labels: seq<string>, a: Scope, b: Scope, h: Host<E>, env: E, fuel: nat)
    requires Alike(a, b, OptionalNames(e))
    ensures Exec(Return(e), labels, a, h, env, fuel) == Exec(Return(e), labels, b, h, env, fuel)
  {
    hide EvalExpr, Resolve;
    if e.Some? {
      ExprAlike(e.value, a, b, h, env);
    }
  }

  lemma {:induction false} IfAlike<E>(s: Stmt, labels: seq<string>, a: Scope, b: Scope, h: Host<E>, env: E, fuel: nat)
    requires s.If? && Alike(a, b, StmtNames(s))
    ensures Exec(s, labels, a, h, env, fuel) == Exec(s, labels, b, h, env, fuel)
    decreases fuel, s, 0
  {
    hide EvalExpr, Resolve;
    ExprAlike(s.test, a, b, h, env);
    var env1 := EvalExpr(s.test, a, h, env).env;
    StmtAlike(s.cons, [], a, b, h, env1, fuel);
    if s.alt.Some? {
      StmtAlike(s.alt.value, [], a, b, h, env1, fuel);
    }
  }

  lemma {:induction false} SwitchAlike<E>(s: Stmt, labels: seq<string>, a: Scope, b: Scope, h: Host<E>, env: E,
                                          fuel: nat)
    requires s.Switch? && Alike(a, b, StmtNames(s))
    ensures Exec(s, labels, a, h, env, fuel) == Exec(s, labels, b, h, env, fuel)
    decreases fuel, s, 0
  {
    hide EvalExpr, Resolve, ExecCases, SelectCase;
    ExprAlike(s.disc, a, b, h, env);
    var d := EvalExpr(s.disc, a, h, env);
    if d.Ok? {
      SelectAlike(s.cases, 0, d.value, a, b, h, d.env);
      match SelectCase(s.cases, 0, d.value, a, h, d.env)
      case NoCase(_, _) =>
      case Chosen(i, env2) => CasesAlike(s.cases, StartCase(s.cases, i), a, b, h, env2, fuel);
    }
  }

  /** The meaning of a body depends on its scope through the names in it alone. */
  lemma {:induction false} ListAlike<E>(ss: StmtList, a: Scope, b: Scope, h: Host<E>, env: E, fuel: nat)
    requires Alike(a, b, ListNames(ss))
    ensures ExecList(ss, a, h, env, fuel) == ExecList(ss, b, h, env, fuel)
    decreases fuel, ss, 0
  {
    hide Exec, Resolve;
    match ss
    case SNil =>
    case SCons(s, tail) =>
      StmtAlike(s, [], a, b, h, env, fuel);
      match Exec(s, [], a, h, env, fuel)
      case Done(Normal, env1) => ListAlike(tail, a, b, h, env1, fuel);
      case _ =>
  }

  lemma {:induction false} WhileAlike<E>(test: Expr, body: Stmt, labels: seq<string>, a: Scope, b: Scope, h: Host<E>,
                                         env: E, fuel: nat)
    requires Alike(a, b, ExprNames(test)) && Alike(a, b, StmtNames(body))
    ensures ExecWhile(test, body, labels, a, h, env, fuel) == ExecWhile(test, body, labels, b, h, env, fuel)
    decreases fuel, body, 2
  {
    hide EvalExpr, Exec, Alike, LoopContinues;
    if fuel > 0 {
      ExprAlike(test, a, b, h, env);
      match EvalExpr(test, a, h, env)
      case Thrown(_, _) =>
      case Ok(_, env1) =>
        StmtAlike(body, [], a, b, h, env1, fuel);
        match Exec(body, [], a, h, env1, fuel)
        case Timeout =>
        case Done(_, env2) => WhileAlike(test, body, labels, a, b, h, env2, fuel - 1);
    }
  }

  lemma {:induction false} DoAlike<E>(body: Stmt, test: Expr, labels: seq<string>, a: Scope, b: Scope, h: Host<E>,
                                      env: E, fuel: nat)
    requires Alike(a, b, ExprNames(test)) && Alike(a, b, StmtNames(body))
    ensures ExecDo(body, test, labels, a, h, env, fuel) == ExecDo(body, test, labels, b, h, env, fuel)
    decreases fuel, body, 2
  {
    hide EvalExpr, Exec, Alike, LoopContinues;
    if fuel > 0 {
      StmtAlike(body, [], a, b, h, env, fuel);
      match Exec(body, [], a, h, env, fuel)
      case Timeout =>
      case Done(_, env1) =>
        ExprAlike(test, a, b, h, env1);
        match EvalExpr(test, a, h, env1)
        case Thrown(_, _) =>
        case Ok(_, env2) => DoAlike(body, test, labels, a, b, h, env2, fuel - 1);
    }
  }

  lemma {:induction false} ForAlike<E>(cond: Option<Expr>, update: Option<Expr>, body: Stmt, labels: seq<string>,
                                       a: Scope, b: Scope, h: Host<E>, env: E, fuel: nat)
    requires Alike(a, b, OptionalNames(cond)) && Alike(a, b, OptionalNames(update)) && Alike(a, b, StmtNames(body))
    ensures ExecFor(cond, update, body, labels, a, h, env, fuel) == ExecFor(cond, update, body, labels, b, h, env, fuel)
    decreases fuel, body, 2
  {
    hide EvalOptional, Exec, Alike, LoopContinues;
    if fuel > 0 {
      OptionalAlike(cond, a, b, h, env);
      var t := EvalOptional(cond, a, h, env);
      if t.Ok? {
        StmtAlike(body, [], a, b, h, t.env, fuel);
        var r := Exec(body, [], a, h, t.env, fuel);
        if r.Done? {
          OptionalAlike(update, a, b, h, r.env);
          var u := EvalOptional(update, a, h, r.env);
          if u.Ok? {
            ForAlike(cond, update, body, labels, a, b, h, u.env, fuel - 1);
          }
        }
      }
    }
  }

  lemma {:induction false} SelectAlike<E>(cases: CaseList, i: nat, d: Value, a: Scope, b: Scope, h: Host<E>, env: E)
    requires Alike(a, b, CaseNames(cases))
    ensures SelectCase(cases, i, d, a, h, env) == SelectCase(cases, i, d, b, h, env)
    decreases cases
  {
    hide EvalExpr, Resolve;
    if cases.CCons? {
      var test := cases.head.test;
      if test.None? {
        SelectAlike(cases.tail, i + 1, d, a, b, h, env);
      } else {
        ExprAlike(test.value, a, b, h, env);
        SelectAlike(cases.tail, i + 1, d, a, b, h, EvalExpr(test.value, a, h, env).env);
      }
    }
  }

  lemma {:induction false} CasesAlike<E>(cases: CaseList, from: nat, a: Scope, b: Scope, h: Host<E>, env: E, fuel: nat)
    requires Alike(a, b, CaseNames(cases))
    ensures ExecCases(cases, from, a, h, env, fuel) == ExecCases(cases, from, b, h, env, fuel)
    decreases fuel, cases, 0
  {
    hide ExecList, Resolve;
    if cases.CCons? {
      if from > 0 {
        CasesAlike(cases.tail, from - 1, a, b, h, env, fuel);
      } else {
        ListAlike(cases.head.body, a, b, h, env, fuel);
        match ExecList(cases.head.body, a, h, env, fuel)
        case Done(Normal, env1) => CasesAlike(cases.tail, 0, a, b, h, env1, fuel);
        case _ =>
      }
    }
  }
}
