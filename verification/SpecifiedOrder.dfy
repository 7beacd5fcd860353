/** Where the emitted order of evaluation and the one that ECMAScript specifies
    give the same result, and where they do not. */
module SpecifiedOrder {
  import opened Syntax
  import opened Machine
  import opened Semantics

  // ----- what the runtime promises -----

  /** A slot is read without effect, and a read that fails throws the same
      whichever slot it is. */
  ghost predicate QuietReads<E(!new)>(h: Host<E>) {
    && (forall r: VarRef, env :: !r.Global? && h.load(r, env).Ok? ==> h.load(r, env).env == env)
    && (forall r: VarRef, s: VarRef, env ::
          !r.Global? && !s.Global? && h.load(r, env).Thrown? && h.load(s, env).Thrown? ==>
            h.load(r, env) == h.load(s, env))
  }

  /** Whether an operator can fail. */
  predicate Total(op: BinOp) {
    op != In && op != Instanceof
  }

  /** Operators compute a value and do nothing else. */
  ghost predicate QuietOperators<E(!new)>(h: Host<E>) {
    && (forall op, a, b, env :: Total(op) ==> h.binary(op, a, b, env).Ok? && h.binary(op, a, b, env).env == env)
    && (forall op, v, env :: h.unary(op, v, env).Ok? && h.unary(op, v, env).env == env)
  }

  ghost predicate Runtime<E(!new)>(h: Host<E>) {
    QuietReads(h) && QuietOperators(h)
  }

  /** The name is not a declared `undefined`. */
  predicate Unshadowed(name: string, sc: Scope) {
    name == "undefined" ==> Resolve(sc, name).Global?
  }

  // ----- expressions that the host does not see -----

  /** Evaluation neither asks the host for anything nor can fail. */
  predicate Inert(e: Expr, sc: Scope) {
    match e
    case Lit(_) => true
    case Ident(name) => name == "undefined" && Resolve(sc, name).Global?
    case Paren(inner) => Inert(inner, sc)
    case Unary(op, arg) => (op == Not || op == Void) && Inert(arg, sc)
    case LogicalExpr(_, l, r) => Inert(l, sc) && Inert(r, sc)
    case Conditional(t, c, a) => Inert(t, sc) && Inert(c, sc) && Inert(a, sc)
    case Sequence(es) => AllInert(es, sc)
    case _ => false
  }

  predicate AllInert(es: ExprList, sc: Scope) {
    match es
    case ENil => true
    case ECons(e, tail) => Inert(e, sc) && AllInert(tail, sc)
  }

  predicate InertTarget(t: Target, sc: Scope) {
    t.MemberTarget? && Inert(t.obj, sc) && (t.prop.Computed? ==> Inert(t.prop.key, sc))
  }

  /** The value of an inert expression, for any host. */
  function InertValue(e: Expr, sc: Scope): Value
    requires Inert(e, sc)
  {
    match e
    case Lit(l) => LitValue(l)
    case Ident(_) => Undefined
    case Paren(inner) => InertValue(inner, sc)
    case Unary(op, arg) => if op == Not then Boolean(!Truthy(InertValue(arg, sc))) else Undefined
    case LogicalExpr(op, l, r) => if TakesRight(op, InertValue(l, sc)) then InertValue(r, sc) else InertValue(l, sc)
    case Conditional(t, c, a) => if Truthy(InertValue(t, sc)) then InertValue(c, sc) else InertValue(a, sc)
    case Sequence(es) => LastInert(es, sc)
  }

  function LastInert(es: ExprList, sc: Scope): Value
    requires AllInert(es, sc)
  {
    match es
    case ENil => Undefined
    case ECons(e, tail) => if tail.ENil? then InertValue(e, sc) else LastInert(tail, sc)
  }

  lemma {:induction false} InertEval<E>(e: Expr, sc: Scope, h: Host<E>, env: E)
    requires Inert(e, sc)
    ensures EvalExpr(e, sc, h, env) == Ok(InertValue(e, sc), env)
    decreases e
  {
    match e
    case Lit(_) =>
    case Ident(_) =>
    case Paren(inner) => InertEval(inner, sc, h, env);
    case Unary(_, arg) => InertEval(arg, sc, h, env);
    case LogicalExpr(_, l, r) => InertEval(l, sc, h, env); InertEval(r, sc, h, env);
    case Conditional(t, c, a) => InertEval(t, sc, h, env); InertEval(c, sc, h, env); InertEval(a, sc, h, env);
    case Sequence(es) => AllInertEval(es, sc, h, env);
  }

  lemma {:induction false} AllInertEval<E>(es: ExprList, sc: Scope, h: Host<E>, env: E)
    requires AllInert(es, sc)
    ensures EvalSequence(es, sc, h, env) == Ok(LastInert(es, sc), env)
    decreases es
  {
    match es
    case ENil =>
    case ECons(e, tail) => InertEval(e, sc, h, env); AllInertEval(tail, sc, h, env);
  }

  // ----- expressions that only look -----

  /** Evaluation reads slots and applies operators, and does nothing else. */
  predicate Quiet(e: Expr, sc: Scope) {
    match e
    case Lit(_) => true
    case Ident(name) => name == "undefined" || !Resolve(sc, name).Global?
    case Paren(inner) => Quiet(inner, sc)
    case Unary(_, arg) => Quiet(arg, sc)
    case Binary(op, l, r) => Total(op) && Quiet(l, sc) && Quiet(r, sc)
    case LogicalExpr(_, l, r) => Quiet(l, sc) && Quiet(r, sc)
    case Conditional(t, c, a) => Quiet(t, sc) && Quiet(c, sc) && Quiet(a, sc)
    case Sequence(es) => AllQuiet(es, sc)
    case _ => false
  }

  predicate AllQuiet(es: ExprList, sc: Scope) {
    match es
    case ENil => true
    case ECons(e, tail) => Quiet(e, sc) && AllQuiet(tail, sc)
  }

  predicate QuietTarget(t: Target, sc: Scope) {
    t.MemberTarget? && Quiet(t.obj, sc) && (t.prop.Computed? ==> Quiet(t.prop.key, sc))
  }

  /** Nothing has changed, or a slot could not be read. */
  ghost predicate QuietOutcome<E(!new)>(h: Host<E>, env: E, o: Outcome<E>) {
    if o.Ok? then o.env == env else exists r: VarRef :: !r.Global? && h.load(r, env) == o
  }

  lemma {:induction false} QuietEval<E(!new)>(e: Expr, sc: Scope, h: Host<E>, env: E)
    requires Runtime(h) && Quiet(e, sc)
    ensures QuietOutcome(h, env, EvalExpr(e, sc, h, env))
    decreases e
  {
    hide QuietOutcome, EvalBinary, EvalOperands, EvalUnary, EvalLogical, EvalConditional;
    match e
    case Lit(_) => NothingDone(h, env, EvalExpr(e, sc, h, env));
    case Ident(name) => QuietRead(name, sc, h, env);
    case Paren(inner) => QuietEval(inner, sc, h, env);
    case Unary(_, _) => QuietUnary(e, sc, h, env);
    case Binary(_, _, _) => QuietBinary(e, sc, h, env);
    case LogicalExpr(_, l, r) => QuietLogical(e, sc, h, env);
    case Conditional(t, c, a) => QuietConditional(e, sc, h, env);
    case Sequence(es) => QuietSequence(es, sc, h, env);
  }

  lemma NothingDone<E(!new)>(h: Host<E>, env: E, o: Outcome<E>)
    requires o.Ok? && o.env == env
    ensures QuietOutcome(h, env, o)
  {
  }

  lemma QuietRead<E(!new)>(name: string, sc: Scope, h: Host<E>, env: E)
    requires Runtime(h) && (name == "undefined" || !Resolve(sc, name).Global?)
    ensures QuietOutcome(h, env, LoadName(name, sc, h, env))
  {
  }

  lemma {:induction false} QuietUnary<E(!new)>(e: Expr, sc: Scope, h: Host<E>, env: E)
    requires Runtime(h) && e.Unary? && Quiet(e.arg, sc)
    ensures QuietOutcome(h, env, EvalExpr(e, sc, h, env))
    decreases e, 0
  {
    QuietEval(e.arg, sc, h, env);
    QuietStrip(e.arg, sc);
  }

  /** A quiet expression is not an undeclared name, however many parentheses
      stand around it. */
  lemma {:induction false} QuietStrip(e: Expr, sc: Scope)
    requires Quiet(e, sc)
    ensures !IsGlobalName(Strip(e), sc)
    decreases e
  {
    if e.Paren? {
      QuietStrip(e.inner, sc);
    }
  }

  lemma QuietOperator<E(!new)>(op: BinOp, h: Host<E>, env: E)
    requires Runtime(h) && Total(op)
    ensures forall a, b :: QuietOutcome(h, env, EvalBinary(op, a, b, h, env))
  {
  }

  lemma {:induction false} QuietBinary<E(!new)>(e: Expr, sc: Scope, h: Host<E>, env: E)
    requires Runtime(h) && e.Binary? && Quiet(e, sc)
    ensures QuietOutcome(h, env, EvalExpr(e, sc, h, env))
    decreases e, 0
  {
    hide Runtime, QuietOutcome;
    QuietEval(e.left, sc, h, env);
    QuietEval(e.right, sc, h, env);
    ReadsAlike(h, env);
    QuietOperator(e.binop, h, env);
  }

  lemma {:induction false} QuietLogical<E(!new)>(e: Expr, sc: Scope, h: Host<E>, env: E)
    requires Runtime(h) && e.LogicalExpr? && Quiet(e, sc)
    ensures QuietOutcome(h, env, EvalExpr(e, sc, h, env))
    decreases e, 0
  {
    hide Runtime, QuietOutcome;
    QuietEval(e.left, sc, h, env);
    QuietEval(e.right, sc, h, env);
    ReadsAlike(h, env);
  }

  lemma {:induction false} QuietConditional<E(!new)>(e: Expr, sc: Scope, h: Host<E>, env: E)
    requires Runtime(h) && e.Conditional? && Quiet(e, sc)
    ensures QuietOutcome(h, env, EvalExpr(e, sc, h, env))
    decreases e, 0
  {
    hide Runtime, QuietOutcome;
    QuietEval(e.test, sc, h, env);
    QuietEval(e.cons, sc, h, env);
    QuietEval(e.alt, sc, h, env);
    ReadsAlike(h, env);
  }

  lemma {:induction false} QuietSequence<E(!new)>(es: ExprList, sc: Scope, h: Host<E>, env: E)
    requires Runtime(h) && AllQuiet(es, sc)
    ensures QuietOutcome(h, env, EvalSequence(es, sc, h, env))
    decreases es
  {
    hide EvalExpr;
    match es
    case ENil =>
    case ECons(e, tail) =>
      QuietEval(e, sc, h, env);
      if EvalExpr(e, sc, h, env).Ok? {
        QuietSequence(tail, sc, h, env);
      }
  }

  /** A quiet target is a reference, with nothing changed, or fails like a read. */
  lemma QuietReference<E(!new)>(t: Target, sc: Scope, h: Host<E>, env: E)
    requires Runtime(h) && QuietTarget(t, sc)
    ensures var r := EvalTarget(t, sc, h, env);
            if r.RefOk? then r.env == env else QuietOutcome(h, env, Thrown(r.value, r.env))
  {
    hide EvalExpr, QuietOutcome;
    QuietEval(t.obj, sc, h, env);
    ReadsAlike(h, env);
    if EvalExpr(t.obj, sc, h, env).Ok? && t.prop.Computed? {
      QuietEval(t.prop.key, sc, h, env);
    }
  }

  /** Quiet evaluations that fail do so alike. */
  lemma ReadsAlike<E(!new)>(h: Host<E>, env: E)
    requires Runtime(h)
    ensures forall o: Outcome<E> :: QuietOutcome(h, env, o) && o.Ok? ==> o.env == env
    ensures forall o: Outcome<E>, p: Outcome<E> ::
              QuietOutcome(h, env, o) && QuietOutcome(h, env, p) && o.Thrown? && p.Thrown? ==> o == p
  {
  }

  // ----- code whose meaning does not depend on the order -----

  /** Variables that hold numbers, and whether all properties do. */
  datatype Counters = Counters(vars: set<VarRef>, properties: bool)

  /** Each plain assignment to a property has two sides that can change places;
      each update is of something that holds a number; `typeof` of an undeclared
      name stands without parentheses; `undefined` is not declared. */
  predicate Free(e: Expr, sc: Scope, counters: Counters)
    decreases e
  {
    match e
    case Lit(_) => true
    case Ident(name) => Unshadowed(name, sc)
    case Paren(inner) => Free(inner, sc, counters)
    case Unary(op, arg) => Free(arg, sc, counters) && (op == Typeof && IsGlobalName(Strip(arg), sc) ==> !arg.Paren?)
    case Binary(_, l, r) => Free(l, sc, counters) && Free(r, sc, counters)
    case LogicalExpr(_, l, r) => Free(l, sc, counters) && Free(r, sc, counters)
    case Conditional(t, c, a) => Free(t, sc, counters) && Free(c, sc, counters) && Free(a, sc, counters)
    case Sequence(es) => AllFree(es, sc, counters)
    case AssignExpr(op, target, right) =>
      && FreeTarget(target, sc, counters) && Free(right, sc, counters)
      && (if op.Assign? then Swaps(target, right, sc) else target.IdentTarget? ==> Unshadowed(target.name, sc))
    case Update(_, _, target) => Counts(target, sc, counters)
    case Member(obj, prop, _) => Free(obj, sc, counters) && FreeProperty(prop, sc, counters)
  }

  predicate AllFree(es: ExprList, sc: Scope, counters: Counters)
    decreases es
  {
    match es
    case ENil => true
    case ECons(e, tail) => Free(e, sc, counters) && AllFree(tail, sc, counters)
  }

  predicate FreeProperty(p: Property, sc: Scope, counters: Counters)
    decreases p
  {
    p.Named? || Free(p.key, sc, counters)
  }

  predicate FreeTarget(t: Target, sc: Scope, counters: Counters)
    decreases t, 0
  {
    t.IdentTarget? || (Free(t.obj, sc, counters) && FreeProperty(t.prop, sc, counters))
  }

  /** Target and right-hand side can change places: one of them cannot touch the
      host, or both only look. */
  predicate Swaps(t: Target, right: Expr, sc: Scope) {
    t.IdentTarget? || Inert(right, sc) || InertTarget(t, sc) || (Quiet(right, sc) && QuietTarget(t, sc))
  }

  predicate Counts(t: Target, sc: Scope, counters: Counters)
    decreases t, 1
  {
    match t
    case IdentTarget(name) => name != "undefined" && Resolve(sc, name) in counters.vars
    case MemberTarget(_, _) => counters.properties && FreeTarget(t, sc, counters)
  }

  predicate IsNumber(v: Value) {
    v.Integer? || v.Float?
  }

  /** The loaded value, if any, is a number, which ToNumeric leaves alone. */
  ghost predicate LoadsNumber<E(!new)>(h: Host<E>, o: Outcome<E>) {
    o.Ok? ==> IsNumber(o.value) && h.numeric(o.value, o.env) == o
  }

  ghost predicate HoldNumbers<E(!new)>(h: Host<E>, counters: Counters) {
    && (forall r, env :: r in counters.vars ==> LoadsNumber(h, h.load(r, env)))
    && (counters.properties ==> forall o, k, env :: LoadsNumber(h, h.getProp(o, k, env)))
  }

  /** Two hosts that differ in the order alone. */
  ghost predicate Twins<E(!new)>(h: Host<E>, k: Host<E>, counters: Counters) {
    h.order.Emitted? && k == h.(order := Specified) && Runtime(h) && Runtime(k) && HoldNumbers(h, counters)
  }

  lemma {:induction false} ExprSame<E(!new)>(e: Expr, sc: Scope, h: Host<E>, k: Host<E>, counters: Counters, env: E)
    requires Twins(h, k, counters) && Free(e, sc, counters)
    ensures EvalExpr(e, sc, k, env) == EvalExpr(e, sc, h, env)
    decreases e, 1
  {
    hide HoldNumbers, Runtime, EvalPlainAssign, EvalTargetFirst, EvalCombinedAssign, EvalUpdate, EvalNumericUpdate;
    hide EvalChain;
    hide EvalUnary, EvalOperands, EvalLogical, EvalConditional, EvalSequence;
    match e
    case Lit(_) =>
    case Ident(_) =>
    case Paren(inner) => ExprSame(inner, sc, h, k, counters, env);
    case Unary(_, _) => UnarySame(e, sc, h, k, counters, env);
    case Binary(_, _, _) => OperandsSame(e, sc, h, k, counters, env);
    case LogicalExpr(_, _, _) => LogicalSame(e, sc, h, k, counters, env);
    case Conditional(_, _, _) => ConditionalSame(e, sc, h, k, counters, env);
    case Sequence(es) => SequenceSame(es, sc, h, k, counters, env);
    case AssignExpr(op, target, _) =>
      if op.Assign? {
        PlainSame(e, sc, h, k, counters, env);
      } else {
        CombinedSame(e, sc, h, k, counters, env);
      }
    case Update(_, _, _) => UpdateSame(e, sc, h, k, counters, env);
    case Member(_, _, _) => ChainSame(e, sc, h, k, counters, env);
  }

  lemma {:induction false} UnarySame<E(!new)>(e: Expr, sc: Scope, h: Host<E>, k: Host<E>, counters: Counters, env: E)
    requires Twins(h, k, counters) && e.Unary? && Free(e, sc, counters)
    ensures EvalExpr(e, sc, k, env) == EvalExpr(e, sc, h, env)
    decreases e, 0
  {
    hide HoldNumbers, Runtime;
    ExprSame(e.arg, sc, h, k, counters, env);
  }

  lemma {:induction false} OperandsSame<E(!new)>(e: Expr, sc: Scope, h: Host<E>, k: Host<E>, counters: Counters,
                                          env: E)
    requires Twins(h, k, counters) && e.Binary? && Free(e, sc, counters)
    ensures EvalOperands(e, sc, k, env) == EvalOperands(e, sc, h, env)
    decreases e, 0
  {
    hide HoldNumbers, Runtime, EvalExpr;
    ExprSame(e.left, sc, h, k, counters, env);
    var a := EvalExpr(e.left, sc, h, env);
    if a.Ok? {
      ExprSame(e.right, sc, h, k, counters, a.env);
    }
  }

  lemma {:induction false} LogicalSame<E(!new)>(e: Expr, sc: Scope, h: Host<E>, k: Host<E>, counters: Counters,
                                         env: E)
    requires Twins(h, k, counters) && e.LogicalExpr? && Free(e, sc, counters)
    ensures EvalLogical(e, sc, k, env) == EvalLogical(e, sc, h, env)
    decreases e, 0
  {
    hide HoldNumbers, Runtime, EvalExpr;
    ExprSame(e.left, sc, h, k, counters, env);
    var a := EvalExpr(e.left, sc, h, env);
    if a.Ok? {
      ExprSame(e.right, sc, h, k, counters, a.env);
    }
  }

  lemma {:induction false} ConditionalSame<E(!new)>(e: Expr, sc: Scope, h: Host<E>, k: Host<E>, counters: Counters,
                                                    env: E)
    requires Twins(h, k, counters) && e.Conditional? && Free(e, sc, counters)
    ensures EvalConditional(e, sc, k, env) == EvalConditional(e, sc, h, env)
    decreases e, 0
  {
    hide HoldNumbers, Runtime, EvalExpr;
    ExprSame(e.test, sc, h, k, counters, env);
    var t := EvalExpr(e.test, sc, h, env);
    if t.Ok? {
      ExprSame(if Truthy(t.value) then e.cons else e.alt, sc, h, k, counters, t.env);
    }
  }

  lemma {:induction false} SequenceSame<E(!new)>(es: ExprList, sc: Scope, h: Host<E>, k: Host<E>, counters: Counters,
                                                 env: E)
    requires Twins(h, k, counters) && AllFree(es, sc, counters)
    ensures EvalSequence(es, sc, k, env) == EvalSequence(es, sc, h, env)
    decreases es, 0
  {
    hide HoldNumbers, Runtime, EvalExpr;
    match es
    case ENil =>
    case ECons(e, tail) =>
      ExprSame(e, sc, h, k, counters, env);
      var a := EvalExpr(e, sc, h, env);
      if a.Ok? {
        SequenceSame(tail, sc, h, k, counters, a.env);
      }
  }

  lemma {:induction false} PropertySame<E(!new)>(p: Property, sc: Scope, h: Host<E>, k: Host<E>, counters: Counters,
                                                 env: E)
    requires Twins(h, k, counters) && FreeProperty(p, sc, counters)
    ensures EvalProperty(p, sc, k, env) == EvalProperty(p, sc, h, env)
    decreases p, 0
  {
    hide HoldNumbers, Runtime, EvalExpr;
    if p.Computed? {
      ExprSame(p.key, sc, h, k, counters, env);
    }
  }

  lemma {:induction false} TargetSame<E(!new)>(t: Target, sc: Scope, h: Host<E>, k: Host<E>, counters: Counters,
                                        env: E)
    requires Twins(h, k, counters) && FreeTarget(t, sc, counters)
    ensures EvalTarget(t, sc, k, env) == EvalTarget(t, sc, h, env)
    decreases t, 0
  {
    hide HoldNumbers, Runtime, EvalExpr;
    if t.MemberTarget? {
      ExprSame(t.obj, sc, h, k, counters, env);
      var o := EvalExpr(t.obj, sc, h, env);
      if o.Ok? {
        PropertySame(t.prop, sc, h, k, counters, o.env);
      }
    }
  }

  /** An inert target is the same reference in every environment. */
  lemma InertReference<E>(t: Target, sc: Scope, h: Host<E>, env: E, env1: E)
    requires InertTarget(t, sc)
    ensures var a, b := EvalTarget(t, sc, h, env), EvalTarget(t, sc, h, env1);
            a.RefOk? && b.RefOk? && a.ref == b.ref && a.env == env && b.env == env1
  {
    hide EvalExpr;
    InertEval(t.obj, sc, h, env);
    InertEval(t.obj, sc, h, env1);
    if t.prop.Computed? {
      InertEval(t.prop.key, sc, h, env);
      InertEval(t.prop.key, sc, h, env1);
    }
  }

  lemma {:induction false} PlainSame<E(!new)>(e: Expr, sc: Scope, h: Host<E>, k: Host<E>, counters: Counters, env: E)
    requires Twins(h, k, counters) && e.AssignExpr? && e.asgop.Assign? && Free(e, sc, counters)
    ensures EvalExpr(e, sc, k, env) == EvalExpr(e, sc, h, env)
    decreases e, 0
  {
    hide HoldNumbers, Runtime, EvalTarget;
    PlainParts(e, sc, h, k, counters, env);
    if e.target.MemberTarget? {
      Swapped(e, sc, k, env);
    }
  }

  lemma {:induction false} PlainParts<E(!new)>(e: Expr, sc: Scope, h: Host<E>, k: Host<E>, counters: Counters,
                                        env: E)
    requires Twins(h, k, counters) && e.AssignExpr? && e.asgop.Assign? && Free(e, sc, counters)
    ensures EvalPlainAssign(e, sc, k, env) == EvalPlainAssign(e, sc, h, env)
    decreases e, 0, 0
  {
    hide HoldNumbers, Runtime, EvalTarget, EvalExpr;
    ExprSame(e.right, sc, h, k, counters, env);
    var v := EvalExpr(e.right, sc, h, env);
    if v.Ok? {
      TargetSame(e.target, sc, h, k, counters, v.env);
    }
  }

  /** Under one host, both orders of the parts agree. */
  lemma Swapped<E(!new)>(e: Expr, sc: Scope, h: Host<E>, env: E)
    requires Runtime(h) && e.AssignExpr? && e.target.MemberTarget? && Swaps(e.target, e.right, sc)
    ensures EvalTargetFirst(e, sc, h, env) == EvalPlainAssign(e, sc, h, env)
  {
    hide EvalTarget, EvalExpr, Runtime, QuietOutcome;
    if Inert(e.right, sc) {
      InertEval(e.right, sc, h, env);
      var r := EvalTarget(e.target, sc, h, env);
      InertEval(e.right, sc, h, r.env);
    } else if InertTarget(e.target, sc) {
      var v := EvalExpr(e.right, sc, h, env);
      InertReference(e.target, sc, h, env, v.env);
    } else {
      QuietEval(e.right, sc, h, env);
      QuietReference(e.target, sc, h, env);
      ReadsAlike(h, env);
    }
  }

  lemma SameLoad<E>(t: Target, r: Ref, sc: Scope, h: Host<E>, k: Host<E>, env: E, env1: E)
    requires h.order.Emitted? && k == h.(order := Specified) && EvalTarget(t, sc, h, env) == RefOk(r, env1)
    requires t.IdentTarget? ==> Unshadowed(t.name, sc)
    ensures LoadRef(r, sc, k, env1) == LoadRef(r, sc, h, env1)
  {
    hide EvalExpr;
  }

  lemma {:induction false} CombinedSame<E(!new)>(e: Expr, sc: Scope, h: Host<E>, k: Host<E>, counters: Counters,
                                          env: E)
    requires Twins(h, k, counters) && e.AssignExpr? && !e.asgop.Assign? && Free(e, sc, counters)
    ensures EvalCombinedAssign(e, sc, k, env) == EvalCombinedAssign(e, sc, h, env)
    decreases e, 0
  {
    hide HoldNumbers, Runtime, EvalTarget, EvalExpr;
    TargetSame(e.target, sc, h, k, counters, env);
    match EvalTarget(e.target, sc, h, env)
    case RefThrown(_, _) =>
    case RefOk(r, env1) =>
      SameLoad(e.target, r, sc, h, k, env, env1);
      var a := LoadRef(r, sc, h, env1);
      if a.Ok? {
        ExprSame(e.right, sc, h, k, counters, a.env);
      }
  }

  lemma {:induction false} UpdateSame<E(!new)>(e: Expr, sc: Scope, h: Host<E>, k: Host<E>, counters: Counters, env: E)
    requires Twins(h, k, counters) && e.Update? && Free(e, sc, counters)
    ensures EvalNumericUpdate(e, sc, k, env) == EvalUpdate(e, sc, h, env)
    decreases e, 0
  {
    hide Runtime, EvalTarget, EvalBinary, HoldNumbers;
    TargetSame(e.target, sc, h, k, counters, env);
    match EvalTarget(e.target, sc, h, env)
    case RefThrown(_, _) =>
    case RefOk(r, env1) =>
      LoadSame(e.target, r, sc, h, k, counters, env, env1);
      BinarySame(UpdateBinOp(e.updop), h, k);
  }

  lemma BinarySame<E(!new)>(op: BinOp, h: Host<E>, k: Host<E>)
    requires k == h.(order := Specified)
    ensures forall a, b, env :: EvalBinary(op, a, b, k, env) == EvalBinary(op, a, b, h, env)
  {
  }

  /** What an update loads is a number for both hosts. */
  lemma LoadSame<E(!new)>(t: Target, r: Ref, sc: Scope, h: Host<E>, k: Host<E>, counters: Counters, env: E, env1: E)
    requires Twins(h, k, counters) && Counts(t, sc, counters) && EvalTarget(t, sc, h, env) == RefOk(r, env1)
    ensures LoadRef(r, sc, k, env1) == LoadRef(r, sc, h, env1) && LoadsNumber(h, LoadRef(r, sc, h, env1))
  {
    hide Runtime;
    match t
    case IdentTarget(name) => assert LoadsNumber(h, h.load(Resolve(sc, name), env1));
    case MemberTarget(_, _) => assert LoadsNumber(h, h.getProp(r.obj, r.key, env1));
  }

  lemma {:induction false} ChainSame<E(!new)>(e: Expr, sc: Scope, h: Host<E>, k: Host<E>, counters: Counters, env: E)
    requires Twins(h, k, counters) && Free(e, sc, counters)
    ensures EvalChain(e, sc, k, env) == EvalChain(e, sc, h, env)
    decreases e, if e.Member? then 0 else 2
  {
    hide HoldNumbers, Runtime, EvalExpr, EvalProperty;
    if e.Member? {
      ChainSame(e.obj, sc, h, k, counters, env);
      match EvalChain(e.obj, sc, h, env)
      case Through(Ok(_, env1)) => PropertySame(e.prop, sc, h, k, counters, env1);
      case _ =>
    } else {
      ExprSame(e, sc, h, k, counters, env);
    }
  }

  // ----- statements -----

  predicate FreeOptional(e: Option<Expr>, sc: Scope, counters: Counters) {
    e.Some? ==> Free(e.value, sc, counters)
  }

  predicate FreeStmt(s: Stmt, sc: Scope, counters: Counters) {
    match s
    case Block(body) => FreeList(body, sc, counters)
    case ExprStmt(e) => Free(e, sc, counters)
    case Return(e) => FreeOptional(e, sc, counters)
    case ThrowStmt(e) => Free(e, sc, counters)
    case If(test, cons, alt) =>
      Free(test, sc, counters) && FreeStmt(cons, sc, counters) && (alt.Some? ==> FreeStmt(alt.value, sc, counters))
    case While(test, body) => Free(test, sc, counters) && FreeStmt(body, sc, counters)
    case DoWhile(body, test) => Free(test, sc, counters) && FreeStmt(body, sc, counters)
    case For(init, cond, update, body) =>
      && FreeOptional(init, sc, counters) && FreeOptional(cond, sc, counters) && FreeOptional(update, sc, counters)
      && FreeStmt(body, sc, counters)
    case Switch(disc, cases) => Free(disc, sc, counters) && FreeCases(cases, sc, counters)
    case Labeled(_, body) => FreeStmt(body, sc, counters)
    case _ => true
  }

  predicate FreeList(ss: StmtList, sc: Scope, counters: Counters) {
    match ss
    case SNil => true
    case SCons(s, tail) => FreeStmt(s, sc, counters) && FreeList(tail, sc, counters)
  }

  predicate FreeCases(cases: CaseList, sc: Scope, counters: Counters) {
    match cases
    case CNil => true
    case CCons(c, tail) =>
      FreeOptional(c.test, sc, counters) && FreeList(c.body, sc, counters) && FreeCases(tail, sc, counters)
  }

  lemma OptionalSame<E(!new)>(e: Option<Expr>, sc: Scope, h: Host<E>, k: Host<E>, counters: Counters, env: E)
    requires Twins(h, k, counters) && FreeOptional(e, sc, counters)
    ensures EvalOptional(e, sc, k, env) == EvalOptional(e, sc, h, env)
  {
    hide HoldNumbers, Runtime, EvalExpr;
    if e.Some? {
      ExprSame(e.value, sc, h, k, counters, env);
    }
  }

  lemma {:induction false} StmtSame<E(!new)>(s: Stmt, labels: seq<string>, sc: Scope, h: Host<E>, k: Host<E>,
                                             counters: Counters, env: E, fuel: nat)
    requires Twins(h, k, counters) && FreeStmt(s, sc, counters)
    ensures Exec(s, labels, sc, k, env, fuel) == Exec(s, labels, sc, h, env, fuel)
    decreases fuel, s, 1
  {
    hide Twins, EvalExpr, Free, ExecList, ExecWhile, ExecDo, ExecFor, ExecCases, SelectCase, EvalOptional;
    match s
    case Block(body) => ListSame(body, sc, h, k, counters, env, fuel);
    case ExprStmt(e) => ExprSame(e, sc, h, k, counters, env);
    case Return(Some(e)) => ExprSame(e, sc, h, k, counters, env);
    case ThrowStmt(e) => ExprSame(e, sc, h, k, counters, env);
    case If(test, cons, alt) =>
      ExprSame(test, sc, h, k, counters, env);
      var t := EvalExpr(test, sc, h, env);
      if t.Ok? {
        StmtSame(cons, [], sc, h, k, counters, t.env, fuel);
        if alt.Some? {
          StmtSame(alt.value, [], sc, h, k, counters, t.env, fuel);
        }
      }
    case While(test, body) => WhileSame(test, body, labels, sc, h, k, counters, env, fuel);
    case DoWhile(body, test) => DoSame(body, test, labels, sc, h, k, counters, env, fuel);
    case For(init, cond, update, body) =>
      OptionalSame(init, sc, h, k, counters, env);
      var i := EvalOptional(init, sc, h, env);
      if i.Ok? {
        ForSame(cond, update, body, labels, sc, h, k, counters, i.env, fuel);
      }
    case Switch(_, _) => SwitchSame(s, sc, h, k, counters, env, fuel);
    case Labeled(name, body) => StmtSame(body, labels + [name], sc, h, k, counters, env, fuel);
    case _ =>
  }

  lemma {:induction false} SwitchSame<E(!new)>(s: Stmt, sc: Scope, h: Host<E>, k: Host<E>, counters: Counters, env: E,
                                               fuel: nat)
    requires Twins(h, k, counters) && s.Switch? && FreeStmt(s, sc, counters)
    ensures Exec(s, [], sc, k, env, fuel) == Exec(s, [], sc, h, env, fuel)
    ensures forall labels :: Exec(s, labels, sc, h, env, fuel) == Exec(s, [], sc, h, env, fuel)
    ensures forall labels :: Exec(s, labels, sc, k, env, fuel) == Exec(s, [], sc, k, env, fuel)
    decreases fuel, s, 0
  {
    hide Twins, EvalExpr, Free, ExecCases, SelectCase, FreeCases;
    ExprSame(s.disc, sc, h, k, counters, env);
    var d := EvalExpr(s.disc, sc, h, env);
    if d.Ok? {
      SelectSame(s.cases, 0, d.value, sc, h, k, counters, d.env);
      match SelectCase(s.cases, 0, d.value, sc, h, d.env)
      case NoCase(_, _) =>
      case Chosen(i, env2) => CasesSame(s.cases, StartCase(s.cases, i), sc, h, k, counters, env2, fuel);
    }
  }

  lemma {:induction false} ListSame<E(!new)>(ss: StmtList, sc: Scope, h: Host<E>, k: Host<E>, counters: Counters,
                                             env: E, fuel: nat)
    requires Twins(h, k, counters) && FreeList(ss, sc, counters)
    ensures ExecList(ss, sc, k, env, fuel) == ExecList(ss, sc, h, env, fuel)
    decreases fuel, ss, 0
  {
    hide Twins, Exec, FreeStmt;
    match ss
    case SNil =>
    case SCons(s, tail) =>
      StmtSame(s, [], sc, h, k, counters, env, fuel);
      match Exec(s, [], sc, h, env, fuel)
      case Done(Normal, env1) => ListSame(tail, sc, h, k, counters, env1, fuel);
      case _ =>
  }

  lemma {:induction false} WhileSame<E(!new)>(test: Expr, body: Stmt, labels: seq<string>, sc: Scope, h: Host<E>,
                                              k: Host<E>, counters: Counters, env: E, fuel: nat)
    requires Twins(h, k, counters) && Free(test, sc, counters) && FreeStmt(body, sc, counters)
    ensures ExecWhile(test, body, labels, sc, k, env, fuel) == ExecWhile(test, body, labels, sc, h, env, fuel)
    decreases fuel, body, 2
  {
    hide Twins, EvalExpr, Exec, FreeStmt, Free, LoopContinues;
    if fuel > 0 {
      ExprSame(test, sc, h, k, counters, env);
      match EvalExpr(test, sc, h, env)
      case Thrown(_, _) =>
      case Ok(_, env1) =>
        StmtSame(body, [], sc, h, k, counters, env1, fuel);
        match Exec(body, [], sc, h, env1, fuel)
        case Timeout =>
        case Done(_, env2) => WhileSame(test, body, labels, sc, h, k, counters, env2, fuel - 1);
    }
  }

  /** One round of a `do` loop: `r` is how the body ends, `t` what the test gives. */
  lemma DoRound<E>(body: Stmt, test: Expr, labels: seq<string>, sc: Scope, h: Host<E>, env: E, fuel: nat,
                   r: StmtResult<E>, t: Outcome<E>)
    requires fuel > 0 && Exec(body, [], sc, h, env, fuel) == r
    requires r.Done? && LoopContinues(r.completion, labels) ==> EvalExpr(test, sc, h, r.env) == t
    ensures ExecDo(body, test, labels, sc, h, env, fuel)
            == if r.Timeout? || !LoopContinues(r.completion, labels) then r
               else
                 match t
                 case Thrown(x, env2) => Done(ThrowWith(x), env2)
                 case Ok(v, env2) =>
                   if Truthy(v) then ExecDo(body, test, labels, sc, h, env2, fuel - 1) else Done(Normal, env2)
  {
    hide Exec, EvalExpr, LoopContinues;
  }

  lemma {:induction false} DoSame<E(!new)>(body: Stmt, test: Expr, labels: seq<string>, sc: Scope, h: Host<E>,
                                           k: Host<E>, counters: Counters, env: E, fuel: nat)
    requires Twins(h, k, counters) && Free(test, sc, counters) && FreeStmt(body, sc, counters)
    ensures ExecDo(body, test, labels, sc, k, env, fuel) == ExecDo(body, test, labels, sc, h, env, fuel)
    decreases fuel, body, 2
  {
    hide Twins, EvalExpr, Exec, FreeStmt, Free, LoopContinues;
    if fuel > 0 {
      hide ExecDo;
      StmtSame(body, [], sc, h, k, counters, env, fuel);
      var r := Exec(body, [], sc, h, env, fuel);
      var t := EvalExpr(test, sc, h, if r.Done? then r.env else env);
      ExprSame(test, sc, h, k, counters, if r.Done? then r.env else env);
      DoRound(body, test, labels, sc, h, env, fuel, r, t);
      DoRound(body, test, labels, sc, k, env, fuel, r, t);
      if t.Ok? {
        DoSame(body, test, labels, sc, h, k, counters, t.env, fuel - 1);
      }
    }
  }

  lemma {:induction false} ForSame<E(!new)>(cond: Option<Expr>, update: Option<Expr>, body: Stmt, labels: seq<string>,
                                            sc: Scope, h: Host<E>, k: Host<E>, counters: Counters, env: E, fuel: nat)
    requires Twins(h, k, counters) && FreeOptional(cond, sc, counters) && FreeOptional(update, sc, counters)
    requires FreeStmt(body, sc, counters)
    ensures ExecFor(cond, update, body, labels, sc, k, env, fuel)
            == ExecFor(cond, update, body, labels, sc, h, env, fuel)
    decreases fuel, body, 2
  {
    hide Twins, EvalOptional, Exec, FreeStmt, FreeOptional, LoopContinues;
    if fuel > 0 {
      OptionalSame(cond, sc, h, k, counters, env);
      var t := EvalOptional(cond, sc, h, env);
      if t.Ok? {
        StmtSame(body, [], sc, h, k, counters, t.env, fuel);
        var r := Exec(body, [], sc, h, t.env, fuel);
        if r.Done? {
          OptionalSame(update, sc, h, k, counters, r.env);
          var u := EvalOptional(update, sc, h, r.env);
          if u.Ok? {
            ForSame(cond, update, body, labels, sc, h, k, counters, u.env, fuel - 1);
          }
        }
      }
    }
  }

  lemma {:induction false} SelectSame<E(!new)>(cases: CaseList, i: nat, d: Value, sc: Scope, h: Host<E>, k: Host<E>,
                                               counters: Counters, env: E)
    requires Twins(h, k, counters) && FreeCases(cases, sc, counters)
    ensures SelectCase(cases, i, d, sc, k, env) == SelectCase(cases, i, d, sc, h, env)
    decreases cases
  {
    hide HoldNumbers, Runtime, EvalExpr, Free, FreeList;
    match cases
    case CNil =>
    case CCons(c, tail) =>
      if c.test.None? {
        SelectSame(tail, i + 1, d, sc, h, k, counters, env);
      } else {
        ExprSame(c.test.value, sc, h, k, counters, env);
        var v := EvalExpr(c.test.value, sc, h, env);
        if v.Ok? {
          SelectSame(tail, i + 1, d, sc, h, k, counters, v.env);
        }
      }
  }

  lemma {:induction false} CasesSame<E(!new)>(cases: CaseList, from: nat, sc: Scope, h: Host<E>, k: Host<E>,
                                              counters: Counters, env: E, fuel: nat)
    requires Twins(h, k, counters) && FreeCases(cases, sc, counters)
    ensures ExecCases(cases, from, sc, k, env, fuel) == ExecCases(cases, from, sc, h, env, fuel)
    decreases fuel, cases, 0
  {
    hide Twins, ExecList, FreeList, FreeOptional;
    match cases
    case CNil =>
    case CCons(c, tail) =>
      if from > 0 {
        CasesSame(tail, from - 1, sc, h, k, counters, env, fuel);
      } else {
        ListSame(c.body, sc, h, k, counters, env, fuel);
        match ExecList(c.body, sc, h, env, fuel)
        case Done(Normal, env1) => CasesSame(tail, 0, sc, h, k, counters, env1, fuel);
        case _ =>
      }
  }

  // ----- where the orders differ -----

  datatype Part = ValuePart | ObjectPart | KeyPart

  /** A host in which loading a global acts, the n-th time with the result n,
      slots hold the number of loads so far, and writing a property throws one
      of its parts. */
  function RevealingHost(part: Part): Host<nat> {
    Host(Specified,
         (r: VarRef, n) => Ok(Integer(n), if r.Global? then n + 1 else n), (r, v, n) => Ok(v, n),
         (s, n) => Ok(Undefined, n),
         (op, a, b, n) => Ok(a, n), (a, b) => a == b, (op, v, n) => Ok(v, n), (v, n) => Ok(v, n),
         (o, k, n) => Ok(o, n),
         (v, o, k, n) => Thrown(match part case ValuePart => v case ObjectPart => o case KeyPart => k, n))
  }

  predicate Atom(e: Expr) {
    e.Lit? || e.Ident?
  }

  predicate AtomTarget(t: Target) {
    t.MemberTarget? && Atom(t.obj) && (t.prop.Computed? ==> Atom(t.prop.key))
  }

  /** `o[k] = v` with names and literals: both orders agree for every host that
      the runtime can be exactly when one side is literal or neither side reads
      a global. */
  lemma AtomsAgreeExactly(t: Target, v: Expr, sc: Scope)
    requires AtomTarget(t) && Atom(v)
    ensures var e := AssignExpr(Assign, t, v);
            Swaps(t, v, sc) <==>
            forall h: Host<nat>, n: nat :: Runtime(h) ==> EvalTargetFirst(e, sc, h, n) == EvalPlainAssign(e, sc, h, n)
  {
    var e := AssignExpr(Assign, t, v);
    if Swaps(t, v, sc) {
      forall h: Host<nat>, n: nat | Runtime(h) ensures EvalTargetFirst(e, sc, h, n) == EvalPlainAssign(e, sc, h, n) {
        Swapped(e, sc, h, n);
      }
    } else {
      var part := TellingPart(t, v, sc);
      AtomsDiffer(t, v, sc, part);
      assert Runtime(RevealingHost(part));
    }
  }

  /** The part of an assignment that tells the orders apart. */
  function TellingPart(t: Target, v: Expr, sc: Scope): Part
    requires AtomTarget(t)
  {
    if Quiet(v, sc) || !QuietTarget(t, sc) then ValuePart else if Inert(t.obj, sc) then KeyPart else ObjectPart
  }

  lemma AtomsDiffer(t: Target, v: Expr, sc: Scope, part: Part)
    requires AtomTarget(t) && Atom(v) && !Swaps(t, v, sc) && part == TellingPart(t, v, sc)
    ensures var e, h := AssignExpr(Assign, t, v), RevealingHost(part);
            EvalTargetFirst<nat>(e, sc, h, 0) != EvalPlainAssign<nat>(e, sc, h, 0)
  {
    hide EvalExpr, EvalTarget;
    var h := RevealingHost(part);
    var e := AssignExpr(Assign, t, v);
    AtomEval(v, sc, part, 0);
    AtomReference(t, sc, part, 0);
    AtomReference(t, sc, part, 1);
    AtomEval(v, sc, part, EvalTarget<nat>(t, sc, h, 0).env);
  }

  /** What an atom reads, after `n` loads of globals. */
  function AtomValue(e: Expr, sc: Scope, n: nat): Value
    requires Atom(e)
  {
    if Inert(e, sc) then InertValue(e, sc) else Integer(n)
  }

  lemma AtomEval(e: Expr, sc: Scope, part: Part, n: nat)
    requires Atom(e)
    ensures EvalExpr<nat>(e, sc, RevealingHost(part), n) == Ok(AtomValue(e, sc, n), if Quiet(e, sc) then n else n + 1)
  {
  }

  lemma AtomReference(t: Target, sc: Scope, part: Part, n: nat)
    requires AtomTarget(t)
    ensures var r := EvalTarget<nat>(t, sc, RevealingHost(part), n);
            && r.RefOk? && r.ref.PropRef? && r.env >= n && (r.env == n <==> QuietTarget(t, sc))
            && r.ref.obj == AtomValue(t.obj, sc, n)
            && (t.prop.Computed? && Quiet(t.obj, sc) ==> r.ref.key == AtomValue(t.prop.key, sc, n))
  {
    hide EvalExpr;
    AtomEval(t.obj, sc, part, n);
    if t.prop.Computed? {
      AtomEval(t.prop.key, sc, part, EvalExpr<nat>(t.obj, sc, RevealingHost(part), n).env);
    }
  }

  // ----- updates -----

  /** Continue with one more, or one less, after a conversion. */
  function ThenOne<E>(op: UpdateOp, o: Outcome<E>, h: Host<E>): Outcome<E> {
    match o
    case Ok(n, env) => EvalBinary(UpdateBinOp(op), n, Integer(1), h, env)
    case Thrown(_, _) => o
  }

  /** What an addition or a subtraction of one converts by ToNumeric. */
  predicate Converts(op: UpdateOp, v: Value) {
    op == Inc ==> !v.Str? && !v.Object?
  }

  /** Subtraction converts as ToNumeric does; addition does unless it may
      concatenate. */
  ghost predicate Arithmetic<E(!new)>(h: Host<E>) {
    && (forall v: Value, env :: IsNumber(v) || v.BigInt? ==> h.numeric(v, env) == Ok(v, env))
    && (forall v: Value, env :: !v.BigInt? && !v.Object? && h.numeric(v, env).Ok? ==> IsNumber(h.numeric(v, env).value))
    && (forall op, v, env :: Converts(op, v) ==>
          EvalBinary(UpdateBinOp(op), v, Integer(1), h, env) == ThenOne(op, h.numeric(v, env), h))
  }

  /** An update of such a value needs no conversion that it does not get. */
  predicate Agreeable(op: UpdateOp, prefix: bool, v: Value) {
    IsNumber(v) || (prefix && Converts(op, v) && !v.BigInt? && !v.Object?)
  }

  /** What the update reads from its target. */
  ghost predicate Reads<E>(t: Target, sc: Scope, h: Host<E>, env: E, v: Value) {
    var r := EvalTarget(t, sc, h, env);
    r.RefOk? && LoadRef(r.ref, sc, h, r.env).Ok? && LoadRef(r.ref, sc, h, r.env).value == v
  }

  /** For any target: the emitted and the specified update agree when the value
      read is agreeable. */
  lemma UpdateAgrees<E(!new)>(e: Expr, sc: Scope, h: Host<E>, env: E, v: Value)
    requires e.Update? && Arithmetic(h) && Reads(e.target, sc, h, env, v) && Agreeable(e.updop, e.prefix, v)
    ensures EvalNumericUpdate(e, sc, h, env) == EvalUpdate(e, sc, h, env)
  {
    hide EvalTarget, LoadRef, EvalBinary, Arithmetic;
    var r := EvalTarget(e.target, sc, h, env);
    var o := LoadRef(r.ref, sc, h, r.env);
    Conversion(e.updop, v, h, o.env);
  }

  lemma Conversion<E(!new)>(op: UpdateOp, v: Value, h: Host<E>, env: E)
    requires Arithmetic(h) && (IsNumber(v) || (Converts(op, v) && !v.BigInt? && !v.Object?))
    ensures EvalBinary(UpdateBinOp(op), v, Integer(1), h, env) == ThenOne(op, h.numeric(v, env), h)
    ensures h.numeric(v, env).Ok? ==> IsNumber(h.numeric(v, env).value)
    ensures IsNumber(v) ==> h.numeric(v, env) == Ok(v, env)
  {
  }

  /** A result that tells numbers, BigInts and concatenations apart. */
  function Result(op: BinOp, a: Value, b: Value): Value {
    if a.BigInt? && b.BigInt? then BigInt("0")
    else if op == Add && (a.Str? || a.Object?) then Str("")
    else Integer(7)
  }

  function Numeric(v: Value): Value {
    if IsNumber(v) || v.BigInt? then v else if v.Object? then BigInt("1") else Integer(0)
  }

  /** A host in which variables and properties hold `v`, and that remembers
      whether a number was stored. */
  function HoldingHost(v: Value): Host<nat> {
    Host(Specified,
         (r, n) => Ok(v, n), (r, w: Value, n) => Ok(w, if w.Integer? then n + 1 else n), (s, n) => Ok(Undefined, n),
         (op, a, b, n) => Ok(Result(op, a, b), n), (a, b) => a == b, (op, w, n) => Ok(w, n),
         (w, n) => Ok(Numeric(w), n),
         (o, k, n) => Ok(v, n), (w: Value, o, k, n) => Ok(w, if w.Integer? then n + 1 else n))
  }

  /** An update of a variable or of a property: both meanings agree, for every
      host that the runtime can be and in which the target holds `v`, exactly
      when `v` is agreeable. */
  lemma UpdateAgreesExactly(op: UpdateOp, prefix: bool, t: Target, sc: Scope, v: Value)
    requires AtomTarget(t) || (t.IdentTarget? && t.name != "undefined")
    ensures var e := Update(op, prefix, t);
            Agreeable(op, prefix, v) <==>
            forall h: Host<nat>, n: nat :: Runtime(h) && Arithmetic(h) && Reads(t, sc, h, n, v) ==>
              EvalNumericUpdate(e, sc, h, n) == EvalUpdate(e, sc, h, n)
  {
    var e := Update(op, prefix, t);
    if Agreeable(op, prefix, v) {
      forall h: Host<nat>, n: nat | Runtime(h) && Arithmetic(h) && Reads(t, sc, h, n, v)
        ensures EvalNumericUpdate(e, sc, h, n) == EvalUpdate(e, sc, h, n)
      {
        UpdateAgrees(e, sc, h, n, v);
      }
    } else {
      var h := HoldingHost(v);
      HoldingLawful(v);
      HoldingReads(t, sc, v);
      UpdateDiffers(op, prefix, t, sc, v);
      assert Reads(t, sc, h, 0, v);
    }
  }

  lemma HoldingLawful(v: Value)
    ensures Runtime(HoldingHost(v)) && Arithmetic(HoldingHost(v))
  {
  }

  lemma HoldingReads(t: Target, sc: Scope, v: Value)
    requires AtomTarget(t) || (t.IdentTarget? && t.name != "undefined")
    ensures var r := EvalTarget(t, sc, HoldingHost(v), 0);
            r.RefOk? && r.env == 0 && LoadRef(r.ref, sc, HoldingHost(v), 0) == Ok(v, 0)
  {
    if t.MemberTarget? {
      HoldingAtom(t.obj, sc, v);
      if t.prop.Computed? {
        HoldingAtom(t.prop.key, sc, v);
      }
    }
  }

  lemma HoldingAtom(e: Expr, sc: Scope, v: Value)
    requires Atom(e)
    ensures var o := EvalExpr(e, sc, HoldingHost(v), 0); o.Ok? && o.env == 0
  {
  }

  lemma UpdateDiffers(op: UpdateOp, prefix: bool, t: Target, sc: Scope, v: Value)
    requires AtomTarget(t) || (t.IdentTarget? && t.name != "undefined")
    requires !Agreeable(op, prefix, v)
    ensures var e, h := Update(op, prefix, t), HoldingHost(v);
            EvalNumericUpdate(e, sc, h, 0) != EvalUpdate(e, sc, h, 0)
  {
    hide EvalTarget, LoadRef;
    HoldingReads(t, sc, v);
  }

  // ----- names -----

  /** A host in which globals are not declared. */
  function BareHost(): Host<nat> {
    Host(Specified,
         (r: VarRef, n) => if r.Global? then Thrown(Null, n) else Ok(Integer(n), n), (r, v, n) => Ok(v, n),
         (s, n) => Ok(Str("undefined"), n), (op, a, b, n) => Ok(a, n), (a, b) => a == b, (op, v, n) => Ok(v, n),
         (v, n) => Ok(v, n), (o, k, n) => Ok(o, n), (v, o, k, n) => Ok(v, n))
  }

  /** The rule of the standard and the rule of the code give the same. */
  ghost predicate TypeofAgrees<E>(arg: Expr, sc: Scope, h: Host<E>, env: E) {
    EvalExpr(Unary(Typeof, arg), sc, h.(order := Specified), env)
    == EvalUnary(Unary(Typeof, arg), sc, h.(order := Specified), env)
  }

  ghost predicate UndefinedAgrees<E>(sc: Scope, h: Host<E>, env: E) {
    LoadName("undefined", sc, h.(order := Specified), env) == LoadName("undefined", sc, h.(order := Emitted), env)
  }

  /** `typeof` of any operand: the rule of the code and the rule of the standard
      agree for all hosts exactly unless the operand is an undeclared name in
      parentheses. */
  lemma TypeofAgreesExactly(arg: Expr, sc: Scope)
    ensures !(arg.Paren? && IsGlobalName(Strip(arg), sc)) <==>
            forall h: Host<nat>, n: nat :: Runtime(h) ==> TypeofAgrees(arg, sc, h, n)
  {
    if arg.Paren? && IsGlobalName(Strip(arg), sc) {
      var h := BareHost();
      StripThrows(arg, sc);
      assert Runtime(h) && !TypeofAgrees(arg, sc, h, 0);
    }
  }

  lemma {:induction false} StripThrows(e: Expr, sc: Scope)
    requires IsGlobalName(Strip(e), sc)
    ensures EvalExpr(e, sc, BareHost(), 0).Thrown?
    decreases e
  {
    if e.Paren? {
      StripThrows(e.inner, sc);
    }
  }

  /** Reading `undefined`: both rules agree for all hosts exactly when the name
      has not been declared. */
  lemma UndefinedAgreesExactly(sc: Scope)
    ensures Unshadowed("undefined", sc) <==>
            forall h: Host<nat>, n: nat :: Runtime(h) ==> UndefinedAgrees(sc, h, n)
  {
    if !Unshadowed("undefined", sc) {
      var h := BareHost();
      assert Runtime(h) && !UndefinedAgrees(sc, h, 0);
    }
  }
}
