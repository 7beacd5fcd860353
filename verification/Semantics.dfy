/** Source-level meaning of expressions and statements. Four of them depend on
    the order that the host asks for: an assignment to a property, an update,
    `typeof` of a name in parentheses, and the name `undefined` where it has been
    declared; everything else is evaluated as ECMAScript specifies.
    Statements are given by a big-step evaluator with completions; `fuel` bounds
    the iterations of each loop. */
module Semantics {
  import opened Syntax
  import opened Machine

  /** What the names of one function body stand for. */
  datatype Scope = Scope(locals: map<string, nat>, upvalues: map<string, nat>)

  function Resolve(sc: Scope, name: string): VarRef {
    if name in sc.locals then Local(sc.locals[name])
    else if name in sc.upvalues then Upvalue(sc.upvalues[name])
    else Global(name)
  }

  function LitValue(l: Literal): Value {
    match l
    case NullLit => Null
    case BoolLit(b) => Boolean(b)
    case IntLit(i) => Integer(i)
    case StrLit(s) => Str(s)
  }

  /** The code takes `undefined` for a literal even where it has been declared;
      as a global it cannot be changed. */
  function LoadName<E>(name: string, sc: Scope, h: Host<E>, env: E): Outcome<E> {
    if name == "undefined" && (h.order.Emitted? || Resolve(sc, name).Global?) then Ok(Undefined, env)
    else h.load(Resolve(sc, name), env)
  }

  function StoreName<E>(name: string, v: Value, sc: Scope, h: Host<E>, env: E): Outcome<E> {
    h.store(Resolve(sc, name), v, env)
  }

  /** `a != b` and `a !== b` negate the comparison. */
  function EvalBinary<E>(op: BinOp, a: Value, b: Value, h: Host<E>, env: E): Outcome<E> {
    match op
    case NotEq => Negate(BinaryValue(h, Eq, a, b, env))
    case StrictNotEq => Negate(BinaryValue(h, StrictEq, a, b, env))
    case _ => BinaryValue(h, op, a, b, env)
  }

  function Negate<E>(o: Outcome<E>): Outcome<E> {
    match o
    case Ok(v, env) => Ok(Boolean(!Truthy(v)), env)
    case Thrown(_, _) => o
  }

  /** Whether a logical operator goes on to its right operand. */
  predicate TakesRight(op: LogicalOp, left: Value) {
    match op
    case And => Truthy(left)
    case Or => !Truthy(left)
    case NullishCoal => Nullish(left)
  }

  /** A reference record: the parts of an assignment target that are
      evaluated once, before the right-hand side. */
  datatype Ref = NameRef(name: string) | PropRef(obj: Value, key: Value)

  datatype RefOutcome<E> = RefOk(ref: Ref, env: E) | RefThrown(value: Value, env: E)

  function LoadRef<E>(r: Ref, sc: Scope, h: Host<E>, env: E): Outcome<E> {
    match r
    case NameRef(name) => LoadName(name, sc, h, env)
    case PropRef(obj, key) => h.getProp(obj, key, env)
  }

  function StoreRef<E>(r: Ref, v: Value, sc: Scope, h: Host<E>, env: E): Outcome<E> {
    match r
    case NameRef(name) => StoreName(name, v, sc, h, env)
    case PropRef(obj, key) => h.setProp(v, obj, key, env)
  }

  /** Store `v` and make `result` the value of the whole expression. */
  function StoreAndYield<E>(r: Ref, v: Value, result: Value, sc: Scope, h: Host<E>, env: E): Outcome<E> {
    match StoreRef(r, v, sc, h, env)
    case Ok(_, env') => Ok(result, env')
    case Thrown(x, env') => Thrown(x, env')
  }

  function UpdateBinOp(op: UpdateOp): BinOp {
    if op == Inc then Add else Sub
  }

  predicate IsGlobalName(e: Expr, sc: Scope) {
    e.Ident? && e.name != "undefined" && Resolve(sc, e.name).Global?
  }

  /** The expression inside all parentheses. */
  function Strip(e: Expr): Expr {
    if e.Paren? then Strip(e.inner) else e
  }

  /** `typeof` of a name that is not declared: specified also in parentheses. */
  predicate TypeofName<E>(e: Expr, sc: Scope, h: Host<E>) {
    h.order.Specified? && e.Unary? && e.unop == Typeof && IsGlobalName(Strip(e.arg), sc)
  }

  function EvalExpr<E>(e: Expr, sc: Scope, h: Host<E>, env: E): Outcome<E>
    decreases e, 4
  {
    match e
    case Lit(l) => Ok(LitValue(l), env)
    case Ident(name) => LoadName(name, sc, h, env)
    case Paren(inner) => EvalExpr(inner, sc, h, env)
    case Unary(_, _) =>
      if TypeofName(e, sc, h) then h.typeofGlobal(Strip(e.arg).name, env) else EvalUnary(e, sc, h, env)
    case Binary(_, _, _) => EvalOperands(e, sc, h, env)
    case LogicalExpr(_, _, _) => EvalLogical(e, sc, h, env)
    case Conditional(_, _, _) => EvalConditional(e, sc, h, env)
    case Sequence(exprs) => EvalSequence(exprs, sc, h, env)
    case AssignExpr(_, _, _) =>
      if !e.asgop.Assign? then EvalCombinedAssign(e, sc, h, env)
      else if h.order.Specified? && e.target.MemberTarget? then EvalTargetFirst(e, sc, h, env)
      else EvalPlainAssign(e, sc, h, env)
    case Update(_, _, _) => if h.order.Specified? then EvalNumericUpdate(e, sc, h, env) else EvalUpdate(e, sc, h, env)
    case Member(_, _, _) => ChainValue(EvalChain(e, sc, h, env))
  }

  function EvalUnary<E>(e: Expr, sc: Scope, h: Host<E>, env: E): Outcome<E>
    requires e.Unary?
    decreases e, 0
  {
    if e.unop == Typeof && IsGlobalName(e.arg, sc) then h.typeofGlobal(e.arg.name, env)
    else
      match EvalExpr(e.arg, sc, h, env)
      case Thrown(x, env1) => Thrown(x, env1)
      case Ok(v, env1) => UnaryValue(h, e.unop, v, env1)
  }

  function EvalOperands<E>(e: Expr, sc: Scope, h: Host<E>, env: E): Outcome<E>
    requires e.Binary?
    decreases e, 0
  {
    match EvalExpr(e.left, sc, h, env)
    case Thrown(x, env1) => Thrown(x, env1)
    case Ok(a, env1) =>
      match EvalExpr(e.right, sc, h, env1)
      case Thrown(x, env2) => Thrown(x, env2)
      case Ok(b, env2) => EvalBinary(e.binop, a, b, h, env2)
  }

  function EvalLogical<E>(e: Expr, sc: Scope, h: Host<E>, env: E): Outcome<E>
    requires e.LogicalExpr?
    decreases e, 0
  {
    match EvalExpr(e.left, sc, h, env)
    case Thrown(x, env1) => Thrown(x, env1)
    case Ok(a, env1) => if TakesRight(e.logop, a) then EvalExpr(e.right, sc, h, env1) else Ok(a, env1)
  }

  function EvalConditional<E>(e: Expr, sc: Scope, h: Host<E>, env: E): Outcome<E>
    requires e.Conditional?
    decreases e, 0
  {
    match EvalExpr(e.test, sc, h, env)
    case Thrown(x, env1) => Thrown(x, env1)
    case Ok(t, env1) => EvalExpr(if Truthy(t) then e.cons else e.alt, sc, h, env1)
  }

  /** `x++` as it is emitted: the old value is not converted, and one is the
      number one. */
  function EvalUpdate<E>(e: Expr, sc: Scope, h: Host<E>, env: E): Outcome<E>
    requires e.Update?
    decreases e, 0
  {
    match EvalTarget(e.target, sc, h, env)
    case RefThrown(x, env1) => Thrown(x, env1)
    case RefOk(r, env1) =>
      match LoadRef(r, sc, h, env1)
      case Thrown(x, env2) => Thrown(x, env2)
      case Ok(before, env2) =>
        match EvalBinary(UpdateBinOp(e.updop), before, Integer(1), h, env2)
        case Thrown(x, env3) => Thrown(x, env3)
        case Ok(after, env3) => StoreAndYield(r, after, if e.prefix then after else before, sc, h, env3)
  }

  /** One of the kind of a numeric value. */
  function Unit(v: Value): Value {
    if v.BigInt? then BigInt("1") else Integer(1)
  }

  /** `x++` as it is specified: the old value is converted by ToNumeric. */
  function EvalNumericUpdate<E>(e: Expr, sc: Scope, h: Host<E>, env: E): Outcome<E>
    requires e.Update?
    decreases e, 0
  {
    match EvalTarget(e.target, sc, h, env)
    case RefThrown(x, env1) => Thrown(x, env1)
    case RefOk(r, env1) =>
      match LoadRef(r, sc, h, env1)
      case Thrown(x, env2) => Thrown(x, env2)
      case Ok(v, env2) =>
        match h.numeric(v, env2)
        case Thrown(x, env3) => Thrown(x, env3)
        case Ok(before, env3) =>
          match EvalBinary(UpdateBinOp(e.updop), before, Unit(before), h, env3)
          case Thrown(x, env4) => Thrown(x, env4)
          case Ok(after, env4) => StoreAndYield(r, after, if e.prefix then after else before, sc, h, env4)
  }

  function EvalSequence<E>(es: ExprList, sc: Scope, h: Host<E>, env: E): Outcome<E>
    decreases es, 0
  {
    match es
    case ENil => Ok(Undefined, env)
    case ECons(e, tail) =>
      match EvalExpr(e, sc, h, env)
      case Thrown(x, env1) => Thrown(x, env1)
      case Ok(v, env1) => if tail.ENil? then Ok(v, env1) else EvalSequence(tail, sc, h, env1)
  }

  function EvalProperty<E>(p: Property, sc: Scope, h: Host<E>, env: E): Outcome<E>
    decreases p, 0
  {
    match p
    case Named(name) => Ok(Str(name), env)
    case Computed(key) => EvalExpr(key, sc, h, env)
  }

  function EvalTarget<E>(t: Target, sc: Scope, h: Host<E>, env: E): RefOutcome<E>
    decreases t, 0
  {
    match t
    case IdentTarget(name) => RefOk(NameRef(name), env)
    case MemberTarget(obj, prop) =>
      match EvalExpr(obj, sc, h, env)
      case Thrown(x, env1) => RefThrown(x, env1)
      case Ok(o, env1) =>
        match EvalProperty(prop, sc, h, env1)
        case Thrown(x, env2) => RefThrown(x, env2)
        case Ok(k, env2) => RefOk(PropRef(o, k), env2)
  }

  /** `target = right`, in the order the compiler emits: the right-hand side
      first, also when the target is `o[k]`. */
  function EvalPlainAssign<E>(e: Expr, sc: Scope, h: Host<E>, env: E): Outcome<E>
    requires e.AssignExpr?
    decreases e, 0
  {
    match EvalExpr(e.right, sc, h, env)
    case Thrown(x, env1) => Thrown(x, env1)
    case Ok(v, env1) =>
      match EvalTarget(e.target, sc, h, env1)
      case RefThrown(x, env2) => Thrown(x, env2)
      case RefOk(r, env2) => StoreAndYield(r, v, v, sc, h, env2)
  }

  /** `o[k] = right` as it is specified: `o` and `k` first. */
  function EvalTargetFirst<E>(e: Expr, sc: Scope, h: Host<E>, env: E): Outcome<E>
    requires e.AssignExpr?
    decreases e, 0
  {
    match EvalTarget(e.target, sc, h, env)
    case RefThrown(x, env1) => Thrown(x, env1)
    case RefOk(r, env1) =>
      match EvalExpr(e.right, sc, h, env1)
      case Thrown(x, env2) => Thrown(x, env2)
      case Ok(v, env2) => StoreAndYield(r, v, v, sc, h, env2)
  }

  /** `target op= right` and `target &&= right`: the target first, once. */
  function EvalCombinedAssign<E>(e: Expr, sc: Scope, h: Host<E>, env: E): Outcome<E>
    requires e.AssignExpr?
    decreases e, 0
  {
    match EvalTarget(e.target, sc, h, env)
    case RefThrown(x, env1) => Thrown(x, env1)
    case RefOk(r, env1) =>
      match LoadRef(r, sc, h, env1)
      case Thrown(x, env2) => Thrown(x, env2)
      case Ok(a, env2) =>
        if e.asgop.Logical? && !TakesRight(e.asgop.logical, a) then Ok(a, env2)
        else
          match EvalExpr(e.right, sc, h, env2)
          case Thrown(x, env3) => Thrown(x, env3)
          case Ok(b, env3) =>
            match CombineAssigned(e.asgop, a, b, h, env3)
            case Thrown(x, env4) => Thrown(x, env4)
            case Ok(v, env4) => StoreAndYield(r, v, v, sc, h, env4)
  }

  function CombineAssigned<E>(op: AssignOp, a: Value, b: Value, h: Host<E>, env: E): Outcome<E> {
    if op.Compound? then EvalBinary(op.op, a, b, h, env) else Ok(b, env)
  }

  /** The value of a member chain, or its short circuit at a nullish base. */
  datatype ChainOutcome<E> = Through(o: Outcome<E>) | Short(env: E)

  /** A short-circuited chain is undefined as a whole. */
  function ChainValue<E>(c: ChainOutcome<E>): Outcome<E> {
    match c
    case Through(o) => o
    case Short(env) => Ok(Undefined, env)
  }

  function EvalChain<E>(e: Expr, sc: Scope, h: Host<E>, env: E): ChainOutcome<E>
    decreases e, if e.Member? then 0 else 5
  {
    match e
    case Member(obj, prop, optional) =>
      (match EvalChain(obj, sc, h, env)
       case Short(env1) => Short(env1)
       case Through(Thrown(x, env1)) => Through(Thrown(x, env1))
       case Through(Ok(o, env1)) =>
         if optional && Nullish(o) then Short(env1)
         else
           match EvalProperty(prop, sc, h, env1)
           case Thrown(x, env2) => Through(Thrown(x, env2))
           case Ok(k, env2) => Through(h.getProp(o, k, env2)))
    case _ => Through(EvalExpr(e, sc, h, env))
  }

  // ----- statements -----

  datatype Completion =
    | Normal
    | BreakTo(lbl: Option<string>)
    | ContinueTo(lbl: Option<string>)
    | ReturnWith(value: Value)
    | ThrowWith(value: Value)

  datatype StmtResult<E> = Done(completion: Completion, env: E) | Timeout

  /** A loop goes on after its body completes normally or continues it. */
  predicate LoopContinues(c: Completion, labels: seq<string>) {
    match c
    case Normal => true
    case ContinueTo(None) => true
    case ContinueTo(Some(l)) => l in labels
    case _ => false
  }

  /** An unlabelled break ends the innermost loop or switch normally. */
  function AbsorbBreak<E>(r: StmtResult<E>): StmtResult<E> {
    match r
    case Done(BreakTo(None), env) => Done(Normal, env)
    case _ => r
  }

  function AbsorbLabel<E>(r: StmtResult<E>, name: string): StmtResult<E> {
    if r.Done? && r.completion == BreakTo(Some(name)) then Done(Normal, r.env) else r
  }

  function Exec<E>(s: Stmt, labels: seq<string>, sc: Scope, h: Host<E>, env: E, fuel: nat): StmtResult<E>
    decreases fuel, s, 1
  {
    match s
    case Empty => Done(Normal, env)
    case Block(body) => ExecList(body, sc, h, env, fuel)
    case ExprStmt(e) =>
      (match EvalExpr(e, sc, h, env)
       case Ok(_, env1) => Done(Normal, env1)
       case Thrown(x, env1) => Done(ThrowWith(x), env1))
    case Return(None) => Done(ReturnWith(Undefined), env)
    case Return(Some(e)) =>
      (match EvalExpr(e, sc, h, env)
       case Ok(v, env1) => Done(ReturnWith(v), env1)
       case Thrown(x, env1) => Done(ThrowWith(x), env1))
    case ThrowStmt(e) =>
      (match EvalExpr(e, sc, h, env)
       case Ok(v, env1) => Done(ThrowWith(v), env1)
       case Thrown(x, env1) => Done(ThrowWith(x), env1))
    case If(test, cons, alt) =>
      (match EvalExpr(test, sc, h, env)
       case Thrown(x, env1) => Done(ThrowWith(x), env1)
       case Ok(t, env1) =>
         if Truthy(t) then Exec(cons, [], sc, h, env1, fuel)
         else if alt.Some? then Exec(alt.value, [], sc, h, env1, fuel)
         else Done(Normal, env1))
    case While(test, body) => AbsorbBreak(ExecWhile(test, body, labels, sc, h, env, fuel))
    case DoWhile(body, test) => AbsorbBreak(ExecDo(body, test, labels, sc, h, env, fuel))
    case For(init, cond, update, body) =>
      (match EvalOptional(init, sc, h, env)
       case Thrown(x, env1) => Done(ThrowWith(x), env1)
       case Ok(_, env1) => AbsorbBreak(ExecFor(cond, update, body, labels, sc, h, env1, fuel)))
    case Switch(disc, cases) =>
      (match EvalExpr(disc, sc, h, env)
       case Thrown(x, env1) => Done(ThrowWith(x), env1)
       case Ok(d, env1) =>
         match SelectCase(cases, 0, d, sc, h, env1)
         case NoCase(x, env2) => Done(ThrowWith(x), env2)
         case Chosen(index, env2) =>
           AbsorbBreak(ExecCases(cases, StartCase(cases, index), sc, h, env2, fuel)))
    case Break(l) => Done(BreakTo(l), env)
    case Continue(l) => Done(ContinueTo(l), env)
    case Labeled(name, body) => AbsorbLabel(Exec(body, labels + [name], sc, h, env, fuel), name)
  }

  /** An absent `for` clause evaluates to undefined and changes nothing. */
  function EvalOptional<E>(e: Option<Expr>, sc: Scope, h: Host<E>, env: E): Outcome<E> {
    if e.Some? then EvalExpr(e.value, sc, h, env) else Ok(Undefined, env)
  }

  function ExecList<E>(ss: StmtList, sc: Scope, h: Host<E>, env: E, fuel: nat): StmtResult<E>
    decreases fuel, ss, 0
  {
    match ss
    case SNil => Done(Normal, env)
    case SCons(s, tail) =>
      match Exec(s, [], sc, h, env, fuel)
      case Done(Normal, env1) => ExecList(tail, sc, h, env1, fuel)
      case r => r
  }

  function ExecWhile<E>(test: Expr, body: Stmt, labels: seq<string>, sc: Scope, h: Host<E>, env: E, fuel: nat)
    : StmtResult<E>
    decreases fuel, body, 2
  {
    if fuel == 0 then Timeout
    else
      match EvalExpr(test, sc, h, env)
      case Thrown(x, env1) => Done(ThrowWith(x), env1)
      case Ok(t, env1) =>
        if !Truthy(t) then Done(Normal, env1)
        else
          match Exec(body, [], sc, h, env1, fuel)
          case Timeout => Timeout
          case Done(c, env2) =>
            if LoopContinues(c, labels) then ExecWhile(test, body, labels, sc, h, env2, fuel - 1)
            else Done(c, env2)
  }

  function ExecDo<E>(body: Stmt, test: Expr, labels: seq<string>, sc: Scope, h: Host<E>, env: E, fuel: nat)
    : StmtResult<E>
    decreases fuel, body, 2
  {
    if fuel == 0 then Timeout
    else
      match Exec(body, [], sc, h, env, fuel)
      case Timeout => Timeout
      case Done(c, env1) =>
        if !LoopContinues(c, labels) then Done(c, env1)
        else
          match EvalExpr(test, sc, h, env1)
          case Thrown(x, env2) => Done(ThrowWith(x), env2)
          case Ok(t, env2) =>
            if Truthy(t) then ExecDo(body, test, labels, sc, h, env2, fuel - 1) else Done(Normal, env2)
  }

  function ExecFor<E>(cond: Option<Expr>, update: Option<Expr>, body: Stmt, labels: seq<string>,
                      sc: Scope, h: Host<E>, env: E, fuel: nat)
    : StmtResult<E>
    decreases fuel, body, 2
  {
    if fuel == 0 then Timeout
    else
      match EvalOptional(cond, sc, h, env)
      case Thrown(x, env1) => Done(ThrowWith(x), env1)
      case Ok(t, env1) =>
        if cond.Some? && !Truthy(t) then Done(Normal, env1)
        else
          match Exec(body, [], sc, h, env1, fuel)
          case Timeout => Timeout
          case Done(c, env2) =>
            if !LoopContinues(c, labels) then Done(c, env2)
            else
              match EvalOptional(update, sc, h, env2)
              case Thrown(x, env3) => Done(ThrowWith(x), env3)
              case Ok(_, env3) => ExecFor(cond, update, body, labels, sc, h, env3, fuel - 1)
  }

  // ----- switch -----

  datatype Selection<E> = Chosen(index: Option<nat>, env: E) | NoCase(value: Value, env: E)

  /** The first case, in source order and skipping `default`, whose test is
      strictly equal to the discriminant. */
  function SelectCase<E>(cases: CaseList, i: nat, d: Value, sc: Scope, h: Host<E>, env: E): Selection<E> {
    match cases
    case CNil => Chosen(None, env)
    case CCons(Case(None, _), tail) => SelectCase(tail, i + 1, d, sc, h, env)
    case CCons(Case(Some(t), _), tail) =>
      match EvalExpr(t, sc, h, env)
      case Thrown(x, env1) => NoCase(x, env1)
      case Ok(v, env1) =>
        if h.strictEq(d, v) then Chosen(Some(i), env1) else SelectCase(tail, i + 1, d, sc, h, env1)
  }

  /** Position of the (last) `default` clause. */
  function DefaultIndex(cases: CaseList, i: nat): Option<nat> {
    match cases
    case CNil => None
    case CCons(Case(test, _), tail) =>
      var later := DefaultIndex(tail, i + 1);
      if later.Some? then later else if test.None? then Some(i) else None
  }

  /** Where the bodies start: the match, else the default, else past the end. */
  function StartCase(cases: CaseList, index: Option<nat>): nat {
    match index
    case Some(i) => i
    case None =>
      match DefaultIndex(cases, 0)
      case Some(i) => i
      case None => CaseCount(cases)
  }

  /** Run the case bodies from position `from` on, falling through. */
  function ExecCases<E>(cases: CaseList, from: nat, sc: Scope, h: Host<E>, env: E, fuel: nat): StmtResult<E>
    decreases fuel, cases, 0
  {
    match cases
    case CNil => Done(Normal, env)
    case CCons(c, tail) =>
      if from > 0 then ExecCases(tail, from - 1, sc, h, env, fuel)
      else
        match ExecList(c.body, sc, h, env, fuel)
        case Done(Normal, env1) => ExecCases(tail, 0, sc, h, env1, fuel)
        case r => r
  }
}
