/** The completion value that ECMA-262 gives to a script, and the one that its
    code leaves. In the standard, statements inside others have values too; the
    code keeps those of the top-level expression statements. */
module CompletionValues {
  import opened Syntax
  import opened Machine
  import opened Semantics
  import opened FunctionCorrect

  /** A later value takes the place of an earlier one. */
  function Later(earlier: Option<Value>, later: Option<Value>): Option<Value> {
    if later.Some? then later else earlier
  }

  function OrElse(v: Option<Value>, otherwise: Value): Value {
    if v.Some? then v.value else otherwise
  }

  // ----- values of statements -----

  /** The value of the completion of a statement, if it has one. */
  function StmtValue<E>(s: Stmt, labels: seq<string>, sc: Scope, h: Host<E>, env: E, fuel: nat): Option<Value>
    decreases fuel, s, 1
  {
    match s
    case Block(body) => ListValue(body, sc, h, env, fuel)
    case ExprStmt(e) =>
      (match EvalExpr(e, sc, h, env)
       case Ok(v, _) => Some(v)
       case Thrown(_, _) => None)
    case If(test, cons, alt) =>
      (match EvalExpr(test, sc, h, env)
       case Thrown(_, _) => None
       case Ok(t, env1) =>
         if Truthy(t) then Some(OrElse(StmtValue(cons, [], sc, h, env1, fuel), Undefined))
         else if alt.Some? then Some(OrElse(StmtValue(alt.value, [], sc, h, env1, fuel), Undefined))
         else Some(Undefined))
    case While(test, body) => Some(WhileValue(test, body, labels, sc, h, env, fuel, Undefined))
    case DoWhile(body, test) => Some(DoValue(body, test, labels, sc, h, env, fuel, Undefined))
    case For(init, cond, update, body) =>
      (match EvalOptional(init, sc, h, env)
       case Thrown(_, _) => None
       case Ok(_, env1) => Some(ForValue(cond, update, body, labels, sc, h, env1, fuel, Undefined)))
    case Switch(disc, cases) =>
      (match EvalExpr(disc, sc, h, env)
       case Thrown(_, _) => None
       case Ok(d, env1) =>
         match SelectCase(cases, 0, d, sc, h, env1)
         case NoCase(_, _) => None
         case Chosen(index, env2) => Some(CasesValue(cases, StartCase(cases, index), sc, h, env2, fuel, Undefined)))
    case Labeled(name, body) => StmtValue(body, labels + [name], sc, h, env, fuel)
    case _ => None
  }

  /** The value of the last statement that has one. */
  function ListValue<E>(ss: StmtList, sc: Scope, h: Host<E>, env: E, fuel: nat): Option<Value>
    decreases fuel, ss, 0
  {
    match ss
    case SNil => None
    case SCons(s, tail) =>
      var v := StmtValue(s, [], sc, h, env, fuel);
      match Exec(s, [], sc, h, env, fuel)
      case Done(Normal, env1) => Later(v, ListValue(tail, sc, h, env1, fuel))
      case _ => v
  }

  /** A loop has the value of the last iteration that has one, here after `v`. */
  function WhileValue<E>(test: Expr, body: Stmt, labels: seq<string>, sc: Scope, h: Host<E>, env: E, fuel: nat,
                         v: Value): Value
    decreases fuel, body, 2
  {
    if fuel == 0 then v
    else
      match EvalExpr(test, sc, h, env)
      case Thrown(_, _) => v
      case Ok(t, env1) =>
        if !Truthy(t) then v
        else
          var w := OrElse(StmtValue(body, [], sc, h, env1, fuel), v);
          match Exec(body, [], sc, h, env1, fuel)
          case Timeout => w
          case Done(c, env2) =>
            if LoopContinues(c, labels) then WhileValue(test, body, labels, sc, h, env2, fuel - 1, w) else w
  }

  function DoValue<E>(body: Stmt, test: Expr, labels: seq<string>, sc: Scope, h: Host<E>, env: E, fuel: nat,
                      v: Value): Value
    decreases fuel, body, 2
  {
    if fuel == 0 then v
    else
      var w := OrElse(StmtValue(body, [], sc, h, env, fuel), v);
      match Exec(body, [], sc, h, env, fuel)
      case Timeout => w
      case Done(c, env1) =>
        if !LoopContinues(c, labels) then w
        else
          match EvalExpr(test, sc, h, env1)
          case Thrown(_, _) => w
          case Ok(t, env2) => if Truthy(t) then DoValue(body, test, labels, sc, h, env2, fuel - 1, w) else w
  }

  function ForValue<E>(cond: Option<Expr>, update: Option<Expr>, body: Stmt, labels: seq<string>,
                       sc: Scope, h: Host<E>, env: E, fuel: nat, v: Value): Value
    decreases fuel, body, 2
  {
    if fuel == 0 then v
    else
      match EvalOptional(cond, sc, h, env)
      case Thrown(_, _) => v
      case Ok(t, env1) =>
        if cond.Some? && !Truthy(t) then v
        else
          var w := OrElse(StmtValue(body, [], sc, h, env1, fuel), v);
          match Exec(body, [], sc, h, env1, fuel)
          case Timeout => w
          case Done(c, env2) =>
            if !LoopContinues(c, labels) then w
            else
              match EvalOptional(update, sc, h, env2)
              case Thrown(_, _) => w
              case Ok(_, env3) => ForValue(cond, update, body, labels, sc, h, env3, fuel - 1, w)
  }

  function CasesValue<E>(cases: CaseList, from: nat, sc: Scope, h: Host<E>, env: E, fuel: nat, v: Value): Value
    decreases fuel, cases, 0
  {
    match cases
    case CNil => v
    case CCons(c, tail) =>
      if from > 0 then CasesValue(tail, from - 1, sc, h, env, fuel, v)
      else
        var w := OrElse(ListValue(c.body, sc, h, env, fuel), v);
        match ExecList(c.body, sc, h, env, fuel)
        case Done(Normal, env1) => CasesValue(tail, 0, sc, h, env1, fuel, w)
        case _ => w
  }

  /** How a script ends whose statements end with `r` and have the value `v`. */
  function Ending<E>(r: StmtResult<E>, v: Option<Value>, otherwise: Value): Option<Result<E>> {
    match r
    case Done(Normal, env) => Some(Returned(OrElse(v, otherwise), env))
    case _ => Final(r)
  }

  /** The end of a script as the standard has it. */
  function StandardScript<E>(ss: StmtList, sc: Scope, h: Host<E>, env: E, fuel: nat): Option<Result<E>> {
    Ending(ExecList(ss, sc, h, env, fuel), ListValue(ss, sc, h, env, fuel), Undefined)
  }

  // ----- where both values agree -----

  /** A statement that never has a value. */
  predicate Silent(s: Stmt) {
    match s
    case Block(body) => AllSilent(body)
    case Labeled(_, body) => Silent(body)
    case _ => s.Empty? || s.Return? || s.ThrowStmt? || s.Break? || s.Continue?
  }

  predicate AllSilent(ss: StmtList) {
    match ss
    case SNil => true
    case SCons(s, tail) => Silent(s) && AllSilent(tail)
  }

  /** Some top-level statement is an expression. */
  predicate Speaks(ss: StmtList) {
    match ss
    case SNil => false
    case SCons(s, tail) => s.ExprStmt? || Speaks(tail)
  }

  /** After the last top-level expression statement nothing has a value. */
  predicate SilentTail(ss: StmtList) {
    match ss
    case SNil => true
    case SCons(s, tail) => SilentTail(tail) && (s.ExprStmt? || Silent(s) || Speaks(tail))
  }

  lemma {:induction false} SilentValue<E>(s: Stmt, labels: seq<string>, sc: Scope, h: Host<E>, env: E, fuel: nat)
    requires Silent(s)
    ensures StmtValue(s, labels, sc, h, env, fuel) == None
    decreases s
  {
    match s
    case Block(body) => AllSilentValue(body, sc, h, env, fuel);
    case Labeled(name, body) => SilentValue(body, labels + [name], sc, h, env, fuel);
    case _ =>
  }

  lemma {:induction false} AllSilentValue<E>(ss: StmtList, sc: Scope, h: Host<E>, env: E, fuel: nat)
    requires AllSilent(ss)
    ensures ListValue(ss, sc, h, env, fuel) == None
    decreases ss
  {
    hide Exec, StmtValue;
    match ss
    case SNil =>
    case SCons(s, tail) =>
      SilentValue(s, [], sc, h, env, fuel);
      var r := Exec(s, [], sc, h, env, fuel);
      if r.Done? {
        AllSilentValue(tail, sc, h, r.env, fuel);
      }
  }

  lemma {:induction false} SpeaksValue<E>(ss: StmtList, sc: Scope, h: Host<E>, env: E, fuel: nat)
    requires Speaks(ss) && ExecList(ss, sc, h, env, fuel).Done? && ExecList(ss, sc, h, env, fuel).completion.Normal?
    ensures ListValue(ss, sc, h, env, fuel).Some?
    decreases ss
  {
    hide EvalExpr;
    var r := Exec(ss.head, [], sc, h, env, fuel);
    if !ss.head.ExprStmt? {
      SpeaksValue(ss.tail, sc, h, r.env, fuel);
    }
  }

  /** The value that the code leaves is the value of the statements. */
  lemma {:induction false} TopValue<E>(ss: StmtList, last: Value, sc: Scope, h: Host<E>, env: E, fuel: nat)
    requires SilentTail(ss)
    ensures RunScript(ss, last, sc, h, env, fuel)
            == Ending(ExecList(ss, sc, h, env, fuel), ListValue(ss, sc, h, env, fuel), last)
    decreases ss
  {
    hide EvalExpr, Silent;
    match ss
    case SNil =>
    case SCons(s, tail) =>
      var r := Exec(s, [], sc, h, env, fuel);
      if r.Done? && r.completion.Normal? {
        var v := StmtValue(s, [], sc, h, env, fuel);
        TopValue(tail, if s.ExprStmt? then v.value else last, sc, h, r.env, fuel);
        var rest := ExecList(tail, sc, h, r.env, fuel);
        if s.ExprStmt? {
        } else if Silent(s) {
          SilentValue(s, [], sc, h, env, fuel);
        } else if rest.Done? && rest.completion.Normal? {
          SpeaksValue(tail, sc, h, r.env, fuel);
        }
      }
  }

  /** A script in which nothing has a value after the last top-level expression
      statement has the value of the standard. */
  lemma ScriptValue<E>(ss: StmtList, sc: Scope, h: Host<E>, env: E, fuel: nat)
    requires SilentTail(ss)
    ensures RunScript(ss, Undefined, sc, h, env, fuel) == StandardScript(ss, sc, h, env, fuel)
  {
    TopValue(ss, Undefined, sc, h, env, fuel);
  }

  /** Both ends are the same but for the value. */
  predicate SameButValue<E(==)>(a: Option<Result<E>>, b: Option<Result<E>>) {
    a == b || (a.Some? && b.Some? && a.value.Returned? && b.value.Returned? && a.value.env == b.value.env)
  }

  /** Whatever the script, only its value can be another one. */
  lemma {:induction false} EndsAlike<E>(ss: StmtList, last: Value, sc: Scope, h: Host<E>, env: E, fuel: nat)
    ensures SameButValue(RunScript(ss, last, sc, h, env, fuel), StandardScript(ss, sc, h, env, fuel))
    ensures !Speaks(ss) ==> RunScript(ss, last, sc, h, env, fuel) == Ending(ExecList(ss, sc, h, env, fuel), None, last)
    decreases ss
  {
    hide EvalExpr;
    match ss
    case SNil =>
    case SCons(s, tail) =>
      var r := Exec(s, [], sc, h, env, fuel);
      if r.Done? && r.completion.Normal? {
        EndsAlike(tail, if s.ExprStmt? then StmtValue(s, [], sc, h, env, fuel).value else last, sc, h, r.env, fuel);
      }
  }

  // ----- where they differ -----

  predicate AllGlobal(e: Option<Expr>, sc: Scope) {
    e.Some? ==> IsGlobalName(e.value, sc)
  }

  /** A statement that asks for globals only, goes through all its conditions
      and does not jump. */
  predicate Flowing(s: Stmt, sc: Scope) {
    match s
    case Empty => true
    case Block(body) => AllFlowing(body, sc)
    case ExprStmt(e) => IsGlobalName(e, sc)
    case If(test, cons, alt) =>
      IsGlobalName(test, sc) && Flowing(cons, sc) && (alt.Some? ==> Flowing(alt.value, sc))
    case While(test, body) => IsGlobalName(test, sc) && Flowing(body, sc)
    case DoWhile(body, test) => IsGlobalName(test, sc) && Flowing(body, sc)
    case For(init, cond, update, body) =>
      AllGlobal(init, sc) && cond.Some? && AllGlobal(cond, sc) && AllGlobal(update, sc) && Flowing(body, sc)
    case Labeled(_, body) => Flowing(body, sc)
    case _ => false
  }

  predicate AllFlowing(ss: StmtList, sc: Scope) {
    match ss
    case SNil => true
    case SCons(s, tail) => Flowing(s, sc) && AllFlowing(tail, sc)
  }

  /** A host whose globals are zero, but for the load that comes when the count
      has gone down to zero. */
  function CountingHost(): Host<int> {
    Host(Specified,
         (r: VarRef, n) => Ok(if n == 0 then Integer(7) else Integer(0), n - 1), (r, v, n) => Ok(v, n),
         (s, n) => Ok(Undefined, n), (op, a, b, n) => Ok(a, n), (a, b) => a == b, (op, v, n) => Ok(v, n),
         (v, n) => Ok(v, n), (o, k, n) => Ok(o, n), (v, o, k, n) => Ok(v, n))
  }

  /** How many globals are loaded as long as all of them are zero. */
  function Loads(s: Stmt): nat {
    match s
    case Block(body) => ListLoads(body)
    case ExprStmt(_) => 1
    case If(_, _, alt) => 1 + (if alt.Some? then Loads(alt.value) else 0)
    case While(_, _) => 1
    case DoWhile(body, _) => Loads(body) + 1
    case For(init, _, _, _) => if init.Some? then 2 else 1
    case Labeled(_, body) => Loads(body)
    case _ => 0
  }

  function ListLoads(ss: StmtList): nat {
    match ss
    case SNil => 0
    case SCons(s, tail) => Loads(s) + ListLoads(tail)
  }

  /** No value when silent, and otherwise one that is not seven. */
  predicate NotSeven(silent: bool, v: Option<Value>) {
    if silent then v == None else v == Some(Undefined) || v == Some(Integer(0))
  }

  lemma ZeroLoaded(sc: Scope)
    ensures forall e, n :: IsGlobalName(e, sc) && n != 0 ==>
              EvalExpr(e, sc, CountingHost(), n) == Ok(Integer(0), n - 1)
  {
  }

  lemma {:induction false} Flows(s: Stmt, labels: seq<string>, sc: Scope, n: int, fuel: nat)
    requires Flowing(s, sc) && (n < 0 || n >= Loads(s)) && fuel > 0
    ensures Exec(s, labels, sc, CountingHost(), n, fuel) == Done(Normal, n - Loads(s))
    ensures NotSeven(Silent(s), StmtValue(s, labels, sc, CountingHost(), n, fuel))
    decreases s
  {
    hide EvalExpr, IsGlobalName, ExecCases, SelectCase, CasesValue;
    ZeroLoaded(sc);
    match s
    case Empty =>
    case Block(body) => ListFlows(body, sc, n, fuel);
    case ExprStmt(_) =>
    case If(_, _, alt) =>
      if alt.Some? {
        Flows(alt.value, [], sc, n - 1, fuel);
      }
    case While(_, _) =>
    case DoWhile(body, _) => Flows(body, [], sc, n, fuel);
    case For(_, _, _, _) =>
    case Labeled(name, body) => Flows(body, labels + [name], sc, n, fuel);
  }

  lemma {:induction false} ListFlows(ss: StmtList, sc: Scope, n: int, fuel: nat)
    requires AllFlowing(ss, sc) && (n < 0 || n >= ListLoads(ss)) && fuel > 0
    ensures ExecList(ss, sc, CountingHost(), n, fuel) == Done(Normal, n - ListLoads(ss))
    ensures NotSeven(AllSilent(ss), ListValue(ss, sc, CountingHost(), n, fuel))
    decreases ss
  {
    hide Exec, StmtValue;
    match ss
    case SNil =>
    case SCons(s, tail) =>
      Flows(s, [], sc, n, fuel);
      ListFlows(tail, sc, n - Loads(s), fuel);
  }

  /** Loads before the last top-level expression statement. */
  function LoadsBefore(ss: StmtList): nat {
    match ss
    case SNil => 0
    case SCons(s, tail) => if Speaks(tail) then Loads(s) + LoadsBefore(tail) else 0
  }

  /** The code leaves the value of the last top-level expression statement, which
      is seven here; the standard takes a later one. */
  lemma {:induction false} ValuesDiffer(ss: StmtList, last: Value, sc: Scope, fuel: nat)
    requires AllFlowing(ss, sc) && Speaks(ss) && !SilentTail(ss) && fuel > 0
    ensures var h, n := CountingHost(), LoadsBefore(ss);
            && ExecList(ss, sc, h, n, fuel).Done? && ExecList(ss, sc, h, n, fuel).completion.Normal?
            && RunScript(ss, last, sc, h, n, fuel) == Ending(ExecList(ss, sc, h, n, fuel), Some(Integer(7)), last)
            && NotSeven(false, ListValue(ss, sc, h, n, fuel))
    decreases ss
  {
    hide Silent, Flowing;
    var h, s, tail := CountingHost(), ss.head, ss.tail;
    if Speaks(tail) {
      Flows(s, [], sc, LoadsBefore(ss), fuel);
      var v := StmtValue(s, [], sc, h, LoadsBefore(ss), fuel);
      ValuesDiffer(tail, if s.ExprStmt? then v.value else last, sc, fuel);
    } else {
      SevenLoaded(s, sc, fuel);
      ListFlows(tail, sc, -1, fuel);
      EndsAlike(tail, Integer(7), sc, h, -1, fuel);
      LoudTail(tail);
    }
  }

  lemma SevenLoaded(s: Stmt, sc: Scope, fuel: nat)
    requires Flowing(s, sc) && s.ExprStmt?
    ensures EvalExpr(s.expr, sc, CountingHost(), 0) == Ok(Integer(7), -1)
    ensures Exec(s, [], sc, CountingHost(), 0, fuel) == Done(Normal, -1)
  {
  }

  lemma {:induction false} LoudTail(ss: StmtList)
    ensures AllSilent(ss) ==> SilentTail(ss)
    decreases ss
  {
    if ss.SCons? {
      LoudTail(ss.tail);
    }
  }

  ghost predicate ValuesAgree<E>(ss: StmtList, sc: Scope, h: Host<E>, env: E, fuel: nat) {
    RunScript(ss, Undefined, sc, h, env, fuel) == StandardScript(ss, sc, h, env, fuel)
  }

  /** For scripts that have a top-level expression statement and flow: the code
      leaves the value of the standard with every host exactly when nothing has a
      value after the last top-level expression statement. */
  lemma ValuesAgreeExactly(ss: StmtList, sc: Scope)
    requires AllFlowing(ss, sc) && Speaks(ss)
    ensures SilentTail(ss) <==> forall h: Host<int>, env, fuel: nat :: ValuesAgree(ss, sc, h, env, fuel)
  {
    if SilentTail(ss) {
      forall h: Host<int>, env, fuel: nat ensures ValuesAgree(ss, sc, h, env, fuel) {
        ScriptValue(ss, sc, h, env, fuel);
      }
    } else {
      ValuesDiffer(ss, Undefined, sc, 1);
      assert !ValuesAgree(ss, sc, CountingHost(), LoadsBefore(ss), 1);
    }
  }
}
