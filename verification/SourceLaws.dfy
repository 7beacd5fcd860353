/** Laws of the source semantics, stated without its recursion: which case a
    switch selects, what falling through means, and how far a short-circuited
    optional chain is skipped. */
module SourceLaws {
  import opened Syntax
  import opened Machine
  import opened Semantics
  import opened CodeGen
  import opened Lengths
  import opened EmitterFacts
  import opened EarlyErrors

  // ----- switch -----

  /** The tests before case `k`, in source order and without `default`, take
      `env` to `env1`, and none equals the discriminant. */
  ghost predicate Passed<E>(cases: CaseList, k: nat, d: Value, sc: Scope, h: Host<E>, env: E, env1: E) {
    if k == 0 then env == env1
    else
      cases.CCons? &&
      match cases.head.test
      case None => Passed(cases.tail, k - 1, d, sc, h, env, env1)
      case Some(t) =>
        match EvalExpr(t, sc, h, env)
        case Thrown(_, _) => false
        case Ok(v, env2) => !h.strictEq(d, v) && Passed(cases.tail, k - 1, d, sc, h, env2, env1)
  }

  /** Case `k` has a test, and in `env1` its value is strictly equal to `d`. */
  ghost predicate Matches<E>(cases: CaseList, k: nat, d: Value, sc: Scope, h: Host<E>, env1: E, env2: E) {
    k < CaseCount(cases) && CaseAt(cases, k).test.Some? &&
    match EvalExpr(CaseAt(cases, k).test.value, sc, h, env1)
    case Thrown(_, _) => false
    case Ok(v, after) => h.strictEq(d, v) && after == env2
  }

  /** The selected case is the first whose test equals the discriminant. */
  lemma {:induction false} SelectsFirst<E(!new)>(cases: CaseList, i: nat, k: nat, d: Value, sc: Scope, h: Host<E>,
                                                 env: E, env2: E)
    ensures SelectCase(cases, i, d, sc, h, env) == Chosen(Some(i + k), env2)
            <==> exists env1 :: Passed(cases, k, d, sc, h, env, env1) && Matches(cases, k, d, sc, h, env1, env2)
    decreases cases
  {
    hide EvalExpr;
    match cases
    case CNil =>
      assert forall env1 :: !Matches(cases, k, d, sc, h, env1, env2);
    case CCons(c, tail) =>
      match c.test {
        case None => FirstSkipped(cases, i, k, d, sc, h, env, env, env2);
        case Some(t) =>
          match EvalExpr(t, sc, h, env)
          case Thrown(_, _) =>
            assert forall env1 :: !(Passed(cases, k, d, sc, h, env, env1) && Matches(cases, k, d, sc, h, env1, env2));
          case Ok(v, after) =>
            if h.strictEq(d, v) {
              FirstMatches(cases, i, k, d, sc, h, env, env2, after);
            } else {
              FirstSkipped(cases, i, k, d, sc, h, env, after, env2);
            }
      }
  }

  /** Positions are counted from `i` on. */
  lemma {:induction false} SelectsLater<E>(cases: CaseList, i: nat, d: Value, sc: Scope, h: Host<E>, env: E)
    ensures match SelectCase(cases, i, d, sc, h, env)
            case Chosen(Some(x), _) => x >= i
            case _ => true
    decreases cases
  {
    hide EvalExpr;
    if cases.CCons? {
      SelectsLater(cases.tail, i + 1, d, sc, h, env);
      match cases.head.test
      case None =>
      case Some(t) => SelectsLater(cases.tail, i + 1, d, sc, h, EvalExpr(t, sc, h, env).env);
    }
  }

  /** The first case is passed over, its test having led to `after`. */
  lemma {:induction false} FirstSkipped<E(!new)>(cases: CaseList, i: nat, k: nat, d: Value, sc: Scope, h: Host<E>,
                                                 env: E, after: E, env2: E)
    requires cases.CCons?
    requires match cases.head.test
             case None => after == env
             case Some(t) => EvalExpr(t, sc, h, env).Ok? && EvalExpr(t, sc, h, env).env == after
                             && !h.strictEq(d, EvalExpr(t, sc, h, env).value)
    ensures SelectCase(cases, i, d, sc, h, env) == Chosen(Some(i + k), env2)
            <==> exists env1 :: Passed(cases, k, d, sc, h, env, env1) && Matches(cases, k, d, sc, h, env1, env2)
    decreases cases, 0
  {
    hide EvalExpr;
    assert SelectCase(cases, i, d, sc, h, env) == SelectCase(cases.tail, i + 1, d, sc, h, after);
    if k == 0 {
      SelectsLater(cases.tail, i + 1, d, sc, h, after);
      assert forall env1 :: !(Passed(cases, 0, d, sc, h, env, env1) && Matches(cases, 0, d, sc, h, env1, env2));
    } else {
      var j := k - 1;
      SelectsFirst(cases.tail, i + 1, j, d, sc, h, after, env2);
      assert i + 1 + j == i + k;
      assert forall env1 :: Passed(cases, k, d, sc, h, env, env1) <==> Passed(cases.tail, j, d, sc, h, after, env1);
      assert forall env1 :: Matches(cases, k, d, sc, h, env1, env2) <==> Matches(cases.tail, j, d, sc, h, env1, env2);
    }
  }

  lemma FirstMatches<E(!new)>(cases: CaseList, i: nat, k: nat, d: Value, sc: Scope, h: Host<E>, env: E, env2: E,
                       after: E)
    requires cases.CCons? && cases.head.test.Some?
    requires EvalExpr(cases.head.test.value, sc, h, env).Ok? && EvalExpr(cases.head.test.value, sc, h, env).env == after
    requires h.strictEq(d, EvalExpr(cases.head.test.value, sc, h, env).value)
    ensures SelectCase(cases, i, d, sc, h, env) == Chosen(Some(i + k), env2)
            <==> exists env1 :: Passed(cases, k, d, sc, h, env, env1) && Matches(cases, k, d, sc, h, env1, env2)
  {
    hide EvalExpr;
    assert SelectCase(cases, i, d, sc, h, env) == Chosen(Some(i), after);
    if k == 0 {
      assert Passed(cases, k, d, sc, h, env, env);
      assert Matches(cases, k, d, sc, h, env, env2) <==> after == env2;
    } else {
      assert forall env1 :: !Passed(cases, k, d, sc, h, env, env1);
    }
  }

  /** The bodies from case `from` on, one after the other. */
  function BodiesFrom(cases: CaseList, from: nat): StmtList {
    match cases
    case CNil => SNil
    case CCons(c, tail) => if from > 0 then BodiesFrom(tail, from - 1) else Concat(c.body, BodiesFrom(tail, 0))
  }

  function Concat(a: StmtList, b: StmtList): StmtList {
    match a
    case SNil => b
    case SCons(s, tail) => SCons(s, Concat(tail, b))
  }

  lemma {:induction false} ConcatRuns<E>(a: StmtList, b: StmtList, sc: Scope, h: Host<E>, env: E, fuel: nat)
    ensures ExecList(Concat(a, b), sc, h, env, fuel)
         == match ExecList(a, sc, h, env, fuel)
            case Done(Normal, env1) => ExecList(b, sc, h, env1, fuel)
            case r => r
    decreases a
  {
    hide Exec;
    if a.SCons? {
      match Exec(a.head, [], sc, h, env, fuel)
      case Done(Normal, env1) => ConcatRuns(a.tail, b, sc, h, env1, fuel);
      case _ =>
    }
  }

  /** A switch runs the bodies from its start on as one statement list. */
  lemma {:induction false} FallsThrough<E>(cases: CaseList, from: nat, sc: Scope, h: Host<E>, env: E, fuel: nat)
    ensures ExecCases(cases, from, sc, h, env, fuel) == ExecList(BodiesFrom(cases, from), sc, h, env, fuel)
    decreases cases
  {
    hide Exec;
    if cases.CCons? {
      if from > 0 {
        FallsThrough(cases.tail, from - 1, sc, h, env, fuel);
      } else {
        ConcatRuns(cases.head.body, BodiesFrom(cases.tail, 0), sc, h, env, fuel);
        match ExecList(cases.head.body, sc, h, env, fuel)
        case Done(Normal, env1) => FallsThrough(cases.tail, 0, sc, h, env1, fuel);
        case _ =>
      }
    }
  }

  /** Case `k` is the default, and no other case is one. */
  ghost predicate OnlyDefault(cases: CaseList, k: nat) {
    k < CaseCount(cases)
    && forall j: nat :: j < CaseCount(cases) ==> (CaseAt(cases, j).test.None? <==> j == k)
  }

  ghost predicate NoDefault(cases: CaseList) {
    forall j: nat :: j < CaseCount(cases) ==> CaseAt(cases, j).test.Some?
  }

  /** The early errors leave a switch with one default or none. */
  lemma {:induction false} AcceptedDefaults(cases: CaseList)
    ensures DefaultCount(cases) <= 1 <==> NoDefault(cases) || exists k: nat :: OnlyDefault(cases, k)
    ensures DefaultCount(cases) == 0 <==> NoDefault(cases)
    decreases cases
  {
    if cases.CCons? {
      AcceptedDefaults(cases.tail);
      FirstCase(cases);
    }
  }

  lemma FirstCase(cases: CaseList)
    requires cases.CCons?
    ensures NoDefault(cases) <==> cases.head.test.Some? && NoDefault(cases.tail)
    ensures (exists k: nat :: OnlyDefault(cases, k))
            <==> if cases.head.test.None? then NoDefault(cases.tail) else exists k: nat :: OnlyDefault(cases.tail, k)
  {
    assert CaseAt(cases, 0) == cases.head;
    assert forall j: nat :: j < CaseCount(cases.tail) ==> CaseAt(cases, j + 1) == CaseAt(cases.tail, j);
    assert forall j: nat :: 0 < j < CaseCount(cases) ==> CaseAt(cases, j) == CaseAt(cases.tail, j - 1);
    if cases.head.test.None? && NoDefault(cases.tail) {
      assert OnlyDefault(cases, 0);
    }
    forall k: nat | OnlyDefault(cases, k) && k > 0 ensures OnlyDefault(cases.tail, k - 1) {
    }
    forall k: nat | OnlyDefault(cases.tail, k) && cases.head.test.Some? ensures OnlyDefault(cases, k + 1) {
    }
  }

  /** A switch whose case `k` is the first to match runs the bodies from there. */
  lemma SwitchMatches<E(!new)>(disc: Expr, cases: CaseList, k: nat, d: Value, labels: seq<string>, sc: Scope,
                               h: Host<E>, env: E, env0: E, env1: E, env2: E, fuel: nat)
    requires EvalExpr(disc, sc, h, env) == Ok(d, env0)
    requires Passed(cases, k, d, sc, h, env0, env1) && Matches(cases, k, d, sc, h, env1, env2)
    ensures Exec(Switch(disc, cases), labels, sc, h, env, fuel)
            == AbsorbBreak(ExecList(BodiesFrom(cases, k), sc, h, env2, fuel))
  {
    hide EvalExpr, ExecList, Passed, Matches;
    SelectsFirst(cases, 0, k, d, sc, h, env0, env2);
    FallsThrough(cases, k, sc, h, env2, fuel);
  }

  /** A switch without a match runs the bodies from its default on, wherever the
      default stands, after all tests have been evaluated. */
  lemma SwitchDefaults<E(!new)>(disc: Expr, cases: CaseList, k: nat, d: Value, labels: seq<string>, sc: Scope,
                                h: Host<E>, env: E, env0: E, env1: E, fuel: nat)
    requires EvalExpr(disc, sc, h, env) == Ok(d, env0)
    requires Passed(cases, CaseCount(cases), d, sc, h, env0, env1) && OnlyDefault(cases, k)
    ensures Exec(Switch(disc, cases), labels, sc, h, env, fuel)
            == AbsorbBreak(ExecList(BodiesFrom(cases, k), sc, h, env1, fuel))
  {
    hide EvalExpr, ExecList, Passed, OnlyDefault;
    AllPassed(cases, 0, d, sc, h, env0, env1);
    DefaultAt(cases, 0, k);
    FallsThrough(cases, k, sc, h, env1, fuel);
  }

  /** Without a default it does nothing more. */
  lemma SwitchSkips<E(!new)>(disc: Expr, cases: CaseList, d: Value, labels: seq<string>, sc: Scope, h: Host<E>, env: E,
                             env0: E, env1: E, fuel: nat)
    requires EvalExpr(disc, sc, h, env) == Ok(d, env0)
    requires Passed(cases, CaseCount(cases), d, sc, h, env0, env1) && NoDefault(cases)
    ensures Exec(Switch(disc, cases), labels, sc, h, env, fuel) == Done(Normal, env1)
  {
    hide EvalExpr, Passed, NoDefault;
    AllPassed(cases, 0, d, sc, h, env0, env1);
    DefaultNowhere(cases, 0);
    FallsThrough(cases, CaseCount(cases), sc, h, env1, fuel);
    NothingAfter(cases);
    assert ExecList(SNil, sc, h, env1, fuel) == Done(Normal, env1);
  }

  /** A test that throws ends the switch, when no earlier case matches. */
  lemma SwitchThrows<E(!new)>(disc: Expr, cases: CaseList, k: nat, d: Value, labels: seq<string>, sc: Scope, h: Host<E>,
                              env: E, env0: E, env1: E, x: Value, env2: E, fuel: nat)
    requires EvalExpr(disc, sc, h, env) == Ok(d, env0) && Passed(cases, k, d, sc, h, env0, env1)
    requires k < CaseCount(cases) && CaseAt(cases, k).test.Some?
    requires EvalExpr(CaseAt(cases, k).test.value, sc, h, env1) == Thrown(x, env2)
    ensures Exec(Switch(disc, cases), labels, sc, h, env, fuel) == Done(ThrowWith(x), env2)
  {
    hide EvalExpr, ExecList, Passed;
    TestThrows(cases, 0, k, d, sc, h, env0, env1, x, env2);
  }

  lemma {:induction false} TestThrows<E(!new)>(cases: CaseList, i: nat, k: nat, d: Value, sc: Scope, h: Host<E>, env: E,
                                               env1: E, x: Value, env2: E)
    requires Passed(cases, k, d, sc, h, env, env1) && k < CaseCount(cases) && CaseAt(cases, k).test.Some?
    requires EvalExpr(CaseAt(cases, k).test.value, sc, h, env1) == Thrown(x, env2)
    ensures SelectCase(cases, i, d, sc, h, env) == NoCase(x, env2)
    decreases cases
  {
    hide EvalExpr;
    if k > 0 {
      match cases.head.test
      case None => TestThrows(cases.tail, i + 1, k - 1, d, sc, h, env, env1, x, env2);
      case Some(t) =>
        TestThrows(cases.tail, i + 1, k - 1, d, sc, h, EvalExpr(t, sc, h, env).env, env1, x, env2);
    }
  }

  lemma {:induction false} AllPassed<E(!new)>(cases: CaseList, i: nat, d: Value, sc: Scope, h: Host<E>, env: E, env1: E)
    requires Passed(cases, CaseCount(cases), d, sc, h, env, env1)
    ensures SelectCase(cases, i, d, sc, h, env) == Chosen(None, env1)
    decreases cases
  {
    hide EvalExpr;
    if cases.CCons? {
      match cases.head.test
      case None => AllPassed(cases.tail, i + 1, d, sc, h, env, env1);
      case Some(t) => AllPassed(cases.tail, i + 1, d, sc, h, EvalExpr(t, sc, h, env).env, env1);
    }
  }

  lemma {:induction false} DefaultNowhere(cases: CaseList, i: nat)
    requires NoDefault(cases)
    ensures DefaultIndex(cases, i) == None
    decreases cases
  {
    if cases.CCons? {
      assert CaseAt(cases, 0) == cases.head;
      forall j: nat | j < CaseCount(cases.tail) ensures CaseAt(cases.tail, j).test.Some? {
        assert CaseAt(cases, j + 1) == CaseAt(cases.tail, j);
      }
      DefaultNowhere(cases.tail, i + 1);
    }
  }

  lemma {:induction false} DefaultAt(cases: CaseList, i: nat, k: nat)
    requires OnlyDefault(cases, k)
    ensures DefaultIndex(cases, i) == Some(i + k)
    decreases cases
  {
    assert CaseAt(cases, 0) == cases.head;
    forall j: nat | j < CaseCount(cases.tail) ensures CaseAt(cases.tail, j).test.None? <==> j + 1 == k {
      assert CaseAt(cases, j + 1) == CaseAt(cases.tail, j);
    }
    if k == 0 {
      DefaultNowhere(cases.tail, i + 1);
    } else {
      DefaultAt(cases.tail, i + 1, k - 1);
    }
  }

  lemma {:induction false} NothingAfter(cases: CaseList)
    ensures BodiesFrom(cases, CaseCount(cases)) == SNil
    decreases cases
  {
    if cases.CCons? {
      NothingAfter(cases.tail);
    }
  }

  // ----- optional chains -----

  /** Whatever follows a short circuit in the chain is skipped: the chain is
      undefined and its later keys and properties are not looked at. */
  lemma {:induction false} WholeChainShort<E>(root: Expr, members: seq<Access>, i: nat, sc: Scope, h: Host<E>, env: E,
                                              env1: E)
    requires i <= |members| && EvalChain(Chain(root, members[..i]), sc, h, env) == Short(env1)
    ensures EvalChain(Chain(root, members), sc, h, env) == Short(env1)
    ensures ChainValue(EvalChain(Chain(root, members), sc, h, env)) == Ok(Undefined, env1)
    decreases |members| - i
  {
    hide EvalExpr, EvalProperty;
    if i == |members| {
      assert members[..i] == members;
    } else {
      assert members[..i + 1][..i] == members[..i];
      WholeChainShort(root, members, i + 1, sc, h, env, env1);
    }
  }

  /** An optional access to a nullish base short-circuits. */
  lemma NullishShort<E>(root: Expr, members: seq<Access>, sc: Scope, h: Host<E>, env: E, v: Value, env1: E)
    requires members != [] && members[0].optional && !root.Member?
    requires EvalExpr(root, sc, h, env) == Ok(v, env1)
    ensures Nullish(v) ==> EvalChain(Chain(root, members), sc, h, env) == Short(env1)
  {
    hide EvalExpr, EvalProperty;
    assert members[..1][..0] == [];
    assert Chain(root, members[..1]) == Member(root, members[0].prop, true);
    if Nullish(v) {
      assert EvalChain(root, sc, h, env) == Through(EvalExpr(root, sc, h, env));
      WholeChainShort(root, members, 1, sc, h, env, env1);
    }
  }

  // ----- operators -----

  /** The values that count as false, ECMA-262, section 7.1.2. */
  predicate CountsAsFalse(v: Value) {
    || v == Undefined || v == Null || v == Boolean(false) || v == Integer(0) || v == Str("") || v == BigInt("0")
    || v == Float(0) || v == Float(0x8000_0000_0000_0000)
    || (v.Float? && (0x7FF0_0000_0000_0000 < v.bits < 0x8000_0000_0000_0000 || 0xFFF0_0000_0000_0000 < v.bits))
  }

  /** Floats are 64 bits. */
  predicate Wide(v: Value) {
    v.Float? ==> v.bits < 0x1_0000_0000_0000_0000
  }

  /** A test decides by the value it has. */
  lemma TestDecides<E>(test: Expr, a: Expr, b: Expr, sc: Scope, h: Host<E>, env: E, v: Value, env1: E)
    requires EvalExpr(test, sc, h, env) == Ok(v, env1) && Wide(v)
    ensures EvalExpr(Conditional(test, a, b), sc, h, env) == EvalExpr(if CountsAsFalse(v) then b else a, sc, h, env1)
    ensures EvalExpr(Unary(Not, test), sc, h, env) == Ok(Boolean(CountsAsFalse(v)), env1)
    ensures EvalExpr(LogicalExpr(And, test, a), sc, h, env)
            == if CountsAsFalse(v) then Ok(v, env1) else EvalExpr(a, sc, h, env1)
    ensures EvalExpr(LogicalExpr(Or, test, a), sc, h, env)
            == if CountsAsFalse(v) then EvalExpr(a, sc, h, env1) else Ok(v, env1)
    ensures EvalExpr(LogicalExpr(NullishCoal, test, a), sc, h, env)
            == if v == Undefined || v == Null then EvalExpr(a, sc, h, env1) else Ok(v, env1)
  {
    hide EvalTarget, EvalChain, EvalUpdate, EvalNumericUpdate;
    FalseValue(v);
    assert !TypeofName(Unary(Not, test), sc, h);
  }

  lemma FalseValue(v: Value)
    requires Wide(v)
    ensures Truthy(v) <==> !CountsAsFalse(v)
  {
  }

  /** `if` runs the branch that its test decides for. */
  lemma IfDecides<E>(test: Expr, a: Stmt, b: Option<Stmt>, labels: seq<string>, sc: Scope, h: Host<E>, env: E, v: Value,
                     env1: E, fuel: nat)
    requires EvalExpr(test, sc, h, env) == Ok(v, env1) && Wide(v)
    ensures Exec(If(test, a, b), labels, sc, h, env, fuel)
            == if !CountsAsFalse(v) then Exec(a, [], sc, h, env1, fuel)
               else if b.Some? then Exec(b.value, [], sc, h, env1, fuel) else Done(Normal, env1)
  {
    hide EvalExpr;
    FalseValue(v);
  }

  /** `!=` is the negation of `==`, and `!==` of `===`. */
  lemma NotEqualNegates<E>(l: Expr, r: Expr, sc: Scope, h: Host<E>, env: E)
    ensures EvalExpr(Binary(NotEq, l, r), sc, h, env) == EvalExpr(Unary(Not, Binary(Eq, l, r)), sc, h, env)
    ensures EvalExpr(Binary(StrictNotEq, l, r), sc, h, env) == EvalExpr(Unary(Not, Binary(StrictEq, l, r)), sc, h, env)
  {
    NotOf(Binary(Eq, l, r), sc, h, env);
    NotOf(Binary(StrictEq, l, r), sc, h, env);
    OperandsOf(NotEq, Eq, l, r, sc, h, env);
    OperandsOf(StrictNotEq, StrictEq, l, r, sc, h, env);
  }

  lemma NotOf<E>(arg: Expr, sc: Scope, h: Host<E>, env: E)
    ensures EvalExpr(Unary(Not, arg), sc, h, env) == Negate(EvalExpr(arg, sc, h, env))
  {
    assert !TypeofName(Unary(Not, arg), sc, h);
    assert EvalExpr(Unary(Not, arg), sc, h, env) == EvalUnary(Unary(Not, arg), sc, h, env);
  }

  lemma OperandsOf<E>(op: BinOp, positive: BinOp, l: Expr, r: Expr, sc: Scope, h: Host<E>, env: E)
    requires (op == NotEq && positive == Eq) || (op == StrictNotEq && positive == StrictEq)
    ensures EvalExpr(Binary(op, l, r), sc, h, env) == Negate(EvalExpr(Binary(positive, l, r), sc, h, env))
  {
    assert EvalExpr(Binary(op, l, r), sc, h, env) == EvalOperands(Binary(op, l, r), sc, h, env);
    assert EvalExpr(Binary(positive, l, r), sc, h, env) == EvalOperands(Binary(positive, l, r), sc, h, env);
  }

  /** `typeof` asks for the type of a name that nothing declares, without loading
      it; of anything else that is no name it takes the value. */
  lemma TypeofAsks<E>(name: string, sc: Scope, h: Host<E>, env: E)
    requires name !in sc.locals && name !in sc.upvalues && name != "undefined"
    ensures EvalExpr(Unary(Typeof, Ident(name)), sc, h, env) == h.typeofGlobal(name, env)
  {
  }

  lemma TypeofTakes<E>(arg: Expr, sc: Scope, h: Host<E>, env: E, v: Value, env1: E)
    requires arg.Ident? ==> arg.name in sc.locals || arg.name in sc.upvalues || arg.name == "undefined"
    requires !arg.Paren? && EvalExpr(arg, sc, h, env) == Ok(v, env1)
    ensures EvalExpr(Unary(Typeof, arg), sc, h, env) == h.unary(Typeof, v, env1)
  {
  }

  /** `x++` adds one and `x--` subtracts it; the prefix forms yield the new value. */
  lemma CountsByOne<E>(op: UpdateOp, prefix: bool, name: string, sc: Scope, h: Host<E>, env: E, v: Value, w: Value,
                       env1: E, env2: E, env3: E)
    requires h.order.Emitted? && name != "undefined" && h.load(Resolve(sc, name), env) == Ok(v, env1)
    requires h.binary(if op == Inc then Add else Sub, v, Integer(1), env1) == Ok(w, env2)
    requires h.store(Resolve(sc, name), w, env2).Ok? && h.store(Resolve(sc, name), w, env2).env == env3
    ensures EvalExpr(Update(op, prefix, IdentTarget(name)), sc, h, env) == Ok(if prefix then w else v, env3)
  {
    var e := Update(op, prefix, IdentTarget(name));
    assert EvalBinary(UpdateBinOp(op), v, Integer(1), h, env1) == Ok(w, env2);
    assert EvalTarget(e.target, sc, h, env) == RefOk(NameRef(name), env);
    assert LoadRef(NameRef(name), sc, h, env) == Ok(v, env1);
    var y := if prefix then w else v;
    assert StoreAndYield(NameRef(name), w, y, sc, h, env2) == Ok(y, env3);
    assert EvalUpdate(e, sc, h, env) == Ok(y, env3);
    assert EvalExpr(e, sc, h, env) == EvalUpdate(e, sc, h, env);
  }
}
