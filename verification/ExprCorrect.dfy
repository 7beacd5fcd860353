/** Compiled expressions compute the source value: they push exactly one value
    on any stack, make the same host calls in the same order, and leave the
    temporaries that existed before them untouched. */
module ExprCorrect {
  import opened Syntax
  import opened Machine
  import opened Semantics
  import opened CodeGen
  import opened Execution
  import opened Lengths

  // ----- tables only grow, and temporaries stay fresh -----

  /** The table `b` that a fragment leaves behind when it starts from `a`. */
  ghost predicate Later(a: Tables, b: Tables, user: nat) {
    Wf(b, user) && Grows(a, b)
  }

  lemma InternLocalKeeps(name: LocalName, T: Tables, user: nat)
    requires Wf(T, user)
    requires match name
             case RefObject(n) => n == T.count
             case RefKey(n) => n == T.count
             case User(_) => false
             case SwitchDisc => true
    ensures var r := InternLocal(name, T);
            Later(T, r.tabs, user) && user <= r.index < r.tabs.count
            && (name != SwitchDisc ==> r.index == T.count)
  {
  }

  lemma InternConstKeeps(v: Value, T: Tables, user: nat)
    requires Wf(T, user)
    ensures Later(T, InternConst(v, T).tabs, user)
  {
  }

  lemma LaterTrans(a: Tables, b: Tables, c: Tables, user: nat)
    requires Later(a, b, user) && Later(b, c, user)
    ensures Later(a, c, user)
  {
  }

  lemma LoadPreparedKeeps(p: Prepared, T: Tables, sc: Scope, user: nat)
    requires Wf(T, user)
    ensures Later(T, GenLoadPrepared(p, T, sc).tabs, user)
  {
  }

  lemma PutPreparedKeeps(p: Prepared, T: Tables, sc: Scope, user: nat)
    requires Wf(T, user)
    ensures Later(T, GenPutPrepared(p, T, sc).tabs, user)
  {
  }

  lemma {:induction false} ExprTables(e: Expr, base: nat, T: Tables, sc: Scope, user: nat)
    requires Wf(T, user)
    ensures Later(T, GenExpr(e, base, T, sc).tabs, user)
    decreases e, 4
  {
    hide GenUnary, GenBinary, GenLogical, GenConditional, GenSequence, GenUpdate, GenMember, GenAssignName;
    hide GenAssignMember;
    hide GenCompound, GenLogicalAssign, GenChain, LenChain;
    match e
    case Lit(_) =>
    case Ident(_) =>
    case Paren(inner) => ExprTables(inner, base, T, sc, user);
    case Unary(_, _) => UnaryTables(e, base, T, sc, user);
    case Binary(_, _, _) => BinaryTables(e, base, T, sc, user);
    case LogicalExpr(_, _, _) => LogicalTables(e, base, T, sc, user);
    case Conditional(_, _, _) => ConditionalTables(e, base, T, sc, user);
    case Sequence(es) => SequenceTables(es, base, T, sc, user);
    case AssignExpr(_, _, _) =>
      match e.asgop {
        case Assign =>
          if e.target.IdentTarget? {
            AssignNameTables(e, base, T, sc, user);
          } else {
            AssignMemberTables(e, base, T, sc, user);
          }
        case Compound(_) => CompoundTables(e, base, T, sc, user);
        case Logical(_) => LogicalAssignTables(e, base, T, sc, user);
      }
    case Update(_, _, _) => UpdateTables(e, base, T, sc, user);
    case Member(_, _, _) =>
      if HasOptional(e) {
        ChainTables(e, base, base + LenChain(e, sc) + 1, T, sc, user);
      } else {
        MemberTables(e, base, T, sc, user);
      }
  }

  lemma {:induction false} UnaryTables(e: Expr, base: nat, T: Tables, sc: Scope, user: nat)
    requires Wf(T, user) && e.Unary?
    ensures Later(T, GenUnary(e, base, T, sc).tabs, user)
    decreases e, 0
  {
    ExprTables(e.arg, base, T, sc, user);
  }

  lemma {:induction false} BinaryTables(e: Expr, base: nat, T: Tables, sc: Scope, user: nat)
    requires Wf(T, user) && e.Binary?
    ensures Later(T, GenBinary(e, base, T, sc).tabs, user)
    decreases e, 0
  {
    hide GenExpr, Wf;
    var l := GenExpr(e.left, base, T, sc);
    ExprTables(e.left, base, T, sc, user);
    ExprTables(e.right, base + |l.code|, l.tabs, sc, user);
  }

  lemma {:induction false} LogicalTables(e: Expr, base: nat, T: Tables, sc: Scope, user: nat)
    requires Wf(T, user) && e.LogicalExpr?
    ensures Later(T, GenLogical(e, base, T, sc).tabs, user)
    decreases e, 0
  {
    hide GenExpr, Wf;
    var l := GenExpr(e.left, base, T, sc);
    ExprTables(e.left, base, T, sc, user);
    ExprTables(e.right, base + |l.code| + ShortCircuitSize(e.logop), l.tabs, sc, user);
  }

  lemma {:induction false} ConditionalTables(e: Expr, base: nat, T: Tables, sc: Scope, user: nat)
    requires Wf(T, user) && e.Conditional?
    ensures Later(T, GenConditional(e, base, T, sc).tabs, user)
    decreases e, 0
  {
    hide GenExpr, Wf;
    var t := GenExpr(e.test, base, T, sc);
    ExprTables(e.test, base, T, sc, user);
    var c := GenExpr(e.cons, base + |t.code| + 1, t.tabs, sc);
    ExprTables(e.cons, base + |t.code| + 1, t.tabs, sc, user);
    ExprTables(e.alt, base + |t.code| + 1 + |c.code| + 1, c.tabs, sc, user);
  }

  lemma {:induction false} MemberTables(e: Expr, base: nat, T: Tables, sc: Scope, user: nat)
    requires Wf(T, user) && e.Member?
    ensures Later(T, GenMember(e, base, T, sc).tabs, user)
    decreases e, 0
  {
    hide GenExpr, GenProperty, Wf;
    var o := GenExpr(e.obj, base, T, sc);
    ExprTables(e.obj, base, T, sc, user);
    PropertyTables(e.prop, base + |o.code|, o.tabs, sc, user);
  }

  lemma {:induction false} AssignMemberTables(e: Expr, base: nat, T: Tables, sc: Scope, user: nat)
    requires Wf(T, user) && e.AssignExpr? && e.target.MemberTarget?
    ensures Later(T, GenAssignMember(e, base, T, sc).tabs, user)
    decreases e, 0
  {
    hide GenExpr, GenProperty, Wf;
    var r := GenExpr(e.right, base, T, sc);
    ExprTables(e.right, base, T, sc, user);
    var pc := base + |r.code| + 1;
    var o := GenExpr(e.target.obj, pc, r.tabs, sc);
    ExprTables(e.target.obj, pc, r.tabs, sc, user);
    PropertyTables(e.target.prop, pc + |o.code|, o.tabs, sc, user);
  }

  lemma {:induction false} AssignNameTables(e: Expr, base: nat, T: Tables, sc: Scope, user: nat)
    requires Wf(T, user) && e.AssignExpr? && e.target.IdentTarget?
    ensures Later(T, GenAssignName(e, base, T, sc).tabs, user)
    decreases e, 0
  {
    ExprTables(e.right, base, T, sc, user);
  }

  lemma {:induction false} UpdateTables(e: Expr, base: nat, T: Tables, sc: Scope, user: nat)
    requires Wf(T, user) && e.Update?
    ensures Later(T, GenUpdate(e, base, T, sc).tabs, user)
    decreases e, 0
  {
    hide GenPrepare, Wf, Grows;
    var one := InternConst(Integer(1), T);
    InternConstKeeps(Integer(1), T, user);
    PrepareTables(e.target, base, one.tabs, sc, user);
    var p := GenPrepare(e.target, base, one.tabs, sc);
    LoadPreparedKeeps(p.prepared, p.tabs, sc, user);
    var l := GenLoadPrepared(p.prepared, p.tabs, sc);
    PutPreparedKeeps(p.prepared, l.tabs, sc, user);
    LaterTrans(T, one.tabs, p.tabs, user);
    LaterTrans(T, p.tabs, l.tabs, user);
    LaterTrans(T, l.tabs, GenUpdate(e, base, T, sc).tabs, user);
  }

  lemma {:induction false} CompoundTables(e: Expr, base: nat, T: Tables, sc: Scope, user: nat)
    requires Wf(T, user) && e.AssignExpr? && e.asgop.Compound?
    ensures Later(T, GenCompound(e, base, T, sc).tabs, user)
    decreases e, 0
  {
    hide GenPrepare, GenExpr, Wf, Grows;
    PrepareTables(e.target, base, T, sc, user);
    var p := GenPrepare(e.target, base, T, sc);
    LoadPreparedKeeps(p.prepared, p.tabs, sc, user);
    var l := GenLoadPrepared(p.prepared, p.tabs, sc);
    var pr := base + |p.code| + |l.code|;
    ExprTables(e.right, pr, l.tabs, sc, user);
    var r := GenExpr(e.right, pr, l.tabs, sc);
    PutPreparedKeeps(p.prepared, r.tabs, sc, user);
    LaterTrans(T, p.tabs, l.tabs, user);
    LaterTrans(T, l.tabs, r.tabs, user);
    LaterTrans(T, r.tabs, GenCompound(e, base, T, sc).tabs, user);
  }

  lemma {:induction false} LogicalAssignTables(e: Expr, base: nat, T: Tables, sc: Scope, user: nat)
    requires Wf(T, user) && e.AssignExpr? && e.asgop.Logical?
    ensures Later(T, GenLogicalAssign(e, base, T, sc).tabs, user)
    decreases e, 0
  {
    hide GenPrepare, GenExpr, Wf, Grows;
    PrepareTables(e.target, base, T, sc, user);
    var p := GenPrepare(e.target, base, T, sc);
    LoadPreparedKeeps(p.prepared, p.tabs, sc, user);
    var l := GenLoadPrepared(p.prepared, p.tabs, sc);
    var pr := base + |p.code| + |l.code| + ShortCircuitSize(e.asgop.logical);
    ExprTables(e.right, pr, l.tabs, sc, user);
    var r := GenExpr(e.right, pr, l.tabs, sc);
    PutPreparedKeeps(p.prepared, r.tabs, sc, user);
    LaterTrans(T, p.tabs, l.tabs, user);
    LaterTrans(T, l.tabs, r.tabs, user);
    LaterTrans(T, r.tabs, GenLogicalAssign(e, base, T, sc).tabs, user);
  }

  lemma {:induction false} SequenceTables(es: ExprList, base: nat, T: Tables, sc: Scope, user: nat)
    requires Wf(T, user)
    ensures Later(T, GenSequence(es, base, T, sc).tabs, user)
    decreases es, 0
  {
    hide GenExpr, Wf;
    match es
    case ENil =>
    case ECons(e, tail) =>
      ExprTables(e, base, T, sc, user);
      if !tail.ENil? {
        var h := GenExpr(e, base, T, sc);
        SequenceTables(tail, base + |h.code| + 1, h.tabs, sc, user);
      }
  }

  lemma {:induction false} PropertyTables(p: Property, base: nat, T: Tables, sc: Scope, user: nat)
    requires Wf(T, user)
    ensures Later(T, GenProperty(p, base, T, sc).tabs, user)
    decreases p, 0
  {
    match p
    case Named(_) =>
    case Computed(key) => ExprTables(key, base, T, sc, user);
  }

  lemma {:induction false} PrepareTables(t: Target, base: nat, T: Tables, sc: Scope, user: nat)
    requires Wf(T, user)
    ensures Later(T, GenPrepare(t, base, T, sc).tabs, user)
    decreases t, 0
  {
    if t.MemberTarget? {
      var so := InternLocal(RefObject(T.count), T);
      InternLocalKeeps(RefObject(T.count), T, user);
      var o := GenExpr(t.obj, base, so.tabs, sc);
      ExprTables(t.obj, base, so.tabs, sc, user);
      var sk := InternLocal(RefKey(o.tabs.count), o.tabs);
      InternLocalKeeps(RefKey(o.tabs.count), o.tabs, user);
      PropertyTables(t.prop, base + |o.code| + 1, sk.tabs, sc, user);
    }
  }

  lemma {:induction false} ChainTables(e: Expr, base: nat, nullish: nat, T: Tables, sc: Scope, user: nat)
    requires Wf(T, user)
    ensures Later(T, GenChain(e, base, nullish, T, sc).tabs, user)
    decreases e, if e.Member? then 0 else 5
  {
    match e
    case Member(obj, prop, optional) =>
      var o := GenChain(obj, base, nullish, T, sc);
      ChainTables(obj, base, nullish, T, sc, user);
      PropertyTables(prop, base + |o.code| + |NullishTest(optional, nullish)|, o.tabs, sc, user);
    case _ => ExprTables(e, base, T, sc, user);
  }

  // ----- running compiled expressions -----

  /** The code of a fragment is in place and its constants are in the pool. */
  ghost predicate Placed<E>(x: Ctx<E>, g: Code, base: nat, T: Tables) {
    && Sound(x) && Wf(T, x.f.userSlots)
    && At(x.f.code, base, g.code) && g.tabs.consts <= x.f.consts
  }

  lemma {:induction false} ExprRuns<E>(e: Expr, base: nat, T: Tables, x: Ctx<E>, a: State<E>, s: seq<Value>,
                           t: Temps, env: E)
    returns (t': Temps)
    requires Placed(x, GenExpr(e, base, T, x.sc), base, T)
    requires Goes(x, a, Running(Config(base, s, t, env)))
    ensures Agree(t, t', T.count)
    ensures Goes(x, a, Push(EvalExpr(e, x.sc, x.h, env), base + |GenExpr(e, base, T, x.sc).code|, s, t'))
    decreases e, 4
  {
    hide At, Wf, Agree, Goes, Sound;
    hide GenUnary, GenBinary, GenLogical, GenConditional, GenSequence, GenUpdate, GenMember, GenOptional;
    hide EvalUnary, EvalOperands, EvalLogical, EvalConditional, EvalSequence, EvalUpdate, EvalNumericUpdate, EvalChain;
    AgreeSelf(t, T.count);
    EmittedOrder(x);
    match e
    case Lit(_) => LitRuns(e, base, T, x, a, s, t, env); t' := t;
    case Ident(name) => ExecLoad(x, a, base, s, t, env, name, T); t' := t;
    case Paren(inner) => t' := ExprRuns(inner, base, T, x, a, s, t, env);
    case Unary(_, _) => t' := UnaryRuns(e, base, T, x, a, s, t, env);
    case Binary(_, _, _) => t' := BinaryRuns(e, base, T, x, a, s, t, env);
    case LogicalExpr(_, _, _) => t' := LogicalRuns(e, base, T, x, a, s, t, env);
    case Conditional(_, _, _) => t' := ConditionalRuns(e, base, T, x, a, s, t, env);
    case Sequence(es) => t' := SequenceRuns(es, base, T, x, a, s, t, env);
    case AssignExpr(_, _, _) => t' := AssignRuns(e, base, T, x, a, s, t, env);
    case Update(_, _, _) => t' := UpdateRuns(e, base, T, x, a, s, t, env);
    case Member(_, _, _) =>
      if HasOptional(e) {
        t' := OptionalRuns(e, base, T, x, a, s, t, env);
      } else {
        t' := MemberRuns(e, base, T, x, a, s, t, env);
      }
  }

  lemma {:induction false} AssignRuns<E>(e: Expr, base: nat, T: Tables, x: Ctx<E>, a: State<E>, s: seq<Value>,
                                         t: Temps, env: E)
    returns (t': Temps)
    requires e.AssignExpr? && Placed(x, GenExpr(e, base, T, x.sc), base, T)
    requires Goes(x, a, Running(Config(base, s, t, env)))
    ensures Agree(t, t', T.count)
    ensures Goes(x, a, Push(EvalExpr(e, x.sc, x.h, env), base + |GenExpr(e, base, T, x.sc).code|, s, t'))
    decreases e, 3
  {
    hide At, Wf, Agree, Goes, Sound;
    hide GenAssignName, GenAssignMember, GenCompound, GenLogicalAssign, EvalPlainAssign, EvalTargetFirst;
    hide EvalCombinedAssign;
    EmittedOrder(x);
    match e.asgop
    case Assign =>
      if e.target.IdentTarget? {
        t' := AssignNameRuns(e, base, T, x, a, s, t, env);
      } else {
        t' := AssignMemberRuns(e, base, T, x, a, s, t, env);
      }
    case Compound(_) => t' := CompoundRuns(e, base, T, x, a, s, t, env);
    case Logical(_) => t' := LogicalAssignRuns(e, base, T, x, a, s, t, env);
  }

  lemma LitRuns<E>(e: Expr, base: nat, T: Tables, x: Ctx<E>, a: State<E>, s: seq<Value>, t: Temps, env: E)
    requires e.Lit? && Placed(x, GenExpr(e, base, T, x.sc), base, T)
    requires Goes(x, a, Running(Config(base, s, t, env)))
    ensures Goes(x, a, Running(Config(base + 1, s + [LitValue(e.literal)], t, env)))
  {
    var ins := LoadLit(e.literal, T).code[0];
    assert LoadLit(e.literal, T).code == [ins];
    ExecPush(x, a, base, s, t, env, ins, LitValue(e.literal));
  }

  lemma {:induction false} UnaryRuns<E>(e: Expr, base: nat, T: Tables, x: Ctx<E>, a: State<E>, s: seq<Value>,
                           t: Temps, env: E)
    returns (t': Temps)
    requires e.Unary? && Placed(x, GenUnary(e, base, T, x.sc), base, T)
    requires Goes(x, a, Running(Config(base, s, t, env)))
    ensures Agree(t, t', T.count)
    ensures Goes(x, a, Push(EvalUnary(e, x.sc, x.h, env), base + |GenUnary(e, base, T, x.sc).code|, s, t'))
    decreases e, 0
  {
    hide GenExpr, EvalExpr, At, Wf, Goes, Sound;
    if e.unop == Typeof && IsGlobalName(e.arg, x.sc) {
      var r := InternConst(Str(e.arg.name), T);
      ExecTypeofGlobal(x, a, base, s, t, env, e.arg.name, r.index);
      t' := t;
    } else {
      var g := GenExpr(e.arg, base, T, x.sc);
      AtSplit(x.f.code, base, g.code, [Bare(UnaryOp(e.unop))]);
      t' := ExprRuns(e.arg, base, T, x, a, s, t, env);
      match EvalExpr(e.arg, x.sc, x.h, env) {
        case Ok(v, env1) => ExecUnary(x, a, base + |g.code|, s, v, t', env1, e.unop);
        case Thrown(_, _) =>
      }
    }
  }

  lemma {:induction false} BinaryRuns<E>(e: Expr, base: nat, T: Tables, x: Ctx<E>, a: State<E>, s: seq<Value>,
                           t: Temps, env: E)
    returns (t': Temps)
    requires e.Binary? && Placed(x, GenBinary(e, base, T, x.sc), base, T)
    requires Goes(x, a, Running(Config(base, s, t, env)))
    ensures Agree(t, t', T.count)
    ensures Goes(x, a, Push(EvalOperands(e, x.sc, x.h, env), base + |GenBinary(e, base, T, x.sc).code|, s, t'))
    decreases e, 0
  {
    hide GenExpr, EvalExpr, At, Wf, Agree, Goes, Sound;
    var l := GenExpr(e.left, base, T, x.sc);
    var mid := base + |l.code|;
    var r := GenExpr(e.right, mid, l.tabs, x.sc);
    AtSplit3(x.f.code, base, l.code, r.code, BinaryCode(e.binop));
    ExprTables(e.left, base, T, x.sc, x.f.userSlots);
    ExprTables(e.right, mid, l.tabs, x.sc, x.f.userSlots);
    t' := ExprRuns(e.left, base, T, x, a, s, t, env);
    match EvalExpr(e.left, x.sc, x.h, env)
    case Thrown(_, _) =>
    case Ok(v, env1) =>
      var t1 := t';
      t' := ExprRuns(e.right, mid, l.tabs, x, a, s + [v], t1, env1);
      AgreeTrans(t, t1, t', T.count, l.tabs.count);
      match EvalExpr(e.right, x.sc, x.h, env1)
      case Thrown(_, _) =>
      case Ok(w, env2) => ExecBinaryCode(x, a, mid + |r.code|, s, v, w, t', env2, e.binop);
  }

  /** The test of a logical operator keeps the left value only when it leaves. */
  lemma ShortCircuitRuns<E>(op: LogicalOp, pc: nat, end: nat, x: Ctx<E>, a: State<E>, s: seq<Value>, v: Value,
                            t: Temps, env: E)
    requires At(x.f.code, pc, ShortCircuit(op, pc + 3, end))
    requires Goes(x, a, Running(Config(pc, s + [v], t, env)))
    ensures Goes(x, a, if TakesRight(op, v) then Running(Config(pc + ShortCircuitSize(op), s, t, env))
                       else Running(Config(end, s + [v], t, env)))
  {
    if op == NullishCoal {
      NullishShortCircuitRuns(pc, end, x, a, s, v, t, env);
    } else {
      BooleanShortCircuitRuns(op, pc, end, x, a, s, v, t, env);
    }
  }

  lemma NullishShortCircuitRuns<E>(pc: nat, end: nat, x: Ctx<E>, a: State<E>, s: seq<Value>, v: Value, t: Temps, env: E)
    requires At(x.f.code, pc, ShortCircuit(NullishCoal, pc + 3, end))
    requires Goes(x, a, Running(Config(pc, s + [v], t, env)))
    ensures Goes(x, a, if TakesRight(NullishCoal, v) then Running(Config(pc + ShortCircuitSize(NullishCoal), s, t, env))
                       else Running(Config(end, s + [v], t, env)))
  {
    hide At, Goes;
    assert ShortCircuit(NullishCoal, pc + 3, end)
        == [Bare(Dup)] + [Instr(JumpIfNullish, pc + 3)] + [Instr(Jump, end)] + [Bare(Pop)];
    AtSplit4(x.f.code, pc, [Bare(Dup)], [Instr(JumpIfNullish, pc + 3)], [Instr(Jump, end)], [Bare(Pop)]);
    ExecDup(x, a, pc, s, v, t, env);
    ExecBranch(x, a, pc + 1, s + [v], v, t, env, Instr(JumpIfNullish, pc + 3));
    if Nullish(v) {
      ExecPop(x, a, pc + 3, s, v, t, env);
    } else {
      ExecJump(x, a, pc + 2, s + [v], t, env, end);
    }
  }

  lemma BooleanShortCircuitRuns<E>(op: LogicalOp, pc: nat, end: nat, x: Ctx<E>, a: State<E>, s: seq<Value>, v: Value,
                                   t: Temps, env: E)
    requires op != NullishCoal && At(x.f.code, pc, ShortCircuit(op, pc + 3, end))
    requires Goes(x, a, Running(Config(pc, s + [v], t, env)))
    ensures Goes(x, a, if TakesRight(op, v) then Running(Config(pc + ShortCircuitSize(op), s, t, env))
                       else Running(Config(end, s + [v], t, env)))
  {
    hide At, Goes;
    var branch := Instr(if op == And then JumpIfFalse else JumpIfTrue, end);
    assert ShortCircuit(op, pc + 3, end) == [Bare(Dup)] + [branch] + [Bare(Pop)];
    AtSplit3(x.f.code, pc, [Bare(Dup)], [branch], [Bare(Pop)]);
    ExecDup(x, a, pc, s, v, t, env);
    ExecBranch(x, a, pc + 1, s + [v], v, t, env, branch);
    if TakesRight(op, v) {
      ExecPop(x, a, pc + 2, s, v, t, env);
    }
  }

  lemma {:induction false} LogicalRuns<E>(e: Expr, base: nat, T: Tables, x: Ctx<E>, a: State<E>, s: seq<Value>,
                           t: Temps, env: E)
    returns (t': Temps)
    requires e.LogicalExpr? && Placed(x, GenLogical(e, base, T, x.sc), base, T)
    requires Goes(x, a, Running(Config(base, s, t, env)))
    ensures Agree(t, t', T.count)
    ensures Goes(x, a, Push(EvalLogical(e, x.sc, x.h, env), base + |GenLogical(e, base, T, x.sc).code|, s, t'))
    decreases e, 0
  {
    hide GenExpr, EvalExpr, At, Wf, Agree, Goes, Sound;
    var l := GenExpr(e.left, base, T, x.sc);
    var mid := base + |l.code|;
    var start := mid + ShortCircuitSize(e.logop);
    var r := GenExpr(e.right, start, l.tabs, x.sc);
    var end := start + |r.code|;
    AtSplit3(x.f.code, base, l.code, ShortCircuit(e.logop, mid + 3, end), r.code);
    ExprTables(e.left, base, T, x.sc, x.f.userSlots);
    ExprTables(e.right, start, l.tabs, x.sc, x.f.userSlots);
    t' := ExprRuns(e.left, base, T, x, a, s, t, env);
    match EvalExpr(e.left, x.sc, x.h, env)
    case Thrown(_, _) =>
    case Ok(v, env1) =>
      ShortCircuitRuns(e.logop, mid, end, x, a, s, v, t', env1);
      if TakesRight(e.logop, v) {
        var t1 := t';
        t' := ExprRuns(e.right, start, l.tabs, x, a, s, t1, env1);
        AgreeTrans(t, t1, t', T.count, l.tabs.count);
      }
  }

  lemma {:induction false} ConditionalRuns<E>(e: Expr, base: nat, T: Tables, x: Ctx<E>, a: State<E>, s: seq<Value>,
                           t: Temps, env: E)
    returns (t': Temps)
    requires e.Conditional? && Placed(x, GenConditional(e, base, T, x.sc), base, T)
    requires Goes(x, a, Running(Config(base, s, t, env)))
    ensures Agree(t, t', T.count)
    ensures Goes(x, a, Push(EvalConditional(e, x.sc, x.h, env), base + |GenConditional(e, base, T, x.sc).code|, s, t'))
    decreases e, 0
  {
    hide GenExpr, EvalExpr, At, Wf, Agree, Goes, Sound;
    var g := GenExpr(e.test, base, T, x.sc);
    var pc := base + |g.code|;
    var c := GenExpr(e.cons, pc + 1, g.tabs, x.sc);
    var mid := pc + 1 + |c.code| + 1;
    var d := GenExpr(e.alt, mid, c.tabs, x.sc);
    AtSplit5(x.f.code, base, g.code, [Instr(JumpIfFalse, mid)], c.code, [Instr(Jump, mid + |d.code|)], d.code);
    ExprTables(e.test, base, T, x.sc, x.f.userSlots);
    ExprTables(e.cons, pc + 1, g.tabs, x.sc, x.f.userSlots);
    ExprTables(e.alt, mid, c.tabs, x.sc, x.f.userSlots);
    t' := ExprRuns(e.test, base, T, x, a, s, t, env);
    match EvalExpr(e.test, x.sc, x.h, env)
    case Thrown(_, _) =>
    case Ok(v, env1) =>
      var t1 := t';
      ExecBranch(x, a, pc, s, v, t1, env1, Instr(JumpIfFalse, mid));
      if Truthy(v) {
        t' := ExprRuns(e.cons, pc + 1, g.tabs, x, a, s, t1, env1);
        match EvalExpr(e.cons, x.sc, x.h, env1) {
          case Ok(w, env2) => ExecJump(x, a, mid - 1, s + [w], t', env2, mid + |d.code|);
          case Thrown(_, _) =>
        }
      } else {
        t' := ExprRuns(e.alt, mid, c.tabs, x, a, s, t1, env1);
        AgreeLess(t1, t', c.tabs.count, g.tabs.count);
      }
      AgreeTrans(t, t1, t', T.count, g.tabs.count);
  }

  lemma {:induction false} SequenceRuns<E>(es: ExprList, base: nat, T: Tables, x: Ctx<E>, a: State<E>,
                                           s: seq<Value>, t: Temps, env: E)
    returns (t': Temps)
    requires Placed(x, GenSequence(es, base, T, x.sc), base, T)
    requires Goes(x, a, Running(Config(base, s, t, env)))
    ensures Agree(t, t', T.count)
    ensures Goes(x, a, Push(EvalSequence(es, x.sc, x.h, env), base + |GenSequence(es, base, T, x.sc).code|, s, t'))
    decreases es, 0
  {
    hide GenExpr, EvalExpr, At, Wf, Goes, Sound;
    match es
    case ENil =>
      ExecPush(x, a, base, s, t, env, Bare(LdaUndefined), Undefined);
      t' := t;
    case ECons(e, tail) =>
      if tail.ENil? {
        t' := ExprRuns(e, base, T, x, a, s, t, env);
      } else {
        var g := GenExpr(e, base, T, x.sc);
        var pc := base + |g.code|;
        var rest := GenSequence(tail, pc + 1, g.tabs, x.sc);
        AtSplit3(x.f.code, base, g.code, [Bare(Pop)], rest.code);
        ExprTables(e, base, T, x.sc, x.f.userSlots);
        SequenceTables(tail, pc + 1, g.tabs, x.sc, x.f.userSlots);
        t' := ExprRuns(e, base, T, x, a, s, t, env);
        match EvalExpr(e, x.sc, x.h, env) {
          case Thrown(_, _) =>
          case Ok(v, env1) =>
            var t1 := t';
            ExecPop(x, a, pc, s, v, t1, env1);
            t' := SequenceRuns(tail, pc + 1, g.tabs, x, a, s, t1, env1);
            AgreeTrans(t, t1, t', T.count, g.tabs.count);
        }
      }
  }

  lemma {:induction false} PropertyRuns<E>(p: Property, base: nat, T: Tables, x: Ctx<E>, a: State<E>,
                                           s: seq<Value>, t: Temps, env: E)
    returns (t': Temps)
    requires Placed(x, GenProperty(p, base, T, x.sc), base, T)
    requires Goes(x, a, Running(Config(base, s, t, env)))
    ensures Agree(t, t', T.count)
    ensures Goes(x, a, Push(EvalProperty(p, x.sc, x.h, env), base + |GenProperty(p, base, T, x.sc).code|, s, t'))
    decreases p, 0
  {
    match p
    case Named(name) =>
      ExecPush(x, a, base, s, t, env, LoadConst(Str(name), T).code[0], Str(name));
      t' := t;
    case Computed(key) => t' := ExprRuns(key, base, T, x, a, s, t, env);
  }

  // ----- prepared references -----

  /** The temporaries of `p` hold the reference `r`. */
  ghost predicate Holds(user: nat, p: Prepared, r: Ref, t: Temps, n: nat) {
    match p
    case PreparedName(name) => r == NameRef(name)
    case PreparedSlots(o, k) =>
      && user <= o < n && user <= k < n
      && r == PropRef(ReadTemp(t, o), ReadTemp(t, k))
  }

  lemma HoldsKept(user: nat, p: Prepared, r: Ref, t: Temps, t': Temps, n: nat, m: nat)
    requires Holds(user, p, r, t, n) && Agree(t, t', m) && n <= m
    ensures Holds(user, p, r, t', n)
  {
  }

  lemma LoadPreparedRuns<E>(p: Prepared, r: Ref, pc: nat, T: Tables, x: Ctx<E>, a: State<E>, s: seq<Value>,
                            t: Temps, env: E, n: nat)
    requires Placed(x, GenLoadPrepared(p, T, x.sc), pc, T) && Holds(x.f.userSlots, p, r, t, n)
    requires Goes(x, a, Running(Config(pc, s, t, env)))
    ensures Goes(x, a, Push(LoadRef(r, x.sc, x.h, env), pc + |GenLoadPrepared(p, T, x.sc).code|, s, t))
  {
    match p
    case PreparedName(name) => ExecLoad(x, a, pc, s, t, env, name, T);
    case PreparedSlots(o, k) =>
      AtSplit3(x.f.code, pc, [Instr(LdaLocal, o)], [Instr(LdaLocal, k)], [Bare(GetProp)]);
      ExecPush(x, a, pc, s, t, env, Instr(LdaLocal, o), r.obj);
      ExecPush(x, a, pc + 1, s + [r.obj], t, env, Instr(LdaLocal, k), r.key);
      ExecGetProp(x, a, pc + 2, s, r.obj, r.key, t, env);
  }

  lemma PutPreparedRuns<E>(p: Prepared, r: Ref, pc: nat, T: Tables, x: Ctx<E>, a: State<E>, s: seq<Value>,
                           v: Value, t: Temps, env: E, n: nat)
    requires Placed(x, GenPutPrepared(p, T, x.sc), pc, T) && Holds(x.f.userSlots, p, r, t, n)
    requires Goes(x, a, Running(Config(pc, s + [v], t, env)))
    ensures Goes(x, a, Proceed(StoreRef(r, v, x.sc, x.h, env), pc + |GenPutPrepared(p, T, x.sc).code|, s, t))
  {
    match p
    case PreparedName(name) => ExecStore(x, a, pc, s, v, t, env, name, T);
    case PreparedSlots(o, k) =>
      AtSplit3(x.f.code, pc, [Instr(LdaLocal, o)], [Instr(LdaLocal, k)], [Bare(SetProp)]);
      ExecPush(x, a, pc, s + [v], t, env, Instr(LdaLocal, o), r.obj);
      ExecPush(x, a, pc + 1, s + [v] + [r.obj], t, env, Instr(LdaLocal, k), r.key);
      ExecSetProp(x, a, pc + 2, s, v, r.obj, r.key, t, env);
  }

  /** Duplicate the value on top and store one copy. */
  lemma DupAndPut<E>(p: Prepared, r: Ref, pc: nat, T: Tables, x: Ctx<E>, a: State<E>, s: seq<Value>,
                     v: Value, t: Temps, env: E, n: nat)
    requires At(x.f.code, pc, [Bare(Dup)])
    requires Placed(x, GenPutPrepared(p, T, x.sc), pc + 1, T) && Holds(x.f.userSlots, p, r, t, n)
    requires Goes(x, a, Running(Config(pc, s + [v], t, env)))
    ensures Goes(x, a, Push(StoreAndYield(r, v, v, x.sc, x.h, env),
                            pc + 1 + |GenPutPrepared(p, T, x.sc).code|, s, t))
  {
    ExecDup(x, a, pc, s, v, t, env);
    PutPreparedRuns(p, r, pc + 1, T, x, a, s + [v], v, t, env, n);
  }

  ghost predicate PreparedAt<E>(o: RefOutcome<E>, x: Ctx<E>, a: State<E>, pc: nat, s: seq<Value>, t: Temps,
                                p: Prepared, n: nat) {
    match o
    case RefThrown(v, env) => Goes(x, a, Halted(Threw(v, env)))
    case RefOk(r, env) => Goes(x, a, Running(Config(pc, s, t, env))) && Holds(x.f.userSlots, p, r, t, n)
  }

  ghost predicate PlacedTarget<E>(x: Ctx<E>, g: Preparation, base: nat, T: Tables) {
    Placed(x, Code(g.code, g.tabs), base, T)
  }

  lemma {:induction false} PrepareRuns<E>(tg: Target, base: nat, T: Tables, x: Ctx<E>, a: State<E>, s: seq<Value>,
                                          t: Temps, env: E)
    returns (t': Temps)
    requires PlacedTarget(x, GenPrepare(tg, base, T, x.sc), base, T)
    requires Goes(x, a, Running(Config(base, s, t, env)))
    ensures Agree(t, t', T.count)
    ensures var p := GenPrepare(tg, base, T, x.sc);
            PreparedAt(EvalTarget(tg, x.sc, x.h, env), x, a, base + |p.code|, s, t', p.prepared, p.tabs.count)
    decreases tg, 1
  {
    t' := t;
    if tg.MemberTarget? {
      t' := MemberTargetRuns(tg, base, T, x, a, s, t, env);
    }
  }

  lemma {:induction false} MemberTargetRuns<E>(tg: Target, base: nat, T: Tables, x: Ctx<E>, a: State<E>,
                                               s: seq<Value>, t: Temps, env: E)
    returns (t': Temps)
    requires tg.MemberTarget? && PlacedTarget(x, GenPrepare(tg, base, T, x.sc), base, T)
    requires Goes(x, a, Running(Config(base, s, t, env)))
    ensures Agree(t, t', T.count)
    ensures var p := GenPrepare(tg, base, T, x.sc);
            PreparedAt(EvalTarget(tg, x.sc, x.h, env), x, a, base + |p.code|, s, t', p.prepared, p.tabs.count)
    decreases tg, 0
  {
    hide GenExpr, EvalExpr, GenProperty, EvalProperty, At, Wf, Goes, Sound, Agree;
    var user := x.f.userSlots;
    var so := InternLocal(RefObject(T.count), T);
    InternLocalKeeps(RefObject(T.count), T, user);
    var o := GenExpr(tg.obj, base, so.tabs, x.sc);
    ExprTables(tg.obj, base, so.tabs, x.sc, user);
    var sk := InternLocal(RefKey(o.tabs.count), o.tabs);
    InternLocalKeeps(RefKey(o.tabs.count), o.tabs, user);
    var pc := base + |o.code| + 1;
    var k := GenProperty(tg.prop, pc, sk.tabs, x.sc);
    PropertyTables(tg.prop, pc, sk.tabs, x.sc, user);
    AtSplit4(x.f.code, base, o.code, [Instr(StaLocal, so.index)], k.code, [Instr(StaLocal, sk.index)]);
    t' := ExprRuns(tg.obj, base, so.tabs, x, a, s, t, env);
    AgreeLess(t, t', so.tabs.count, T.count);
    match EvalExpr(tg.obj, x.sc, x.h, env)
    case Thrown(_, _) =>
    case Ok(vo, env1) =>
      ExecStoreTemp(x, a, pc - 1, s, vo, t', env1, so.index);
      AgreeSet(t, t', T.count, so.index, vo);
      var t1 := t'[so.index := vo];
      t' := PropertyRuns(tg.prop, pc, sk.tabs, x, a, s, t1, env1);
      AgreeTrans(t, t1, t', T.count, sk.tabs.count);
      AgreeAt(t1, t', sk.tabs.count, so.index);
      match EvalProperty(tg.prop, x.sc, x.h, env1)
      case Thrown(_, _) =>
      case Ok(vk, env2) =>
        ExecStoreTemp(x, a, pc + |k.code|, s, vk, t', env2, sk.index);
        AgreeSet(t, t', T.count, sk.index, vk);
        t' := t'[sk.index := vk];
  }

  /** Like PreparedAt, with the current value of the reference pushed. */
  ghost predicate LoadedAt<E>(o: RefOutcome<E>, x: Ctx<E>, a: State<E>, pc: nat, s: seq<Value>, t: Temps,
                              p: Prepared, n: nat) {
    match o
    case RefThrown(v, env) => Goes(x, a, Halted(Threw(v, env)))
    case RefOk(r, env) =>
      Goes(x, a, Push(LoadRef(r, x.sc, x.h, env), pc, s, t)) && Holds(x.f.userSlots, p, r, t, n)
  }

  lemma {:induction false} TargetLoads<E>(tg: Target, base: nat, T: Tables, x: Ctx<E>, a: State<E>, s: seq<Value>,
                                          t: Temps, env: E)
    returns (t': Temps)
    requires PlacedTarget(x, GenPrepare(tg, base, T, x.sc), base, T)
    requires var p := GenPrepare(tg, base, T, x.sc);
             Placed(x, GenLoadPrepared(p.prepared, p.tabs, x.sc), base + |p.code|, p.tabs)
    requires Goes(x, a, Running(Config(base, s, t, env)))
    ensures Agree(t, t', T.count)
    ensures var p := GenPrepare(tg, base, T, x.sc);
            var l := GenLoadPrepared(p.prepared, p.tabs, x.sc);
            LoadedAt(EvalTarget(tg, x.sc, x.h, env), x, a, base + |p.code| + |l.code|, s, t', p.prepared, p.tabs.count)
    decreases tg, 2
  {
    hide GenPrepare, EvalTarget, At, Wf, Agree, Goes, Sound, Holds;
    var p := GenPrepare(tg, base, T, x.sc);
    t' := PrepareRuns(tg, base, T, x, a, s, t, env);
    match EvalTarget(tg, x.sc, x.h, env)
    case RefThrown(_, _) =>
    case RefOk(r, env1) => LoadPreparedRuns(p.prepared, r, base + |p.code|, p.tabs, x, a, s, t', env1, p.tabs.count);
  }

  lemma {:induction false} AssignNameRuns<E>(e: Expr, base: nat, T: Tables, x: Ctx<E>, a: State<E>, s: seq<Value>,
                           t: Temps, env: E)
    returns (t': Temps)
    requires e.AssignExpr? && e.target.IdentTarget? && Placed(x, GenAssignName(e, base, T, x.sc), base, T)
    requires Goes(x, a, Running(Config(base, s, t, env)))
    ensures Agree(t, t', T.count)
    ensures Goes(x, a, Push(EvalPlainAssign(e, x.sc, x.h, env), base + |GenAssignName(e, base, T, x.sc).code|, s, t'))
    decreases e, 0
  {
    hide GenExpr, EvalExpr, At, Wf, Agree, Goes, Sound;
    var r := GenExpr(e.right, base, T, x.sc);
    var g := GenStore(e.target.name, r.tabs, x.sc);
    ExprTables(e.right, base, T, x.sc, x.f.userSlots);
    AtSplit3(x.f.code, base, r.code, [Bare(Dup)], g.code);
    t' := ExprRuns(e.right, base, T, x, a, s, t, env);
    match EvalExpr(e.right, x.sc, x.h, env)
    case Thrown(_, _) =>
    case Ok(v, env1) =>
      DupAndPut(PreparedName(e.target.name), NameRef(e.target.name), base + |r.code|, r.tabs, x, a, s, v, t', env1, 0);
  }

  lemma {:induction false} AssignMemberRuns<E>(e: Expr, base: nat, T: Tables, x: Ctx<E>, a: State<E>, s: seq<Value>,
                           t: Temps, env: E)
    returns (t': Temps)
    requires e.AssignExpr? && e.target.MemberTarget? && Placed(x, GenAssignMember(e, base, T, x.sc), base, T)
    requires Goes(x, a, Running(Config(base, s, t, env)))
    ensures Agree(t, t', T.count)
    ensures Goes(x, a, Push(EvalPlainAssign(e, x.sc, x.h, env), base + |GenAssignMember(e, base, T, x.sc).code|, s, t'))
    decreases e, 0
  {
    hide GenExpr, EvalExpr, At, Wf, Agree, Goes, Sound;
    var user := x.f.userSlots;
    var r := GenExpr(e.right, base, T, x.sc);
    var pc := base + |r.code| + 1;
    var o := GenExpr(e.target.obj, pc, r.tabs, x.sc);
    var pk := pc + |o.code|;
    var k := GenProperty(e.target.prop, pk, o.tabs, x.sc);
    ExprTables(e.right, base, T, x.sc, user);
    ExprTables(e.target.obj, pc, r.tabs, x.sc, user);
    PropertyTables(e.target.prop, pk, o.tabs, x.sc, user);
    AtSplit5(x.f.code, base, r.code, [Bare(Dup)], o.code, k.code, [Bare(SetProp)]);
    t' := ExprRuns(e.right, base, T, x, a, s, t, env);
    match EvalExpr(e.right, x.sc, x.h, env)
    case Thrown(_, _) =>
    case Ok(v, env1) =>
      ExecDup(x, a, pc - 1, s, v, t', env1);
      var t1 := t';
      t' := ExprRuns(e.target.obj, pc, r.tabs, x, a, s + [v] + [v], t1, env1);
      AgreeTrans(t, t1, t', T.count, r.tabs.count);
      match EvalExpr(e.target.obj, x.sc, x.h, env1)
      case Thrown(_, _) =>
      case Ok(vo, env2) =>
        var t2 := t';
        t' := PropertyRuns(e.target.prop, pk, o.tabs, x, a, s + [v] + [v] + [vo], t2, env2);
        AgreeTrans(t, t2, t', T.count, o.tabs.count);
        match EvalProperty(e.target.prop, x.sc, x.h, env2)
        case Thrown(_, _) =>
        case Ok(vk, env3) => ExecSetProp(x, a, pk + |k.code|, s + [v], v, vo, vk, t', env3);
  }

  /** The parts of a compound assignment and where they are. */
  ghost predicate CompoundAt<E>(e: Expr, base: nat, T: Tables, x: Ctx<E>)
    requires e.AssignExpr? && e.asgop.Compound?
  {
    var p := GenPrepare(e.target, base, T, x.sc);
    var l := GenLoadPrepared(p.prepared, p.tabs, x.sc);
    var pr := base + |p.code| + |l.code|;
    var r := GenExpr(e.right, pr, l.tabs, x.sc);
    var pc := pr + |r.code|;
    var size := |BinaryCode(e.asgop.op)|;
    var g := GenPutPrepared(p.prepared, r.tabs, x.sc);
    && PlacedTarget(x, p, base, T) && Placed(x, l, base + |p.code|, p.tabs) && Placed(x, r, pr, l.tabs)
    && At(x.f.code, pc, BinaryCode(e.asgop.op)) && At(x.f.code, pc + size, [Bare(Dup)])
    && Placed(x, g, pc + size + 1, r.tabs)
    && T.count <= l.tabs.count && p.tabs.count <= l.tabs.count
    && base + |GenCompound(e, base, T, x.sc).code| == pc + size + 1 + |g.code|
  }

  lemma CompoundParts<E>(e: Expr, base: nat, T: Tables, x: Ctx<E>)
    requires e.AssignExpr? && e.asgop.Compound? && Placed(x, GenCompound(e, base, T, x.sc), base, T)
    ensures CompoundAt(e, base, T, x)
  {
    hide GenExpr, GenPrepare, GenLoadPrepared, GenPutPrepared, BinaryCode, At, Wf, Sound;
    var user := x.f.userSlots;
    var p := GenPrepare(e.target, base, T, x.sc);
    var l := GenLoadPrepared(p.prepared, p.tabs, x.sc);
    var pr := base + |p.code| + |l.code|;
    var r := GenExpr(e.right, pr, l.tabs, x.sc);
    var g := GenPutPrepared(p.prepared, r.tabs, x.sc);
    PrepareTables(e.target, base, T, x.sc, user);
    LoadPreparedKeeps(p.prepared, p.tabs, x.sc, user);
    ExprTables(e.right, pr, l.tabs, x.sc, user);
    PutPreparedKeeps(p.prepared, r.tabs, x.sc, user);
    AtSplit5(x.f.code, base, p.code, l.code, r.code, BinaryCode(e.asgop.op) + [Bare(Dup)], g.code);
    AtSplit(x.f.code, pr + |r.code|, BinaryCode(e.asgop.op), [Bare(Dup)]);
  }

  lemma {:induction false} CompoundRuns<E>(e: Expr, base: nat, T: Tables, x: Ctx<E>, a: State<E>, s: seq<Value>,
                           t: Temps, env: E)
    returns (t': Temps)
    requires e.AssignExpr? && e.asgop.Compound? && Placed(x, GenCompound(e, base, T, x.sc), base, T)
    requires Goes(x, a, Running(Config(base, s, t, env)))
    ensures Agree(t, t', T.count)
    ensures Goes(x, a, Push(EvalCombinedAssign(e, x.sc, x.h, env), base + |GenCompound(e, base, T, x.sc).code|, s, t'))
    decreases e, 0
  {
    hide StoreAndYield, LoadRef, GenExpr, EvalExpr, GenPrepare, EvalTarget, At, Wf, Agree, Goes, Sound, Holds;
    hide Placed, PlacedTarget, GenCompound, GenLoadPrepared, GenPutPrepared, BinaryCode;
    CompoundParts(e, base, T, x);
    var op := e.asgop.op;
    var p := GenPrepare(e.target, base, T, x.sc);
    var l := GenLoadPrepared(p.prepared, p.tabs, x.sc);
    var pr := base + |p.code| + |l.code|;
    var r := GenExpr(e.right, pr, l.tabs, x.sc);
    t' := TargetLoads(e.target, base, T, x, a, s, t, env);
    match EvalTarget(e.target, x.sc, x.h, env)
    case RefThrown(_, _) =>
    case RefOk(ref, env1) =>
      match LoadRef(ref, x.sc, x.h, env1)
      case Thrown(_, _) =>
      case Ok(v, env2) =>
        var t1 := t';
        t' := ExprRuns(e.right, pr, l.tabs, x, a, s + [v], t1, env2);
        AgreeTrans(t, t1, t', T.count, l.tabs.count);
        HoldsKept(x.f.userSlots, p.prepared, ref, t1, t', p.tabs.count, l.tabs.count);
        match EvalExpr(e.right, x.sc, x.h, env2)
        case Thrown(_, _) =>
        case Ok(w, env3) =>
          CombineAndPut(op, p.prepared, ref, pr + |r.code|, r.tabs, x, a, s, v, w, t', env3, p.tabs.count);
  }

  /** Apply the operator, then store and keep the result. */
  lemma CombineAndPut<E>(op: BinOp, p: Prepared, r: Ref, pc: nat, T: Tables, x: Ctx<E>, a: State<E>, s: seq<Value>,
                         v: Value, w: Value, t: Temps, env: E, n: nat)
    requires At(x.f.code, pc, BinaryCode(op)) && At(x.f.code, pc + |BinaryCode(op)|, [Bare(Dup)])
    requires Placed(x, GenPutPrepared(p, T, x.sc), pc + |BinaryCode(op)| + 1, T) && Holds(x.f.userSlots, p, r, t, n)
    requires Goes(x, a, Running(Config(pc, s + [v] + [w], t, env)))
    ensures match EvalBinary(op, v, w, x.h, env)
            case Thrown(u, env1) => Goes(x, a, Halted(Threw(u, env1)))
            case Ok(z, env1) =>
              Goes(x, a, Push(StoreAndYield(r, z, z, x.sc, x.h, env1),
                              pc + |BinaryCode(op)| + 1 + |GenPutPrepared(p, T, x.sc).code|, s, t))
  {
    hide StoreAndYield, At, Goes, Holds;
    ExecBinaryCode(x, a, pc, s, v, w, t, env, op);
    match EvalBinary(op, v, w, x.h, env)
    case Thrown(_, _) =>
    case Ok(z, env1) => DupAndPut(p, r, pc + |BinaryCode(op)|, T, x, a, s, z, t, env1, n);
  }

  /** The parts of a logical assignment and where they are. */
  ghost predicate LogicalAssignAt<E>(e: Expr, base: nat, T: Tables, x: Ctx<E>)
    requires e.AssignExpr? && e.asgop.Logical?
  {
    var op := e.asgop.logical;
    var p := GenPrepare(e.target, base, T, x.sc);
    var l := GenLoadPrepared(p.prepared, p.tabs, x.sc);
    var mid := base + |p.code| + |l.code|;
    var pr := mid + ShortCircuitSize(op);
    var r := GenExpr(e.right, pr, l.tabs, x.sc);
    var g := GenPutPrepared(p.prepared, r.tabs, x.sc);
    var end := pr + |r.code| + 1 + |g.code|;
    && PlacedTarget(x, p, base, T) && Placed(x, l, base + |p.code|, p.tabs)
    && At(x.f.code, mid, ShortCircuit(op, mid + 3, end)) && Placed(x, r, pr, l.tabs)
    && At(x.f.code, pr + |r.code|, [Bare(Dup)]) && Placed(x, g, pr + |r.code| + 1, r.tabs)
    && T.count <= l.tabs.count && p.tabs.count <= l.tabs.count
    && base + |GenLogicalAssign(e, base, T, x.sc).code| == end
  }

  lemma LogicalAssignParts<E>(e: Expr, base: nat, T: Tables, x: Ctx<E>)
    requires e.AssignExpr? && e.asgop.Logical? && Placed(x, GenLogicalAssign(e, base, T, x.sc), base, T)
    ensures LogicalAssignAt(e, base, T, x)
  {
    hide GenExpr, GenPrepare, GenLoadPrepared, GenPutPrepared, ShortCircuit, At, Wf, Sound;
    var user := x.f.userSlots;
    var op := e.asgop.logical;
    var p := GenPrepare(e.target, base, T, x.sc);
    var l := GenLoadPrepared(p.prepared, p.tabs, x.sc);
    var mid := base + |p.code| + |l.code|;
    var pr := mid + ShortCircuitSize(op);
    var r := GenExpr(e.right, pr, l.tabs, x.sc);
    var g := GenPutPrepared(p.prepared, r.tabs, x.sc);
    var end := pr + |r.code| + 1 + |g.code|;
    ShortCircuitLength(op, mid + 3, end);
    PrepareTables(e.target, base, T, x.sc, user);
    LoadPreparedKeeps(p.prepared, p.tabs, x.sc, user);
    ExprTables(e.right, pr, l.tabs, x.sc, user);
    PutPreparedKeeps(p.prepared, r.tabs, x.sc, user);
    AtSplit5(x.f.code, base, p.code, l.code, ShortCircuit(op, mid + 3, end), r.code, [Bare(Dup)] + g.code);
    AtSplit(x.f.code, pr + |r.code|, [Bare(Dup)], g.code);
  }

  lemma ShortCircuitLength(op: LogicalOp, other: nat, end: nat)
    ensures |ShortCircuit(op, other, end)| == ShortCircuitSize(op)
  {
  }

  lemma {:induction false} LogicalAssignRuns<E>(e: Expr, base: nat, T: Tables, x: Ctx<E>, a: State<E>, s: seq<Value>,
                           t: Temps, env: E)
    returns (t': Temps)
    requires e.AssignExpr? && e.asgop.Logical? && Placed(x, GenLogicalAssign(e, base, T, x.sc), base, T)
    requires Goes(x, a, Running(Config(base, s, t, env)))
    ensures Agree(t, t', T.count)
    ensures Goes(x, a,
                 Push(EvalCombinedAssign(e, x.sc, x.h, env), base + |GenLogicalAssign(e, base, T, x.sc).code|, s, t'))
    decreases e, 0
  {
    hide ShortCircuit, StoreAndYield, LoadRef, GenExpr, EvalExpr, GenPrepare, EvalTarget, At, Wf, Agree, Goes, Sound;
    hide Holds;
    hide Placed, PlacedTarget, GenLogicalAssign, GenLoadPrepared, GenPutPrepared, TakesRight;
    LogicalAssignParts(e, base, T, x);
    var op := e.asgop.logical;
    var p := GenPrepare(e.target, base, T, x.sc);
    var l := GenLoadPrepared(p.prepared, p.tabs, x.sc);
    var mid := base + |p.code| + |l.code|;
    var pr := mid + ShortCircuitSize(op);
    var r := GenExpr(e.right, pr, l.tabs, x.sc);
    var end := base + |GenLogicalAssign(e, base, T, x.sc).code|;
    t' := TargetLoads(e.target, base, T, x, a, s, t, env);
    match EvalTarget(e.target, x.sc, x.h, env)
    case RefThrown(_, _) =>
    case RefOk(ref, env1) =>
      match LoadRef(ref, x.sc, x.h, env1)
      case Thrown(_, _) =>
      case Ok(v, env2) =>
        ShortCircuitRuns(op, mid, end, x, a, s, v, t', env2);
        if TakesRight(op, v) {
          var t1 := t';
          t' := ExprRuns(e.right, pr, l.tabs, x, a, s, t1, env2);
          AgreeTrans(t, t1, t', T.count, l.tabs.count);
          HoldsKept(x.f.userSlots, p.prepared, ref, t1, t', p.tabs.count, l.tabs.count);
          match EvalExpr(e.right, x.sc, x.h, env2)
          case Thrown(_, _) =>
          case Ok(w, env3) => DupAndPut(p.prepared, ref, pr + |r.code|, r.tabs, x, a, s, w, t', env3, p.tabs.count);
        }
  }

  lemma {:induction false} UpdateRuns<E>(e: Expr, base: nat, T: Tables, x: Ctx<E>, a: State<E>, s: seq<Value>,
                           t: Temps, env: E)
    returns (t': Temps)
    requires e.Update? && Placed(x, GenUpdate(e, base, T, x.sc), base, T)
    requires Goes(x, a, Running(Config(base, s, t, env)))
    ensures Agree(t, t', T.count)
    ensures Goes(x, a, Push(EvalUpdate(e, x.sc, x.h, env), base + |GenUpdate(e, base, T, x.sc).code|, s, t'))
    decreases e, 0
  {
    hide LoadRef, GenExpr, EvalExpr, GenPrepare, EvalTarget, At, Wf, Agree, Goes, Sound, Holds;
    var user := x.f.userSlots;
    var one := InternConst(Integer(1), T);
    InternConstKeeps(Integer(1), T, user);
    var p := GenPrepare(e.target, base, one.tabs, x.sc);
    var l := GenLoadPrepared(p.prepared, p.tabs, x.sc);
    var pd := base + |p.code| + |l.code|;
    var g := GenPutPrepared(p.prepared, l.tabs, x.sc);
    var delta := DeltaCode(e.updop, e.prefix, one.index);
    PrepareTables(e.target, base, one.tabs, x.sc, user);
    LoadPreparedKeeps(p.prepared, p.tabs, x.sc, user);
    PutPreparedKeeps(p.prepared, l.tabs, x.sc, user);
    AtSplit4(x.f.code, base, p.code, l.code, delta, g.code);
    t' := TargetLoads(e.target, base, one.tabs, x, a, s, t, env);
    match EvalTarget(e.target, x.sc, x.h, env)
    case RefThrown(_, _) =>
    case RefOk(ref, env1) =>
      match LoadRef(ref, x.sc, x.h, env1)
      case Thrown(_, _) =>
      case Ok(v, env2) =>
        DeltaRuns(e.updop, e.prefix, one.index, pd, x, a, s, v, t', env2);
        match EvalBinary(UpdateBinOp(e.updop), v, Integer(1), x.h, env2)
        case Thrown(_, _) =>
        case Ok(z, env3) =>
          PutPreparedRuns(p.prepared, ref, pd + 3, l.tabs, x, a, s + [if e.prefix then z else v], z, t', env3,
                          p.tabs.count);
  }

  /** Add or subtract one, keeping the new or the old value underneath. */
  lemma DeltaRuns<E>(op: UpdateOp, prefix: bool, one: nat, pc: nat, x: Ctx<E>, a: State<E>, s: seq<Value>, v: Value,
                     t: Temps, env: E)
    requires At(x.f.code, pc, DeltaCode(op, prefix, one))
    requires one < |x.f.consts| && x.f.consts[one] == Integer(1)
    requires Goes(x, a, Running(Config(pc, s + [v], t, env)))
    ensures match EvalBinary(UpdateBinOp(op), v, Integer(1), x.h, env)
            case Thrown(w, env1) => Goes(x, a, Halted(Threw(w, env1)))
            case Ok(z, env1) => Goes(x, a, Running(Config(pc + 3, s + [if prefix then z else v] + [z], t, env1)))
  {
    hide At, Goes;
    var add := UpdateBinOp(op);
    var load := [Instr(LdaConst, one)];
    if prefix {
      assert DeltaCode(op, prefix, one) == load + [Bare(BinaryOp(add))] + [Bare(Dup)];
      AtSplit3(x.f.code, pc, load, [Bare(BinaryOp(add))], [Bare(Dup)]);
      ExecPush(x, a, pc, s + [v], t, env, load[0], Integer(1));
      ExecBinary(x, a, pc + 1, s, v, Integer(1), t, env, add);
      match EvalBinary(add, v, Integer(1), x.h, env)
      case Thrown(_, _) =>
      case Ok(z, env1) => ExecDup(x, a, pc + 2, s, z, t, env1);
    } else {
      assert DeltaCode(op, prefix, one) == [Bare(Dup)] + load + [Bare(BinaryOp(add))];
      AtSplit3(x.f.code, pc, [Bare(Dup)], load, [Bare(BinaryOp(add))]);
      ExecDup(x, a, pc, s, v, t, env);
      ExecPush(x, a, pc + 1, s + [v] + [v], t, env, load[0], Integer(1));
      ExecBinary(x, a, pc + 2, s + [v], v, Integer(1), t, env, add);
    }
  }

  /** A chain without optional accesses never short-circuits. */
  lemma {:induction false} ChainWithoutOptional<E>(e: Expr, sc: Scope, h: Host<E>, env: E)
    requires !HasOptional(e)
    ensures EvalChain(e, sc, h, env) == Through(EvalExpr(e, sc, h, env))
  {
    if e.Member? {
      ChainWithoutOptional(e.obj, sc, h, env);
    }
  }

  lemma {:induction false} MemberRuns<E>(e: Expr, base: nat, T: Tables, x: Ctx<E>, a: State<E>, s: seq<Value>,
                           t: Temps, env: E)
    returns (t': Temps)
    requires e.Member? && !HasOptional(e) && Placed(x, GenMember(e, base, T, x.sc), base, T)
    requires Goes(x, a, Running(Config(base, s, t, env)))
    ensures Agree(t, t', T.count)
    ensures Goes(x, a, Push(ChainValue(EvalChain(e, x.sc, x.h, env)), base + |GenMember(e, base, T, x.sc).code|, s, t'))
    decreases e, 1
  {
    hide GenExpr, EvalExpr, At, Wf, Agree, Goes, Sound;
    var o := GenExpr(e.obj, base, T, x.sc);
    var pk := base + |o.code|;
    var k := GenProperty(e.prop, pk, o.tabs, x.sc);
    ExprTables(e.obj, base, T, x.sc, x.f.userSlots);
    PropertyTables(e.prop, pk, o.tabs, x.sc, x.f.userSlots);
    AtSplit3(x.f.code, base, o.code, k.code, [Bare(GetProp)]);
    ChainWithoutOptional(e.obj, x.sc, x.h, env);
    t' := ExprRuns(e.obj, base, T, x, a, s, t, env);
    match EvalExpr(e.obj, x.sc, x.h, env)
    case Thrown(_, _) =>
    case Ok(vo, env1) =>
      var t1 := t';
      t' := PropertyRuns(e.prop, pk, o.tabs, x, a, s + [vo], t1, env1);
      AgreeTrans(t, t1, t', T.count, o.tabs.count);
      match EvalProperty(e.prop, x.sc, x.h, env1)
      case Thrown(_, _) =>
      case Ok(vk, env2) => ExecGetProp(x, a, pk + |k.code|, s, vo, vk, t', env2);
  }

  lemma {:induction false} OptionalRuns<E>(e: Expr, base: nat, T: Tables, x: Ctx<E>, a: State<E>, s: seq<Value>,
                           t: Temps, env: E)
    returns (t': Temps)
    requires e.Member? && Placed(x, GenOptional(e, base, T, x.sc), base, T)
    requires Goes(x, a, Running(Config(base, s, t, env)))
    ensures Agree(t, t', T.count)
    ensures Goes(x, a,
                 Push(ChainValue(EvalChain(e, x.sc, x.h, env)), base + |GenOptional(e, base, T, x.sc).code|, s, t'))
    decreases e, 3
  {
    hide GenChain, EvalChain, Wf, Agree, Goes, Sound, GenExpr;
    var nullish := base + LenChain(e, x.sc) + 1;
    var c := GenChain(e, base, nullish, T, x.sc);
    ChainLength(e, base, nullish, T, x.sc);
    AtSplit(x.f.code, base, c.code, ChainExit(nullish));
    var v: Value;
    t', v := ChainRuns(e, base, nullish, T, x, a, s, t, env);
    ChainExitRuns(EvalChain(e, x.sc, x.h, env), nullish, x, a, s, t', v);
  }

  /** Both ways out of a chain meet behind its exit with one value pushed. */
  lemma ChainExitRuns<E>(o: ChainOutcome<E>, nullish: nat, x: Ctx<E>, a: State<E>, s: seq<Value>, t: Temps, v: Value)
    requires nullish > 0 && At(x.f.code, nullish - 1, ChainExit(nullish))
    requires ChainEnds(o, x, a, nullish - 1, nullish, s, t, v)
    ensures Goes(x, a, Push(ChainValue(o), nullish + 2, s, t))
  {
    assert ChainExit(nullish) == [Instr(Jump, nullish + 2)] + [Bare(Pop)] + [Bare(LdaUndefined)];
    AtSplit3(x.f.code, nullish - 1, [Instr(Jump, nullish + 2)], [Bare(Pop)], [Bare(LdaUndefined)]);
    match o
    case Through(Thrown(_, _)) =>
    case Through(Ok(w, env1)) => ExecJump(x, a, nullish - 1, s + [w], t, env1, nullish + 2);
    case Short(env1) =>
      ExecPop(x, a, nullish, s, v, t, env1);
      ExecPush(x, a, nullish + 1, s, t, env1, Bare(LdaUndefined), Undefined);
  }

  /** Where a chain leaves the machine: past its accesses, or at the nullish
      exit with the nullish base still on the stack. */
  ghost predicate ChainEnds<E>(o: ChainOutcome<E>, x: Ctx<E>, a: State<E>, pc: nat, nullish: nat, s: seq<Value>,
                               t: Temps, v: Value) {
    match o
    case Through(r) => Goes(x, a, Push(r, pc, s, t))
    case Short(env) => Goes(x, a, Running(Config(nullish, s + [v], t, env)))
  }

  ghost predicate ChainPlaced<E>(x: Ctx<E>, e: Expr, base: nat, nullish: nat, T: Tables) {
    Placed(x, GenChain(e, base, nullish, T, x.sc), base, T)
  }

  lemma {:induction false} ChainRuns<E>(e: Expr, base: nat, nullish: nat, T: Tables, x: Ctx<E>, a: State<E>,
                                        s: seq<Value>, t: Temps, env: E)
    returns (t': Temps, v: Value)
    requires ChainPlaced(x, e, base, nullish, T)
    requires Goes(x, a, Running(Config(base, s, t, env)))
    ensures Agree(t, t', T.count)
    ensures ChainEnds(EvalChain(e, x.sc, x.h, env), x, a,
                      base + |GenChain(e, base, nullish, T, x.sc).code|, nullish, s, t', v)
    decreases e, if e.Member? then 0 else 5
  {
    hide GenExpr, EvalExpr, GenProperty, EvalProperty, At, Wf, Agree, Goes, Sound;
    if !e.Member? {
      t' := ExprRuns(e, base, T, x, a, s, t, env);
      v := Undefined;
      return;
    }
    var o := GenChain(e.obj, base, nullish, T, x.sc);
    var pt := base + |o.code|;
    var test := if e.optional then [Bare(Dup), Instr(JumpIfNullish, nullish)] else [];
    var pk := pt + |test|;
    var k := GenProperty(e.prop, pk, o.tabs, x.sc);
    ChainTables(e.obj, base, nullish, T, x.sc, x.f.userSlots);
    PropertyTables(e.prop, pk, o.tabs, x.sc, x.f.userSlots);
    AtSplit4(x.f.code, base, o.code, test, k.code, [Bare(GetProp)]);
    t', v := ChainRuns(e.obj, base, nullish, T, x, a, s, t, env);
    match EvalChain(e.obj, x.sc, x.h, env)
    case Short(_) =>
    case Through(Thrown(_, _)) =>
    case Through(Ok(vo, env1)) =>
      NullishTestRuns(e.optional, pt, nullish, x, a, s, vo, t', env1);
      v := vo;
      if !(e.optional && Nullish(vo)) {
        var t1 := t';
        t' := PropertyRuns(e.prop, pk, o.tabs, x, a, s + [vo], t1, env1);
        AgreeTrans(t, t1, t', T.count, o.tabs.count);
        match EvalProperty(e.prop, x.sc, x.h, env1)
        case Thrown(_, _) =>
        case Ok(vk, env2) => ExecGetProp(x, a, pk + |k.code|, s, vo, vk, t', env2);
      }
  }

  lemma NullishTestRuns<E>(optional: bool, pc: nat, nullish: nat, x: Ctx<E>, a: State<E>, s: seq<Value>, v: Value,
                           t: Temps, env: E)
    requires At(x.f.code, pc, if optional then [Bare(Dup), Instr(JumpIfNullish, nullish)] else [])
    requires Goes(x, a, Running(Config(pc, s + [v], t, env)))
    ensures Goes(x, a, Running(Config(if optional && Nullish(v) then nullish else if optional then pc + 2 else pc,
                                      s + [v], t, env)))
  {
    if optional {
      AtSplit(x.f.code, pc, [Bare(Dup)], [Instr(JumpIfNullish, nullish)]);
      ExecDup(x, a, pc, s, v, t, env);
      ExecBranch(x, a, pc + 1, s + [v], v, t, env, Instr(JumpIfNullish, nullish));
    }
  }
}
