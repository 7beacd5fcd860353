/** Compiled expressions keep the stack discipline: from any depth they end one
    deeper, and all their operands are in range. */
module ExprDepth {
  import opened Syntax
  import opened Machine
  import opened Semantics
  import opened CodeGen
  import opened Lengths
  import opened ExprCorrect
  import opened StackDepth

  /** The variables of a function and the final sizes of its tables. */
  datatype View = View(scope: Scope, user: nat, limits: Limits)

  ghost predicate ScopeIn(v: View) {
    && (forall x :: x in v.scope.locals ==> v.scope.locals[x] < v.user)
    && (forall x :: x in v.scope.upvalues ==> v.scope.upvalues[x] < v.limits.upvalues)
  }

  /** Code that starts from the tables `a` and ends with `b` fits the limits. */
  ghost predicate Ready(a: Tables, b: Tables, v: View) {
    Wf(a, v.user) && ScopeIn(v) && a.count <= b.count <= v.limits.locals && |b.consts| <= v.limits.consts
  }

  // ----- single loads and stores -----

  lemma ConstFlows(val: Value, op: Opcode, base: nat, T: Tables, v: View, n: nat, out: set<Point>)
    requires op == LdaConst || op == GetGlobal || op == TypeofGlobal
    requires |InternConst(val, T).tabs.consts| <= v.limits.consts
    ensures Flows([Instr(op, InternConst(val, T).index)], base, n, n + 1, {}, out, v.limits)
  {
    hide Flows;
    FlowsOne(Instr(op, InternConst(val, T).index), base, n, n + 1, out, v.limits);
  }

  lemma LoadFlows(name: string, base: nat, T: Tables, v: View, n: nat, out: set<Point>)
    requires Ready(T, GenLoad(name, T, v.scope).tabs, v)
    ensures Flows(GenLoad(name, T, v.scope).code, base, n, n + 1, {}, out, v.limits)
  {
    hide Flows;
    FlowsOne(GenLoad(name, T, v.scope).code[0], base, n, n + 1, out, v.limits);
  }

  lemma StoreFlows(name: string, base: nat, T: Tables, v: View, n: nat, out: set<Point>)
    requires Ready(T, GenStore(name, T, v.scope).tabs, v)
    ensures Flows(GenStore(name, T, v.scope).code, base, n + 1, n, {}, out, v.limits)
  {
    hide Flows;
    FlowsOne(GenStore(name, T, v.scope).code[0], base, n + 1, n, out, v.limits);
  }

  lemma LitFlows(l: Literal, base: nat, T: Tables, v: View, n: nat, out: set<Point>)
    requires Ready(T, LoadLit(l, T).tabs, v)
    ensures Flows(LoadLit(l, T).code, base, n, n + 1, {}, out, v.limits)
  {
    hide Flows;
    FlowsOne(LoadLit(l, T).code[0], base, n, n + 1, out, v.limits);
  }

  lemma BinaryOpFlows(op: BinOp, base: nat, n: nat, v: View, out: set<Point>)
    ensures Flows([Bare(BinaryOp(op))], base, n + 2, n + 1, {}, out, v.limits)
  {
    hide Flows;
    FlowsOne(Bare(BinaryOp(op)), base, n + 2, n + 1, out, v.limits);
  }

  lemma BinaryCodeFlows(op: BinOp, base: nat, n: nat, v: View, out: set<Point>)
    ensures Flows(BinaryCode(op), base, n + 2, n + 1, {}, out, v.limits)
  {
    hide Flows;
    if op == NotEq || op == StrictNotEq {
      var inner := if op == NotEq then Eq else StrictEq;
      BinaryOpFlows(inner, base, n, v, out);
      UnaryOpFlows(Not, base + 1, n, v, out);
      FlowsTwo(Bare(BinaryOp(inner)), Bare(UnaryOp(Not)), base, n + 2, n + 1, n + 1, out, v.limits);
    } else {
      BinaryOpFlows(op, base, n, v, out);
    }
  }

  lemma PopFlows(base: nat, n: nat, v: View, out: set<Point>)
    ensures Flows([Bare(Pop)], base, n + 1, n, {}, out, v.limits)
  {
    hide Flows;
    FlowsOne(Bare(Pop), base, n + 1, n, out, v.limits);
  }

  lemma DupFlows(base: nat, n: nat, v: View, out: set<Point>)
    ensures Flows([Bare(Dup)], base, n + 1, n + 2, {}, out, v.limits)
  {
    hide Flows;
    FlowsOne(Bare(Dup), base, n + 1, n + 2, out, v.limits);
  }

  lemma UndefinedFlows(base: nat, n: nat, v: View, out: set<Point>)
    ensures Flows([Bare(LdaUndefined)], base, n, n + 1, {}, out, v.limits)
  {
    hide Flows;
    FlowsOne(Bare(LdaUndefined), base, n, n + 1, out, v.limits);
  }

  lemma UnaryOpFlows(op: Syntax.UnaryOp, base: nat, n: nat, v: View, out: set<Point>)
    ensures Flows([Bare(UnaryOp(op))], base, n + 1, n + 1, {}, out, v.limits)
  {
    hide Flows;
    FlowsOne(Bare(UnaryOp(op)), base, n + 1, n + 1, out, v.limits);
  }

  lemma SlotFlows(slot: nat, base: nat, n: nat, v: View, out: set<Point>)
    requires slot < v.limits.locals
    ensures Flows([Instr(LdaLocal, slot)], base, n, n + 1, {}, out, v.limits)
    ensures Flows([Instr(StaLocal, slot)], base, n + 1, n, {}, out, v.limits)
  {
    hide Flows;
    FlowsOne(Instr(LdaLocal, slot), base, n, n + 1, out, v.limits);
    FlowsOne(Instr(StaLocal, slot), base, n + 1, n, out, v.limits);
  }

  lemma GetPropFlows(base: nat, n: nat, v: View, out: set<Point>)
    ensures Flows([Bare(GetProp)], base, n + 2, n + 1, {}, out, v.limits)
  {
    hide Flows;
    FlowsOne(Bare(GetProp), base, n + 2, n + 1, out, v.limits);
  }

  lemma SetPropFlows(base: nat, n: nat, v: View, out: set<Point>)
    ensures Flows([Bare(SetProp)], base, n + 3, n, {}, out, v.limits)
  {
    hide Flows;
    FlowsOne(Bare(SetProp), base, n + 3, n, out, v.limits);
  }

  /** A conditional jump pops the value that it tests. */
  lemma BranchOne(op: Opcode, target: nat, base: nat, n: nat, z: Limits, out: set<Point>)
    requires op == JumpIfFalse || op == JumpIfTrue || op == JumpIfNullish
    requires Point(target, n) in out
    ensures Flows([Instr(op, target)], base, n + 1, n, {}, out, z)
  {
    hide Flows;
    FlowsOne(Instr(op, target), base, n + 1, n, out, z);
  }

  /** Whatever the depth of what follows, nothing falls through a jump. */
  lemma JumpOne(target: nat, base: nat, n: nat, m: nat, z: Limits, out: set<Point>)
    requires Point(target, n) in out
    ensures Flows([Instr(Jump, target)], base, n, m, {}, out, z)
  {
    hide Flows;
    FlowsOne(Instr(Jump, target), base, n, m, out, z);
  }

  /** Leaving for `end` keeps the left value. */
  lemma ShortCircuitFlows(op: LogicalOp, base: nat, end: nat, n: nat, v: View, out: set<Point>)
    requires Point(end, n + 1) in out
    ensures Flows(ShortCircuit(op, base + 3, end), base, n + 1, n, {}, out, v.limits)
  {
    hide Flows;
    if op == NullishCoal {
      NullishFlows(base, end, n, v, out);
    } else {
      var test := if op == And then JumpIfFalse else JumpIfTrue;
      DupFlows(base, n, v, out);
      BranchOne(test, end, base + 1, n + 1, v.limits, out);
      PopFlows(base + 2, n, v, out);
      FlowsThree(Bare(Dup), Instr(test, end), Bare(Pop), base, n + 1, n + 2, n + 1, n, out, v.limits);
    }
  }

  lemma NullishFlows(base: nat, end: nat, n: nat, v: View, out: set<Point>)
    requires Point(end, n + 1) in out
    ensures Flows(ShortCircuit(NullishCoal, base + 3, end), base, n + 1, n, {}, out, v.limits)
  {
    hide Flows;
    var inner := out + {Point(base + 3, n + 1)};
    var test, leave := Instr(JumpIfNullish, base + 3), Instr(Jump, end);
    DupFlows(base, n, v, inner);
    BranchOne(JumpIfNullish, base + 3, base + 1, n + 1, v.limits, inner);
    JumpOne(end, base + 2, n + 1, n + 1, v.limits, inner);
    PopFlows(base + 3, n, v, inner);
    Join4([Bare(Dup)], [test], [leave], [Bare(Pop)], base, n + 1, n + 2, n + 1, n + 1, n, inner, v.limits);
    var code := [Bare(Dup)] + [test] + [leave] + [Bare(Pop)];
    Seal(code, base, n + 1, n, {Point(base + 1, n + 2), Point(base + 2, n + 1), Point(base + 3, n + 1)}, inner, out,
         v.limits);
    assert code == [Bare(Dup), test, leave, Bare(Pop)];
  }

  // ----- expressions -----

  lemma {:induction false} ExprFlows(e: Expr, base: nat, T: Tables, v: View, n: nat, out: set<Point>)
    requires Ready(T, GenExpr(e, base, T, v.scope).tabs, v)
    ensures Flows(GenExpr(e, base, T, v.scope).code, base, n, n + 1, {}, out, v.limits)
    decreases e, 4
  {
    hide Flows, Ready, GenUnary, GenBinary, GenLogical, GenConditional, GenSequence, GenUpdate, GenMember, GenOptional;
    hide GenAssignName, GenAssignMember, GenCompound, GenLogicalAssign, LoadLit, GenLoad;
    match e
    case Lit(l) => LitFlows(l, base, T, v, n, out);
    case Ident(name) => LoadFlows(name, base, T, v, n, out);
    case Paren(inner) => ExprFlows(inner, base, T, v, n, out);
    case Unary(_, _) => UnaryFlows(e, base, T, v, n, out);
    case Binary(_, _, _) => BinaryFlows(e, base, T, v, n, out);
    case LogicalExpr(_, _, _) => LogicalFlows(e, base, T, v, n, out);
    case Conditional(_, _, _) => ConditionalFlows(e, base, T, v, n, out);
    case Sequence(es) => SequenceFlows(es, base, T, v, n, out);
    case AssignExpr(_, _, _) =>
      match e.asgop {
        case Assign =>
          if e.target.IdentTarget? {
            AssignNameFlows(e, base, T, v, n, out);
          } else {
            AssignMemberFlows(e, base, T, v, n, out);
          }
        case Compound(_) => CompoundFlows(e, base, T, v, n, out);
        case Logical(_) => LogicalAssignFlows(e, base, T, v, n, out);
      }
    case Update(_, _, _) => UpdateFlows(e, base, T, v, n, out);
    case Member(_, _, _) =>
      if HasOptional(e) {
        OptionalFlows(e, base, T, v, n, out);
      } else {
        MemberFlows(e, base, T, v, n, out);
      }
  }

  lemma {:induction false} UnaryFlows(e: Expr, base: nat, T: Tables, v: View, n: nat, out: set<Point>)
    requires e.Unary? && Ready(T, GenUnary(e, base, T, v.scope).tabs, v)
    ensures Flows(GenUnary(e, base, T, v.scope).code, base, n, n + 1, {}, out, v.limits)
    decreases e, 0
  {
    hide GenExpr, Flows, Wf, ScopeIn, InternConst;
    if e.unop == Typeof && IsGlobalName(e.arg, v.scope) {
      ConstFlows(Str(e.arg.name), TypeofGlobal, base, T, v, n, out);
    } else {
      var a := GenExpr(e.arg, base, T, v.scope);
      ExprFlows(e.arg, base, T, v, n, out);
      UnaryOpFlows(e.unop, base + |a.code|, n, v, out);
      Join2(a.code, [Bare(UnaryOp(e.unop))], base, n, n + 1, n + 1, out, v.limits);
    }
  }

  lemma {:induction false} BinaryFlows(e: Expr, base: nat, T: Tables, v: View, n: nat, out: set<Point>)
    requires e.Binary? && Ready(T, GenBinary(e, base, T, v.scope).tabs, v)
    ensures Flows(GenBinary(e, base, T, v.scope).code, base, n, n + 1, {}, out, v.limits)
    decreases e, 0
  {
    hide GenExpr, Flows, Wf, ScopeIn, BinaryCode;
    var l := GenExpr(e.left, base, T, v.scope);
    var r := GenExpr(e.right, base + |l.code|, l.tabs, v.scope);
    ExprTables(e.left, base, T, v.scope, v.user);
    ExprTables(e.right, base + |l.code|, l.tabs, v.scope, v.user);
    ExprFlows(e.left, base, T, v, n, out);
    ExprFlows(e.right, base + |l.code|, l.tabs, v, n + 1, out);
    BinaryCodeFlows(e.binop, base + |l.code| + |r.code|, n, v, out);
    Join3(l.code, r.code, BinaryCode(e.binop), base, n, n + 1, n + 2, n + 1, out, v.limits);
  }

  lemma {:induction false} LogicalFlows(e: Expr, base: nat, T: Tables, v: View, n: nat, out: set<Point>)
    requires e.LogicalExpr? && Ready(T, GenLogical(e, base, T, v.scope).tabs, v)
    ensures Flows(GenLogical(e, base, T, v.scope).code, base, n, n + 1, {}, out, v.limits)
    decreases e, 0
  {
    hide GenExpr, Flows, Wf, ScopeIn, ShortCircuit;
    var l := GenExpr(e.left, base, T, v.scope);
    var mid := base + |l.code|;
    var start := mid + ShortCircuitSize(e.logop);
    var r := GenExpr(e.right, start, l.tabs, v.scope);
    var end := start + |r.code|;
    var inner := out + {Point(end, n + 1)};
    ExprTables(e.left, base, T, v.scope, v.user);
    ExprTables(e.right, start, l.tabs, v.scope, v.user);
    ExprFlows(e.left, base, T, v, n, inner);
    ShortCircuitFlows(e.logop, mid, end, n, v, inner);
    ExprFlows(e.right, start, l.tabs, v, n, inner);
    var code := l.code + ShortCircuit(e.logop, mid + 3, end) + r.code;
    Join3(l.code, ShortCircuit(e.logop, mid + 3, end), r.code, base, n, n + 1, n, n + 1, inner, v.limits);
    Seal(code, base, n, n + 1, {}, inner, out, v.limits);
  }

  lemma {:induction false} ConditionalFlows(e: Expr, base: nat, T: Tables, v: View, n: nat, out: set<Point>)
    requires e.Conditional? && Ready(T, GenConditional(e, base, T, v.scope).tabs, v)
    ensures Flows(GenConditional(e, base, T, v.scope).code, base, n, n + 1, {}, out, v.limits)
    decreases e, 0
  {
    hide GenExpr, Flows, Wf, ScopeIn;
    var t := GenExpr(e.test, base, T, v.scope);
    var pc := base + |t.code| + 1;
    var c := GenExpr(e.cons, pc, t.tabs, v.scope);
    var mid := pc + |c.code| + 1;
    var a := GenExpr(e.alt, mid, c.tabs, v.scope);
    var end := mid + |a.code|;
    var inner := out + {Point(mid, n), Point(end, n + 1)};
    ExprTables(e.test, base, T, v.scope, v.user);
    ExprTables(e.cons, pc, t.tabs, v.scope, v.user);
    ExprTables(e.alt, mid, c.tabs, v.scope, v.user);
    ExprFlows(e.test, base, T, v, n, inner);
    ExprFlows(e.cons, pc, t.tabs, v, n, inner);
    ExprFlows(e.alt, mid, c.tabs, v, n, inner);
    BranchFlows(t.code, c.code, a.code, base, n, n + 1, out, v.limits);
  }

  /** Test, first branch, jump, second branch. */
  lemma BranchFlows(t: seq<Instr>, c: seq<Instr>, a: seq<Instr>, base: nat, n: nat, m: nat, out: set<Point>, z: Limits)
    requires var pc := base + |t| + 1;
             var mid := pc + |c| + 1;
             var inner := out + {Point(mid, n), Point(mid + |a|, m)};
             && Flows(t, base, n, n + 1, {}, inner, z)
             && Flows(c, pc, n, m, {}, inner, z) && Flows(a, mid, n, m, {}, inner, z)
    ensures var mid := base + |t| + 1 + |c| + 1;
            Flows(t + [Instr(JumpIfFalse, mid)] + c + [Instr(Jump, mid + |a|)] + a, base, n, m, {}, out, z)
  {
    hide Flows;
    var pc := base + |t| + 1;
    var mid := pc + |c| + 1;
    var end := mid + |a|;
    var inner := out + {Point(mid, n), Point(end, m)};
    var test, skip := Instr(JumpIfFalse, mid), Instr(Jump, end);
    BranchOne(JumpIfFalse, mid, pc - 1, n, z, inner);
    JumpOne(end, mid - 1, m, n, z, inner);
    Join5(t, [test], c, [skip], a, base, n, n + 1, n, m, n, m, inner, z);
    Seal(t + [test] + c + [skip] + a, base, n, m,
         {Point(pc - 1, n + 1), Point(pc, n), Point(mid - 1, m), Point(mid, n)}, inner, out, z);
  }

  lemma SequenceParts(e: Expr, tail: ExprList, base: nat, T: Tables, sc: Scope)
    requires !tail.ENil?
    ensures var g := GenExpr(e, base, T, sc);
            var t := GenSequence(tail, base + |g.code| + 1, g.tabs, sc);
            GenSequence(ECons(e, tail), base, T, sc) == Code(g.code + [Bare(Pop)] + t.code, t.tabs)
  {
    hide GenExpr;
  }

  lemma {:induction false} SequenceFlows(es: ExprList, base: nat, T: Tables, v: View, n: nat, out: set<Point>)
    requires Ready(T, GenSequence(es, base, T, v.scope).tabs, v)
    ensures Flows(GenSequence(es, base, T, v.scope).code, base, n, n + 1, {}, out, v.limits)
    decreases es, 0
  {
    hide GenExpr, Flows, Wf, ScopeIn;
    match es
    case ENil => FlowsOne(Bare(LdaUndefined), base, n, n + 1, out, v.limits);
    case ECons(e, tail) =>
      if tail.ENil? {
        ExprFlows(e, base, T, v, n, out);
      } else {
        LongSequenceFlows(e, tail, base, T, v, n, out);
      }
  }

  lemma {:induction false} LongSequenceFlows(e: Expr, tail: ExprList, base: nat, T: Tables, v: View, n: nat,
                                             out: set<Point>)
    requires !tail.ENil? && Ready(T, GenSequence(ECons(e, tail), base, T, v.scope).tabs, v)
    ensures Flows(GenSequence(ECons(e, tail), base, T, v.scope).code, base, n, n + 1, {}, out, v.limits)
    decreases ECons(e, tail), 0, 0
  {
    hide GenExpr, GenSequence, Flows, Wf, ScopeIn;
    SequenceParts(e, tail, base, T, v.scope);
    var g := GenExpr(e, base, T, v.scope);
    var pc := base + |g.code| + 1;
    var t := GenSequence(tail, pc, g.tabs, v.scope);
    ExprTables(e, base, T, v.scope, v.user);
    SequenceTables(tail, pc, g.tabs, v.scope, v.user);
    ExprFlows(e, base, T, v, n, out);
    PopFlows(pc - 1, n, v, out);
    SequenceFlows(tail, pc, g.tabs, v, n, out);
    Join3(g.code, [Bare(Pop)], t.code, base, n, n + 1, n, n + 1, out, v.limits);
  }

  lemma {:induction false} PropertyFlows(p: Property, base: nat, T: Tables, v: View, n: nat, out: set<Point>)
    requires Ready(T, GenProperty(p, base, T, v.scope).tabs, v)
    ensures Flows(GenProperty(p, base, T, v.scope).code, base, n, n + 1, {}, out, v.limits)
    decreases p, 0
  {
    hide Flows, GenExpr;
    match p
    case Named(name) => ConstFlows(Str(name), LdaConst, base, T, v, n, out);
    case Computed(key) => ExprFlows(key, base, T, v, n, out);
  }

  lemma {:induction false} MemberFlows(e: Expr, base: nat, T: Tables, v: View, n: nat, out: set<Point>)
    requires e.Member? && Ready(T, GenMember(e, base, T, v.scope).tabs, v)
    ensures Flows(GenMember(e, base, T, v.scope).code, base, n, n + 1, {}, out, v.limits)
    decreases e, 0
  {
    hide GenExpr, GenProperty, Flows, Wf, ScopeIn;
    var o := GenExpr(e.obj, base, T, v.scope);
    var pk := base + |o.code|;
    var k := GenProperty(e.prop, pk, o.tabs, v.scope);
    ExprTables(e.obj, base, T, v.scope, v.user);
    PropertyTables(e.prop, pk, o.tabs, v.scope, v.user);
    ExprFlows(e.obj, base, T, v, n, out);
    PropertyFlows(e.prop, pk, o.tabs, v, n + 1, out);
    GetPropFlows(pk + |k.code|, n, v, out);
    Join3(o.code, k.code, [Bare(GetProp)], base, n, n + 1, n + 2, n + 1, out, v.limits);
  }

  // ----- assignments -----

  lemma {:induction false} AssignNameFlows(e: Expr, base: nat, T: Tables, v: View, n: nat, out: set<Point>)
    requires e.AssignExpr? && e.target.IdentTarget? && Ready(T, GenAssignName(e, base, T, v.scope).tabs, v)
    ensures Flows(GenAssignName(e, base, T, v.scope).code, base, n, n + 1, {}, out, v.limits)
    decreases e, 0
  {
    hide GenExpr, Flows, Wf, ScopeIn;
    var r := GenExpr(e.right, base, T, v.scope);
    var s := GenStore(e.target.name, r.tabs, v.scope);
    ExprTables(e.right, base, T, v.scope, v.user);
    ExprFlows(e.right, base, T, v, n, out);
    DupFlows(base + |r.code|, n, v, out);
    StoreFlows(e.target.name, base + |r.code| + 1, r.tabs, v, n + 1, out);
    Join3(r.code, [Bare(Dup)], s.code, base, n, n + 1, n + 2, n + 1, out, v.limits);
  }

  lemma {:induction false} AssignMemberFlows(e: Expr, base: nat, T: Tables, v: View, n: nat, out: set<Point>)
    requires e.AssignExpr? && e.target.MemberTarget? && Ready(T, GenAssignMember(e, base, T, v.scope).tabs, v)
    ensures Flows(GenAssignMember(e, base, T, v.scope).code, base, n, n + 1, {}, out, v.limits)
    decreases e, 0
  {
    hide GenExpr, GenProperty, Flows, Wf, ScopeIn;
    var r := GenExpr(e.right, base, T, v.scope);
    var pc := base + |r.code| + 1;
    var o := GenExpr(e.target.obj, pc, r.tabs, v.scope);
    var pk := pc + |o.code|;
    var k := GenProperty(e.target.prop, pk, o.tabs, v.scope);
    ExprTables(e.right, base, T, v.scope, v.user);
    ExprTables(e.target.obj, pc, r.tabs, v.scope, v.user);
    PropertyTables(e.target.prop, pk, o.tabs, v.scope, v.user);
    ExprFlows(e.right, base, T, v, n, out);
    DupFlows(pc - 1, n, v, out);
    ExprFlows(e.target.obj, pc, r.tabs, v, n + 2, out);
    PropertyFlows(e.target.prop, pk, o.tabs, v, n + 3, out);
    SetPropFlows(pk + |k.code|, n + 1, v, out);
    Join5(r.code, [Bare(Dup)], o.code, k.code, [Bare(SetProp)], base, n, n + 1, n + 2, n + 3, n + 4, n + 1, out,
          v.limits);
  }

  ghost predicate PreparedIn(p: Prepared, v: View) {
    p.PreparedSlots? ==> p.obj < v.limits.locals && p.key < v.limits.locals
  }

  lemma {:induction false} PrepareFlows(t: Target, base: nat, T: Tables, v: View, n: nat, out: set<Point>)
    requires Ready(T, GenPrepare(t, base, T, v.scope).tabs, v)
    ensures Flows(GenPrepare(t, base, T, v.scope).code, base, n, n, {}, out, v.limits)
    ensures PreparedIn(GenPrepare(t, base, T, v.scope).prepared, v)
    decreases t, 1
  {
    hide Flows, GenExpr;
    if t.IdentTarget? {
      FlowsEmpty(base, n, out, v.limits);
    } else {
      SpillFlows(t, base, T, v, n, out);
    }
  }

  /** Object and key go into two temporaries. */
  lemma {:induction false} SpillFlows(t: Target, base: nat, T: Tables, v: View, n: nat, out: set<Point>)
    requires t.MemberTarget? && Ready(T, GenPrepare(t, base, T, v.scope).tabs, v)
    ensures Flows(GenPrepare(t, base, T, v.scope).code, base, n, n, {}, out, v.limits)
    ensures PreparedIn(GenPrepare(t, base, T, v.scope).prepared, v)
    decreases t, 0
  {
    hide Flows, GenExpr, GenProperty, Wf, ScopeIn;
    var so := InternLocal(RefObject(T.count), T);
    InternLocalKeeps(RefObject(T.count), T, v.user);
    var o := GenExpr(t.obj, base, so.tabs, v.scope);
    ExprTables(t.obj, base, so.tabs, v.scope, v.user);
    var sk := InternLocal(RefKey(o.tabs.count), o.tabs);
    InternLocalKeeps(RefKey(o.tabs.count), o.tabs, v.user);
    var pk := base + |o.code| + 1;
    var k := GenProperty(t.prop, pk, sk.tabs, v.scope);
    PropertyTables(t.prop, pk, sk.tabs, v.scope, v.user);
    var first, last := Instr(StaLocal, so.index), Instr(StaLocal, sk.index);
    ExprFlows(t.obj, base, so.tabs, v, n, out);
    SlotFlows(so.index, pk - 1, n, v, out);
    PropertyFlows(t.prop, pk, sk.tabs, v, n, out);
    SlotFlows(sk.index, pk + |k.code|, n, v, out);
    Join4(o.code, [first], k.code, [last], base, n, n + 1, n, n + 1, n, out, v.limits);
  }

  lemma LoadPreparedFlows(p: Prepared, base: nat, T: Tables, v: View, n: nat, out: set<Point>)
    requires PreparedIn(p, v) && Ready(T, GenLoadPrepared(p, T, v.scope).tabs, v)
    ensures Flows(GenLoadPrepared(p, T, v.scope).code, base, n, n + 1, {}, out, v.limits)
  {
    hide Flows, GenLoad;
    match p
    case PreparedName(name) => LoadFlows(name, base, T, v, n, out);
    case PreparedSlots(o, k) =>
      SlotFlows(o, base, n, v, out);
      SlotFlows(k, base + 1, n + 1, v, out);
      GetPropFlows(base + 2, n, v, out);
      FlowsThree(Instr(LdaLocal, o), Instr(LdaLocal, k), Bare(GetProp), base, n, n + 1, n + 2, n + 1, out, v.limits);
  }

  lemma PutPreparedFlows(p: Prepared, base: nat, T: Tables, v: View, n: nat, out: set<Point>)
    requires PreparedIn(p, v) && Ready(T, GenPutPrepared(p, T, v.scope).tabs, v)
    ensures Flows(GenPutPrepared(p, T, v.scope).code, base, n + 1, n, {}, out, v.limits)
  {
    hide Flows, GenStore;
    match p
    case PreparedName(name) => StoreFlows(name, base, T, v, n, out);
    case PreparedSlots(o, k) =>
      SlotFlows(o, base, n + 1, v, out);
      SlotFlows(k, base + 1, n + 2, v, out);
      SetPropFlows(base + 2, n, v, out);
      FlowsThree(Instr(LdaLocal, o), Instr(LdaLocal, k), Bare(SetProp), base, n + 1, n + 2, n + 3, n, out, v.limits);
  }

  lemma {:induction false} CompoundFlows(e: Expr, base: nat, T: Tables, v: View, n: nat, out: set<Point>)
    requires e.AssignExpr? && e.asgop.Compound? && Ready(T, GenCompound(e, base, T, v.scope).tabs, v)
    ensures Flows(GenCompound(e, base, T, v.scope).code, base, n, n + 1, {}, out, v.limits)
    decreases e, 0
  {
    hide Flows, GenExpr, GenPrepare, GenLoadPrepared, GenPutPrepared, BinaryCode, Wf, ScopeIn, PreparedIn;
    var sc, user, op := v.scope, v.user, e.asgop.op;
    var p := GenPrepare(e.target, base, T, sc);
    var l := GenLoadPrepared(p.prepared, p.tabs, sc);
    var pr := base + |p.code| + |l.code|;
    var r := GenExpr(e.right, pr, l.tabs, sc);
    var pd := pr + |r.code| + |BinaryCode(op)|;
    var s := GenPutPrepared(p.prepared, r.tabs, sc);
    PrepareTables(e.target, base, T, sc, user);
    LoadPreparedKeeps(p.prepared, p.tabs, sc, user);
    ExprTables(e.right, pr, l.tabs, sc, user);
    PutPreparedKeeps(p.prepared, r.tabs, sc, user);
    PrepareFlows(e.target, base, T, v, n, out);
    LoadPreparedFlows(p.prepared, base + |p.code|, p.tabs, v, n, out);
    ExprFlows(e.right, pr, l.tabs, v, n + 1, out);
    BinaryCodeFlows(op, pr + |r.code|, n, v, out);
    DupFlows(pd, n, v, out);
    Join2(BinaryCode(op), [Bare(Dup)], pr + |r.code|, n + 2, n + 1, n + 2, out, v.limits);
    PutPreparedFlows(p.prepared, pd + 1, r.tabs, v, n + 1, out);
    Join5(p.code, l.code, r.code, BinaryCode(op) + [Bare(Dup)], s.code, base, n, n, n + 1, n + 2, n + 2, n + 1, out,
          v.limits);
  }

  lemma {:induction false} LogicalAssignFlows(e: Expr, base: nat, T: Tables, v: View, n: nat, out: set<Point>)
    requires e.AssignExpr? && e.asgop.Logical? && Ready(T, GenLogicalAssign(e, base, T, v.scope).tabs, v)
    ensures Flows(GenLogicalAssign(e, base, T, v.scope).code, base, n, n + 1, {}, out, v.limits)
    decreases e, 0
  {
    hide Flows, GenExpr, GenPrepare, GenLoadPrepared, GenPutPrepared, ShortCircuit, Wf, ScopeIn, PreparedIn;
    var sc, user, op := v.scope, v.user, e.asgop.logical;
    var p := GenPrepare(e.target, base, T, sc);
    var l := GenLoadPrepared(p.prepared, p.tabs, sc);
    var mid := base + |p.code| + |l.code|;
    var pr := mid + ShortCircuitSize(op);
    var r := GenExpr(e.right, pr, l.tabs, sc);
    var pd := pr + |r.code|;
    var s := GenPutPrepared(p.prepared, r.tabs, sc);
    var end := pd + 1 + |s.code|;
    var inner := out + {Point(end, n + 1)};
    var test := ShortCircuit(op, mid + 3, end);
    PrepareTables(e.target, base, T, sc, user);
    LoadPreparedKeeps(p.prepared, p.tabs, sc, user);
    ExprTables(e.right, pr, l.tabs, sc, user);
    PutPreparedKeeps(p.prepared, r.tabs, sc, user);
    PrepareFlows(e.target, base, T, v, n, inner);
    LoadPreparedFlows(p.prepared, base + |p.code|, p.tabs, v, n, inner);
    ShortCircuitFlows(op, mid, end, n, v, inner);
    ExprFlows(e.right, pr, l.tabs, v, n, inner);
    DupFlows(pd, n, v, inner);
    PutPreparedFlows(p.prepared, pd + 1, r.tabs, v, n + 1, inner);
    Join2([Bare(Dup)], s.code, pd, n + 1, n + 2, n + 1, inner, v.limits);
    Join5(p.code, l.code, test, r.code, [Bare(Dup)] + s.code, base, n, n, n + 1, n, n + 1, n + 1, inner, v.limits);
    Seal(p.code + l.code + test + r.code + ([Bare(Dup)] + s.code), base, n, n + 1, {}, inner, out, v.limits);
  }

  lemma DeltaFlows(op: UpdateOp, prefix: bool, one: nat, base: nat, n: nat, v: View, out: set<Point>)
    requires one < v.limits.consts
    ensures Flows(DeltaCode(op, prefix, one), base, n + 1, n + 2, {}, out, v.limits)
  {
    hide Flows;
    var load, add := Instr(LdaConst, one), Bare(BinaryOp(UpdateBinOp(op)));
    ConstOne(one, base, n + 1, v, out);
    ConstOne(one, base + 1, n + 2, v, out);
    BinaryOpFlows(UpdateBinOp(op), base + 1, n, v, out);
    BinaryOpFlows(UpdateBinOp(op), base + 2, n + 1, v, out);
    DupFlows(base + 2, n, v, out);
    DupFlows(base, n, v, out);
    if prefix {
      FlowsThree(load, add, Bare(Dup), base, n + 1, n + 2, n + 1, n + 2, out, v.limits);
    } else {
      FlowsThree(Bare(Dup), load, add, base, n + 1, n + 2, n + 3, n + 2, out, v.limits);
    }
  }

  lemma ConstOne(i: nat, base: nat, n: nat, v: View, out: set<Point>)
    requires i < v.limits.consts
    ensures Flows([Instr(LdaConst, i)], base, n, n + 1, {}, out, v.limits)
  {
    hide Flows;
    FlowsOne(Instr(LdaConst, i), base, n, n + 1, out, v.limits);
  }

  lemma {:induction false} UpdateFlows(e: Expr, base: nat, T: Tables, v: View, n: nat, out: set<Point>)
    requires e.Update? && Ready(T, GenUpdate(e, base, T, v.scope).tabs, v)
    ensures Flows(GenUpdate(e, base, T, v.scope).code, base, n, n + 1, {}, out, v.limits)
    decreases e, 0
  {
    hide Flows, GenPrepare, GenLoadPrepared, GenPutPrepared, InternConst, DeltaCode, Wf, ScopeIn, PreparedIn;
    var sc, user := v.scope, v.user;
    var one := InternConst(Integer(1), T);
    var p := GenPrepare(e.target, base, one.tabs, sc);
    var l := GenLoadPrepared(p.prepared, p.tabs, sc);
    var pd := base + |p.code| + |l.code|;
    var d := DeltaCode(e.updop, e.prefix, one.index);
    var s := GenPutPrepared(p.prepared, l.tabs, sc);
    InternConstKeeps(Integer(1), T, user);
    PrepareTables(e.target, base, one.tabs, sc, user);
    LoadPreparedKeeps(p.prepared, p.tabs, sc, user);
    PutPreparedKeeps(p.prepared, l.tabs, sc, user);
    PrepareFlows(e.target, base, one.tabs, v, n, out);
    LoadPreparedFlows(p.prepared, base + |p.code|, p.tabs, v, n, out);
    DeltaFlows(e.updop, e.prefix, one.index, pd, n, v, out);
    PutPreparedFlows(p.prepared, pd + |d|, l.tabs, v, n + 1, out);
    Join4(p.code, l.code, d, s.code, base, n, n, n + 1, n + 2, n + 1, out, v.limits);
  }

  // ----- optional chains -----

  lemma {:induction false} ChainFlows(e: Expr, base: nat, nullish: nat, T: Tables, v: View, n: nat, out: set<Point>)
    requires Point(nullish, n + 1) in out && Ready(T, GenChain(e, base, nullish, T, v.scope).tabs, v)
    ensures Flows(GenChain(e, base, nullish, T, v.scope).code, base, n, n + 1, {}, out, v.limits)
    decreases e, if e.Member? then 0 else 5
  {
    hide Flows, GenExpr, GenProperty, NullishTest, Wf, ScopeIn;
    if e.Member? {
      var o := GenChain(e.obj, base, nullish, T, v.scope);
      var test := NullishTest(e.optional, nullish);
      var pt := base + |o.code|;
      var k := GenProperty(e.prop, pt + |test|, o.tabs, v.scope);
      ChainTables(e.obj, base, nullish, T, v.scope, v.user);
      PropertyTables(e.prop, pt + |test|, o.tabs, v.scope, v.user);
      ChainFlows(e.obj, base, nullish, T, v, n, out);
      NullishTestFlows(e.optional, nullish, pt, n, v, out);
      PropertyFlows(e.prop, pt + |test|, o.tabs, v, n + 1, out);
      GetPropFlows(pt + |test| + |k.code|, n, v, out);
      Join4(o.code, test, k.code, [Bare(GetProp)], base, n, n + 1, n + 1, n + 2, n + 1, out, v.limits);
    } else {
      ChainRoot(e, base, nullish, T, v.scope);
      ExprFlows(e, base, T, v, n, out);
    }
  }

  lemma ChainRoot(e: Expr, base: nat, nullish: nat, T: Tables, sc: Scope)
    requires !e.Member?
    ensures GenChain(e, base, nullish, T, sc) == GenExpr(e, base, T, sc)
  {
    hide GenExpr;
  }

  lemma NullishTestFlows(optional: bool, nullish: nat, base: nat, n: nat, v: View, out: set<Point>)
    requires Point(nullish, n + 1) in out
    ensures Flows(NullishTest(optional, nullish), base, n + 1, n + 1, {}, out, v.limits)
  {
    hide Flows;
    if optional {
      DupFlows(base, n, v, out);
      BranchOne(JumpIfNullish, nullish, base + 1, n + 1, v.limits, out);
      FlowsTwo(Bare(Dup), Instr(JumpIfNullish, nullish), base, n + 1, n + 2, n + 1, out, v.limits);
    } else {
      FlowsEmpty(base, n + 1, out, v.limits);
    }
  }

  lemma {:induction false} OptionalFlows(e: Expr, base: nat, T: Tables, v: View, n: nat, out: set<Point>)
    requires e.Member? && Ready(T, GenOptional(e, base, T, v.scope).tabs, v)
    ensures Flows(GenOptional(e, base, T, v.scope).code, base, n, n + 1, {}, out, v.limits)
    decreases e, 3
  {
    hide Flows, GenChain, Ready, LenChain, ChainExit;
    var nullish := base + LenChain(e, v.scope) + 1;
    var c := GenChain(e, base, nullish, T, v.scope);
    ChainLength(e, base, nullish, T, v.scope);
    var inner := out + {Point(nullish, n + 1)};
    ChainFlows(e, base, nullish, T, v, n, inner);
    ExitFlows(nullish, n, v, inner);
    Join(c.code, ChainExit(nullish), base, n, n + 1, n + 1, {}, {Point(nullish, n + 1)}, inner, v.limits);
    Seal(c.code + ChainExit(nullish), base, n, n + 1, {} + {Point(nullish, n + 1)} + {Point(nullish - 1, n + 1)}, inner,
         out,
         v.limits);
  }

  /** The exit expects the base that turned out nullish on the stack. */
  lemma ExitFlows(nullish: nat, n: nat, v: View, out: set<Point>)
    requires nullish > 0
    ensures Flows(ChainExit(nullish), nullish - 1, n + 1, n + 1, {Point(nullish, n + 1)}, out, v.limits)
  {
    hide Flows;
    var leave := Instr(Jump, nullish + 2);
    var inner := out + {Point(nullish + 2, n + 1)};
    JumpOne(nullish + 2, nullish - 1, n + 1, n + 1, v.limits, inner);
    PopFlows(nullish, n, v, inner);
    UndefinedFlows(nullish + 1, n, v, inner);
    FlowsTwo(Bare(Pop), Bare(LdaUndefined), nullish, n + 1, n, n + 1, inner, v.limits);
    Join2([leave], [Bare(Pop), Bare(LdaUndefined)], nullish - 1, n + 1, n + 1, n + 1, inner, v.limits);
    assert [leave] + [Bare(Pop), Bare(LdaUndefined)] == ChainExit(nullish);
    SealKeeping(ChainExit(nullish), nullish - 1, n + 1, n + 1, {Point(nullish, n + 1)}, inner, out, v.limits);
  }
}
