/** Code is as long as announced, wherever it is placed. */
module Lengths {
  import opened Syntax
  import opened Machine
  import opened Semantics
  import opened CodeGen

  lemma {:induction false} ExprLength(e: Expr, base: nat, T: Tables, sc: Scope)
    ensures |GenExpr(e, base, T, sc).code| == LenExpr(e, sc)
    decreases e, 4
  {
    match e
    case Lit(_) =>
    case Ident(_) =>
    case Paren(inner) => ExprLength(inner, base, T, sc);
    case Unary(_, _) => UnaryLength(e, base, T, sc);
    case Binary(_, _, _) => BinaryLength(e, base, T, sc);
    case LogicalExpr(_, _, _) => LogicalLength(e, base, T, sc);
    case Conditional(_, _, _) => ConditionalLength(e, base, T, sc);
    case Sequence(es) => SequenceLength(es, base, T, sc);
    case AssignExpr(_, _, _) => AssignLength(e, base, T, sc);
    case Update(_, _, _) => TargetLength(e.target, base, InternConst(Integer(1), T).tabs, sc);
    case Member(_, _, _) =>
      if HasOptional(e) {
        ChainLength(e, base, base + LenChain(e, sc) + 1, T, sc);
      } else {
        MemberLength(e, base, T, sc);
      }
  }

  lemma {:induction false} UnaryLength(e: Expr, base: nat, T: Tables, sc: Scope)
    requires e.Unary?
    ensures |GenUnary(e, base, T, sc).code| == LenExpr(e, sc)
    decreases e, 0
  {
    hide GenExpr;
    ExprLength(e.arg, base, T, sc);
  }

  lemma {:induction false} BinaryLength(e: Expr, base: nat, T: Tables, sc: Scope)
    requires e.Binary?
    ensures |GenBinary(e, base, T, sc).code| == LenExpr(e, sc)
    decreases e, 0
  {
    hide GenExpr;
    var l := GenExpr(e.left, base, T, sc);
    ExprLength(e.left, base, T, sc);
    ExprLength(e.right, base + |l.code|, l.tabs, sc);
  }

  lemma {:induction false} LogicalLength(e: Expr, base: nat, T: Tables, sc: Scope)
    requires e.LogicalExpr?
    ensures |GenLogical(e, base, T, sc).code| == LenExpr(e, sc)
    decreases e, 0
  {
    hide GenExpr;
    var l := GenExpr(e.left, base, T, sc);
    ExprLength(e.left, base, T, sc);
    ExprLength(e.right, base + |l.code| + ShortCircuitSize(e.logop), l.tabs, sc);
  }

  lemma {:induction false} ConditionalLength(e: Expr, base: nat, T: Tables, sc: Scope)
    requires e.Conditional?
    ensures |GenConditional(e, base, T, sc).code| == LenExpr(e, sc)
    decreases e, 0
  {
    hide GenExpr;
    var t := GenExpr(e.test, base, T, sc);
    ExprLength(e.test, base, T, sc);
    var c := GenExpr(e.cons, base + |t.code| + 1, t.tabs, sc);
    ExprLength(e.cons, base + |t.code| + 1, t.tabs, sc);
    ExprLength(e.alt, base + |t.code| + 1 + |c.code| + 1, c.tabs, sc);
  }

  lemma {:induction false} SequenceLength(es: ExprList, base: nat, T: Tables, sc: Scope)
    ensures |GenSequence(es, base, T, sc).code| == LenSequence(es, sc)
    decreases es, 0
  {
    hide GenExpr;
    match es
    case ENil =>
    case ECons(e, tail) =>
      ExprLength(e, base, T, sc);
      if !tail.ENil? {
        var h := GenExpr(e, base, T, sc);
        SequenceLength(tail, base + |h.code| + 1, h.tabs, sc);
      }
  }

  lemma {:induction false} PropertyLength(p: Property, base: nat, T: Tables, sc: Scope)
    ensures |GenProperty(p, base, T, sc).code| == LenProperty(p, sc)
    decreases p, 0
  {
    match p
    case Named(_) =>
    case Computed(key) => ExprLength(key, base, T, sc);
  }

  lemma {:induction false} TargetLength(t: Target, base: nat, T: Tables, sc: Scope)
    ensures |GenPrepare(t, base, T, sc).code| == LenTarget(t, sc)
    ensures t.IdentTarget? <==> GenPrepare(t, base, T, sc).prepared.PreparedName?
    decreases t, 0
  {
    hide GenExpr, GenProperty;
    if t.MemberTarget? {
      var so := InternLocal(RefObject(T.count), T);
      var o := GenExpr(t.obj, base, so.tabs, sc);
      ExprLength(t.obj, base, so.tabs, sc);
      var sk := InternLocal(RefKey(o.tabs.count), o.tabs);
      PropertyLength(t.prop, base + |o.code| + 1, sk.tabs, sc);
    }
  }

  lemma {:induction false} AssignLength(e: Expr, base: nat, T: Tables, sc: Scope)
    requires e.AssignExpr?
    ensures |GenExpr(e, base, T, sc).code| == LenExpr(e, sc)
    decreases e, 3
  {
    match e.asgop
    case Assign =>
      ExprLength(e.right, base, T, sc);
      if e.target.MemberTarget? {
        AssignMemberLength(e, base, T, sc);
      }
    case Compound(_) => CompoundLength(e, base, T, sc);
    case Logical(_) => LogicalAssignLength(e, base, T, sc);
  }

  lemma {:induction false} AssignMemberLength(e: Expr, base: nat, T: Tables, sc: Scope)
    requires e.AssignExpr? && e.asgop.Assign? && e.target.MemberTarget?
    ensures |GenAssignMember(e, base, T, sc).code| == LenExpr(e, sc)
    decreases e, 0
  {
    hide GenExpr, GenProperty;
    var r := GenExpr(e.right, base, T, sc);
    ExprLength(e.right, base, T, sc);
    var pc := base + |r.code| + 1;
    var o := GenExpr(e.target.obj, pc, r.tabs, sc);
    ExprLength(e.target.obj, pc, r.tabs, sc);
    PropertyLength(e.target.prop, pc + |o.code|, o.tabs, sc);
  }

  lemma {:induction false} CompoundLength(e: Expr, base: nat, T: Tables, sc: Scope)
    requires e.AssignExpr? && e.asgop.Compound?
    ensures |GenCompound(e, base, T, sc).code| == LenExpr(e, sc)
    decreases e, 0
  {
    hide GenExpr, GenPrepare;
    TargetLength(e.target, base, T, sc);
    var p := GenPrepare(e.target, base, T, sc);
    var l := GenLoadPrepared(p.prepared, p.tabs, sc);
    ExprLength(e.right, base + |p.code| + |l.code|, l.tabs, sc);
  }

  lemma {:induction false} LogicalAssignLength(e: Expr, base: nat, T: Tables, sc: Scope)
    requires e.AssignExpr? && e.asgop.Logical?
    ensures |GenLogicalAssign(e, base, T, sc).code| == LenExpr(e, sc)
    decreases e, 0
  {
    hide GenExpr, GenPrepare;
    TargetLength(e.target, base, T, sc);
    var p := GenPrepare(e.target, base, T, sc);
    var l := GenLoadPrepared(p.prepared, p.tabs, sc);
    ExprLength(e.right, base + |p.code| + |l.code| + ShortCircuitSize(e.asgop.logical), l.tabs, sc);
  }

  lemma {:induction false} MemberLength(e: Expr, base: nat, T: Tables, sc: Scope)
    requires e.Member? && !HasOptional(e)
    ensures |GenMember(e, base, T, sc).code| == LenExpr(e, sc)
    decreases e, 0
  {
    hide GenExpr, GenProperty;
    var o := GenExpr(e.obj, base, T, sc);
    ExprLength(e.obj, base, T, sc);
    PropertyLength(e.prop, base + |o.code|, o.tabs, sc);
  }

  lemma {:induction false} ChainLength(e: Expr, base: nat, nullish: nat, T: Tables, sc: Scope)
    ensures |GenChain(e, base, nullish, T, sc).code| == LenChain(e, sc)
    decreases e, if e.Member? then 0 else 5
  {
    hide GenExpr, GenProperty;
    match e
    case Member(obj, prop, optional) =>
      var o := GenChain(obj, base, nullish, T, sc);
      ChainLength(obj, base, nullish, T, sc);
      PropertyLength(prop, base + |o.code| + |NullishTest(optional, nullish)|, o.tabs, sc);
    case _ => ExprLength(e, base, T, sc);
  }
}
