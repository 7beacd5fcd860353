/** The two-pass code generator: code for a fragment placed at address `base`,
    with every jump target already resolved. The one-pass emitter is proved
    equal to it; the meaning of compiled code is proved about it. */
module CodeGen {
  import opened Syntax
  import opened Machine
  import opened Semantics

  // ----- tables -----

  /** Names in a function's slot table. Temporaries carry the slot count at
      their creation, which makes them fresh. */
  datatype LocalName = User(name: string) | SwitchDisc | RefObject(n: nat) | RefKey(n: nat)

  datatype Tables = Tables(consts: seq<Value>, byName: map<LocalName, nat>, count: nat)

  datatype Interned = Interned(index: nat, tabs: Tables)

  function IndexOf(vs: seq<Value>, v: Value): (i: nat)
    requires v in vs
    ensures i < |vs| && vs[i] == v
  {
    if vs[0] == v then 0 else 1 + IndexOf(vs[1..], v)
  }

  /** Find or append a constant. */
  function InternConst(v: Value, T: Tables): (r: Interned)
    ensures T.consts <= r.tabs.consts && r.tabs.count == T.count && r.tabs.byName == T.byName
    ensures r.index < |r.tabs.consts| && r.tabs.consts[r.index] == v
  {
    if v in T.consts then Interned(IndexOf(T.consts, v), T)
    else Interned(|T.consts|, T.(consts := T.consts + [v]))
  }

  /** Find or allocate a slot. */
  function InternLocal(name: LocalName, T: Tables): Interned {
    if name in T.byName then Interned(T.byName[name], T)
    else Interned(T.count, T.(byName := T.byName[name := T.count], count := T.count + 1))
  }

  /** Slots below `user` belong to source variables; temporaries lie above
      and were named when the table was smaller than it is now. */
  ghost predicate Wf(T: Tables, user: nat) {
    && user <= T.count
    && (forall n: nat :: RefObject(n) in T.byName ==> n < T.count)
    && (forall n: nat :: RefKey(n) in T.byName ==> n < T.count)
    && (SwitchDisc in T.byName ==> user <= T.byName[SwitchDisc] < T.count)
  }

  ghost predicate Grows(a: Tables, b: Tables) {
    a.consts <= b.consts && a.count <= b.count
  }

  // ----- expressions -----

  datatype Code = Code(code: seq<Instr>, tabs: Tables)

  function LoadConst(v: Value, T: Tables): Code {
    var r := InternConst(v, T);
    Code([Instr(LdaConst, r.index)], r.tabs)
  }

  function LoadLit(l: Literal, T: Tables): Code {
    match l
    case NullLit => Code([Bare(LdaNull)], T)
    case BoolLit(b) => Code([Bare(if b then LdaTrue else LdaFalse)], T)
    case IntLit(i) => LoadConst(Integer(i), T)
    case StrLit(s) => LoadConst(Str(s), T)
  }

  function GenLoad(name: string, T: Tables, sc: Scope): Code {
    if name == "undefined" then Code([Bare(LdaUndefined)], T)
    else
      match Resolve(sc, name)
      case Local(slot) => Code([Instr(LdaLocal, slot)], T)
      case Upvalue(i) => Code([Instr(LdaUpvalue, i)], T)
      case Global(_) => var r := InternConst(Str(name), T); Code([Instr(GetGlobal, r.index)], r.tabs)
  }

  function GenStore(name: string, T: Tables, sc: Scope): Code {
    match Resolve(sc, name)
    case Local(slot) => Code([Instr(StaLocal, slot)], T)
    case Upvalue(i) => Code([Instr(StaUpvalue, i)], T)
    case Global(_) => var r := InternConst(Str(name), T); Code([Instr(SetGlobal, r.index)], r.tabs)
  }

  function BinaryCode(op: BinOp): seq<Instr> {
    match op
    case NotEq => [Bare(BinaryOp(Eq)), Bare(UnaryOp(Not))]
    case StrictNotEq => [Bare(BinaryOp(StrictEq)), Bare(UnaryOp(Not))]
    case _ => [Bare(BinaryOp(op))]
  }

  /** Retain the left value and either fall through to the right operand at
      `rhs` or leave for `end`. */
  function ShortCircuit(op: LogicalOp, rhs: nat, end: nat): (code: seq<Instr>)
    ensures |code| == ShortCircuitSize(op)
  {
    match op
    case And => [Bare(Dup), Instr(JumpIfFalse, end), Bare(Pop)]
    case Or => [Bare(Dup), Instr(JumpIfTrue, end), Bare(Pop)]
    case NullishCoal => [Bare(Dup), Instr(JumpIfNullish, rhs), Instr(Jump, end), Bare(Pop)]
  }

  function ShortCircuitSize(op: LogicalOp): nat {
    if op == NullishCoal then 4 else 3
  }

  /** A reference whose parts are held in temporaries. */
  datatype Prepared = PreparedName(name: string) | PreparedSlots(obj: nat, key: nat)

  datatype Preparation = Preparation(code: seq<Instr>, tabs: Tables, prepared: Prepared)

  function GenLoadPrepared(p: Prepared, T: Tables, sc: Scope): Code {
    match p
    case PreparedName(name) => GenLoad(name, T, sc)
    case PreparedSlots(o, k) => Code([Instr(LdaLocal, o), Instr(LdaLocal, k), Bare(GetProp)], T)
  }

  function GenPutPrepared(p: Prepared, T: Tables, sc: Scope): Code {
    match p
    case PreparedName(name) => GenStore(name, T, sc)
    case PreparedSlots(o, k) => Code([Instr(LdaLocal, o), Instr(LdaLocal, k), Bare(SetProp)], T)
  }

  // ----- lengths, known before any code is generated -----

  function TargetSize(t: Target): nat {
    if t.IdentTarget? then 1 else 3
  }

  function LenExpr(e: Expr, sc: Scope): nat
    decreases e, 1
  {
    match e
    case Lit(_) => 1
    case Ident(_) => 1
    case Paren(inner) => LenExpr(inner, sc)
    case Unary(op, arg) => if op == Typeof && IsGlobalName(arg, sc) then 1 else LenExpr(arg, sc) + 1
    case Binary(op, l, r) => LenExpr(l, sc) + LenExpr(r, sc) + |BinaryCode(op)|
    case LogicalExpr(op, l, r) => LenExpr(l, sc) + ShortCircuitSize(op) + LenExpr(r, sc)
    case Conditional(t, c, a) => LenExpr(t, sc) + 1 + LenExpr(c, sc) + 1 + LenExpr(a, sc)
    case Sequence(es) => LenSequence(es, sc)
    case AssignExpr(op, t, r) =>
      (match op
       case Assign =>
         if t.IdentTarget? then LenExpr(r, sc) + 2
         else LenExpr(r, sc) + 1 + LenExpr(t.obj, sc) + LenProperty(t.prop, sc) + 1
       case Compound(b) =>
         LenTarget(t, sc) + TargetSize(t) + LenExpr(r, sc) + |BinaryCode(b)| + 1 + TargetSize(t)
       case Logical(l) =>
         LenTarget(t, sc) + TargetSize(t) + ShortCircuitSize(l) + LenExpr(r, sc) + 1 + TargetSize(t))
    case Update(_, _, t) => LenTarget(t, sc) + TargetSize(t) + 3 + TargetSize(t)
    case Member(o, p, _) =>
      if HasOptional(e) then LenChain(e, sc) + 3 else LenExpr(o, sc) + LenProperty(p, sc) + 1
  }

  function LenSequence(es: ExprList, sc: Scope): nat
    decreases es, 0
  {
    match es
    case ENil => 1
    case ECons(e, tail) => if tail.ENil? then LenExpr(e, sc) else LenExpr(e, sc) + 1 + LenSequence(tail, sc)
  }

  function LenProperty(p: Property, sc: Scope): nat
    decreases p, 0
  {
    match p
    case Named(_) => 1
    case Computed(k) => LenExpr(k, sc)
  }

  function LenTarget(t: Target, sc: Scope): nat
    decreases t, 0
  {
    match t
    case IdentTarget(_) => 0
    case MemberTarget(o, p) => LenExpr(o, sc) + 1 + LenProperty(p, sc) + 1
  }

  function LenChain(e: Expr, sc: Scope): nat
    decreases e, if e.Member? then 0 else 2
  {
    match e
    case Member(o, p, optional) => LenChain(o, sc) + (if optional then 2 else 0) + LenProperty(p, sc) + 1
    case _ => LenExpr(e, sc)
  }

  // ----- code of expressions -----

  function GenExpr(e: Expr, base: nat, T: Tables, sc: Scope): Code
    decreases e, 4
  {
    match e
    case Lit(l) => LoadLit(l, T)
    case Ident(name) => GenLoad(name, T, sc)
    case Paren(inner) => GenExpr(inner, base, T, sc)
    case Unary(_, _) => GenUnary(e, base, T, sc)
    case Binary(_, _, _) => GenBinary(e, base, T, sc)
    case LogicalExpr(_, _, _) => GenLogical(e, base, T, sc)
    case Conditional(_, _, _) => GenConditional(e, base, T, sc)
    case Sequence(es) => GenSequence(es, base, T, sc)
    case AssignExpr(_, _, _) =>
      (match e.asgop
       case Assign =>
         if e.target.IdentTarget? then GenAssignName(e, base, T, sc) else GenAssignMember(e, base, T, sc)
       case Compound(_) => GenCompound(e, base, T, sc)
       case Logical(_) => GenLogicalAssign(e, base, T, sc))
    case Update(_, _, _) => GenUpdate(e, base, T, sc)
    case Member(_, _, _) => if HasOptional(e) then GenOptional(e, base, T, sc) else GenMember(e, base, T, sc)
  }

  function GenUnary(e: Expr, base: nat, T: Tables, sc: Scope): Code
    requires e.Unary?
    decreases e, 0
  {
    if e.unop == Typeof && IsGlobalName(e.arg, sc) then
      var r := InternConst(Str(e.arg.name), T);
      Code([Instr(TypeofGlobal, r.index)], r.tabs)
    else
      var a := GenExpr(e.arg, base, T, sc);
      Code(a.code + [Bare(UnaryOp(e.unop))], a.tabs)
  }

  function GenBinary(e: Expr, base: nat, T: Tables, sc: Scope): Code
    requires e.Binary?
    decreases e, 0
  {
    var l := GenExpr(e.left, base, T, sc);
    var r := GenExpr(e.right, base + |l.code|, l.tabs, sc);
    Code(l.code + r.code + BinaryCode(e.binop), r.tabs)
  }

  function GenLogical(e: Expr, base: nat, T: Tables, sc: Scope): Code
    requires e.LogicalExpr?
    decreases e, 0
  {
    var l := GenExpr(e.left, base, T, sc);
    var mid := base + |l.code|;
    var start := mid + ShortCircuitSize(e.logop);
    var r := GenExpr(e.right, start, l.tabs, sc);
    Code(l.code + ShortCircuit(e.logop, mid + 3, start + |r.code|) + r.code, r.tabs)
  }

  function GenConditional(e: Expr, base: nat, T: Tables, sc: Scope): Code
    requires e.Conditional?
    decreases e, 0
  {
    var t := GenExpr(e.test, base, T, sc);
    var c := GenExpr(e.cons, base + |t.code| + 1, t.tabs, sc);
    var mid := base + |t.code| + 1 + |c.code| + 1;
    var a := GenExpr(e.alt, mid, c.tabs, sc);
    Code(t.code + [Instr(JumpIfFalse, mid)] + c.code + [Instr(Jump, mid + |a.code|)] + a.code, a.tabs)
  }

  function GenSequence(es: ExprList, base: nat, T: Tables, sc: Scope): Code
    decreases es, 0
  {
    match es
    case ENil => Code([Bare(LdaUndefined)], T)
    case ECons(e, tail) =>
      var h := GenExpr(e, base, T, sc);
      if tail.ENil? then h
      else
        var t := GenSequence(tail, base + |h.code| + 1, h.tabs, sc);
        Code(h.code + [Bare(Pop)] + t.code, t.tabs)
  }

  function GenProperty(p: Property, base: nat, T: Tables, sc: Scope): Code
    decreases p, 0
  {
    match p
    case Named(name) => LoadConst(Str(name), T)
    case Computed(key) => GenExpr(key, base, T, sc)
  }

  /** Evaluate the parts of a target into fresh temporaries. */
  function GenPrepare(t: Target, base: nat, T: Tables, sc: Scope): Preparation
    decreases t, 0
  {
    match t
    case IdentTarget(name) => Preparation([], T, PreparedName(name))
    case MemberTarget(obj, prop) =>
      var so := InternLocal(RefObject(T.count), T);
      var o := GenExpr(obj, base, so.tabs, sc);
      var sk := InternLocal(RefKey(o.tabs.count), o.tabs);
      var k := GenProperty(prop, base + |o.code| + 1, sk.tabs, sc);
      Preparation(o.code + [Instr(StaLocal, so.index)] + k.code + [Instr(StaLocal, sk.index)],
                  k.tabs, PreparedSlots(so.index, sk.index))
  }

  function GenAssignName(e: Expr, base: nat, T: Tables, sc: Scope): Code
    requires e.AssignExpr? && e.target.IdentTarget?
    decreases e, 0
  {
    var r := GenExpr(e.right, base, T, sc);
    var s := GenStore(e.target.name, r.tabs, sc);
    Code(r.code + [Bare(Dup)] + s.code, s.tabs)
  }

  function GenAssignMember(e: Expr, base: nat, T: Tables, sc: Scope): Code
    requires e.AssignExpr? && e.target.MemberTarget?
    decreases e, 0
  {
    var r := GenExpr(e.right, base, T, sc);
    var pc := base + |r.code| + 1;
    var o := GenExpr(e.target.obj, pc, r.tabs, sc);
    var k := GenProperty(e.target.prop, pc + |o.code|, o.tabs, sc);
    Code(r.code + [Bare(Dup)] + o.code + k.code + [Bare(SetProp)], k.tabs)
  }

  function GenCompound(e: Expr, base: nat, T: Tables, sc: Scope): Code
    requires e.AssignExpr? && e.asgop.Compound?
    decreases e, 0
  {
    var p := GenPrepare(e.target, base, T, sc);
    var l := GenLoadPrepared(p.prepared, p.tabs, sc);
    var r := GenExpr(e.right, base + |p.code| + |l.code|, l.tabs, sc);
    var s := GenPutPrepared(p.prepared, r.tabs, sc);
    Code(p.code + l.code + r.code + (BinaryCode(e.asgop.op) + [Bare(Dup)]) + s.code, s.tabs)
  }

  function GenLogicalAssign(e: Expr, base: nat, T: Tables, sc: Scope): Code
    requires e.AssignExpr? && e.asgop.Logical?
    decreases e, 0
  {
    var op := e.asgop.logical;
    var p := GenPrepare(e.target, base, T, sc);
    var l := GenLoadPrepared(p.prepared, p.tabs, sc);
    var mid := base + |p.code| + |l.code|;
    var r := GenExpr(e.right, mid + ShortCircuitSize(op), l.tabs, sc);
    var s := GenPutPrepared(p.prepared, r.tabs, sc);
    var end := mid + ShortCircuitSize(op) + |r.code| + 1 + |s.code|;
    Code(p.code + l.code + ShortCircuit(op, mid + 3, end) + r.code + ([Bare(Dup)] + s.code), s.tabs)
  }

  /** `new := old + 1`; a prefix update yields the new value, a postfix one
      the old value. */
  function DeltaCode(op: UpdateOp, prefix: bool, one: nat): seq<Instr> {
    if prefix then [Instr(LdaConst, one), Bare(BinaryOp(UpdateBinOp(op))), Bare(Dup)]
    else [Bare(Dup), Instr(LdaConst, one), Bare(BinaryOp(UpdateBinOp(op)))]
  }

  function GenUpdate(e: Expr, base: nat, T: Tables, sc: Scope): Code
    requires e.Update?
    decreases e, 0
  {
    var one := InternConst(Integer(1), T);
    var p := GenPrepare(e.target, base, one.tabs, sc);
    var l := GenLoadPrepared(p.prepared, p.tabs, sc);
    var s := GenPutPrepared(p.prepared, l.tabs, sc);
    Code(p.code + l.code + DeltaCode(e.updop, e.prefix, one.index) + s.code, s.tabs)
  }

  function GenMember(e: Expr, base: nat, T: Tables, sc: Scope): Code
    requires e.Member?
    decreases e, 0
  {
    var o := GenExpr(e.obj, base, T, sc);
    var k := GenProperty(e.prop, base + |o.code|, o.tabs, sc);
    Code(o.code + k.code + [Bare(GetProp)], k.tabs)
  }

  /** The exit of an optional chain: `nullish` is its second instruction. */
  function ChainExit(nullish: nat): seq<Instr> {
    [Instr(Jump, nullish + 2), Bare(Pop), Bare(LdaUndefined)]
  }

  function GenOptional(e: Expr, base: nat, T: Tables, sc: Scope): Code
    requires e.Member?
    decreases e, 3
  {
    var nullish := base + LenChain(e, sc) + 1;
    var c := GenChain(e, base, nullish, T, sc);
    Code(c.code + ChainExit(nullish), c.tabs)
  }

  function NullishTest(optional: bool, nullish: nat): seq<Instr> {
    if optional then [Bare(Dup), Instr(JumpIfNullish, nullish)] else []
  }

  /** The accesses of a member chain; optional ones leave for `nullish`. */
  function GenChain(e: Expr, base: nat, nullish: nat, T: Tables, sc: Scope): Code
    decreases e, if e.Member? then 0 else 5
  {
    match e
    case Member(obj, prop, optional) =>
      var o := GenChain(obj, base, nullish, T, sc);
      var test := NullishTest(optional, nullish);
      var k := GenProperty(prop, base + |o.code| + |test|, o.tabs, sc);
      Code(o.code + test + k.code + [Bare(GetProp)], k.tabs)
    case _ => GenExpr(e, base, T, sc)
  }
}
