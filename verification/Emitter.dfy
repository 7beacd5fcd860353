/** The one-pass emitter: instructions are pushed, jumps are pushed with a
    placeholder target and patched once the target is known. Every method is
    proved to append exactly the code of the two-pass generator. */
module Emitter {
  import opened Syntax
  import opened Machine
  import opened Semantics
  import opened CodeGen
  import opened Lengths
  import opened StmtGen
  import opened StmtFacts
  import opened JumpTargets
  import opened Patching
  import opened Frames
  import opened EmitterFacts
  import opened ClosingFacts
  import opened SwitchFacts
  import opened Interning

  const ADDRESSES: nat := 0x1_0000

  class Emitter {
    var code: seq<Instr>
    var loops: seq<LoopFrame>
    var labels: seq<LabelFrame>
    var errors: seq<JumpError>
    const pool: ConstantPool
    const locals: LocalTable
    const scope: Scope

    constructor (pool: ConstantPool, locals: LocalTable, scope: Scope)
      ensures this.pool == pool && this.locals == locals && this.scope == scope
      ensures code == [] && loops == [] && labels == [] && errors == []
    {
      this.pool, this.locals, this.scope := pool, locals, scope;
      code, loops, labels, errors := [], [], [], [];
    }

    ghost predicate Valid()
      reads pool, locals
    {
      pool.Valid() && locals.Valid()
    }

    ghost function Tabs(): Tables
      reads pool, locals
    {
      Tables(pool.items, locals.byName, locals.count)
    }

    ghost function Out(): Output
      reads this, pool, locals
    {
      Output(code, loops, labels, errors, Tabs())
    }

    // ----- instructions and patches -----

    /** The next address, as the 16-bit operand that a jump to it would get. */
    function Here(): (pc: nat)
      reads this`code
      ensures |code| < ADDRESSES ==> pc == |code|
    {
      |code| % ADDRESSES
    }

    method Emit(ins: Instr)
      modifies this`code
      ensures code == old(code) + [ins]
    {
      code := code + [ins];
    }

    method EmitPlaceholder(op: Opcode) returns (at: nat)
      requires |code| < ADDRESSES
      modifies this`code
      ensures code == old(code) + [Instr(op, 0)] && at == |old(code)|
    {
      at := Here();
      Emit(Instr(op, 0));
    }

    method Patch(at: nat, target: nat)
      requires at < |code|
      modifies this`code
      ensures code == old(code)[at := Instr(old(code)[at].op, target)]
    {
      code := code[at := code[at].(operand := target)];
    }

    method PatchEach(ats: seq<nat>, target: nat)
      requires forall at :: at in ats ==> at < |code|
      modifies this`code
      ensures code == PatchAll(old(code), ats, target)
    {
      var i := 0;
      while i < |ats|
        invariant 0 <= i <= |ats| && forall at :: at in ats ==> at < |code|
        invariant forall at :: at in ats[i..] ==> at in ats
        invariant PatchAll(code, ats[i..], target) == PatchAll(old(code), ats, target)
      {
        assert ats[i] in ats && ats[i..][1..] == ats[i + 1..];
        Patch(ats[i], target);
        i := i + 1;
      }
    }

    // ----- constants and names -----

    method LoadStr(s: string, op: Opcode)
      requires Valid()
      modifies this`code, pool
      ensures Valid()
      ensures var r := InternConst(Str(s), old(Tabs()));
              code == old(code) + [Instr(op, r.index)] && Tabs() == r.tabs
    {
      var i := pool.InternStr(s);
      InternUnique(Str(s), old(Tabs()), pool.items, i);
      Emit(Instr(op, i));
    }

    method InternOne() returns (i: nat)
      requires Valid()
      modifies pool
      ensures Valid()
      ensures InternConst(Integer(1), old(Tabs())) == Interned(i, Tabs())
    {
      i := pool.InternInt(1);
      InternUnique(Integer(1), old(Tabs()), pool.items, i);
    }

    method CompileLit(l: Literal)
      requires Valid()
      modifies this`code, pool
      ensures Valid()
      ensures var g := LoadLit(l, old(Tabs())); code == old(code) + g.code && Tabs() == g.tabs
    {
      match l
      case NullLit => Emit(Bare(LdaNull));
      case BoolLit(b) => Emit(Bare(if b then LdaTrue else LdaFalse));
      case IntLit(n) =>
        var i := pool.InternInt(n);
        InternUnique(Integer(n), old(Tabs()), pool.items, i);
        Emit(Instr(LdaConst, i));
      case StrLit(s) => LoadStr(s, LdaConst);
    }

    method LoadIdent(name: string)
      requires Valid()
      modifies this`code, pool
      ensures Valid()
      ensures var g := GenLoad(name, old(Tabs()), scope); code == old(code) + g.code && Tabs() == g.tabs
    {
      hide Valid;
      if name == "undefined" {
        Emit(Bare(LdaUndefined));
        return;
      }
      match Resolve(scope, name)
      case Local(slot) => Emit(Instr(LdaLocal, slot));
      case Upvalue(i) => Emit(Instr(LdaUpvalue, i));
      case Global(_) => LoadStr(name, GetGlobal);
    }

    method StoreIdent(name: string)
      requires Valid()
      modifies this`code, pool
      ensures Valid()
      ensures var g := GenStore(name, old(Tabs()), scope); code == old(code) + g.code && Tabs() == g.tabs
    {
      hide Valid;
      match Resolve(scope, name)
      case Local(slot) => Emit(Instr(StaLocal, slot));
      case Upvalue(i) => Emit(Instr(StaUpvalue, i));
      case Global(_) => LoadStr(name, SetGlobal);
    }

    method EmitBinop(op: BinOp)
      modifies this`code
      ensures code == old(code) + BinaryCode(op)
    {
      match op
      case NotEq =>
        Emit(Bare(BinaryOp(Eq)));
        Emit(Bare(UnaryOp(Not)));
      case StrictNotEq =>
        Emit(Bare(BinaryOp(StrictEq)));
        Emit(Bare(UnaryOp(Not)));
      case _ => Emit(Bare(BinaryOp(op)));
    }

    // ----- expressions -----

    ghost predicate Emitted(was: seq<Instr>, g: Code)
      reads this`code, pool, locals
    {
      Valid() && code == was + g.code && Tabs() == g.tabs
    }

    method CompileExpr(e: Expr)
      requires Valid() && |code| + LenExpr(e, scope) < ADDRESSES
      modifies this`code, pool, locals
      ensures Emitted(old(code), GenExpr(e, |old(code)|, old(Tabs()), scope))
      decreases e, 4
    {
      hide Valid, GenUnary, GenBinary, GenLogical, GenConditional, GenSequence, GenUpdate, GenMember, GenOptional;
      hide GenAssignName, GenAssignMember, GenCompound, GenLogicalAssign, LoadLit, GenLoad;
      match e
      case Lit(l) => CompileLit(l);
      case Ident(name) => LoadIdent(name);
      case Paren(inner) => CompileExpr(inner);
      case Unary(_, _) => CompileUnary(e);
      case Binary(_, _, _) => CompileBinary(e);
      case LogicalExpr(_, _, _) => CompileLogical(e);
      case Conditional(_, _, _) => CompileConditional(e);
      case Sequence(es) => CompileSequence(es, e);
      case AssignExpr(_, _, _) => CompileAssign(e);
      case Update(_, _, _) => CompileUpdate(e);
      case Member(_, _, _) =>
        if HasOptional(e) {
          CompileOptionalMemberChain(e);
        } else {
          CompileMember(e);
        }
    }

    method CompileUnary(e: Expr)
      requires e.Unary? && Valid() && |code| + LenExpr(e, scope) < ADDRESSES
      modifies this`code, pool, locals
      ensures Emitted(old(code), GenUnary(e, |old(code)|, old(Tabs()), scope))
      decreases e, 0
    {
      hide Valid, GenExpr;
      if e.unop == Typeof && IsGlobalName(e.arg, scope) {
        LoadStr(e.arg.name, TypeofGlobal);
      } else {
        CompileExpr(e.arg);
        Emit(Bare(UnaryOp(e.unop)));
      }
    }

    method CompileBinary(e: Expr)
      requires e.Binary? && Valid() && |code| + LenExpr(e, scope) < ADDRESSES
      modifies this`code, pool, locals
      ensures Emitted(old(code), GenBinary(e, |old(code)|, old(Tabs()), scope))
      decreases e, 0
    {
      hide Valid, GenExpr;
      ExprLength(e.left, |code|, Tabs(), scope);
      CompileExpr(e.left);
      CompileExpr(e.right);
      EmitBinop(e.binop);
    }

    method CompileLogical(e: Expr)
      requires e.LogicalExpr? && Valid() && |code| + LenExpr(e, scope) < ADDRESSES
      modifies this`code, pool, locals
      ensures Emitted(old(code), GenLogical(e, |old(code)|, old(Tabs()), scope))
      decreases e, 1
    {
      hide Valid, GenExpr, LenExpr, Here;
      LogicalSize(e, scope);
      ghost var l := GenExpr(e.left, |code|, Tabs(), scope);
      ghost var right := GenExpr(e.right, |code| + |l.code| + ShortCircuitSize(e.logop), l.tabs, scope);
      ExprLength(e.left, |code|, Tabs(), scope);
      CompileExpr(e.left);
      CompileRightOperand(e.logop, e.right, e);
      Assoc3(old(code), l.code, ShortCircuit(e.logop, |old(code)| + |l.code| + 3, |code|), right.code);
    }

    /** Keep a copy of the value on the stack and drop it where the right
        operand is wanted; the jump past that operand is left open. */
    method OpenShortCircuit(op: LogicalOp) returns (jump: nat)
      requires Valid() && |code| + ShortCircuitSize(op) < ADDRESSES
      modifies this`code
      ensures code == old(code) + ShortCircuit(op, |old(code)| + 3, 0) && jump == |old(code)| + JumpOffset(op)
    {
      hide Valid;
      ghost var a := code;
      Emit(Bare(Dup));
      if op == NullishCoal {
        var rhs := EmitPlaceholder(JumpIfNullish);
        jump := EmitPlaceholder(Jump);
        Patch(rhs, Here());
        assert code == a + [Bare(Dup), Instr(JumpIfNullish, |a| + 3), Instr(Jump, 0)];
      } else {
        jump := EmitPlaceholder(if op == And then JumpIfFalse else JumpIfTrue);
      }
      Emit(Bare(Pop));
    }

    method CompileRightOperand(op: LogicalOp, right: Expr, ghost owner: Expr)
      requires right < owner && Valid() && |code| + ShortCircuitSize(op) + LenExpr(right, scope) < ADDRESSES
      modifies this`code, pool, locals
      ensures var start := |old(code)| + ShortCircuitSize(op);
              var r := GenExpr(right, start, old(Tabs()), scope);
              && Valid() && Tabs() == r.tabs
              && code == old(code) + ShortCircuit(op, |old(code)| + 3, start + |r.code|) + r.code
      decreases owner, 0
    {
      hide Valid, GenExpr, LenExpr, Here, ShortCircuit;
      ghost var a, r := code, GenExpr(right, |code| + ShortCircuitSize(op), Tabs(), scope);
      ExprLength(right, |code| + ShortCircuitSize(op), Tabs(), scope);
      var jump := OpenShortCircuit(op);
      CompileExpr(right);
      ShortCircuitPatched(a, op, |a| + 3, |code|, r.code);
      Patch(jump, Here());
    }

    method CompileConditional(e: Expr)
      requires e.Conditional? && Valid() && |code| + LenExpr(e, scope) < ADDRESSES
      modifies this`code, pool, locals
      ensures Emitted(old(code), GenConditional(e, |old(code)|, old(Tabs()), scope))
      decreases e, 2
    {
      hide Valid, GenExpr, LenExpr, GenArms, GenConditional;
      ConditionalSize(e, scope);
      ConditionalArms(e, |code|, Tabs(), scope);
      ExprLength(e.test, |code|, Tabs(), scope);
      ghost var t := GenExpr(e.test, |code|, Tabs(), scope);
      CompileExpr(e.test);
      ghost var g := GenArms(e.cons, e.alt, |code|, Tabs(), scope);
      CompileArms(e);
      Assoc2(old(code), t.code, g.code);
    }

    /** Both branches of a conditional and the jumps around them. */
    method CompileArms(e: Expr)
      requires e.Conditional? && Valid() && |code| + LenExpr(e.cons, scope) + 2 + LenExpr(e.alt, scope) < ADDRESSES
      modifies this`code, pool, locals
      ensures Emitted(old(code), GenArms(e.cons, e.alt, |old(code)|, old(Tabs()), scope))
      decreases e, 1
    {
      hide Valid, GenExpr, LenExpr, Here;
      ghost var c := GenExpr(e.cons, |code| + 1, Tabs(), scope);
      ghost var mid := |code| + 1 + |c.code| + 1;
      ghost var a := GenExpr(e.alt, mid, c.tabs, scope);
      ExprLength(e.cons, |code| + 1, Tabs(), scope);
      ExprLength(e.alt, mid, c.tabs, scope);
      CompileChosen(e.cons, e);
      var jump := |code| - 1;
      CompileExpr(e.alt);
      BranchesPatched(old(code), mid, c.code, a.code, |code|);
      Patch(jump, Here());
    }

    /** The operand for a true test, up to the open jump over the other one. */
    method CompileChosen(e: Expr, ghost owner: Expr)
      requires e < owner && Valid() && |code| + LenExpr(e, scope) + 2 < ADDRESSES
      modifies this`code, pool, locals
      ensures var c := GenExpr(e, |old(code)| + 1, old(Tabs()), scope);
              && Valid() && Tabs() == c.tabs
              && code == old(code) + [Instr(JumpIfFalse, |old(code)| + |c.code| + 2)] + c.code + [Instr(Jump, 0)]
      decreases owner, 0
    {
      hide Valid, GenExpr, LenExpr, Here;
      ghost var a, c := code, GenExpr(e, |code| + 1, Tabs(), scope);
      ExprLength(e, |code| + 1, Tabs(), scope);
      var test := EmitPlaceholder(JumpIfFalse);
      CompileExpr(e);
      var jump := EmitPlaceholder(Jump);
      Patch2(a, JumpIfFalse, |code|, c.code, [Instr(Jump, 0)]);
      Patch(test, Here());
    }

    method CompileSequence(es: ExprList, ghost owner: Expr)
      requires owner == Sequence(es)
      requires Valid() && |code| + LenSequence(es, scope) < ADDRESSES
      modifies this`code, pool, locals
      ensures Emitted(old(code), GenSequence(es, |old(code)|, old(Tabs()), scope))
      decreases owner, 0
    {
      hide Valid, GenExpr, LenExpr;
      if es.ENil? {
        Emit(Bare(LdaUndefined));
        return;
      }
      ghost var all := GenSequence(es, |code|, Tabs(), scope);
      var rest := es;
      while !rest.tail.ENil?
        invariant rest.ECons? && (rest == es || rest < es) && |code| + LenSequence(rest, scope) < ADDRESSES
        invariant Valid() && loops == old(loops) && labels == old(labels) && errors == old(errors)
        invariant code + GenSequence(rest, |code|, Tabs(), scope).code == old(code) + all.code
        invariant GenSequence(rest, |code|, Tabs(), scope).tabs == all.tabs
        decreases rest
      {
        SequenceNext(rest, code, Tabs(), scope);
        ExprLength(rest.head, |code|, Tabs(), scope);
        CompileExpr(rest.head);
        Emit(Bare(Pop));
        rest := rest.tail;
      }
      CompileExpr(rest.head);
    }

    method CompileKey(p: Property, ghost owner: Expr)
      requires p.Computed? ==> p.key < owner
      requires Valid() && |code| + LenProperty(p, scope) < ADDRESSES
      modifies this`code, pool, locals
      ensures Emitted(old(code), GenProperty(p, |old(code)|, old(Tabs()), scope))
      decreases owner, 0
    {
      hide Valid;
      match p
      case Named(name) => LoadStr(name, LdaConst);
      case Computed(key) => CompileExpr(key);
    }

    method CompileMember(e: Expr)
      requires e.Member? && !HasOptional(e) && Valid() && |code| + LenExpr(e, scope) < ADDRESSES
      modifies this`code, pool, locals
      ensures Emitted(old(code), GenMember(e, |old(code)|, old(Tabs()), scope))
      decreases e, 1
    {
      hide Valid, GenExpr, GenProperty;
      ExprLength(e.obj, |code|, Tabs(), scope);
      CompileExpr(e.obj);
      CompileKey(e.prop, e);
      Emit(Bare(GetProp));
    }

    // ----- assignments -----

    method FreshTemp(name: LocalName) returns (slot: nat)
      requires Valid()
      modifies locals
      ensures Valid() && InternLocal(name, old(Tabs())) == Interned(slot, Tabs())
    {
      slot := locals.Intern(name);
      assert InternLocal(name, Tables(pool.items, old(locals.byName), old(locals.count)))
          == Interned(slot, Tables(pool.items, locals.byName, locals.count));
    }

    method PrepareTarget(t: Target, ghost owner: Expr) returns (prepared: Prepared)
      requires t.MemberTarget? ==> t.obj < owner && (t.prop.Computed? ==> t.prop.key < owner)
      requires Valid() && |code| + LenTarget(t, scope) < ADDRESSES
      modifies this`code, pool, locals
      ensures var g := GenPrepare(t, |old(code)|, old(Tabs()), scope);
              Emitted(old(code), Code(g.code, g.tabs)) && prepared == g.prepared
      decreases owner, 2, 0
    {
      hide Valid, GenExpr, GenProperty, InternLocal, LenExpr, LenProperty;
      match t
      case IdentTarget(name) => prepared := PreparedName(name);
      case MemberTarget(obj, prop) =>
        ghost var o := GenExpr(obj, |code|, InternLocal(RefObject(locals.count), Tabs()).tabs, scope);
        ExprLength(obj, |code|, InternLocal(RefObject(locals.count), Tabs()).tabs, scope);
        var objSlot := FreshTemp(RefObject(locals.count));
        CompileExpr(obj);
        Emit(Instr(StaLocal, objSlot));
        var keySlot := FreshTemp(RefKey(locals.count));
        ghost var k := GenProperty(prop, |code|, Tabs(), scope);
        CompileKey(prop, owner);
        Emit(Instr(StaLocal, keySlot));
        Assoc4(old(code), o.code, [Instr(StaLocal, objSlot)], k.code, [Instr(StaLocal, keySlot)]);
        prepared := PreparedSlots(objSlot, keySlot);
    }

    method LoadPrepared(p: Prepared)
      requires Valid()
      modifies this`code, pool
      ensures Emitted(old(code), GenLoadPrepared(p, old(Tabs()), scope))
    {
      hide Valid;
      match p
      case PreparedName(name) => LoadIdent(name);
      case PreparedSlots(obj, key) =>
        Emit(Instr(LdaLocal, obj));
        Emit(Instr(LdaLocal, key));
        Emit(Bare(GetProp));
    }

    method PutPrepared(p: Prepared)
      requires Valid()
      modifies this`code, pool
      ensures Emitted(old(code), GenPutPrepared(p, old(Tabs()), scope))
    {
      hide Valid;
      match p
      case PreparedName(name) => StoreIdent(name);
      case PreparedSlots(obj, key) =>
        Emit(Instr(LdaLocal, obj));
        Emit(Instr(LdaLocal, key));
        Emit(Bare(SetProp));
    }

    method CompileAssign(e: Expr)
      requires e.AssignExpr? && Valid() && |code| + LenExpr(e, scope) < ADDRESSES
      modifies this`code, pool, locals
      ensures Emitted(old(code), GenExpr(e, |old(code)|, old(Tabs()), scope))
      decreases e, 3
    {
      hide Valid, GenAssignName, GenAssignMember, GenCompound, GenLogicalAssign;
      match e.asgop
      case Assign =>
        if e.target.IdentTarget? {
          CompileAssignName(e);
        } else {
          CompileAssignMember(e);
        }
      case Compound(_) => CompileCompound(e);
      case Logical(_) => CompileLogicalAssignment(e);
    }

    method CompileAssignName(e: Expr)
      requires e.AssignExpr? && e.asgop.Assign? && e.target.IdentTarget?
      requires Valid() && |code| + LenExpr(e, scope) < ADDRESSES
      modifies this`code, pool, locals
      ensures Emitted(old(code), GenAssignName(e, |old(code)|, old(Tabs()), scope))
      decreases e, 0
    {
      hide Valid, GenExpr, GenStore;
      CompileExpr(e.right);
      Emit(Bare(Dup));
      StoreIdent(e.target.name);
    }

    /** The right-hand side is emitted before the parts of the target. */
    method CompileAssignMember(e: Expr)
      requires e.AssignExpr? && e.asgop.Assign? && e.target.MemberTarget?
      requires Valid() && |code| + LenExpr(e, scope) < ADDRESSES
      modifies this`code, pool, locals
      ensures Emitted(old(code), GenAssignMember(e, |old(code)|, old(Tabs()), scope))
      decreases e, 1
    {
      hide Valid, GenExpr, GenProperty;
      ghost var r := GenExpr(e.right, |code|, Tabs(), scope);
      ExprLength(e.right, |code|, Tabs(), scope);
      ExprLength(e.target.obj, |code| + |r.code| + 1, r.tabs, scope);
      CompileExpr(e.right);
      Emit(Bare(Dup));
      ghost var o := GenExpr(e.target.obj, |code|, Tabs(), scope);
      CompileExpr(e.target.obj);
      ghost var k := GenProperty(e.target.prop, |code|, Tabs(), scope);
      CompileKey(e.target.prop, e);
      Emit(Bare(SetProp));
      Assoc5(old(code), r.code, [Bare(Dup)], o.code, k.code, [Bare(SetProp)]);
    }

    /** Prepare a target and load its value. */
    method LoadTarget(t: Target, ghost owner: Expr) returns (prepared: Prepared)
      requires t.MemberTarget? ==> t.obj < owner && (t.prop.Computed? ==> t.prop.key < owner)
      requires Valid() && |code| + LenTarget(t, scope) < ADDRESSES
      modifies this`code, pool, locals
      ensures var q := GenLoaded(t, |old(code)|, old(Tabs()), scope);
              Emitted(old(code), Code(q.code, q.tabs)) && prepared == q.prepared
      decreases owner, 2, 1
    {
      hide Valid, GenPrepare, GenLoadPrepared;
      ghost var p := GenPrepare(t, |code|, Tabs(), scope);
      prepared := PrepareTarget(t, owner);
      ghost var l := GenLoadPrepared(prepared, Tabs(), scope);
      LoadPrepared(prepared);
      Assoc2(old(code), p.code, l.code);
    }

    method CompileCompound(e: Expr)
      requires e.AssignExpr? && e.asgop.Compound? && Valid() && |code| + LenExpr(e, scope) < ADDRESSES
      modifies this`code, pool, locals
      ensures Emitted(old(code), GenCompound(e, |old(code)|, old(Tabs()), scope))
      decreases e, 2, 2
    {
      hide Valid, GenExpr, GenLoaded, CombinedStore, GenCompound, LenExpr, LenTarget, BinaryCode, PreparedLen;
      CompoundSize(e, scope);
      CombinedStoreTail(e, |code|, Tabs(), scope);
      LoadedSize(e.target, |code|, Tabs(), scope);
      ghost var q := GenLoaded(e.target, |code|, Tabs(), scope);
      var prepared := LoadTarget(e.target, e);
      ghost var g := CombinedStore(e.asgop.op, e.right, prepared, |code|, Tabs(), scope);
      CombineAndStore(e, prepared);
      Assoc2(old(code), q.code, g.code);
    }

    /** The part of a compound assignment after its target has been loaded. */
    method CombineAndStore(e: Expr, prepared: Prepared)
      requires e.AssignExpr? && e.asgop.Compound? && Valid() && |code| + LenExpr(e.right, scope) < ADDRESSES
      modifies this`code, pool, locals
      ensures Emitted(old(code), CombinedStore(e.asgop.op, e.right, prepared, |old(code)|, old(Tabs()), scope))
      decreases e, 1
    {
      hide Valid, GenExpr, GenPutPrepared, BinaryCode;
      ghost var r := GenExpr(e.right, |code|, Tabs(), scope);
      CompileExpr(e.right);
      EmitBinop(e.asgop.op);
      Emit(Bare(Dup));
      ghost var s := GenPutPrepared(prepared, Tabs(), scope);
      PutPrepared(prepared);
      Assoc2(old(code) + r.code, BinaryCode(e.asgop.op), [Bare(Dup)]);
      Assoc3(old(code), r.code, BinaryCode(e.asgop.op) + [Bare(Dup)], s.code);
    }

    method CompileLogicalAssignment(e: Expr)
      requires e.AssignExpr? && e.asgop.Logical? && Valid() && |code| + LenExpr(e, scope) < ADDRESSES
      modifies this`code, pool, locals
      ensures Emitted(old(code), GenLogicalAssign(e, |old(code)|, old(Tabs()), scope))
      decreases e, 2, 2
    {
      hide Valid, GenExpr, GenLoaded, GuardedStore, GenLogicalAssign, LenExpr, LenTarget, PreparedLen, ShortCircuitSize;
      LogicalAssignSize(e, scope);
      GuardedStoreTail(e, |code|, Tabs(), scope);
      LoadedSize(e.target, |code|, Tabs(), scope);
      ghost var q := GenLoaded(e.target, |code|, Tabs(), scope);
      var prepared := LoadTarget(e.target, e);
      ghost var g := GuardedStore(e.asgop.logical, e.right, prepared, |code|, Tabs(), scope);
      StoreUnlessShort(e, prepared);
      Assoc2(old(code), q.code, g.code);
    }

    /** The part of a logical assignment after its target has been loaded. */
    method StoreUnlessShort(e: Expr, prepared: Prepared)
      requires e.AssignExpr? && e.asgop.Logical? && Valid()
      requires |code| + ShortCircuitSize(e.asgop.logical) + LenExpr(e.right, scope) + 1 + PreparedLen(prepared)
               < ADDRESSES
      modifies this`code, pool, locals
      ensures Emitted(old(code), GuardedStore(e.asgop.logical, e.right, prepared, |old(code)|, old(Tabs()), scope))
      decreases e, 2, 0
    {
      hide Valid, GenExpr, GenPutPrepared, LenExpr, Here, ShortCircuit;
      var op := e.asgop.logical;
      ghost var r := GenExpr(e.right, |code| + ShortCircuitSize(op), Tabs(), scope);
      ghost var s := GenPutPrepared(prepared, r.tabs, scope);
      ExprLength(e.right, |code| + ShortCircuitSize(op), Tabs(), scope);
      PreparedSize(prepared, r.tabs, scope);
      ghost var a, tail := code, r.code + ([Bare(Dup)] + s.code);
      var jump := OpenShortCircuit(op);
      StoreRight(e, prepared);
      ShortCircuitPatched(a, op, |a| + 3, |code|, tail);
      Patch(jump, Here());
      Assoc3Right(a, ShortCircuit(op, |a| + 3, |code|), r.code, [Bare(Dup)] + s.code);
    }

    /** The right-hand side, kept as the value of the assignment and stored. */
    method StoreRight(e: Expr, prepared: Prepared)
      requires e.AssignExpr? && Valid() && |code| + LenExpr(e.right, scope) < ADDRESSES
      modifies this`code, pool, locals
      ensures var r := GenExpr(e.right, |old(code)|, old(Tabs()), scope);
              var s := GenPutPrepared(prepared, r.tabs, scope);
              Emitted(old(code), Code(r.code + ([Bare(Dup)] + s.code), s.tabs))
      decreases e, 1
    {
      hide Valid, GenExpr, GenPutPrepared;
      ghost var r := GenExpr(e.right, |code|, Tabs(), scope);
      CompileExpr(e.right);
      Emit(Bare(Dup));
      ghost var s := GenPutPrepared(prepared, Tabs(), scope);
      PutPrepared(prepared);
      assert code == old(code) + r.code + [Bare(Dup)] + s.code;
      Assoc2(old(code) + r.code, [Bare(Dup)], s.code);
      Assoc2(old(code), r.code, [Bare(Dup)] + s.code);
    }

    method EmitDelta(op: UpdateOp, prefix: bool, one: nat)
      modifies this`code
      ensures code == old(code) + DeltaCode(op, prefix, one)
    {
      if !prefix {
        Emit(Bare(Dup));
      }
      Emit(Instr(LdaConst, one));
      Emit(Bare(BinaryOp(UpdateBinOp(op))));
      if prefix {
        Emit(Bare(Dup));
      }
    }

    method CompileUpdate(e: Expr)
      requires e.Update? && Valid() && |code| + LenExpr(e, scope) < ADDRESSES
      modifies this`code, pool, locals
      ensures Emitted(old(code), GenUpdate(e, |old(code)|, old(Tabs()), scope))
      decreases e, 3
    {
      hide Valid, GenPrepare, GenLoadPrepared, GenPutPrepared, InternConst, LenExpr, LenTarget, DeltaCode;
      UpdateSize(e, scope);
      var one := InternOne();
      ghost var q := GenLoaded(e.target, |code|, Tabs(), scope);
      var prepared := LoadTarget(e.target, e);
      EmitDelta(e.updop, e.prefix, one);
      ghost var s := GenPutPrepared(prepared, Tabs(), scope);
      PutPrepared(prepared);
      Assoc3(old(code), q.code, DeltaCode(e.updop, e.prefix, one), s.code);
    }

    // ----- optional chains -----

    /** The accesses of a member spine, outermost last. */
    method CollectMemberChain(e: Expr) returns (root: Expr, members: seq<Access>)
      ensures Chain(root, members) == e && !root.Member? && (members == [] ==> root == e)
      ensures e.Member? ==> root < e
      ensures forall i :: 0 <= i < |members| && members[i].prop.Computed? ==> members[i].prop.key < e
    {
      if e.Member? {
        root, members := CollectMemberChain(e.obj);
        members := members + [Access(e.prop, e.optional)];
      } else {
        root, members := e, [];
      }
    }

    method CompileOptionalMemberChain(e: Expr)
      requires e.Member? && Valid() && |code| + LenChain(e, scope) + 3 < ADDRESSES
      modifies this`code, pool, locals
      ensures Emitted(old(code), GenOptional(e, |old(code)|, old(Tabs()), scope))
      decreases e, 3
    {
      hide Valid, GenChain, ChainJumps, LenChain, LenExpr;
      ghost var T := Tabs();
      var root, members := CollectMemberChain(e);
      var jumps := CompileAccesses(e, root, members);
      ChainLength(e, |old(code)|, 0, T, scope);
      EmitChainExit(jumps, e, old(code), T);
    }

    /** The exit of a chain, to which all its nullish tests jump. */
    method EmitChainExit(jumps: seq<nat>, ghost e: Expr, ghost first: seq<Instr>, ghost T: Tables)
      requires e.Member? && |code| + 3 < ADDRESSES
      requires code == first + GenChain(e, |first|, 0, T, scope).code && jumps == ChainJumps(e, |first|, T, scope)
      modifies this`code
      ensures code == first + GenOptional(e, |first|, T, scope).code
      ensures GenOptional(e, |first|, T, scope).tabs == GenChain(e, |first|, 0, T, scope).tabs
    {
      hide Valid, GenChain, ChainJumps, LenChain, LenExpr, Here, PatchAll;
      ChainLength(e, |first|, 0, T, scope);
      var completed := EmitPlaceholder(Jump);
      var nullish := Here();
      ChainPatched(e, first, nullish, T, scope, [Instr(Jump, 0)]);
      PatchEach(jumps, nullish);
      Emit(Bare(Pop));
      Emit(Bare(LdaUndefined));
      ghost var c := GenChain(e, |first|, nullish, T, scope);
      ExitPatched(first + c.code, nullish);
      Patch(completed, Here());
      Assoc2(first, c.code, ChainExit(nullish));
    }

    method CompileAccess(m: Access, ghost owner: Expr) returns (jumps: seq<nat>)
      requires m.prop.Computed? ==> m.prop.key < owner
      requires Valid() && |code| + (if m.optional then 2 else 0) + LenProperty(m.prop, scope) < ADDRESSES
      modifies this`code, pool, locals
      ensures var test := NullishTest(m.optional, 0);
              var k := GenProperty(m.prop, |old(code)| + |test|, old(Tabs()), scope);
              Emitted(old(code), Code(test + k.code + [Bare(GetProp)], k.tabs))
      ensures jumps == if m.optional then [|old(code)| + 1] else []
      decreases owner, 1
    {
      hide Valid, GenProperty, LenProperty;
      jumps := [];
      if m.optional {
        Emit(Bare(Dup));
        var jump := EmitPlaceholder(JumpIfNullish);
        jumps := [jump];
      }
      CompileKey(m.prop, owner);
      Emit(Bare(GetProp));
    }

    /** Access number `i` of a chain of which those before have been emitted. */
    method CompileNextAccess(root: Expr, members: seq<Access>, i: nat, ghost owner: Expr, ghost first: seq<Instr>,
                             ghost T: Tables) returns (jumps: seq<nat>)
      requires Valid() && i < |members| && (members[i].prop.Computed? ==> members[i].prop.key < owner)
      requires |first| + LenChain(Chain(root, members), scope) < ADDRESSES
      requires Emitted(first, GenChain(Chain(root, members[..i]), |first|, 0, T, scope))
      modifies this`code, pool, locals
      ensures Emitted(first, GenChain(Chain(root, members[..i + 1]), |first|, 0, T, scope))
      ensures ChainJumps(Chain(root, members[..i + 1]), |first|, T, scope)
              == ChainJumps(Chain(root, members[..i]), |first|, T, scope) + jumps
      decreases owner, 2, 0
    {
      hide Valid, GenExpr, GenProperty, GenChain, ChainJumps, LenChain, Chain, LenExpr, LenProperty;
      ChainPrefixLength(root, members, i + 1, scope);
      ChainNext(root, members, i, |first|, T, scope);
      ChainLength(Chain(root, members[..i]), |first|, 0, T, scope);
      ghost var o := GenChain(Chain(root, members[..i]), |first|, 0, T, scope);
      ghost var test := NullishTest(members[i].optional, 0);
      ghost var k := GenProperty(members[i].prop, |code| + |test|, Tabs(), scope);
      jumps := CompileAccess(members[i], owner);
      Assoc4Right(first, o.code, test, k.code, [Bare(GetProp)]);
    }

    method CompileAccesses(e: Expr, root: Expr, members: seq<Access>) returns (jumps: seq<nat>)
      requires e.Member? && Valid() && |code| + LenChain(e, scope) < ADDRESSES
      requires Chain(root, members) == e && !root.Member? && root < e
      requires forall i :: 0 <= i < |members| && members[i].prop.Computed? ==> members[i].prop.key < e
      modifies this`code, pool, locals
      ensures Emitted(old(code), GenChain(e, |old(code)|, 0, old(Tabs()), scope))
      ensures jumps == ChainJumps(e, |old(code)|, old(Tabs()), scope)
      decreases e, 2, 1
    {
      hide Valid, GenExpr, GenChain, ChainJumps, LenChain, Chain, LenExpr;
      ghost var first, T := code, Tabs();
      ChainPrefixLength(root, members, 0, scope);
      ChainStart(root, |first|, T, scope);
      CompileExpr(root);
      jumps := [];
      var i := 0;
      while i < |members|
        invariant 0 <= i <= |members|
        invariant Emitted(first, GenChain(Chain(root, members[..i]), |first|, 0, T, scope))
        invariant jumps == ChainJumps(Chain(root, members[..i]), |first|, T, scope)
      {
        var more := CompileNextAccess(root, members, i, e, first, T);
        jumps := jumps + more;
        i := i + 1;
      }
      assert members[..i] == members;
    }

    // ----- frames of enclosing statements -----

    ghost function Shape(): (sh: StmtGen.Shape)
      reads this, pool, locals
      ensures |sh.loops| == |loops| && |sh.blocks| == |labels|
    {
      ShapeOf(Out())
    }

    method PushLoop(targetLabels: seq<string>, iteration: bool)
      modifies this`loops
      ensures loops == old(loops) + [LoopFrame([], [], targetLabels, iteration)]
    {
      loops := loops + [LoopFrame([], [], targetLabels, iteration)];
    }

    method PopLoop(breakTarget: nat, continueTarget: nat)
      requires |loops| > 0
      requires var f := loops[|loops| - 1]; forall at :: at in f.breaks || at in f.continues ==> at < |code|
      requires var f := loops[|loops| - 1]; |PatchAll(code, f.breaks, breakTarget)| == |code|
      modifies this`loops, this`code
      ensures loops == old(loops)[..|old(loops)| - 1]
      ensures var f := old(loops)[|old(loops)| - 1];
              code == PatchAll(PatchAll(old(code), f.breaks, breakTarget), f.continues, continueTarget)
    {
      var frame := loops[|loops| - 1];
      loops := loops[..|loops| - 1];
      PatchEach(frame.breaks, breakTarget);
      PatchEach(frame.continues, continueTarget);
    }

    method PushLabel(all: seq<string>)
      modifies this`labels
      ensures labels == old(labels) + [LabelFrame(all, [])]
    {
      labels := labels + [LabelFrame(all, [])];
    }

    method PopLabel(breakTarget: nat)
      requires |labels| > 0
      requires var f := labels[|labels| - 1]; forall at :: at in f.breaks ==> at < |code|
      modifies this`labels, this`code
      ensures labels == old(labels)[..|old(labels)| - 1]
      ensures code == PatchAll(old(code), old(labels)[|old(labels)| - 1].breaks, breakTarget)
    {
      var frame := labels[|labels| - 1];
      labels := labels[..|labels| - 1];
      PatchEach(frame.breaks, breakTarget);
    }

    method FindLabelledLoop(name: string) returns (r: Option<nat>)
      ensures r == LastLabelled(Shape().loops, name)
    {
      ghost var all := Shape().loops;
      var i := |loops|;
      assert all[..i] == all;
      while i > 0
        invariant 0 <= i <= |loops| && LastLabelled(all[..i], name) == LastLabelled(all, name)
      {
        assert all[..i][..i - 1] == all[..i - 1];
        i := i - 1;
        if name in loops[i].labels {
          return Some(i);
        }
      }
      return None;
    }

    method FindLabelledBlock(name: string) returns (r: Option<nat>)
      ensures r == LastBlock(Shape().blocks, name)
    {
      ghost var all := Shape().blocks;
      var i := |labels|;
      assert all[..i] == all;
      while i > 0
        invariant 0 <= i <= |labels| && LastBlock(all[..i], name) == LastBlock(all, name)
      {
        assert all[..i][..i - 1] == all[..i - 1];
        i := i - 1;
        if name in labels[i].labels {
          return Some(i);
        }
      }
      return None;
    }

    method FindIteration(l: Option<string>) returns (r: Option<nat>)
      ensures r == LastIteration(Shape().loops, l)
    {
      ghost var all := Shape().loops;
      var i := |loops|;
      assert all[..i] == all;
      while i > 0
        invariant 0 <= i <= |loops| && LastIteration(all[..i], l) == LastIteration(all, l)
      {
        assert all[..i][..i - 1] == all[..i - 1];
        i := i - 1;
        if loops[i].iteration && (l.None? || l.value in loops[i].labels) {
          return Some(i);
        }
      }
      return None;
    }

    /** Push a jump to be patched when the frame is popped. */
    method EmitJumpTo(slot: Slot, ghost err: JumpError)
      requires SlotIn(Shape(), slot) && |code| < ADDRESSES
      modifies this`code, this`loops, this`labels
      ensures Out() == Append(old(Out()), GenJump(Some(slot), |old(code)|, Unknown(old(Shape())), old(Tabs()), err))
    {
      JumpAppended(Out(), slot);
      var at := EmitPlaceholder(Jump);
      match slot
      case BreakLoop(i) => loops := loops[i := loops[i].(breaks := loops[i].breaks + [at])];
      case ContinueLoop(i) => loops := loops[i := loops[i].(continues := loops[i].continues + [at])];
      case ExitBlock(i) => labels := labels[i := labels[i].(breaks := labels[i].breaks + [at])];
    }

    method EmitBreak(l: Option<string>) returns (found: bool)
      requires |code| < ADDRESSES
      modifies this`code, this`loops, this`labels
      ensures found <==> FindBreak(old(Shape()), l).Some?
      ensures Out() == if found then Append(old(Out()), GenJump(FindBreak(old(Shape()), l), |old(code)|,
                                                               Unknown(old(Shape())), old(Tabs()), NoBreakTarget))
                       else old(Out())
    {
      FoundIn(Shape(), l);
      match l
      case None =>
        found := |loops| > 0;
        if found {
          EmitJumpTo(BreakLoop(|loops| - 1), NoBreakTarget);
        }
      case Some(name) =>
        var loop := FindLabelledLoop(name);
        if loop.Some? {
          EmitJumpTo(BreakLoop(loop.value), NoBreakTarget);
          return true;
        }
        var block := FindLabelledBlock(name);
        found := block.Some?;
        if found {
          EmitJumpTo(ExitBlock(block.value), NoBreakTarget);
        }
    }

    method EmitContinue(l: Option<string>) returns (found: bool)
      requires |code| < ADDRESSES
      modifies this`code, this`loops, this`labels
      ensures found <==> FindContinue(old(Shape()), l).Some?
      ensures Out() == if found then Append(old(Out()), GenJump(FindContinue(old(Shape()), l), |old(code)|,
                                                               Unknown(old(Shape())), old(Tabs()), NoContinueTarget))
                       else old(Out())
    {
      FoundIn(Shape(), l);
      var loop := FindIteration(l);
      found := loop.Some?;
      if found {
        EmitJumpTo(ContinueLoop(loop.value), NoContinueTarget);
      }
    }

    method CompileJump(s: Stmt)
      requires (s.Break? || s.Continue?) && Valid()
      requires |code| + LenStmt(s, [], Shape(), scope) < ADDRESSES
      modifies this`code, this`loops, this`labels, this`errors
      ensures Out() == Append(old(Out()), StmtAt(s, [], old(Out()), scope))
    {
      hide Valid;
      ghost var o := Out();
      AppendPlain(o, [], Tabs());
      if s.Break? {
        var found := EmitBreak(s.jumpLabel);
        if !found {
          errors := errors + [NoBreakTarget];
        }
      } else {
        var found := EmitContinue(s.jumpLabel);
        if !found {
          errors := errors + [NoContinueTarget];
        }
      }
    }

    // ----- statements -----

    ghost predicate Compiled(o: Output, g: Gen)
      reads this, pool, locals
    {
      Valid() && Out() == Append(o, g)
    }

    method CompileStmt(s: Stmt, targetLabels: seq<string>)
      requires Valid() && (targetLabels != [] ==> IsIteration(s))
      requires |code| + LenStmt(s, targetLabels, Shape(), scope) < ADDRESSES
      modifies this, pool, locals
      ensures Compiled(old(Out()), StmtAt(s, targetLabels, old(Out()), scope))
      decreases s, 6
    {
      hide Valid, GenExpr, GenIf, GenIfElse, GenWhile, GenDo, GenFor, GenSwitch, GenList, GenJump, GenLabeledBlock;
      hide Append;
      AppendPlain(Out(), [], Tabs());
      match s
      case Empty =>
      case Block(body) => CompileList(body);
      case ExprStmt(e) => CompileThen(e, Pop, s);
      case Return(None) => CompileReturn();
      case Return(Some(e)) => CompileThen(e, ReturnOp, s);
      case ThrowStmt(e) => CompileThen(e, ThrowOp, s);
      case If(_, _, None) => CompileIf(s);
      case If(_, _, Some(_)) => CompileIfElse(s);
      case While(_, _) => CompileWhile(s, targetLabels);
      case DoWhile(_, _) => CompileDo(s, targetLabels);
      case For(_, _, _, _) => CompileFor(s, targetLabels);
      case Switch(_, _) => CompileSwitch(s);
      case Break(_) => CompileJump(s);
      case Continue(_) => CompileJump(s);
      case Labeled(_, _) => CompileLabeled(s);
    }

    /** An expression and the instruction that takes its value. */
    method CompileThen(e: Expr, last: Opcode, ghost owner: Stmt)
      requires Valid() && |code| + LenExpr(e, scope) < ADDRESSES
      modifies this, pool, locals
      ensures var g := GenExpr(e, |old(code)|, old(Tabs()), scope);
              Compiled(old(Out()), Fixed(g.code + [Bare(last)], g.tabs))
    {
      hide Valid, GenExpr, Append;
      ghost var g := GenExpr(e, |code|, Tabs(), scope);
      AppendPlain(Out(), g.code + [Bare(last)], g.tabs);
      CompileExpr(e);
      Emit(Bare(last));
    }

    method CompileReturn()
      requires Valid()
      modifies this
      ensures Compiled(old(Out()), Fixed([Bare(LdaUndefined), Bare(ReturnOp)], old(Tabs())))
    {
      hide Valid, Append;
      AppendPlain(Out(), [Bare(LdaUndefined), Bare(ReturnOp)], Tabs());
      Emit(Bare(LdaUndefined));
      Emit(Bare(ReturnOp));
    }

    method CompileList(ss: StmtList)
      requires Valid() && |code| + LenList(ss, Shape(), scope) < ADDRESSES
      modifies this, pool, locals
      ensures Compiled(old(Out()), ListAt(ss, old(Out()), scope))
      decreases ss, 0
    {
      hide Valid, GenStmt, LenStmt, Append, ShapeOf;
      ghost var o := Out();
      var rest := ss;
      while rest.SCons?
        invariant (rest == ss || rest < ss) && Valid() && Shape() == ShapeOf(o)
        invariant |code| + LenList(rest, ShapeOf(o), scope) < ADDRESSES
        invariant Append(Out(), ListAt(rest, Out(), scope)) == Append(o, ListAt(ss, o, scope))
        decreases rest
      {
        ghost var before := Out();
        ghost var g := StmtAt(rest.head, [], before, scope);
        ListNext(before, rest.head, rest.tail, scope);
        StmtLength(rest.head, |code|, [], Shape(), Unknown(Shape()), Tabs(), scope);
        CompileStmt(rest.head, []);
        AppendShape(before, g);
        AppendCodeSize(before, g);
        rest := rest.tail;
      }
      AppendPlain(Out(), [], Tabs());
    }

    method CompileIf(s: Stmt)
      requires s.If? && s.alt.None? && Valid() && |code| + LenStmt(s, [], Shape(), scope) < ADDRESSES
      modifies this, pool, locals
      ensures Compiled(old(Out()), GenIf(s, |old(code)|, old(Shape()), Unknown(old(Shape())), old(Tabs()), scope))
      decreases s, 0
    {
      hide Valid, GenExpr, GenStmt, LenExpr, Append, ShapeOf, Here;
      ghost var o, t := Out(), GenExpr(s.test, |code|, Tabs(), scope);
      ExprLength(s.test, |code|, Tabs(), scope);
      ShapeCode(o, o.code + t.code + [Instr(JumpIfFalse, 0)], t.tabs);
      CompileExpr(s.test);
      var jump := EmitPlaceholder(JumpIfFalse);
      assert Out() == o.(code := o.code + t.code + [Instr(JumpIfFalse, 0)], tabs := t.tabs);
      ghost var c := StmtAt(s.cons, [], Out(), scope);
      StmtLength(s.cons, |code|, [], Shape(), Unknown(Shape()), Tabs(), scope);
      ghost var inside := Out();
      CompileStmt(s.cons, []);
      AppendCodeSize(inside, c);
      AppendPatched(o, t.code, JumpIfFalse, t.tabs, c, [], c.tabs, |code|);
      assert code + [] == code;
      Patch(jump, Here());
      assert t.code + [Instr(JumpIfFalse, |code|)] + c.code + [] == t.code + [Instr(JumpIfFalse, |code|)] + c.code;
    }

    method CompileIfElse(s: Stmt)
      requires s.If? && s.alt.Some? && Valid() && |code| + LenStmt(s, [], Shape(), scope) < ADDRESSES
      modifies this, pool, locals
      ensures Compiled(old(Out()), GenIfElse(s, |old(code)|, old(Shape()), Unknown(old(Shape())), old(Tabs()), scope))
      decreases s, 1
    {
      hide Valid, GenExpr, GenStmt, LenExpr, LenStmt, Append, ShapeOf, Here, Unknown;
      IfElseSize(s, Shape(), scope);
      ghost var o, t := Out(), GenExpr(s.test, |code|, Tabs(), scope);
      ghost var mid := |code| + |t.code| + 1 + LenStmt(s.cons, [], Shape(), scope) + 1;
      ghost var c := GenStmt(s.cons, |code| + |t.code| + 1, [], Shape(), Unknown(Shape()), t.tabs, scope);
      ghost var g := c.(code := t.code + [Instr(JumpIfFalse, mid)] + c.code + [Instr(Jump, 0)]);
      ExprLength(s.test, |code|, Tabs(), scope);
      StmtLength(s.cons, |code| + |t.code| + 1, [], Shape(), Unknown(Shape()), t.tabs, scope);
      CompileConsequent(s);
      AppendShape(o, g);
      AppendCodeSize(o, g);
      ghost var d := StmtAt(s.alt.value, [], Out(), scope);
      StmtLength(s.alt.value, |code|, [], Shape(), Unknown(Shape()), Tabs(), scope);
      ghost var inside := Out();
      var jump := |code| - 1;
      CompileStmt(s.alt.value, []);
      AppendCodeSize(inside, d);
      AppendBetween(o, g, Jump, d, |code|);
      Patch(jump, Here());
      assert g.code[..|g.code| - 1] == t.code + [Instr(JumpIfFalse, mid)] + c.code;
    }

    /** Test and first branch, up to the open jump over the second. */
    method CompileConsequent(s: Stmt)
      requires s.If? && s.alt.Some? && Valid() && |code| + LenStmt(s, [], Shape(), scope) < ADDRESSES
      modifies this, pool, locals
      ensures var t := GenExpr(s.test, |old(code)|, old(Tabs()), scope);
              var c := GenStmt(s.cons, |old(code)| + |t.code| + 1, [], old(Shape()), Unknown(old(Shape())), t.tabs,
                               scope);
              var mid := |old(code)| + |t.code| + 1 + LenStmt(s.cons, [], old(Shape()), scope) + 1;
              Compiled(old(Out()), c.(code := t.code + [Instr(JumpIfFalse, mid)] + c.code + [Instr(Jump, 0)]))
      decreases s, 0
    {
      hide Valid, GenExpr, GenStmt, LenExpr, LenStmt, Append, ShapeOf, Here, Unknown;
      IfElseSize(s, Shape(), scope);
      ghost var o, t := Out(), GenExpr(s.test, |code|, Tabs(), scope);
      ExprLength(s.test, |code|, Tabs(), scope);
      ShapeCode(o, o.code + t.code + [Instr(JumpIfFalse, 0)], t.tabs);
      CompileExpr(s.test);
      var test := EmitPlaceholder(JumpIfFalse);
      assert Out() == o.(code := o.code + t.code + [Instr(JumpIfFalse, 0)], tabs := t.tabs);
      ghost var c := StmtAt(s.cons, [], Out(), scope);
      StmtLength(s.cons, |code|, [], Shape(), Unknown(Shape()), Tabs(), scope);
      ghost var inside := Out();
      CompileStmt(s.cons, []);
      AppendCodeSize(inside, c);
      var jump := EmitPlaceholder(Jump);
      AppendPatched(o, t.code, JumpIfFalse, t.tabs, c, [Instr(Jump, 0)], c.tabs, |code|);
      Patch(test, Here());
    }

    method CompileWhile(s: Stmt, targetLabels: seq<string>)
      requires s.While? && Valid() && |code| + LenStmt(s, targetLabels, Shape(), scope) < ADDRESSES
      modifies this, pool, locals
      ensures Compiled(old(Out()), GenWhile(s, |old(code)|, targetLabels, old(Shape()), Unknown(old(Shape())),
                                            old(Tabs()),
                                            scope))
      decreases s, 1
    {
      hide Valid, GenExpr, GenStmt, LenExpr, Append, ShapeOf, Here, DropLoop, Unknown;
      ghost var o, t := Out(), GenExpr(s.test, |code|, Tabs(), scope);
      ghost var first := o.(code := o.code + t.code + [Instr(JumpIfFalse, 0)], tabs := t.tabs);
      ExprLength(s.test, |code|, Tabs(), scope);
      ShapeCode(o, first.code, t.tabs);
      var start := Here();
      CompileExpr(s.test);
      var jump := EmitPlaceholder(JumpIfFalse);
      assert Out() == first;
      var end := CompileWhileBody(s, targetLabels, start);
      ghost var p := BodyClosed(s.loopBody, first, targetLabels, end, start, scope);
      ghost var g := p.(holes := DropLoop(p.holes, |o.loops|));
      AppendPatched(o, t.code, JumpIfFalse, t.tabs, g, [Instr(Jump, start)], g.tabs, end);
      Patch(jump, end);
    }

    /** The body, the jump back and the end of the loop. */
    method CompileWhileBody(s: Stmt, targetLabels: seq<string>, start: nat) returns (end: nat)
      requires s.While? && Valid()
      requires |code| + LenStmt(s.loopBody, [], StmtGen.PushLoop(Shape(), targetLabels, true), scope) + 1 < ADDRESSES
      modifies this, pool, locals
      ensures end
              == |old(code)| + LenStmt(s.loopBody, [], StmtGen.PushLoop(old(Shape()), targetLabels, true), scope) + 1
      ensures var p := BodyClosed(s.loopBody, old(Out()), targetLabels, end, start, scope);
              && Valid()
              && Out() == AppendThen(old(Out()), p.(holes := DropLoop(p.holes, |old(loops)|)), [Instr(Jump, start)],
                                     p.tabs)
      decreases s, 0
    {
      hide Valid, GenStmt, LenStmt, Append, ShapeOf, Here, DropLoop, Unknown, PatchAll, Same, LoopSame;
      ghost var o := Out();
      ghost var inside := Opened(o, targetLabels, true);
      ghost var z := BodyOpen(s.loopBody, o, targetLabels, scope);
      BodyFacts(s.loopBody, o, targetLabels, 0, 0, scope);
      PushLoop(targetLabels, true);
      assert Out() == inside;
      CompileStmt(s.loopBody, []);
      AppendCodeSize(inside, z);
      Emit(Instr(Jump, start));
      end := Here();
      BodyFacts(s.loopBody, o, targetLabels, end, start, scope);
      LoopClosed(o, targetLabels, true, z, BodyClosed(s.loopBody, o, targetLabels, end, start, scope),
                 [Instr(Jump, start)], z.tabs, end, start);
      PopLoop(end, start);
    }

    method CompileDo(s: Stmt, targetLabels: seq<string>)
      requires s.DoWhile? && Valid() && |code| + LenStmt(s, targetLabels, Shape(), scope) < ADDRESSES
      modifies this, pool, locals
      ensures Compiled(old(Out()), GenDo(s, |old(code)|, targetLabels, old(Shape()), Unknown(old(Shape())), old(Tabs()),
                                         scope))
      decreases s, 0
    {
      hide Valid, GenStmt, GenExpr, LenExpr, LenStmt, Append, ShapeOf, Here, DropLoop, Unknown, PatchAll, Same;
      hide LoopSame;
      DoSize(s, targetLabels, Shape(), scope);
      ghost var o := Out();
      ghost var inside := Opened(o, targetLabels, true);
      ghost var z := BodyOpen(s.loopBody, o, targetLabels, scope);
      BodyFacts(s.loopBody, o, targetLabels, 0, 0, scope);
      var start := Here();
      PushLoop(targetLabels, true);
      assert Out() == inside;
      CompileStmt(s.loopBody, []);
      AppendCodeSize(inside, z);
      var test := Here();
      ghost var t := GenExpr(s.test, test, z.tabs, scope);
      ghost var last := t.code + [Instr(JumpIfTrue, start)];
      ExprLength(s.test, test, z.tabs, scope);
      CompileExpr(s.test);
      Emit(Instr(JumpIfTrue, start));
      assert code == Append(inside, z).code + last;
      var end := Here();
      BodyFacts(s.loopBody, o, targetLabels, end, test, scope);
      ghost var p := BodyClosed(s.loopBody, o, targetLabels, end, test, scope);
      LoopClosed(o, targetLabels, true, z, p, last, t.tabs, end, test);
      PopLoop(end, test);
      AppendAfter(o, p.(holes := DropLoop(p.holes, |o.loops|)), last, t.tabs);
      assert p.code + last == p.code + t.code + [Instr(JumpIfTrue, start)];
    }

    // ----- for -----

    /** A clause evaluated for its effect. */
    method CompileDiscarded(e: Option<Expr>, ghost owner: Stmt)
      requires Valid() && |code| + LenOptional(e, scope) < ADDRESSES
      modifies this`code, pool, locals
      ensures var g := GenClause(e, |old(code)|, old(Tabs()), scope);
              Emitted(old(code), Code(g.code + PopIf(e), g.tabs))
    {
      hide Valid, GenExpr, LenExpr;
      if e.Some? {
        CompileExpr(e.value);
        Emit(Bare(Pop));
      }
    }

    method CompileFor(s: Stmt, targetLabels: seq<string>)
      requires s.For? && Valid() && |code| + LenStmt(s, targetLabels, Shape(), scope) < ADDRESSES
      modifies this, pool, locals
      ensures Compiled(old(Out()), GenFor(s, |old(code)|, targetLabels, old(Shape()), Unknown(old(Shape())),
                                          old(Tabs()),
                                          scope))
      decreases s, 2
    {
      hide Valid, GenClause, GenForLoop, Append, ShapeOf, Unknown;
      ghost var o, i := Out(), GenClause(s.init, |code|, Tabs(), scope);
      ClauseRegular(s.init, |code|, Tabs(), scope, 0);
      ghost var first := o.(code := o.code + (i.code + PopIf(s.init)), tabs := i.tabs);
      ShapeCode(o, first.code, i.tabs);
      CompileDiscarded(s.init, s);
      assert Out() == first;
      ghost var l := GenForLoop(s, |code|, targetLabels, Shape(), Unknown(Shape()), Tabs(), scope);
      CompileForLoop(s, targetLabels);
      AppendFirst(o, i.code + PopIf(s.init), i.tabs, l);
    }

    /** A `for` statement after its initializer. */
    method CompileForLoop(s: Stmt, targetLabels: seq<string>)
      requires s.For? && Valid()
      requires |code| + LenOptional(s.cond, scope)
               + LenStmt(s.loopBody, [], StmtGen.PushLoop(Shape(), targetLabels, true), scope)
               + LenOptional(s.update, scope) + 1 < ADDRESSES
      modifies this, pool, locals
      ensures Compiled(old(Out()), GenForLoop(s, |old(code)|, targetLabels, old(Shape()), Unknown(old(Shape())),
                                              old(Tabs()),
                                              scope))
      decreases s, 1
    {
      hide Valid, GenClause, GenStmt, LenExpr, LenStmt, Append, ShapeOf, Here, DropLoop, Unknown;
      ghost var o, c := Out(), GenClause(s.cond, |code|, Tabs(), scope);
      ghost var first := o.(code := o.code + c.code + ExitIf(s.cond, 0), tabs := c.tabs);
      ClauseRegular(s.cond, |code|, Tabs(), scope, 0);
      ShapeCode(o, first.code, c.tabs);
      var start := Here();
      var jump := CompileExitTest(s.cond);
      assert Out() == first;
      var end, update := CompileForBody(s, targetLabels, start);
      ghost var p := BodyClosed(s.loopBody, first, targetLabels, end, update, scope);
      ghost var g := p.(holes := DropLoop(p.holes, |o.loops|));
      ghost var u := GenClause(s.update, update, p.tabs, scope);
      ghost var last := u.code + PopIf(s.update) + [Instr(Jump, start)];
      if s.cond.Some? {
        AppendPatched(o, c.code, JumpIfFalse, c.tabs, g, last, u.tabs, end);
        Patch(jump, end);
      } else {
        NoClause(start, old(Tabs()), scope);
        assert o.code + [] + [] == o.code;
        AppendAfter(o, g, last, u.tabs);
        assert c.code + ExitIf(s.cond, end) + g.code == g.code;
      }
      assert c.code + ExitIf(s.cond, end) + g.code + last
          == c.code + ExitIf(s.cond, end) + g.code + (u.code + PopIf(s.update)) + [Instr(Jump, start)];
    }

    method CompileExitTest(e: Option<Expr>) returns (jump: nat)
      requires Valid() && |code| + LenOptional(e, scope) < ADDRESSES
      modifies this`code, pool, locals
      ensures var c := GenClause(e, |old(code)|, old(Tabs()), scope);
              Emitted(old(code), Code(c.code + ExitIf(e, 0), c.tabs)) && (e.Some? ==> jump == |old(code)| + |c.code|)
    {
      hide Valid, GenExpr, LenExpr;
      jump := 0;
      if e.Some? {
        ExprLength(e.value, |code|, Tabs(), scope);
        CompileExpr(e.value);
        jump := EmitPlaceholder(JumpIfFalse);
      }
    }

    /** Body, update, the jump back and the end of the loop. */
    method CompileForBody(s: Stmt, targetLabels: seq<string>, start: nat) returns (end: nat, update: nat)
      requires s.For? && Valid()
      requires |code| + LenStmt(s.loopBody, [], StmtGen.PushLoop(Shape(), targetLabels, true), scope)
               + LenOptional(s.update, scope) + 1 < ADDRESSES
      modifies this, pool, locals
      ensures update == |old(code)| + LenStmt(s.loopBody, [], StmtGen.PushLoop(old(Shape()), targetLabels, true), scope)
      ensures end == update + LenOptional(s.update, scope) + 1
      ensures var p := BodyClosed(s.loopBody, old(Out()), targetLabels, end, update, scope);
              var u := GenClause(s.update, update, p.tabs, scope);
              && Valid()
              && Out() == AppendThen(old(Out()), p.(holes := DropLoop(p.holes, |old(loops)|)),
                                     u.code + PopIf(s.update) + [Instr(Jump, start)], u.tabs)
      decreases s, 0
    {
      hide Valid, GenStmt, LenStmt, LenExpr, GenClause, Append, ShapeOf, Here, DropLoop, Unknown, PatchAll, Same;
      hide LoopSame;
      ghost var o := Out();
      ghost var inside := Opened(o, targetLabels, true);
      ghost var z := BodyOpen(s.loopBody, o, targetLabels, scope);
      BodyFacts(s.loopBody, o, targetLabels, 0, 0, scope);
      PushLoop(targetLabels, true);
      assert Out() == inside;
      CompileStmt(s.loopBody, []);
      AppendCodeSize(inside, z);
      update := Here();
      ghost var u := GenClause(s.update, update, z.tabs, scope);
      ghost var last := u.code + PopIf(s.update) + [Instr(Jump, start)];
      ClauseRegular(s.update, update, z.tabs, scope, 0);
      CompileDiscarded(s.update, s);
      Emit(Instr(Jump, start));
      assert code == Append(inside, z).code + last;
      end := Here();
      BodyFacts(s.loopBody, o, targetLabels, end, update, scope);
      LoopClosed(o, targetLabels, true, z, BodyClosed(s.loopBody, o, targetLabels, end, update, scope), last, u.tabs,
                 end,
                 update);
      PopLoop(end, update);
    }

    // ----- labelled statements -----

    /** A chain of labels belongs to the loop it stands before, or to a frame
        of its own. */
    method CompileLabeled(s: Stmt)
      requires s.Labeled? && Valid() && |code| + LenStmt(s, [], Shape(), scope) < ADDRESSES
      modifies this, pool, locals
      ensures Compiled(old(Out()), StmtAt(s, [], old(Out()), scope))
      decreases s, 5
    {
      hide Valid, LenStmt, Append, ShapeOf, GenStmt;
      ghost var o := Out();
      var all := [s.name];
      var target := s.labeled;
      LabelChain(s, [], o, scope);
      assert [] + [s.name] == all;
      while target.Labeled?
        invariant target < s && |all| > 0 && Valid() && Out() == o
        invariant UnderLabels(target, all, o, scope) == StmtAt(s, [], o, scope)
        invariant LenUnder(target, all, ShapeOf(o), scope) == LenStmt(s, [], ShapeOf(o), scope)
        decreases target
      {
        LabelChain(target, all, o, scope);
        all := all + [target.name];
        target := target.labeled;
      }
      if IsIteration(target) {
        CompileStmt(target, all);
      } else {
        CompileLabeledBlock(target, all, s);
      }
    }

    method CompileLabeledBlock(body: Stmt, all: seq<string>, ghost owner: Stmt)
      requires body < owner && Valid()
      requires |code| + LenStmt(body, [], PushBlock(Shape(), all), scope) < ADDRESSES
      modifies this, pool, locals
      ensures Compiled(old(Out()), GenLabeledBlock(body, |old(code)|, all, old(Shape()), Unknown(old(Shape())),
                                                   old(Tabs()),
                                                   scope))
      decreases owner, 4
    {
      hide Valid, GenStmt, LenStmt, Append, ShapeOf, Here, DropBlock, Unknown, PatchAll, Same;
      ghost var o := Out();
      ghost var inside := Labelled(o, all);
      ghost var z := StmtAt(body, [], inside, scope);
      LabelledShape(o, all);
      BlockFacts(body, o, all, scope);
      PushLabel(all);
      assert Out() == inside;
      CompileStmt(body, []);
      AppendCodeSize(inside, z);
      var end := Here();
      ghost var p := GenStmt(body, |o.code|, [], PushBlock(ShapeOf(o), all), PushExit(Unknown(ShapeOf(o)), end), o.tabs,
                             scope);
      BlockClosed(o, all, z, p, end);
      PopLabel(end);
    }

    // ----- switch -----

    /** Comparisons in source order; the last `default` is remembered. */
    method CompileTests(cases: CaseList, tmp: nat, ghost owner: Stmt) returns (jumps: seq<CaseJump>, dflt: Option<nat>)
      requires cases < owner && Valid() && |code| + LenTests(cases, scope) < ADDRESSES
      modifies this`code, pool, locals
      ensures Emitted(old(code), TestsOpen(cases, |old(code)|, tmp, old(Tabs()), scope))
      ensures jumps == TestJumps(cases, 0, |old(code)|, old(Tabs()), scope) && dflt == DefaultIndex(cases, 0)
      decreases owner, 0
    {
      hide Valid, GenExpr, LenExpr, TestJumps;
      ghost var open := TestsOpen(cases, |code|, tmp, Tabs(), scope);
      ghost var all := TestJumps(cases, 0, |code|, Tabs(), scope);
      jumps, dflt := [], None;
      var rest, i := cases, 0;
      while rest.CCons?
        invariant (rest == cases || rest < cases) && Valid() && |code| + LenTests(rest, scope) < ADDRESSES
        invariant code + TestsOpen(rest, |code|, tmp, Tabs(), scope).code == old(code) + open.code
        invariant TestsOpen(rest, |code|, tmp, Tabs(), scope).tabs == open.tabs
        invariant jumps + TestJumps(rest, i, |code|, Tabs(), scope) == all
        invariant LaterDefault(rest, i, dflt) == DefaultIndex(cases, 0)
        decreases rest
      {
        match rest.head.test {
          case Some(e) =>
            var jump := CompileTest(rest.head, rest.tail, i, tmp, e);
            jumps := jumps + [CaseJump(i, jump)];
          case None =>
            NoTestJump(rest, i, |code|, Tabs(), scope);
            dflt := Some(i);
        }
        i := i + 1;
        rest := rest.tail;
      }
      NoTestJump(rest, i, |code|, Tabs(), scope);
    }

    method CompileTest(c: Case, ghost tail: CaseList, ghost i: nat, tmp: nat, e: Expr) returns (jump: nat)
      requires c.test == Some(e) && Valid() && |code| + LenExpr(e, scope) + 3 < ADDRESSES
      modifies this`code, pool, locals
      ensures Valid() && jump == |code| - 1
      ensures code + TestsOpen(tail, |code|, tmp, Tabs(), scope).code
              == old(code) + TestsOpen(CCons(c, tail), |old(code)|, tmp, old(Tabs()), scope).code
      ensures TestsOpen(tail, |code|, tmp, Tabs(), scope).tabs
              == TestsOpen(CCons(c, tail), |old(code)|, tmp, old(Tabs()), scope).tabs
      ensures TestJumps(CCons(c, tail), i, |old(code)|, old(Tabs()), scope)
              == [CaseJump(i, jump)] + TestJumps(tail, i + 1, |code|, Tabs(), scope)
      ensures |code| == |old(code)| + LenExpr(e, scope) + 3
      decreases c, 5
    {
      hide Valid, GenExpr, LenExpr, TestsOpen, TestJumps;
      TestsNext(code, c, tail, i, tmp, Tabs(), scope);
      ExprLength(e, |code| + 1, Tabs(), scope);
      ghost var t := GenExpr(e, |code| + 1, Tabs(), scope);
      Emit(Instr(LdaLocal, tmp));
      CompileExpr(e);
      Emit(Bare(BinaryOp(StrictEq)));
      jump := EmitPlaceholder(JumpIfTrue);
      assert code == old(code) + TestHead(tmp, t.code) + [Instr(JumpIfTrue, 0)];
    }

    method CompileBodies(cases: CaseList, ghost owner: Stmt) returns (starts: seq<nat>)
      requires cases < owner && Valid() && |code| + LenBodies(cases, Shape(), scope) < ADDRESSES
      modifies this, pool, locals
      ensures Compiled(old(Out()), BodiesAt(cases, old(Out()), scope))
      ensures StartsAt(starts, 0, cases, |old(code)|, old(Shape()), scope)
      decreases owner, 0
    {
      hide Valid, GenList, LenList, CaseCount, Append, ShapeOf, Here, GenBodies, LenBodies, StartsSoFar, StartsAt;
      hide Unknown;
      ghost var o := Out();
      starts := [];
      var rest := cases;
      SoFarStart(cases, |code|, ShapeOf(o), scope);
      while rest.CCons?
        invariant (rest == cases || rest < cases) && Valid() && Shape() == ShapeOf(o)
        invariant |code| + LenBodies(rest, ShapeOf(o), scope) < ADDRESSES
        invariant Append(Out(), BodiesAt(rest, Out(), scope)) == Append(o, BodiesAt(cases, o, scope))
        invariant StartsSoFar(starts, rest, |code|, cases, |o.code|, ShapeOf(o), scope)
        decreases rest
      {
        ghost var before := Out();
        ghost var g := ListAt(rest.head.body, before, scope);
        BodiesSize(rest, ShapeOf(o), scope);
        BodiesNext(before, rest.head, rest.tail, scope);
        ListLength(rest.head.body, |code|, Shape(), Unknown(Shape()), Tabs(), scope);
        SoFarNext(starts, rest, |code|, cases, |o.code|, ShapeOf(o), scope);
        starts := starts + [Here()];
        CompileList(rest.head.body);
        AppendShape(before, g);
        AppendCodeSize(before, g);
        rest := rest.tail;
      }
      SoFarEnd(starts, |code|, cases, |o.code|, ShapeOf(o), scope);
      BodiesEnd(Out(), scope);
      AppendPlain(Out(), [], Tabs());
    }

    method PatchCaseJumps(jumps: seq<CaseJump>, starts: seq<nat>)
      requires JumpsIn(jumps, starts, |code|)
      modifies this`code
      ensures code == PatchCases(old(code), jumps, starts)
    {
      var i := 0;
      while i < |jumps|
        invariant 0 <= i <= |jumps| && |code| == |old(code)| && JumpsIn(jumps[i..], starts, |code|)
        invariant PatchCases(code, jumps[i..], starts) == PatchCases(old(code), jumps, starts)
      {
        assert jumps[i] in jumps[i..] && jumps[i..][1..] == jumps[i + 1..];
        assert forall j :: j in jumps[i + 1..] ==> j in jumps[i..];
        Patch(jumps[i].at, starts[jumps[i].index]);
        i := i + 1;
      }
    }

    method CompileSwitch(s: Stmt)
      requires s.Switch? && Valid() && |code| + LenStmt(s, [], Shape(), scope) < ADDRESSES
      modifies this, pool, locals
      ensures Compiled(old(Out()), GenSwitch(s, |old(code)|, old(Shape()), Unknown(old(Shape())), old(Tabs()), scope))
      decreases s, 2
    {
      hide Valid, GenExpr, LenExpr, GenTests, GenBodies, LenTests, LenBodies, Append, ShapeOf, Unknown, DropLoop;
      hide Here, InternLocal;
      ghost var o, d := Out(), GenExpr(s.disc, |code|, Tabs(), scope);
      ExprLength(s.disc, |code|, Tabs(), scope);
      CompileExpr(s.disc);
      var tmp := FreshTemp(SwitchDisc);
      Emit(Instr(StaLocal, tmp));
      ghost var first := o.(code := o.code + (d.code + [Instr(StaLocal, tmp)]), tabs := Tabs());
      assert Out() == first;
      ShapeCode(o, first.code, first.tabs);
      CompileCases(s, tmp);
      AppendSwitch(s, o, scope);
    }

    method CompileCases(s: Stmt, tmp: nat)
      requires s.Switch? && Valid()
      requires |code| + LenTests(s.cases, scope) + 1 + LenBodies(s.cases, StmtGen.PushLoop(Shape(), [], false), scope)
               < ADDRESSES
      modifies this, pool, locals
      ensures Compiled(old(Out()), CasesGen(s.cases, tmp, old(Out()), scope))
      decreases s, 1
    {
      hide Valid, GenTests, GenBodies, LenTests, LenBodies, Append, ShapeOf, Unknown, DropLoop, Here, TestsOpen;
      hide TestJumps, CasesGen;
      hide LoopSame, BodyStart, StartsAt;
      ghost var o, open := Out(), TestsOpen(s.cases, |code|, tmp, Tabs(), scope);
      ghost var tested := o.(code := o.code + open.code + [Instr(Jump, 0)], tabs := open.tabs);
      OpenLength(s.cases, |code|, tmp, Tabs(), scope);
      ShapeCode(o, tested.code, open.tabs);
      BodiesFacts(s.cases, tested, 0, scope);
      var jumps, dflt := CompileTests(s.cases, tmp, s);
      var jump := EmitPlaceholder(Jump);
      PushLoop([], false);
      assert Out() == Opened(tested, [], false);
      var starts := CompileBodies(s.cases, s);
      OpenedCode(tested, [], false, BodiesAt(s.cases, Opened(tested, [], false), scope));
      ClosePatches(s, tmp, o, jumps, jump, dflt, starts);
    }

    /** Resolve the jumps of a switch whose bodies have been compiled. */
    method ClosePatches(s: Stmt, ghost tmp: nat, ghost o: Output, jumps: seq<CaseJump>, jump: nat, dflt: Option<nat>,
                        starts: seq<nat>)
      requires s.Switch? && Valid() && |code| < ADDRESSES
      requires var open := TestsOpen(s.cases, |o.code|, tmp, o.tabs, scope);
               var tested := o.(code := o.code + open.code + [Instr(Jump, 0)], tabs := open.tabs);
               var inner := StmtGen.PushLoop(ShapeOf(o), [], false);
               && Out() == Append(Opened(tested, [], false), BodiesAt(s.cases, Opened(tested, [], false), scope))
               && jumps == TestJumps(s.cases, 0, |o.code|, o.tabs, scope) && jump == |tested.code| - 1
               && dflt == DefaultIndex(s.cases, 0) && StartsAt(starts, 0, s.cases, |tested.code|, inner, scope)
      modifies this`code, this`loops
      ensures Compiled(o, CasesGen(s.cases, tmp, o, scope))
    {
      hide Valid, GenTests, GenBodies, LenTests, LenBodies, Append, ShapeOf, Unknown, DropLoop, Here, TestsOpen;
      hide TestJumps;
      hide LoopSame, PatchCases, PatchAll, StartsAt, BodyStart, DefaultStart;
      ghost var inner := StmtGen.PushLoop(ShapeOf(o), [], false);
      ghost var open := TestsOpen(s.cases, |o.code|, tmp, o.tabs, scope);
      ghost var tested := o.(code := o.code + open.code + [Instr(Jump, 0)], tabs := open.tabs);
      ghost var z := BodiesAt(s.cases, Opened(tested, [], false), scope);
      ghost var c := GenTests(s.cases, |o.code|, tmp, |tested.code|, inner, o.tabs, scope);
      OpenLength(s.cases, |o.code|, tmp, o.tabs, scope);
      OpenedCode(tested, [], false, z);
      var end := Here();
      PatchTests(s.cases, tmp, o, jumps, jump, dflt, starts, end, z.code);
      ghost var last := c.code + [Instr(Jump, DefaultStart(s.cases, |tested.code|, end, inner, scope))];
      ghost var done := o.(code := o.code + last, tabs := c.tabs);
      ShapeCode(o, tested.code, open.tabs);
      ShapeCode(o, done.code, c.tabs);
      BodiesFacts(s.cases, done, end, scope);
      ghost var p := GenBodies(s.cases, |done.code|, inner, PushLoopTarget(Unknown(ShapeOf(o)), end, end), c.tabs,
                               scope);
      SameBodies(tested, done, s.cases, scope);
      OpenedCode(done, [], false, z);
      LoopClosed(done, [], false, z, p, [], z.tabs, end, end);
      assert code + [] == code && p.code + [] == p.code;
      PopLoop(end, end);
      AppendAfter(done, p.(holes := DropLoop(p.holes, |o.loops|)), [], z.tabs);
      AppendFirst(o, last, c.tabs, p.(holes := DropLoop(p.holes, |o.loops|)));
    }

    /** Resolve the case jumps and the jump behind the tests. */
    method PatchTests(cases: CaseList, ghost tmp: nat, ghost o: Output, jumps: seq<CaseJump>, jump: nat,
                      dflt: Option<nat>, starts: seq<nat>, end: nat, ghost tail: seq<Instr>)
      requires var open := TestsOpen(cases, |o.code|, tmp, o.tabs, scope);
               var inner := StmtGen.PushLoop(ShapeOf(o), [], false);
               && code == o.code + open.code + [Instr(Jump, 0)] + tail
               && jumps == TestJumps(cases, 0, |o.code|, o.tabs, scope) && jump == |o.code + open.code|
               && dflt == DefaultIndex(cases, 0) && StartsAt(starts, 0, cases, jump + 1, inner, scope)
      modifies this`code
      ensures var open := TestsOpen(cases, |o.code|, tmp, o.tabs, scope);
              var inner := StmtGen.PushLoop(ShapeOf(o), [], false);
              var c := GenTests(cases, |o.code|, tmp, jump + 1, inner, o.tabs, scope);
              && code == o.code + (c.code + [Instr(Jump, DefaultStart(cases, jump + 1, end, inner, scope))]) + tail
              && |c.code| == |open.code| && c.tabs == open.tabs
    {
      hide Valid, GenTests, LenTests, Append, ShapeOf, TestsOpen, TestJumps, PatchCases, StartsAt, BodyStart;
      hide DefaultStart;
      ghost var inner := StmtGen.PushLoop(ShapeOf(o), [], false);
      ghost var open := TestsOpen(cases, |o.code|, tmp, o.tabs, scope);
      ghost var c := GenTests(cases, |o.code|, tmp, jump + 1, inner, o.tabs, scope);
      TestsPatched(cases, 0, o.code, tmp, o.tabs, jump + 1, inner, scope, starts, [Instr(Jump, 0)] + tail);
      Assoc2(o.code + open.code, [Instr(Jump, 0)], tail);
      PatchCaseJumps(jumps, starts);
      StartsDefault(starts, cases, jump + 1, end, inner, scope);
      var target := if dflt.Some? then starts[dflt.value] else end;
      Assoc2(o.code + c.code, [Instr(Jump, 0)], tail);
      Patch1(o.code + c.code, Jump, target, tail);
      Patch(jump, target);
      Assoc2(o.code, c.code, [Instr(Jump, target)]);
    }

    // ----- whole functions -----

    /** The body of a function and its implicit return, among the frames of the
        enclosing functions. */
    method CompileFunction(body: StmtList)
      requires Valid() && code == [] && LenList(body, Shape(), scope) + 2 < ADDRESSES
      modifies this, pool, locals
      ensures var g := GenList(body, 0, old(Shape()), Unknown(old(Shape())), old(Tabs()), scope);
              Compiled(old(Out()), g.(code := g.code + [Bare(LdaUndefined), Bare(ReturnOp)]))
    {
      hide Valid, GenList, ShapeOf, Unknown;
      CompileList(body);
      Emit(Bare(LdaUndefined));
      Emit(Bare(ReturnOp));
    }

    /** A script: its statements at top level and the return of its value. */
    method CompileScript(body: StmtList)
      requires Valid() && code == [] && loops == [] && labels == [] && errors == []
      requires |GenScript(body, Tabs(), scope).code| < ADDRESSES
      modifies this, pool, locals
      ensures Valid() && loops == [] && labels == []
      ensures var g := GenScript(body, old(Tabs()), scope);
              code == g.code && Tabs() == g.tabs && errors == g.errs && g.holes == []
    {
      hide Valid, GenTop, Append;
      ghost var o := Out();
      var rest := body;
      while rest.SCons?
        invariant (rest == body || rest < body) && Valid() && loops == [] && labels == []
        invariant Append(Out(), TopAt(rest, Out(), scope)) == Append(o, TopAt(body, o, scope))
        invariant |code| + |TopAt(rest, Out(), scope).code| == |TopAt(body, o, scope).code|
        decreases rest
      {
        TopNext(Out(), rest.head, rest.tail, scope);
        CompileTop(rest.head, rest.tail);
        rest := rest.tail;
      }
      TopEnds(Out(), scope);
      AppendEmpty(o, TopAt(body, o, scope));
      TopNothingOpen(body, 0, o.tabs, scope);
      Emit(Bare(ReturnOp));
    }

    /** One top-level statement. */
    method CompileTop(s: Stmt, ghost tail: StmtList)
      requires Valid() && loops == [] && labels == []
      requires |code| + |TopAt(SCons(s, tail), Out(), scope).code| < ADDRESSES
      modifies this, pool, locals
      ensures Valid()
      ensures Out() == if s.ExprStmt? then AppendCode(old(Out()), GenExpr(s.expr, |old(code)|, old(Tabs()), scope))
                       else Append(old(Out()), StmtAt(s, [], old(Out()), scope))
    {
      hide Valid, GenExpr, GenStmt, Append;
      NoFrames(Out());
      if s.ExprStmt? {
        ExprLength(s.expr, |code|, Tabs(), scope);
        CompileExpr(s.expr);
      } else {
        StmtLength(s, |code|, [], NoShape, NoTargets, Tabs(), scope);
        CompileStmt(s, []);
      }
    }
  }
}
