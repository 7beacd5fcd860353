/** The structural verifier: it reports exactly the violations there are, code
    that it accepts stays inside its tables, and it accepts compiled code. */
module Verifier {
  import opened Syntax
  import opened Machine
  import opened Semantics
  import opened CodeGen
  import opened StmtGen
  import opened StmtFacts
  import opened StackDepth
  import opened ExprDepth
  import opened StmtDepth

  /** What an operand means. */
  datatype OperandKind =
    | Unused | Constant | LocalSlot | CapturedIndex | FunctionIndex | JumpTarget
    | ArgumentCount | HandlerIndex | ClassField | TemplateSite

  datatype Instruction = Instruction(kind: OperandKind, operand: nat)

  datatype Handler = Handler(catchPc: Option<nat>, finallyPc: Option<nat>)

  /** A function as the verifier sees it; of most tables only the size matters. */
  datatype BytecodeFunction = BytecodeFunction(
    code: seq<Instruction>, spans: nat, params: nat, slots: nat, upvalues: nat, upvalueNames: nat,
    handlers: seq<Handler>, templateSites: nat)

  datatype BytecodeModule = BytecodeModule(constants: nat, main: BytecodeFunction, functions: seq<BytecodeFunction>)

  datatype VerifyError =
    | SpanMismatch(fn: nat)
    | TooManyParams(fn: nat)
    | NameMismatch(fn: nat)
    | BadOperand(fn: nat, pc: nat)
    | BadCatch(fn: nat, handler: nat)
    | BadFinally(fn: nat, handler: nat)

  // ----- what is valid -----

  predicate OperandValid(m: BytecodeModule, f: BytecodeFunction, ins: Instruction) {
    match ins.kind
    case Unused => ins.operand == 0
    case Constant => ins.operand < m.constants
    case LocalSlot => ins.operand < f.slots
    case CapturedIndex => ins.operand < f.upvalues
    case FunctionIndex => 0 < ins.operand <= |m.functions|
    case JumpTarget => ins.operand <= |f.code|
    case ArgumentCount => true
    case HandlerIndex => ins.operand < |f.handlers|
    case ClassField => true
    case TemplateSite => ins.operand < f.templateSites
  }

  predicate TargetValid(f: BytecodeFunction, pc: Option<nat>) {
    pc.Some? ==> pc.value < |f.code|
  }

  /** Number `x` is that of function `k` of the table; the entry point has none there. */
  predicate IsFunction(m: BytecodeModule, x: nat, k: nat) {
    k < |m.functions| && x == k + 1
  }

  /** What the operands pick that no instruction of the machine uses: functions
      other than the entry point, handlers, template sites. A jump may go to the
      end of the code, a handler may not. */
  lemma TablesPicked(m: BytecodeModule, f: BytecodeFunction, x: nat)
    ensures OperandValid(m, f, Instruction(FunctionIndex, x)) <==> exists k: nat :: IsFunction(m, x, k)
    ensures OperandValid(m, f, Instruction(HandlerIndex, x)) <==> x < |f.handlers|
    ensures OperandValid(m, f, Instruction(TemplateSite, x)) <==> x < f.templateSites
    ensures OperandValid(m, f, Instruction(ArgumentCount, x)) && OperandValid(m, f, Instruction(ClassField, x))
    ensures TargetValid(f, Some(x)) <==> x < |f.code|
    ensures TargetValid(f, None)
    ensures OperandValid(m, f, Instruction(JumpTarget, x)) <==> x == |f.code| || TargetValid(f, Some(x))
  {
    if 0 < x <= |m.functions| {
      assert IsFunction(m, x, x - 1);
    }
  }

  ghost predicate ValidFunction(m: BytecodeModule, f: BytecodeFunction) {
    && |f.code| == f.spans && f.params <= f.slots && f.upvalues == f.upvalueNames
    && (forall pc :: 0 <= pc < |f.code| ==> OperandValid(m, f, f.code[pc]))
    && (forall i :: 0 <= i < |f.handlers| ==>
          TargetValid(f, f.handlers[i].catchPc) && TargetValid(f, f.handlers[i].finallyPc))
  }

  /** The entry point is function number zero. */
  function FunctionAt(m: BytecodeModule, id: nat): BytecodeFunction
    requires id <= |m.functions|
  {
    if id == 0 then m.main else m.functions[id - 1]
  }

  ghost predicate ValidModule(m: BytecodeModule) {
    forall id: nat :: id <= |m.functions| ==> ValidFunction(m, FunctionAt(m, id))
  }

  /** `e` tells the truth about function number `id`. */
  ghost predicate Violates(m: BytecodeModule, f: BytecodeFunction, id: nat, e: VerifyError) {
    e.fn == id &&
    match e
    case SpanMismatch(_) => |f.code| != f.spans
    case TooManyParams(_) => f.params > f.slots
    case NameMismatch(_) => f.upvalues != f.upvalueNames
    case BadOperand(_, pc) => pc < |f.code| && !OperandValid(m, f, f.code[pc])
    case BadCatch(_, i) => i < |f.handlers| && !TargetValid(f, f.handlers[i].catchPc)
    case BadFinally(_, i) => i < |f.handlers| && !TargetValid(f, f.handlers[i].finallyPc)
  }

  lemma ValidFunctionExactly(m: BytecodeModule, f: BytecodeFunction, id: nat)
    ensures ValidFunction(m, f) <==> forall e :: !Violates(m, f, id, e)
  {
    hide OperandValid, TargetValid;
    if forall e :: !Violates(m, f, id, e) {
      assert !Violates(m, f, id, SpanMismatch(id));
      assert !Violates(m, f, id, TooManyParams(id));
      assert !Violates(m, f, id, NameMismatch(id));
      forall pc | 0 <= pc < |f.code| ensures OperandValid(m, f, f.code[pc]) {
        assert !Violates(m, f, id, BadOperand(id, pc));
      }
      forall i | 0 <= i < |f.handlers|
        ensures TargetValid(f, f.handlers[i].catchPc) && TargetValid(f, f.handlers[i].finallyPc)
      {
        assert !Violates(m, f, id, BadCatch(id, i)) && !Violates(m, f, id, BadFinally(id, i));
      }
    }
  }

  // ----- the verifier -----

  /** The violations of function `id` found so far: those of its sizes, of its
      first `pcs` instructions and of its first `hs` handlers. */
  ghost predicate Found(m: BytecodeModule, f: BytecodeFunction, id: nat, before: seq<VerifyError>,
                        errors: seq<VerifyError>, pcs: nat, hs: nat) {
    forall e :: e in errors <==>
      (e in before
       || (Violates(m, f, id, e) && (e.BadOperand? ==> e.pc < pcs)
            && (e.BadCatch? || e.BadFinally? ==> e.handler < hs)))
  }

  method VerifyFunction(m: BytecodeModule, f: BytecodeFunction, id: nat, before: seq<VerifyError>)
    returns (errors: seq<VerifyError>)
    ensures forall e :: e in errors <==> e in before || Violates(m, f, id, e)
  {
    hide OperandValid, TargetValid;
    errors := before;
    if |f.code| != f.spans {
      errors := errors + [SpanMismatch(id)];
    }
    if f.params > f.slots {
      errors := errors + [TooManyParams(id)];
    }
    if f.upvalues != f.upvalueNames {
      errors := errors + [NameMismatch(id)];
    }
    for pc := 0 to |f.code|
      invariant Found(m, f, id, before, errors, pc, 0)
    {
      if !OperandValid(m, f, f.code[pc]) {
        errors := errors + [BadOperand(id, pc)];
      }
    }
    for i := 0 to |f.handlers|
      invariant Found(m, f, id, before, errors, |f.code|, i)
    {
      if !TargetValid(f, f.handlers[i].catchPc) {
        errors := errors + [BadCatch(id, i)];
      }
      if !TargetValid(f, f.handlers[i].finallyPc) {
        errors := errors + [BadFinally(id, i)];
      }
    }
  }

  ghost predicate ViolatesSome(m: BytecodeModule, e: VerifyError, ids: nat)
    requires ids <= |m.functions| + 1
  {
    e.fn < ids && Violates(m, FunctionAt(m, e.fn), e.fn, e)
  }

  /** Every violation of every function is reported, nothing else is, and a
      module passes exactly when it is valid. */
  method VerifyModule(m: BytecodeModule) returns (errors: seq<VerifyError>)
    ensures forall e :: e in errors <==> ViolatesSome(m, e, |m.functions| + 1)
    ensures errors == [] <==> ValidModule(m)
  {
    hide Violates;
    errors := VerifyFunction(m, m.main, 0, []);
    AboutOwn(m);
    for i := 0 to |m.functions|
      invariant forall e :: e in errors <==> ViolatesSome(m, e, i + 1)
    {
      errors := VerifyFunction(m, m.functions[i], i + 1, errors);
    }
    NoErrors(m, errors);
  }

  lemma AboutOwn(m: BytecodeModule)
    ensures forall f, id: nat, e :: Violates(m, f, id, e) ==> e.fn == id
  {
    hide OperandValid, TargetValid;
  }

  lemma Reported(m: BytecodeModule, errors: seq<VerifyError>, id: nat, e: VerifyError)
    requires id <= |m.functions|
    requires forall e :: e in errors <==> ViolatesSome(m, e, |m.functions| + 1)
    ensures Violates(m, FunctionAt(m, id), id, e) ==> e in errors
  {
    hide Violates;
    AboutOwn(m);
    assert e in errors <==> ViolatesSome(m, e, |m.functions| + 1);
  }

  lemma NoErrors(m: BytecodeModule, errors: seq<VerifyError>)
    requires forall e :: e in errors <==> ViolatesSome(m, e, |m.functions| + 1)
    ensures errors == [] <==> ValidModule(m)
  {
    hide Violates, ValidFunction;
    if errors == [] {
      forall id: nat | id <= |m.functions| ensures ValidFunction(m, FunctionAt(m, id)) {
        forall e ensures !Violates(m, FunctionAt(m, id), id, e) {
          Reported(m, errors, id, e);
        }
        ValidFunctionExactly(m, FunctionAt(m, id), id);
      }
    } else {
      var e := errors[0];
      assert e in errors;
      assert ViolatesSome(m, e, |m.functions| + 1);
      ValidFunctionExactly(m, FunctionAt(m, e.fn), e.fn);
    }
  }

  // ----- the verifier and the machine -----

  function KindOf(op: Opcode): OperandKind {
    match op
    case LdaConst => Constant
    case GetGlobal => Constant
    case TypeofGlobal => Constant
    case SetGlobal => Constant
    case LdaLocal => LocalSlot
    case StaLocal => LocalSlot
    case LdaUpvalue => CapturedIndex
    case StaUpvalue => CapturedIndex
    case _ => if IsJump(op) then JumpTarget else Unused
  }

  function Image(code: seq<Instr>): seq<Instruction> {
    seq(|code|, i requires 0 <= i < |code| => Instruction(KindOf(code[i].op), code[i].operand))
  }

  /** `b` describes `f` and its tables. */
  ghost predicate Describes(m: BytecodeModule, b: BytecodeFunction, f: Function) {
    b.code == Image(f.code) && m.constants == |f.consts|
  }

  function LimitsOf(m: BytecodeModule, b: BytecodeFunction): Limits {
    Limits(m.constants, b.slots, b.upvalues)
  }

  /** The next instruction, if any, has its operand inside its table. */
  ghost predicate Inside<E>(st: State<E>, f: Function, z: Limits) {
    st.Running? ==> st.c.pc <= |f.code| && (st.c.pc < |f.code| ==> OperandIn(f.code[st.c.pc], z))
  }

  lemma ValidOperand(m: BytecodeModule, b: BytecodeFunction, f: Function, pc: nat)
    requires ValidFunction(m, b) && Describes(m, b, f) && pc < |f.code|
    ensures OperandIn(f.code[pc], LimitsOf(m, b)) && (IsJump(f.code[pc].op) ==> f.code[pc].operand <= |f.code|)
  {
    assert OperandValid(m, b, b.code[pc]);
  }

  /** No run of verified code, from any stack and with any host, reads outside
      its tables or leaves its code except by its end. */
  lemma {:induction false} VerifiedRun<E>(m: BytecodeModule, b: BytecodeFunction, f: Function, h: Host<E>, st: State<E>,
                                          k: nat)
    requires ValidFunction(m, b) && Describes(m, b, f)
    requires st.Running? ==> st.c.pc <= |f.code|
    ensures Inside(Run(f, h, st, k), f, LimitsOf(m, b))
    decreases k
  {
    hide ValidFunction, Describes, OperandIn;
    if st.Running? && st.c.pc < |f.code| {
      ValidOperand(m, b, f, st.c.pc);
      if k > 0 {
        StepInside(m, b, f, h, st);
      }
    }
    if k > 0 {
      VerifiedRun(m, b, f, h, Step(f, h, st), k - 1);
    }
  }

  lemma StepInside<E>(m: BytecodeModule, b: BytecodeFunction, f: Function, h: Host<E>, st: State<E>)
    requires st.Running? && st.c.pc < |f.code|
    requires IsJump(f.code[st.c.pc].op) ==> f.code[st.c.pc].operand <= |f.code|
    requires OperandIn(f.code[st.c.pc], LimitsOf(m, b)) && Describes(m, b, f)
    ensures Step(f, h, st).Running? ==> Step(f, h, st).c.pc <= |f.code|
  {
    hide Execute, OperandIn;
    var ins := f.code[st.c.pc];
    if |st.c.stack| >= Needs(ins.op) {
      ExecuteDepth(f, h, ins, st.c, LimitsOf(m, b));
    }
  }

  /** Verification says nothing about the stack: this module passes, and its
      first instruction finds nothing to pop. */
  lemma StackNotVerified<E>(h: Host<E>, env: E)
    ensures var f := Function([Bare(Pop), Bare(ReturnOp)], [], 0);
            var b := BytecodeFunction(Image(f.code), 2, 0, 0, 0, 0, [], 0);
            && ValidModule(BytecodeModule(0, b, []))
            && Run(f, h, Running(Config(0, [], map[], env)), 1) == Halted(Fault)
  {
    var f := Function([Bare(Pop), Bare(ReturnOp)], [], 0);
    var b := BytecodeFunction(Image(f.code), 2, 0, 0, 0, 0, [], 0);
    assert ValidFunction(BytecodeModule(0, b, []), b);
    var st := Running(Config(0, [], map[], env));
    assert Step(f, h, st) == Halted(Fault);
    assert Run(f, h, st, 1) == Run(f, h, Step(f, h, st), 0);
  }

  // ----- the verifier and the compiler -----

  /** Disciplined code passes. */
  lemma FlowsValid(m: BytecodeModule, b: BytecodeFunction, code: seq<Instr>)
    requires Flows(code, 0, 0, 0, {}, {}, LimitsOf(m, b)) && b.code == Image(code) && b.spans == |code|
    requires b.params <= b.slots && b.upvalues == b.upvalueNames && b.handlers == []
    ensures ValidFunction(m, b)
  {
    var z := LimitsOf(m, b);
    var ds :| |ds| == |code| + 1 && Depths(ds, code, 0, {}, z);
    forall pc | 0 <= pc < |b.code| ensures OperandValid(m, b, b.code[pc]) {
      assert InstrOk(code[pc], pc, 0, ds, {}, z);
      InstrValid(m, b, code[pc], pc, ds);
    }
  }

  lemma InstrValid(m: BytecodeModule, b: BytecodeFunction, ins: Instr, pc: nat, ds: seq<nat>)
    requires pc + 1 < |ds| == |b.code| + 1 && InstrOk(ins, pc, 0, ds, {}, LimitsOf(m, b))
    ensures OperandValid(m, b, Instruction(KindOf(ins.op), ins.operand))
  {
    hide Needs, After;
  }

  /** A function of the module as the compiler builds it: a script or a body,
      the tables it starts from, its variables and its parameters. */
  datatype Source = Source(script: bool, body: StmtList, start: Tables, scope: Scope, user: nat, params: nat)

  function Generated(s: Source): Gen {
    if s.script then GenScript(s.body, s.start, s.scope) else GenFunction(s.body, s.start, s.scope)
  }

  /** `b` is what the compiler leaves in the module for `s`. */
  ghost predicate Built(m: BytecodeModule, b: BytecodeFunction, s: Source) {
    var g := Generated(s);
    && b.code == Image(g.code) && b.spans == |g.code| && b.slots == g.tabs.count && |g.tabs.consts| <= m.constants
    && b.params == s.params <= s.user && b.upvalues == b.upvalueNames && b.handlers == []
    && Wf(s.start, s.user)
    && (forall x :: x in s.scope.locals ==> s.scope.locals[x] < s.user)
    && (forall x :: x in s.scope.upvalues ==> s.scope.upvalues[x] < b.upvalues)
  }

  lemma BuiltValid(m: BytecodeModule, b: BytecodeFunction, s: Source)
    requires Built(m, b, s)
    ensures ValidFunction(m, b)
  {
    hide GenFunction, GenScript, Flows, Wf, ValidFunction;
    var v := View(s.scope, s.user, LimitsOf(m, b));
    var g := Generated(s);
    GeneratedTables(s);
    assert Ready(s.start, g.tabs, v);
    if s.script {
      ScriptFlows(s.body, s.start, v);
    } else {
      FunctionFlows(s.body, s.start, v);
    }
    FlowsValid(m, b, g.code);
  }

  lemma GeneratedTables(s: Source)
    requires Wf(s.start, s.user)
    ensures s.user <= s.start.count <= Generated(s).tabs.count
  {
    hide GenTop, GenList;
    TopTables(s.body, 0, s.start, s.scope, s.user);
    ListRegular(s.body, 0, NoShape, NoTargets, s.start, s.scope, s.user);
  }

  /** Whatever the programs, a module of compiled functions verifies. */
  lemma CompiledVerifies(m: BytecodeModule, main: Source, fs: seq<Source>)
    requires Built(m, m.main, main) && |fs| == |m.functions|
    requires forall i :: 0 <= i < |fs| ==> Built(m, m.functions[i], fs[i])
    ensures ValidModule(m)
  {
    hide Built, ValidFunction;
    forall id: nat | id <= |m.functions| ensures ValidFunction(m, FunctionAt(m, id)) {
      if id == 0 {
        BuiltValid(m, m.main, main);
      } else {
        BuiltValid(m, m.functions[id - 1], fs[id - 1]);
      }
    }
  }

  /** Every address of a compiled function has one operand depth, whatever path
      leads there, and no run of it misses an operand. */
  lemma CompiledDepth<E(!new)>(m: BytecodeModule, b: BytecodeFunction, s: Source, f: Function)
    requires Built(m, b, s) && f.code == Generated(s).code && m.constants <= |f.consts|
    ensures exists ds :: DepthEverywhere<E>(f, ds)
  {
    hide GenFunction, GenScript, Flows, Wf, DepthEverywhere;
    var v := View(s.scope, s.user, LimitsOf(m, b));
    GeneratedTables(s);
    assert Ready(s.start, Generated(s).tabs, v);
    if s.script {
      ScriptFlows(s.body, s.start, v);
    } else {
      FunctionFlows(s.body, s.start, v);
    }
    OneDepth<E>(f, LimitsOf(m, b), 0);
  }
}
