/** The stack machine: one call frame without exception handlers.

    Everything the machine delegates to the runtime (cells, coercions,
    property access) is a parameter, the `Host`, that may change an opaque
    environment `E` and may throw. */
module Machine {
  import opened Syntax

  datatype Value =
    | Undefined
    | Null
    | Boolean(b: bool)
    | Integer(i: int)
    | Float(bits: nat)
    | Str(s: string)
    | BigInt(decimal: string)
    | Symbol(id: nat)
    | Object(id: nat)

  const SIGN_BIT: nat := 0x8000_0000_0000_0000
  const INFINITY_BITS: nat := 0x7FF0_0000_0000_0000

  /** ECMAScript ToBoolean; floats are IEEE-754 bit patterns. */
  predicate Truthy(v: Value) {
    match v
    case Undefined => false
    case Null => false
    case Boolean(b) => b
    case Integer(i) => i != 0
    case Float(bits) => bits % SIGN_BIT != 0 && bits % SIGN_BIT <= INFINITY_BITS
    case Str(s) => s != ""
    case BigInt(d) => d != "0"
    case Symbol(_) => true
    case Object(_) => true
  }

  predicate Nullish(v: Value) {
    v.Undefined? || v.Null?
  }

  /** A resolved variable: a slot of this frame, a captured cell, a global. */
  datatype VarRef = Local(slot: nat) | Upvalue(index: nat) | Global(name: string)

  datatype Outcome<E> = Ok(value: Value, env: E) | Thrown(value: Value, env: E)

  /** The order in which the source semantics goes through an assignment to a
      property and an update: the one that the compiler emits, or the one that
      ECMAScript specifies. The machine does not look at it. */
  datatype Order = Emitted | Specified

  datatype Host<!E> = Host(
    order: Order,
    load: (VarRef, E) -> Outcome<E>,
    store: (VarRef, Value, E) -> Outcome<E>,
    typeofGlobal: (string, E) -> Outcome<E>,
    binary: (BinOp, Value, Value, E) -> Outcome<E>,
    strictEq: (Value, Value) -> bool,
    unary: (UnaryOp, Value, E) -> Outcome<E>,
    numeric: (Value, E) -> Outcome<E>,
    getProp: (Value, Value, E) -> Outcome<E>,
    setProp: (Value, Value, Value, E) -> Outcome<E>)

  function BinaryValue<E>(h: Host<E>, op: BinOp, a: Value, b: Value, env: E): Outcome<E> {
    if op == StrictEq then Ok(Boolean(h.strictEq(a, b)), env) else h.binary(op, a, b, env)
  }

  function UnaryValue<E>(h: Host<E>, op: UnaryOp, v: Value, env: E): Outcome<E> {
    match op
    case Not => Ok(Boolean(!Truthy(v)), env)
    case Void => Ok(Undefined, env)
    case _ => h.unary(op, v, env)
  }

  datatype Opcode =
    | LdaConst | LdaLocal | StaLocal | LdaUpvalue | StaUpvalue
    | GetGlobal | SetGlobal | TypeofGlobal
    | Pop | Dup | LdaUndefined | LdaNull | LdaTrue | LdaFalse
    | BinaryOp(bin: BinOp) | UnaryOp(un: Syntax.UnaryOp)
    | Jump | JumpIfFalse | JumpIfTrue | JumpIfNullish
    | GetProp | SetProp | ReturnOp | ThrowOp

  datatype Instr = Instr(op: Opcode, operand: nat)

  function Bare(op: Opcode): Instr {
    Instr(op, 0)
  }

  /** A compiled function. Slots below `userSlots` hold source variables,
      whose cells closures may share; the others are compiler temporaries. */
  datatype Function = Function(code: seq<Instr>, consts: seq<Value>, userSlots: nat)

  type Temps = map<nat, Value>

  function ReadTemp(temps: Temps, slot: nat): Value {
    if slot in temps then temps[slot] else Undefined
  }

  datatype Config<E> = Config(pc: nat, stack: seq<Value>, temps: Temps, env: E)

  datatype Result<E> = Returned(value: Value, env: E) | Threw(value: Value, env: E) | Fault

  datatype State<E> = Running(c: Config<E>) | Halted(r: Result<E>)

  /** Push the value of a completed operation, or unwind the frame. */
  function Push<E>(o: Outcome<E>, pc: nat, stack: seq<Value>, temps: Temps): State<E> {
    match o
    case Ok(v, env) => Running(Config(pc, stack + [v], temps, env))
    case Thrown(v, env) => Halted(Threw(v, env))
  }

  /** Continue after an operation that pushes nothing, or unwind the frame. */
  function Proceed<E>(o: Outcome<E>, pc: nat, stack: seq<Value>, temps: Temps): State<E> {
    match o
    case Ok(_, env) => Running(Config(pc, stack, temps, env))
    case Thrown(v, env) => Halted(Threw(v, env))
  }

  function ConstName(f: Function, i: nat): string {
    if i < |f.consts| && f.consts[i].Str? then f.consts[i].s else ""
  }

  function Top(stack: seq<Value>): Value
    requires |stack| > 0
  {
    stack[|stack| - 1]
  }

  function Rest(stack: seq<Value>): seq<Value>
    requires |stack| > 0
  {
    stack[..|stack| - 1]
  }

  /** The operands that an opcode pops; the machine faults when they are missing. */
  function Needs(op: Opcode): nat {
    match op
    case StaLocal => 1
    case StaUpvalue => 1
    case SetGlobal => 1
    case Pop => 1
    case Dup => 1
    case BinaryOp(_) => 2
    case UnaryOp(_) => 1
    case JumpIfFalse => 1
    case JumpIfTrue => 1
    case JumpIfNullish => 1
    case GetProp => 2
    case SetProp => 3
    case ThrowOp => 1
    case _ => 0
  }

  function Execute<E>(f: Function, h: Host<E>, ins: Instr, c: Config<E>): State<E>
    requires |c.stack| >= Needs(ins.op)
  {
    var Config(pc, s, temps, env) := c;
    var next := pc + 1;
    match ins.op
    case LdaConst =>
      if ins.operand < |f.consts| then Running(Config(next, s + [f.consts[ins.operand]], temps, env))
      else Halted(Fault)
    case LdaLocal =>
      if ins.operand < f.userSlots then Push(h.load(Local(ins.operand), env), next, s, temps)
      else Running(Config(next, s + [ReadTemp(temps, ins.operand)], temps, env))
    case StaLocal =>
      if ins.operand < f.userSlots then
        Proceed(h.store(Local(ins.operand), Top(s), env), next, Rest(s), temps)
      else Running(Config(next, Rest(s), temps[ins.operand := Top(s)], env))
    case LdaUpvalue => Push(h.load(Upvalue(ins.operand), env), next, s, temps)
    case StaUpvalue => Proceed(h.store(Upvalue(ins.operand), Top(s), env), next, Rest(s), temps)
    case GetGlobal => Push(h.load(Global(ConstName(f, ins.operand)), env), next, s, temps)
    case SetGlobal =>
      Proceed(h.store(Global(ConstName(f, ins.operand)), Top(s), env), next, Rest(s), temps)
    case TypeofGlobal => Push(h.typeofGlobal(ConstName(f, ins.operand), env), next, s, temps)
    case Pop => Running(Config(next, Rest(s), temps, env))
    case Dup => Running(Config(next, s + [Top(s)], temps, env))
    case LdaUndefined => Running(Config(next, s + [Undefined], temps, env))
    case LdaNull => Running(Config(next, s + [Null], temps, env))
    case LdaTrue => Running(Config(next, s + [Boolean(true)], temps, env))
    case LdaFalse => Running(Config(next, s + [Boolean(false)], temps, env))
    case BinaryOp(op) =>
      Push(BinaryValue(h, op, Top(Rest(s)), Top(s), env), next, Rest(Rest(s)), temps)
    case UnaryOp(op) => Push(UnaryValue(h, op, Top(s), env), next, Rest(s), temps)
    case Jump => Running(Config(ins.operand, s, temps, env))
    case JumpIfFalse =>
      Running(Config(if Truthy(Top(s)) then next else ins.operand, Rest(s), temps, env))
    case JumpIfTrue =>
      Running(Config(if Truthy(Top(s)) then ins.operand else next, Rest(s), temps, env))
    case JumpIfNullish =>
      Running(Config(if Nullish(Top(s)) then ins.operand else next, Rest(s), temps, env))
    case GetProp =>
      Push(h.getProp(Top(Rest(s)), Top(s), env), next, Rest(Rest(s)), temps)
    case SetProp =>
      Proceed(h.setProp(Top(Rest(Rest(s))), Top(Rest(s)), Top(s), env), next, Rest(Rest(Rest(s))), temps)
    case ReturnOp => Halted(Returned(if |s| == 0 then Undefined else Top(s), env))
    case ThrowOp => Halted(Threw(Top(s), env))
  }

  /** One machine step. Falling off the end returns undefined; halted states
      do not move. */
  function Step<E>(f: Function, h: Host<E>, st: State<E>): State<E> {
    match st
    case Halted(_) => st
    case Running(c) =>
      if c.pc >= |f.code| then Halted(Returned(Undefined, c.env))
      else if |c.stack| >= Needs(f.code[c.pc].op) then Execute(f, h, f.code[c.pc], c)
      else Halted(Fault)
  }

  function Run<E>(f: Function, h: Host<E>, st: State<E>, n: nat): State<E>
    decreases n
  {
    if n == 0 then st else Run(f, h, Step(f, h, st), n - 1)
  }

  ghost predicate Reaches<E>(f: Function, h: Host<E>, a: State<E>, b: State<E>) {
    exists n: nat :: Run(f, h, a, n) == b
  }

  /** Reachability in at least one step. */
  ghost predicate Advances<E>(f: Function, h: Host<E>, a: State<E>, b: State<E>) {
    Reaches(f, h, Step(f, h, a), b)
  }

  lemma {:induction false} RunAdd<E>(f: Function, h: Host<E>, st: State<E>, m: nat, n: nat)
    ensures Run(f, h, st, m + n) == Run(f, h, Run(f, h, st, m), n)
    decreases m
  {
    if m > 0 {
      RunAdd(f, h, Step(f, h, st), m - 1, n);
    }
  }

  lemma {:induction false} HaltedStays<E>(f: Function, h: Host<E>, st: State<E>, n: nat)
    requires st.Halted?
    ensures Run(f, h, st, n) == st
    decreases n
  {
    if n > 0 {
      HaltedStays(f, h, st, n - 1);
    }
  }

  lemma ReachesSelf<E>(f: Function, h: Host<E>, a: State<E>)
    ensures Reaches(f, h, a, a)
  {
    assert Run(f, h, a, 0) == a;
  }

  lemma ReachesTrans<E>(f: Function, h: Host<E>, a: State<E>, b: State<E>, c: State<E>)
    requires Reaches(f, h, a, b) && Reaches(f, h, b, c)
    ensures Reaches(f, h, a, c)
  {
    var m: nat :| Run(f, h, a, m) == b;
    var n: nat :| Run(f, h, b, n) == c;
    RunAdd(f, h, a, m, n);
  }

  lemma StepThen<E>(f: Function, h: Host<E>, a: State<E>, b: State<E>)
    requires Reaches(f, h, Step(f, h, a), b)
    ensures Reaches(f, h, a, b)
  {
    var n: nat :| Run(f, h, Step(f, h, a), n) == b;
    assert Run(f, h, a, n + 1) == b;
  }

  /** Reach `b`, then take one step to `c`. */
  lemma ThenStep<E>(f: Function, h: Host<E>, a: State<E>, b: State<E>)
    requires Reaches(f, h, a, b)
    ensures Reaches(f, h, a, Step(f, h, b))
  {
    assert Run(f, h, b, 1) == Step(f, h, b) by {
      assert Run(f, h, Step(f, h, b), 0) == Step(f, h, b);
    }
    ReachesTrans(f, h, a, b, Step(f, h, b));
  }

  /** Two halted states reachable from the same state are equal. */
  lemma HaltUnique<E>(f: Function, h: Host<E>, a: State<E>, b: State<E>, c: State<E>)
    requires Reaches(f, h, a, b) && Reaches(f, h, a, c) && b.Halted? && c.Halted?
    ensures b == c
  {
    var m: nat :| Run(f, h, a, m) == b;
    var n: nat :| Run(f, h, a, n) == c;
    RunAdd(f, h, a, m, n);
    RunAdd(f, h, a, n, m);
    HaltedStays(f, h, b, n);
    HaltedStays(f, h, c, m);
  }

  /** The machine is still running after `k` steps. */
  predicate Alive<E>(f: Function, h: Host<E>, a: State<E>, k: nat) {
    Run(f, h, a, k).Running?
  }

  lemma AliveEarlier<E>(f: Function, h: Host<E>, a: State<E>, j: nat, k: nat)
    requires j <= k && Alive(f, h, a, k)
    ensures Alive(f, h, a, j)
  {
    RunAdd(f, h, a, j, k - j);
    if Run(f, h, a, j).Halted? {
      HaltedStays(f, h, Run(f, h, a, j), k - j);
    }
  }

  lemma AliveAfter<E>(f: Function, h: Host<E>, a: State<E>, b: State<E>, k: nat)
    requires Reaches(f, h, a, b) && Alive(f, h, b, k)
    ensures Alive(f, h, a, k)
  {
    var m: nat :| Run(f, h, a, m) == b;
    RunAdd(f, h, a, m, k);
    AliveEarlier(f, h, a, k, m + k);
  }

  /** A step before a run that survives `k` steps makes it survive `k + 1`. */
  lemma AliveAdvance<E>(f: Function, h: Host<E>, a: State<E>, b: State<E>, k: nat)
    requires Advances(f, h, a, b) && Alive(f, h, b, k)
    ensures Alive(f, h, a, k + 1)
  {
    AliveAfter(f, h, Step(f, h, a), b, k);
  }
}
