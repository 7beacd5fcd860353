/** Running known instructions: the facts that the correctness proofs of
    compiled code are assembled from. */
module Execution {
  import opened Syntax
  import opened Machine
  import opened Semantics
  import opened CodeGen

  /** A function under execution and the meaning of its names. */
  datatype Ctx<!E> = Ctx(f: Function, h: Host<E>, sc: Scope)

  /** Source variables live in the slots below `userSlots`; the source is read
      in the order that is emitted. */
  ghost predicate Sound<E>(x: Ctx<E>) {
    x.h.order.Emitted? && forall n :: n in x.sc.locals ==> x.sc.locals[n] < x.f.userSlots
  }

  lemma EmittedOrder<E>(x: Ctx<E>)
    requires Sound(x)
    ensures x.h.order.Emitted?
  {
  }

  ghost predicate At(code: seq<Instr>, base: nat, part: seq<Instr>) {
    base + |part| <= |code| && code[base..base + |part|] == part
  }

  lemma AtSplit(code: seq<Instr>, base: nat, a: seq<Instr>, b: seq<Instr>)
    requires At(code, base, a + b)
    ensures At(code, base, a) && At(code, base + |a|, b)
  {
    var ab := code[base..base + |a + b|];
    assert ab[..|a|] == a && ab[|a|..] == b;
    assert code[base..base + |a|] == ab[..|a|];
    assert code[base + |a|..base + |a| + |b|] == ab[|a|..];
  }

  lemma AtSplit3(code: seq<Instr>, base: nat, a: seq<Instr>, b: seq<Instr>, c: seq<Instr>)
    requires At(code, base, a + b + c)
    ensures At(code, base, a) && At(code, base + |a|, b) && At(code, base + |a| + |b|, c)
  {
    AtSplit(code, base, a + b, c);
    AtSplit(code, base, a, b);
  }

  lemma AtSplit4(code: seq<Instr>, base: nat, a: seq<Instr>, b: seq<Instr>, c: seq<Instr>, d: seq<Instr>)
    requires At(code, base, a + b + c + d)
    ensures At(code, base, a) && At(code, base + |a|, b) && At(code, base + |a| + |b|, c)
    ensures At(code, base + |a| + |b| + |c|, d)
  {
    AtSplit(code, base, a + b + c, d);
    AtSplit3(code, base, a, b, c);
  }

  lemma AtSplit5(code: seq<Instr>, base: nat, a: seq<Instr>, b: seq<Instr>, c: seq<Instr>, d: seq<Instr>,
                 e: seq<Instr>)
    requires At(code, base, a + b + c + d + e)
    ensures At(code, base, a) && At(code, base + |a|, b) && At(code, base + |a| + |b|, c)
    ensures At(code, base + |a| + |b| + |c|, d) && At(code, base + |a| + |b| + |c| + |d|, e)
  {
    AtSplit(code, base, a + b + c + d, e);
    AtSplit4(code, base, a, b, c, d);
  }

  /** Temporaries below `n` hold the same values. */
  ghost predicate Agree(a: Temps, b: Temps, n: nat) {
    forall s: nat :: s < n ==> ReadTemp(a, s) == ReadTemp(b, s)
  }

  lemma AgreeTrans(a: Temps, b: Temps, c: Temps, m: nat, n: nat)
    requires Agree(a, b, m) && Agree(b, c, n) && m <= n
    ensures Agree(a, c, m)
  {
  }

  lemma AgreeSelf(a: Temps, n: nat)
    ensures Agree(a, a, n)
  {
  }

  lemma AgreeLess(a: Temps, b: Temps, m: nat, n: nat)
    requires Agree(a, b, m) && n <= m
    ensures Agree(a, b, n)
  {
  }

  lemma AgreeAt(a: Temps, b: Temps, n: nat, slot: nat)
    requires Agree(a, b, n) && slot < n
    ensures ReadTemp(a, slot) == ReadTemp(b, slot)
  {
  }

  /** Writing a slot at or above `n` is not seen below it. */
  lemma AgreeSet(a: Temps, b: Temps, n: nat, slot: nat, v: Value)
    requires Agree(a, b, n) && n <= slot
    ensures Agree(a, b[slot := v], n)
  {
  }

  ghost predicate Goes<E>(x: Ctx<E>, a: State<E>, b: State<E>) {
    Reaches(x.f, x.h, a, b)
  }

  lemma GoesTrans<E>(x: Ctx<E>, a: State<E>, b: State<E>, c: State<E>)
    requires Goes(x, a, b) && Goes(x, b, c)
    ensures Goes(x, a, c)
  {
    ReachesTrans(x.f, x.h, a, b, c);
  }

  lemma Peel(s: seq<Value>, v: Value)
    ensures Top(s + [v]) == v && Rest(s + [v]) == s
  {
  }

  lemma ThenExec<E>(x: Ctx<E>, a: State<E>, c: Config<E>, ins: Instr)
    requires Goes(x, a, Running(c)) && At(x.f.code, c.pc, [ins]) && |c.stack| >= Needs(ins.op)
    ensures Goes(x, a, Execute(x.f, x.h, ins, c))
  {
    assert x.f.code[c.pc] == x.f.code[c.pc..c.pc + 1][0] == ins;
    ThenStep(x.f, x.h, a, Running(c));
  }

  /** Push a value that is known without the host. */
  lemma ExecPush<E>(x: Ctx<E>, a: State<E>, pc: nat, s: seq<Value>, t: Temps, env: E, ins: Instr, v: Value)
    requires Goes(x, a, Running(Config(pc, s, t, env))) && At(x.f.code, pc, [ins])
    requires match ins.op
             case LdaConst => ins.operand < |x.f.consts| && x.f.consts[ins.operand] == v
             case LdaLocal => x.f.userSlots <= ins.operand && ReadTemp(t, ins.operand) == v
             case LdaUndefined => v == Undefined
             case LdaNull => v == Null
             case LdaTrue => v == Boolean(true)
             case LdaFalse => v == Boolean(false)
             case _ => false
    ensures Goes(x, a, Running(Config(pc + 1, s + [v], t, env)))
  {
    ThenExec(x, a, Config(pc, s, t, env), ins);
  }

  lemma ExecDup<E>(x: Ctx<E>, a: State<E>, pc: nat, s: seq<Value>, v: Value, t: Temps, env: E)
    requires Goes(x, a, Running(Config(pc, s + [v], t, env))) && At(x.f.code, pc, [Bare(Dup)])
    ensures Goes(x, a, Running(Config(pc + 1, s + [v] + [v], t, env)))
  {
    Peel(s, v);
    ThenExec(x, a, Config(pc, s + [v], t, env), Bare(Dup));
  }

  lemma ExecPop<E>(x: Ctx<E>, a: State<E>, pc: nat, s: seq<Value>, v: Value, t: Temps, env: E)
    requires Goes(x, a, Running(Config(pc, s + [v], t, env))) && At(x.f.code, pc, [Bare(Pop)])
    ensures Goes(x, a, Running(Config(pc + 1, s, t, env)))
  {
    Peel(s, v);
    ThenExec(x, a, Config(pc, s + [v], t, env), Bare(Pop));
  }

  lemma ExecStoreTemp<E>(x: Ctx<E>, a: State<E>, pc: nat, s: seq<Value>, v: Value, t: Temps, env: E, slot: nat)
    requires Goes(x, a, Running(Config(pc, s + [v], t, env))) && At(x.f.code, pc, [Instr(StaLocal, slot)])
    requires x.f.userSlots <= slot
    ensures Goes(x, a, Running(Config(pc + 1, s, t[slot := v], env)))
  {
    Peel(s, v);
    ThenExec(x, a, Config(pc, s + [v], t, env), Instr(StaLocal, slot));
  }

  lemma ExecBinary<E>(x: Ctx<E>, a: State<E>, pc: nat, s: seq<Value>, v: Value, w: Value, t: Temps, env: E,
                      op: BinOp)
    requires Goes(x, a, Running(Config(pc, s + [v] + [w], t, env))) && At(x.f.code, pc, [Bare(BinaryOp(op))])
    ensures Goes(x, a, Push(BinaryValue(x.h, op, v, w, env), pc + 1, s, t))
  {
    Peel(s, v);
    Peel(s + [v], w);
    ThenExec(x, a, Config(pc, s + [v] + [w], t, env), Bare(BinaryOp(op)));
  }

  lemma ExecUnary<E>(x: Ctx<E>, a: State<E>, pc: nat, s: seq<Value>, v: Value, t: Temps, env: E,
                     op: Syntax.UnaryOp)
    requires Goes(x, a, Running(Config(pc, s + [v], t, env))) && At(x.f.code, pc, [Bare(UnaryOp(op))])
    ensures Goes(x, a, Push(UnaryValue(x.h, op, v, env), pc + 1, s, t))
  {
    Peel(s, v);
    ThenExec(x, a, Config(pc, s + [v], t, env), Bare(UnaryOp(op)));
  }

  /** A whole source operator, negated forms included. */
  lemma ExecBinaryCode<E>(x: Ctx<E>, a: State<E>, pc: nat, s: seq<Value>, v: Value, w: Value, t: Temps, env: E,
                          op: BinOp)
    requires Goes(x, a, Running(Config(pc, s + [v] + [w], t, env))) && At(x.f.code, pc, BinaryCode(op))
    ensures Goes(x, a, Push(EvalBinary(op, v, w, x.h, env), pc + |BinaryCode(op)|, s, t))
  {
    if op == NotEq || op == StrictNotEq {
      var inner := if op == NotEq then Eq else StrictEq;
      AtSplit(x.f.code, pc, [Bare(BinaryOp(inner))], [Bare(UnaryOp(Not))]);
      assert BinaryCode(op) == [Bare(BinaryOp(inner))] + [Bare(UnaryOp(Not))];
      ExecBinary(x, a, pc, s, v, w, t, env, inner);
      match BinaryValue(x.h, inner, v, w, env)
      case Ok(b, env1) => ExecUnary(x, a, pc + 1, s, b, t, env1, Not);
      case Thrown(_, _) =>
    } else {
      ExecBinary(x, a, pc, s, v, w, t, env, op);
    }
  }

  lemma ExecJump<E>(x: Ctx<E>, a: State<E>, pc: nat, s: seq<Value>, t: Temps, env: E, target: nat)
    requires Goes(x, a, Running(Config(pc, s, t, env))) && At(x.f.code, pc, [Instr(Jump, target)])
    ensures Goes(x, a, Running(Config(target, s, t, env)))
  {
    ThenExec(x, a, Config(pc, s, t, env), Instr(Jump, target));
  }

  predicate Jumps(op: Opcode, v: Value) {
    match op
    case JumpIfFalse => !Truthy(v)
    case JumpIfTrue => Truthy(v)
    case JumpIfNullish => Nullish(v)
    case _ => false
  }

  lemma ExecBranch<E>(x: Ctx<E>, a: State<E>, pc: nat, s: seq<Value>, v: Value, t: Temps, env: E, ins: Instr)
    requires Goes(x, a, Running(Config(pc, s + [v], t, env))) && At(x.f.code, pc, [ins])
    requires ins.op.JumpIfFalse? || ins.op.JumpIfTrue? || ins.op.JumpIfNullish?
    ensures Goes(x, a, Running(Config(if Jumps(ins.op, v) then ins.operand else pc + 1, s, t, env)))
  {
    Peel(s, v);
    ThenExec(x, a, Config(pc, s + [v], t, env), ins);
  }

  lemma ExecGetProp<E>(x: Ctx<E>, a: State<E>, pc: nat, s: seq<Value>, o: Value, k: Value, t: Temps, env: E)
    requires Goes(x, a, Running(Config(pc, s + [o] + [k], t, env))) && At(x.f.code, pc, [Bare(GetProp)])
    ensures Goes(x, a, Push(x.h.getProp(o, k, env), pc + 1, s, t))
  {
    Peel(s, o);
    Peel(s + [o], k);
    ThenExec(x, a, Config(pc, s + [o] + [k], t, env), Bare(GetProp));
  }

  lemma ExecSetProp<E>(x: Ctx<E>, a: State<E>, pc: nat, s: seq<Value>, v: Value, o: Value, k: Value, t: Temps,
                       env: E)
    requires Goes(x, a, Running(Config(pc, s + [v] + [o] + [k], t, env))) && At(x.f.code, pc, [Bare(SetProp)])
    ensures Goes(x, a, Proceed(x.h.setProp(v, o, k, env), pc + 1, s, t))
  {
    Peel(s, v);
    Peel(s + [v], o);
    Peel(s + [v] + [o], k);
    ThenExec(x, a, Config(pc, s + [v] + [o] + [k], t, env), Bare(SetProp));
  }

  /** Reading a name, wherever it resolves. */
  lemma ExecLoad<E>(x: Ctx<E>, a: State<E>, pc: nat, s: seq<Value>, t: Temps, env: E, name: string, T: Tables)
    requires Sound(x)
    requires Goes(x, a, Running(Config(pc, s, t, env))) && At(x.f.code, pc, GenLoad(name, T, x.sc).code)
    requires GenLoad(name, T, x.sc).tabs.consts <= x.f.consts
    ensures Goes(x, a, Push(LoadName(name, x.sc, x.h, env), pc + 1, s, t))
  {
    var ins := GenLoad(name, T, x.sc).code[0];
    assert GenLoad(name, T, x.sc).code == [ins];
    ThenExec(x, a, Config(pc, s, t, env), ins);
  }

  lemma ExecStore<E>(x: Ctx<E>, a: State<E>, pc: nat, s: seq<Value>, v: Value, t: Temps, env: E, name: string,
                     T: Tables)
    requires Sound(x)
    requires Goes(x, a, Running(Config(pc, s + [v], t, env))) && At(x.f.code, pc, GenStore(name, T, x.sc).code)
    requires GenStore(name, T, x.sc).tabs.consts <= x.f.consts
    ensures Goes(x, a, Proceed(StoreName(name, v, x.sc, x.h, env), pc + 1, s, t))
  {
    var ins := GenStore(name, T, x.sc).code[0];
    assert GenStore(name, T, x.sc).code == [ins];
    Peel(s, v);
    ThenExec(x, a, Config(pc, s + [v], t, env), ins);
  }

  lemma ExecTypeofGlobal<E>(x: Ctx<E>, a: State<E>, pc: nat, s: seq<Value>, t: Temps, env: E, name: string, i: nat)
    requires Goes(x, a, Running(Config(pc, s, t, env))) && At(x.f.code, pc, [Instr(TypeofGlobal, i)])
    requires i < |x.f.consts| && x.f.consts[i] == Str(name)
    ensures Goes(x, a, Push(x.h.typeofGlobal(name, env), pc + 1, s, t))
  {
    ThenExec(x, a, Config(pc, s, t, env), Instr(TypeofGlobal, i));
  }
}
