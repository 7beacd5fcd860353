/** A static discipline for bytecode: every address has one operand depth, every
    jump lands where that depth is expected, and every operand indexes an entry
    of its table. Code that keeps it never faults. */
module StackDepth {
  import opened Syntax
  import opened Machine

  /** Sizes of the tables that operands index. */
  datatype Limits = Limits(consts: nat, locals: nat, upvalues: nat)

  /** An address and the operand depth expected there. */
  datatype Point = Point(pc: nat, depth: nat)

  predicate IsJump(op: Opcode) {
    op == Jump || op == JumpIfFalse || op == JumpIfTrue || op == JumpIfNullish
  }

  predicate FallsThrough(op: Opcode) {
    op != Jump && op != ReturnOp && op != ThrowOp
  }

  predicate OperandIn(ins: Instr, z: Limits) {
    match ins.op
    case LdaConst => ins.operand < z.consts
    case GetGlobal => ins.operand < z.consts
    case SetGlobal => ins.operand < z.consts
    case TypeofGlobal => ins.operand < z.consts
    case LdaLocal => ins.operand < z.locals
    case StaLocal => ins.operand < z.locals
    case LdaUpvalue => ins.operand < z.upvalues
    case StaUpvalue => ins.operand < z.upvalues
    case _ => IsJump(ins.op) || ins.operand == 0
  }

  function Pushes(op: Opcode): nat {
    match op
    case Dup => 2
    case LdaConst => 1
    case LdaLocal => 1
    case LdaUpvalue => 1
    case GetGlobal => 1
    case TypeofGlobal => 1
    case LdaUndefined => 1
    case LdaNull => 1
    case LdaTrue => 1
    case LdaFalse => 1
    case BinaryOp(_) => 1
    case UnaryOp(_) => 1
    case GetProp => 1
    case _ => 0
  }

  function After(op: Opcode, depth: nat): int {
    depth - Needs(op) + Pushes(op)
  }

  ghost predicate Lands(t: nat, depth: int, base: nat, ds: seq<nat>, outside: set<Point>) {
    || (base <= t < base + |ds| && ds[t - base] == depth)
    || (depth >= 0 && Point(t, depth) in outside)
  }

  ghost predicate InstrOk(ins: Instr, i: nat, base: nat, ds: seq<nat>, outside: set<Point>, z: Limits)
    requires i + 1 < |ds|
  {
    && Needs(ins.op) <= ds[i] && OperandIn(ins, z)
    && (FallsThrough(ins.op) ==> ds[i + 1] == After(ins.op, ds[i]))
    && (IsJump(ins.op) ==> Lands(ins.operand, After(ins.op, ds[i]), base, ds, outside))
  }

  /** `ds` gives the depth before each instruction and after the last one. */
  ghost predicate Depths(ds: seq<nat>, code: seq<Instr>, base: nat, outside: set<Point>, z: Limits) {
    |ds| == |code| + 1 && forall i: nat :: i < |code| ==> InstrOk(code[i], i, base, ds, outside, z)
  }

  ghost predicate Marked(ds: seq<nat>, base: nat, marks: set<Point>) {
    forall p :: p in marks ==> base <= p.pc < base + |ds| && ds[p.pc - base] == p.depth
  }

  /** Code entered at depth `n` is left at depth `m`, is at the depths of
      `marks` in between, and jumps out only to `outside`. */
  ghost predicate Flows(code: seq<Instr>, base: nat, n: nat, m: nat, marks: set<Point>, outside: set<Point>,
                        z: Limits) {
    exists ds ::
      |ds| == |code| + 1 && Depths(ds, code, base, outside, z) && ds[0] == n && ds[|code|] == m
      && Marked(ds, base, marks)
  }

  // ----- composition -----

  lemma FlowsEmpty(base: nat, n: nat, outside: set<Point>, z: Limits)
    ensures Flows([], base, n, n, {}, outside, z)
  {
    assert Depths([n], [], base, outside, z) && Marked([n], base, {});
  }

  lemma FlowsOne(ins: Instr, base: nat, n: nat, m: nat, outside: set<Point>, z: Limits)
    requires Needs(ins.op) <= n && OperandIn(ins, z)
    requires FallsThrough(ins.op) ==> m == After(ins.op, n)
    requires IsJump(ins.op) ==> After(ins.op, n) >= 0 && Point(ins.operand, After(ins.op, n)) in outside
    ensures Flows([ins], base, n, m, {}, outside, z)
  {
    var ds := [n, m];
    assert InstrOk([ins][0], 0, base, ds, outside, z);
    assert Depths(ds, [ins], base, outside, z) && Marked(ds, base, {});
  }

  lemma InstrMoves(ins: Instr, i: nat, base: nat, ds: seq<nat>, j: nat, base': nat, es: seq<nat>, outside: set<Point>,
                   z: Limits)
    requires i + 1 < |ds| && InstrOk(ins, i, base, ds, outside, z)
    requires base' <= base && base - base' + |ds| <= |es| && j == i + (base - base')
    requires forall k: nat :: k < |ds| ==> es[k + (base - base')] == ds[k]
    ensures InstrOk(ins, j, base', es, outside, z)
  {
    assert es[j] == ds[i] && es[j + 1] == ds[i + 1];
    if IsJump(ins.op) && base <= ins.operand < base + |ds| {
      assert es[(ins.operand - base) + (base - base')] == ds[ins.operand - base];
    }
  }

  lemma DepthsJoin(da: seq<nat>, a: seq<Instr>, db: seq<nat>, b: seq<Instr>, base: nat, outside: set<Point>, z: Limits)
    returns (ds: seq<nat>)
    requires Depths(da, a, base, outside, z) && Depths(db, b, base + |a|, outside, z) && da[|a|] == db[0]
    ensures Depths(ds, a + b, base, outside, z)
    ensures forall k: nat :: k < |da| ==> ds[k] == da[k]
    ensures forall k: nat :: k < |db| ==> ds[k + |a|] == db[k]
  {
    hide InstrOk;
    ds := da + db[1..];
    forall k: nat | k < |db| ensures ds[k + |a|] == db[k] {
    }
    forall i: nat | i < |a + b| ensures InstrOk((a + b)[i], i, base, ds, outside, z) {
      if i < |a| {
        InstrMoves(a[i], i, base, da, i, base, ds, outside, z);
      } else {
        InstrMoves(b[i - |a|], i - |a|, base + |a|, db, i, base, ds, outside, z);
      }
    }
  }

  lemma Join(a: seq<Instr>, b: seq<Instr>, base: nat, n: nat, k: nat, m: nat, ma: set<Point>, mb: set<Point>,
             outside: set<Point>, z: Limits)
    requires Flows(a, base, n, k, ma, outside, z) && Flows(b, base + |a|, k, m, mb, outside, z)
    ensures Flows(a + b, base, n, m, ma + mb + {Point(base + |a|, k)}, outside, z)
  {
    hide Depths;
    var da :| |da| == |a| + 1 && Depths(da, a, base, outside, z) && da[0] == n && da[|a|] == k && Marked(da, base, ma);
    var db :|
      |db| == |b| + 1 && Depths(db, b, base + |a|, outside, z) && db[0] == k && db[|b|] == m
      && Marked(db, base + |a|, mb);
    var ds := DepthsJoin(da, a, db, b, base, outside, z);
    DepthsSize(ds, a + b, base, outside, z);
    assert ds[0 + |a|] == db[0] && ds[|b| + |a|] == db[|b|];
    forall p | p in ma + mb + {Point(base + |a|, k)} ensures base <= p.pc < base + |ds| && ds[p.pc - base] == p.depth {
      if p in mb {
        assert ds[(p.pc - base - |a|) + |a|] == db[p.pc - base - |a|];
      }
    }
    assert Marked(ds, base, ma + mb + {Point(base + |a|, k)});
  }

  lemma DepthsSize(ds: seq<nat>, code: seq<Instr>, base: nat, outside: set<Point>, z: Limits)
    requires Depths(ds, code, base, outside, z)
    ensures |ds| == |code| + 1
  {
  }

  lemma FlowsTwo(x: Instr, y: Instr, base: nat, n: nat, k: nat, m: nat, outside: set<Point>, z: Limits)
    requires Flows([x], base, n, k, {}, outside, z) && Flows([y], base + 1, k, m, {}, outside, z)
    ensures Flows([x, y], base, n, m, {}, outside, z)
  {
    hide Flows;
    Join2([x], [y], base, n, k, m, outside, z);
    assert [x] + [y] == [x, y];
  }

  lemma FlowsThree(x: Instr, y: Instr, w: Instr, base: nat, n: nat, k: nat, l: nat, m: nat, outside: set<Point>,
                   z: Limits)
    requires Flows([x], base, n, k, {}, outside, z) && Flows([y], base + 1, k, l, {}, outside, z)
    requires Flows([w], base + 2, l, m, {}, outside, z)
    ensures Flows([x, y, w], base, n, m, {}, outside, z)
  {
    hide Flows;
    Join3([x], [y], [w], base, n, k, l, m, outside, z);
    assert [x] + [y] + [w] == [x, y, w];
  }

  /** A jump to a point inside is no jump out. */
  lemma Seal(code: seq<Instr>, base: nat, n: nat, m: nat, marks: set<Point>, inner: set<Point>, outside: set<Point>,
             z: Limits)
    requires Flows(code, base, n, m, marks, inner, z)
    requires forall p :: p in inner ==>
               p in outside || p in marks || p == Point(base, n) || p == Point(base + |code|, m)
    ensures Flows(code, base, n, m, {}, outside, z)
  {
    hide Depths;
    SealKeeping(code, base, n, m, marks, inner, outside, z);
    var ds :|
      |ds| == |code| + 1 && Depths(ds, code, base, outside, z) && ds[0] == n && ds[|code|] == m
      && Marked(ds, base, marks);
    assert Marked(ds, base, {});
  }

  lemma SealKeeping(code: seq<Instr>, base: nat, n: nat, m: nat, marks: set<Point>, inner: set<Point>,
                    outside: set<Point>, z: Limits)
    requires Flows(code, base, n, m, marks, inner, z)
    requires forall p :: p in inner ==>
               p in outside || p in marks || p == Point(base, n) || p == Point(base + |code|, m)
    ensures Flows(code, base, n, m, marks, outside, z)
  {
    hide InstrOk;
    var ds :|
      |ds| == |code| + 1 && Depths(ds, code, base, inner, z) && ds[0] == n && ds[|code|] == m
      && Marked(ds, base, marks);
    forall i: nat | i < |code| ensures InstrOk(code[i], i, base, ds, outside, z) {
      InstrSealed(code[i], i, base, ds, marks, n, m, inner, outside, z);
    }
    assert Depths(ds, code, base, outside, z);
  }

  lemma InstrSealed(ins: Instr, i: nat, base: nat, ds: seq<nat>, marks: set<Point>, n: nat, m: nat, inner: set<Point>,
                    outside: set<Point>, z: Limits)
    requires i + 1 < |ds| && InstrOk(ins, i, base, ds, inner, z) && Marked(ds, base, marks)
    requires ds[0] == n && ds[|ds| - 1] == m
    requires forall p :: p in inner ==>
               p in outside || p in marks || p == Point(base, n) || p == Point(base + |ds| - 1, m)
    ensures InstrOk(ins, i, base, ds, outside, z)
  {
    if IsJump(ins.op) {
      var d := After(ins.op, ds[i]);
      if !(base <= ins.operand < base + |ds| && ds[ins.operand - base] == d) {
        assert Point(ins.operand, d) in inner;
      }
    }
  }

  lemma Join2(a: seq<Instr>, b: seq<Instr>, base: nat, n: nat, k: nat, m: nat, outside: set<Point>, z: Limits)
    requires Flows(a, base, n, k, {}, outside, z) && Flows(b, base + |a|, k, m, {}, outside, z)
    ensures Flows(a + b, base, n, m, {Point(base + |a|, k)}, outside, z)
    ensures Flows(a + b, base, n, m, {}, outside, z)
  {
    hide Flows;
    Join(a, b, base, n, k, m, {}, {}, outside, z);
    assert {} + {} + {Point(base + |a|, k)} == {Point(base + |a|, k)};
    Seal(a + b, base, n, m, {Point(base + |a|, k)}, outside, outside, z);
  }

  lemma Join3(a: seq<Instr>, b: seq<Instr>, c: seq<Instr>, base: nat, n: nat, k: nat, l: nat, m: nat,
              outside: set<Point>, z: Limits)
    requires Flows(a, base, n, k, {}, outside, z) && Flows(b, base + |a|, k, l, {}, outside, z)
    requires Flows(c, base + |a| + |b|, l, m, {}, outside, z)
    ensures Flows(a + b + c, base, n, m, {Point(base + |a|, k), Point(base + |a| + |b|, l)}, outside, z)
    ensures Flows(a + b + c, base, n, m, {}, outside, z)
  {
    hide Flows;
    var p, q := Point(base + |a|, k), Point(base + |a| + |b|, l);
    Join2(a, b, base, n, k, l, outside, z);
    Join(a + b, c, base, n, l, m, {p}, {}, outside, z);
    assert {p} + {} + {q} == {p, q};
    Seal(a + b + c, base, n, m, {p, q}, outside, outside, z);
  }

  lemma Join4(a: seq<Instr>, b: seq<Instr>, c: seq<Instr>, d: seq<Instr>, base: nat, n: nat, k: nat, l: nat, o: nat,
              m: nat, outside: set<Point>, z: Limits)
    requires Flows(a, base, n, k, {}, outside, z) && Flows(b, base + |a|, k, l, {}, outside, z)
    requires Flows(c, base + |a| + |b|, l, o, {}, outside, z)
    requires Flows(d, base + |a| + |b| + |c|, o, m, {}, outside, z)
    ensures Flows(a + b + c + d, base, n, m,
                  {Point(base + |a|, k), Point(base + |a| + |b|, l), Point(base + |a| + |b| + |c|, o)}, outside, z)
    ensures Flows(a + b + c + d, base, n, m, {}, outside, z)
  {
    hide Flows;
    var p, q, r := Point(base + |a|, k), Point(base + |a| + |b|, l), Point(base + |a| + |b| + |c|, o);
    Join3(a, b, c, base, n, k, l, o, outside, z);
    Join(a + b + c, d, base, n, o, m, {p, q}, {}, outside, z);
    assert {p, q} + {} + {r} == {p, q, r};
    Seal(a + b + c + d, base, n, m, {p, q, r}, outside, outside, z);
  }

  lemma Join5(a: seq<Instr>, b: seq<Instr>, c: seq<Instr>, d: seq<Instr>, e: seq<Instr>, base: nat, n: nat, k: nat,
              l: nat, o: nat, u: nat, m: nat, outside: set<Point>, z: Limits)
    requires Flows(a, base, n, k, {}, outside, z) && Flows(b, base + |a|, k, l, {}, outside, z)
    requires Flows(c, base + |a| + |b|, l, o, {}, outside, z)
    requires Flows(d, base + |a| + |b| + |c|, o, u, {}, outside, z)
    requires Flows(e, base + |a| + |b| + |c| + |d|, u, m, {}, outside, z)
    ensures Flows(a + b + c + d + e, base, n, m,
                  {Point(base + |a|, k), Point(base + |a| + |b|, l), Point(base + |a| + |b| + |c|, o),
                   Point(base + |a| + |b| + |c| + |d|, u)}, outside, z)
    ensures Flows(a + b + c + d + e, base, n, m, {}, outside, z)
  {
    hide Flows;
    var p, q, r := Point(base + |a|, k), Point(base + |a| + |b|, l), Point(base + |a| + |b| + |c|, o);
    var s := Point(base + |a| + |b| + |c| + |d|, u);
    Join4(a, b, c, d, base, n, k, l, o, u, outside, z);
    Join(a + b + c + d, e, base, n, u, m, {p, q, r}, {}, outside, z);
    assert {p, q, r} + {} + {s} == {p, q, r, s};
    Seal(a + b + c + d + e, base, n, m, {p, q, r, s}, outside, outside, z);
  }

  // ----- what the discipline is for -----

  /** The depth of the configuration is the depth of its address. */
  ghost predicate InStep<E>(st: State<E>, code: seq<Instr>, ds: seq<nat>) {
    match st
    case Running(c) => c.pc <= |code| && c.pc < |ds| && |c.stack| == ds[c.pc]
    case Halted(r) => r != Fault
  }

  lemma StepKeepsDepth<E>(f: Function, h: Host<E>, ds: seq<nat>, z: Limits, st: State<E>)
    requires Depths(ds, f.code, 0, {}, z) && z.consts <= |f.consts| && InStep(st, f.code, ds)
    ensures InStep(Step(f, h, st), f.code, ds)
  {
    if st.Running? && st.c.pc < |f.code| {
      var ins := f.code[st.c.pc];
      assert InstrOk(ins, st.c.pc, 0, ds, {}, z);
      ExecuteDepth(f, h, ins, st.c, z);
    }
  }

  /** One instruction changes the depth as its opcode says. */
  lemma ExecuteDepth<E>(f: Function, h: Host<E>, ins: Instr, c: Config<E>, z: Limits)
    requires Needs(ins.op) <= |c.stack| && OperandIn(ins, z) && z.consts <= |f.consts|
    ensures match Execute(f, h, ins, c)
            case Running(d) =>
              && |d.stack| == After(ins.op, |c.stack|)
              && ((FallsThrough(ins.op) && d.pc == c.pc + 1) || (IsJump(ins.op) && d.pc == ins.operand))
            case Halted(r) => r != Fault
  {
    hide Truthy, BinaryValue, UnaryValue;
  }

  lemma {:induction false} RunKeepsDepth<E>(f: Function, h: Host<E>, ds: seq<nat>, z: Limits, st: State<E>, k: nat)
    requires Depths(ds, f.code, 0, {}, z) && z.consts <= |f.consts| && InStep(st, f.code, ds)
    ensures InStep(Run(f, h, st, k), f.code, ds)
    decreases k
  {
    if k > 0 {
      StepKeepsDepth(f, h, ds, z, st);
      RunKeepsDepth(f, h, ds, z, Step(f, h, st), k - 1);
    }
  }

  /** Every run from the start, with any host, has depth `ds[pc]` at address
      `pc` and misses no operand. */
  ghost predicate DepthEverywhere<E(!new)>(f: Function, ds: seq<nat>) {
    |ds| == |f.code| + 1
    && forall h: Host<E>, t: Temps, env: E, k: nat :: InStep(Run(f, h, Running(Config(0, [], t, env)), k), f.code, ds)
  }

  /** In all runs of disciplined code, with any host, no operand is missing and
      two visits of one address find the same depth. */
  lemma OneDepth<E(!new)>(f: Function, z: Limits, m: nat)
    requires Flows(f.code, 0, 0, m, {}, {}, z) && z.consts <= |f.consts|
    ensures exists ds :: DepthEverywhere<E>(f, ds)
  {
    hide Depths, Run, InStep;
    var ds :|
      |ds| == |f.code| + 1 && Depths(ds, f.code, 0, {}, z) && ds[0] == 0 && ds[|f.code|] == m && Marked(ds, 0, {});
    forall h: Host<E>, t: Temps, env: E, k: nat
      ensures InStep(Run(f, h, Running(Config(0, [], t, env)), k), f.code, ds)
    {
      var start := Running(Config(0, [], t, env));
      StartsInStep(start, f.code, ds);
      RunKeepsDepth(f, h, ds, z, start, k);
    }
    assert DepthEverywhere<E>(f, ds);
  }

  lemma StartsInStep<E>(st: State<E>, code: seq<Instr>, ds: seq<nat>)
    requires st.Running? && st.c.pc == 0 && st.c.stack == [] && |ds| == |code| + 1 && ds[0] == 0
    ensures InStep(st, code, ds)
  {
  }
}
