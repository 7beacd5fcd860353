/** Pure facts behind the emitter's expression methods. */
module EmitterFacts {
  import opened Syntax
  import opened Machine
  import opened Semantics
  import opened CodeGen
  import opened Lengths
  import opened StmtGen
  import opened Patching
  import opened Frames

  // ----- sequences -----

  lemma Patch1(a: seq<Instr>, op: Opcode, target: nat, b: seq<Instr>)
    ensures (a + [Instr(op, 0)] + b)[|a| := Instr(op, target)] == a + [Instr(op, target)] + b
  {
  }

  lemma Patch2(a: seq<Instr>, op: Opcode, target: nat, b: seq<Instr>, c: seq<Instr>)
    ensures (a + [Instr(op, 0)] + b + c)[|a| := Instr(op, target)] == a + [Instr(op, target)] + b + c
  {
  }

  /** The jump over the second branch, resolved. */
  lemma BranchesPatched(s: seq<Instr>, mid: nat, c: seq<Instr>, a: seq<Instr>, end: nat)
    ensures var open := s + [Instr(JumpIfFalse, mid)] + c + [Instr(Jump, 0)] + a;
            open[|s| + 1 + |c| := Instr(Jump, end)] == s + ([Instr(JumpIfFalse, mid)] + c + [Instr(Jump, end)] + a)
  {
    Patch1(s + [Instr(JumpIfFalse, mid)] + c, Jump, end, a);
    Assoc4(s, [Instr(JumpIfFalse, mid)], c, [Instr(Jump, end)], a);
  }

  /** Both branches of a conditional and the jumps around them. */
  function GenArms(cons: Expr, alt: Expr, base: nat, T: Tables, sc: Scope): Code {
    var c := GenExpr(cons, base + 1, T, sc);
    var mid := base + 1 + |c.code| + 1;
    var a := GenExpr(alt, mid, c.tabs, sc);
    Code([Instr(JumpIfFalse, mid)] + c.code + [Instr(Jump, mid + |a.code|)] + a.code, a.tabs)
  }

  lemma ConditionalArms(e: Expr, base: nat, T: Tables, sc: Scope)
    requires e.Conditional?
    ensures var t := GenExpr(e.test, base, T, sc);
            var g := GenArms(e.cons, e.alt, base + |t.code|, t.tabs, sc);
            GenConditional(e, base, T, sc) == Code(t.code + g.code, g.tabs)
  {
    hide GenExpr;
    var t := GenExpr(e.test, base, T, sc);
    var c := GenExpr(e.cons, base + |t.code| + 1, t.tabs, sc);
    var mid := base + |t.code| + 1 + |c.code| + 1;
    var a := GenExpr(e.alt, mid, c.tabs, sc);
    Assoc4(t.code, [Instr(JumpIfFalse, mid)], c.code, [Instr(Jump, mid + |a.code|)], a.code);
  }

  lemma Assoc2(s: seq<Instr>, a: seq<Instr>, b: seq<Instr>)
    ensures s + a + b == s + (a + b)
  {
  }

  lemma Assoc3(s: seq<Instr>, a: seq<Instr>, b: seq<Instr>, c: seq<Instr>)
    ensures s + a + b + c == s + (a + b + c)
  {
  }

  lemma Assoc3Right(s: seq<Instr>, a: seq<Instr>, b: seq<Instr>, c: seq<Instr>)
    ensures s + a + (b + c) == s + (a + b + c)
  {
  }

  lemma Assoc4Right(s: seq<Instr>, a: seq<Instr>, b: seq<Instr>, c: seq<Instr>, d: seq<Instr>)
    ensures s + a + (b + c + d) == s + (a + b + c + d)
  {
  }

  lemma Assoc4(s: seq<Instr>, a: seq<Instr>, b: seq<Instr>, c: seq<Instr>, d: seq<Instr>)
    ensures s + a + b + c + d == s + (a + b + c + d)
  {
  }

  lemma Assoc5(s: seq<Instr>, a: seq<Instr>, b: seq<Instr>, c: seq<Instr>, d: seq<Instr>, e: seq<Instr>)
    ensures s + a + b + c + d + e == s + (a + b + c + d + e)
  {
  }

  /** Position of the jump that skips the right operand. */
  function JumpOffset(op: LogicalOp): nat {
    if op == NullishCoal then 2 else 1
  }

  lemma ShortCircuitPatched(a: seq<Instr>, op: LogicalOp, rhs: nat, end: nat, tail: seq<Instr>)
    ensures var code := a + ShortCircuit(op, rhs, 0) + tail;
            var at := |a| + JumpOffset(op);
            code[at := Instr(code[at].op, end)] == a + ShortCircuit(op, rhs, end) + tail
  {
  }

  lemma LogicalSize(e: Expr, sc: Scope)
    requires e.LogicalExpr?
    ensures LenExpr(e, sc) == LenExpr(e.left, sc) + ShortCircuitSize(e.logop) + LenExpr(e.right, sc)
  {
  }

  /** One expression of a sequence and the rest of it. */
  lemma SequenceNext(es: ExprList, code: seq<Instr>, T: Tables, sc: Scope)
    requires es.ECons? && es.tail.ECons?
    ensures var h := GenExpr(es.head, |code|, T, sc);
            var next := code + h.code + [Bare(Pop)];
            var t := GenSequence(es.tail, |next|, h.tabs, sc);
            code + GenSequence(es, |code|, T, sc).code == next + t.code && GenSequence(es, |code|, T, sc).tabs == t.tabs
  {
    hide GenExpr;
    var h := GenExpr(es.head, |code|, T, sc);
    var t := GenSequence(es.tail, |code| + |h.code| + 1, h.tabs, sc);
    assert code + (h.code + [Bare(Pop)] + t.code) == code + h.code + [Bare(Pop)] + t.code;
  }

  lemma ConditionalSize(e: Expr, sc: Scope)
    requires e.Conditional?
    ensures LenExpr(e, sc) == LenExpr(e.test, sc) + 1 + LenExpr(e.cons, sc) + 1 + LenExpr(e.alt, sc)
  {
  }

  lemma IfElseSize(s: Stmt, sh: Shape, sc: Scope)
    requires s.If? && s.alt.Some?
    ensures LenStmt(s, [], sh, sc)
         == LenExpr(s.test, sc) + 1 + LenStmt(s.cons, [], sh, sc) + 1 + LenStmt(s.alt.value, [], sh, sc)
  {
  }

  lemma DoSize(s: Stmt, labels: seq<string>, sh: Shape, sc: Scope)
    requires s.DoWhile?
    ensures LenStmt(s, labels, sh, sc)
            == LenStmt(s.loopBody, [], PushLoop(sh, labels, true), sc) + LenExpr(s.test, sc) + 1
  {
  }

  lemma CompoundSize(e: Expr, sc: Scope)
    requires e.AssignExpr? && e.asgop.Compound?
    ensures LenExpr(e, sc) == LenTarget(e.target, sc) + TargetSize(e.target) + LenExpr(e.right, sc)
                              + |BinaryCode(e.asgop.op)| + 1 + TargetSize(e.target)
  {
  }

  lemma LogicalAssignSize(e: Expr, sc: Scope)
    requires e.AssignExpr? && e.asgop.Logical?
    ensures LenExpr(e, sc) == LenTarget(e.target, sc) + TargetSize(e.target) + ShortCircuitSize(e.asgop.logical)
                              + LenExpr(e.right, sc) + 1 + TargetSize(e.target)
  {
  }

  lemma UpdateSize(e: Expr, sc: Scope)
    requires e.Update?
    ensures LenExpr(e, sc) == LenTarget(e.target, sc) + TargetSize(e.target) + 3 + TargetSize(e.target)
  {
  }

  function PreparedLen(p: Prepared): nat {
    if p.PreparedName? then 1 else 3
  }

  lemma PreparedSize(p: Prepared, T: Tables, sc: Scope)
    ensures |GenLoadPrepared(p, T, sc).code| == PreparedLen(p) == |GenPutPrepared(p, T, sc).code|
  {
  }

  // ----- logical assignment -----

  /** The short circuit, the right-hand side and the store. */
  function GuardedStore(op: LogicalOp, right: Expr, p: Prepared, base: nat, T: Tables, sc: Scope): Code {
    var r := GenExpr(right, base + ShortCircuitSize(op), T, sc);
    var s := GenPutPrepared(p, r.tabs, sc);
    var end := base + ShortCircuitSize(op) + |r.code| + 1 + |s.code|;
    Code(ShortCircuit(op, base + 3, end) + r.code + ([Bare(Dup)] + s.code), s.tabs)
  }

  /** The parts of a target and its present value. */
  function GenLoaded(t: Target, base: nat, T: Tables, sc: Scope): Preparation {
    var p := GenPrepare(t, base, T, sc);
    var l := GenLoadPrepared(p.prepared, p.tabs, sc);
    Preparation(p.code + l.code, l.tabs, p.prepared)
  }

  lemma LoadedSize(t: Target, base: nat, T: Tables, sc: Scope)
    ensures var q := GenLoaded(t, base, T, sc);
            |q.code| == LenTarget(t, sc) + TargetSize(t) && PreparedLen(q.prepared) == TargetSize(t)
  {
    hide GenPrepare, GenLoadPrepared, LenTarget;
    var p := GenPrepare(t, base, T, sc);
    TargetLength(t, base, T, sc);
    PreparedSize(p.prepared, p.tabs, sc);
  }

  lemma GuardedStoreTail(e: Expr, base: nat, T: Tables, sc: Scope)
    requires e.AssignExpr? && e.asgop.Logical?
    ensures var q := GenLoaded(e.target, base, T, sc);
            var g := GuardedStore(e.asgop.logical, e.right, q.prepared, base + |q.code|, q.tabs, sc);
            GenLogicalAssign(e, base, T, sc) == Code(q.code + g.code, g.tabs)
  {
    hide GenExpr, GenPrepare, GenLoadPrepared, GenPutPrepared, ShortCircuit;
    var op := e.asgop.logical;
    var q := GenLoaded(e.target, base, T, sc);
    var mid := base + |q.code|;
    var r := GenExpr(e.right, mid + ShortCircuitSize(op), q.tabs, sc);
    var s := GenPutPrepared(q.prepared, r.tabs, sc);
    var end := mid + ShortCircuitSize(op) + |r.code| + 1 + |s.code|;
    var guard, last := ShortCircuit(op, mid + 3, end), [Bare(Dup)] + s.code;
    assert q.code + (guard + r.code + last) == q.code + guard + r.code + last;
  }

  /** The right-hand side combined with the value on the stack, and stored. */
  function CombinedStore(op: BinOp, right: Expr, p: Prepared, base: nat, T: Tables, sc: Scope): Code {
    var r := GenExpr(right, base, T, sc);
    var s := GenPutPrepared(p, r.tabs, sc);
    Code(r.code + (BinaryCode(op) + [Bare(Dup)]) + s.code, s.tabs)
  }

  lemma CombinedStoreTail(e: Expr, base: nat, T: Tables, sc: Scope)
    requires e.AssignExpr? && e.asgop.Compound?
    ensures var q := GenLoaded(e.target, base, T, sc);
            var g := CombinedStore(e.asgop.op, e.right, q.prepared, base + |q.code|, q.tabs, sc);
            GenCompound(e, base, T, sc) == Code(q.code + g.code, g.tabs)
  {
    hide GenExpr, GenPrepare, GenLoadPrepared, GenPutPrepared, BinaryCode;
    var q := GenLoaded(e.target, base, T, sc);
    var r := GenExpr(e.right, base + |q.code|, q.tabs, sc);
    var s := GenPutPrepared(q.prepared, r.tabs, sc);
    var apply := BinaryCode(e.asgop.op) + [Bare(Dup)];
    assert q.code + (r.code + apply + s.code) == q.code + r.code + apply + s.code;
  }

  // ----- optional chains -----

  datatype Access = Access(prop: Property, optional: bool)

  /** The member spine that applies the accesses in order. */
  function Chain(root: Expr, members: seq<Access>): Expr {
    if members == [] then root
    else
      var n := |members| - 1;
      Member(Chain(root, members[..n]), members[n].prop, members[n].optional)
  }

  /** The addresses of the nullish tests of a chain. */
  function ChainJumps(e: Expr, base: nat, T: Tables, sc: Scope): seq<nat> {
    match e
    case Member(obj, _, optional) =>
      ChainJumps(obj, base, T, sc) + (if optional then [base + |GenChain(obj, base, 0, T, sc).code| + 1] else [])
    case _ => []
  }

  lemma ChainStart(root: Expr, base: nat, T: Tables, sc: Scope)
    requires !root.Member?
    ensures GenChain(Chain(root, []), base, 0, T, sc) == GenExpr(root, base, T, sc)
    ensures ChainJumps(Chain(root, []), base, T, sc) == [] && LenChain(root, sc) == LenExpr(root, sc)
    ensures Chain(root, []) == root
  {
  }

  lemma ChainNext(root: Expr, members: seq<Access>, i: nat, base: nat, T: Tables, sc: Scope)
    requires i < |members|
    ensures var o := GenChain(Chain(root, members[..i]), base, 0, T, sc);
            var test := NullishTest(members[i].optional, 0);
            var k := GenProperty(members[i].prop, base + |o.code| + |test|, o.tabs, sc);
            GenChain(Chain(root, members[..i + 1]), base, 0, T, sc)
            == Code(o.code + test + k.code + [Bare(GetProp)], k.tabs)
    ensures ChainJumps(Chain(root, members[..i + 1]), base, T, sc)
            == ChainJumps(Chain(root, members[..i]), base, T, sc)
               + (if members[i].optional then [base + |GenChain(Chain(root, members[..i]), base, 0, T, sc).code| + 1]
                  else [])
    ensures LenChain(Chain(root, members[..i + 1]), sc)
            == LenChain(Chain(root, members[..i]), sc) + (if members[i].optional then 2 else 0)
               + LenProperty(members[i].prop, sc) + 1
  {
    hide GenExpr, GenProperty, LenExpr, LenProperty;
    assert members[..i + 1][..i] == members[..i];
    assert Chain(root, members[..i + 1]) == Member(Chain(root, members[..i]), members[i].prop, members[i].optional);
  }

  lemma {:induction false} ChainPrefixLength(root: Expr, members: seq<Access>, i: nat, sc: Scope)
    requires i <= |members|
    ensures LenChain(Chain(root, members[..i]), sc) <= LenChain(Chain(root, members), sc)
    decreases |members| - i
  {
    if i == |members| {
      assert members[..i] == members;
    } else {
      ChainNext(root, members, i, 0, Tables([], map[], 0), sc);
      ChainPrefixLength(root, members, i + 1, sc);
    }
  }

  lemma {:induction false} PatchAllCat(code: seq<Instr>, a: seq<nat>, b: seq<nat>, target: nat)
    requires forall at :: at in a + b ==> at < |code|
    ensures (forall at :: at in a ==> at < |code|) && |PatchAll(code, a, target)| == |code|
    ensures (forall at :: at in b ==> at < |code|)
    ensures PatchAll(code, a + b, target) == PatchAll(PatchAll(code, a, target), b, target)
    decreases |a|
  {
    assert forall at :: at in a ==> at in a + b;
    assert forall at :: at in b ==> at in a + b;
    if a == [] {
      assert a + b == b;
    } else {
      assert a[0] in a && (a + b)[1..] == a[1..] + b;
      assert forall at :: at in a[1..] + b ==> at in a + b;
      PatchAllCat(code[a[0] := Instr(code[a[0]].op, target)], a[1..], b, target);
    }
  }

  lemma TestPatched(first: seq<Instr>, z: seq<Instr>, p: seq<Instr>, rest: seq<Instr>, optional: bool, nullish: nat,
                    js: seq<nat>)
    requires |z| == |p| && forall at :: at in js ==> at < |first + z|
    requires var code := first + z + (NullishTest(optional, 0) + rest);
             PatchAll(code, js, nullish) == first + p + (NullishTest(optional, 0) + rest)
    ensures var code := first + z + (NullishTest(optional, 0) + rest);
            var all := js + (if optional then [|first| + |z| + 1] else []);
            && (forall at :: at in all ==> at < |first + z + NullishTest(optional, 0)|)
            && PatchAll(code, all, nullish) == first + p + (NullishTest(optional, nullish) + rest)
  {
    var code := first + z + (NullishTest(optional, 0) + rest);
    if optional {
      var j := |first| + |z| + 1;
      PatchAllCat(code, js, [j], nullish);
      var mid := first + p + (NullishTest(optional, 0) + rest);
      assert mid[j] == Instr(JumpIfNullish, 0);
      assert PatchAll(mid, [j], nullish) == mid[j := Instr(JumpIfNullish, nullish)];
      assert mid[j := Instr(JumpIfNullish, nullish)] == first + p + (NullishTest(optional, nullish) + rest);
    } else {
      assert js + [] == js;
    }
  }

  lemma NullishTestSize()
    ensures forall optional, pc :: |NullishTest(optional, pc)| == if optional then 2 else 0
  {
  }

  lemma ChainSplit(first: seq<Instr>, o: seq<Instr>, test: seq<Instr>, k: seq<Instr>, last: seq<Instr>)
    ensures first + (o + test + k + [Bare(GetProp)]) + last == first + o + (test + (k + [Bare(GetProp)] + last))
  {
  }

  /** Patching the open tests of a chain gives the chain with its exit known. */
  lemma {:induction false} ChainPatched(e: Expr, first: seq<Instr>, nullish: nat, T: Tables, sc: Scope,
                                        last: seq<Instr>)
    ensures var z := GenChain(e, |first|, 0, T, sc);
            var p := GenChain(e, |first|, nullish, T, sc);
            var js := ChainJumps(e, |first|, T, sc);
            && z.tabs == p.tabs && |z.code| == |p.code|
            && (forall at :: at in js ==> at < |first + z.code|)
            && PatchAll(first + z.code + last, js, nullish) == first + p.code + last
    decreases e
  {
    hide GenExpr, GenProperty, PatchAll, NullishTest;
    NullishTestSize();
    match e
    case Member(obj, prop, optional) =>
      var base := |first|;
      var oz, op := GenChain(obj, base, 0, T, sc), GenChain(obj, base, nullish, T, sc);
      var test := NullishTest(optional, 0);
      var k := GenProperty(prop, base + |oz.code| + |test|, oz.tabs, sc);
      var rest := k.code + [Bare(GetProp)] + last;
      ChainPatched(obj, first, nullish, T, sc, test + rest);
      ChainSplit(first, oz.code, test, k.code, last);
      ChainSplit(first, op.code, NullishTest(optional, nullish), k.code, last);
      TestPatched(first, oz.code, op.code, rest, optional, nullish, ChainJumps(obj, base, T, sc));
    case _ => PatchNone(first + GenChain(e, |first|, 0, T, sc).code + last, nullish);
  }

  lemma ExitPatched(a: seq<Instr>, nullish: nat)
    requires nullish == |a| + 1
    ensures (a + [Instr(Jump, 0)] + [Bare(Pop)] + [Bare(LdaUndefined)])[|a| := Instr(Jump, |a| + 3)]
            == a + ChainExit(nullish)
  {
  }

  lemma PatchNone(code: seq<Instr>, target: nat)
    ensures PatchAll(code, [], target) == code
  {
  }
}
