/** The two-pass generator for statements. Jump targets of enclosing loops and
    labelled blocks are parameters, computed from lengths; every jump that the
    one-pass emitter leaves open for later patching is recorded as a hole. */
module StmtGen {
  import opened Syntax
  import opened Machine
  import opened Semantics
  import opened CodeGen

  // ----- enclosing jump targets -----

  datatype LoopShape = LoopShape(labels: seq<string>, iteration: bool)

  /** The enclosing loops and switches, and the enclosing labelled
      statements that are not loops, innermost last. */
  datatype Shape = Shape(loops: seq<LoopShape>, blocks: seq<seq<string>>)

  /** The list of placeholders that a jump joins. */
  datatype Slot = BreakLoop(i: nat) | ContinueLoop(i: nat) | ExitBlock(i: nat)

  /** Resolved addresses, one per loop or block of the shape. */
  datatype Targets = Targets(breaks: seq<nat>, continues: seq<nat>, exits: seq<nat>)

  function LastLabelled(loops: seq<LoopShape>, l: string): Option<nat> {
    if loops == [] then None
    else
      var n := |loops| - 1;
      if l in loops[n].labels then Some(n) else LastLabelled(loops[..n], l)
  }

  function LastBlock(blocks: seq<seq<string>>, l: string): Option<nat> {
    if blocks == [] then None
    else
      var n := |blocks| - 1;
      if l in blocks[n] then Some(n) else LastBlock(blocks[..n], l)
  }

  function LastIteration(loops: seq<LoopShape>, l: Option<string>): Option<nat> {
    if loops == [] then None
    else
      var n := |loops| - 1;
      if loops[n].iteration && (l.None? || l.value in loops[n].labels) then Some(n)
      else LastIteration(loops[..n], l)
  }

  /** Loops and switches are searched before labelled blocks. */
  function FindBreak(sh: Shape, l: Option<string>): Option<Slot> {
    match l
    case None => if |sh.loops| > 0 then Some(BreakLoop(|sh.loops| - 1)) else None
    case Some(name) =>
      match LastLabelled(sh.loops, name)
      case Some(i) => Some(BreakLoop(i))
      case None =>
        match LastBlock(sh.blocks, name)
        case Some(i) => Some(ExitBlock(i))
        case None => None
  }

  function FindContinue(sh: Shape, l: Option<string>): Option<Slot> {
    match LastIteration(sh.loops, l)
    case Some(i) => Some(ContinueLoop(i))
    case None => None
  }

  function Addr(tg: Targets, slot: Slot): nat {
    match slot
    case BreakLoop(i) => if i < |tg.breaks| then tg.breaks[i] else 0
    case ContinueLoop(i) => if i < |tg.continues| then tg.continues[i] else 0
    case ExitBlock(i) => if i < |tg.exits| then tg.exits[i] else 0
  }

  predicate Fits(sh: Shape, tg: Targets) {
    |tg.breaks| == |sh.loops| && |tg.continues| == |sh.loops| && |tg.exits| == |sh.blocks|
  }

  function PushLoop(sh: Shape, labels: seq<string>, iteration: bool): Shape {
    sh.(loops := sh.loops + [LoopShape(labels, iteration)])
  }

  function PushBlock(sh: Shape, labels: seq<string>): Shape {
    sh.(blocks := sh.blocks + [labels])
  }

  function PushLoopTarget(tg: Targets, brk: nat, cont: nat): Targets {
    tg.(breaks := tg.breaks + [brk], continues := tg.continues + [cont])
  }

  function PushExit(tg: Targets, exit: nat): Targets {
    tg.(exits := tg.exits + [exit])
  }

  // ----- generated fragments -----

  datatype Hole = Hole(slot: Slot, at: nat)

  datatype JumpError = NoBreakTarget | NoContinueTarget

  datatype Gen = Gen(code: seq<Instr>, tabs: Tables, holes: seq<Hole>, errs: seq<JumpError>)

  function Plain(c: Code): Gen {
    Gen(c.code, c.tabs, [], [])
  }

  /** The holes that remain open when loop number `n` is closed. */
  function DropLoop(holes: seq<Hole>, n: nat): seq<Hole> {
    if holes == [] then []
    else if holes[0].slot == BreakLoop(n) || holes[0].slot == ContinueLoop(n) then DropLoop(holes[1..], n)
    else [holes[0]] + DropLoop(holes[1..], n)
  }

  function DropBlock(holes: seq<Hole>, n: nat): seq<Hole> {
    if holes == [] then []
    else if holes[0].slot == ExitBlock(n) then DropBlock(holes[1..], n)
    else [holes[0]] + DropBlock(holes[1..], n)
  }

  function GenJump(found: Option<Slot>, base: nat, tg: Targets, T: Tables, err: JumpError): Gen {
    match found
    case Some(slot) => Gen([Instr(Jump, Addr(tg, slot))], T, [Hole(slot, base)], [])
    case None => Gen([], T, [], [err])
  }

  function GenClause(e: Option<Expr>, base: nat, T: Tables, sc: Scope): Code {
    if e.Some? then GenExpr(e.value, base, T, sc) else Code([], T)
  }

  /** Discard the value of a present clause. */
  function PopIf(e: Option<Expr>): seq<Instr> {
    if e.Some? then [Bare(Pop)] else []
  }

  function ExitIf(e: Option<Expr>, end: nat): seq<Instr> {
    if e.Some? then [Instr(JumpIfFalse, end)] else []
  }

  /** A labelled statement whose labels belong to the loop inside it. */
  predicate PassesLabels(body: Stmt) {
    body.Labeled? || IsIteration(body)
  }

  // ----- lengths -----

  function LenClause(e: Option<Expr>, sc: Scope): nat {
    if e.Some? then LenExpr(e.value, sc) else 0
  }

  function LenOptional(e: Option<Expr>, sc: Scope): nat {
    if e.Some? then LenExpr(e.value, sc) + 1 else 0
  }

  function LenStmt(s: Stmt, labels: seq<string>, sh: Shape, sc: Scope): nat
    decreases s, 1
  {
    match s
    case Empty => 0
    case Block(body) => LenList(body, sh, sc)
    case ExprStmt(e) => LenExpr(e, sc) + 1
    case Return(arg) => if arg.Some? then LenExpr(arg.value, sc) + 1 else 2
    case ThrowStmt(e) => LenExpr(e, sc) + 1
    case If(t, c, alt) =>
      LenExpr(t, sc) + 1 + LenStmt(c, [], sh, sc)
      + (if alt.Some? then 1 + LenStmt(alt.value, [], sh, sc) else 0)
    case While(t, body) => LenExpr(t, sc) + 1 + LenStmt(body, [], PushLoop(sh, labels, true), sc) + 1
    case DoWhile(body, t) => LenStmt(body, [], PushLoop(sh, labels, true), sc) + LenExpr(t, sc) + 1
    case For(init, cond, update, body) =>
      LenOptional(init, sc) + LenOptional(cond, sc) + LenStmt(body, [], PushLoop(sh, labels, true), sc)
      + LenOptional(update, sc) + 1
    case Switch(disc, cases) =>
      LenExpr(disc, sc) + 1 + LenTests(cases, sc) + 1 + LenBodies(cases, PushLoop(sh, [], false), sc)
    case Break(l) => if FindBreak(sh, l).Some? then 1 else 0
    case Continue(l) => if FindContinue(sh, l).Some? then 1 else 0
    case Labeled(name, body) =>
      if PassesLabels(body) then LenStmt(body, labels + [name], sh, sc)
      else LenStmt(body, [], PushBlock(sh, labels + [name]), sc)
  }

  function LenList(ss: StmtList, sh: Shape, sc: Scope): nat
    decreases ss, 0
  {
    match ss
    case SNil => 0
    case SCons(s, tail) => LenStmt(s, [], sh, sc) + LenList(tail, sh, sc)
  }

  function LenTests(cases: CaseList, sc: Scope): nat {
    match cases
    case CNil => 0
    case CCons(c, tail) => (if c.test.Some? then LenExpr(c.test.value, sc) + 3 else 0) + LenTests(tail, sc)
  }

  function LenBodies(cases: CaseList, sh: Shape, sc: Scope): nat
    decreases cases, 0
  {
    match cases
    case CNil => 0
    case CCons(c, tail) => LenList(c.body, sh, sc) + LenBodies(tail, sh, sc)
  }

  /** Address of body number `i` when the bodies start at `pc`. */
  function BodyStart(cases: CaseList, i: nat, pc: nat, sh: Shape, sc: Scope): nat {
    match cases
    case CNil => pc
    case CCons(c, tail) => if i == 0 then pc else BodyStart(tail, i - 1, pc + LenList(c.body, sh, sc), sh, sc)
  }

  // ----- code of statements -----

  function GenStmt(s: Stmt, base: nat, labels: seq<string>, sh: Shape, tg: Targets, T: Tables, sc: Scope): Gen
    decreases s, 2
  {
    match s
    case Empty => Gen([], T, [], [])
    case Block(body) => GenList(body, base, sh, tg, T, sc)
    case ExprStmt(e) =>
      var g := GenExpr(e, base, T, sc);
      Gen(g.code + [Bare(Pop)], g.tabs, [], [])
    case Return(None) => Gen([Bare(LdaUndefined), Bare(ReturnOp)], T, [], [])
    case Return(Some(e)) =>
      var g := GenExpr(e, base, T, sc);
      Gen(g.code + [Bare(ReturnOp)], g.tabs, [], [])
    case ThrowStmt(e) =>
      var g := GenExpr(e, base, T, sc);
      Gen(g.code + [Bare(ThrowOp)], g.tabs, [], [])
    case If(_, _, None) => GenIf(s, base, sh, tg, T, sc)
    case If(_, _, Some(_)) => GenIfElse(s, base, sh, tg, T, sc)
    case While(_, _) => GenWhile(s, base, labels, sh, tg, T, sc)
    case DoWhile(_, _) => GenDo(s, base, labels, sh, tg, T, sc)
    case For(_, _, _, _) => GenFor(s, base, labels, sh, tg, T, sc)
    case Switch(_, _) => GenSwitch(s, base, sh, tg, T, sc)
    case Break(l) => GenJump(FindBreak(sh, l), base, tg, T, NoBreakTarget)
    case Continue(l) => GenJump(FindContinue(sh, l), base, tg, T, NoContinueTarget)
    case Labeled(name, body) =>
      if PassesLabels(body) then GenStmt(body, base, labels + [name], sh, tg, T, sc)
      else GenLabeledBlock(body, base, labels + [name], sh, tg, T, sc)
  }

  function GenList(ss: StmtList, base: nat, sh: Shape, tg: Targets, T: Tables, sc: Scope): Gen
    decreases ss, 0
  {
    match ss
    case SNil => Gen([], T, [], [])
    case SCons(s, tail) =>
      var a := GenStmt(s, base, [], sh, tg, T, sc);
      var b := GenList(tail, base + |a.code|, sh, tg, a.tabs, sc);
      Gen(a.code + b.code, b.tabs, a.holes + b.holes, a.errs + b.errs)
  }

  function GenIf(s: Stmt, base: nat, sh: Shape, tg: Targets, T: Tables, sc: Scope): Gen
    requires s.If?
    decreases s, 0
  {
    var t := GenExpr(s.test, base, T, sc);
    var c := GenStmt(s.cons, base + |t.code| + 1, [], sh, tg, t.tabs, sc);
    var end := base + |t.code| + 1 + |c.code|;
    Gen(t.code + [Instr(JumpIfFalse, end)] + c.code, c.tabs, c.holes, c.errs)
  }

  function GenIfElse(s: Stmt, base: nat, sh: Shape, tg: Targets, T: Tables, sc: Scope): Gen
    requires s.If? && s.alt.Some?
    decreases s, 0
  {
    var t := GenExpr(s.test, base, T, sc);
    var c := GenStmt(s.cons, base + |t.code| + 1, [], sh, tg, t.tabs, sc);
    var mid := base + |t.code| + 1 + |c.code| + 1;
    var d := GenStmt(s.alt.value, mid, [], sh, tg, c.tabs, sc);
    Gen(t.code + [Instr(JumpIfFalse, mid)] + c.code + [Instr(Jump, mid + |d.code|)] + d.code,
        d.tabs, c.holes + d.holes, c.errs + d.errs)
  }

  function GenWhile(s: Stmt, base: nat, labels: seq<string>, sh: Shape, tg: Targets, T: Tables, sc: Scope): Gen
    requires s.While?
    decreases s, 0
  {
    var inner := PushLoop(sh, labels, true);
    var t := GenExpr(s.test, base, T, sc);
    var pb := base + |t.code| + 1;
    var end := pb + LenStmt(s.loopBody, [], inner, sc) + 1;
    var b := GenStmt(s.loopBody, pb, [], inner, PushLoopTarget(tg, end, base), t.tabs, sc);
    Gen(t.code + [Instr(JumpIfFalse, end)] + b.code + [Instr(Jump, base)],
        b.tabs, DropLoop(b.holes, |sh.loops|), b.errs)
  }

  function GenDo(s: Stmt, base: nat, labels: seq<string>, sh: Shape, tg: Targets, T: Tables, sc: Scope): Gen
    requires s.DoWhile?
    decreases s, 0
  {
    var inner := PushLoop(sh, labels, true);
    var pt := base + LenStmt(s.loopBody, [], inner, sc);
    var end := pt + LenExpr(s.test, sc) + 1;
    var b := GenStmt(s.loopBody, base, [], inner, PushLoopTarget(tg, end, pt), T, sc);
    var t := GenExpr(s.test, pt, b.tabs, sc);
    Gen(b.code + t.code + [Instr(JumpIfTrue, base)], t.tabs, DropLoop(b.holes, |sh.loops|), b.errs)
  }

  function GenFor(s: Stmt, base: nat, labels: seq<string>, sh: Shape, tg: Targets, T: Tables, sc: Scope): Gen
    requires s.For?
    decreases s, 1
  {
    var i := GenClause(s.init, base, T, sc);
    var start := base + |i.code| + |PopIf(s.init)|;
    var l := GenForLoop(s, start, labels, sh, tg, i.tabs, sc);
    Gen(i.code + PopIf(s.init) + l.code, l.tabs, l.holes, l.errs)
  }

  /** A `for` statement after its initializer. */
  function GenForLoop(s: Stmt, start: nat, labels: seq<string>, sh: Shape, tg: Targets, T: Tables, sc: Scope): Gen
    requires s.For?
    decreases s, 0
  {
    var inner := PushLoop(sh, labels, true);
    var c := GenClause(s.cond, start, T, sc);
    var pb := start + |c.code| + |ExitIf(s.cond, 0)|;
    var pu := pb + LenStmt(s.loopBody, [], inner, sc);
    var end := pu + LenOptional(s.update, sc) + 1;
    var b := GenStmt(s.loopBody, pb, [], inner, PushLoopTarget(tg, end, pu), c.tabs, sc);
    var u := GenClause(s.update, pu, b.tabs, sc);
    Gen(c.code + ExitIf(s.cond, end) + b.code + (u.code + PopIf(s.update)) + [Instr(Jump, start)],
        u.tabs, DropLoop(b.holes, |sh.loops|), b.errs)
  }

  function GenLabeledBlock(body: Stmt, base: nat, all: seq<string>, sh: Shape, tg: Targets, T: Tables, sc: Scope): Gen
    decreases body, 3
  {
    var inner := PushBlock(sh, all);
    var end := base + LenStmt(body, [], inner, sc);
    var b := GenStmt(body, base, [], inner, PushExit(tg, end), T, sc);
    Gen(b.code, b.tabs, DropBlock(b.holes, |sh.blocks|), b.errs)
  }

  /** Discriminant to a scratch slot, tests jumping to bodies, a jump to the
      default, then the bodies. */
  function GenSwitch(s: Stmt, base: nat, sh: Shape, tg: Targets, T: Tables, sc: Scope): Gen
    requires s.Switch?
    decreases s, 0
  {
    var inner := PushLoop(sh, [], false);
    var d := GenExpr(s.disc, base, T, sc);
    var tmp := InternLocal(SwitchDisc, d.tabs);
    var pt := base + |d.code| + 1;
    var pb := pt + LenTests(s.cases, sc) + 1;
    var end := pb + LenBodies(s.cases, inner, sc);
    var c := GenTests(s.cases, pt, tmp.index, pb, inner, tmp.tabs, sc);
    var b := GenBodies(s.cases, pb, inner, PushLoopTarget(tg, end, end), c.tabs, sc);
    var exit := [Instr(Jump, DefaultStart(s.cases, pb, end, inner, sc))];
    Gen(d.code + [Instr(StaLocal, tmp.index)] + c.code + exit + b.code,
        b.tabs, DropLoop(b.holes, |sh.loops|), b.errs)
  }

  function DefaultStart(cases: CaseList, pb: nat, end: nat, sh: Shape, sc: Scope): nat {
    match DefaultIndex(cases, 0)
    case Some(i) => BodyStart(cases, i, pb, sh, sc)
    case None => end
  }

  function GenTests(cases: CaseList, pc: nat, tmp: nat, bodyPc: nat, sh: Shape, T: Tables, sc: Scope): Code {
    match cases
    case CNil => Code([], T)
    case CCons(c, tail) =>
      var next := bodyPc + LenList(c.body, sh, sc);
      match c.test
      case None => GenTests(tail, pc, tmp, next, sh, T, sc)
      case Some(e) =>
        var t := GenExpr(e, pc + 1, T, sc);
        var rest := GenTests(tail, pc + 1 + |t.code| + 2, tmp, next, sh, t.tabs, sc);
        Code([Instr(LdaLocal, tmp)] + t.code + [Bare(BinaryOp(StrictEq)), Instr(JumpIfTrue, bodyPc)] + rest.code,
             rest.tabs)
  }

  function GenBodies(cases: CaseList, base: nat, sh: Shape, tg: Targets, T: Tables, sc: Scope): Gen
    decreases cases, 0
  {
    match cases
    case CNil => Gen([], T, [], [])
    case CCons(c, tail) =>
      var a := GenList(c.body, base, sh, tg, T, sc);
      var b := GenBodies(tail, base + |a.code|, sh, tg, a.tabs, sc);
      Gen(a.code + b.code, b.tabs, a.holes + b.holes, a.errs + b.errs)
  }

  // ----- functions -----

  const NoShape := Shape([], [])
  const NoTargets := Targets([], [], [])

  /** A function body: its statements, then an implicit `return undefined`. */
  function GenFunction(body: StmtList, T: Tables, sc: Scope): Gen {
    var g := GenList(body, 0, NoShape, NoTargets, T, sc);
    g.(code := g.code + [Bare(LdaUndefined), Bare(ReturnOp)])
  }

  // ----- scripts -----

  /** Top-level expression statements leave their values on the stack. */
  function GenTop(ss: StmtList, base: nat, T: Tables, sc: Scope): Gen {
    match ss
    case SNil => Gen([], T, [], [])
    case SCons(s, tail) =>
      if s.ExprStmt? then
        var a := GenExpr(s.expr, base, T, sc);
        var b := GenTop(tail, base + |a.code|, a.tabs, sc);
        b.(code := a.code + b.code)
      else
        var a := GenStmt(s, base, [], NoShape, NoTargets, T, sc);
        var b := GenTop(tail, base + |a.code|, a.tabs, sc);
        Gen(a.code + b.code, b.tabs, a.holes + b.holes, a.errs + b.errs)
  }

  function GenScript(body: StmtList, T: Tables, sc: Scope): Gen {
    var g := GenTop(body, 0, T, sc);
    g.(code := g.code + [Bare(ReturnOp)])
  }
}
