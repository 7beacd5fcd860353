/** A function inside loops. The emitter enters its body with the frames of the
    enclosing functions still in place, and a jump is resolved among all of them.
    Its code is that of the body alone, and those frames stay as they are, unless
    a `break` out of a labelled block has the label of an outer loop. */
module OuterFrames {
  import opened Syntax
  import opened Machine
  import opened Semantics
  import opened CodeGen
  import opened StmtGen
  import opened JumpTargets
  import opened Patching
  import opened Frames
  import opened ClosingFacts

  /** The frames of the functions around, with their targets. */
  datatype Around = Around(shape: Shape, targets: Targets)

  ghost predicate Proper(o: Around) {
    Fits(o.shape, o.targets)
  }

  function Over(o: Around, sh: Shape): Shape {
    Shape(o.shape.loops + sh.loops, o.shape.blocks + sh.blocks)
  }

  function OverTargets(o: Around, tg: Targets): Targets {
    Targets(o.targets.breaks + tg.breaks, o.targets.continues + tg.continues, o.targets.exits + tg.exits)
  }

  function RaiseSlot(o: Around, slot: Slot): Slot {
    match slot
    case BreakLoop(i) => BreakLoop(|o.shape.loops| + i)
    case ContinueLoop(i) => ContinueLoop(|o.shape.loops| + i)
    case ExitBlock(i) => ExitBlock(|o.shape.blocks| + i)
  }

  function RaiseHoles(o: Around, holes: seq<Hole>): seq<Hole> {
    seq(|holes|, i requires 0 <= i < |holes| => Hole(RaiseSlot(o, holes[i].slot), holes[i].at))
  }

  function RaiseGen(o: Around, g: Gen): Gen {
    g.(holes := RaiseHoles(o, g.holes))
  }

  /** A label of a block here is not the label of a loop around. */
  predicate Kept(l: string, sh: Shape, around: seq<LoopShape>) {
    LastLabelled(sh.loops, l).None? && LastBlock(sh.blocks, l).Some? ==> LastLabelled(around, l).None?
  }

  /** No `break` to a labelled block uses a label of a loop around. */
  predicate Sheltered(s: Stmt, labels: seq<string>, sh: Shape, around: seq<LoopShape>)
    decreases s, 1
  {
    match s
    case Block(body) => ListSheltered(body, sh, around)
    case If(_, c, alt) =>
      Sheltered(c, [], sh, around) && (alt.Some? ==> Sheltered(alt.value, [], sh, around))
    case While(_, body) => Sheltered(body, [], PushLoop(sh, labels, true), around)
    case DoWhile(body, _) => Sheltered(body, [], PushLoop(sh, labels, true), around)
    case For(_, _, _, body) => Sheltered(body, [], PushLoop(sh, labels, true), around)
    case Switch(_, cases) => CasesSheltered(cases, PushLoop(sh, [], false), around)
    case Break(l) => l.Some? ==> Kept(l.value, sh, around)
    case Labeled(name, body) =>
      if PassesLabels(body) then Sheltered(body, labels + [name], sh, around)
      else Sheltered(body, [], PushBlock(sh, labels + [name]), around)
    case _ => true
  }

  predicate ListSheltered(ss: StmtList, sh: Shape, around: seq<LoopShape>)
    decreases ss, 0
  {
    match ss
    case SNil => true
    case SCons(s, tail) => Sheltered(s, [], sh, around) && ListSheltered(tail, sh, around)
  }

  predicate CasesSheltered(cases: CaseList, sh: Shape, around: seq<LoopShape>)
    decreases cases, 0
  {
    match cases
    case CNil => true
    case CCons(c, tail) => ListSheltered(c.body, sh, around) && CasesSheltered(tail, sh, around)
  }

  // ----- searching through more frames -----

  lemma {:induction false} LabelledOver(a: seq<LoopShape>, b: seq<LoopShape>, l: string)
    ensures LastLabelled(a + b, l)
            == match LastLabelled(b, l) case Some(i) => Some(|a| + i) case None => LastLabelled(a, l)
  {
    if b == [] {
      assert a + b == a;
    } else if l !in b[|b| - 1].labels {
      LabelledOver(a, b[..|b| - 1], l);
      assert (a + b)[..|a + b| - 1] == a + b[..|b| - 1];
    }
  }

  lemma {:induction false} BlockOver(a: seq<seq<string>>, b: seq<seq<string>>, l: string)
    ensures LastBlock(a + b, l) == match LastBlock(b, l) case Some(i) => Some(|a| + i) case None => LastBlock(a, l)
  {
    if b == [] {
      assert a + b == a;
    } else if l !in b[|b| - 1] {
      BlockOver(a, b[..|b| - 1], l);
      assert (a + b)[..|a + b| - 1] == a + b[..|b| - 1];
    }
  }

  lemma {:induction false} IterationOver(a: seq<LoopShape>, b: seq<LoopShape>, l: Option<string>)
    ensures LastIteration(a + b, l)
            == match LastIteration(b, l) case Some(i) => Some(|a| + i) case None => LastIteration(a, l)
  {
    if b == [] {
      assert a + b == a;
    } else if !(b[|b| - 1].iteration && (l.None? || l.value in b[|b| - 1].labels)) {
      IterationOver(a, b[..|b| - 1], l);
      assert (a + b)[..|a + b| - 1] == a + b[..|b| - 1];
    }
  }

  /** A jump that finds its frame in the function finds it there also among more
      frames, with the exception. */
  lemma FoundOver(o: Around, sh: Shape, l: Option<string>)
    ensures FindContinue(sh, l).Some? ==> FindContinue(Over(o, sh), l) == Some(RaiseSlot(o, FindContinue(sh, l).value))
    ensures FindBreak(sh, l).Some? && (l.Some? ==> Kept(l.value, sh, o.shape.loops)) ==>
              FindBreak(Over(o, sh), l) == Some(RaiseSlot(o, FindBreak(sh, l).value))
    ensures l.Some? && !Kept(l.value, sh, o.shape.loops) ==>
              var f := FindBreak(Over(o, sh), l); f.Some? && f.value.BreakLoop? && f.value.i < |o.shape.loops|
    ensures FindBreak(sh, l).Some? ==> FindBreak(Over(o, sh), l).Some?
  {
    IterationOver(o.shape.loops, sh.loops, l);
    if l.Some? {
      LabelledOver(o.shape.loops, sh.loops, l.value);
      BlockOver(o.shape.blocks, sh.blocks, l.value);
      LastLabelledBound(o.shape.loops, l.value);
    }
  }

  lemma AddrOver(o: Around, tg: Targets, sh: Shape, slot: Slot)
    requires Proper(o)
    ensures Addr(OverTargets(o, tg), RaiseSlot(o, slot)) == Addr(tg, slot)
  {
  }

  lemma PushOver(o: Around, sh: Shape, tg: Targets, labels: seq<string>, it: bool, brk: nat, cont: nat)
    ensures PushLoop(Over(o, sh), labels, it) == Over(o, PushLoop(sh, labels, it))
    ensures PushBlock(Over(o, sh), labels) == Over(o, PushBlock(sh, labels))
    ensures PushLoopTarget(OverTargets(o, tg), brk, cont) == OverTargets(o, PushLoopTarget(tg, brk, cont))
    ensures PushExit(OverTargets(o, tg), brk) == OverTargets(o, PushExit(tg, brk))
  {
  }

  // ----- holes -----

  lemma RaiseCat(o: Around, a: seq<Hole>, b: seq<Hole>)
    ensures RaiseHoles(o, a + b) == RaiseHoles(o, a) + RaiseHoles(o, b)
  {
  }

  lemma {:induction false} RaiseDropLoop(o: Around, holes: seq<Hole>, n: nat)
    ensures DropLoop(RaiseHoles(o, holes), |o.shape.loops| + n) == RaiseHoles(o, DropLoop(holes, n))
  {
    if holes != [] {
      RaiseDropLoop(o, holes[1..], n);
      assert RaiseHoles(o, holes)[1..] == RaiseHoles(o, holes[1..]);
      RaiseCat(o, [holes[0]], DropLoop(holes[1..], n));
      assert RaiseHoles(o, [holes[0]]) == [RaiseHoles(o, holes)[0]];
    }
  }

  lemma {:induction false} RaiseDropBlock(o: Around, holes: seq<Hole>, n: nat)
    ensures DropBlock(RaiseHoles(o, holes), |o.shape.blocks| + n) == RaiseHoles(o, DropBlock(holes, n))
  {
    if holes != [] {
      RaiseDropBlock(o, holes[1..], n);
      assert RaiseHoles(o, holes)[1..] == RaiseHoles(o, holes[1..]);
      RaiseCat(o, [holes[0]], DropBlock(holes[1..], n));
      assert RaiseHoles(o, [holes[0]]) == [RaiseHoles(o, holes)[0]];
    }
  }

  // ----- lengths -----

  lemma {:induction false} LenOver(s: Stmt, labels: seq<string>, o: Around, sh: Shape, sc: Scope)
    requires JumpsOk(s, labels, sh)
    ensures LenStmt(s, labels, Over(o, sh), sc) == LenStmt(s, labels, sh, sc)
    decreases s, 1
  {
    hide Over;
    match s
    case Block(body) => LenListOver(body, o, sh, sc);
    case If(_, c, alt) =>
      LenOver(c, [], o, sh, sc);
      if alt.Some? {
        LenOver(alt.value, [], o, sh, sc);
      }
    case While(_, body) => LenLoopOver(body, labels, o, sh, sc);
    case DoWhile(body, _) => LenLoopOver(body, labels, o, sh, sc);
    case For(_, _, _, body) => LenLoopOver(body, labels, o, sh, sc);
    case Switch(_, cases) =>
      PushOver(o, sh, NoTargets, [], false, 0, 0);
      LenBodiesOver(cases, o, PushLoop(sh, [], false), sc);
    case Break(l) => FoundOver(o, sh, l);
    case Continue(l) => FoundOver(o, sh, l);
    case Labeled(name, body) =>
      if PassesLabels(body) {
        LenOver(body, labels + [name], o, sh, sc);
      } else {
        PushOver(o, sh, NoTargets, labels + [name], false, 0, 0);
        LenOver(body, [], o, PushBlock(sh, labels + [name]), sc);
      }
    case _ =>
  }

  lemma {:induction false} LenLoopOver(body: Stmt, labels: seq<string>, o: Around, sh: Shape, sc: Scope)
    requires JumpsOk(body, [], PushLoop(sh, labels, true))
    ensures LenStmt(body, [], PushLoop(Over(o, sh), labels, true), sc)
            == LenStmt(body, [], PushLoop(sh, labels, true), sc)
    decreases body, 2
  {
    PushOver(o, sh, NoTargets, labels, true, 0, 0);
    LenOver(body, [], o, PushLoop(sh, labels, true), sc);
  }

  lemma {:induction false} LenListOver(ss: StmtList, o: Around, sh: Shape, sc: Scope)
    requires ListJumpsOk(ss, sh)
    ensures LenList(ss, Over(o, sh), sc) == LenList(ss, sh, sc)
    decreases ss, 0
  {
    match ss
    case SNil =>
    case SCons(s, tail) => LenOver(s, [], o, sh, sc); LenListOver(tail, o, sh, sc);
  }

  lemma {:induction false} LenBodiesOver(cases: CaseList, o: Around, sh: Shape, sc: Scope)
    requires CasesJumpsOk(cases, sh)
    ensures LenBodies(cases, Over(o, sh), sc) == LenBodies(cases, sh, sc)
    decreases cases, 0
  {
    match cases
    case CNil =>
    case CCons(c, tail) => LenListOver(c.body, o, sh, sc); LenBodiesOver(tail, o, sh, sc);
  }

  // ----- sheltered code -----

  /** The code of a sheltered statement is the same among more frames, and its
      open jumps join the frames of the function. */
  lemma {:induction false} StmtOver(s: Stmt, base: nat, labels: seq<string>, o: Around, sh: Shape, tg: Targets,
                                    T: Tables, sc: Scope)
    requires Proper(o) && JumpsOk(s, labels, sh) && Sheltered(s, labels, sh, o.shape.loops)
    ensures GenStmt(s, base, labels, Over(o, sh), OverTargets(o, tg), T, sc)
            == RaiseGen(o, GenStmt(s, base, labels, sh, tg, T, sc))
    decreases s, 2
  {
    hide Over, OverTargets, GenExpr, GenIf, GenIfElse, GenWhile, GenDo, GenFor, GenSwitch, GenLabeledBlock, GenList;
    match s
    case Block(body) => ListOver(body, base, o, sh, tg, T, sc);
    case If(_, _, None) => IfOver(s, base, o, sh, tg, T, sc);
    case If(_, _, Some(_)) => IfElseOver(s, base, o, sh, tg, T, sc);
    case While(_, _) => WhileOver(s, base, labels, o, sh, tg, T, sc);
    case DoWhile(_, _) => DoOver(s, base, labels, o, sh, tg, T, sc);
    case For(_, _, _, _) => ForOver(s, base, labels, o, sh, tg, T, sc);
    case Switch(_, _) => SwitchOver(s, base, o, sh, tg, T, sc);
    case Break(l) =>
      FoundOver(o, sh, l);
      AddrOver(o, tg, sh, FindBreak(sh, l).value);
    case Continue(l) =>
      FoundOver(o, sh, l);
      AddrOver(o, tg, sh, FindContinue(sh, l).value);
    case Labeled(name, body) =>
      if PassesLabels(body) {
        StmtOver(body, base, labels + [name], o, sh, tg, T, sc);
      } else {
        BlockExitOver(body, base, labels + [name], o, sh, tg, T, sc);
      }
    case _ =>
  }

  lemma {:induction false} ListOver(ss: StmtList, base: nat, o: Around, sh: Shape, tg: Targets, T: Tables, sc: Scope)
    requires Proper(o) && ListJumpsOk(ss, sh) && ListSheltered(ss, sh, o.shape.loops)
    ensures GenList(ss, base, Over(o, sh), OverTargets(o, tg), T, sc) == RaiseGen(o, GenList(ss, base, sh, tg, T, sc))
    decreases ss, 0
  {
    hide Over, OverTargets, GenStmt, RaiseHoles, JumpsOk, Sheltered;
    match ss
    case SNil => RaiseNone(o);
    case SCons(s, tail) =>
      var a := GenStmt(s, base, [], sh, tg, T, sc);
      StmtOver(s, base, [], o, sh, tg, T, sc);
      ListOver(tail, base + |a.code|, o, sh, tg, a.tabs, sc);
      RaiseCat(o, a.holes, GenList(tail, base + |a.code|, sh, tg, a.tabs, sc).holes);
  }

  lemma RaiseNone(o: Around)
    ensures RaiseHoles(o, []) == []
  {
  }

  lemma {:induction false} IfOver(s: Stmt, base: nat, o: Around, sh: Shape, tg: Targets, T: Tables, sc: Scope)
    requires s.If? && s.alt.None?
    requires Proper(o) && JumpsOk(s, [], sh) && Sheltered(s, [], sh, o.shape.loops)
    ensures GenIf(s, base, Over(o, sh), OverTargets(o, tg), T, sc) == RaiseGen(o, GenIf(s, base, sh, tg, T, sc))
    decreases s, 0
  {
    hide Over, OverTargets, GenStmt, GenExpr, RaiseHoles;
    var t := GenExpr(s.test, base, T, sc);
    StmtOver(s.cons, base + |t.code| + 1, [], o, sh, tg, t.tabs, sc);
  }

  lemma {:induction false} IfElseOver(s: Stmt, base: nat, o: Around, sh: Shape, tg: Targets, T: Tables, sc: Scope)
    requires s.If? && s.alt.Some?
    requires Proper(o) && JumpsOk(s, [], sh) && Sheltered(s, [], sh, o.shape.loops)
    ensures GenIfElse(s, base, Over(o, sh), OverTargets(o, tg), T, sc) == RaiseGen(o, GenIfElse(s, base, sh, tg, T, sc))
    decreases s, 0
  {
    hide Over, OverTargets, GenStmt, GenExpr, RaiseHoles;
    var t := GenExpr(s.test, base, T, sc);
    var c := GenStmt(s.cons, base + |t.code| + 1, [], sh, tg, t.tabs, sc);
    var mid := base + |t.code| + 1 + |c.code| + 1;
    StmtOver(s.cons, base + |t.code| + 1, [], o, sh, tg, t.tabs, sc);
    StmtOver(s.alt.value, mid, [], o, sh, tg, c.tabs, sc);
    RaiseCat(o, c.holes, GenStmt(s.alt.value, mid, [], sh, tg, c.tabs, sc).holes);
  }

  /** The body of a loop. */
  lemma {:induction false} LoopBodyOver(body: Stmt, base: nat, labels: seq<string>, brk: nat, cont: nat, o: Around,
                                        sh: Shape, tg: Targets, T: Tables, sc: Scope)
    requires Proper(o) && JumpsOk(body, [], PushLoop(sh, labels, true))
    requires Sheltered(body, [], PushLoop(sh, labels, true), o.shape.loops)
    ensures var b := GenStmt(body, base, [], PushLoop(sh, labels, true), PushLoopTarget(tg, brk, cont), T, sc);
            var r := GenStmt(body, base, [], PushLoop(Over(o, sh), labels, true),
                             PushLoopTarget(OverTargets(o, tg), brk, cont), T, sc);
            && r == RaiseGen(o, b)
            && DropLoop(r.holes, |Over(o, sh).loops|) == RaiseHoles(o, DropLoop(b.holes, |sh.loops|))
    decreases body, 3
  {
    hide GenStmt, RaiseHoles;
    var inner, targets := PushLoop(sh, labels, true), PushLoopTarget(tg, brk, cont);
    PushOver(o, sh, tg, labels, true, brk, cont);
    StmtOver(body, base, [], o, inner, targets, T, sc);
    RaiseDropLoop(o, GenStmt(body, base, [], inner, targets, T, sc).holes, |sh.loops|);
  }

  lemma {:induction false} WhileOver(s: Stmt, base: nat, labels: seq<string>, o: Around, sh: Shape, tg: Targets,
                                     T: Tables, sc: Scope)
    requires s.While? && Proper(o) && JumpsOk(s, labels, sh) && Sheltered(s, labels, sh, o.shape.loops)
    ensures GenWhile(s, base, labels, Over(o, sh), OverTargets(o, tg), T, sc)
            == RaiseGen(o, GenWhile(s, base, labels, sh, tg, T, sc))
    decreases s, 0
  {
    hide Over, OverTargets, GenStmt, GenExpr, LenStmt, RaiseHoles, PushLoop, PushLoopTarget, DropLoop;
    var t := GenExpr(s.test, base, T, sc);
    var pb := base + |t.code| + 1;
    var end := pb + LenStmt(s.loopBody, [], PushLoop(sh, labels, true), sc) + 1;
    LenLoopOver(s.loopBody, labels, o, sh, sc);
    LoopBodyOver(s.loopBody, pb, labels, end, base, o, sh, tg, t.tabs, sc);
  }

  lemma {:induction false} DoOver(s: Stmt, base: nat, labels: seq<string>, o: Around, sh: Shape, tg: Targets, T: Tables,
                                  sc: Scope)
    requires s.DoWhile? && Proper(o) && JumpsOk(s, labels, sh) && Sheltered(s, labels, sh, o.shape.loops)
    ensures GenDo(s, base, labels, Over(o, sh), OverTargets(o, tg), T, sc)
            == RaiseGen(o, GenDo(s, base, labels, sh, tg, T, sc))
    decreases s, 0
  {
    hide Over, OverTargets, GenStmt, GenExpr, LenStmt, LenExpr, RaiseHoles, PushLoop, PushLoopTarget, DropLoop;
    var pt := base + LenStmt(s.loopBody, [], PushLoop(sh, labels, true), sc);
    var end := pt + LenExpr(s.test, sc) + 1;
    LenLoopOver(s.loopBody, labels, o, sh, sc);
    LoopBodyOver(s.loopBody, base, labels, end, pt, o, sh, tg, T, sc);
  }

  lemma {:induction false} ForOver(s: Stmt, base: nat, labels: seq<string>, o: Around, sh: Shape, tg: Targets,
                                   T: Tables, sc: Scope)
    requires s.For? && Proper(o) && JumpsOk(s, labels, sh) && Sheltered(s, labels, sh, o.shape.loops)
    ensures GenFor(s, base, labels, Over(o, sh), OverTargets(o, tg), T, sc)
            == RaiseGen(o, GenFor(s, base, labels, sh, tg, T, sc))
    decreases s, 1
  {
    hide GenForLoop, GenClause, Over, OverTargets, RaiseHoles;
    var i := GenClause(s.init, base, T, sc);
    ForLoopOver(s, base + |i.code| + |PopIf(s.init)|, labels, o, sh, tg, i.tabs, sc);
  }

  lemma {:induction false} ForLoopOver(s: Stmt, start: nat, labels: seq<string>, o: Around, sh: Shape, tg: Targets,
                                       T: Tables, sc: Scope)
    requires s.For? && Proper(o) && JumpsOk(s, labels, sh) && Sheltered(s, labels, sh, o.shape.loops)
    ensures GenForLoop(s, start, labels, Over(o, sh), OverTargets(o, tg), T, sc)
            == RaiseGen(o, GenForLoop(s, start, labels, sh, tg, T, sc))
    decreases s, 0
  {
    hide Over, OverTargets, GenStmt, GenClause, LenStmt, LenOptional, RaiseHoles, PushLoop, PushLoopTarget, DropLoop;
    var c := GenClause(s.cond, start, T, sc);
    var pb := start + |c.code| + |ExitIf(s.cond, 0)|;
    var pu := pb + LenStmt(s.loopBody, [], PushLoop(sh, labels, true), sc);
    var end := pu + LenOptional(s.update, sc) + 1;
    LenLoopOver(s.loopBody, labels, o, sh, sc);
    LoopBodyOver(s.loopBody, pb, labels, end, pu, o, sh, tg, c.tabs, sc);
  }

  lemma {:induction false} BlockExitOver(body: Stmt, base: nat, all: seq<string>, o: Around, sh: Shape, tg: Targets,
                                         T: Tables, sc: Scope)
    requires Proper(o) && JumpsOk(body, [], PushBlock(sh, all))
    requires Sheltered(body, [], PushBlock(sh, all), o.shape.loops)
    ensures GenLabeledBlock(body, base, all, Over(o, sh), OverTargets(o, tg), T, sc)
            == RaiseGen(o, GenLabeledBlock(body, base, all, sh, tg, T, sc))
    decreases body, 3
  {
    hide GenStmt, LenStmt, RaiseHoles;
    var inner := PushBlock(sh, all);
    var end := base + LenStmt(body, [], inner, sc);
    PushOver(o, sh, tg, all, false, end, 0);
    LenOver(body, [], o, inner, sc);
    StmtOver(body, base, [], o, inner, PushExit(tg, end), T, sc);
    RaiseDropBlock(o, GenStmt(body, base, [], inner, PushExit(tg, end), T, sc).holes, |sh.blocks|);
  }

  lemma {:induction false} SwitchOver(s: Stmt, base: nat, o: Around, sh: Shape, tg: Targets, T: Tables, sc: Scope)
    requires s.Switch? && Proper(o) && JumpsOk(s, [], sh) && Sheltered(s, [], sh, o.shape.loops)
    ensures GenSwitch(s, base, Over(o, sh), OverTargets(o, tg), T, sc)
            == RaiseGen(o, GenSwitch(s, base, sh, tg, T, sc))
    decreases s, 0
  {
    hide GenExpr, GenTests, GenBodies, LenTests, LenBodies, RaiseHoles, InternLocal, DefaultStart, DropLoop;
    var inner := PushLoop(sh, [], false);
    var d := GenExpr(s.disc, base, T, sc);
    var tmp := InternLocal(SwitchDisc, d.tabs);
    var pt := base + |d.code| + 1;
    var pb := pt + LenTests(s.cases, sc) + 1;
    var end := pb + LenBodies(s.cases, inner, sc);
    PushOver(o, sh, tg, [], false, end, end);
    LenBodiesOver(s.cases, o, inner, sc);
    TestsOver(s.cases, pt, tmp.index, pb, o, inner, tmp.tabs, sc);
    DefaultOver(s.cases, pb, end, o, inner, sc);
    var c := GenTests(s.cases, pt, tmp.index, pb, inner, tmp.tabs, sc);
    BodiesOver(s.cases, pb, o, inner, PushLoopTarget(tg, end, end), c.tabs, sc);
    RaiseDropLoop(o, GenBodies(s.cases, pb, inner, PushLoopTarget(tg, end, end), c.tabs, sc).holes, |sh.loops|);
  }

  lemma {:induction false} TestsOver(cases: CaseList, pc: nat, tmp: nat, bodyPc: nat, o: Around, sh: Shape, T: Tables,
                                     sc: Scope)
    requires CasesJumpsOk(cases, sh)
    ensures GenTests(cases, pc, tmp, bodyPc, Over(o, sh), T, sc) == GenTests(cases, pc, tmp, bodyPc, sh, T, sc)
    decreases cases
  {
    hide GenExpr, LenList, Over;
    match cases
    case CNil =>
    case CCons(c, tail) =>
      LenListOver(c.body, o, sh, sc);
      var next := bodyPc + LenList(c.body, sh, sc);
      match c.test
      case None => TestsOver(tail, pc, tmp, next, o, sh, T, sc);
      case Some(e) =>
        var t := GenExpr(e, pc + 1, T, sc);
        TestsOver(tail, pc + 1 + |t.code| + 2, tmp, next, o, sh, t.tabs, sc);
  }

  lemma {:induction false} DefaultOver(cases: CaseList, pb: nat, end: nat, o: Around, sh: Shape, sc: Scope)
    requires CasesJumpsOk(cases, sh)
    ensures DefaultStart(cases, pb, end, Over(o, sh), sc) == DefaultStart(cases, pb, end, sh, sc)
  {
    var d := DefaultIndex(cases, 0);
    if d.Some? {
      StartOver(cases, d.value, pb, o, sh, sc);
    }
  }

  lemma {:induction false} StartOver(cases: CaseList, i: nat, pc: nat, o: Around, sh: Shape, sc: Scope)
    requires CasesJumpsOk(cases, sh)
    ensures BodyStart(cases, i, pc, Over(o, sh), sc) == BodyStart(cases, i, pc, sh, sc)
    decreases cases
  {
    hide LenList, Over;
    if cases.CCons? && i > 0 {
      LenListOver(cases.head.body, o, sh, sc);
      StartOver(cases.tail, i - 1, pc + LenList(cases.head.body, sh, sc), o, sh, sc);
    }
  }

  lemma {:induction false} BodiesOver(cases: CaseList, base: nat, o: Around, sh: Shape, tg: Targets, T: Tables,
                                      sc: Scope)
    requires Proper(o) && CasesJumpsOk(cases, sh) && CasesSheltered(cases, sh, o.shape.loops)
    ensures GenBodies(cases, base, Over(o, sh), OverTargets(o, tg), T, sc)
            == RaiseGen(o, GenBodies(cases, base, sh, tg, T, sc))
    decreases cases, 0
  {
    hide Over, OverTargets, GenList, RaiseHoles, ListJumpsOk, ListSheltered;
    match cases
    case CNil => RaiseNone(o);
    case CCons(c, tail) =>
      var a := GenList(c.body, base, sh, tg, T, sc);
      ListOver(c.body, base, o, sh, tg, T, sc);
      BodiesOver(tail, base + |a.code|, o, sh, tg, a.tabs, sc);
      RaiseCat(o, a.holes, GenBodies(tail, base + |a.code|, sh, tg, a.tabs, sc).holes);
  }

  // ----- stray jumps -----

  /** Some jump of the fragment waits for a loop of a function around. */
  ghost predicate Stray(holes: seq<Hole>, around: seq<LoopShape>) {
    exists h :: h in holes && h.slot.BreakLoop? && h.slot.i < |around|
  }

  /** No compile error, and a stray jump unless the code is sheltered. */
  ghost predicate Strays(g: Gen, sheltered: bool, around: seq<LoopShape>) {
    g.errs == [] && (!sheltered ==> Stray(g.holes, around))
  }

  lemma StrayDropLoop(holes: seq<Hole>, around: seq<LoopShape>, n: nat)
    requires Stray(holes, around) && n >= |around|
    ensures Stray(DropLoop(holes, n), around)
  {
    DropLoopKeeps(holes, n);
  }

  lemma StrayDropBlock(holes: seq<Hole>, around: seq<LoopShape>, n: nat)
    requires Stray(holes, around)
    ensures Stray(DropBlock(holes, n), around)
  {
    DropBlockKeeps(holes, n);
  }

  lemma StrayCat(a: seq<Hole>, b: seq<Hole>, around: seq<LoopShape>)
    ensures Stray(a, around) || Stray(b, around) ==> Stray(a + b, around)
  {
  }

  /** Wherever the statement is placed. */
  lemma {:induction false} StmtStrays(s: Stmt, base: nat, labels: seq<string>, o: Around, sh: Shape, tg: Targets,
                                      T: Tables, sc: Scope)
    requires JumpsOk(s, labels, sh)
    ensures Strays(GenStmt(s, base, labels, Over(o, sh), tg, T, sc), Sheltered(s, labels, sh, o.shape.loops),
                   o.shape.loops)
    decreases s, 2
  {
    hide Over, Stray, GenExpr, GenIf, GenIfElse, GenWhile, GenDo, GenFor, GenSwitch, GenLabeledBlock, GenList, LenStmt;
    match s
    case Block(body) => ListStrays(body, base, o, sh, tg, T, sc);
    case If(_, _, _) => IfStrays(s, base, o, sh, tg, T, sc);
    case While(_, _) => WhileStrays(s, base, labels, o, sh, tg, T, sc);
    case DoWhile(_, _) => DoStrays(s, base, labels, o, sh, tg, T, sc);
    case For(_, _, _, _) => ForStrays(s, base, labels, o, sh, tg, T, sc);
    case Switch(_, _) => SwitchStrays(s, base, o, sh, tg, T, sc);
    case Break(_) => BreakStrays(s, base, o, sh, tg, T, sc);
    case Continue(l) => FoundOver(o, sh, l);
    case Labeled(name, body) =>
      if PassesLabels(body) {
        StmtStrays(body, base, labels + [name], o, sh, tg, T, sc);
      } else {
        BlockStrays(body, base, labels + [name], o, sh, tg, T, sc);
      }
    case _ =>
  }

  lemma BreakStrays(s: Stmt, base: nat, o: Around, sh: Shape, tg: Targets, T: Tables, sc: Scope)
    requires s.Break? && JumpsOk(s, [], sh)
    ensures Strays(GenStmt(s, base, [], Over(o, sh), tg, T, sc), Sheltered(s, [], sh, o.shape.loops), o.shape.loops)
  {
    hide Over, Addr;
    FoundOver(o, sh, s.jumpLabel);
    var g := GenStmt(s, base, [], Over(o, sh), tg, T, sc);
    if !Sheltered(s, [], sh, o.shape.loops) {
      assert g.holes[0] in g.holes;
    }
  }

  lemma {:induction false} ListStrays(ss: StmtList, base: nat, o: Around, sh: Shape, tg: Targets, T: Tables, sc: Scope)
    requires ListJumpsOk(ss, sh)
    ensures Strays(GenList(ss, base, Over(o, sh), tg, T, sc), ListSheltered(ss, sh, o.shape.loops), o.shape.loops)
    decreases ss, 0
  {
    hide Over, Stray, GenStmt, JumpsOk, Sheltered;
    match ss
    case SNil =>
    case SCons(s, tail) =>
      var a := GenStmt(s, base, [], Over(o, sh), tg, T, sc);
      StmtStrays(s, base, [], o, sh, tg, T, sc);
      ListStrays(tail, base + |a.code|, o, sh, tg, a.tabs, sc);
      StrayCat(a.holes, GenList(tail, base + |a.code|, Over(o, sh), tg, a.tabs, sc).holes, o.shape.loops);
  }

  lemma {:induction false} IfStrays(s: Stmt, base: nat, o: Around, sh: Shape, tg: Targets, T: Tables, sc: Scope)
    requires s.If? && JumpsOk(s, [], sh)
    ensures var sheltered := Sheltered(s, [], sh, o.shape.loops);
            if s.alt.None? then Strays(GenIf(s, base, Over(o, sh), tg, T, sc), sheltered, o.shape.loops)
            else Strays(GenIfElse(s, base, Over(o, sh), tg, T, sc), sheltered, o.shape.loops)
    decreases s, 0
  {
    hide Over, Stray, GenStmt, GenExpr;
    var t := GenExpr(s.test, base, T, sc);
    var pc := base + |t.code| + 1;
    var c := GenStmt(s.cons, pc, [], Over(o, sh), tg, t.tabs, sc);
    StmtStrays(s.cons, pc, [], o, sh, tg, t.tabs, sc);
    if s.alt.Some? {
      StmtStrays(s.alt.value, pc + |c.code| + 1, [], o, sh, tg, c.tabs, sc);
      StrayCat(c.holes, GenStmt(s.alt.value, pc + |c.code| + 1, [], Over(o, sh), tg, c.tabs, sc).holes, o.shape.loops);
    }
  }

  lemma {:induction false} LoopBodyStrays(body: Stmt, base: nat, labels: seq<string>, o: Around, sh: Shape, tg: Targets,
                                          T: Tables, sc: Scope)
    requires JumpsOk(body, [], PushLoop(sh, labels, true))
    ensures var g := GenStmt(body, base, [], PushLoop(Over(o, sh), labels, true), tg, T, sc);
            Strays(g.(holes := DropLoop(g.holes, |Over(o, sh).loops|)),
                   Sheltered(body, [], PushLoop(sh, labels, true), o.shape.loops), o.shape.loops)
    decreases body, 3
  {
    hide GenStmt, Stray, Sheltered;
    PushOver(o, sh, NoTargets, labels, true, 0, 0);
    StmtStrays(body, base, [], o, PushLoop(sh, labels, true), tg, T, sc);
    var g := GenStmt(body, base, [], PushLoop(Over(o, sh), labels, true), tg, T, sc);
    if Stray(g.holes, o.shape.loops) {
      StrayDropLoop(g.holes, o.shape.loops, |Over(o, sh).loops|);
    }
  }

  lemma {:induction false} WhileStrays(s: Stmt, base: nat, labels: seq<string>, o: Around, sh: Shape, tg: Targets,
                                       T: Tables, sc: Scope)
    requires s.While? && JumpsOk(s, labels, sh)
    ensures Strays(GenWhile(s, base, labels, Over(o, sh), tg, T, sc), Sheltered(s, labels, sh, o.shape.loops),
                   o.shape.loops)
    decreases s, 0
  {
    hide Over, Stray, GenStmt, GenExpr, LenStmt, PushLoop, PushLoopTarget, DropLoop;
    var t := GenExpr(s.test, base, T, sc);
    var pb := base + |t.code| + 1;
    var end := pb + LenStmt(s.loopBody, [], PushLoop(Over(o, sh), labels, true), sc) + 1;
    LoopBodyStrays(s.loopBody, pb, labels, o, sh, PushLoopTarget(tg, end, base), t.tabs, sc);
  }

  lemma {:induction false} DoStrays(s: Stmt, base: nat, labels: seq<string>, o: Around, sh: Shape, tg: Targets,
                                    T: Tables, sc: Scope)
    requires s.DoWhile? && JumpsOk(s, labels, sh)
    ensures Strays(GenDo(s, base, labels, Over(o, sh), tg, T, sc), Sheltered(s, labels, sh, o.shape.loops),
                   o.shape.loops)
    decreases s, 0
  {
    hide Over, Stray, GenStmt, GenExpr, LenStmt, LenExpr, PushLoop, PushLoopTarget, DropLoop;
    var pt := base + LenStmt(s.loopBody, [], PushLoop(Over(o, sh), labels, true), sc);
    var end := pt + LenExpr(s.test, sc) + 1;
    LoopBodyStrays(s.loopBody, base, labels, o, sh, PushLoopTarget(tg, end, pt), T, sc);
  }

  lemma {:induction false} ForStrays(s: Stmt, base: nat, labels: seq<string>, o: Around, sh: Shape, tg: Targets,
                                     T: Tables, sc: Scope)
    requires s.For? && JumpsOk(s, labels, sh)
    ensures Strays(GenFor(s, base, labels, Over(o, sh), tg, T, sc), Sheltered(s, labels, sh, o.shape.loops),
                   o.shape.loops)
    decreases s, 0
  {
    hide Over, Stray, GenStmt, GenClause, LenStmt, LenOptional, PushLoop, PushLoopTarget, DropLoop;
    var i := GenClause(s.init, base, T, sc);
    var start := base + |i.code| + |PopIf(s.init)|;
    var c := GenClause(s.cond, start, i.tabs, sc);
    var pb := start + |c.code| + |ExitIf(s.cond, 0)|;
    var pu := pb + LenStmt(s.loopBody, [], PushLoop(Over(o, sh), labels, true), sc);
    var end := pu + LenOptional(s.update, sc) + 1;
    LoopBodyStrays(s.loopBody, pb, labels, o, sh, PushLoopTarget(tg, end, pu), c.tabs, sc);
  }

  lemma {:induction false} BlockStrays(body: Stmt, base: nat, all: seq<string>, o: Around, sh: Shape, tg: Targets,
                                       T: Tables, sc: Scope)
    requires JumpsOk(body, [], PushBlock(sh, all))
    ensures Strays(GenLabeledBlock(body, base, all, Over(o, sh), tg, T, sc),
                   Sheltered(body, [], PushBlock(sh, all), o.shape.loops), o.shape.loops)
    decreases body, 3
  {
    hide GenStmt, LenStmt, Stray, Sheltered;
    PushOver(o, sh, NoTargets, all, false, 0, 0);
    var inner := PushBlock(Over(o, sh), all);
    var targets := PushExit(tg, base + LenStmt(body, [], inner, sc));
    StmtStrays(body, base, [], o, PushBlock(sh, all), targets, T, sc);
    var g := GenStmt(body, base, [], inner, targets, T, sc);
    if Stray(g.holes, o.shape.loops) {
      StrayDropBlock(g.holes, o.shape.loops, |Over(o, sh).blocks|);
    }
  }

  lemma {:induction false} SwitchStrays(s: Stmt, base: nat, o: Around, sh: Shape, tg: Targets, T: Tables, sc: Scope)
    requires s.Switch? && JumpsOk(s, [], sh)
    ensures Strays(GenSwitch(s, base, Over(o, sh), tg, T, sc), Sheltered(s, [], sh, o.shape.loops), o.shape.loops)
    decreases s, 0
  {
    hide GenExpr, GenTests, GenBodies, LenTests, LenBodies, InternLocal, DefaultStart, DropLoop, Stray, CasesSheltered;
    PushOver(o, sh, NoTargets, [], false, 0, 0);
    var inner := PushLoop(Over(o, sh), [], false);
    var d := GenExpr(s.disc, base, T, sc);
    var tmp := InternLocal(SwitchDisc, d.tabs);
    var pt := base + |d.code| + 1;
    var pb := pt + LenTests(s.cases, sc) + 1;
    var end := pb + LenBodies(s.cases, inner, sc);
    var c := GenTests(s.cases, pt, tmp.index, pb, inner, tmp.tabs, sc);
    BodiesStray(s.cases, pb, o, PushLoop(sh, [], false), PushLoopTarget(tg, end, end), c.tabs, sc);
    var g := GenBodies(s.cases, pb, inner, PushLoopTarget(tg, end, end), c.tabs, sc);
    if Stray(g.holes, o.shape.loops) {
      StrayDropLoop(g.holes, o.shape.loops, |Over(o, sh).loops|);
    }
  }

  lemma {:induction false} BodiesStray(cases: CaseList, base: nat, o: Around, sh: Shape, tg: Targets, T: Tables,
                                       sc: Scope)
    requires CasesJumpsOk(cases, sh)
    ensures Strays(GenBodies(cases, base, Over(o, sh), tg, T, sc), CasesSheltered(cases, sh, o.shape.loops),
                   o.shape.loops)
    decreases cases, 0
  {
    hide Over, Stray, GenList, ListJumpsOk, ListSheltered;
    match cases
    case CNil =>
    case CCons(c, tail) =>
      var a := GenList(c.body, base, Over(o, sh), tg, T, sc);
      ListStrays(c.body, base, o, sh, tg, T, sc);
      BodiesStray(tail, base + |a.code|, o, sh, tg, a.tabs, sc);
      StrayCat(a.holes, GenBodies(tail, base + |a.code|, Over(o, sh), tg, a.tabs, sc).holes, o.shape.loops);
  }

  // ----- bodies -----

  /** The body of a function among the frames around it. */
  lemma BodyOver(body: StmtList, o: Around, T: Tables, sc: Scope)
    requires Proper(o) && ListJumpsOk(body, NoShape)
    ensures LenList(body, o.shape, sc) == LenList(body, NoShape, sc)
    ensures var g := GenList(body, 0, o.shape, o.targets, T, sc);
            && g.errs == []
            && if ListSheltered(body, NoShape, o.shape.loops) then g == GenList(body, 0, NoShape, NoTargets, T, sc)
               else Stray(g.holes, o.shape.loops)
  {
    hide GenList, LenList, Stray;
    assert Over(o, NoShape) == o.shape && OverTargets(o, NoTargets) == o.targets;
    LenListOver(body, o, NoShape, sc);
    ListStrays(body, 0, o, NoShape, o.targets, T, sc);
    if ListSheltered(body, NoShape, o.shape.loops) {
      ListOver(body, 0, o, NoShape, NoTargets, T, sc);
      NothingOpen(body, 0, T, sc);
    }
  }

  // ----- functions that are always sheltered -----

  ghost predicate Unlabelled(loops: seq<LoopShape>) {
    forall i :: 0 <= i < |loops| ==> loops[i].labels == []
  }

  /** Loops without labels take no jump from a function inside them. */
  lemma {:induction false} ListUnlabelled(ss: StmtList, sh: Shape, around: seq<LoopShape>)
    requires Unlabelled(around)
    ensures ListSheltered(ss, sh, around)
    decreases ss, 0
  {
    match ss
    case SNil =>
    case SCons(s, tail) => StmtUnlabelled(s, [], sh, around); ListUnlabelled(tail, sh, around);
  }

  lemma {:induction false} StmtUnlabelled(s: Stmt, labels: seq<string>, sh: Shape, around: seq<LoopShape>)
    requires Unlabelled(around)
    ensures Sheltered(s, labels, sh, around)
    decreases s, 1
  {
    match s
    case Block(body) => ListUnlabelled(body, sh, around);
    case If(_, c, alt) =>
      StmtUnlabelled(c, [], sh, around);
      if alt.Some? {
        StmtUnlabelled(alt.value, [], sh, around);
      }
    case While(_, body) => StmtUnlabelled(body, [], PushLoop(sh, labels, true), around);
    case DoWhile(body, _) => StmtUnlabelled(body, [], PushLoop(sh, labels, true), around);
    case For(_, _, _, body) => StmtUnlabelled(body, [], PushLoop(sh, labels, true), around);
    case Switch(_, cases) => CasesUnlabelled(cases, PushLoop(sh, [], false), around);
    case Break(l) =>
      if l.Some? {
        LastLabelledBound(around, l.value);
      }
    case Labeled(name, body) =>
      if PassesLabels(body) {
        StmtUnlabelled(body, labels + [name], sh, around);
      } else {
        StmtUnlabelled(body, [], PushBlock(sh, labels + [name]), around);
      }
    case _ =>
  }

  lemma {:induction false} CasesUnlabelled(cases: CaseList, sh: Shape, around: seq<LoopShape>)
    requires Unlabelled(around)
    ensures CasesSheltered(cases, sh, around)
    decreases cases, 0
  {
    match cases
    case CNil =>
    case CCons(c, tail) => ListUnlabelled(c.body, sh, around); CasesUnlabelled(tail, sh, around);
  }

  // ----- frames -----

  /** A stray jump changes a frame. */
  lemma FramesChanged(loops: seq<LoopFrame>, holes: seq<Hole>, around: seq<LoopShape>)
    requires Stray(holes, around) && |around| == |loops|
    ensures AddLoops(loops, holes) != loops
  {
    var h :| h in holes && h.slot.BreakLoop? && h.slot.i < |around|;
    AtsFound(holes, h);
    assert |AddLoops(loops, holes)[h.slot.i].breaks| > |loops[h.slot.i].breaks|;
  }

  lemma {:induction false} AtsFound(holes: seq<Hole>, h: Hole)
    requires h in holes
    ensures h.at in Ats(holes, h.slot)
  {
    if holes[0] != h {
      assert holes == [holes[0]] + holes[1..];
      AtsFound(holes[1..], h);
    }
  }
}
