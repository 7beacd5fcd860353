/** Opening and closing loops and labelled blocks in the emitter's output. */
module ClosingFacts {
  import opened Syntax
  import opened Machine
  import opened Semantics
  import opened CodeGen
  import opened StmtGen
  import opened StmtFacts
  import opened JumpTargets
  import opened Patching
  import opened Frames
  import opened SwitchFacts

  lemma StmtLength(s: Stmt, base: nat, labels: seq<string>, sh: Shape, tg: Targets, T: Tables, sc: Scope)
    ensures |GenStmt(s, base, labels, sh, tg, T, sc).code| == LenStmt(s, labels, sh, sc)
  {
    StmtRegular(s, base, labels, sh, tg, T, sc, 0);
  }

  lemma UnknownFits(o: Output)
    ensures Fits(ShapeOf(o), Unknown(ShapeOf(o)))
    ensures |ShapeOf(o).loops| == |o.loops| && |ShapeOf(o).blocks| == |o.labels|
  {
  }

  lemma ListLength(ss: StmtList, base: nat, sh: Shape, tg: Targets, T: Tables, sc: Scope)
    ensures |GenList(ss, base, sh, tg, T, sc).code| == LenList(ss, sh, sc)
  {
    ListRegular(ss, base, sh, tg, T, sc, 0);
  }

  // ----- a jump to a frame -----

  lemma JumpAppended(o: Output, slot: Slot)
    requires SlotIn(ShapeOf(o), slot)
    ensures Addr(Unknown(ShapeOf(o)), slot) == 0
    ensures AddLoops(o.loops, [Hole(slot, |o.code|)]) == LoopsWith(o, slot)
    ensures AddLabels(o.labels, [Hole(slot, |o.code|)]) == LabelsWith(o, slot)
  {
    hide Ats;
    var h := Hole(slot, |o.code|);
    AtsOne(h);
    var a, b := AddLoops(o.loops, [h]), LoopsWith(o, slot);
    forall i | 0 <= i < |o.loops| ensures a[i] == b[i] {
      assert a[i].breaks == o.loops[i].breaks + (if slot == BreakLoop(i) then [|o.code|] else []);
      assert a[i].continues == o.loops[i].continues + (if slot == ContinueLoop(i) then [|o.code|] else []);
    }
    var c, d := AddLabels(o.labels, [h]), LabelsWith(o, slot);
    forall i | 0 <= i < |o.labels| ensures c[i] == d[i] {
      assert c[i].breaks == o.labels[i].breaks + (if slot == ExitBlock(i) then [|o.code|] else []);
    }
  }

  /** The frames after a jump from the next address has joined a list. */
  ghost function LoopsWith(o: Output, slot: Slot): seq<LoopFrame>
    requires SlotIn(ShapeOf(o), slot)
  {
    match slot
    case BreakLoop(i) => o.loops[i := o.loops[i].(breaks := o.loops[i].breaks + [|o.code|])]
    case ContinueLoop(i) => o.loops[i := o.loops[i].(continues := o.loops[i].continues + [|o.code|])]
    case ExitBlock(_) => o.loops
  }

  ghost function LabelsWith(o: Output, slot: Slot): seq<LabelFrame>
    requires SlotIn(ShapeOf(o), slot)
  {
    match slot
    case ExitBlock(i) => o.labels[i := o.labels[i].(breaks := o.labels[i].breaks + [|o.code|])]
    case _ => o.labels
  }

  lemma AtsOne(h: Hole)
    ensures forall slot :: Ats([h], slot) == if slot == h.slot then [h.at] else []
  {
    assert [h][1..] == [];
  }

  // ----- loops -----

  function Opened(o: Output, labels: seq<string>, it: bool): Output {
    o.(loops := o.loops + [LoopFrame([], [], labels, it)])
  }

  lemma OpenedShape(o: Output, labels: seq<string>, it: bool)
    ensures ShapeOf(Opened(o, labels, it)) == PushLoop(ShapeOf(o), labels, it)
    ensures Unknown(ShapeOf(Opened(o, labels, it))) == PushLoopTarget(Unknown(ShapeOf(o)), 0, 0)
  {
  }

  lemma {:induction false} AtsDropLoop(holes: seq<Hole>, n: nat, slot: Slot)
    ensures Ats(DropLoop(holes, n), slot) == if OfLoop(slot, n) then [] else Ats(holes, slot)
  {
    if holes != [] {
      AtsDropLoop(holes[1..], n, slot);
      AtsCat([holes[0]], DropLoop(holes[1..], n), slot);
      AtsOne(holes[0]);
    }
  }

  /** The frames below a closed loop keep exactly the jumps that leave it. */
  lemma FramesBelow(o: Output, labels: seq<string>, it: bool, holes: seq<Hole>)
    ensures var n := |o.loops|;
            && AddLoops(Opened(o, labels, it).loops, holes)[..n] == AddLoops(o.loops, DropLoop(holes, n))
            && AddLabels(o.labels, holes) == AddLabels(o.labels, DropLoop(holes, n))
  {
    hide Ats, DropLoop;
    var n := |o.loops|;
    var a, b := AddLoops(Opened(o, labels, it).loops, holes)[..n], AddLoops(o.loops, DropLoop(holes, n));
    forall i | 0 <= i < n ensures a[i] == b[i] {
      AtsDropLoop(holes, n, BreakLoop(i));
      AtsDropLoop(holes, n, ContinueLoop(i));
    }
    var c, d := AddLabels(o.labels, holes), AddLabels(o.labels, DropLoop(holes, n));
    forall i | 0 <= i < |o.labels| ensures c[i] == d[i] {
      AtsDropLoop(holes, n, ExitBlock(i));
    }
  }

  lemma TopFrame(o: Output, labels: seq<string>, it: bool, holes: seq<Hole>)
    ensures var n := |o.loops|;
            AddLoops(Opened(o, labels, it).loops, holes)[n]
            == LoopFrame(Ats(holes, BreakLoop(n)), Ats(holes, ContinueLoop(n)), labels, it)
  {
    hide Ats;
    var n := |o.loops|;
    assert Opened(o, labels, it).loops[n] == LoopFrame([], [], labels, it);
  }

  ghost predicate LoopSame(z: Gen, p: Gen, o: Output, labels: seq<string>, it: bool, brk: nat, cont: nat) {
    var sh := ShapeOf(o);
    Same(z, p, |o.code|, PushLoop(sh, labels, it), PushLoopTarget(Unknown(sh), 0, 0),
         PushLoopTarget(Unknown(sh), brk, cont))
  }

  /** Popping a loop over `z` leaves the output that `p`, the same fragment
      with its targets known, would have left. */
  lemma LoopClosed(o: Output, labels: seq<string>, it: bool, z: Gen, p: Gen, last: seq<Instr>, T: Tables, brk: nat,
                   cont: nat)
    requires LoopSame(z, p, o, labels, it, brk, cont)
    ensures var n := |o.loops|;
            var done := Append(Opened(o, labels, it), z);
            var code := done.code + last;
            && |done.loops| == n + 1
            && (forall at :: at in done.loops[n].breaks || at in done.loops[n].continues ==> at < |code|)
            && |PatchAll(code, done.loops[n].breaks, brk)| == |code|
            && Output(PatchAll(PatchAll(code, done.loops[n].breaks, brk), done.loops[n].continues, cont),
                      done.loops[..n], done.labels, done.errors, T)
               == AppendThen(o, p.(holes := DropLoop(p.holes, n)), last, T)
  {
    hide Ats, DropLoop, AddLoops, AddLabels, PatchAll, Same;
    var sh := ShapeOf(o);
    UnknownFits(o);
    FramesBelow(o, labels, it, z.holes);
    TopFrame(o, labels, it, z.holes);
    CloseLoop(o.code, z, p, last, sh, labels, it, Unknown(sh), brk, cont);
    SameSize(z, p, |o.code|, PushLoop(sh, labels, it), PushLoopTarget(Unknown(sh), 0, 0),
             PushLoopTarget(Unknown(sh), brk, cont));
    AppendShape(Opened(o, labels, it), z);
  }

  /** A fragment and more code after it. */
  function AppendThen(o: Output, g: Gen, last: seq<Instr>, T: Tables): Output {
    var a := Append(o, g);
    a.(code := a.code + last, tabs := T)
  }

  // ----- labelled blocks -----

  function Labelled(o: Output, labels: seq<string>): Output {
    o.(labels := o.labels + [LabelFrame(labels, [])])
  }

  lemma LabelledShape(o: Output, labels: seq<string>)
    ensures ShapeOf(Labelled(o, labels)) == PushBlock(ShapeOf(o), labels)
    ensures Unknown(ShapeOf(Labelled(o, labels))) == PushExit(Unknown(ShapeOf(o)), 0)
  {
  }

  lemma {:induction false} AtsDropBlock(holes: seq<Hole>, n: nat, slot: Slot)
    ensures Ats(DropBlock(holes, n), slot) == if slot == ExitBlock(n) then [] else Ats(holes, slot)
  {
    if holes != [] {
      AtsDropBlock(holes[1..], n, slot);
      AtsCat([holes[0]], DropBlock(holes[1..], n), slot);
      AtsOne(holes[0]);
    }
  }

  lemma BlockFramesBelow(o: Output, labels: seq<string>, holes: seq<Hole>)
    ensures var n := |o.labels|;
            && AddLabels(Labelled(o, labels).labels, holes)[..n] == AddLabels(o.labels, DropBlock(holes, n))
            && AddLabels(Labelled(o, labels).labels, holes)[n] == LabelFrame(labels, Ats(holes, ExitBlock(n)))
            && AddLoops(o.loops, holes) == AddLoops(o.loops, DropBlock(holes, n))
  {
    hide Ats, DropBlock;
    var n := |o.labels|;
    assert Labelled(o, labels).labels[n] == LabelFrame(labels, []);
    var a, b := AddLabels(Labelled(o, labels).labels, holes)[..n], AddLabels(o.labels, DropBlock(holes, n));
    forall i | 0 <= i < n ensures a[i] == b[i] {
      AtsDropBlock(holes, n, ExitBlock(i));
    }
    var c, d := AddLoops(o.loops, holes), AddLoops(o.loops, DropBlock(holes, n));
    forall i | 0 <= i < |o.loops| ensures c[i] == d[i] {
      AtsDropBlock(holes, n, BreakLoop(i));
      AtsDropBlock(holes, n, ContinueLoop(i));
    }
  }

  lemma BlockClosed(o: Output, labels: seq<string>, z: Gen, p: Gen, exit: nat)
    requires var sh := ShapeOf(o);
             Same(z, p, |o.code|, PushBlock(sh, labels), PushExit(Unknown(sh), 0), PushExit(Unknown(sh), exit))
    ensures var n := |o.labels|;
            var done := Append(Labelled(o, labels), z);
            && |done.labels| == n + 1
            && (forall at :: at in done.labels[n].breaks ==> at < |done.code|)
            && Output(PatchAll(done.code, done.labels[n].breaks, exit), done.loops, done.labels[..n], done.errors,
                      done.tabs)
               == Append(o, p.(holes := DropBlock(p.holes, n)))
  {
    hide Ats, DropBlock, AddLoops, AddLabels, PatchAll, Same;
    var sh := ShapeOf(o);
    UnknownFits(o);
    BlockFramesBelow(o, labels, z.holes);
    CloseBlock(o.code, z, p, sh, labels, Unknown(sh), exit);
    SameSize(z, p, |o.code|, PushBlock(sh, labels), PushExit(Unknown(sh), 0), PushExit(Unknown(sh), exit));
    AppendShape(Labelled(o, labels), z);
  }

  // ----- lists -----

  /** One statement of a list and the rest of it. */
  lemma ListNext(o: Output, s: Stmt, tail: StmtList, sc: Scope)
    ensures var a := Append(o, StmtAt(s, [], o, sc));
            Append(o, ListAt(SCons(s, tail), o, sc)) == Append(a, ListAt(tail, a, sc))
  {
    hide GenStmt, ShapeOf, Unknown, Append;
    var g := StmtAt(s, [], o, sc);
    var a := Append(o, g);
    AppendCodeSize(o, g);
    AppendShape(o, g);
    AppendTwice(o, g, ListAt(tail, a, sc));
  }

  lemma AppendCodeSize(o: Output, g: Gen)
    ensures |Append(o, g).code| == |o.code| + |g.code| && Append(o, g).tabs == g.tabs
  {
  }

  /** One case body and the rest of them. */
  lemma BodiesNext(o: Output, c: Case, tail: CaseList, sc: Scope)
    ensures var a := Append(o, ListAt(c.body, o, sc));
            Append(o, BodiesAt(CCons(c, tail), o, sc)) == Append(a, BodiesAt(tail, a, sc))
  {
    hide GenList, ShapeOf, Unknown, Append;
    var g := ListAt(c.body, o, sc);
    var a := Append(o, g);
    AppendCodeSize(o, g);
    AppendShape(o, g);
    AppendTwice(o, g, BodiesAt(tail, a, sc));
  }

  // ----- loop bodies -----

  /** A loop body while the addresses that end it are unknown. */
  ghost function BodyOpen(body: Stmt, o: Output, labels: seq<string>, sc: Scope): Gen {
    StmtAt(body, [], Opened(o, labels, true), sc)
  }

  ghost function BodyClosed(body: Stmt, o: Output, labels: seq<string>, brk: nat, cont: nat, sc: Scope): Gen {
    GenStmt(body, |o.code|, [], PushLoop(ShapeOf(o), labels, true), PushLoopTarget(Unknown(ShapeOf(o)), brk, cont),
            o.tabs, sc)
  }

  lemma BodyFacts(body: Stmt, o: Output, labels: seq<string>, brk: nat, cont: nat, sc: Scope)
    ensures var z, p := BodyOpen(body, o, labels, sc), BodyClosed(body, o, labels, brk, cont, sc);
            && LoopSame(z, p, o, labels, true, brk, cont)
            && |z.code| == |p.code| == LenStmt(body, [], PushLoop(ShapeOf(o), labels, true), sc) && z.tabs == p.tabs
    ensures ShapeOf(Opened(o, labels, true)) == PushLoop(ShapeOf(o), labels, true)
  {
    hide GenStmt, ShapeOf, Unknown, Same;
    var sh := ShapeOf(o);
    var inner := PushLoop(sh, labels, true);
    var ta, tb := PushLoopTarget(Unknown(sh), 0, 0), PushLoopTarget(Unknown(sh), brk, cont);
    UnknownFits(o);
    OpenedShape(o, labels, true);
    StmtSame(body, |o.code|, [], inner, ta, tb, o.tabs, sc);
    SameSize(BodyOpen(body, o, labels, sc), BodyClosed(body, o, labels, brk, cont, sc), |o.code|, inner, ta, tb);
    StmtLength(body, |o.code|, [], inner, ta, o.tabs, sc);
  }

  // ----- wrapped fragments -----

  /** An open jump before a fragment, patched after it and what follows. */
  lemma AppendPatched(o: Output, a: seq<Instr>, op: Opcode, U: Tables, g: Gen, b: seq<Instr>, T: Tables, target: nat)
    ensures var inside := Append(o.(code := o.code + a + [Instr(op, 0)], tabs := U), g);
            && |o.code| + |a| < |inside.code| && inside.code[|o.code| + |a|] == Instr(op, 0)
            && inside.(code := (inside.code + b)[|o.code| + |a| := Instr(op, target)], tabs := T)
               == Append(o, g.(code := a + [Instr(op, target)] + g.code + b, tabs := T))
  {
    hide AddLoops, AddLabels;
    Move(o.code, a, Instr(op, 0), Instr(op, target), g.code, b);
  }

  lemma Move(s: seq<Instr>, a: seq<Instr>, x: Instr, y: Instr, g: seq<Instr>, b: seq<Instr>)
    ensures (s + a + [x] + g + b)[|s| + |a| := y] == s + (a + [y] + g + b)
  {
  }

  /** A jump between two fragments, patched after the second. */
  lemma AppendBetween(o: Output, a: Gen, op: Opcode, b: Gen, target: nat)
    requires |a.code| > 0 && a.code[|a.code| - 1] == Instr(op, 0)
    ensures var at := |o.code| + |a.code| - 1;
            var both := Append(Append(o, a), b);
            && at < |both.code| && both.code[at] == Instr(op, 0)
            && both.(code := both.code[at := Instr(op, target)])
               == Append(o, Cat(a.(code := a.code[..|a.code| - 1] + [Instr(op, target)]), b))
  {
    hide AddLoops, AddLabels;
    AddTwice(o, a.holes, b.holes);
    var at := |o.code| + |a.code| - 1;
    assert (o.code + a.code + b.code)[at := Instr(op, target)]
        == o.code + (a.code[..|a.code| - 1] + [Instr(op, target)] + b.code);
  }

  lemma AppendAfter(o: Output, g: Gen, last: seq<Instr>, T: Tables)
    ensures AppendThen(o, g, last, T) == Append(o, g.(code := g.code + last, tabs := T))
  {
    hide AddLoops, AddLabels;
    assert o.code + g.code + last == o.code + (g.code + last);
  }

  lemma NoClause(base: nat, T: Tables, sc: Scope)
    ensures GenClause(None, base, T, sc) == Code([], T)
  {
  }

  lemma AppendFirst(o: Output, first: seq<Instr>, U: Tables, g: Gen)
    ensures Append(o.(code := o.code + first, tabs := U), g) == Append(o, g.(code := first + g.code))
  {
    hide AddLoops, AddLabels;
    assert o.code + first + g.code == o.code + (first + g.code);
  }

  // ----- label chains -----

  /** A statement under labels that were collected before it. */
  ghost function UnderLabels(target: Stmt, all: seq<string>, o: Output, sc: Scope): Gen {
    if PassesLabels(target) then StmtAt(target, all, o, sc)
    else GenLabeledBlock(target, |o.code|, all, ShapeOf(o), Unknown(ShapeOf(o)), o.tabs, sc)
  }

  ghost function LenUnder(target: Stmt, all: seq<string>, sh: Shape, sc: Scope): nat {
    if PassesLabels(target) then LenStmt(target, all, sh, sc) else LenStmt(target, [], PushBlock(sh, all), sc)
  }

  lemma LabelChain(s: Stmt, all: seq<string>, o: Output, sc: Scope)
    requires s.Labeled?
    ensures StmtAt(s, all, o, sc) == UnderLabels(s.labeled, all + [s.name], o, sc)
    ensures LenStmt(s, all, ShapeOf(o), sc) == LenUnder(s.labeled, all + [s.name], ShapeOf(o), sc)
  {
    hide ShapeOf, Unknown;
  }

  lemma BlockFacts(body: Stmt, o: Output, all: seq<string>, sc: Scope)
    ensures var sh := ShapeOf(o);
            var z := StmtAt(body, [], Labelled(o, all), sc);
            && |z.code| == LenStmt(body, [], PushBlock(sh, all), sc)
            && forall exit: nat ::
                 Same(z, GenStmt(body, |o.code|, [], PushBlock(sh, all), PushExit(Unknown(sh), exit), o.tabs, sc),
                      |o.code|, PushBlock(sh, all), PushExit(Unknown(sh), 0), PushExit(Unknown(sh), exit))
  {
    hide GenStmt, ShapeOf, Unknown, Same;
    var sh := ShapeOf(o);
    LabelledShape(o, all);
    UnknownFits(o);
    StmtLength(body, |o.code|, [], PushBlock(sh, all), PushExit(Unknown(sh), 0), o.tabs, sc);
    forall exit: nat
      ensures Same(StmtAt(body, [], Labelled(o, all), sc),
                   GenStmt(body, |o.code|, [], PushBlock(sh, all), PushExit(Unknown(sh), exit), o.tabs, sc),
                   |o.code|, PushBlock(sh, all), PushExit(Unknown(sh), 0), PushExit(Unknown(sh), exit))
    {
      StmtSame(body, |o.code|, [], PushBlock(sh, all), PushExit(Unknown(sh), 0), PushExit(Unknown(sh), exit), o.tabs,
               sc);
    }
  }

  // ----- switch -----

  /** Everything after the discriminant of a switch has been stored. */
  ghost function CasesGen(cases: CaseList, tmp: nat, o: Output, sc: Scope): Gen {
    var inner := PushLoop(ShapeOf(o), [], false);
    var pb := |o.code| + LenTests(cases, sc) + 1;
    var end := pb + LenBodies(cases, inner, sc);
    var c := GenTests(cases, |o.code|, tmp, pb, inner, o.tabs, sc);
    var b := GenBodies(cases, pb, inner, PushLoopTarget(Unknown(ShapeOf(o)), end, end), c.tabs, sc);
    Gen(c.code + [Instr(Jump, DefaultStart(cases, pb, end, inner, sc))] + b.code, b.tabs, DropLoop(b.holes, |o.loops|),
        b.errs)
  }

  lemma AppendSwitch(s: Stmt, o: Output, sc: Scope)
    requires s.Switch?
    ensures var d := GenExpr(s.disc, |o.code|, o.tabs, sc);
            var tmp := InternLocal(SwitchDisc, d.tabs);
            var first := o.(code := o.code + (d.code + [Instr(StaLocal, tmp.index)]), tabs := tmp.tabs);
            Append(first, CasesGen(s.cases, tmp.index, first, sc))
            == Append(o, GenSwitch(s, |o.code|, ShapeOf(o), Unknown(ShapeOf(o)), o.tabs, sc))
  {
    hide GenExpr, GenTests, GenBodies, LenTests, LenBodies, Append, ShapeOf, Unknown, DropLoop, InternLocal;
    var d := GenExpr(s.disc, |o.code|, o.tabs, sc);
    var tmp := InternLocal(SwitchDisc, d.tabs);
    var head := d.code + [Instr(StaLocal, tmp.index)];
    var first := o.(code := o.code + head, tabs := tmp.tabs);
    var g := CasesGen(s.cases, tmp.index, first, sc);
    ShapeCode(o, first.code, tmp.tabs);
    UnknownFits(o);
    AppendFirst(o, head, tmp.tabs, g);
    var w := GenSwitch(s, |o.code|, ShapeOf(o), Unknown(ShapeOf(o)), o.tabs, sc);
    HeadSplit(head, w.code, g.code, s, o, sc);
  }

  lemma HeadSplit(head: seq<Instr>, w: seq<Instr>, g: seq<Instr>, s: Stmt, o: Output, sc: Scope)
    requires s.Switch?
    requires exists c: seq<Instr>, j: seq<Instr>, b: seq<Instr> :: w == head + c + j + b && g == c + j + b
    ensures w == head + g
  {
    var c: seq<Instr>, j: seq<Instr>, b: seq<Instr> :| w == head + c + j + b && g == c + j + b;
  }

  lemma BodiesFacts(cases: CaseList, o: Output, brk: nat, sc: Scope)
    ensures var inner := PushLoop(ShapeOf(o), [], false);
            var z := BodiesAt(cases, Opened(o, [], false), sc);
            var p := GenBodies(cases, |o.code|, inner, PushLoopTarget(Unknown(ShapeOf(o)), brk, brk), o.tabs, sc);
            && LoopSame(z, p, o, [], false, brk, brk)
            && |z.code| == |p.code| == LenBodies(cases, inner, sc) && z.tabs == p.tabs
    ensures ShapeOf(Opened(o, [], false)) == PushLoop(ShapeOf(o), [], false)
  {
    hide GenBodies, ShapeOf, Unknown, Same;
    var sh := ShapeOf(o);
    var inner := PushLoop(sh, [], false);
    var ta, tb := PushLoopTarget(Unknown(sh), 0, 0), PushLoopTarget(Unknown(sh), brk, brk);
    UnknownFits(o);
    OpenedShape(o, [], false);
    BodiesSame(cases, |o.code|, inner, ta, tb, o.tabs, sc);
    SameSize(BodiesAt(cases, Opened(o, [], false), sc), GenBodies(cases, |o.code|, inner, tb, o.tabs, sc), |o.code|,
             inner,
             ta, tb);
    BodiesRegular(cases, |o.code|, inner, ta, o.tabs, sc, 0);
  }

  lemma {:induction false} DefaultIn(cases: CaseList, i: nat)
    ensures DefaultIndex(cases, i).Some? ==> i <= DefaultIndex(cases, i).value < i + CaseCount(cases)
  {
    match cases
    case CNil =>
    case CCons(_, tail) => DefaultIn(tail, i + 1);
  }

  lemma OpenedCode(o: Output, labels: seq<string>, it: bool, g: Gen)
    ensures var a := Append(Opened(o, labels, it), g);
            && a.code == o.code + g.code && a.tabs == g.tabs && a.labels == AddLabels(o.labels, g.holes)
            && a.loops == AddLoops(Opened(o, labels, it).loops, g.holes) && a.errors == o.errors + g.errs
  {
  }

  /** Bodies do not depend on the tests before them, only on their size. */
  lemma SameBodies(a: Output, b: Output, cases: CaseList, sc: Scope)
    requires |a.code| == |b.code| && a.tabs == b.tabs && a.loops == b.loops && a.labels == b.labels
    ensures BodiesAt(cases, Opened(a, [], false), sc) == BodiesAt(cases, Opened(b, [], false), sc)
  {
    hide GenBodies;
  }

  lemma StartsDefault(starts: seq<nat>, cases: CaseList, pb: nat, end: nat, sh: Shape, sc: Scope)
    requires StartsAt(starts, 0, cases, pb, sh, sc)
    ensures DefaultIndex(cases, 0).Some? ==> DefaultIndex(cases, 0).value < |starts|
    ensures DefaultStart(cases, pb, end, sh, sc)
            == match DefaultIndex(cases, 0) case Some(i) => starts[i] case None => end
  {
    hide BodyStart;
    DefaultIn(cases, 0);
  }

  // ----- whole functions -----

  lemma NoFrames(o: Output)
    requires o.loops == [] && o.labels == []
    ensures ShapeOf(o) == NoShape && Unknown(ShapeOf(o)) == NoTargets
  {
  }

  lemma HolesOutside(holes: seq<Hole>, lo: nat, hi: nat)
    requires HolesIn(holes, lo, hi, NoShape)
    ensures holes == []
  {
    FirstIn(holes);
  }

  lemma FirstIn(holes: seq<Hole>)
    ensures holes == [] || holes[0] in holes
  {
  }

  /** No jump is left open outside all loops and labels. */
  lemma NothingOpen(ss: StmtList, base: nat, T: Tables, sc: Scope)
    ensures GenList(ss, base, NoShape, NoTargets, T, sc).holes == []
  {
    var g := GenList(ss, base, NoShape, NoTargets, T, sc);
    ListSame(ss, base, NoShape, NoTargets, NoTargets, T, sc);
    HolesOutside(g.holes, base, base + |g.code|);
  }

  lemma StmtNothingOpen(s: Stmt, base: nat, T: Tables, sc: Scope)
    ensures GenStmt(s, base, [], NoShape, NoTargets, T, sc).holes == []
  {
    hide GenStmt;
    var g := GenStmt(s, base, [], NoShape, NoTargets, T, sc);
    StmtSame(s, base, [], NoShape, NoTargets, NoTargets, T, sc);
    HolesOutside(g.holes, base, base + |g.code|);
  }

  function TopAt(ss: StmtList, o: Output, sc: Scope): Gen {
    GenTop(ss, |o.code|, o.tabs, sc)
  }

  lemma TopNext(o: Output, s: Stmt, tail: StmtList, sc: Scope)
    requires o.loops == [] && o.labels == []
    ensures var a := if s.ExprStmt? then AppendCode(o, GenExpr(s.expr, |o.code|, o.tabs, sc))
                     else Append(o, StmtAt(s, [], o, sc));
            && Append(o, TopAt(SCons(s, tail), o, sc)) == Append(a, TopAt(tail, a, sc))
            && |o.code| + |TopAt(SCons(s, tail), o, sc).code| == |a.code| + |TopAt(tail, a, sc).code|
            && a.loops == [] && a.labels == []
  {
    hide GenStmt, GenExpr, Append;
    NoFrames(o);
    if s.ExprStmt? {
      var g := GenExpr(s.expr, |o.code|, o.tabs, sc);
      AppendFirst(o, g.code, g.tabs, TopAt(tail, AppendCode(o, g), sc));
    } else {
      var g := StmtAt(s, [], o, sc);
      AppendCodeSize(o, g);
      AppendShape(o, g);
      AppendTwice(o, g, TopAt(tail, Append(o, g), sc));
    }
  }

  lemma {:induction false} TopNothingOpen(ss: StmtList, base: nat, T: Tables, sc: Scope)
    ensures GenTop(ss, base, T, sc).holes == []
  {
    hide GenStmt, GenExpr;
    if ss.SCons? {
      var s := ss.head;
      if s.ExprStmt? {
        var g := GenExpr(s.expr, base, T, sc);
        TopNothingOpen(ss.tail, base + |g.code|, g.tabs, sc);
      } else {
        var g := GenStmt(s, base, [], NoShape, NoTargets, T, sc);
        StmtNothingOpen(s, base, T, sc);
        TopNothingOpen(ss.tail, base + |g.code|, g.tabs, sc);
      }
    }
  }

  lemma TopEnds(o: Output, sc: Scope)
    ensures Append(o, TopAt(SNil, o, sc)) == o
  {
    hide AddLoops, AddLabels;
    AppendPlain(o, [], o.tabs);
    assert o.code + [] == o.code;
  }

  lemma AppendEmpty(o: Output, g: Gen)
    requires o.code == [] && o.loops == [] && o.labels == [] && o.errors == []
    ensures Append(o, g) == Output(g.code, [], [], g.errs, g.tabs)
  {
  }
}
