/** Backpatching: code generated with placeholders and patched afterwards is
    the code generated with the targets known in advance. */
module Patching {
  import opened Syntax
  import opened Machine
  import opened Semantics
  import opened CodeGen
  import opened Lengths
  import opened StmtGen
  import opened JumpTargets

  // ----- holes -----

  ghost predicate SlotIn(sh: Shape, slot: Slot) {
    match slot
    case BreakLoop(i) => i < |sh.loops|
    case ContinueLoop(i) => i < |sh.loops|
    case ExitBlock(i) => i < |sh.blocks|
  }

  /** Holes in the order of their addresses, no address twice. */
  ghost predicate Ordered(holes: seq<Hole>) {
    forall i, j :: 0 <= i < j < |holes| ==> holes[i].at < holes[j].at
  }

  ghost predicate HolesIn(holes: seq<Hole>, lo: nat, hi: nat, sh: Shape) {
    Ordered(holes) && forall h :: h in holes ==> lo <= h.at < hi && SlotIn(sh, h.slot)
  }

  ghost predicate Untouched(holes: seq<Hole>, pc: nat) {
    forall h :: h in holes ==> h.at != pc
  }

  ghost predicate Filled(code: seq<Instr>, base: nat, holes: seq<Hole>, tg: Targets) {
    forall h :: h in holes ==> base <= h.at < base + |code| && code[h.at - base] == Instr(Jump, Addr(tg, h.slot))
  }

  ghost predicate AgreeOff(a: seq<Instr>, b: seq<Instr>, base: nat, holes: seq<Hole>) {
    |a| == |b| && forall k: nat :: k < |a| && Untouched(holes, base + k) ==> a[k] == b[k]
  }

  /** Two codes for one fragment that differ only in the targets of the jumps
      recorded as holes. */
  ghost predicate Same(a: Gen, b: Gen, base: nat, sh: Shape, ta: Targets, tb: Targets) {
    && a.tabs == b.tabs && a.holes == b.holes && a.errs == b.errs
    && HolesIn(a.holes, base, base + |a.code|, sh)
    && Filled(a.code, base, a.holes, ta) && Filled(b.code, base, a.holes, tb)
    && AgreeOff(a.code, b.code, base, a.holes)
  }

  function Cat(a: Gen, b: Gen): Gen {
    Gen(a.code + b.code, b.tabs, a.holes + b.holes, a.errs + b.errs)
  }

  function Fixed(code: seq<Instr>, T: Tables): Gen {
    Gen(code, T, [], [])
  }

  lemma SameFixed(code: seq<Instr>, T: Tables, base: nat, sh: Shape, ta: Targets, tb: Targets)
    ensures Same(Fixed(code, T), Fixed(code, T), base, sh, ta, tb)
  {
  }

  lemma SameCat(a: Gen, b: Gen, c: Gen, d: Gen, base: nat, sh: Shape, ta: Targets, tb: Targets)
    requires Same(a, b, base, sh, ta, tb) && Same(c, d, base + |a.code|, sh, ta, tb)
    ensures Same(Cat(a, c), Cat(b, d), base, sh, ta, tb)
  {
    hide HolesIn, Filled, AgreeOff;
    AgreeLength(a.code, b.code, base, a.holes);
    AgreeLength(c.code, d.code, base + |a.code|, c.holes);
    CatHoles(a.holes, c.holes, base, base + |a.code|, base + |a.code| + |c.code|, sh);
    CatFilled(a.code, c.code, base, a.holes, c.holes, ta);
    CatFilled(b.code, d.code, base, b.holes, d.holes, tb);
    CatAgree(a.code, b.code, c.code, d.code, base, a.holes, c.holes);
  }

  lemma AgreeLength(a: seq<Instr>, b: seq<Instr>, base: nat, holes: seq<Hole>)
    requires AgreeOff(a, b, base, holes)
    ensures |a| == |b|
  {
  }

  lemma CatAgree(a: seq<Instr>, b: seq<Instr>, c: seq<Instr>, d: seq<Instr>, base: nat, ha: seq<Hole>, hc: seq<Hole>)
    requires AgreeOff(a, b, base, ha) && AgreeOff(c, d, base + |a|, hc)
    ensures AgreeOff(a + c, b + d, base, ha + hc)
  {
    forall k: nat | k < |a + c| && Untouched(ha + hc, base + k) ensures (a + c)[k] == (b + d)[k] {
      assert forall h :: h in ha || h in hc ==> h in ha + hc;
      if k < |a| {
        assert Untouched(ha, base + k);
      } else {
        assert Untouched(hc, base + |a| + (k - |a|));
      }
    }
  }

  lemma CatHoles(a: seq<Hole>, b: seq<Hole>, lo: nat, mid: nat, hi: nat, sh: Shape)
    requires HolesIn(a, lo, mid, sh) && HolesIn(b, mid, hi, sh) && lo <= mid <= hi
    ensures HolesIn(a + b, lo, hi, sh)
  {
    forall i, j | 0 <= i < j < |a + b| ensures (a + b)[i].at < (a + b)[j].at {
      if i < |a| <= j {
        assert a[i] in a && b[j - |a|] in b;
      }
    }
  }

  lemma CatFilled(a: seq<Instr>, b: seq<Instr>, base: nat, ha: seq<Hole>, hb: seq<Hole>, tg: Targets)
    requires Filled(a, base, ha, tg) && Filled(b, base + |a|, hb, tg)
    ensures Filled(a + b, base, ha + hb, tg)
  {
  }

  // ----- closing a loop or a labelled block -----

  predicate OfLoop(slot: Slot, n: nat) {
    slot == BreakLoop(n) || slot == ContinueLoop(n)
  }

  lemma {:induction false} DropLoopKeeps(holes: seq<Hole>, n: nat)
    ensures forall h :: h in DropLoop(holes, n) <==> h in holes && !OfLoop(h.slot, n)
    ensures Ordered(holes) ==> Ordered(DropLoop(holes, n))
  {
    if holes != [] {
      DropLoopKeeps(holes[1..], n);
      assert holes == [holes[0]] + holes[1..];
      if Ordered(holes) {
        OrderedHead(holes, DropLoop(holes[1..], n));
      }
    }
  }

  lemma {:induction false} DropBlockKeeps(holes: seq<Hole>, n: nat)
    ensures forall h :: h in DropBlock(holes, n) <==> h in holes && h.slot != ExitBlock(n)
    ensures Ordered(holes) ==> Ordered(DropBlock(holes, n))
  {
    if holes != [] {
      DropBlockKeeps(holes[1..], n);
      assert holes == [holes[0]] + holes[1..];
      if Ordered(holes) {
        OrderedHead(holes, DropBlock(holes[1..], n));
      }
    }
  }

  lemma OrderedHead(holes: seq<Hole>, rest: seq<Hole>)
    requires holes != [] && Ordered(holes)
    requires Ordered(holes[1..]) ==> Ordered(rest)
    requires forall h :: h in rest ==> h in holes[1..]
    ensures Ordered([holes[0]] + rest) && Ordered(rest)
  {
    forall h | h in rest ensures holes[0].at < h.at {
      var i :| 0 <= i < |holes[1..]| && holes[1..][i] == h;
      assert holes[i + 1] == h;
    }
  }

  /** The holes that remain have the same targets outside. */
  lemma Leave(holes: seq<Hole>, rest: seq<Hole>, a: seq<Instr>, b: seq<Instr>, base: nat, inner: Shape, sh: Shape,
              ia: Targets, ib: Targets, ta: Targets, tb: Targets)
    requires HolesIn(holes, base, base + |a|, inner) && Filled(a, base, holes, ia) && Filled(b, base, holes, ib)
    requires AgreeOff(a, b, base, holes)
    requires Ordered(rest)
    requires forall h :: h in rest ==> h in holes && SlotIn(sh, h.slot)
    requires forall h :: h in rest ==> Addr(ia, h.slot) == Addr(ta, h.slot) && Addr(ib, h.slot) == Addr(tb, h.slot)
    requires forall h :: h in holes && h !in rest ==> Addr(ia, h.slot) == Addr(ib, h.slot)
    ensures HolesIn(rest, base, base + |a|, sh) && Filled(a, base, rest, ta) && Filled(b, base, rest, tb)
    ensures AgreeOff(a, b, base, rest)
  {
    hide SlotIn, Addr, Ordered;
    forall k: nat | k < |a| && Untouched(rest, base + k) ensures a[k] == b[k] {
      if !Untouched(holes, base + k) {
        var h :| h in holes && h.at == base + k;
        assert h !in rest;
        assert h.at - base == k;
      }
    }
  }

  lemma SameLoop(a: Gen, b: Gen, base: nat, sh: Shape, labels: seq<string>, it: bool, brk: nat, cont: nat,
                 ta: Targets, tb: Targets)
    requires Fits(sh, ta) && Fits(sh, tb)
    requires Same(a, b, base, PushLoop(sh, labels, it), PushLoopTarget(ta, brk, cont), PushLoopTarget(tb, brk, cont))
    ensures var n := |sh.loops|;
            Same(a.(holes := DropLoop(a.holes, n)), b.(holes := DropLoop(b.holes, n)), base, sh, ta, tb)
  {
    hide Filled, AgreeOff, Ordered;
    var n := |sh.loops|;
    DropLoopKeeps(a.holes, n);
    Leave(a.holes, DropLoop(a.holes, n), a.code, b.code, base, PushLoop(sh, labels, it), sh,
          PushLoopTarget(ta, brk, cont), PushLoopTarget(tb, brk, cont), ta, tb);
  }

  lemma SameBlock(a: Gen, b: Gen, base: nat, sh: Shape, labels: seq<string>, exit: nat, ta: Targets, tb: Targets)
    requires Fits(sh, ta) && Fits(sh, tb)
    requires Same(a, b, base, PushBlock(sh, labels), PushExit(ta, exit), PushExit(tb, exit))
    ensures var n := |sh.blocks|;
            Same(a.(holes := DropBlock(a.holes, n)), b.(holes := DropBlock(b.holes, n)), base, sh, ta, tb)
  {
    hide Filled, AgreeOff, Ordered;
    var n := |sh.blocks|;
    DropBlockKeeps(a.holes, n);
    Leave(a.holes, DropBlock(a.holes, n), a.code, b.code, base, PushBlock(sh, labels), sh,
          PushExit(ta, exit), PushExit(tb, exit), ta, tb);
  }

  // ----- every statement -----

  /** A fragment after code without open jumps. */
  lemma SameAfter(code: seq<Instr>, T: Tables, a: Gen, b: Gen, base: nat, sh: Shape, ta: Targets, tb: Targets)
    requires Same(a, b, base + |code|, sh, ta, tb)
    ensures Same(a.(code := code + a.code), b.(code := code + b.code), base, sh, ta, tb)
  {
    hide Same;
    SameFixed(code, T, base, sh, ta, tb);
    SameCat(Fixed(code, T), Fixed(code, T), a, b, base, sh, ta, tb);
    assert Cat(Fixed(code, T), a) == a.(code := code + a.code);
    assert Cat(Fixed(code, T), b) == b.(code := code + b.code);
  }

  /** A fragment before code without open jumps. */
  lemma SameBefore(a: Gen, b: Gen, code: seq<Instr>, T: Tables, base: nat, sh: Shape, ta: Targets, tb: Targets)
    requires Same(a, b, base, sh, ta, tb)
    ensures Same(a.(code := a.code + code, tabs := T), b.(code := b.code + code, tabs := T), base, sh, ta, tb)
  {
    hide Same;
    SameFixed(code, T, base + |a.code|, sh, ta, tb);
    SameCat(a, b, Fixed(code, T), Fixed(code, T), base, sh, ta, tb);
    assert Cat(a, Fixed(code, T)) == a.(code := a.code + code, tabs := T);
    assert Cat(b, Fixed(code, T)) == b.(code := b.code + code, tabs := T);
  }

  lemma SameSize(a: Gen, b: Gen, base: nat, sh: Shape, ta: Targets, tb: Targets)
    requires Same(a, b, base, sh, ta, tb)
    ensures |a.code| == |b.code| && a.tabs == b.tabs && a.holes == b.holes && a.errs == b.errs
  {
  }

  lemma {:induction false} StmtSame(s: Stmt, base: nat, labels: seq<string>, sh: Shape, ta: Targets, tb: Targets,
                                    T: Tables, sc: Scope)
    requires Fits(sh, ta) && Fits(sh, tb)
    ensures Same(GenStmt(s, base, labels, sh, ta, T, sc), GenStmt(s, base, labels, sh, tb, T, sc), base, sh, ta, tb)
    decreases s, 2
  {
    hide Same, GenExpr, GenIf, GenIfElse, GenWhile, GenDo, GenFor, GenSwitch, GenList, GenJump, GenLabeledBlock;
    match s
    case Empty => SameFixed([], T, base, sh, ta, tb);
    case Block(body) => ListSame(body, base, sh, ta, tb, T, sc);
    case ExprStmt(e) =>
      var g := GenExpr(e, base, T, sc);
      SameFixed(g.code + [Bare(Pop)], g.tabs, base, sh, ta, tb);
    case Return(None) => SameFixed([Bare(LdaUndefined), Bare(ReturnOp)], T, base, sh, ta, tb);
    case Return(Some(e)) =>
      var g := GenExpr(e, base, T, sc);
      SameFixed(g.code + [Bare(ReturnOp)], g.tabs, base, sh, ta, tb);
    case ThrowStmt(e) =>
      var g := GenExpr(e, base, T, sc);
      SameFixed(g.code + [Bare(ThrowOp)], g.tabs, base, sh, ta, tb);
    case If(_, _, None) => IfSame(s, base, sh, ta, tb, T, sc);
    case If(_, _, Some(_)) => IfElseSame(s, base, sh, ta, tb, T, sc);
    case While(_, _) => WhileSame(s, base, labels, sh, ta, tb, T, sc);
    case DoWhile(_, _) => DoSame(s, base, labels, sh, ta, tb, T, sc);
    case For(_, _, _, _) => ForSame(s, base, labels, sh, ta, tb, T, sc);
    case Switch(_, _) => SwitchSame(s, base, sh, ta, tb, T, sc);
    case Break(l) =>
      FoundIn(sh, l);
      JumpSame(FindBreak(sh, l), base, sh, ta, tb, T, NoBreakTarget);
    case Continue(l) =>
      FoundIn(sh, l);
      JumpSame(FindContinue(sh, l), base, sh, ta, tb, T, NoContinueTarget);
    case Labeled(name, body) =>
      if PassesLabels(body) {
        StmtSame(body, base, labels + [name], sh, ta, tb, T, sc);
      } else {
        BlockSame(body, base, labels + [name], sh, ta, tb, T, sc);
      }
  }

  /** Frames that are found exist. */
  lemma FoundIn(sh: Shape, l: Option<string>)
    ensures FindBreak(sh, l).Some? ==> SlotIn(sh, FindBreak(sh, l).value)
    ensures FindContinue(sh, l).Some? ==> SlotIn(sh, FindContinue(sh, l).value)
  {
    LastIterationBound(sh.loops, l);
    if l.Some? {
      LastLabelledBound(sh.loops, l.value);
      LastBlockBound(sh.blocks, l.value);
    }
  }

  lemma JumpSame(found: Option<Slot>, base: nat, sh: Shape, ta: Targets, tb: Targets, T: Tables, err: JumpError)
    requires found.Some? ==> SlotIn(sh, found.value)
    ensures Same(GenJump(found, base, ta, T, err), GenJump(found, base, tb, T, err), base, sh, ta, tb)
  {
  }

  lemma {:induction false} ListSame(ss: StmtList, base: nat, sh: Shape, ta: Targets, tb: Targets, T: Tables, sc: Scope)
    requires Fits(sh, ta) && Fits(sh, tb)
    ensures Same(GenList(ss, base, sh, ta, T, sc), GenList(ss, base, sh, tb, T, sc), base, sh, ta, tb)
    decreases ss, 0
  {
    hide Same, GenStmt;
    match ss
    case SNil => SameFixed([], T, base, sh, ta, tb);
    case SCons(s, tail) =>
      var a := GenStmt(s, base, [], sh, ta, T, sc);
      var b := GenStmt(s, base, [], sh, tb, T, sc);
      StmtSame(s, base, [], sh, ta, tb, T, sc);
      SameSize(a, b, base, sh, ta, tb);
      ListSame(tail, base + |a.code|, sh, ta, tb, a.tabs, sc);
      SameCat(a, b, GenList(tail, base + |a.code|, sh, ta, a.tabs, sc),
              GenList(tail, base + |a.code|, sh, tb, a.tabs, sc), base, sh, ta, tb);
  }

  lemma {:induction false} IfSame(s: Stmt, base: nat, sh: Shape, ta: Targets, tb: Targets, T: Tables, sc: Scope)
    requires s.If? && Fits(sh, ta) && Fits(sh, tb)
    ensures Same(GenIf(s, base, sh, ta, T, sc), GenIf(s, base, sh, tb, T, sc), base, sh, ta, tb)
    decreases s, 0
  {
    hide Same, GenStmt, GenExpr;
    var t := GenExpr(s.test, base, T, sc);
    var pc := base + |t.code| + 1;
    var a := GenStmt(s.cons, pc, [], sh, ta, t.tabs, sc);
    var b := GenStmt(s.cons, pc, [], sh, tb, t.tabs, sc);
    StmtSame(s.cons, pc, [], sh, ta, tb, t.tabs, sc);
    SameSize(a, b, pc, sh, ta, tb);
    SameAfter(t.code + [Instr(JumpIfFalse, pc + |a.code|)], T, a, b, base, sh, ta, tb);
  }

  lemma {:induction false} IfElseSame(s: Stmt, base: nat, sh: Shape, ta: Targets, tb: Targets, T: Tables, sc: Scope)
    requires s.If? && s.alt.Some? && Fits(sh, ta) && Fits(sh, tb)
    ensures Same(GenIfElse(s, base, sh, ta, T, sc), GenIfElse(s, base, sh, tb, T, sc), base, sh, ta, tb)
    decreases s, 0
  {
    hide Same, GenStmt, GenExpr;
    var t := GenExpr(s.test, base, T, sc);
    var pc := base + |t.code| + 1;
    var a := GenStmt(s.cons, pc, [], sh, ta, t.tabs, sc);
    var b := GenStmt(s.cons, pc, [], sh, tb, t.tabs, sc);
    StmtSame(s.cons, pc, [], sh, ta, tb, t.tabs, sc);
    SameSize(a, b, pc, sh, ta, tb);
    var mid := pc + |a.code| + 1;
    var c := GenStmt(s.alt.value, mid, [], sh, ta, a.tabs, sc);
    var d := GenStmt(s.alt.value, mid, [], sh, tb, a.tabs, sc);
    StmtSame(s.alt.value, mid, [], sh, ta, tb, a.tabs, sc);
    SameSize(c, d, mid, sh, ta, tb);
    var jump := [Instr(Jump, mid + |c.code|)];
    var test := t.code + [Instr(JumpIfFalse, mid)];
    SameBefore(a, b, jump, a.tabs, pc, sh, ta, tb);
    var a1, b1 := a.(code := a.code + jump), b.(code := b.code + jump);
    SameCat(a1, b1, c, d, pc, sh, ta, tb);
    SameAfter(test, T, Cat(a1, c), Cat(b1, d), base, sh, ta, tb);
    assert test + (a.code + jump + c.code) == test + a.code + jump + c.code;
    assert test + (b.code + jump + d.code) == test + b.code + jump + d.code;
  }

  lemma {:induction false} WhileSame(s: Stmt, base: nat, labels: seq<string>, sh: Shape, ta: Targets, tb: Targets,
                                     T: Tables, sc: Scope)
    requires s.While? && Fits(sh, ta) && Fits(sh, tb)
    ensures Same(GenWhile(s, base, labels, sh, ta, T, sc), GenWhile(s, base, labels, sh, tb, T, sc), base, sh, ta, tb)
    decreases s, 0
  {
    hide Same, GenStmt, GenExpr;
    var inner := PushLoop(sh, labels, true);
    var t := GenExpr(s.test, base, T, sc);
    var pb := base + |t.code| + 1;
    var end := pb + LenStmt(s.loopBody, [], inner, sc) + 1;
    var ia, ib := PushLoopTarget(ta, end, base), PushLoopTarget(tb, end, base);
    var a := GenStmt(s.loopBody, pb, [], inner, ia, t.tabs, sc);
    var b := GenStmt(s.loopBody, pb, [], inner, ib, t.tabs, sc);
    StmtSame(s.loopBody, pb, [], inner, ia, ib, t.tabs, sc);
    SameLoop(a, b, pb, sh, labels, true, end, base, ta, tb);
    SameSize(a, b, pb, inner, ia, ib);
    var n := |sh.loops|;
    SameAround(t.code + [Instr(JumpIfFalse, end)], a.(holes := DropLoop(a.holes, n)), b.(holes := DropLoop(b.holes, n)),
               [Instr(Jump, base)], a.tabs, base, sh, ta, tb);
  }

  /** A fragment between pieces of code without open jumps. */
  lemma SameAround(first: seq<Instr>, a: Gen, b: Gen, last: seq<Instr>, T: Tables, base: nat, sh: Shape, ta: Targets,
                   tb: Targets)
    requires Same(a, b, base + |first|, sh, ta, tb)
    ensures Same(a.(code := first + a.code + last, tabs := T), b.(code := first + b.code + last, tabs := T), base, sh,
                 ta, tb)
  {
    hide Same;
    SameAfter(first, T, a, b, base, sh, ta, tb);
    SameBefore(a.(code := first + a.code), b.(code := first + b.code), last, T, base, sh, ta, tb);
  }

  lemma {:induction false} DoSame(s: Stmt, base: nat, labels: seq<string>, sh: Shape, ta: Targets, tb: Targets,
                                  T: Tables, sc: Scope)
    requires s.DoWhile? && Fits(sh, ta) && Fits(sh, tb)
    ensures Same(GenDo(s, base, labels, sh, ta, T, sc), GenDo(s, base, labels, sh, tb, T, sc), base, sh, ta, tb)
    decreases s, 0
  {
    hide Same, GenStmt, GenExpr;
    var inner := PushLoop(sh, labels, true);
    var pt := base + LenStmt(s.loopBody, [], inner, sc);
    var end := pt + LenExpr(s.test, sc) + 1;
    var ia, ib := PushLoopTarget(ta, end, pt), PushLoopTarget(tb, end, pt);
    var a := GenStmt(s.loopBody, base, [], inner, ia, T, sc);
    var b := GenStmt(s.loopBody, base, [], inner, ib, T, sc);
    StmtSame(s.loopBody, base, [], inner, ia, ib, T, sc);
    SameLoop(a, b, base, sh, labels, true, end, pt, ta, tb);
    SameSize(a, b, base, inner, ia, ib);
    var t := GenExpr(s.test, pt, a.tabs, sc);
    var n := |sh.loops|;
    var last := t.code + [Instr(JumpIfTrue, base)];
    SameBefore(a.(holes := DropLoop(a.holes, n)), b.(holes := DropLoop(b.holes, n)), last, t.tabs, base, sh, ta, tb);
    assert a.code + last == a.code + t.code + [Instr(JumpIfTrue, base)];
    assert b.code + last == b.code + t.code + [Instr(JumpIfTrue, base)];
  }

  lemma {:induction false} ForSame(s: Stmt, base: nat, labels: seq<string>, sh: Shape, ta: Targets, tb: Targets,
                                   T: Tables, sc: Scope)
    requires s.For? && Fits(sh, ta) && Fits(sh, tb)
    ensures Same(GenFor(s, base, labels, sh, ta, T, sc), GenFor(s, base, labels, sh, tb, T, sc), base, sh, ta, tb)
    decreases s, 1
  {
    hide Same, GenForLoop, GenClause;
    var i := GenClause(s.init, base, T, sc);
    var first := i.code + PopIf(s.init);
    var start := base + |first|;
    ForLoopSame(s, start, labels, sh, ta, tb, i.tabs, sc);
    SameAfter(first, T, GenForLoop(s, start, labels, sh, ta, i.tabs, sc),
              GenForLoop(s, start, labels, sh, tb, i.tabs, sc),
              base, sh, ta, tb);
  }

  lemma {:induction false} ForLoopSame(s: Stmt, start: nat, labels: seq<string>, sh: Shape, ta: Targets, tb: Targets,
                                       T: Tables, sc: Scope)
    requires s.For? && Fits(sh, ta) && Fits(sh, tb)
    ensures Same(GenForLoop(s, start, labels, sh, ta, T, sc), GenForLoop(s, start, labels, sh, tb, T, sc), start, sh,
                 ta, tb)
    decreases s, 0
  {
    hide Same, GenStmt, GenClause;
    var inner := PushLoop(sh, labels, true);
    var c := GenClause(s.cond, start, T, sc);
    var pb := start + |c.code| + |ExitIf(s.cond, 0)|;
    var pu := pb + LenStmt(s.loopBody, [], inner, sc);
    var end := pu + LenOptional(s.update, sc) + 1;
    var ia, ib := PushLoopTarget(ta, end, pu), PushLoopTarget(tb, end, pu);
    var a := GenStmt(s.loopBody, pb, [], inner, ia, c.tabs, sc);
    var b := GenStmt(s.loopBody, pb, [], inner, ib, c.tabs, sc);
    StmtSame(s.loopBody, pb, [], inner, ia, ib, c.tabs, sc);
    SameLoop(a, b, pb, sh, labels, true, end, pu, ta, tb);
    SameSize(a, b, pb, inner, ia, ib);
    var u := GenClause(s.update, pu, a.tabs, sc);
    var n := |sh.loops|;
    var first := c.code + ExitIf(s.cond, end);
    var mid := u.code + PopIf(s.update);
    SameAround(first, a.(holes := DropLoop(a.holes, n)), b.(holes := DropLoop(b.holes, n)), mid + [Instr(Jump, start)],
               u.tabs, start, sh, ta, tb);
    assert first + a.code + (mid + [Instr(Jump, start)]) == first + a.code + mid + [Instr(Jump, start)];
    assert first + b.code + (mid + [Instr(Jump, start)]) == first + b.code + mid + [Instr(Jump, start)];
  }

  lemma {:induction false} BlockSame(body: Stmt, base: nat, all: seq<string>, sh: Shape, ta: Targets, tb: Targets,
                                     T: Tables, sc: Scope)
    requires Fits(sh, ta) && Fits(sh, tb)
    ensures Same(GenLabeledBlock(body, base, all, sh, ta, T, sc), GenLabeledBlock(body, base, all, sh, tb, T, sc),
                 base, sh, ta, tb)
    decreases body, 3
  {
    hide Same, GenStmt;
    var inner := PushBlock(sh, all);
    var end := base + LenStmt(body, [], inner, sc);
    StmtSame(body, base, [], inner, PushExit(ta, end), PushExit(tb, end), T, sc);
    SameBlock(GenStmt(body, base, [], inner, PushExit(ta, end), T, sc),
              GenStmt(body, base, [], inner, PushExit(tb, end), T, sc),
              base, sh, all, end, ta, tb);
  }

  lemma {:induction false} SwitchSame(s: Stmt, base: nat, sh: Shape, ta: Targets, tb: Targets, T: Tables, sc: Scope)
    requires s.Switch? && Fits(sh, ta) && Fits(sh, tb)
    ensures Same(GenSwitch(s, base, sh, ta, T, sc), GenSwitch(s, base, sh, tb, T, sc), base, sh, ta, tb)
    decreases s, 0
  {
    hide Same, GenBodies, GenTests, GenExpr;
    var inner := PushLoop(sh, [], false);
    var d := GenExpr(s.disc, base, T, sc);
    var tmp := InternLocal(SwitchDisc, d.tabs);
    var pt := base + |d.code| + 1;
    var pb := pt + LenTests(s.cases, sc) + 1;
    var end := pb + LenBodies(s.cases, inner, sc);
    var c := GenTests(s.cases, pt, tmp.index, pb, inner, tmp.tabs, sc);
    TestsLength(s.cases, pt, tmp.index, pb, inner, tmp.tabs, sc);
    var ia, ib := PushLoopTarget(ta, end, end), PushLoopTarget(tb, end, end);
    var a := GenBodies(s.cases, pb, inner, ia, c.tabs, sc);
    var b := GenBodies(s.cases, pb, inner, ib, c.tabs, sc);
    BodiesSame(s.cases, pb, inner, ia, ib, c.tabs, sc);
    SameLoop(a, b, pb, sh, [], false, end, end, ta, tb);
    SameSize(a, b, pb, inner, ia, ib);
    var n := |sh.loops|;
    var exit := [Instr(Jump, DefaultStart(s.cases, pb, end, inner, sc))];
    var first := d.code + [Instr(StaLocal, tmp.index)] + c.code + exit;
    SameAfter(first, T, a.(holes := DropLoop(a.holes, n)), b.(holes := DropLoop(b.holes, n)), base, sh, ta, tb);
  }

  lemma {:induction false} TestsLength(cases: CaseList, pc: nat, tmp: nat, bodyPc: nat, sh: Shape, T: Tables, sc: Scope)
    ensures |GenTests(cases, pc, tmp, bodyPc, sh, T, sc).code| == LenTests(cases, sc)
  {
    hide GenExpr, LenExpr, LenList;
    match cases
    case CNil =>
    case CCons(c, tail) =>
      var next := bodyPc + LenList(c.body, sh, sc);
      match c.test
      case None => TestsLength(tail, pc, tmp, next, sh, T, sc);
      case Some(e) =>
        var t := GenExpr(e, pc + 1, T, sc);
        ExprLength(e, pc + 1, T, sc);
        TestsLength(tail, pc + 1 + |t.code| + 2, tmp, next, sh, t.tabs, sc);
  }

  lemma {:induction false} BodiesSame(cases: CaseList, base: nat, sh: Shape, ta: Targets, tb: Targets, T: Tables,
                                      sc: Scope)
    requires Fits(sh, ta) && Fits(sh, tb)
    ensures Same(GenBodies(cases, base, sh, ta, T, sc), GenBodies(cases, base, sh, tb, T, sc), base, sh, ta, tb)
    decreases cases, 0
  {
    hide Same, GenList;
    match cases
    case CNil => SameFixed([], T, base, sh, ta, tb);
    case CCons(c, tail) =>
      var a := GenList(c.body, base, sh, ta, T, sc);
      var b := GenList(c.body, base, sh, tb, T, sc);
      ListSame(c.body, base, sh, ta, tb, T, sc);
      SameSize(a, b, base, sh, ta, tb);
      BodiesSame(tail, base + |a.code|, sh, ta, tb, a.tabs, sc);
      SameCat(a, b, GenBodies(tail, base + |a.code|, sh, ta, a.tabs, sc),
              GenBodies(tail, base + |a.code|, sh, tb, a.tabs, sc), base, sh, ta, tb);
  }
}
