/** What the one-pass emitter has written so far, as a value, and the effect of
    its patch loops on it. */
module Frames {
  import opened Syntax
  import opened Machine
  import opened Semantics
  import opened CodeGen
  import opened StmtGen
  import opened Patching

  /** A loop or switch under compilation with its open jumps. */
  datatype LoopFrame = LoopFrame(breaks: seq<nat>, continues: seq<nat>, labels: seq<string>, iteration: bool)

  datatype LabelFrame = LabelFrame(labels: seq<string>, breaks: seq<nat>)

  datatype Output = Output(code: seq<Instr>, loops: seq<LoopFrame>, labels: seq<LabelFrame>, errors: seq<JumpError>,
                           tabs: Tables)

  function ShapeOf(o: Output): Shape {
    Shape(seq(|o.loops|, i requires 0 <= i < |o.loops| => LoopShape(o.loops[i].labels, o.loops[i].iteration)),
          seq(|o.labels|, i requires 0 <= i < |o.labels| => o.labels[i].labels))
  }

  function Zeros(n: nat): seq<nat> {
    seq(n, i => 0)
  }

  /** The targets of an emitter that knows none of them yet. */
  function Unknown(sh: Shape): Targets {
    Targets(Zeros(|sh.loops|), Zeros(|sh.loops|), Zeros(|sh.blocks|))
  }

  function Ats(holes: seq<Hole>, slot: Slot): seq<nat> {
    if holes == [] then []
    else (if holes[0].slot == slot then [holes[0].at] else []) + Ats(holes[1..], slot)
  }

  function AddLoops(loops: seq<LoopFrame>, holes: seq<Hole>): seq<LoopFrame> {
    seq(|loops|, i requires 0 <= i < |loops| =>
      loops[i].(breaks := loops[i].breaks + Ats(holes, BreakLoop(i)),
                continues := loops[i].continues + Ats(holes, ContinueLoop(i))))
  }

  function AddLabels(labels: seq<LabelFrame>, holes: seq<Hole>): seq<LabelFrame> {
    seq(|labels|, i requires 0 <= i < |labels| =>
      labels[i].(breaks := labels[i].breaks + Ats(holes, ExitBlock(i))))
  }

  /** The output after a fragment: its code and tables, and every open jump
      in the list of the frame it leaves. */
  function Append(o: Output, g: Gen): Output {
    Output(o.code + g.code, AddLoops(o.loops, g.holes), AddLabels(o.labels, g.holes), o.errors + g.errs, g.tabs)
  }

  function AppendCode(o: Output, c: Code): Output {
    o.(code := o.code + c.code, tabs := c.tabs)
  }

  function StmtAt(s: Stmt, labels: seq<string>, o: Output, sc: Scope): Gen {
    GenStmt(s, |o.code|, labels, ShapeOf(o), Unknown(ShapeOf(o)), o.tabs, sc)
  }

  function ListAt(ss: StmtList, o: Output, sc: Scope): Gen {
    GenList(ss, |o.code|, ShapeOf(o), Unknown(ShapeOf(o)), o.tabs, sc)
  }

  function BodiesAt(cases: CaseList, o: Output, sc: Scope): Gen {
    GenBodies(cases, |o.code|, ShapeOf(o), Unknown(ShapeOf(o)), o.tabs, sc)
  }

  /** Nothing is emitted for no cases. */
  lemma BodiesEnd(o: Output, sc: Scope)
    ensures BodiesAt(CNil, o, sc) == Fixed([], o.tabs)
  {
  }

  // ----- appending -----

  lemma {:induction false} AtsCat(a: seq<Hole>, b: seq<Hole>, slot: Slot)
    ensures Ats(a + b, slot) == Ats(a, slot) + Ats(b, slot)
  {
    if a == [] {
      assert a + b == b;
    } else {
      assert (a + b)[1..] == a[1..] + b && (a + b)[0] == a[0];
      AtsCat(a[1..], b, slot);
      var first := if a[0].slot == slot then [a[0].at] else [];
      assert Ats(a, slot) == first + Ats(a[1..], slot) && Ats(a + b, slot) == first + Ats((a + b)[1..], slot);
      assert first + Ats(a[1..], slot) + Ats(b, slot) == first + (Ats(a[1..], slot) + Ats(b, slot));
    }
  }

  lemma AddTwice(o: Output, a: seq<Hole>, b: seq<Hole>)
    ensures AddLoops(AddLoops(o.loops, a), b) == AddLoops(o.loops, a + b)
    ensures AddLabels(AddLabels(o.labels, a), b) == AddLabels(o.labels, a + b)
  {
    hide Ats;
    forall i: nat ensures Ats(a + b, BreakLoop(i)) == Ats(a, BreakLoop(i)) + Ats(b, BreakLoop(i)) {
      AtsCat(a, b, BreakLoop(i));
    }
    forall i: nat ensures Ats(a + b, ContinueLoop(i)) == Ats(a, ContinueLoop(i)) + Ats(b, ContinueLoop(i)) {
      AtsCat(a, b, ContinueLoop(i));
    }
    forall i: nat ensures Ats(a + b, ExitBlock(i)) == Ats(a, ExitBlock(i)) + Ats(b, ExitBlock(i)) {
      AtsCat(a, b, ExitBlock(i));
    }
    var twice, once := AddLoops(AddLoops(o.loops, a), b), AddLoops(o.loops, a + b);
    forall i | 0 <= i < |o.loops| ensures twice[i] == once[i] {
      assert twice[i].breaks == o.loops[i].breaks + Ats(a, BreakLoop(i)) + Ats(b, BreakLoop(i)) == once[i].breaks;
      assert twice[i].continues == o.loops[i].continues + Ats(a, ContinueLoop(i)) + Ats(b, ContinueLoop(i))
          == once[i].continues;
    }
    var two, one := AddLabels(AddLabels(o.labels, a), b), AddLabels(o.labels, a + b);
    forall i | 0 <= i < |o.labels| ensures two[i] == one[i] {
      assert two[i].breaks == o.labels[i].breaks + Ats(a, ExitBlock(i)) + Ats(b, ExitBlock(i)) == one[i].breaks;
    }
  }

  lemma AppendTwice(o: Output, a: Gen, b: Gen)
    ensures Append(Append(o, a), b) == Append(o, Cat(a, b))
  {
    hide AddLoops, AddLabels;
    AddTwice(o, a.holes, b.holes);
  }

  lemma AppendShape(o: Output, g: Gen)
    ensures ShapeOf(Append(o, g)) == ShapeOf(o)
    ensures |Append(o, g).loops| == |o.loops| && |Append(o, g).labels| == |o.labels|
  {
  }

  lemma AppendPlain(o: Output, code: seq<Instr>, T: Tables)
    ensures Append(o, Fixed(code, T)) == o.(code := o.code + code, tabs := T)
  {
    var loops, labels := AddLoops(o.loops, []), AddLabels(o.labels, []);
    forall i | 0 <= i < |o.loops| ensures loops[i] == o.loops[i] {
    }
    forall i | 0 <= i < |o.labels| ensures labels[i] == o.labels[i] {
    }
    assert loops == o.loops && labels == o.labels;
  }

  lemma ShapeCode(o: Output, code: seq<Instr>, T: Tables)
    ensures ShapeOf(o.(code := code, tabs := T)) == ShapeOf(o)
  {
  }

  // ----- patching -----

  function PatchAll(code: seq<Instr>, ats: seq<nat>, target: nat): seq<Instr>
    requires forall at :: at in ats ==> at < |code|
    decreases |ats|
  {
    if ats == [] then code
    else
      assert ats[0] in ats;
      assert forall at :: at in ats[1..] ==> at in ats;
      PatchAll(code[ats[0] := Instr(code[ats[0]].op, target)], ats[1..], target)
  }

  lemma {:induction false} PatchAllAt(code: seq<Instr>, ats: seq<nat>, target: nat)
    requires forall at :: at in ats ==> at < |code|
    ensures |PatchAll(code, ats, target)| == |code|
    ensures forall k: nat :: k < |code| ==>
              PatchAll(code, ats, target)[k] == if k in ats then Instr(code[k].op, target) else code[k]
    decreases |ats|
  {
    if ats != [] {
      assert ats[0] in ats;
      assert forall at :: at in ats[1..] ==> at in ats;
      PatchAllAt(code[ats[0] := Instr(code[ats[0]].op, target)], ats[1..], target);
      assert ats == [ats[0]] + ats[1..];
    }
  }

  lemma {:induction false} AtsIn(holes: seq<Hole>, slot: Slot)
    ensures forall at: nat :: at in Ats(holes, slot) <==> Hole(slot, at) in holes
  {
    if holes != [] {
      AtsIn(holes[1..], slot);
      assert holes == [holes[0]] + holes[1..];
    }
  }

  lemma OrderedUnique(holes: seq<Hole>, g: Hole, h: Hole)
    requires Ordered(holes) && g in holes && h in holes && g.at == h.at
    ensures g == h
  {
  }

  /** Closing a loop: `z` was generated without its targets, `p` with them. */
  lemma CloseLoop(first: seq<Instr>, z: Gen, p: Gen, last: seq<Instr>, sh: Shape, labels: seq<string>, it: bool,
                  tg: Targets, brk: nat, cont: nat)
    requires Fits(sh, tg)
    requires Same(z, p, |first|, PushLoop(sh, labels, it), PushLoopTarget(tg, 0, 0), PushLoopTarget(tg, brk, cont))
    ensures var n := |sh.loops|;
            var code := first + z.code + last;
            var bs, cs := Ats(z.holes, BreakLoop(n)), Ats(z.holes, ContinueLoop(n));
            && (forall at :: at in bs || at in cs ==> at < |code|)
            && |PatchAll(code, bs, brk)| == |code|
            && PatchAll(PatchAll(code, bs, brk), cs, cont) == first + p.code + last
  {
    var n := |sh.loops|;
    var code := first + z.code + last;
    var bs, cs := Ats(z.holes, BreakLoop(n)), Ats(z.holes, ContinueLoop(n));
    AtsIn(z.holes, BreakLoop(n));
    AtsIn(z.holes, ContinueLoop(n));
    HolesBelow(z, p, first, last, bs, cs, n, PushLoop(sh, labels, it), PushLoopTarget(tg, 0, 0),
               PushLoopTarget(tg, brk, cont));
    PatchAllAt(code, bs, brk);
    var mid := PatchAll(code, bs, brk);
    PatchAllAt(mid, cs, cont);
    var done, want := PatchAll(mid, cs, cont), first + p.code + last;
    SameSize(z, p, |first|, PushLoop(sh, labels, it), PushLoopTarget(tg, 0, 0), PushLoopTarget(tg, brk, cont));
    forall k: nat | k < |code| ensures done[k] == want[k] {
      assert done[k] == if k in cs then Instr(mid[k].op, cont) else mid[k];
      assert mid[k] == if k in bs then Instr(code[k].op, brk) else code[k];
      ClosedAt(first, z, p, last, sh, labels, it, tg, brk, cont, k);
    }
  }

  lemma HolesBelow(z: Gen, p: Gen, first: seq<Instr>, last: seq<Instr>, bs: seq<nat>, cs: seq<nat>, n: nat, sh: Shape,
                   ta: Targets, tb: Targets)
    requires Same(z, p, |first|, sh, ta, tb)
    requires forall at: nat :: at in bs <==> Hole(BreakLoop(n), at) in z.holes
    requires forall at: nat :: at in cs <==> Hole(ContinueLoop(n), at) in z.holes
    ensures forall at :: at in bs || at in cs ==> |first| <= at < |first + z.code|
  {
    forall at | at in bs ensures |first| <= at < |first + z.code| {
      assert Hole(BreakLoop(n), at) in z.holes;
    }
    forall at | at in cs ensures |first| <= at < |first + z.code| {
      assert Hole(ContinueLoop(n), at) in z.holes;
    }
  }

  /** One address after the patches of a closed loop. */
  lemma ClosedAt(first: seq<Instr>, z: Gen, p: Gen, last: seq<Instr>, sh: Shape, labels: seq<string>, it: bool,
                 tg: Targets, brk: nat, cont: nat, k: nat)
    requires Fits(sh, tg)
    requires Same(z, p, |first|, PushLoop(sh, labels, it), PushLoopTarget(tg, 0, 0), PushLoopTarget(tg, brk, cont))
    requires k < |first + z.code + last|
    ensures var n := |sh.loops|;
            var was, want := (first + z.code + last)[k], (first + p.code + last)[k];
            && (Hole(ContinueLoop(n), k) in z.holes ==> want == Instr(was.op, cont))
            && (Hole(BreakLoop(n), k) in z.holes ==> want == Instr(was.op, brk))
            && (Hole(ContinueLoop(n), k) !in z.holes && Hole(BreakLoop(n), k) !in z.holes ==> want == was)
            && !(Hole(ContinueLoop(n), k) in z.holes && Hole(BreakLoop(n), k) in z.holes)
  {
    hide Ordered;
    var n := |sh.loops|;
    var inner := PushLoop(sh, labels, it);
    var tz, tp := PushLoopTarget(tg, 0, 0), PushLoopTarget(tg, brk, cont);
    if Hole(ContinueLoop(n), k) in z.holes && Hole(BreakLoop(n), k) in z.holes {
      OrderedUnique(z.holes, Hole(ContinueLoop(n), k), Hole(BreakLoop(n), k));
    }
    if |first| <= k < |first| + |z.code| {
      if Untouched(z.holes, k) {
        assert z.code[k - |first|] == p.code[k - |first|];
      } else {
        var h :| h in z.holes && h.at == k;
        assert z.code[k - |first|] == Instr(Jump, Addr(tz, h.slot));
        assert p.code[k - |first|] == Instr(Jump, Addr(tp, h.slot));
        assert h == Hole(h.slot, k);
      }
    }
  }

  lemma CloseBlock(first: seq<Instr>, z: Gen, p: Gen, sh: Shape, labels: seq<string>, tg: Targets, exit: nat)
    requires Fits(sh, tg)
    requires Same(z, p, |first|, PushBlock(sh, labels), PushExit(tg, 0), PushExit(tg, exit))
    ensures var n := |sh.blocks|;
            var code := first + z.code;
            var bs := Ats(z.holes, ExitBlock(n));
            (forall at :: at in bs ==> at < |code|) && PatchAll(code, bs, exit) == first + p.code
  {
    var n := |sh.blocks|;
    var code, want := first + z.code, first + p.code;
    var bs := Ats(z.holes, ExitBlock(n));
    var tz, tp := PushExit(tg, 0), PushExit(tg, exit);
    AtsIn(z.holes, ExitBlock(n));
    ExitsBelow(z, p, first, PushBlock(sh, labels), tz, tp, bs);
    PatchAllAt(code, bs, exit);
    SameSize(z, p, |first|, PushBlock(sh, labels), tz, tp);
    var done := PatchAll(code, bs, exit);
    forall k: nat | k < |code| ensures done[k] == want[k] {
      assert done[k] == if k in bs then Instr(code[k].op, exit) else code[k];
      ExitedAt(first, z, p, sh, labels, tg, exit, k);
    }
  }

  lemma ExitsBelow(z: Gen, p: Gen, first: seq<Instr>, sh: Shape, tz: Targets, tp: Targets, bs: seq<nat>)
    requires Same(z, p, |first|, sh, tz, tp) && |sh.blocks| > 0
    requires forall at :: at in bs ==> Hole(ExitBlock(|sh.blocks| - 1), at) in z.holes
    ensures forall at :: at in bs ==> |first| <= at < |first + z.code|
  {
    hide Ordered;
  }

  /** The instruction at `k` where the labelled block has been closed. */
  lemma ExitedAt(first: seq<Instr>, z: Gen, p: Gen, sh: Shape, labels: seq<string>, tg: Targets, exit: nat, k: nat)
    requires Fits(sh, tg)
    requires Same(z, p, |first|, PushBlock(sh, labels), PushExit(tg, 0), PushExit(tg, exit))
    requires k < |first + z.code|
    ensures var was, want := (first + z.code)[k], (first + p.code)[k];
            want == if Hole(ExitBlock(|sh.blocks|), k) in z.holes then Instr(was.op, exit) else was
  {
    hide Ordered;
    var n := |sh.blocks|;
    var tz, tp := PushExit(tg, 0), PushExit(tg, exit);
    if |first| <= k {
      if Untouched(z.holes, k) {
        assert z.code[k - |first|] == p.code[k - |first|];
      } else {
        var h :| h in z.holes && h.at == k;
        assert z.code[k - |first|] == Instr(Jump, Addr(tz, h.slot));
        assert p.code[k - |first|] == Instr(Jump, Addr(tp, h.slot));
        assert h == Hole(h.slot, k);
        if Hole(ExitBlock(n), k) in z.holes {
          OrderedUnique(z.holes, h, Hole(ExitBlock(n), k));
        }
      }
    }
  }
}
