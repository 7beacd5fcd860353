/** Entering a loop or a labelled block adds one jump target and leaves every
    other resolution as it was. */
module JumpTargets {
  import opened Syntax
  import opened Machine
  import opened Semantics
  import opened CodeGen
  import opened StmtGen

  lemma {:induction false} LastLabelledBound(loops: seq<LoopShape>, l: string)
    ensures match LastLabelled(loops, l)
            case Some(i) => i < |loops| && l in loops[i].labels
            case None => forall k :: 0 <= k < |loops| ==> l !in loops[k].labels
  {
    if loops != [] && l !in loops[|loops| - 1].labels {
      LastLabelledBound(loops[..|loops| - 1], l);
    }
  }

  lemma {:induction false} LastBlockBound(blocks: seq<seq<string>>, l: string)
    ensures match LastBlock(blocks, l)
            case Some(i) => i < |blocks| && l in blocks[i]
            case None => forall k :: 0 <= k < |blocks| ==> l !in blocks[k]
  {
    if blocks != [] && l !in blocks[|blocks| - 1] {
      LastBlockBound(blocks[..|blocks| - 1], l);
    }
  }

  lemma {:induction false} LastIterationBound(loops: seq<LoopShape>, l: Option<string>)
    ensures match LastIteration(loops, l)
            case Some(i) => i < |loops| && loops[i].iteration && (l.None? || l.value in loops[i].labels)
            case None =>
              forall k :: 0 <= k < |loops| ==> !(loops[k].iteration && (l.None? || l.value in loops[k].labels))
  {
    if loops != [] && !(loops[|loops| - 1].iteration && (l.None? || l.value in loops[|loops| - 1].labels)) {
      LastIterationBound(loops[..|loops| - 1], l);
    }
  }

  /** The slot found, with its address. */
  function BreakAddr(sh: Shape, tg: Targets, l: Option<string>): Option<nat> {
    match FindBreak(sh, l)
    case Some(slot) => Some(Addr(tg, slot))
    case None => None
  }

  function ContinueAddr(sh: Shape, tg: Targets, l: Option<string>): Option<nat> {
    match FindContinue(sh, l)
    case Some(slot) => Some(Addr(tg, slot))
    case None => None
  }

  /** Inside a loop or switch an unlabelled break and a break to one of its own
      labels leave for `brk`; other breaks go where they went outside. */
  lemma LoopBreaks(sh: Shape, tg: Targets, labels: seq<string>, it: bool, brk: nat, cont: nat, l: Option<string>)
    requires Fits(sh, tg)
    ensures BreakAddr(PushLoop(sh, labels, it), PushLoopTarget(tg, brk, cont), l)
            == if l.None? || l.value in labels then Some(brk) else BreakAddr(sh, tg, l)
  {
    var inner := PushLoop(sh, labels, it);
    assert inner.loops[..|sh.loops|] == sh.loops;
    if l.Some? {
      LastLabelledBound(sh.loops, l.value);
      LastBlockBound(sh.blocks, l.value);
    }
  }

  /** A continue is for the innermost iteration statement, switches aside. */
  lemma LoopContinuesAt(sh: Shape, tg: Targets, labels: seq<string>, it: bool, brk: nat, cont: nat, l: Option<string>)
    requires Fits(sh, tg)
    ensures ContinueAddr(PushLoop(sh, labels, it), PushLoopTarget(tg, brk, cont), l)
            == if it && (l.None? || l.value in labels) then Some(cont) else ContinueAddr(sh, tg, l)
  {
    var inner := PushLoop(sh, labels, it);
    assert inner.loops[..|sh.loops|] == sh.loops;
    LastIterationBound(sh.loops, l);
  }

  /** Inside a labelled block a break to one of its labels leaves it, provided
      no enclosing loop carries the same label. */
  lemma BlockBreaks(sh: Shape, tg: Targets, labels: seq<string>, exit: nat, l: Option<string>)
    requires Fits(sh, tg)
    requires l.Some? && l.value in labels ==> LastLabelled(sh.loops, l.value).None?
    ensures BreakAddr(PushBlock(sh, labels), PushExit(tg, exit), l)
            == if l.Some? && l.value in labels then Some(exit) else BreakAddr(sh, tg, l)
    ensures ContinueAddr(PushBlock(sh, labels), PushExit(tg, exit), l) == ContinueAddr(sh, tg, l)
  {
    var inner := PushBlock(sh, labels);
    assert inner.blocks[..|sh.blocks|] == sh.blocks;
    if l.Some? {
      LastLabelledBound(sh.loops, l.value);
      LastBlockBound(sh.blocks, l.value);
    }
  }

  // ----- statements whose jumps all have targets -----

  /** Every break and continue finds a target, and no labelled block reuses
      the label of an enclosing loop. */
  predicate JumpsOk(s: Stmt, labels: seq<string>, sh: Shape)
    decreases s, 1
  {
    match s
    case Block(body) => ListJumpsOk(body, sh)
    case If(_, c, alt) => JumpsOk(c, [], sh) && (alt.Some? ==> JumpsOk(alt.value, [], sh))
    case While(_, body) => JumpsOk(body, [], PushLoop(sh, labels, true))
    case DoWhile(body, _) => JumpsOk(body, [], PushLoop(sh, labels, true))
    case For(_, _, _, body) => JumpsOk(body, [], PushLoop(sh, labels, true))
    case Switch(_, cases) => CasesJumpsOk(cases, PushLoop(sh, [], false))
    case Break(l) => FindBreak(sh, l).Some?
    case Continue(l) => FindContinue(sh, l).Some?
    case Labeled(name, body) =>
      if PassesLabels(body) then JumpsOk(body, labels + [name], sh)
      else Unclaimed(labels + [name], sh) && JumpsOk(body, [], PushBlock(sh, labels + [name]))
    case _ => true
  }

  predicate ListJumpsOk(ss: StmtList, sh: Shape)
    decreases ss, 0
  {
    match ss
    case SNil => true
    case SCons(s, tail) => JumpsOk(s, [], sh) && ListJumpsOk(tail, sh)
  }

  predicate CasesJumpsOk(cases: CaseList, sh: Shape)
    decreases cases, 0
  {
    match cases
    case CNil => true
    case CCons(c, tail) => ListJumpsOk(c.body, sh) && CasesJumpsOk(tail, sh)
  }

  /** No enclosing loop carries one of these labels. */
  predicate Unclaimed(labels: seq<string>, sh: Shape) {
    forall l :: l in labels ==> LastLabelled(sh.loops, l).None?
  }
}
