/** The early errors about labels, `break` and `continue`, and what a body
    that has none of them may rely on when it is compiled. */
module EarlyErrors {
  import opened Syntax
  import opened CodeGen
  import opened Semantics
  import opened StmtGen
  import opened JumpTargets

  /** A label in scope, and whether it stands before a loop. */
  datatype ActiveLabel = ActiveLabel(name: string, iteration: bool)

  datatype Control = Control(labels: seq<ActiveLabel>, breakables: nat, iterations: nat)

  const NoControl := Control([], 0, 0)

  datatype EarlyError =
    | DuplicateLabel(name: string)
    | UndefinedBreakTarget(name: string)
    | StrayBreak
    | InvalidContinueTarget(name: string)
    | StrayContinue
    | ManyDefaults

  predicate TargetsIteration(s: Stmt) {
    match s
    case While(_, _) => true
    case DoWhile(_, _) => true
    case For(_, _, _, _) => true
    case Labeled(_, body) => TargetsIteration(body)
    case _ => false
  }

  predicate IsActive(labels: seq<ActiveLabel>, name: string) {
    exists i :: 0 <= i < |labels| && labels[i].name == name
  }

  predicate IsActiveLoop(labels: seq<ActiveLabel>, name: string) {
    exists i :: 0 <= i < |labels| && labels[i].name == name && labels[i].iteration
  }

  // ----- the errors of a statement, as a function -----

  function InLoop(c: Control): Control {
    c.(breakables := c.breakables + 1, iterations := c.iterations + 1)
  }

  function InSwitch(c: Control): Control {
    c.(breakables := c.breakables + 1)
  }

  function WithLabel(c: Control, name: string, body: Stmt): Control {
    c.(labels := c.labels + [ActiveLabel(name, TargetsIteration(body))])
  }

  function BreakErrors(l: Option<string>, c: Control): seq<EarlyError> {
    match l
    case Some(name) => if IsActive(c.labels, name) then [] else [UndefinedBreakTarget(name)]
    case None => if c.breakables == 0 then [StrayBreak] else []
  }

  function ContinueErrors(l: Option<string>, c: Control): seq<EarlyError> {
    match l
    case Some(name) => if IsActiveLoop(c.labels, name) then [] else [InvalidContinueTarget(name)]
    case None => if c.iterations == 0 then [StrayContinue] else []
  }

  function StmtErrors(s: Stmt, c: Control): seq<EarlyError>
    decreases s, 0
  {
    match s
    case Block(body) => ListErrors(body, c)
    case If(_, cons, alt) => StmtErrors(cons, c) + (if alt.Some? then StmtErrors(alt.value, c) else [])
    case While(_, body) => StmtErrors(body, InLoop(c))
    case DoWhile(body, _) => StmtErrors(body, InLoop(c))
    case For(_, _, _, body) => StmtErrors(body, InLoop(c))
    case Switch(_, cases) =>
      CasesErrors(cases, InSwitch(c)) + (if DefaultCount(cases) > 1 then [ManyDefaults] else [])
    case Break(l) => BreakErrors(l, c)
    case Continue(l) => ContinueErrors(l, c)
    case Labeled(name, body) =>
      (if IsActive(c.labels, name) then [DuplicateLabel(name)] else []) + StmtErrors(body, WithLabel(c, name, body))
    case _ => []
  }

  function ListErrors(ss: StmtList, c: Control): seq<EarlyError>
    decreases ss, 0
  {
    match ss
    case SNil => []
    case SCons(s, tail) => StmtErrors(s, c) + ListErrors(tail, c)
  }

  function CasesErrors(cases: CaseList, c: Control): seq<EarlyError>
    decreases cases, 0
  {
    match cases
    case CNil => []
    case CCons(k, tail) => ListErrors(k.body, c) + CasesErrors(tail, c)
  }

  function DefaultCount(cases: CaseList): nat {
    match cases
    case CNil => 0
    case CCons(k, tail) => (if k.test.None? then 1 else 0) + DefaultCount(tail)
  }

  // ----- the checker -----

  class Checker {
    var labels: seq<ActiveLabel>
    var breakableDepth: nat
    var iterationDepth: nat
    var errors: seq<EarlyError>

    constructor ()
      ensures errors == [] && Context() == NoControl
    {
      labels, breakableDepth, iterationDepth, errors := [], 0, 0, [];
    }

    function Context(): Control
      reads this
    {
      Control(labels, breakableDepth, iterationDepth)
    }

    method Report(es: seq<EarlyError>)
      modifies this`errors
      ensures errors == old(errors) + es
    {
      errors := errors + es;
    }

    method CheckStmt(s: Stmt)
      modifies this
      ensures Context() == old(Context()) && errors == old(errors) + StmtErrors(s, old(Context()))
      decreases s, 1
    {
      hide IsActive, TargetsIteration, ListErrors, CasesErrors, BreakErrors, ContinueErrors;
      match s
      case Block(body) => CheckList(body);
      case If(_, cons, alt) => CheckBranches(cons, alt, s);
      case While(_, body) => CheckLoopBody(body);
      case DoWhile(body, _) => CheckLoopBody(body);
      case For(_, _, _, body) => CheckLoopBody(body);
      case Switch(_, cases) => CheckSwitch(cases);
      case Break(l) => Report(BreakErrors(l, Context()));
      case Continue(l) => Report(ContinueErrors(l, Context()));
      case Labeled(name, body) => CheckLabeled(name, body);
      case _ =>
    }

    method CheckBranches(cons: Stmt, alt: Option<Stmt>, ghost owner: Stmt)
      requires cons < owner && (alt.Some? ==> alt.value < owner)
      modifies this
      ensures Context() == old(Context())
      ensures errors == old(errors) + (StmtErrors(cons, old(Context()))
                                       + (if alt.Some? then StmtErrors(alt.value, old(Context())) else []))
      decreases owner, 0
    {
      hide StmtErrors;
      CheckStmt(cons);
      if alt.Some? {
        CheckStmt(alt.value);
      }
    }

    method CheckLabeled(name: string, body: Stmt)
      modifies this
      ensures Context() == old(Context())
      ensures errors == old(errors) + StmtErrors(Labeled(name, body), old(Context()))
      decreases body, 2
    {
      hide IsActive, TargetsIteration;
      ghost var before := errors;
      if IsActive(labels, name) {
        Report([DuplicateLabel(name)]);
      }
      labels := labels + [ActiveLabel(name, TargetsIteration(body))];
      CheckStmt(body);
      labels := labels[..|labels| - 1];
      assert labels == old(labels);
    }

    method CheckLoopBody(body: Stmt)
      modifies this
      ensures Context() == old(Context()) && errors == old(errors) + StmtErrors(body, InLoop(old(Context())))
      decreases body, 2
    {
      breakableDepth := breakableDepth + 1;
      iterationDepth := iterationDepth + 1;
      CheckStmt(body);
      iterationDepth := iterationDepth - 1;
      breakableDepth := breakableDepth - 1;
    }

    method CheckList(ss: StmtList)
      modifies this
      ensures Context() == old(Context()) && errors == old(errors) + ListErrors(ss, old(Context()))
      decreases ss, 0
    {
      hide StmtErrors;
      var rest := ss;
      while rest.SCons?
        invariant (rest == ss || rest < ss) && Context() == old(Context())
        invariant errors + ListErrors(rest, Context()) == old(errors) + ListErrors(ss, Context())
        decreases rest
      {
        ghost var before, later := errors, ListErrors(rest.tail, Context());
        ghost var first := StmtErrors(rest.head, Context());
        CheckStmt(rest.head);
        assert before + (first + later) == before + first + later;
        rest := rest.tail;
      }
    }

    method CheckSwitch(cases: CaseList)
      modifies this
      ensures Context() == old(Context())
      ensures errors == old(errors) + (CasesErrors(cases, InSwitch(old(Context())))
                                       + (if DefaultCount(cases) > 1 then [ManyDefaults] else []))
      decreases cases, 0
    {
      breakableDepth := breakableDepth + 1;
      var rest, defaults := cases, 0;
      while rest.CCons?
        invariant (rest == cases || rest < cases) && Context() == InSwitch(old(Context()))
        invariant errors + CasesErrors(rest, Context()) == old(errors) + CasesErrors(cases, Context())
        invariant defaults + DefaultCount(rest) == DefaultCount(cases)
        decreases rest
      {
        if rest.head.test.None? {
          defaults := defaults + 1;
        }
        CheckList(rest.head.body);
        rest := rest.tail;
      }
      breakableDepth := breakableDepth - 1;
      ghost var es := CasesErrors(cases, InSwitch(old(Context())));
      assert errors == old(errors) + es;
      if defaults > 1 {
        Report([ManyDefaults]);
        assert errors == old(errors) + (es + [ManyDefaults]);
      } else {
        assert es == es + [];
      }
    }

    method TakeControlContext() returns (saved: Control)
      modifies this`labels, this`breakableDepth, this`iterationDepth
      ensures saved == old(Context()) && Context() == NoControl
    {
      saved := Context();
      labels, breakableDepth, iterationDepth := [], 0, 0;
    }

    method RestoreControlContext(saved: Control)
      modifies this`labels, this`breakableDepth, this`iterationDepth
      ensures Context() == saved
    {
      labels, breakableDepth, iterationDepth := saved.labels, saved.breakables, saved.iterations;
    }

    /** Labels and loops do not reach into a nested function. */
    method CheckFunctionBody(body: StmtList)
      modifies this
      ensures Context() == old(Context()) && errors == old(errors) + ListErrors(body, NoControl)
    {
      var saved := TakeControlContext();
      CheckList(body);
      RestoreControlContext(saved);
    }
  }

  // ----- what accepted bodies may rely on -----

  /** A label in scope is carried by a frame of the emitter. */
  predicate Attached(a: ActiveLabel, sh: Shape) {
    if a.iteration then LastIteration(sh.loops, Some(a.name)).Some? else LastBlock(sh.blocks, a.name).Some?
  }

  /** The checker's context describes the emitter's frames around `s`, which
      still has to be given the labels `pending`. */
  ghost predicate Covers(c: Control, sh: Shape, pending: seq<string>, s: Stmt) {
    && c.breakables == |sh.loops|
    && (c.iterations > 0 <==> LastIteration(sh.loops, None).Some?)
    && (forall i :: 0 <= i < |c.labels| ==>
          (c.labels[i].name in pending && c.labels[i].iteration == TargetsIteration(s)) || Attached(c.labels[i], sh))
    && (forall n :: LastLabelled(sh.loops, n).Some? || LastBlock(sh.blocks, n).Some? ==> IsActive(c.labels, n))
    && (forall n :: LastIteration(sh.loops, Some(n)).Some? ==> IsActiveLoop(c.labels, n))
    && (forall n :: n in pending ==> IsActive(c.labels, n) && LastLabelled(sh.loops, n).None?)
    && (forall n :: n in pending && TargetsIteration(s) ==> IsActiveLoop(c.labels, n))
  }

  lemma LoopFound(sh: Shape, labels: seq<string>, it: bool)
    ensures var inner := PushLoop(sh, labels, it);
            && (forall n :: LastLabelled(inner.loops, n).Some? <==> n in labels || LastLabelled(sh.loops, n).Some?)
            && (forall l :: LastIteration(inner.loops, l).Some?
                            <==> (it && (l.None? || l.value in labels)) || LastIteration(sh.loops, l).Some?)
  {
    var inner := PushLoop(sh, labels, it);
    assert inner.loops[..|sh.loops|] == sh.loops;
  }

  lemma BlockFound(sh: Shape, labels: seq<string>)
    ensures var inner := PushBlock(sh, labels);
            forall n :: LastBlock(inner.blocks, n).Some? <==> n in labels || LastBlock(sh.blocks, n).Some?
  {
    var inner := PushBlock(sh, labels);
    assert inner.blocks[..|sh.blocks|] == sh.blocks;
  }

  lemma IntoLoop(c: Control, sh: Shape, pending: seq<string>, s: Stmt, body: Stmt)
    requires IsIteration(s) && Covers(c, sh, pending, s)
    ensures Covers(InLoop(c), PushLoop(sh, pending, true), [], body)
  {
    hide LastIteration, LastLabelled, LastBlock;
    LoopFound(sh, pending, true);
  }

  lemma IntoSwitch(c: Control, sh: Shape, s: Stmt)
    requires s.Switch? && Covers(c, sh, [], s)
    ensures forall body :: Covers(InSwitch(c), PushLoop(sh, [], false), [], body)
  {
    hide LastIteration, LastLabelled, LastBlock;
    LoopFound(sh, [], false);
  }

  lemma IntoLabel(c: Control, sh: Shape, pending: seq<string>, name: string, body: Stmt)
    requires Covers(c, sh, pending, Labeled(name, body)) && !IsActive(c.labels, name)
    ensures Covers(WithLabel(c, name, body), sh, pending + [name], body)
    ensures Unclaimed(pending + [name], sh)
  {
    hide LastIteration, LastLabelled, LastBlock;
    var d := WithLabel(c, name, body);
    forall n | IsActive(c.labels, n) ensures IsActive(d.labels, n) {
      var i :| 0 <= i < |c.labels| && c.labels[i].name == n;
      assert d.labels[i].name == n;
    }
    forall n | IsActiveLoop(c.labels, n) ensures IsActiveLoop(d.labels, n) {
      var i :| 0 <= i < |c.labels| && c.labels[i].name == n && c.labels[i].iteration;
      assert d.labels[i].name == n;
    }
    assert d.labels[|c.labels|] == ActiveLabel(name, TargetsIteration(body));
  }

  lemma IntoBlock(c: Control, sh: Shape, pending: seq<string>, s: Stmt)
    requires Covers(c, sh, pending, s) && !TargetsIteration(s)
    ensures Covers(c, PushBlock(sh, pending), [], s)
  {
    hide LastIteration, LastLabelled, LastBlock;
    BlockFound(sh, pending);
  }

  lemma JumpFound(c: Control, sh: Shape, s: Stmt, l: Option<string>)
    requires Covers(c, sh, [], s)
    ensures BreakErrors(l, c) == [] <==> FindBreak(sh, l).Some?
    ensures ContinueErrors(l, c) == [] <==> FindContinue(sh, l).Some?
  {
    hide LastIteration, LastLabelled, LastBlock;
    if l.Some? && IsActive(c.labels, l.value) {
      var i :| 0 <= i < |c.labels| && c.labels[i].name == l.value;
      LastIterationBound(sh.loops, l);
      LastLabelledBound(sh.loops, l.value);
    }
    if l.Some? && IsActiveLoop(c.labels, l.value) {
      var i :| 0 <= i < |c.labels| && c.labels[i].name == l.value && c.labels[i].iteration;
    }
  }

  // ----- accepted bodies, exactly -----

  /** No label stands inside itself, and no switch has two defaults. */
  predicate Tidy(s: Stmt, labels: seq<ActiveLabel>)
    decreases s, 0
  {
    match s
    case Block(body) => TidyList(body, labels)
    case If(_, cons, alt) => Tidy(cons, labels) && (alt.Some? ==> Tidy(alt.value, labels))
    case While(_, body) => Tidy(body, labels)
    case DoWhile(body, _) => Tidy(body, labels)
    case For(_, _, _, body) => Tidy(body, labels)
    case Switch(_, cases) => TidyCases(cases, labels) && DefaultCount(cases) <= 1
    case Labeled(name, body) =>
      !IsActive(labels, name) && Tidy(body, labels + [ActiveLabel(name, TargetsIteration(body))])
    case _ => true
  }

  predicate TidyList(ss: StmtList, labels: seq<ActiveLabel>)
    decreases ss, 0
  {
    ss.SCons? ==> Tidy(ss.head, labels) && TidyList(ss.tail, labels)
  }

  predicate TidyCases(cases: CaseList, labels: seq<ActiveLabel>)
    decreases cases, 0
  {
    cases.CCons? ==> TidyList(cases.head.body, labels) && TidyCases(cases.tail, labels)
  }

  /** A tidy statement has no early error exactly when the emitter finds a
      frame for every jump. */
  lemma {:induction false} StmtAccepted(s: Stmt, c: Control, pending: seq<string>, sh: Shape)
    requires Covers(c, sh, pending, s) && (pending != [] ==> PassesLabels(s))
    ensures StmtErrors(s, c) == [] <==> Tidy(s, c.labels) && JumpsOk(s, pending, sh)
    decreases s, 1
  {
    hide Covers;
    match s
    case Block(body) => ListAccepted(body, c, sh, s);
    case If(_, cons, alt) =>
      SameCover(c, sh, s, cons);
      StmtAccepted(cons, c, [], sh);
      if alt.Some? {
        SameCover(c, sh, s, alt.value);
        StmtAccepted(alt.value, c, [], sh);
      }
    case While(_, body) => LoopAccepted(s, body, c, pending, sh);
    case DoWhile(body, _) => LoopAccepted(s, body, c, pending, sh);
    case For(_, _, _, body) => LoopAccepted(s, body, c, pending, sh);
    case Switch(_, cases) =>
      IntoSwitch(c, sh, s);
      CasesAccepted(cases, InSwitch(c), PushLoop(sh, [], false));
    case Break(l) => JumpFound(c, sh, s, l);
    case Continue(l) => JumpFound(c, sh, s, l);
    case Labeled(name, body) => LabelAccepted(name, body, c, pending, sh);
    case _ =>
  }

  lemma {:induction false} LoopAccepted(s: Stmt, body: Stmt, c: Control, pending: seq<string>, sh: Shape)
    requires IsIteration(s) && body == s.loopBody && Covers(c, sh, pending, s)
    ensures StmtErrors(body, InLoop(c)) == [] <==> Tidy(body, c.labels) && JumpsOk(s, pending, sh)
    decreases s, 0
  {
    hide Covers;
    IntoLoop(c, sh, pending, s, body);
    StmtAccepted(body, InLoop(c), [], PushLoop(sh, pending, true));
  }

  lemma {:induction false} LabelAccepted(name: string, body: Stmt, c: Control, pending: seq<string>, sh: Shape)
    requires Covers(c, sh, pending, Labeled(name, body))
    ensures var s := Labeled(name, body);
            StmtErrors(s, c) == [] <==> Tidy(s, c.labels) && JumpsOk(s, pending, sh)
    decreases body, 2
  {
    hide Covers, Unclaimed;
    if !IsActive(c.labels, name) {
      IntoLabel(c, sh, pending, name, body);
      if PassesLabels(body) {
        StmtAccepted(body, WithLabel(c, name, body), pending + [name], sh);
      } else {
        IntoBlock(WithLabel(c, name, body), sh, pending + [name], body);
        StmtAccepted(body, WithLabel(c, name, body), [], PushBlock(sh, pending + [name]));
      }
    }
  }

  lemma {:induction false} ListAccepted(ss: StmtList, c: Control, sh: Shape, s: Stmt)
    requires Covers(c, sh, [], s)
    ensures ListErrors(ss, c) == [] <==> TidyList(ss, c.labels) && ListJumpsOk(ss, sh)
    decreases ss, 0
  {
    hide Covers, JumpsOk, Tidy, StmtErrors;
    match ss
    case SNil =>
    case SCons(head, tail) =>
      SameCover(c, sh, s, head);
      StmtAccepted(head, c, [], sh);
      ListAccepted(tail, c, sh, s);
  }

  lemma {:induction false} CasesAccepted(cases: CaseList, c: Control, sh: Shape)
    requires forall s :: Covers(c, sh, [], s)
    ensures CasesErrors(cases, c) == [] <==> TidyCases(cases, c.labels) && CasesJumpsOk(cases, sh)
    decreases cases, 0
  {
    hide Covers, ListErrors, TidyList, ListJumpsOk;
    match cases
    case CNil =>
    case CCons(k, tail) =>
      ListAccepted(k.body, c, sh, Empty);
      CasesAccepted(tail, c, sh);
  }

  lemma SameCover(c: Control, sh: Shape, s: Stmt, t: Stmt)
    requires Covers(c, sh, [], s)
    ensures Covers(c, sh, [], t)
  {
  }

  /** The body of a function has no early error exactly when it is tidy and
      every jump in it has a target. */
  lemma BodyAccepted(body: StmtList)
    ensures ListErrors(body, NoControl) == [] <==> TidyList(body, []) && ListJumpsOk(body, NoShape)
  {
    ListAccepted(body, NoControl, NoShape, Empty);
  }

  /** A label is for `continue` when it stands directly before a loop of any
      kind, and for no other statement. */
  lemma ContinueNeedsLoop(name: string, s: Stmt, c: Control)
    requires !IsActive(c.labels, name)
    requires (s.While? || s.DoWhile? || s.For?) && s.loopBody == Continue(Some(name))
    ensures StmtErrors(Labeled(name, s), c) == []
    ensures StmtErrors(Labeled(name, Block(SCons(s, SNil))), c) == [InvalidContinueTarget(name)]
  {
    var direct, block := WithLabel(c, name, s), WithLabel(c, name, Block(SCons(s, SNil)));
    var n := |c.labels|;
    assert direct.labels[n] == ActiveLabel(name, true) && block.labels[n] == ActiveLabel(name, false);
    assert forall i :: 0 <= i < n ==> block.labels[i].name != name by {
      assert forall i :: 0 <= i < n ==> block.labels[i] == c.labels[i];
    }
    assert IsActiveLoop(InLoop(direct).labels, name) by {
      assert InLoop(direct).labels[n] == ActiveLabel(name, true);
    }
    assert StmtErrors(Continue(Some(name)), InLoop(direct)) == [];
    assert !IsActiveLoop(InLoop(block).labels, name);
    assert StmtErrors(Continue(Some(name)), InLoop(block)) == [InvalidContinueTarget(name)];
    assert StmtErrors(s, block) == [InvalidContinueTarget(name)];
    assert ListErrors(SCons(s, SNil), block) == [InvalidContinueTarget(name)] + ListErrors(SNil, block);
  }

  // ----- compilation of accepted bodies -----

  /** Statements whose jumps have targets compile without an error. */
  lemma {:induction false} StmtCompiles(s: Stmt, base: nat, labels: seq<string>, sh: Shape, tg: Targets, T: Tables,
                                        sc: Scope)
    requires JumpsOk(s, labels, sh)
    ensures GenStmt(s, base, labels, sh, tg, T, sc).errs == []
    decreases s, 2
  {
    hide GenExpr, LenStmt, LenExpr, GenIf, GenIfElse, GenWhile, GenDo, GenFor, GenSwitch, GenList, GenLabeledBlock;
    match s
    case Block(body) => ListCompiles(body, base, sh, tg, T, sc);
    case If(_, _, _) => IfCompiles(s, base, sh, tg, T, sc);
    case While(_, _) => WhileCompiles(s, base, labels, sh, tg, T, sc);
    case DoWhile(_, _) => DoCompiles(s, base, labels, sh, tg, T, sc);
    case For(_, _, _, _) => ForCompiles(s, base, labels, sh, tg, T, sc);
    case Switch(_, cases) => SwitchCompiles(s, base, sh, tg, T, sc);
    case Labeled(name, body) =>
      if PassesLabels(body) {
        StmtCompiles(body, base, labels + [name], sh, tg, T, sc);
      } else {
        BlockCompiles(body, base, labels + [name], sh, tg, T, sc);
      }
    case _ =>
  }

  lemma {:induction false} BlockCompiles(body: Stmt, base: nat, all: seq<string>, sh: Shape, tg: Targets, T: Tables,
                                         sc: Scope)
    requires JumpsOk(body, [], PushBlock(sh, all))
    ensures GenLabeledBlock(body, base, all, sh, tg, T, sc).errs == []
    decreases body, 3
  {
    hide GenStmt, LenStmt, JumpsOk;
    var inner := PushBlock(sh, all);
    StmtCompiles(body, base, [], inner, PushExit(tg, base + LenStmt(body, [], inner, sc)), T, sc);
  }

  lemma {:induction false} IfCompiles(s: Stmt, base: nat, sh: Shape, tg: Targets, T: Tables, sc: Scope)
    requires s.If? && JumpsOk(s, [], sh)
    ensures if s.alt.Some? then GenIfElse(s, base, sh, tg, T, sc).errs == []
            else GenIf(s, base, sh, tg, T, sc).errs == []
    decreases s, 0
  {
    hide GenExpr, GenStmt;
    var t := GenExpr(s.test, base, T, sc);
    var pc := base + |t.code| + 1;
    var c := GenStmt(s.cons, pc, [], sh, tg, t.tabs, sc);
    StmtCompiles(s.cons, pc, [], sh, tg, t.tabs, sc);
    if s.alt.Some? {
      StmtCompiles(s.alt.value, pc + |c.code| + 1, [], sh, tg, c.tabs, sc);
    }
  }

  lemma {:induction false} WhileCompiles(s: Stmt, base: nat, labels: seq<string>, sh: Shape, tg: Targets, T: Tables,
                                         sc: Scope)
    requires s.While? && JumpsOk(s, labels, sh)
    ensures GenWhile(s, base, labels, sh, tg, T, sc).errs == []
    decreases s, 0
  {
    hide GenExpr, GenStmt, LenStmt;
    var inner := PushLoop(sh, labels, true);
    var t := GenExpr(s.test, base, T, sc);
    var pb := base + |t.code| + 1;
    var end := pb + LenStmt(s.loopBody, [], inner, sc) + 1;
    StmtCompiles(s.loopBody, pb, [], inner, PushLoopTarget(tg, end, base), t.tabs, sc);
  }

  lemma {:induction false} DoCompiles(s: Stmt, base: nat, labels: seq<string>, sh: Shape, tg: Targets, T: Tables,
                                      sc: Scope)
    requires s.DoWhile? && JumpsOk(s, labels, sh)
    ensures GenDo(s, base, labels, sh, tg, T, sc).errs == []
    decreases s, 0
  {
    hide GenExpr, GenStmt, LenStmt, LenExpr;
    var inner := PushLoop(sh, labels, true);
    var pt := base + LenStmt(s.loopBody, [], inner, sc);
    StmtCompiles(s.loopBody, base, [], inner, PushLoopTarget(tg, pt + LenExpr(s.test, sc) + 1, pt), T, sc);
  }

  lemma {:induction false} ForCompiles(s: Stmt, base: nat, labels: seq<string>, sh: Shape, tg: Targets, T: Tables,
                                       sc: Scope)
    requires s.For? && JumpsOk(s, labels, sh)
    ensures GenFor(s, base, labels, sh, tg, T, sc).errs == []
    decreases s, 0
  {
    hide GenClause, GenStmt, LenStmt, LenOptional;
    var i := GenClause(s.init, base, T, sc);
    var start := base + |i.code| + |PopIf(s.init)|;
    var inner := PushLoop(sh, labels, true);
    var c := GenClause(s.cond, start, i.tabs, sc);
    var pb := start + |c.code| + |ExitIf(s.cond, 0)|;
    var pu := pb + LenStmt(s.loopBody, [], inner, sc);
    var end := pu + LenOptional(s.update, sc) + 1;
    StmtCompiles(s.loopBody, pb, [], inner, PushLoopTarget(tg, end, pu), c.tabs, sc);
  }

  lemma {:induction false} ListCompiles(ss: StmtList, base: nat, sh: Shape, tg: Targets, T: Tables, sc: Scope)
    requires ListJumpsOk(ss, sh)
    ensures GenList(ss, base, sh, tg, T, sc).errs == []
    decreases ss, 0
  {
    hide GenStmt, JumpsOk;
    match ss
    case SNil =>
    case SCons(s, tail) =>
      var a := GenStmt(s, base, [], sh, tg, T, sc);
      StmtCompiles(s, base, [], sh, tg, T, sc);
      ListCompiles(tail, base + |a.code|, sh, tg, a.tabs, sc);
  }

  lemma {:induction false} SwitchCompiles(s: Stmt, base: nat, sh: Shape, tg: Targets, T: Tables, sc: Scope)
    requires s.Switch? && JumpsOk(s, [], sh)
    ensures GenSwitch(s, base, sh, tg, T, sc).errs == []
    decreases s, 0
  {
    hide GenExpr, GenTests, GenBodies, LenTests, LenBodies;
    var inner := PushLoop(sh, [], false);
    var d := GenExpr(s.disc, base, T, sc);
    var tmp := InternLocal(SwitchDisc, d.tabs);
    var pt := base + |d.code| + 1;
    var pb := pt + LenTests(s.cases, sc) + 1;
    var end := pb + LenBodies(s.cases, inner, sc);
    var c := GenTests(s.cases, pt, tmp.index, pb, inner, tmp.tabs, sc);
    BodiesCompile(s.cases, pb, inner, PushLoopTarget(tg, end, end), c.tabs, sc);
  }

  lemma {:induction false} BodiesCompile(cases: CaseList, base: nat, sh: Shape, tg: Targets, T: Tables, sc: Scope)
    requires CasesJumpsOk(cases, sh)
    ensures GenBodies(cases, base, sh, tg, T, sc).errs == []
    decreases cases, 0
  {
    hide GenList, ListJumpsOk;
    match cases
    case CNil =>
    case CCons(c, tail) =>
      var a := GenList(c.body, base, sh, tg, T, sc);
      ListCompiles(c.body, base, sh, tg, T, sc);
      BodiesCompile(tail, base + |a.code|, sh, tg, a.tabs, sc);
  }

  /** A body without early errors compiles without an error. */
  lemma AcceptedCompiles(body: StmtList, T: Tables, sc: Scope)
    requires ListErrors(body, NoControl) == []
    ensures GenFunction(body, T, sc).errs == []
  {
    BodyAccepted(body);
    ListCompiles(body, 0, NoShape, NoTargets, T, sc);
  }

  lemma {:induction false} TopCompiles(ss: StmtList, base: nat, T: Tables, sc: Scope)
    requires ListJumpsOk(ss, NoShape)
    ensures GenTop(ss, base, T, sc).errs == []
    decreases ss
  {
    hide GenStmt, GenExpr, JumpsOk;
    if ss.SCons? {
      if ss.head.ExprStmt? {
        var a := GenExpr(ss.head.expr, base, T, sc);
        TopCompiles(ss.tail, base + |a.code|, a.tabs, sc);
      } else {
        var a := GenStmt(ss.head, base, [], NoShape, NoTargets, T, sc);
        StmtCompiles(ss.head, base, [], NoShape, NoTargets, T, sc);
        TopCompiles(ss.tail, base + |a.code|, a.tabs, sc);
      }
    }
  }

  /** A script without early errors compiles without an error. */
  lemma AcceptedScriptCompiles(body: StmtList, T: Tables, sc: Scope)
    requires ListErrors(body, NoControl) == []
    ensures GenScript(body, T, sc).errs == []
  {
    BodyAccepted(body);
    TopCompiles(body, 0, T, sc);
  }
}
