/** The smallest program in which a function inside a loop goes wrong:
    `L: while (a) { (function () { L: { break L; } })(); }`. It has no early
    error, since a function starts with no labels. */
module LostBreak {
  import opened Syntax
  import opened Machine
  import opened Semantics
  import opened CodeGen
  import opened StmtGen
  import opened ClosingFacts
  import opened EarlyErrors
  import opened FunctionCorrect
  import opened Interning
  import opened Frames
  import opened OuterFrames
  import opened Pipeline
  import Emitter

  const NoNames := Scope(map[], map[])

  /** `L: { break L; }` */
  const Inner: StmtList := SCons(Labeled("L", Block(Leave)), SNil)

  /** The frame of a loop `L` around it. */
  const Outer := OpenFrames([LoopFrame([], [], ["L"], true)], [])

  const Leave: StmtList := SCons(Break(Some("L")), SNil)

  lemma InnerAccepted()
    ensures ListErrors(Inner, NoControl) == []
  {
    var c := Control([ActiveLabel("L", false)], 0, 0);
    assert c.labels[0].name == "L";
    assert WithLabel(NoControl, "L", Block(Leave)) == c;
    assert ListErrors(Leave, c) == [];
    assert StmtErrors(Block(Leave), c) == [];
    assert StmtErrors(Labeled("L", Block(Leave)), NoControl) == [];
  }

  lemma InnerUnsheltered()
    ensures !StandsAlone(Inner, Outer)
  {
    var sh := PushBlock(NoShape, ["L"]);
    var around := ShapeAround(Outer).loops;
    assert around == [LoopShape(["L"], true)];
    assert LastLabelled(around, "L") == Some(0) && LastBlock(sh.blocks, "L") == Some(0);
    assert !ListSheltered(Leave, sh, around);
    assert !Sheltered(Block(Leave), [], sh, around);
  }

  lemma InnerReturns<E>(h: Host<E>, env: E, fuel: nat)
    ensures Final(ExecList(Inner, NoNames, h, env, fuel)) == Some(Returned(Undefined, env))
  {
    assert ExecList(Leave, NoNames, h, env, fuel) == Done(BreakTo(Some("L")), env);
    assert Exec(Block(Leave), ["L"], NoNames, h, env, fuel) == Done(BreakTo(Some("L")), env);
    assert Exec(Labeled("L", Block(Leave)), [], NoNames, h, env, fuel) == Done(Normal, env);
  }

  /** Its jump is left with its placeholder, and waits for the loop. */
  lemma InnerCode(T: Tables)
    ensures var sh := ShapeAround(Outer);
            GenList(Inner, 0, sh, Unknown(sh), T, NoNames)
            == Gen([Instr(Jump, 0)], T, [Hole(BreakLoop(0), 0)], [])
  {
    var sh := ShapeAround(Outer);
    var inner := PushBlock(sh, ["L"]);
    assert sh.loops == [LoopShape(["L"], true)];
    var tg := PushExit(Unknown(sh), 1);
    assert GenStmt(Break(Some("L")), 0, [], inner, tg, T, NoNames)
           == Gen([Instr(Jump, 0)], T, [Hole(BreakLoop(0), 0)], []);
    assert GenList(Leave, 0, inner, tg, T, NoNames) == Gen([Instr(Jump, 0)], T, [Hole(BreakLoop(0), 0)], []);
    assert LenStmt(Block(Leave), [], inner, NoNames) == 1;
  }

  lemma InnerLength()
    ensures LenList(Inner, NoShape, NoNames) == 1
  {
    hide LenList, GenList;
    var sh, T := ShapeAround(Outer), Tables([], map[], 0);
    InnerCode(T);
    ListLength(Inner, 0, sh, Unknown(sh), T, NoNames);
    InnerAccepted();
    BodyAccepted(Inner);
    BodyOver(Inner, Around(sh, Unknown(sh)), T, NoNames);
  }

  /** A jump to itself. */
  lemma {:induction false} RunsForever<E>(f: Function, h: Host<E>, t: Temps, env: E, n: nat)
    requires |f.code| > 0 && f.code[0] == Instr(Jump, 0)
    ensures Run(f, h, Start(t, env), n) == Start(t, env)
    decreases n
  {
    if n > 0 {
      RunsForever(f, h, t, env, n - 1);
    }
  }

  /** The loop `L`, where `call` is the code that makes and calls the function:
      the function never returns although its source does at once, and the end of
      the loop is patched into the load of `a`. */
  method CompileLoop<E(!new)>(call: seq<Instr>) returns (r: Compiled, code: seq<Instr>)
    requires |call| + 3 < Emitter.ADDRESSES
    ensures r.Compiled? && NeverReturns<E>(r.f)
    ensures forall h: Host<E>, env: E, fuel: nat ::
              Final(ExecList(Inner, NoNames, h, env, fuel)) == Some(Returned(Undefined, env))
    ensures GenLoad("a", Tables([], map[], 0), NoNames).code == [Instr(GetGlobal, 0)]
    ensures code == [Instr(GetGlobal, |call| + 3), Instr(JumpIfFalse, |call| + 3)] + call + [Instr(Jump, 0)]
  {
    hide GenList, ListErrors, StandsAlone, ExecList, Final, LenList, NeverReturns, PatchAll;
    var pool := new ConstantPool();
    var names := new LocalTable(0);
    var e := new Emitter.Emitter(pool, names, NoNames);
    assert e.Tabs() == Tables([], map[], 0);
    e.LoadIdent("a");
    var test := e.EmitPlaceholder(JumpIfFalse);
    e.PushLoop(["L"], true);
    r := CompileInner<E>(e);
    CloseLoop(e, call, test);
    code := e.code;
  }

  method CloseLoop(e: Emitter.Emitter, call: seq<Instr>, test: nat)
    requires e.code == [Instr(GetGlobal, 0), Instr(JumpIfFalse, 0)] && test == 1 && |call| + 3 < Emitter.ADDRESSES
    requires e.loops == [LoopFrame([0], [], ["L"], true)]
    modifies e
    ensures e.code == [Instr(GetGlobal, |call| + 3), Instr(JumpIfFalse, |call| + 3)] + call + [Instr(Jump, 0)]
  {
    hide PatchAll;
    e.code := e.code + call;
    e.Emit(Instr(Jump, 0));
    var end := e.Here();
    assert e.loops[0].breaks == [0] && e.loops[0].continues == [];
    OnePatch(e.code, 0, end);
    e.PopLoop(end, 0);
    e.Patch(test, end);
  }

  lemma OnePatch(code: seq<Instr>, at: nat, target: nat)
    requires at < |code|
    ensures PatchAll(code, [at], target) == code[at := Instr(code[at].op, target)]
    ensures forall c, t :: PatchAll(c, [], t) == c
  {
  }

  /** Whatever happens elsewhere, the code stays where it starts. */
  ghost predicate NeverReturns<E(!new)>(f: Function) {
    forall h: Host<E>, t, env: E, n: nat :: Run(f, h, Start(t, env), n) == Start(t, env)
  }

  method CompileInner<E(!new)>(e: Emitter.Emitter) returns (r: Compiled)
    requires e.loops == Outer.loops && e.labels == Outer.labels
    modifies e`loops, e`labels
    ensures r.Compiled? && r.f.code == [Instr(Jump, 0), Bare(LdaUndefined), Bare(ReturnOp)]
    ensures e.loops == [LoopFrame([0], [], ["L"], true)] && e.labels == []
    ensures NeverReturns<E>(r.f)
    ensures forall h: Host<E>, env: E, fuel: nat ::
              Final(ExecList(Inner, NoNames, h, env, fuel)) == Some(Returned(Undefined, env))
  {
    hide GenList, ListErrors, StandsAlone, ExecList, Final, LenList, Run, AddLoops;
    InnerAccepted();
    InnerUnsheltered();
    InnerLength();
    var locals := new LocalTable(0);
    InnerCode(Tables([], locals.byName, locals.count));
    var after: OpenFrames;
    r, after := CompileBody<E>(Inner, NoNames, locals, 0, OpenFrames(e.loops, e.labels));
    e.loops, e.labels := after.loops, after.labels;
    InnerFrames();
    forall h: Host<E>, t, env: E, n: nat ensures Run(r.f, h, Start(t, env), n) == Start(t, env) {
      RunsForever(r.f, h, t, env, n);
    }
    forall h: Host<E>, env: E, fuel: nat
      ensures Final(ExecList(Inner, NoNames, h, env, fuel)) == Some(Returned(Undefined, env))
    {
      InnerReturns(h, env, fuel);
    }
  }

  lemma InnerFrames()
    ensures AddLoops(Outer.loops, [Hole(BreakLoop(0), 0)]) == [LoopFrame([0], [], ["L"], true)]
    ensures AddLabels(Outer.labels, [Hole(BreakLoop(0), 0)]) == []
  {
    var holes := [Hole(BreakLoop(0), 0)];
    assert Ats(holes[1..], BreakLoop(0)) == Ats(holes[1..], ContinueLoop(0)) == [];
    assert AddLoops(Outer.loops, holes)[0] == LoopFrame([0], [], ["L"], true);
  }
}
