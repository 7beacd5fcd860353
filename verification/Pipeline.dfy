/** From source to code: early errors, then emission. What comes out runs as
    the source says, passes verification and needs no operand it does not have. */
module Pipeline {
  import opened Syntax
  import opened Machine
  import opened Semantics
  import opened CodeGen
  import opened Execution
  import opened StmtGen
  import opened EarlyErrors
  import opened FunctionCorrect
  import opened Interning
  import opened StackDepth
  import opened SpecifiedOrder
  import opened WholeRuns
  import opened JumpTargets
  import opened Frames
  import opened ClosingFacts
  import opened OuterFrames
  import opened CompletionValues
  import opened NameUse
  import U = Upvalues
  import Emitter
  import Verifier

  /** The variables of a function: slots below `user`, and captured cells. */
  ghost predicate ScopeFits(sc: Scope, user: nat, upvalues: nat) {
    && (forall x :: x in sc.locals ==> sc.locals[x] < user)
    && (forall x :: x in sc.upvalues ==> sc.upvalues[x] < upvalues)
  }

  /** A compiled function, or none when there are early errors. */
  datatype Compiled = Compiled(f: Function, slots: nat) | Rejected(errors: seq<EarlyError>)

  /** The compiled function as an entry of a module with its constants. */
  function Entry(c: Compiled, params: nat, upvalues: nat): Verifier.BytecodeModule
    requires c.Compiled?
  {
    var code := Verifier.Image(c.f.code);
    var main := Verifier.BytecodeFunction(code, |code|, params, c.slots, upvalues, upvalues, [], 0);
    Verifier.BytecodeModule(|c.f.consts|, main, [])
  }

  /** A slot table that holds only the variables of a scope. */
  ghost predicate VariablesOnly(byName: map<LocalName, nat>) {
    forall n :: n in byName ==> n.User?
  }

  lemma VariablesWf(T: Tables)
    requires VariablesOnly(T.byName)
    ensures Wf(T, T.count)
  {
  }

  /** The loop and label frames that are open when a function is entered. */
  datatype OpenFrames = OpenFrames(loops: seq<LoopFrame>, labels: seq<LabelFrame>)

  ghost function ShapeAround(open: OpenFrames): Shape {
    ShapeOf(Output([], open.loops, open.labels, [], Tables([], map[], 0)))
  }

  /** The body can be compiled inside these frames as if it stood alone. */
  ghost predicate StandsAlone(body: StmtList, open: OpenFrames) {
    ListSheltered(body, NoShape, ShapeAround(open).loops)
  }

  /** Compile the body of a function whose variables are in `locals`, inside
      `open`. */
  method CompileBody<E(!new)>(body: StmtList, sc: Scope, locals: LocalTable, upvalues: nat, open: OpenFrames)
    returns (r: Compiled, after: OpenFrames)
    requires locals.Valid() && VariablesOnly(locals.byName) && ScopeFits(sc, locals.count, upvalues)
    requires LenList(body, NoShape, sc) + 2 < Emitter.ADDRESSES
    modifies locals
    ensures r.Rejected? <==> ListErrors(body, NoControl) != []
    ensures r.Rejected? ==> r.errors == ListErrors(body, NoControl) && after == open
    ensures r.Compiled? && StandsAlone(body, open) ==>
              after == open && r.f.code == GenFunction(body, Tables([], old(locals.byName), old(locals.count)), sc).code
    ensures r.Compiled? && !StandsAlone(body, open) ==> after.loops != open.loops
    ensures r.Compiled? && StandsAlone(body, open) ==>
              RunsAsFunction<E>(r.f, body, sc) && Verifier.ValidModule(Entry(r, locals.paramCount, upvalues))
    ensures r.Compiled? && StandsAlone(body, open) ==> forall counters :: FreeList(body, sc, counters) ==>
              FunctionAsSpecified<E>(r.f, body, sc, counters)
    ensures r.Compiled? && StandsAlone(body, open) ==> exists ds :: DepthEverywhere<E>(r.f, ds)
    ensures r.Compiled? ==>
              var g := GenList(body, 0, ShapeAround(open), Unknown(ShapeAround(open)),
                               Tables([], old(locals.byName), old(locals.count)), sc);
              && r.f.code == g.code + [Bare(LdaUndefined), Bare(ReturnOp)]
              && after == OpenFrames(AddLoops(open.loops, g.holes), AddLabels(open.labels, g.holes))
  {
    hide ListErrors, RunsAsFunction, FunctionAsSpecified, FreeList, Verifier.ValidModule, DepthEverywhere, LenList;
    hide GenList, ListSheltered, GenFunction, ShapeOf, Unknown;
    var user := locals.count;
    var checker := new Checker();
    checker.CheckFunctionBody(body);
    if checker.errors != [] {
      return Rejected(checker.errors), open;
    }
    var pool := new ConstantPool();
    var e := new Emitter.Emitter(pool, locals, sc);
    e.loops, e.labels := open.loops, open.labels;
    ghost var start := Tables([], locals.byName, user);
    assert e.Tabs() == start;
    ghost var g := BodyInside(body, open, e.Out(), start, sc);
    VariablesWf(start);
    e.CompileFunction(body);
    r, after := Compiled(Function(e.code, pool.items, user), locals.count), OpenFrames(e.loops, e.labels);
    if StandsAlone(body, open) {
      ghost var s := Verifier.Source(false, body, start, sc, user, locals.paramCount);
      assert Verifier.Generated(s).tabs == e.Tabs();
      FunctionCompiled<E>(r, s, upvalues);
      forall counters | FreeList(body, sc, counters) ensures FunctionAsSpecified<E>(r.f, body, sc, counters) {
        FunctionSame<E>(r.f, body, sc, counters);
      }
    }
  }

  /** What the emitter adds for an accepted body inside open frames. */
  lemma BodyInside(body: StmtList, open: OpenFrames, o: Output, T: Tables, sc: Scope) returns (g: Gen)
    requires ListErrors(body, NoControl) == []
    requires o.loops == open.loops && o.labels == open.labels && o.errors == [] && o.code == [] && o.tabs == T
    ensures ShapeOf(o) == ShapeAround(open) && LenList(body, ShapeOf(o), sc) == LenList(body, NoShape, sc)
    ensures g == GenList(body, 0, ShapeOf(o), Unknown(ShapeOf(o)), T, sc) && g.errs == []
    ensures StandsAlone(body, open) ==>
              && g.(code := g.code + [Bare(LdaUndefined), Bare(ReturnOp)]) == GenFunction(body, T, sc)
              && AddLoops(open.loops, g.holes) == open.loops && AddLabels(open.labels, g.holes) == open.labels
    ensures !StandsAlone(body, open) ==> AddLoops(open.loops, g.holes) != open.loops
  {
    hide ListErrors, LenList, GenList, ListSheltered, Stray;
    g := GenList(body, 0, ShapeOf(o), Unknown(ShapeOf(o)), T, sc);
    BodyAccepted(body);
    BodyOver(body, Around(ShapeOf(o), Unknown(ShapeOf(o))), T, sc);
    if StandsAlone(body, open) {
      NothingOpen(body, 0, T, sc);
      AppendPlain(o, [], T);
    } else {
      FramesChanged(open.loops, g.holes, ShapeOf(o).loops);
    }
  }

  lemma FunctionCompiled<E(!new)>(r: Compiled, s: Verifier.Source, upvalues: nat)
    requires r.Compiled? && !s.script && ListErrors(s.body, NoControl) == []
    requires ScopeFits(s.scope, s.user, upvalues) && s.params <= s.user && s.start.consts == [] && Wf(s.start, s.user)
    requires var g := Verifier.Generated(s);
             r.f == Function(g.code, g.tabs.consts, s.user) && r.slots == g.tabs.count
    ensures RunsAsFunction<E>(r.f, s.body, s.scope) && Verifier.ValidModule(Entry(r, s.params, upvalues))
    ensures exists ds :: DepthEverywhere<E>(r.f, ds)
  {
    hide ListErrors, Verifier.ValidModule, DepthEverywhere, GenFunction, GenScript, ExecList, Final, Reaches;
    BodyAccepted(s.body);
    forall h: Host<E>, t: Temps, env: E, q: Result<E> | h.order.Emitted?
      ensures EndsWith(r.f, h, t, env, q) <==>
                exists fuel: nat :: Final(ExecList(s.body, s.scope, h, env, fuel)) == Some(q)
    {
      FunctionCorrect.FunctionCorrect(Ctx(r.f, h, s.scope), s.body, s.start, t, env, q);
    }
    EntryValid(r, s, upvalues);
    Verifier.CompiledDepth<E>(Entry(r, s.params, upvalues), Entry(r, s.params, upvalues).main, s, r.f);
  }

  lemma EntryValid(r: Compiled, s: Verifier.Source, upvalues: nat)
    requires r.Compiled? && ScopeFits(s.scope, s.user, upvalues) && s.params <= s.user
    requires s.start.consts == [] && Wf(s.start, s.user)
    requires var g := Verifier.Generated(s);
             r.f == Function(g.code, g.tabs.consts, s.user) && r.slots == g.tabs.count
    ensures var m := Entry(r, s.params, upvalues); Verifier.ValidModule(m) && Verifier.Built(m, m.main, s)
  {
    hide Verifier.ValidModule, GenFunction, GenScript;
    var m := Entry(r, s.params, upvalues);
    assert Verifier.Built(m, m.main, s);
    Verifier.CompiledVerifies(m, s, []);
  }

  // ----- a function inside others -----

  /** The slot table of a function holds exactly its variables. */
  ghost predicate Mirrors(byName: map<LocalName, nat>, l: U.Level) {
    && (forall n :: n in byName <==> n.User? && n.name in l.locals)
    && (forall n :: n in byName ==> byName[n] == l.locals[n.name])
  }

  /** The first `i` parameters are bound, the last of a name winning. */
  ghost predicate BoundUpTo(byName: map<LocalName, nat>, params: seq<string>, i: nat) {
    && i <= |params|
    && (forall n :: n in byName <==> n.User? && n.name in params[..i])
    && (forall n :: n in byName ==> byName[n] < i && params[byName[n]] == n.name)
    && (forall n, j :: n in byName && byName[n] < j < i ==> params[j] != n.name)
  }

  lemma BoundNext(byName: map<LocalName, nat>, params: seq<string>, i: nat)
    requires BoundUpTo(byName, params, i) && i < |params|
    ensures BoundUpTo(byName[User(params[i]) := i], params, i + 1)
  {
    assert params[..i + 1] == params[..i] + [params[i]];
  }

  lemma BoundMirrors(byName: map<LocalName, nat>, params: seq<string>, l: U.Level)
    requires BoundUpTo(byName, params, |params|)
    requires forall n :: n in l.locals <==> n in params
    requires forall n :: n in params ==> l.locals[n] < |params| && params[l.locals[n]] == n
    requires forall n, j :: n in params && l.locals[n] < j < |params| ==> params[j] != n
    ensures Mirrors(byName, l)
  {
    assert params[..|params|] == params;
    forall n | n in byName ensures byName[n] == l.locals[n.name] {
      var a, b := byName[n], l.locals[n.name];
      assert params[a] == params[b] == n.name;
    }
  }

  /** Slots for the parameters of a function, the last of a name winning. */
  method BindParameters(params: seq<string>, ghost l: U.Level) returns (locals: LocalTable)
    requires forall n :: n in l.locals <==> n in params
    requires forall n :: n in params ==> l.locals[n] < |params| && params[l.locals[n]] == n
    requires forall n, j :: n in params && l.locals[n] < j < |params| ==> params[j] != n
    ensures fresh(locals) && locals.Valid() && locals.paramCount == locals.count == |params|
    ensures Mirrors(locals.byName, l)
  {
    hide BoundUpTo, Mirrors, LocalTable.Valid;
    locals := new LocalTable(|params|);
    NoneBound(params);
    var i := 0;
    while i < |params|
      invariant 0 <= i <= |params| && locals.Valid() && locals.paramCount == locals.count == |params|
      invariant BoundUpTo(locals.byName, params, i)
    {
      BoundNext(locals.byName, params, i);
      locals.BindParameter(User(params[i]), i);
      i := i + 1;
    }
    BoundMirrors(locals.byName, params, l);
  }

  lemma NoneBound(params: seq<string>)
    ensures BoundUpTo(map[], params, 0)
  {
  }

  /** One more variable of level `a`, which becomes level `b`. */
  lemma MirrorNext(T: Tables, R: Tables, a: U.Level, b: U.Level, name: string, slot: nat, same: nat)
    requires Mirrors(T.byName, a) && T.count == a.slots && InternLocal(User(name), T) == Interned(same, R)
    requires if name in a.locals then b == a && slot == a.locals[name]
             else b.locals == a.locals[name := slot] && slot == a.slots && b.slots == a.slots + 1
    ensures Mirrors(R.byName, b) && R.count == b.slots
  {
    assert User(name) in T.byName <==> name in a.locals;
  }

  /** Slots for the other variables of a function, in both tables. */
  method DeclareVariables(stack: U.ScopeStack, locals: LocalTable, vars: seq<string>)
    requires U.AllOk(stack.levels) && |stack.levels| > 0 && locals.Valid()
    requires Mirrors(locals.byName, stack.levels[|stack.levels| - 1])
    requires locals.count == stack.levels[|stack.levels| - 1].slots
    modifies stack, locals
    ensures U.AllOk(stack.levels) && |stack.levels| == |old(stack.levels)| && locals.Valid()
    ensures var n := |stack.levels| - 1;
            && stack.levels[..n] == old(stack.levels)[..n] && Mirrors(locals.byName, stack.levels[n])
            && locals.count == stack.levels[n].slots
            && forall x :: x in stack.levels[n].locals <==> x in old(stack.levels)[n].locals || x in vars
  {
    hide U.AllOk, Mirrors, LocalTable.Valid, InternLocal;
    var n := |stack.levels| - 1;
    var i := 0;
    while i < |vars|
      invariant 0 <= i <= |vars| && U.AllOk(stack.levels) && |stack.levels| == n + 1 && locals.Valid()
      invariant stack.levels[..n] == old(stack.levels)[..n]
      invariant Mirrors(locals.byName, stack.levels[n]) && locals.count == stack.levels[n].slots
      invariant forall x :: x in stack.levels[n].locals <==> x in old(stack.levels)[n].locals || x in vars[..i]
    {
      ghost var a, before := stack.levels[n], Tables([], locals.byName, locals.count);
      var slot := stack.DeclareLocal(vars[i]);
      var same := locals.Intern(User(vars[i]));
      ghost var after := Tables([], locals.byName, locals.count);
      assert InternLocal(User(vars[i]), before) == Interned(same, after);
      MirrorNext(before, after, a, stack.levels[n], vars[i], slot, same);
      assert vars[..i + 1] == vars[..i] + [vars[i]];
      i := i + 1;
    }
    assert vars[..i] == vars;
  }

  /** Resolve every name once, in any order that mentions all of them. */
  method ResolveNames(stack: U.ScopeStack, used: seq<string>)
    requires U.AllOk(stack.levels) && |stack.levels| > 0
    modifies stack
    ensures U.AllOk(stack.levels) && U.Grows(old(stack.levels), stack.levels)
    ensures var l := stack.levels[|stack.levels| - 1];
            forall x :: x in used ==> U.Denotes(stack.levels, x, Resolve(U.ScopeOf(l), x))
  {
    hide U.AllOk, U.Denotes, U.Grows, Resolve;
    var i := 0;
    U.GrowsSelf(stack.levels);
    while i < |used|
      invariant 0 <= i <= |used| && |stack.levels| > 0 && U.AllOk(stack.levels)
      invariant U.Grows(old(stack.levels), stack.levels)
      invariant forall j :: 0 <= j < i ==>
                  U.Denotes(stack.levels, used[j], Resolve(U.ScopeOf(stack.levels[|stack.levels| - 1]), used[j]))
    {
      ghost var before := stack.levels;
      var r := stack.ResolveVar(used[i]);
      U.GrowsSelf(stack.levels);
      U.GrowsTrans(old(stack.levels), before, stack.levels);
      U.DenotesScope(stack.levels, stack.levels, used[i], r);
      forall j | 0 <= j < i
        ensures U.Denotes(stack.levels, used[j], Resolve(U.ScopeOf(stack.levels[|stack.levels| - 1]), used[j]))
      {
        U.DenotesScope(before, stack.levels, used[j], Resolve(U.ScopeOf(before[|before| - 1]), used[j]));
      }
      i := i + 1;
    }
  }

  /** The scope gives these names the innermost declarations around the last of
      the functions. */
  ghost predicate Addresses(sc: Scope, ls: seq<U.Level>, names: set<string>)
    requires |ls| > 0
  {
    forall x :: x in names ==> U.Denotes(ls, x, Resolve(sc, x))
  }

  /** Compile a function inside the functions on the stack. Its code runs as its
      source does in every scope that gives the names in it the innermost
      declarations around them; the functions around it only gain captures. */
  method CompileNested<E(!new)>(stack: U.ScopeStack, params: seq<string>, vars: seq<string>, used: seq<string>,
                         body: StmtList, open: OpenFrames)
    returns (r: Compiled, sc: Scope, after: OpenFrames, ghost inner: seq<U.Level>)
    requires U.AllOk(stack.levels) && forall x :: x in ListNames(body) ==> x in used
    requires forall sc: Scope :: LenList(body, NoShape, sc) + 2 < Emitter.ADDRESSES
    modifies stack
    ensures U.AllOk(stack.levels) && U.Grows(old(stack.levels), stack.levels)
    ensures |inner| == |stack.levels| + 1 && inner[..|stack.levels|] == stack.levels
    ensures forall x :: x in inner[|stack.levels|].locals <==> x in params || x in vars
    ensures Addresses(sc, inner, ListNames(body))
    ensures r.Rejected? <==> ListErrors(body, NoControl) != []
    ensures StandsAlone(body, open) ==> after == open
    ensures r.Compiled? && !StandsAlone(body, open) ==> after.loops != open.loops
    ensures r.Compiled? && StandsAlone(body, open) ==>
              && (forall any: Scope :: Addresses(any, inner, ListNames(body)) ==> RunsAsFunction<E>(r.f, body, any))
              && Verifier.ValidModule(Entry(r, |params|, |inner[|stack.levels|].upvalues|))
  {
    hide ListErrors, RunsAsFunction, Verifier.ValidModule, DepthEverywhere, LenList, U.Denotes, ListNames, Mirrors;
    hide FunctionAsSpecified, FreeList, ScopeFits, VariablesOnly, U.AllOk, U.ScopeOf, StandsAlone, ShapeAround;
    hide GenFunction, GenList, AddLoops, AddLabels, Unknown, Entry;
    ghost var n := |stack.levels|;
    stack.Push(params);
    var locals := BindParameters(params, stack.levels[n]);
    DeclareVariables(stack, locals, vars);
    ghost var declared := stack.levels;
    ResolveNames(stack, used);
    inner := stack.levels;
    var top := stack.levels[|stack.levels| - 1];
    SameVariables(locals.byName, declared[n], top);
    sc := U.ScopeOf(top);
    var upvalues := stack.Pop();
    NestedFits(top, locals.byName, locals.count);
    r, after := CompileBody<E>(body, sc, locals, |upvalues|, open);
    if r.Compiled? && StandsAlone(body, open) {
      AnyScope<E>(r.f, body, sc, inner);
    }
  }

  /** A compiled body runs as its source in every scope that addresses its names. */
  lemma AnyScope<E(!new)>(f: Function, body: StmtList, sc: Scope, inner: seq<U.Level>)
    requires |inner| > 0 && U.AllOk(inner) && Addresses(sc, inner, ListNames(body)) && RunsAsFunction<E>(f, body, sc)
    ensures forall any: Scope :: Addresses(any, inner, ListNames(body)) ==> RunsAsFunction<E>(f, body, any)
  {
    hide ListNames, Resolve, EndsWith, ExecList, Final, U.Denotes, U.LevelOk;
    forall any: Scope | Addresses(any, inner, ListNames(body)) ensures RunsAsFunction<E>(f, body, any) {
      forall x | x in ListNames(body) ensures Resolve(sc, x) == Resolve(any, x) {
        U.DenotesOne(inner, x, Resolve(sc, x), Resolve(any, x));
      }
      forall h: Host<E>, env: E, fuel: nat
        ensures ExecList(body, any, h, env, fuel) == ExecList(body, sc, h, env, fuel)
      {
        ListAlike(body, any, sc, h, env, fuel);
      }
    }
  }

  lemma SameVariables(byName: map<LocalName, nat>, a: U.Level, b: U.Level)
    requires Mirrors(byName, a) && a.locals == b.locals
    ensures Mirrors(byName, b)
  {
  }

  lemma NestedFits(l: U.Level, byName: map<LocalName, nat>, count: nat)
    requires Mirrors(byName, l) && forall n :: n in byName ==> byName[n] < count
    ensures VariablesOnly(byName) && ScopeFits(U.ScopeOf(l), count, |l.upvalues|)
  {
    forall x | x in l.locals ensures l.locals[x] < count {
      assert User(x) in byName;
    }
  }

  /** Compile a script with `user` variable slots. */
  method CompileScript<E(!new)>(body: StmtList, sc: Scope, user: nat, upvalues: nat) returns (r: Compiled)
    requires ScopeFits(sc, user, upvalues)
    requires |GenScript(body, Tables([], map[], user), sc).code| < Emitter.ADDRESSES
    ensures r.Rejected? <==> ListErrors(body, NoControl) != []
    ensures r.Rejected? ==> r.errors == ListErrors(body, NoControl)
    ensures r.Compiled? ==> RunsAsScript<E>(r.f, body, sc) && Verifier.ValidModule(Entry(r, 0, upvalues))
    ensures r.Compiled? ==> forall counters :: FreeList(body, sc, counters) ==>
              ScriptAsSpecified<E>(r.f, body, sc, counters)
              && (SilentTail(body) ==> ScriptAsStandard<E>(r.f, body, sc, counters))
    ensures r.Compiled? ==> exists ds :: DepthEverywhere<E>(r.f, ds)
  {
    hide ListErrors, RunsAsScript, ScriptAsSpecified, FreeList, Verifier.ValidModule, DepthEverywhere, GenScript;
    hide ScriptAsStandard, SilentTail;
    var checker := new Checker();
    checker.CheckList(body);
    if checker.errors != [] {
      return Rejected(checker.errors);
    }
    var pool := new ConstantPool();
    var locals := new LocalTable(user);
    var e := new Emitter.Emitter(pool, locals, sc);
    ghost var start := Tables([], map[], user);
    assert e.Tabs() == start;
    VariablesWf(start);
    e.CompileScript(body);
    AcceptedScriptCompiles(body, start, sc);
    assert e.errors == [];
    r := Compiled(Function(e.code, pool.items, user), locals.count);
    ghost var s := Verifier.Source(true, body, start, sc, user, 0);
    assert Verifier.Generated(s).tabs == e.Tabs();
    ScriptCompiled<E>(r, s, upvalues);
    forall counters | FreeList(body, sc, counters)
      ensures ScriptAsSpecified<E>(r.f, body, sc, counters)
      ensures SilentTail(body) ==> ScriptAsStandard<E>(r.f, body, sc, counters)
    {
      ScriptSame<E>(r.f, body, sc, counters);
      if SilentTail(body) {
        StandardSame<E>(r.f, body, sc, counters);
      }
    }
  }

  lemma ScriptCompiled<E(!new)>(r: Compiled, s: Verifier.Source, upvalues: nat)
    requires r.Compiled? && s.script && ListErrors(s.body, NoControl) == []
    requires ScopeFits(s.scope, s.user, upvalues) && s.params <= s.user && s.start.consts == [] && Wf(s.start, s.user)
    requires var g := Verifier.Generated(s);
             r.f == Function(g.code, g.tabs.consts, s.user) && r.slots == g.tabs.count
    ensures RunsAsScript<E>(r.f, s.body, s.scope) && Verifier.ValidModule(Entry(r, s.params, upvalues))
    ensures exists ds :: DepthEverywhere<E>(r.f, ds)
  {
    hide ListErrors, Verifier.ValidModule, DepthEverywhere, GenFunction, GenScript, RunScript, Reaches;
    BodyAccepted(s.body);
    forall h: Host<E>, t: Temps, env: E, q: Result<E> | h.order.Emitted?
      ensures EndsWith(r.f, h, t, env, q)
              <==> exists fuel: nat :: RunScript(s.body, Undefined, s.scope, h, env, fuel) == Some(q)
    {
      ScriptCorrect(Ctx(r.f, h, s.scope), s.body, s.start, t, env, q);
    }
    EntryValid(r, s, upvalues);
    Verifier.CompiledDepth<E>(Entry(r, s.params, upvalues), Entry(r, s.params, upvalues).main, s, r.f);
  }
}
