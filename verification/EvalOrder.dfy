/** The order in which module bodies start: a body starts only after all its
    dependencies have finished, or been abandoned by an import that failed. */
module EvalOrder {
  import opened Syntax
  import opened ModuleGraphs
  import opened EvalStates

  /** The evaluation-phase dependencies of each module, without repetition;
      the synthetic JSON modules; the modules with a top-level await. */
  datatype Program = Program(deps: seq<seq<nat>>, json: set<nat>, awaits: set<nat>)

  ghost predicate ProgramOk(pr: Program, n: nat) {
    && |pr.deps| == n
    && (forall m, x :: 0 <= m < n && 0 <= x < |pr.deps[m]| ==> pr.deps[m][x] < n)
    && (forall m, x, y :: 0 <= m < n && 0 <= x < y < |pr.deps[m]| ==> pr.deps[m][x] != pr.deps[m][y])
    && (forall m :: m in pr.json ==> m !in pr.awaits && (m < n ==> pr.deps[m] == []))
  }

  /** Every module ranks above its dependencies. */
  ghost predicate Acyclic(pr: Program, rank: seq<nat>) {
    && |rank| == |pr.deps|
    && (forall m, d :: 0 <= m < |pr.deps| && d in pr.deps[m] ==> d < |rank| && rank[d] < rank[m])
  }

  // ----- the modules that suspend -----

  ghost predicate DepPath(pr: Program, p: seq<nat>) {
    && |p| > 0 && (forall x :: 0 <= x < |p| ==> p[x] < |pr.deps|)
    && (forall x :: 0 <= x < |p| - 1 ==> p[x + 1] in pr.deps[p[x]])
  }

  /** Some module that `m` depends on, however far away, has a top-level await. */
  ghost predicate AwaitBelow(pr: Program, m: nat) {
    exists p :: DepPath(pr, p) && |p| > 1 && p[0] == m && p[|p| - 1] in pr.awaits
  }

  lemma BelowDirect(pr: Program, m: nat, d: nat)
    requires m < |pr.deps| && d < |pr.deps| && d in pr.deps[m] && d in pr.awaits
    ensures AwaitBelow(pr, m)
  {
    assert DepPath(pr, [m, d]);
  }

  lemma BelowThrough(pr: Program, m: nat, d: nat)
    requires m < |pr.deps| && d in pr.deps[m] && AwaitBelow(pr, d)
    ensures AwaitBelow(pr, m)
  {
    var p: seq<nat> :| DepPath(pr, p) && |p| > 1 && p[0] == d && p[|p| - 1] in pr.awaits;
    var q := [m] + p;
    forall x | 0 <= x < |q| - 1 ensures q[x + 1] in pr.deps[q[x]] {
      if x > 0 {
        var y := x - 1;
        assert p[y + 1] in pr.deps[p[y]];
      }
    }
    assert DepPath(pr, q);
  }

  lemma NoAwaitBelow(pr: Program, m: nat)
    requires pr.awaits == {}
    ensures !AwaitBelow(pr, m)
  {
  }

  ghost predicate Imported(pr: Program, m: nat) {
    exists q :: 0 <= q < |pr.deps| && m in pr.deps[q]
  }

  /** A module with a top-level await that depends on another one, however far
      away, has no importer. */
  ghost predicate AwaitsApart(pr: Program) {
    forall m :: m in pr.awaits && AwaitBelow(pr, m) ==> !Imported(pr, m)
  }

  // ----- the order -----

  ghost predicate Finished(s: EvalState, m: nat) {
    Finish(m) in s.events
  }

  /** The dependencies of `m` have finished; `broken` are modules that failed
      imports have abandoned. */
  ghost predicate DepsDone(pr: Program, s: EvalState, m: nat, broken: set<nat>)
    requires m < |pr.deps|
  {
    forall d :: d in pr.deps[m] ==> Finished(s, d) || d in broken
  }

  /** Every start has the end of every dependency before it, and every end of
      a body has its start before it. */
  ghost predicate Ordered(pr: Program, events: seq<Event>, broken: set<nat>) {
    forall x :: 0 <= x < |events| ==> OrderedAt(pr, events, broken, x)
  }

  ghost predicate OrderedAt(pr: Program, events: seq<Event>, broken: set<nat>, x: nat)
    requires x < |events|
  {
    match events[x]
    case Start(m) => m < |pr.deps| && forall d :: d in pr.deps[m] ==> Finish(d) in events[..x] || d in broken
    case Finish(m) => m in pr.json || Start(m) in events[..x]
  }

  /** When the modules `broken` never finish, starts come after all their
      dependencies exactly if no module that started depends on a broken one. */
  lemma OrderedExactly(pr: Program, events: seq<Event>, broken: set<nat>)
    requires Ordered(pr, events, broken) && forall d :: d in broken ==> Finish(d) !in events
    ensures Ordered(pr, events, {}) <==>
            forall m, d :: 0 <= m < |pr.deps| && d in pr.deps[m] && Start(m) in events ==> d !in broken
  {
    if Ordered(pr, events, {}) {
      forall m, d | 0 <= m < |pr.deps| && d in pr.deps[m] && Start(m) in events ensures d !in broken {
        var x :| 0 <= x < |events| && events[x] == Start(m);
        assert OrderedAt(pr, events, {}, x);
      }
    }
    if forall m, d :: 0 <= m < |pr.deps| && d in pr.deps[m] && Start(m) in events ==> d !in broken {
      forall x | 0 <= x < |events| ensures OrderedAt(pr, events, {}, x) {
        assert OrderedAt(pr, events, broken, x) && events[x] in events;
      }
    }
  }

  /** A dependency that a waiting module need not worry about: it has
      finished, or it comes first in the asynchronous order and will release
      the module. */
  ghost predicate Covered(s: EvalState, avail: set<nat>, broken: set<nat>, p: nat, d: nat) {
    Finished(s, d) || d in broken
    || (d < |s.order| && p < |s.order| && s.order[d].Some? && s.order[p].Some? && s.order[d].value < s.order[p].value
        && ((d < |s.parents| && p in s.parents[d]) || d in avail))
  }

  ghost predicate Waits(s: EvalState, p: nat) {
    p < |s.status| && s.status[p] == EvaluatingAsync && !Started(s, p)
  }

  /** `avail` are the modules that have just been released. */
  ghost predicate Tidy(pr: Program, s: EvalState, avail: set<nat>, broken: set<nat>) {
    && Shaped(s) && |pr.deps| == |s.status|
    && Ordered(pr, s.events, broken)
    && (forall m :: 0 <= m < |s.status| && s.status[m] == Evaluated ==> Finished(s, m))
    && (forall m :: 0 <= m < |s.order| && s.order[m].Some? ==> s.order[m].value < s.nextOrder)
    && (forall m :: 0 <= m < |s.status| && BeforeWaiting(s.status[m]) ==> s.order[m] == None)
    && (forall p: nat, d: nat :: Waits(s, p) && d in pr.deps[p] ==> Covered(s, avail, broken, p, d))
    && (forall m :: 0 <= m < |s.status| && s.status[m] == EvaluatingAsync ==> s.order[m].Some?)
  }

  /** More modules may be abandoned. */
  lemma TidyBroken(pr: Program, s: EvalState, avail: set<nat>, broken: set<nat>, more: set<nat>)
    requires Tidy(pr, s, avail, broken) && broken <= more
    ensures Tidy(pr, s, avail, more)
  {
    OrderedMore(pr, s.events, broken, more);
  }

  lemma OrderedMore(pr: Program, events: seq<Event>, broken: set<nat>, more: set<nat>)
    requires Ordered(pr, events, broken) && broken <= more
    ensures Ordered(pr, events, more)
  {
    forall x | 0 <= x < |events| ensures OrderedAt(pr, events, more, x) {
      assert OrderedAt(pr, events, broken, x);
    }
  }

  // ----- the order survives every change -----

  lemma EventOrdered(pr: Program, events: seq<Event>, e: Event, broken: set<nat>)
    requires Ordered(pr, events, broken)
    requires e.Start? ==> e.m < |pr.deps| && forall d :: d in pr.deps[e.m] ==> Finish(d) in events || d in broken
    requires e.Finish? ==> e.m in pr.json || Start(e.m) in events
    ensures Ordered(pr, events + [e], broken)
  {
    var all := events + [e];
    forall x | 0 <= x < |all| ensures OrderedAt(pr, all, broken, x) {
      if x < |events| {
        assert OrderedAt(pr, events, broken, x) && all[..x] == events[..x];
      } else {
        assert all[..x] == events;
      }
    }
  }

  lemma TidyEvaluating(pr: Program, s: EvalState, i: nat, broken: set<nat>)
    requires Tidy(pr, s, {}, broken) && i < |s.status| && s.status[i] == Linked
    ensures Tidy(pr, WithStatus(s, i, Evaluating), {}, broken)
  {
    hide Ordered;
    var t := WithStatus(s, i, Evaluating);
    assert forall p: nat :: Waits(t, p) ==> Waits(s, p);
    assert forall p: nat, d: nat :: Covered(s, {}, broken, p, d) ==> Covered(t, {}, broken, p, d);
  }

  /** Outside the asynchronous order there is no asynchronous module. */
  lemma OrderIfAsync(pr: Program, s: EvalState, broken: set<nat>, i: nat)
    requires Tidy(pr, s, {}, broken) && i < |s.status|
    requires s.status[i] == Evaluating || s.status[i] == EvaluatingAsync
    ensures i < |s.order| && (s.order[i].Some? <==> s.status[i] == EvaluatingAsync)
  {
    hide Ordered, Covered;
  }

  lemma TidyErrored(pr: Program, s: EvalState, i: nat, broken: set<nat>)
    requires Tidy(pr, s, {}, broken) && i < |s.status|
    ensures Tidy(pr, WithStatus(s, i, Errored), {}, broken)
  {
    hide Ordered;
    var t := WithStatus(s, i, Errored);
    assert forall p: nat :: Waits(t, p) ==> Waits(s, p);
    assert forall p: nat, d: nat :: Covered(s, {}, broken, p, d) ==> Covered(t, {}, broken, p, d);
  }

  lemma TidyWait(pr: Program, s: EvalState, i: nat, d: nat, broken: set<nat>)
    requires Tidy(pr, s, {}, broken) && i < |s.status| && d < |s.status| && s.status[i] == Evaluating && d in pr.deps[i]
    ensures Tidy(pr, WithWait(s, i, d), {}, broken)
  {
    hide Ordered;
    var t := WithWait(s, i, d);
    assert forall p: nat :: Waits(t, p) ==> Waits(s, p);
    assert forall m :: 0 <= m < |s.parents| ==> forall p: nat :: p in s.parents[m] ==> p in t.parents[m];
    assert forall p: nat, d': nat :: Covered(s, {}, broken, p, d') ==> Covered(t, {}, broken, p, d');
  }

  /** Entering the asynchronous order, once. */
  function WithAsync(s: EvalState, i: nat): EvalState
    requires i < |s.status| && i < |s.order|
  {
    var t := s.(status := s.status[i := EvaluatingAsync]);
    if s.order[i].None? then t.(order := s.order[i := Some(s.nextOrder)], nextOrder := s.nextOrder + 1) else t
  }

  /** A module that waits for its asynchronous dependencies. */
  lemma TidyAsyncWaiting(pr: Program, s: EvalState, i: nat, broken: set<nat>)
    requires Tidy(pr, s, {}, broken) && i < |s.status| && s.status[i] == Evaluating
    requires forall d :: d in pr.deps[i] ==>
               d < |s.status| && (s.status[d] == Evaluated || (s.status[d] == EvaluatingAsync && i in s.parents[d])
                                  || d in broken)
    ensures Tidy(pr, WithAsync(s, i), {}, broken)
  {
    hide Ordered;
    var t := WithAsync(s, i);
    assert t.order[i] == Some(s.nextOrder);
    forall p: nat, d: nat | Waits(t, p) && d in pr.deps[p] ensures Covered(t, {}, broken, p, d) {
      if p != i {
        assert Waits(s, p) && Covered(s, {}, broken, p, d);
        AsyncCovered(s, i, {}, broken, p, d);
      }
    }
  }

  lemma AsyncCovered(s: EvalState, i: nat, avail: set<nat>, broken: set<nat>, p: nat, d: nat)
    requires i < |s.status| && i < |s.order| && Covered(s, avail, broken, p, d)
    ensures Covered(WithAsync(s, i), avail, broken, p, d)
  {
  }

  /** A started module that has suspended. */
  lemma TidyAsyncStarted(pr: Program, s: EvalState, i: nat, avail: set<nat>, broken: set<nat>)
    requires Tidy(pr, s, avail, broken) && i < |s.status| && Started(s, i)
    ensures Tidy(pr, WithAsync(s, i), avail, broken)
  {
    hide Ordered;
    var t := WithAsync(s, i);
    forall p: nat, d: nat | Waits(t, p) && d in pr.deps[p] ensures Covered(t, avail, broken, p, d) {
      assert Waits(s, p) && Covered(s, avail, broken, p, d);
      AsyncCovered(s, i, avail, broken, p, d);
    }
  }

  lemma TidyStart(pr: Program, s: EvalState, i: nat, avail: set<nat>, broken: set<nat>)
    requires Tidy(pr, s, avail, broken) && i < |s.status| && DepsDone(pr, s, i, broken)
    ensures Tidy(pr, WithEvent(s, Start(i)), avail, broken)
  {
    EventOrdered(pr, s.events, Start(i), broken);
    hide Ordered;
    var t := WithEvent(s, Start(i));
    assert forall m :: Finished(s, m) ==> Finished(t, m);
    assert forall p: nat :: Waits(t, p) ==> Waits(s, p);
    assert forall p: nat, d: nat :: Covered(s, avail, broken, p, d) ==> Covered(t, avail, broken, p, d);
  }

  /** The end of a body: the event and the status together. */
  function WithFinish(s: EvalState, i: nat): EvalState
    requires i < |s.status|
  {
    WithEvent(WithStatus(s, i, Evaluated), Finish(i))
  }

  lemma TidyFinish(pr: Program, s: EvalState, i: nat, avail: set<nat>, broken: set<nat>)
    requires Tidy(pr, s, avail, broken) && i < |s.status| && (i in pr.json || Started(s, i))
    ensures Tidy(pr, WithFinish(s, i), avail, broken)
  {
    EventOrdered(pr, s.events, Finish(i), broken);
    hide Ordered;
    var t := WithFinish(s, i);
    assert forall m :: Finished(s, m) ==> Finished(t, m);
    assert forall p: nat :: Waits(t, p) ==> Waits(s, p);
    assert forall p: nat, d: nat :: Covered(s, avail, broken, p, d) ==> Covered(t, avail, broken, p, d);
  }

  lemma TidyTaken(pr: Program, s: EvalState, i: nat, avail: set<nat>, broken: set<nat>)
    requires Tidy(pr, s, avail, broken) && i < |s.status| && (Finished(s, i) || i in avail)
    ensures Tidy(pr, WithTaken(s, i), avail, broken)
  {
    hide Ordered;
    var t := WithTaken(s, i);
    assert forall p: nat :: Waits(t, p) ==> Waits(s, p);
    assert forall p: nat, d: nat :: Covered(s, avail, broken, p, d) ==> Covered(t, avail, broken, p, d);
  }

  /** A notice, and the release of a module that it was the last one for. */
  lemma TidyNotice(pr: Program, s: EvalState, p: nat, avail: set<nat>, broken: set<nat>)
    requires Tidy(pr, s, avail, broken) && p < |s.status|
    ensures var t := WithNotice(s, p);
            Tidy(pr, t, if t.pending[p] == 0 && t.status[p] == EvaluatingAsync then avail + {p} else avail, broken)
  {
    hide Ordered;
    var t := WithNotice(s, p);
    var more := if t.pending[p] == 0 && t.status[p] == EvaluatingAsync then avail + {p} else avail;
    assert forall q: nat :: Waits(t, q) ==> Waits(s, q);
    assert forall q: nat, d: nat :: Covered(s, avail, broken, q, d) ==> Covered(t, more, broken, q, d);
  }

  /** Released modules need no more attention once they have finished or if
      nobody imports them. */
  lemma TidyReleased(pr: Program, s: EvalState, avail: set<nat>, broken: set<nat>)
    requires Tidy(pr, s, avail, broken) && forall p: nat :: p in avail ==> Finished(s, p) || !Imported(pr, p)
    ensures Tidy(pr, s, {}, broken)
  {
    hide Ordered;
    forall p: nat, d: nat | Waits(s, p) && d in pr.deps[p] ensures Covered(s, {}, broken, p, d) {
      assert Covered(s, avail, broken, p, d) && Imported(pr, d);
    }
  }

  // ----- complete runs -----

  /** When a module has finished, so have all modules it depends on, however
      far away. */
  lemma {:induction false} AllFinished(pr: Program, events: seq<Event>, p: seq<nat>, x: nat)
    requires Ordered(pr, events, {}) && DepPath(pr, p) && x < |p| && Finish(p[0]) in events
    requires forall m :: m in pr.json && m < |pr.deps| ==> pr.deps[m] == []
    ensures Finish(p[x]) in events
    decreases x
  {
    if x > 0 {
      AllFinished(pr, events, p, x - 1);
      var m := p[x - 1];
      assert p[x - 1 + 1] in pr.deps[m];
      var f :| 0 <= f < |events| && events[f] == Finish(m);
      assert OrderedAt(pr, events, {}, f);
      var b :| 0 <= b < |events[..f]| && events[..f][b] == Start(m);
      assert OrderedAt(pr, events, {}, b);
    }
  }

  /** A body that has finished was started exactly once. */
  lemma StartedOnce(pr: Program, events: seq<Event>, broken: set<nat>, m: nat)
    requires Ordered(pr, events, broken) && OnceEach(events) && Finish(m) in events && m !in pr.json
    ensures StartsOnce(events, m)
  {
    var f :| 0 <= f < |events| && events[f] == Finish(m);
    assert OrderedAt(pr, events, broken, f);
    var b :| 0 <= b < |events[..f]| && events[..f][b] == Start(m);
    assert events[b] == Start(m);
  }

  ghost predicate StartsOnce(events: seq<Event>, m: nat) {
    && (exists x :: 0 <= x < |events| && events[x] == Start(m))
    && (forall x, y :: 0 <= x < |events| && 0 <= y < |events| && events[x] == events[y] == Start(m) ==> x == y)
  }
}
