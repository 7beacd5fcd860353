/** What an import that fails does to a module that shares a dependency with its
    target. */
module EvalFailure {
  import opened Syntax
  import opened ModuleGraphs
  import opened EvalStates
  import opened EvalOrder
  import opened EvalTrack
  import opened EvalShield
  import opened EvalScript
  import opened EvalSteps

  /** The import has begun its target and everything that the target needs. */
  ghost predicate ImportedWell(s: EvalState, t: EvalState, target: nat) {
    && target < |t.status| && !NotBegun(t.status[target]) && t.status[target] != Errored
    && NothingNew(s, t) && Grew(s, t)
  }

  /** The import has failed because some module throws. */
  ghost predicate ImportedBadly(plan: Plan, s: EvalState, t: EvalState, target: nat) {
    && |t.status| == |s.status| && target < |t.status| && t.status[target] == Errored
    && (forall m :: 0 <= m < |t.status| && m != target && t.status[m] == Errored ==> s.status[m] == Errored)
    && exists m: nat :: m in plan.throws && m < |t.status| && (m == target || t.status[m] == Evaluating)
  }

  /** Nothing has been left under way; two modules that share a late dependency
      are about to be imported, and that dependency throws. */
  ghost predicate Brewing(pr: Program, plan: Plan, x: nat, s: EvalState) {
    && |plan.imports| == 2 && plan.held == {} && |pr.deps| == |s.status| && NoneFailed(s)
    && SharesLate(pr, plan.imports[0], x, plan.imports[1]) && plan.throws == {pr.deps[plan.imports[0]][x]}
    && pr.deps[plan.imports[0]][x] < |s.status|
    && s.status[plan.imports[0]] == Linked && s.status[plan.imports[1]] == Linked
  }

  /** The first import has failed and the second module has not begun. */
  ghost predicate Burnt(pr: Program, plan: Plan, x: nat, s: EvalState) {
    && |plan.imports| == 2 && plan.held == {} && |pr.deps| == |s.status|
    && SharesLate(pr, plan.imports[0], x, plan.imports[1]) && plan.throws == {pr.deps[plan.imports[0]][x]}
    && pr.deps[plan.imports[0]][x] < |s.status|
    && s.status[pr.deps[plan.imports[0]][x]] == Evaluating && s.status[plan.imports[1]] == Linked
    && forall m :: 0 <= m < |s.status| && s.status[m] == Errored ==> m == plan.imports[0]
  }

  lemma BrewingLinked(pr: Program, plan: Plan, x: nat, s: EvalState)
    requires Brewing(pr, plan, x, s)
    ensures |plan.imports| > 0 && plan.imports[0] < |s.status| && s.status[plan.imports[0]] == Linked
  {
  }

  lemma BurntLinked(pr: Program, plan: Plan, x: nat, s: EvalState)
    requires Burnt(pr, plan, x, s)
    ensures |plan.imports| > 1 && plan.imports[1] < |s.status| && s.status[plan.imports[1]] == Linked
  {
  }

  lemma BrewingUnbarred(pr: Program, plan: Plan, x: nat, s: EvalState, woken: set<nat>, asleep: set<nat>)
    requires Brewing(pr, plan, x, s) && Played(s, plan, woken, asleep, {})
    ensures Unbarred(pr, s, plan.imports[0])
  {
    hide Reaches, SharesLate;
  }

  /** The import of the first cannot go well. */
  lemma BrewingFails(pr: Program, plan: Plan, x: nat, s: EvalState, t: EvalState, woken: set<nat>, asleep: set<nat>)
    requires Brewing(pr, plan, x, s) && Tracked(pr, t, {}, {}) && Played(t, plan, woken, asleep, {})
    ensures !ImportedWell(s, t, plan.imports[0])
  {
    hide Reaches, Blamed, Listed;
    var T := plan.imports[0];
    var d := pr.deps[T][x];
    assert t.status[T] == Evaluated ==> DepsBegun(pr, t, T);
    assert !Finished(t, d);
  }

  /** It leaves the shared dependency under way, and the other module untouched. */
  lemma BrewingBurns(pr: Program, plan: Plan, x: nat, s: EvalState, t: EvalState, woken: set<nat>, asleep: set<nat>,
                     broken: set<nat>, entry: Option<nat>)
    requires Brewing(pr, plan, x, s) && Played(t, plan, woken, asleep, {}) && Acyclic(pr, plan.rank)
    requires ImportedBadly(plan, s, t, plan.imports[0])
    requires Clean(pr, t, broken, entry)
    requires forall m :: 0 <= m < |t.status| && t.status[m] == Evaluating ==> m in broken
    ensures Burnt(pr, plan, x, t)
  {
    hide Reaches, Closed, StuckUnder, Acyclic;
    var T, Q := plan.imports[0], plan.imports[1];
    var d := pr.deps[T][x];
    RankBelow(pr, plan.rank, T, x);
    RankOf(pr, plan.rank, Q, d);
    assert t.status[d] == Evaluating;
    NotPassed(pr, t, broken, d);
    if Passed(t, Q) {
      PassedDep(pr, t, Q, d);
    }
    if t.status[Q] == Evaluating {
      var y := TrailFrom(pr, plan.rank, t, broken, T, Q);
      if y == x {
        ReachesRank(pr, plan.rank, d, Q);
      }
    }
  }

  lemma RankBelow(pr: Program, rank: seq<nat>, T: nat, x: nat)
    requires Acyclic(pr, rank) && T < |pr.deps| && x < |pr.deps[T]|
    ensures pr.deps[T][x] != T
  {
    RankOf(pr, rank, T, pr.deps[T][x]);
  }

  lemma RankOf(pr: Program, rank: seq<nat>, Q: nat, d: nat)
    requires Acyclic(pr, rank) && Q < |pr.deps| && d in pr.deps[Q]
    ensures d < |rank| && Q < |rank| && rank[d] < rank[Q]
  {
  }

  lemma PassedDep(pr: Program, s: EvalState, m: nat, d: nat)
    requires Closed(pr, s) && Passed(s, m) && m < |pr.deps| && d in pr.deps[m]
    ensures Passed(s, d)
  {
  }

  /** Nothing stops the second import. */
  lemma BurntClear(pr: Program, plan: Plan, x: nat, s: EvalState, woken: set<nat>, asleep: set<nat>)
    requires Burnt(pr, plan, x, s) && Played(s, plan, woken, asleep, {})
    ensures Clear(pr, plan, s, plan.imports[1])
  {
    hide Reaches;
  }

  lemma ClearUnbarred(pr: Program, plan: Plan, s: EvalState, i: nat)
    ensures Clear(pr, plan, s, i) ==> Unbarred(pr, s, i)
  {
    hide Reaches;
  }

  /** Its body starts. */
  lemma BurntStarts(pr: Program, plan: Plan, x: nat, s: EvalState, t: EvalState, woken: set<nat>, asleep: set<nat>)
    requires Burnt(pr, plan, x, s) && ImportedWell(s, t, plan.imports[1])
    requires Tracked(pr, t, {}, {}) && Played(t, plan, woken, asleep, {}) && ProgramOk(pr, |s.status|)
    ensures Started(t, plan.imports[1])
  {
    hide Reaches, Explored, Blamed, Listed;
    var Q := plan.imports[1];
    assert t.status[Q] == Evaluated && Finished(t, Q) && FinishedWell(pr, t, Q);
  }
}
