/** Runs in which a module starts after a dependency that a failed import has left
    under way: wherever a program is not shielded, some host makes one. */
module EvalAfterFailure {
  import opened Syntax
  import opened ModuleGraphs
  import opened EvalStates
  import opened EvalOrder
  import opened EvalTrack
  import opened EvalShield
  import opened EvalScript
  import opened EvalSteps
  import opened EvalFailure
  import opened Evaluator
  import opened EvalOutOfOrder

  /** Module `d` throws; `T` and then `Q` are imported dynamically. */
  function Failing(rank: seq<nat>, d: nat, T: nat, Q: nat): Plan {
    Plan(rank, {}, 0, {d}, [T, Q])
  }

  function FailingHost(d: nat, T: nat, Q: nat): (h: Host)
    ensures forall rank :: Follows(h, Failing(rank, d, T, Q))
  {
    Host((t, i) => if i == d then Threw else Completed, (t, i) => Completed, t => true,
         t => [Resolved(T), Resolved(Q)], t => NoJobs, (t, i) => i == 0, t => true)
  }

  /** Programs that are not shielded have such a pair. */
  lemma HasPair(pr: Program, entry: nat)
    returns (T: nat, x: nat, Q: nat)
    requires !Shielded(pr, entry)
    ensures Exposes(pr, entry, T, x, Q)
  {
    T, x, Q :| Exposes(pr, entry, T, x, Q);
  }

  /** What has not been linked or throws stands in nobody's way. */
  lemma FreshClear(pr: Program, s: EvalState, plan: Plan, entry: nat)
    requires forall m :: 0 <= m < |s.status| ==> s.status[m] == Linked
    requires forall m: nat :: m in plan.throws ==> !Reaches(pr, entry, m)
    ensures Clear(pr, plan, s, entry)
  {
    hide Reaches;
  }

  /** A module that needs what throws has not begun. */
  lemma NotBegunYet(pr: Program, s: EvalState, plan: Plan, woken: set<nat>, asleep: set<nat>, m: nat, d: nat)
    requires Tracked(pr, s, {}, {}) && Played(s, plan, woken, asleep, {}) && NoneFailed(s) && plan.held == {}
    requires m < |pr.deps| && d in pr.deps[m] && d in plan.throws
    ensures m < |s.status| && s.status[m] == Linked
  {
    hide Blamed, Listed;
    assert s.status[m] == Evaluated ==> DepsBegun(pr, s, m);
    assert !Finished(s, d);
  }

  lemma NowBrewing(pr: Program, s: EvalState, plan: Plan, woken: set<nat>, asleep: set<nat>, entry: nat, T: nat, x: nat,
                   Q: nat)
    requires ProgramOk(pr, |s.status|) && Exposes(pr, entry, T, x, Q)
    requires Tracked(pr, s, {}, {}) && Played(s, plan, woken, asleep, {})
    requires plan == Failing(plan.rank, pr.deps[T][x], T, Q) && OnlyBroken(s, {})
    requires forall m :: 0 <= m < |s.status| ==> s.status[m] != Errored
    ensures Brewing(pr, plan, x, s)
  {
    hide Reaches, Tracked, Played;
    assert NoneFailed(s);
    var d := pr.deps[T][x];
    NotBegunYet(pr, s, plan, woken, asleep, T, d);
    NotBegunYet(pr, s, plan, woken, asleep, Q, d);
  }

  lemma ThrownOpen(s: EvalState, plan: Plan, woken: set<nat>, asleep: set<nat>, d: nat)
    requires Played(s, plan, woken, asleep, {}) && d in plan.throws
    ensures !Finished(s, d)
  {
  }

  /** The run: the entry completes; the import of `T` fails because the shared
      dependency throws; the import of `Q` takes that dependency for done. */
  method RunAfterFailure(pr: Program, ghost rank: seq<nat>, entry: nat, T: nat, x: nat, Q: nat)
    returns (e: ModuleEvaluator, r: RunResult)
    requires ProgramOk(pr, |pr.deps|) && Acyclic(pr, rank) && entry < |pr.deps| && Exposes(pr, entry, T, x, Q)
    ensures fresh(e) && e.program == pr && !r.Failed?
    ensures Started(e.State(), Q) && !Finished(e.State(), pr.deps[T][x]) && !Ordered(pr, e.events, {})
  {
    hide Inv, Tidy, Tracked, Played, Ordered, Acyclic, AwaitsApart, OnlyBroken, Resumed, Follows, Through, Clean;
    hide NoneMissed, RanOnce, Reaches, NoneFailed, Clear, Shielded, Brewing;
    var linked := seq(|pr.deps|, i => Linked);
    var d := pr.deps[T][x];
    ghost var plan := Failing(rank, d, T, Q);
    e := new ModuleEvaluator(linked, pr, FailingHost(d, T, Q), plan);
    FreshClear(pr, e.State(), plan, entry);
    ghost var first, asleep;
    r, first, asleep := e.Evaluate(entry, 1);
    NowBrewing(pr, first, plan, {}, asleep, entry, T, x, Q);
    ThrownOpen(e.State(), plan, e.ledger.woken, e.suspended, d);
    if Ordered(pr, e.events, {}) {
      DirectFinished(pr, e.events, d, Q);
    }
  }

  /** The smallest case: 2 and 3 import 1, which throws; the entry is 0. */
  method FourModules() returns (e: ModuleEvaluator)
    ensures e.program == Program([[], [], [1], [1]], {}, {})
    ensures Started(e.State(), 3) && !Finished(e.State(), 1)
  {
    var pr := Program([[], [], [1], [1]], {}, {});
    FourExposed(pr);
    var r;
    e, r := RunAfterFailure(pr, [0, 0, 1, 1], 0, 2, 0, 3);
  }

  lemma FourExposed(pr: Program)
    requires pr == Program([[], [], [1], [1]], {}, {})
    ensures ProgramOk(pr, 4) && Acyclic(pr, [0, 0, 1, 1]) && Exposes(pr, 0, 2, 0, 3)
  {
    hide Reaches;
    FourRanks(pr);
    SameRank(pr, [0, 0, 1, 1], 3, 2);
    SameRank(pr, [0, 0, 1, 1], 0, 1);
  }

  lemma FourRanks(pr: Program)
    requires pr == Program([[], [], [1], [1]], {}, {})
    ensures Acyclic(pr, [0, 0, 1, 1])
  {
  }

  lemma SameRank(pr: Program, rank: seq<nat>, i: nat, j: nat)
    requires Acyclic(pr, rank) && i != j && i < |rank| && j < |rank| && rank[i] == rank[j]
    ensures !Reaches(pr, i, j)
  {
    hide Acyclic;
    if Reaches(pr, i, j) {
      ReachesRank(pr, rank, i, j);
    }
  }
}
