/** Programs whose modules start out of order: wherever a module with a
    top-level await depends on another one and has an importer, some host makes
    the importer start first. */
module EvalOutOfOrder {
  import opened Syntax
  import opened ModuleGraphs
  import opened EvalStates
  import opened EvalOrder
  import opened EvalTrack
  import opened EvalShield
  import opened EvalScript
  import opened EvalSteps
  import opened Evaluator

  function Holding(rank: seq<nat>, p: nat, d: nat): Plan {
    Plan(rank, {p, d}, d, {}, [])
  }

  /** Suspends `p` and `d` when they begin; wakes `d`. */
  function HoldingHost(p: nat, d: nat): (h: Host)
    ensures forall rank :: Follows(h, Holding(rank, p, d))
  {
    Host((t, i) => if i == p || i == d then Suspended else Completed, (t, i) => Completed, t => true, t => [],
         t => NoJobs,
         (t, i) => i == d, t => true)
  }

  /** `q` imports `p`, which has a top-level await and depends, along `path`, on
      another module that has one. */
  ghost predicate Chain(pr: Program, rank: seq<nat>, path: seq<nat>, q: nat) {
    && ProgramOk(pr, |pr.deps|) && Acyclic(pr, rank) && DepPath(pr, path) && |path| > 1
    && path[0] in pr.awaits && path[|path| - 1] in pr.awaits && q < |pr.deps| && path[0] in pr.deps[q]
  }

  /** Programs in which awaits are not apart have such a chain. */
  lemma HasChain(pr: Program, rank: seq<nat>)
    returns (path: seq<nat>, q: nat)
    requires ProgramOk(pr, |pr.deps|) && Acyclic(pr, rank) && !AwaitsApart(pr)
    ensures Chain(pr, rank, path, q)
  {
    var p :| p in pr.awaits && AwaitBelow(pr, p) && Imported(pr, p);
    q :| 0 <= q < |pr.deps| && p in pr.deps[q];
    path :| DepPath(pr, path) && |path| > 1 && path[0] == p && path[|path| - 1] in pr.awaits;
  }

  lemma {:induction false} RankBelow(pr: Program, rank: seq<nat>, path: seq<nat>, x: nat)
    requires Acyclic(pr, rank) && DepPath(pr, path) && 0 < x < |path|
    ensures rank[path[x]] < rank[path[0]]
    decreases x
  {
    var y := x - 1;
    assert path[y + 1] in pr.deps[path[y]];
    if y > 0 {
      RankBelow(pr, rank, path, y);
    }
  }

  // ----- after the first call -----

  /** The state when `q` has been entered and nothing has been resumed. */
  ghost predicate Entered(pr: Program, rank: seq<nat>, path: seq<nat>, q: nat, s: EvalState, asleep: set<nat>) {
    && Chain(pr, rank, path, q) && Inv(s, NoDrain) && Tracked(pr, s, {}, {})
    && Ordered(pr, s.events, {}) && NoneFailed(s)
    && Played(s, Holding(rank, path[0], path[|path| - 1]), {}, asleep, {}) && q < |s.status| && Through(s.status[q])
  }

  lemma EnteredFacts(pr: Program, rank: seq<nat>, path: seq<nat>, q: nat, s: EvalState, asleep: set<nat>)
    requires Entered(pr, rank, path, q, s, asleep)
    ensures |pr.deps| == |s.status| == |s.parents| && path[0] != path[|path| - 1]
    ensures !Finished(s, path[0]) && !Finished(s, path[|path| - 1])
    ensures forall m: nat :: NotifiesLater(s, m) ==> m in asleep && (m == path[0] || m == path[|path| - 1])
    ensures forall m: nat :: m < |s.status| && s.status[m] == Evaluated ==> Finished(s, m)
  {
    hide Waiting, Explored, Blamed, Listed, Ordered;
    RankBelow(pr, rank, path, |path| - 1);
  }

  /** Everything on the way down from `q` has been gone through. */
  lemma PathThrough(pr: Program, rank: seq<nat>, path: seq<nat>, q: nat, s: EvalState, asleep: set<nat>)
    requires Entered(pr, rank, path, q, s, asleep)
    ensures forall x :: 0 <= x < |path| ==> path[x] < |s.status| && Through(s.status[path[x]])
  {
    hide Inv, Tracked, Played, Ordered, Acyclic, Through, ProgramOk;
    var down := [q] + path;
    assert forall x :: 0 <= x < |path| ==> down[x + 1] == path[x];
    forall x | 0 <= x < |down| - 1 ensures down[x + 1] in pr.deps[down[x]] {
      if x > 0 {
        var y := x - 1;
        assert path[y + 1] in pr.deps[path[y]];
      }
    }
    assert DepPath(pr, down);
    forall x | 0 <= x < |path| ensures path[x] < |s.status| && Through(s.status[path[x]]) {
      Reached(pr, s, down, x + 1);
    }
  }

  /** The lower of the two held modules has started and suspended. */
  lemma LowerSuspended(pr: Program, rank: seq<nat>, path: seq<nat>, q: nat, s: EvalState, asleep: set<nat>)
    requires Entered(pr, rank, path, q, s, asleep)
    ensures var d := path[|path| - 1]; d < |s.status| && s.status[d] == EvaluatingAsync && d in asleep
  {
    hide Inv, Tracked, Played, Ordered, DepPath, ProgramOk;
    var p, d := path[0], path[|path| - 1];
    EnteredFacts(pr, rank, path, q, s, asleep);
    PathThrough(pr, rank, path, q, s, asleep);
    RankBelow(pr, rank, path, |path| - 1);
    NobodyWaits(pr, s, Holding(rank, p, d), {}, asleep, rank[d], d);
    assert NotifiesLater(s, d);
  }

  /** What has started in order has the end of all that it depends on before it. */
  lemma LowerFinished(pr: Program, events: seq<Event>, path: seq<nat>)
    requires ProgramOk(pr, |pr.deps|) && Ordered(pr, events, {}) && DepPath(pr, path) && |path| > 1
    requires Start(path[0]) in events
    ensures Finish(path[|path| - 1]) in events
  {
    hide Ordered;
    assert path[0 + 1] in pr.deps[path[0]];
    DirectFinished(pr, events, path[1], path[0]);
    RestOfPath(pr, path);
    JsonLeaves(pr);
    AllFinished(pr, events, path[1..], |path| - 2);
  }

  lemma DirectFinished(pr: Program, events: seq<Event>, p: nat, q: nat)
    requires Ordered(pr, events, {}) && q < |pr.deps| && p in pr.deps[q] && Start(q) in events
    ensures Finish(p) in events
  {
    var x :| 0 <= x < |events| && events[x] == Start(q);
    assert OrderedAt(pr, events, {}, x);
  }

  /** The upper one has not started: the lower one is still suspended. */
  lemma UpperWaits(pr: Program, rank: seq<nat>, path: seq<nat>, q: nat, s: EvalState, asleep: set<nat>)
    requires Entered(pr, rank, path, q, s, asleep)
    ensures !Started(s, path[0])
  {
    hide Inv, Tracked, Played, Acyclic, Through, Ordered, DepPath;
    EnteredFacts(pr, rank, path, q, s, asleep);
    if Started(s, path[0]) {
      LowerFinished(pr, s.events, path);
    }
  }

  lemma RestOfPath(pr: Program, path: seq<nat>)
    requires DepPath(pr, path) && |path| > 1
    ensures DepPath(pr, path[1..])
  {
    var rest := path[1..];
    forall x | 0 <= x < |rest| - 1 ensures rest[x + 1] in pr.deps[rest[x]] {
      var y := x + 1;
      assert path[y + 1] in pr.deps[path[y]];
    }
  }

  lemma JsonLeaves(pr: Program)
    requires ProgramOk(pr, |pr.deps|)
    ensures forall m :: m in pr.json && m < |pr.deps| ==> pr.deps[m] == []
  {
  }

  // ----- after the first turn -----

  /** The lower held module has been resumed to its end. */
  ghost predicate Woken(pr: Program, rank: seq<nat>, path: seq<nat>, q: nat, s: EvalState, t: EvalState,
                        asleep: set<nat>, after: set<nat>)
  {
    && Entered(pr, rank, path, q, s, asleep) && Resumed(s, t, path[|path| - 1])
    && Inv(t, NoDrain) && Tracked(pr, t, {}, {}) && NoneFailed(t)
    && Played(t, Holding(rank, path[0], path[|path| - 1]), {path[|path| - 1]}, after, {})
  }

  /** Now the importer has started while the module that it imports is suspended. */
  lemma ImporterStarted(pr: Program, rank: seq<nat>, path: seq<nat>, q: nat, s: EvalState, t: EvalState,
                        asleep: set<nat>, after: set<nat>)
    requires Woken(pr, rank, path, q, s, t, asleep, after)
    ensures Started(t, q) && !Finished(t, path[0]) && !Ordered(pr, t.events, {})
  {
    hide Inv, Tracked, Entered, DepPath, Ordered;
    ChainOf(pr, rank, path, q, s, asleep);
    EnteredFacts(pr, rank, path, q, s, asleep);
    UpperWaits(pr, rank, path, q, s, asleep);
    NobodyNow(pr, rank, path, q, s, t, asleep, after);
    QueueStarted(pr, rank, path, q, s, t, asleep, after);
    if Ordered(pr, t.events, {}) {
      DirectFinished(pr, t.events, path[0], q);
    }
  }

  lemma ChainOf(pr: Program, rank: seq<nat>, path: seq<nat>, q: nat, s: EvalState, asleep: set<nat>)
    requires Entered(pr, rank, path, q, s, asleep)
    ensures Chain(pr, rank, path, q) && q < |s.status| && Through(s.status[q])
  {
  }

  /** Nobody waits any more. */
  lemma NobodyNow(pr: Program, rank: seq<nat>, path: seq<nat>, q: nat, s: EvalState, t: EvalState, asleep: set<nat>,
                  after: set<nat>)
    requires Woken(pr, rank, path, q, s, t, asleep, after) && Chain(pr, rank, path, q)
    requires !Started(s, path[0])
    ensures !Waits(t, q)
  {
    hide Inv, Tracked, Entered, DepPath;
    var p, d := path[0], path[|path| - 1];
    forall m | 0 <= m < |rank| && NotifiesLater(t, m) ensures t.parents[m] == [] {
      assert m in {p, d};
    }
    NobodyWaits(pr, t, Holding(rank, p, d), {d}, after, rank[q], q);
  }

  lemma QueueStarted(pr: Program, rank: seq<nat>, path: seq<nat>, q: nat, s: EvalState, t: EvalState, asleep: set<nat>,
                     after: set<nat>)
    requires Woken(pr, rank, path, q, s, t, asleep, after) && Chain(pr, rank, path, q) && !Waits(t, q)
    ensures Started(t, q)
  {
    hide Inv, Explored, Blamed, Listed, Ordered, DepPath, Acyclic;
    assert !NotBegun(t.status[q]);
    if t.status[q] == Evaluated {
      assert Finished(t, q) && FinishedWell(pr, t, q);
    }
  }

  /** A script has no failures to abandon modules. */
  lemma NothingFailed(s: EvalState, plan: Plan, woken: set<nat>, asleep: set<nat>, broken: set<nat>)
    requires OnlyBroken(s, broken) && Played(s, plan, woken, asleep, {}) && plan.throws == {}
    ensures NoneFailed(s)
  {
  }

  lemma BegunThrough(s: EvalState, q: nat)
    requires NoneFailed(s) && q < |s.status| && !NotBegun(s.status[q])
    ensures Through(s.status[q])
  {
  }

  /** The run: `q` is entered, and in the first turn of the loop the lower of
      the two suspended modules becomes ready. */
  method RunOutOfOrder(pr: Program, ghost rank: seq<nat>, p: nat, d: nat, q: nat, ghost path: seq<nat>)
    returns (e: ModuleEvaluator, r: RunResult)
    requires Chain(pr, rank, path, q) && path[0] == p && path[|path| - 1] == d
    ensures fresh(e) && e.program == pr && q < |pr.deps|
    ensures Started(e.State(), q) && !Finished(e.State(), p) && !Ordered(pr, e.events, {})
  {
    hide Inv, Tidy, Tracked, Played, Ordered, Acyclic, AwaitsApart, DepPath, OnlyBroken, Resumed, Follows, Through;
    hide NoneMissed, RanOnce, Reaches, NoneFailed, Clean, Shielded, Clear;
    var linked := seq(|pr.deps|, i => Linked);
    ghost var plan := Holding(rank, p, d);
    e := new ModuleEvaluator(linked, pr, HoldingHost(p, d), plan);
    ghost var first, asleep;
    r, first, asleep := e.Evaluate(q, 1);
    NothingFailed(first, plan, {}, asleep, {});
    BegunThrough(first, q);
    assert Entered(pr, rank, path, q, first, asleep);
    LowerSuspended(pr, rank, path, q, first, asleep);
    assert {} + {d} == {d};
    NothingFailed(e.State(), plan, {d}, e.suspended, e.ledger.abandoned);
    ImporterStarted(pr, rank, path, q, first, e.State(), asleep, e.suspended);
  }

  /** The smallest case: `q` imports `p`, `p` imports `d`, and the last two have
      a top-level await. */
  method ThreeModules() returns (e: ModuleEvaluator)
    ensures e.program == Program([[], [0], [1]], {}, {0, 1})
    ensures Started(e.State(), 2) && !Finished(e.State(), 1)
  {
    var pr := Program([[], [0], [1]], {}, {0, 1});
    ghost var path: seq<nat> := [1, 0];
    assert DepPath(pr, path);
    assert Chain(pr, [0, 1, 2], path, 2);
    var r;
    e, r := RunOutOfOrder(pr, [0, 1, 2], 1, 0, 2, path);
  }
}
