/** Runs in which the host follows a plan: chosen modules suspend and one of them
    resumes, or one module throws; and the wait chains that such a run leaves. */
module EvalScript {
  import opened Syntax
  import opened ModuleGraphs
  import opened EvalStates
  import opened EvalOrder
  import opened EvalTrack
  import opened EvalShield

  /** The ranks of an acyclic graph; the modules that suspend when they begin, and
      the one that is resumed to its end; the modules that throw when they begin;
      the modules that are imported dynamically. It serves the proofs only. */
  datatype Plan = Plan(rank: seq<nat>, held: set<nat>, wake: nat, throws: set<nat>, imports: seq<nat>)

  /** Only modules of the plan are suspended, and they finish only when woken;
      modules that throw do not finish. Modules in `exempt` are about to complete. */
  ghost predicate Played(s: EvalState, plan: Plan, woken: set<nat>, suspended: set<nat>, exempt: set<nat>) {
    && |s.parents| == |s.status|
    && (forall m :: 0 <= m < |s.status| && s.status[m] == EvaluatingAsync && Started(s, m) && m !in exempt ==>
          m in plan.held && m in suspended)
    && (forall m :: m in plan.held && Finished(s, m) ==> m in woken)
    && (forall m :: m in plan.throws ==> !Finished(s, m))
    && (forall m :: 0 <= m < |s.status| ==> s.status[m] != Unlinked && s.status[m] != Linking)
    && (plan.throws == {} ==> forall m :: 0 <= m < |s.status| ==> s.status[m] != Errored)
    && (plan.held == {} ==> Calm(s))
  }

  /** Nothing is asynchronous. */
  ghost predicate Calm(s: EvalState) {
    && |s.parents| == |s.status|
    && forall m :: 0 <= m < |s.status| ==> s.status[m] != EvaluatingAsync && s.parents[m] == []
  }

  lemma FreshPlayed(s: EvalState, plan: Plan)
    requires |s.parents| == |s.status| && s.events == []
    requires forall m :: 0 <= m < |s.status| ==> s.parents[m] == []
    ensures (forall m :: 0 <= m < |s.status| ==> s.status[m] == Linked) ==> Played(s, plan, {}, {}, {})
  {
  }

  lemma PlaySame(s: EvalState, t: EvalState, plan: Plan, woken: set<nat>, suspended: set<nat>, exempt: set<nat>)
    requires Played(s, plan, woken, suspended, exempt) && t.status == s.status && t.events == s.events
    requires |t.parents| == |s.parents|
    requires plan.held == {} ==> forall m :: 0 <= m < |s.parents| && s.parents[m] == [] ==> t.parents[m] == []
    ensures Played(t, plan, woken, suspended, exempt)
  {
    assert forall m: nat :: Started(t, m) <==> Started(s, m);
    assert forall m: nat :: Finished(t, m) <==> Finished(s, m);
  }

  lemma PlayWait(s: EvalState, t: EvalState, d: nat, plan: Plan, woken: set<nat>, suspended: set<nat>)
    requires Played(s, plan, woken, suspended, {}) && t.status == s.status && t.events == s.events
    requires d < |s.status| && s.status[d] == EvaluatingAsync && |t.parents| == |s.parents|
    ensures Played(t, plan, woken, suspended, {})
  {
    PlaySame(s, t, plan, woken, suspended, {});
  }

  lemma PlayEvaluating(s: EvalState, i: nat, plan: Plan, woken: set<nat>, suspended: set<nat>)
    requires Played(s, plan, woken, suspended, {}) && i < |s.status|
    ensures Played(WithStatus(s, i, Evaluating), plan, woken, suspended, {})
  {
    var t := WithStatus(s, i, Evaluating);
    assert forall m: nat :: Started(t, m) <==> Started(s, m);
    assert forall m: nat :: Finished(t, m) <==> Finished(s, m);
  }

  lemma PlayErrored(s: EvalState, i: nat, plan: Plan, woken: set<nat>, suspended: set<nat>)
    requires Played(s, plan, woken, suspended, {}) && i < |s.status| && plan.throws != {}
    ensures Played(WithStatus(s, i, Errored), plan, woken, suspended, {})
  {
    var t := WithStatus(s, i, Errored);
    assert forall m: nat :: Started(t, m) <==> Started(s, m);
    assert forall m: nat :: Finished(t, m) <==> Finished(s, m);
  }

  /** In a calm state nobody waits. */
  lemma CalmPending(s: EvalState, i: nat)
    requires Inv(s, NoDrain) && Calm(s) && i < |s.pending|
    ensures s.pending[i] == 0
  {
    hide Waiting;
    if s.pending[i] > 0 {
      assert s.pending[i] == Waiting(s.parents)[i] + NoDrain[i];
      WaitingFrom(s.parents, i);
    }
  }

  lemma PlayWaiting(s: EvalState, i: nat, plan: Plan, woken: set<nat>, suspended: set<nat>)
    requires Inv(s, NoDrain) && Played(s, plan, woken, suspended, {}) && i < |s.status| && i < |s.order|
    requires !Started(s, i) && i < |s.pending| && s.pending[i] > 0
    ensures Played(WithAsync(s, i), plan, woken, suspended, {})
  {
    hide Inv;
    if plan.held == {} {
      CalmPending(s, i);
    }
    var t := WithAsync(s, i);
    assert forall m: nat :: Started(t, m) <==> Started(s, m);
    assert forall m: nat :: Finished(t, m) <==> Finished(s, m);
  }

  lemma PlayStart(s: EvalState, i: nat, plan: Plan, woken: set<nat>, suspended: set<nat>)
    requires Played(s, plan, woken, suspended, {})
    ensures Played(WithEvent(s, Start(i)), plan, woken, suspended, {i})
  {
    var t := WithEvent(s, Start(i));
    assert forall m: nat :: Started(t, m) <==> Started(s, m) || m == i;
    assert forall m: nat :: Finished(t, m) <==> Finished(s, m);
  }

  lemma PlaySuspended(s: EvalState, i: nat, plan: Plan, woken: set<nat>, suspended: set<nat>)
    requires Played(s, plan, woken, suspended, {i}) && i < |s.status| && i < |s.order| && i in plan.held
    ensures Played(WithAsync(s, i), plan, woken, suspended + {i}, {})
  {
    var t := WithAsync(s, i);
    assert forall m: nat :: Started(t, m) <==> Started(s, m);
    assert forall m: nat :: Finished(t, m) <==> Finished(s, m);
  }

  lemma PlayFinish(s: EvalState, i: nat, plan: Plan, woken: set<nat>, suspended: set<nat>)
    requires Played(s, plan, woken, suspended, {i}) && i < |s.status|
    requires (i in plan.held ==> i in woken) && i !in plan.throws
    ensures Played(WithFinish(s, i), plan, woken, suspended, {})
  {
    var t := WithFinish(s, i);
    assert forall m: nat :: Started(t, m) <==> Started(s, m);
    assert forall m: nat :: Finished(t, m) <==> Finished(s, m) || m == i;
  }

  /** A suspended module is woken. */
  lemma PlayWoken(s: EvalState, i: nat, plan: Plan, woken: set<nat>, suspended: set<nat>)
    requires Played(s, plan, woken, suspended, {})
    ensures Played(s, plan, woken + {i}, suspended - {i}, {i})
  {
  }

  // ----- where an evaluation can go wrong -----

  /** The module has failed, or has not been linked. */
  predicate InTheWay(s: Status) {
    s == Errored || s == Unlinked || s == Linking
  }

  /** Nothing that `i` needs stands in the way. */
  ghost predicate Unbarred(pr: Program, s: EvalState, i: nat) {
    forall m: nat :: m < |s.status| && Reaches(pr, i, m) ==> !InTheWay(s.status[m])
  }

  /** And what throws has been begun. */
  ghost predicate Clear(pr: Program, plan: Plan, s: EvalState, i: nat) {
    && Unbarred(pr, s, i)
    && forall m: nat :: m < |s.status| && m in plan.throws && Reaches(pr, i, m) ==> !NotBegun(s.status[m])
  }

  /** Some module that throws has been left under way. */
  ghost predicate ThrewThere(plan: Plan, s: EvalState) {
    exists m: nat :: m in plan.throws && m < |s.status| && s.status[m] == Evaluating
  }

  // ----- chains of waiting modules -----

  /** Who waits does so for an asynchronous dependency. */
  lemma WaitsFor(pr: Program, s: EvalState, plan: Plan, woken: set<nat>, suspended: set<nat>, p: nat)
    returns (m: nat)
    requires Inv(s, NoDrain) && Tracked(pr, s, {}, {}) && Played(s, plan, woken, suspended, {}) && Waits(s, p)
    requires plan.throws == {}
    ensures p < |pr.deps| && m < |s.status| && m < |s.parents| && m in pr.deps[p]
    ensures s.status[m] == EvaluatingAsync && p in s.parents[m]
  {
    hide Waiting, Recorded, Explored, Blamed;
    assert s.pending[p] > 0;
    assert s.pending[p] == Waiting(s.parents)[p] + NoDrain[p];
    WaitingFrom(s.parents, p);
    m :| 0 <= m < |s.parents| && p in s.parents[m];
  }

  /** A suspended body whose end will release others. */
  ghost predicate NotifiesLater(s: EvalState, m: nat) {
    m < |s.status| && m < |s.parents| && s.status[m] == EvaluatingAsync && Started(s, m)
  }

  /** If no suspended module below rank `r` has parents to notify, nobody below
      that rank waits. */
  lemma {:induction false} NobodyWaits(pr: Program, s: EvalState, plan: Plan, woken: set<nat>, suspended: set<nat>,
                                       r: nat, p: nat)
    requires Inv(s, NoDrain) && Tracked(pr, s, {}, {}) && Played(s, plan, woken, suspended, {})
    requires Acyclic(pr, plan.rank) && plan.throws == {}
    requires forall m :: 0 <= m < |plan.rank| && plan.rank[m] < r && NotifiesLater(s, m) ==> s.parents[m] == []
    requires p < |plan.rank| && plan.rank[p] <= r
    ensures !Waits(s, p)
    decreases plan.rank[p]
  {
    hide Inv, Tracked, Played;
    if Waits(s, p) {
      var m := WaitsFor(pr, s, plan, woken, suspended, p);
      NobodyWaits(pr, s, plan, woken, suspended, r, m);
    }
  }
}
