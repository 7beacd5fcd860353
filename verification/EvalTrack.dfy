/** What holds of every graph, cyclic or not, while it is evaluated: what has
    begun, why a module is asynchronous, and who is listed where. */
module EvalTrack {
  import opened Syntax
  import opened ModuleGraphs
  import opened EvalStates
  import opened EvalOrder

  /** Evaluated modules have finished; what has finished was started, unless it
      is synthetic. */
  ghost predicate Recorded(pr: Program, s: EvalState) {
    && (forall m :: 0 <= m < |s.status| && s.status[m] == Evaluated ==> Finished(s, m))
    && (forall m: nat :: Finished(s, m) ==> FinishedWell(pr, s, m))
  }

  ghost predicate FinishedWell(pr: Program, s: EvalState, m: nat) {
    (m in pr.json || Started(s, m)) && m < |s.status| && (s.status[m] == Evaluated || s.status[m] == Errored)
  }

  ghost predicate DepsBegun(pr: Program, s: EvalState, m: nat) {
    m < |pr.deps| && forall d :: d in pr.deps[m] ==> d < |s.status| && !NotBegun(s.status[d])
  }

  /** A module is evaluated, or waits, only when all its dependencies have begun. */
  ghost predicate Explored(pr: Program, s: EvalState) {
    forall m :: 0 <= m < |s.status| && (s.status[m] == Evaluated || s.status[m] == EvaluatingAsync) ==>
      DepsBegun(pr, s, m)
  }

  /** Only a top-level await makes a module asynchronous, and only one further
      down makes it wait. */
  ghost predicate Blamed(pr: Program, s: EvalState) {
    && (forall m :: 0 <= m < |s.status| && s.status[m] == EvaluatingAsync ==> m in pr.awaits || AwaitBelow(pr, m))
    && (forall m :: 0 <= m < |s.pending| && s.pending[m] > 0 ==> AwaitBelow(pr, m))
    && (forall m: nat :: Waits(s, m) ==> AwaitBelow(pr, m))
  }

  /** Parents are listed with their dependencies; evaluated modules, those in
      `owing` apart, have notified theirs; who waits has somebody to wait for
      or is in `avail`. */
  ghost predicate Listed(pr: Program, s: EvalState, avail: set<nat>, owing: set<nat>) {
    && (forall m, p :: 0 <= m < |s.parents| && p in s.parents[m] ==> p < |pr.deps| && m in pr.deps[p])
    && (forall m :: 0 <= m < |s.status| && m < |s.parents| && s.status[m] == Evaluated && m !in owing ==>
          s.parents[m] == [])
    && (forall p: nat :: Waits(s, p) && p < |s.pending| ==> s.pending[p] > 0 || p in avail)
  }

  ghost predicate Tracked(pr: Program, s: EvalState, avail: set<nat>, owing: set<nat>) {
    && Shaped(s) && |pr.deps| == |s.status|
    && Recorded(pr, s) && Explored(pr, s) && Blamed(pr, s) && Listed(pr, s, avail, owing)
  }

  lemma TrackFresh(pr: Program, s: EvalState)
    requires var n := |s.status|;
             && |pr.deps| == n && |s.pending| == n && |s.parents| == n && |s.order| == n && s.events == []
             && forall m :: 0 <= m < n ==> s.pending[m] == 0 && s.parents[m] == [] && NotBegun(s.status[m])
    ensures Tracked(pr, s, {}, {})
  {
  }

  lemma TrackEvaluating(pr: Program, s: EvalState, i: nat)
    requires Tracked(pr, s, {}, {}) && i < |s.status| && s.status[i] == Linked
    ensures Tracked(pr, WithStatus(s, i, Evaluating), {}, {})
  {
    hide AwaitBelow;
    var t := WithStatus(s, i, Evaluating);
    assert forall p: nat :: Waits(t, p) ==> Waits(s, p);
    StillBegun(pr, s, t);
    forall m: nat | Finished(t, m) ensures FinishedWell(pr, t, m) {
      assert Finished(s, m) && FinishedWell(pr, s, m);
    }
  }

  lemma TrackErrored(pr: Program, s: EvalState, i: nat)
    requires Tracked(pr, s, {}, {}) && i < |s.status|
    ensures Tracked(pr, WithStatus(s, i, Errored), {}, {})
  {
    hide AwaitBelow;
    var t := WithStatus(s, i, Errored);
    assert forall p: nat :: Waits(t, p) ==> Waits(s, p);
    StillBegun(pr, s, t);
    forall m: nat | Finished(t, m) ensures FinishedWell(pr, t, m) {
      assert Finished(s, m) && FinishedWell(pr, s, m);
    }
  }

  /** Once begun, always begun. */
  ghost predicate MoreBegun(s: EvalState, t: EvalState) {
    |s.status| <= |t.status| && forall m :: 0 <= m < |s.status| && !NotBegun(s.status[m]) ==> !NotBegun(t.status[m])
  }

  lemma StillBegun(pr: Program, s: EvalState, t: EvalState)
    requires MoreBegun(s, t)
    ensures forall m: nat :: DepsBegun(pr, s, m) ==> DepsBegun(pr, t, m)
  {
  }

  /** Waiting for an asynchronous dependency is due to an await below. */
  lemma TrackWait(pr: Program, s: EvalState, i: nat, d: nat)
    requires Tracked(pr, s, {}, {}) && i < |s.status| && d < |s.status| && d in pr.deps[i]
    requires s.status[d] == EvaluatingAsync && s.status[i] == Evaluating
    ensures Tracked(pr, WithWait(s, i, d), {}, {})
  {
    hide AwaitBelow;
    var t := WithWait(s, i, d);
    if d in pr.awaits {
      BelowDirect(pr, i, d);
    } else {
      BelowThrough(pr, i, d);
    }
    assert forall p: nat :: Waits(t, p) <==> Waits(s, p);
    StillBegun(pr, s, t);
    forall m: nat | Finished(t, m) ensures FinishedWell(pr, t, m) {
      assert Finished(s, m) && FinishedWell(pr, s, m);
    }
    assert Blamed(pr, t) by {
      assert forall k :: 0 <= k < |t.pending| && t.pending[k] > 0 ==> k == i || s.pending[k] > 0;
    }
  }

  /** A module becomes asynchronous: it waits, or its body has suspended. */
  lemma TrackAsync(pr: Program, s: EvalState, i: nat, avail: set<nat>)
    requires Tracked(pr, s, avail, {}) && i < |s.status| && DepsBegun(pr, s, i)
    requires s.status[i] == Evaluating || s.status[i] == EvaluatingAsync
    requires (Started(s, i) && i in pr.awaits) || s.pending[i] > 0
    ensures Tracked(pr, WithAsync(s, i), avail, {})
  {
    hide AwaitBelow;
    var t := WithAsync(s, i);
    assert forall m: nat :: Started(t, m) <==> Started(s, m);
    assert forall p: nat :: Waits(t, p) && p != i ==> Waits(s, p);
    StillBegun(pr, s, t);
    forall m: nat | Finished(t, m) ensures FinishedWell(pr, t, m) {
      assert Finished(s, m) && FinishedWell(pr, s, m);
    }
    AsyncExplored(pr, s, i);
    assert Listed(pr, t, avail, {});
  }

  lemma AsyncExplored(pr: Program, s: EvalState, i: nat)
    requires Shaped(s) && Explored(pr, s) && i < |s.status| && DepsBegun(pr, s, i) && !NotBegun(s.status[i])
    ensures Explored(pr, WithAsync(s, i))
  {
    var t := WithAsync(s, i);
    StillBegun(pr, s, t);
  }

  lemma TrackStart(pr: Program, s: EvalState, i: nat, avail: set<nat>)
    requires Tracked(pr, s, avail, {})
    ensures Tracked(pr, WithEvent(s, Start(i)), avail, {})
  {
    hide AwaitBelow;
    var t := WithEvent(s, Start(i));
    assert forall m: nat :: Started(s, m) ==> Started(t, m);
    assert forall m: nat :: Finished(s, m) <==> Finished(t, m);
    assert forall p: nat :: Waits(t, p) ==> Waits(s, p);
    StillBegun(pr, s, t);
    forall m: nat | Finished(t, m) ensures FinishedWell(pr, t, m) {
      assert FinishedWell(pr, s, m);
    }
  }

  lemma TrackFinish(pr: Program, s: EvalState, i: nat, avail: set<nat>)
    requires Tracked(pr, s, avail, {}) && i < |s.status| && DepsBegun(pr, s, i) && (i in pr.json || Started(s, i))
    ensures Tracked(pr, WithFinish(s, i), avail, {i})
  {
    hide AwaitBelow;
    var t := WithFinish(s, i);
    assert forall m: nat :: Started(s, m) <==> Started(t, m);
    assert forall m: nat :: Finished(t, m) <==> Finished(s, m) || m == i;
    assert forall p: nat :: Waits(t, p) ==> Waits(s, p);
    StillBegun(pr, s, t);
    forall m: nat | Finished(t, m) ensures FinishedWell(pr, t, m) {
      if m != i {
        assert FinishedWell(pr, s, m);
      }
    }
    assert Explored(pr, t);
  }

  lemma TrackTaken(pr: Program, s: EvalState, i: nat, avail: set<nat>)
    requires Tracked(pr, s, avail, {i}) && i < |s.parents|
    ensures Tracked(pr, WithTaken(s, i), avail, {})
  {
    hide AwaitBelow;
    var t := WithTaken(s, i);
    assert forall p: nat :: Waits(t, p) <==> Waits(s, p);
    StillBegun(pr, s, t);
    forall m: nat | Finished(t, m) ensures FinishedWell(pr, t, m) {
      assert Finished(s, m) && FinishedWell(pr, s, m);
    }
  }

  lemma TrackNotice(pr: Program, s: EvalState, p: nat, avail: set<nat>)
    requires Tracked(pr, s, avail, {}) && p < |s.status|
    ensures var t := WithNotice(s, p);
            Tracked(pr, t, if t.pending[p] == 0 && t.status[p] == EvaluatingAsync then avail + {p} else avail, {})
  {
    hide AwaitBelow;
    var t := WithNotice(s, p);
    assert forall q: nat :: Waits(t, q) <==> Waits(s, q);
    StillBegun(pr, s, t);
    forall m: nat | Finished(t, m) ensures FinishedWell(pr, t, m) {
      assert Finished(s, m) && FinishedWell(pr, s, m);
    }
    assert forall k :: 0 <= k < |t.pending| && t.pending[k] > 0 ==> s.pending[k] > 0;
  }

  lemma TrackReleased(pr: Program, s: EvalState, avail: set<nat>, rest: set<nat>)
    requires Tracked(pr, s, avail, {}) && rest <= avail && forall p: nat :: p in avail - rest ==> !Waits(s, p)
    ensures Tracked(pr, s, rest, {})
  {
    hide AwaitBelow;
  }

  lemma TrackOwing(pr: Program, s: EvalState, avail: set<nat>, i: nat)
    requires Tracked(pr, s, avail, {})
    ensures Tracked(pr, s, avail, {i})
  {
  }

  // ----- the modules that evaluation has reached -----

  /** Nothing has failed or is still being evaluated. */
  ghost predicate NoneFailed(s: EvalState) {
    forall m :: 0 <= m < |s.status| ==> s.status[m] != Errored && s.status[m] != Evaluating
  }

  predicate Through(s: Status) {
    s == Evaluated || s == EvaluatingAsync
  }

  /** Whatever a module that evaluation has been through depends on, however far
      away and through whatever cycles, it has been through as well. */
  lemma {:induction false} Reached(pr: Program, s: EvalState, p: seq<nat>, x: nat)
    requires Tracked(pr, s, {}, {}) && NoneFailed(s) && DepPath(pr, p) && x < |p| && Through(s.status[p[0]])
    ensures p[x] < |s.status| && Through(s.status[p[x]])
    decreases x
  {
    hide Recorded, Blamed, Listed;
    if x > 0 {
      var y := x - 1;
      Reached(pr, s, p, y);
      assert DepsBegun(pr, s, p[y]) && p[y + 1] in pr.deps[p[y]];
    }
  }

  ghost predicate Reaches(pr: Program, i: nat, j: nat) {
    exists p :: DepPath(pr, p) && p[0] == i && p[|p| - 1] == j
  }

  /** Module `j` has been evaluated, its body run exactly once. */
  ghost predicate RanOnce(pr: Program, s: EvalState, j: nat) {
    j < |s.status| && s.status[j] == Evaluated && Finished(s, j) && (j !in pr.json ==> StartsOnce(s.events, j))
  }

  lemma EvaluatedOnce(pr: Program, s: EvalState, j: nat)
    requires Tracked(pr, s, {}, {}) && OnceEach(s.events) && j < |s.status| && s.status[j] == Evaluated
    ensures RanOnce(pr, s, j)
  {
    hide Explored, Blamed, Listed;
    assert Finished(s, j) && FinishedWell(pr, s, j);
    if j !in pr.json {
      var x :| 0 <= x < |s.events| && s.events[x] == Start(j);
    }
  }

  /** Without a top-level await, a module that evaluation has been through and all
      that it reaches have been evaluated, each body exactly once. */
  lemma AllOnce(pr: Program, s: EvalState, entry: nat, j: nat)
    requires Tracked(pr, s, {}, {}) && OnceEach(s.events) && NoneFailed(s) && pr.awaits == {}
    requires entry < |s.status| && Through(s.status[entry]) && Reaches(pr, entry, j)
    ensures RanOnce(pr, s, j)
  {
    hide Recorded, Explored, Listed, AwaitBelow, StartsOnce;
    var p: seq<nat> :| DepPath(pr, p) && p[0] == entry && p[|p| - 1] == j;
    Reached(pr, s, p, |p| - 1);
    NoAwaitBelow(pr, j);
    EvaluatedOnce(pr, s, j);
  }
}
