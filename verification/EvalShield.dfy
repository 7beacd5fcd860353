/** Failed imports: the modules that they leave under way, and the programs in
    which no module can start after such a dependency. */
module EvalShield {
  import opened Syntax
  import opened ModuleGraphs
  import opened EvalStates
  import opened EvalOrder
  import opened EvalTrack

  /** Evaluation has been through the module. One that has failed after that was
      in the asynchronous order already. */
  ghost predicate Passed(s: EvalState, m: nat) {
    && m < |s.status| && m < |s.order|
    && (Through(s.status[m]) || (s.status[m] == Errored && s.order[m].Some?))
  }

  /** The module is the target of an import that failed. */
  ghost predicate Fell(s: EvalState, m: nat) {
    m < |s.status| && m < |s.order| && s.status[m] == Errored && s.order[m].None?
  }

  ghost predicate DepsPassed(pr: Program, s: EvalState, m: nat) {
    m < |pr.deps| && forall d :: d in pr.deps[m] ==> Passed(s, d)
  }

  ghost predicate PassedUpTo(s: EvalState, deps: seq<nat>, x: nat) {
    forall y :: 0 <= y < x && y < |deps| ==> Passed(s, deps[y])
  }

  // ----- which programs are safe -----

  /** `T` and `Q` share a dependency, number `x` of `T`; `Q` does not need `T`,
      and `T` does not need `Q` before it comes to that dependency. */
  ghost predicate SharesLate(pr: Program, T: nat, x: nat, Q: nat) {
    && T < |pr.deps| && Q < |pr.deps| && T != Q && x < |pr.deps[T]| && pr.deps[T][x] in pr.deps[Q]
    && pr.deps[T][x] !in pr.json && !Reaches(pr, Q, T)
    && forall y :: 0 <= y < x ==> !Reaches(pr, pr.deps[T][y], Q)
  }

  /** Seen from the entry: the shared dependency is not evaluated with it. */
  ghost predicate Exposes(pr: Program, entry: nat, T: nat, x: nat, Q: nat) {
    SharesLate(pr, T, x, Q) && !Reaches(pr, entry, pr.deps[T][x])
  }

  ghost predicate Shielded(pr: Program, entry: nat) {
    forall T, x, Q :: !Exposes(pr, entry, T, x, Q)
  }

  // ----- what failed imports leave -----

  /** The evaluation of `p` came to `a` after dependencies that went well. */
  ghost predicate StuckUnder(pr: Program, s: EvalState, p: nat, a: nat) {
    p < |pr.deps| && exists x :: 0 <= x < |pr.deps[p]| && pr.deps[p][x] == a && PassedUpTo(s, pr.deps[p], x)
  }

  ghost predicate LeftBehind(pr: Program, s: EvalState, broken: set<nat>, a: nat) {
    && a < |s.status| && s.status[a] == Evaluating && a !in pr.json
    && exists p: nat :: (p in broken || Fell(s, p)) && StuckUnder(pr, s, p, a)
  }

  ghost predicate Closed(pr: Program, s: EvalState) {
    forall m: nat :: Passed(s, m) ==> DepsPassed(pr, s, m)
  }

  /** No module that evaluation has been through depends on one that an import
      has left behind. */
  ghost predicate Clean(pr: Program, s: EvalState, broken: set<nat>, entry: Option<nat>) {
    && |s.order| == |s.status| && Closed(pr, s)
    && (forall a :: a in broken ==> LeftBehind(pr, s, broken, a))
    && (entry.Some? ==> Passed(s, entry.value))
  }

  lemma CleanFresh(pr: Program, s: EvalState)
    requires |s.order| == |s.status| && forall m :: 0 <= m < |s.status| ==> NotBegun(s.status[m])
    ensures Clean(pr, s, {}, None)
  {
  }

  lemma CleanSized(pr: Program, s: EvalState, broken: set<nat>, entry: Option<nat>)
    requires Clean(pr, s, broken, entry)
    ensures |s.order| == |s.status|
  {
  }

  /** Every change that takes nothing back. */
  ghost predicate Goes(s: EvalState, t: EvalState, broken: set<nat>) {
    && |t.status| == |s.status| && |t.order| == |t.status|
    && (forall m: nat :: Passed(s, m) ==> Passed(t, m)) && (forall m: nat :: Fell(s, m) ==> Fell(t, m))
    && (forall a: nat :: a in broken && a < |s.status| ==> t.status[a] == s.status[a])
  }

  lemma StuckStays(pr: Program, s: EvalState, t: EvalState, p: nat, a: nat)
    requires StuckUnder(pr, s, p, a) && forall m: nat :: Passed(s, m) ==> Passed(t, m)
    ensures StuckUnder(pr, t, p, a)
  {
    var x :| 0 <= x < |pr.deps[p]| && pr.deps[p][x] == a && PassedUpTo(s, pr.deps[p], x);
    assert PassedUpTo(t, pr.deps[p], x);
  }

  lemma CleanGoes(pr: Program, s: EvalState, t: EvalState, broken: set<nat>, entry: Option<nat>)
    requires Clean(pr, s, broken, entry) && Goes(s, t, broken)
    requires forall m: nat :: Passed(t, m) && !Passed(s, m) ==> DepsPassed(pr, s, m)
    ensures Clean(pr, t, broken, entry)
  {
    hide Passed, Fell, StuckUnder;
    forall a | a in broken ensures LeftBehind(pr, t, broken, a) {
      assert LeftBehind(pr, s, broken, a);
      var p: nat :| (p in broken || Fell(s, p)) && StuckUnder(pr, s, p, a);
      StuckStays(pr, s, t, p, a);
    }
  }

  lemma CleanSame(pr: Program, s: EvalState, t: EvalState, broken: set<nat>, entry: Option<nat>)
    requires Clean(pr, s, broken, entry) && t.status == s.status && t.order == s.order
    ensures Clean(pr, t, broken, entry)
  {
    CleanGoes(pr, s, t, broken, entry);
  }

  lemma CleanEvaluating(pr: Program, s: EvalState, i: nat, broken: set<nat>, entry: Option<nat>)
    requires Clean(pr, s, broken, entry) && i < |s.status| && s.status[i] == Linked
    ensures Clean(pr, WithStatus(s, i, Evaluating), broken, entry) && i !in broken
  {
    assert i in broken ==> LeftBehind(pr, s, broken, i);
    CleanGoes(pr, s, WithStatus(s, i, Evaluating), broken, entry);
  }

  /** Evaluation is through with a module whose dependencies it is through with. */
  lemma CleanThrough(pr: Program, s: EvalState, t: EvalState, i: nat, broken: set<nat>, entry: Option<nat>)
    requires Clean(pr, s, broken, entry) && i < |s.status| && i !in broken
    requires s.status[i] == Evaluating || s.status[i] == EvaluatingAsync
    requires DepsPassed(pr, s, i) && |t.order| == |s.order|
    requires t.status == s.status[i := Evaluated] || t.status == s.status[i := EvaluatingAsync]
    requires forall k :: 0 <= k < |s.order| && (k != i || s.order[k].Some?) ==> t.order[k] == s.order[k]
    ensures Clean(pr, t, broken, entry)
  {
    assert forall m: nat :: Passed(t, m) && m != i ==> Passed(s, m);
    CleanGoes(pr, s, t, broken, entry);
  }

  lemma CleanErrored(pr: Program, s: EvalState, i: nat, broken: set<nat>, entry: Option<nat>)
    requires Clean(pr, s, broken, entry) && i < |s.status| && i !in broken
    requires if s.order[i].Some? then s.status[i] == EvaluatingAsync else s.status[i] == Evaluating
    ensures Clean(pr, WithStatus(s, i, Errored), broken, entry)
  {
    CleanGoes(pr, s, WithStatus(s, i, Errored), broken, entry);
  }

  lemma CleanEntered(pr: Program, s: EvalState, broken: set<nat>, i: nat)
    requires Clean(pr, s, broken, None) && Passed(s, i)
    ensures Clean(pr, s, broken, Some(i))
  {
  }

  lemma AsyncPassed(pr: Program, s: EvalState, i: nat, broken: set<nat>, entry: Option<nat>)
    requires Clean(pr, s, broken, entry) && i < |s.status| && s.status[i] == EvaluatingAsync
    ensures DepsPassed(pr, s, i) && i !in broken
  {
    assert Passed(s, i) && (i in broken ==> LeftBehind(pr, s, broken, i));
  }

  // ----- the evaluation of a module ends with an exception -----

  /** Modules that `t` has under way and `s` had not. */
  ghost predicate NewlyStuck(s: EvalState, t: EvalState, m: nat) {
    m < |s.status| && m < |t.status| && t.status[m] == Evaluating && s.status[m] != Evaluating
  }

  /** The evaluation of `i` has left a trail of modules under way. */
  ghost predicate Trail(pr: Program, s: EvalState, t: EvalState, i: nat) {
    && NewlyStuck(s, t, i)
    && forall m: nat :: NewlyStuck(s, t, m) ==>
         m !in pr.json && (m == i || exists p: nat :: NewlyStuck(s, t, p) && StuckUnder(pr, t, p, m))
  }

  /** The trail of dependency number `x` becomes one of `i`. */
  lemma TrailUp(pr: Program, s: EvalState, t: EvalState, u: EvalState, i: nat, x: nat)
    requires i < |pr.deps| && x < |pr.deps[i]| && Trail(pr, t, u, pr.deps[i][x]) && PassedUpTo(u, pr.deps[i], x)
    requires |s.status| == |t.status| == |u.status| && NewlyStuck(s, u, i) && i !in pr.json
    requires forall m: nat :: m < |t.status| && t.status[m] == Evaluating ==> m == i || s.status[m] == Evaluating
    requires forall m: nat :: m < |s.status| && s.status[m] == Evaluating ==> t.status[m] == Evaluating
    ensures Trail(pr, s, u, i)
  {
    hide PassedUpTo;
    var d := pr.deps[i][x];
    assert StuckUnder(pr, u, i, d);
    forall m: nat | NewlyStuck(s, u, m)
      ensures m !in pr.json && (m == i || exists p: nat :: NewlyStuck(s, u, p) && StuckUnder(pr, u, p, m))
    {
      if m != i {
        assert NewlyStuck(t, u, m);
        if m != d {
          var p: nat :| NewlyStuck(t, u, p) && StuckUnder(pr, u, p, m);
          assert NewlyStuck(s, u, p);
        }
      }
    }
  }

  /** The trail of a failed import is left behind. */
  lemma TrailLeft(pr: Program, s: EvalState, t: EvalState, u: EvalState, i: nat, broken: set<nat>, more: set<nat>,
                  entry: Option<nat>)
    requires Clean(pr, s, broken, entry) && Clean(pr, t, broken, entry) && Trail(pr, s, t, i)
    requires u == WithStatus(t, i, Errored) && Clean(pr, u, broken, entry) && Fell(u, i)
    requires forall m: nat :: m < |s.status| && s.status[m] == Evaluating ==> m in broken
    requires more == set m: nat | m < |u.status| && u.status[m] == Evaluating
    requires |s.status| == |t.status| && forall m: nat :: Passed(t, m) ==> Passed(u, m)
    ensures Clean(pr, u, more, entry)
  {
    hide Passed, Fell, StuckUnder, Closed;
    forall a | a in more ensures LeftBehind(pr, u, more, a) {
      if a in broken {
        assert LeftBehind(pr, u, broken, a);
        var p: nat :| (p in broken || Fell(u, p)) && StuckUnder(pr, u, p, a);
        assert p in broken ==> LeftBehind(pr, u, broken, p);
      } else {
        assert NewlyStuck(s, t, a);
        var p: nat :| NewlyStuck(s, t, p) && StuckUnder(pr, t, p, a);
        StuckStays(pr, t, u, p, a);
      }
    }
  }

  // ----- reachability -----

  lemma ReachesSelf(pr: Program, i: nat)
    requires i < |pr.deps|
    ensures Reaches(pr, i, i)
  {
    assert DepPath(pr, [i]);
  }

  lemma ReachesStep(pr: Program, i: nat, d: nat, j: nat)
    requires i < |pr.deps| && d in pr.deps[i] && Reaches(pr, d, j)
    ensures Reaches(pr, i, j)
  {
    var p: seq<nat> :| DepPath(pr, p) && p[0] == d && p[|p| - 1] == j;
    var q := [i] + p;
    forall x | 0 <= x < |q| - 1 ensures q[x + 1] in pr.deps[q[x]] {
      if x > 0 {
        var y := x - 1;
        assert p[y + 1] in pr.deps[p[y]];
      }
    }
    assert DepPath(pr, q);
  }

  lemma ReachesOn(pr: Program, i: nat, j: nat, k: nat)
    requires Reaches(pr, i, j) && j < |pr.deps| && k < |pr.deps| && k in pr.deps[j]
    ensures Reaches(pr, i, k)
  {
    var p: seq<nat> :| DepPath(pr, p) && p[0] == i && p[|p| - 1] == j;
    var q := p + [k];
    forall x | 0 <= x < |q| - 1 ensures q[x + 1] in pr.deps[q[x]] {
      if x < |p| - 1 {
        assert p[x + 1] in pr.deps[p[x]];
      }
    }
    assert DepPath(pr, q);
  }

  lemma {:induction false} RankAlong(pr: Program, rank: seq<nat>, p: seq<nat>, x: nat)
    requires Acyclic(pr, rank) && DepPath(pr, p) && x < |p|
    ensures p[x] < |rank| && rank[p[x]] <= rank[p[0]] && (x > 0 ==> rank[p[x]] < rank[p[0]])
    decreases x
  {
    if x > 0 {
      RankAlong(pr, rank, p, x - 1);
      var y := x - 1;
      assert p[y + 1] in pr.deps[p[y]];
    }
  }

  lemma ReachesRank(pr: Program, rank: seq<nat>, i: nat, j: nat)
    requires Acyclic(pr, rank) && Reaches(pr, i, j)
    ensures i < |rank| && j < |rank| && (i != j ==> rank[j] < rank[i])
  {
    var p: seq<nat> :| DepPath(pr, p) && p[0] == i && p[|p| - 1] == j;
    RankAlong(pr, rank, p, |p| - 1);
  }

  /** What has been passed reaches only what has been passed. */
  lemma PassedReaches(pr: Program, s: EvalState, i: nat, j: nat)
    requires Closed(pr, s) && Passed(s, i) && Reaches(pr, i, j)
    ensures Passed(s, j)
  {
    var p: seq<nat> :| DepPath(pr, p) && p[0] == i && p[|p| - 1] == j;
    PassedAlong(pr, s, p, |p| - 1);
  }

  lemma {:induction false} PassedAlong(pr: Program, s: EvalState, p: seq<nat>, x: nat)
    requires Closed(pr, s) && DepPath(pr, p) && x < |p| && Passed(s, p[0])
    ensures Passed(s, p[x])
    decreases x
  {
    hide Passed;
    if x > 0 {
      PassedAlong(pr, s, p, x - 1);
      var y := x - 1;
      assert p[y + 1] in pr.deps[p[y]];
    }
  }

  // ----- the condition is enough -----

  /** In a shielded program, a module all of whose earlier dependencies went well
      does not come to one that has been left behind. */
  lemma NotSkipped(pr: Program, rank: seq<nat>, s: EvalState, broken: set<nat>, entry: nat, i: nat, x: nat)
    requires Acyclic(pr, rank) && |pr.deps| == |s.status| && Clean(pr, s, broken, Some(entry)) && Shielded(pr, entry)
    requires i < |s.status| && s.status[i] == Evaluating && i !in broken
    requires x < |pr.deps[i]| && PassedUpTo(s, pr.deps[i], x)
    ensures pr.deps[i][x] !in broken
  {
    hide Passed, Shielded, Acyclic, Reaches, SharesLate;
    var a := pr.deps[i][x];
    if a in broken {
      assert LeftBehind(pr, s, broken, a);
      var p: nat :| (p in broken || Fell(s, p)) && StuckUnder(pr, s, p, a);
      var z :| 0 <= z < |pr.deps[p]| && pr.deps[p][z] == a && PassedUpTo(s, pr.deps[p], z);
      NotPassed(pr, s, broken, i);
      NotPassed(pr, s, broken, p);
      NotPassed(pr, s, broken, a);
      assert !Reaches(pr, entry, a) by {
        if Reaches(pr, entry, a) {
          PassedReaches(pr, s, entry, a);
        }
      }
      if Reaches(pr, i, p) {
        Late(pr, rank, s, i, x, p);
        assert Exposes(pr, entry, i, x, p);
      } else {
        LateToo(pr, s, p, z, i);
        assert Exposes(pr, entry, p, z, i);
      }
      ShieldedNot(pr, entry);
    }
  }

  lemma ShieldedNot(pr: Program, entry: nat)
    requires Shielded(pr, entry)
    ensures forall T, x, Q :: !Exposes(pr, entry, T, x, Q)
  {
    hide Exposes;
  }

  lemma NotPassed(pr: Program, s: EvalState, broken: set<nat>, m: nat)
    requires (m in broken && LeftBehind(pr, s, broken, m)) || Fell(s, m)
             || (m < |s.status| && s.status[m] == Evaluating)
    ensures !Passed(s, m)
  {
  }

  lemma Late(pr: Program, rank: seq<nat>, s: EvalState, i: nat, x: nat, p: nat)
    requires Acyclic(pr, rank) && |pr.deps| == |s.status| && Closed(pr, s) && Reaches(pr, i, p) && i != p
    requires !Passed(s, p)
    requires i < |pr.deps| && p < |pr.deps| && x < |pr.deps[i]| && PassedUpTo(s, pr.deps[i], x)
    requires pr.deps[i][x] in pr.deps[p] && pr.deps[i][x] !in pr.json
    ensures SharesLate(pr, i, x, p)
  {
    hide Acyclic, Closed, Passed, Reaches;
    ReachesRank(pr, rank, i, p);
    if Reaches(pr, p, i) {
      ReachesRank(pr, rank, p, i);
    }
    forall y | 0 <= y < x ensures !Reaches(pr, pr.deps[i][y], p) {
      if Reaches(pr, pr.deps[i][y], p) {
        PassedReaches(pr, s, pr.deps[i][y], p);
      }
    }
  }

  lemma LateToo(pr: Program, s: EvalState, p: nat, z: nat, i: nat)
    requires |pr.deps| == |s.status| && Closed(pr, s) && !Reaches(pr, i, p) && i != p && !Passed(s, i)
    requires i < |pr.deps| && p < |pr.deps| && z < |pr.deps[p]| && PassedUpTo(s, pr.deps[p], z)
    requires pr.deps[p][z] in pr.deps[i] && pr.deps[p][z] !in pr.json
    ensures SharesLate(pr, p, z, i)
  {
    hide Closed, Passed, Reaches;
    forall y | 0 <= y < z ensures !Reaches(pr, pr.deps[p][y], i) {
      if Reaches(pr, pr.deps[p][y], i) {
        PassedReaches(pr, s, pr.deps[p][y], i);
      }
    }
  }

  // ----- where a failed import has come to -----

  /** The trail of the import of `T` leads through one of its dependencies. */
  lemma {:induction false} TrailFrom(pr: Program, rank: seq<nat>, s: EvalState, broken: set<nat>, T: nat, m: nat)
    returns (x: nat)
    requires Acyclic(pr, rank) && |pr.deps| == |s.status| && Clean(pr, s, broken, None) && m in broken
    requires forall p: nat :: Fell(s, p) ==> p == T
    ensures T < |pr.deps| && x < |pr.deps[T]| && PassedUpTo(s, pr.deps[T], x) && Reaches(pr, pr.deps[T][x], m)
    decreases MaxRank(rank) - (if m < |rank| then rank[m] else 0)
  {
    hide Passed, Closed, Fell;
    assert LeftBehind(pr, s, broken, m);
    var p: nat :| (p in broken || Fell(s, p)) && StuckUnder(pr, s, p, m);
    var z :| 0 <= z < |pr.deps[p]| && pr.deps[p][z] == m && PassedUpTo(s, pr.deps[p], z);
    if p in broken {
      assert m in pr.deps[p];
      RankMax(rank, p);
      x := TrailFrom(pr, rank, s, broken, T, p);
      ReachesOn(pr, pr.deps[T][x], p, m);
    } else {
      x := z;
      ReachesSelf(pr, m);
    }
  }

  function MaxRank(rank: seq<nat>): nat {
    if rank == [] then 0
    else if rank[0] > MaxRank(rank[1..]) then rank[0] else MaxRank(rank[1..])
  }

  lemma {:induction false} RankMax(rank: seq<nat>, i: nat)
    requires i < |rank|
    ensures rank[i] <= MaxRank(rank)
    decreases |rank|
  {
    if i > 0 {
      RankMax(rank[1..], i - 1);
    }
  }
}
