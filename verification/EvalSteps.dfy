/** What the methods of the evaluator change, and why that composes. */
module EvalSteps {
  import opened Syntax
  import opened ModuleGraphs
  import opened EvalStates
  import opened EvalOrder
  import opened EvalTrack
  import opened EvalShield
  import opened EvalScript

  function Elements(xs: seq<nat>): set<nat> {
    set x | x in xs
  }

  ghost predicate Distinct(xs: seq<nat>) {
    forall x, y :: 0 <= x < y < |xs| ==> xs[x] != xs[y]
  }

  lemma PushedElements(xs: seq<nat>, p: nat)
    ensures Elements(xs + [p]) == Elements(xs) + {p}
    ensures Distinct(xs) && p !in xs ==> Distinct(xs + [p])
  {
  }

  // ----- the start -----

  lemma FreshInv(s: EvalState)
    requires var n := |s.status|;
             && |s.pending| == n && |s.parents| == n && |s.order| == n && s.events == []
             && forall m :: 0 <= m < n ==> s.pending[m] == 0 && s.parents[m] == [] && NotBegun(s.status[m])
    ensures Inv(s, NoDrain)
  {
    NothingWaiting(s.parents);
  }

  lemma {:induction false} NothingWaiting(parents: seq<seq<nat>>)
    requires forall m :: 0 <= m < |parents| ==> parents[m] == []
    ensures Waiting(parents) == multiset{}
    decreases |parents|
  {
    if parents != [] {
      NothingWaiting(parents[1..]);
    }
  }

  lemma FreshTidy(pr: Program, s: EvalState)
    requires var n := |s.status|;
             && |pr.deps| == n && |s.pending| == n && |s.parents| == n && |s.order| == n && s.events == []
             && forall m :: 0 <= m < n ==> s.parents[m] == [] && s.order[m] == None && NotBegun(s.status[m])
    ensures Tidy(pr, s, {}, {})
  {
  }

  lemma InvShaped(s: EvalState, drained: multiset<nat>)
    requires Inv(s, drained)
    ensures |s.pending| == |s.status| && |s.parents| == |s.status| && |s.order| == |s.status|
    ensures forall m, k :: 0 <= m < |s.parents| && k in s.parents[m] ==> k < |s.status|
    ensures forall k :: k in drained ==> k < |s.status|
  {
    hide Waiting;
  }

  // ----- gathering -----

  /** Notifying parents changes counters and lists; `more` collects the
      modules that it has released. */
  ghost predicate Gathered(s: EvalState, t: EvalState, available: seq<nat>, more: seq<nat>) {
    var n := |s.status|;
    && t == s.(pending := t.pending, parents := t.parents)
    && |s.pending| == n == |t.pending| && |s.parents| == n == |t.parents|
    && (forall k :: 0 <= k < n ==> t.pending[k] <= s.pending[k])
    && (forall m :: 0 <= m < n ==> t.parents[m] == s.parents[m] || t.parents[m] == [])
    && |available| <= |more| && more[..|available|] == available
    && (Distinct(available) ==> Distinct(more))
    && (forall x :: |available| <= x < |more| ==> ReleasedBy(s, t, more[x]))
  }

  /** `p` was waiting, waits no longer, and has nobody left to notify. */
  ghost predicate ReleasedBy(s: EvalState, t: EvalState, p: nat) {
    && p < |s.pending| && p < |t.pending| && p < |t.parents| && p < |t.status|
    && s.pending[p] > 0 && t.pending[p] == 0 && t.parents[p] == [] && t.status[p] == EvaluatingAsync
  }

  lemma GatheredTaken(s: EvalState, i: nat, available: seq<nat>)
    requires |s.pending| == |s.status| == |s.parents| && i < |s.parents|
    ensures Gathered(s, WithTaken(s, i), available, available)
  {
  }

  lemma GatheredNotice(s: EvalState, t: EvalState, available: seq<nat>, more: seq<nat>, p: nat)
    requires Gathered(s, t, available, more) && p < |t.pending| && t.pending[p] > 0
    ensures Gathered(s, WithNotice(t, p), available, more) && s.pending[p] > 0
  {
  }

  lemma GatheredRelease(s: EvalState, t: EvalState, u: EvalState, available: seq<nat>, more: seq<nat>, all: seq<nat>,
                        p: nat)
    requires Gathered(s, t, available, more) && Gathered(t, u, more + [p], all) && p !in more
    requires p < |s.pending| && s.pending[p] > 0 && t.pending[p] == 0 && t.status[p] == EvaluatingAsync
    requires u.parents[p] == []
    ensures Gathered(s, u, available, all)
  {
    PushedElements(more, p);
    forall x | |available| <= x < |all| ensures ReleasedBy(s, u, all[x]) {
      if x < |more| {
        assert all[x] == (more + [p])[x] == more[x] && ReleasedBy(s, t, more[x]);
      } else if x == |more| {
        assert all[x] == (more + [p])[x];
      } else {
        assert ReleasedBy(t, u, all[x]);
      }
    }
    assert all[..|available|] == (more + [p])[..|available|] == more[..|available|];
  }

  lemma DrainNext(drained: multiset<nat>, ps: seq<nat>, x: nat)
    requires x < |ps|
    ensures drained + multiset(ps[x..]) == drained + multiset(ps[x + 1..]) + multiset{ps[x]}
    ensures ps[x] in drained + multiset(ps[x..])
  {
    assert ps[x..] == [ps[x]] + ps[x + 1..];
  }

  // ----- sorting by asynchronous order -----

  /** Modules without an order come last. */
  predicate NoLater(a: Option<nat>, b: Option<nat>) {
    b.None? || (a.Some? && a.value <= b.value)
  }

  function OrderOf(order: seq<Option<nat>>, m: nat): Option<nat> {
    if m < |order| then order[m] else None
  }

  ghost predicate SortedBy(order: seq<Option<nat>>, xs: seq<nat>) {
    forall x, y :: 0 <= x < y < |xs| ==> NoLater(OrderOf(order, xs[x]), OrderOf(order, xs[y]))
  }

  function Insert(order: seq<Option<nat>>, x: nat, xs: seq<nat>): (r: seq<nat>)
    ensures multiset(r) == multiset(xs) + multiset{x}
  {
    if xs == [] then [x]
    else if NoLater(OrderOf(order, x), OrderOf(order, xs[0])) then [x] + xs
    else
      assert xs == [xs[0]] + xs[1..];
      [xs[0]] + Insert(order, x, xs[1..])
  }

  lemma {:induction false} InsertSorted(order: seq<Option<nat>>, x: nat, xs: seq<nat>)
    requires SortedBy(order, xs)
    ensures SortedBy(order, Insert(order, x, xs))
  {
    if xs == [] {
    } else if NoLater(OrderOf(order, x), OrderOf(order, xs[0])) {
      SortedFront(order, x, xs);
    } else {
      InsertSorted(order, x, xs[1..]);
      var rest := Insert(order, x, xs[1..]);
      forall a | 0 <= a < |rest| ensures NoLater(OrderOf(order, xs[0]), OrderOf(order, rest[a])) {
        assert rest[a] in multiset(xs[1..]) + multiset{x};
        if rest[a] != x {
          assert rest[a] in xs[1..];
          var y :| 0 <= y < |xs[1..]| && xs[1..][y] == rest[a];
          assert xs[y + 1] == rest[a];
        }
      }
      SortedCons(order, xs[0], rest);
    }
  }

  lemma SortedFront(order: seq<Option<nat>>, x: nat, xs: seq<nat>)
    requires xs != [] && SortedBy(order, xs) && NoLater(OrderOf(order, x), OrderOf(order, xs[0]))
    ensures SortedBy(order, [x] + xs)
  {
    forall a | 0 <= a < |xs| ensures NoLater(OrderOf(order, x), OrderOf(order, xs[a])) {
      if a > 0 {
        assert NoLater(OrderOf(order, xs[0]), OrderOf(order, xs[a]));
      }
    }
    SortedCons(order, x, xs);
  }

  lemma SortedCons(order: seq<Option<nat>>, x: nat, xs: seq<nat>)
    requires SortedBy(order, xs) && forall a :: 0 <= a < |xs| ==> NoLater(OrderOf(order, x), OrderOf(order, xs[a]))
    ensures SortedBy(order, [x] + xs)
  {
    var r := [x] + xs;
    forall a, b | 0 <= a < b < |r| ensures NoLater(OrderOf(order, r[a]), OrderOf(order, r[b])) {
      assert r[b] == xs[b - 1] && (a > 0 ==> r[a] == xs[a - 1]);
    }
  }

  method SortByOrder(order: seq<Option<nat>>, xs: seq<nat>) returns (r: seq<nat>)
    ensures SortedBy(order, r) && multiset(r) == multiset(xs)
    ensures Elements(r) == Elements(xs) && (Distinct(xs) ==> Distinct(r))
  {
    r := [];
    var i := 0;
    while i < |xs|
      invariant 0 <= i <= |xs| && SortedBy(order, r) && multiset(r) == multiset(xs[..i])
    {
      assert xs[..i + 1] == xs[..i] + [xs[i]];
      InsertSorted(order, xs[i], r);
      r := Insert(order, xs[i], r);
      i := i + 1;
    }
    assert xs[..i] == xs;
    SameElements(xs, r);
  }

  /** Some of the first `x` modules of a sorted list, in its order. */
  ghost predicate InTurn(order: seq<Option<nat>>, ready: seq<nat>, x: nat, woken: seq<nat>) {
    && x <= |ready| && SortedBy(order, woken) && Distinct(woken)
    && forall k :: 0 <= k < |woken| ==> woken[k] in ready[..x]
  }

  lemma TurnFirst(order: seq<Option<nat>>, ready: seq<nat>)
    ensures InTurn(order, ready, 0, [])
  {
  }

  lemma TurnNext(order: seq<Option<nat>>, ready: seq<nat>, x: nat, woken: seq<nat>)
    requires x < |ready| && SortedBy(order, ready) && Distinct(ready) && InTurn(order, ready, x, woken)
    ensures InTurn(order, ready, x + 1, woken) && InTurn(order, ready, x + 1, woken + [ready[x]])
  {
    assert ready[..x + 1] == ready[..x] + [ready[x]];
    forall a | 0 <= a < |woken|
      ensures NoLater(OrderOf(order, woken[a]), OrderOf(order, ready[x])) && woken[a] != ready[x]
    {
      assert woken[a] in ready[..x];
      var y :| 0 <= y < |ready[..x]| && ready[..x][y] == woken[a];
      assert ready[y] == woken[a];
    }
  }

  lemma TurnOver(order: seq<Option<nat>>, ready: seq<nat>, x: nat, woken: seq<nat>, asleep: set<nat>)
    requires InTurn(order, ready, x, woken) && forall i :: i in ready ==> i in asleep
    ensures SortedBy(order, woken) && Distinct(woken) && Elements(woken) <= asleep
  {
    forall k | 0 <= k < |woken| ensures woken[k] in asleep {
      assert woken[k] in ready;
    }
  }

  lemma SameElements(xs: seq<nat>, r: seq<nat>)
    requires multiset(r) == multiset(xs)
    ensures Elements(r) == Elements(xs) && (Distinct(xs) ==> Distinct(r))
  {
    assert forall x :: x in r <==> x in multiset(r);
    assert forall x :: x in xs <==> x in multiset(xs);
    if Distinct(xs) {
      DistinctOnce(xs);
      OnceDistinct(r);
    }
  }

  lemma {:induction false} DistinctOnce(xs: seq<nat>)
    requires Distinct(xs)
    ensures forall x :: multiset(xs)[x] <= 1
  {
    if xs != [] {
      DistinctOnce(xs[1..]);
      assert xs == [xs[0]] + xs[1..];
      assert xs[0] !in multiset(xs[1..]);
    }
  }

  lemma {:induction false} OnceDistinct(xs: seq<nat>)
    requires forall x :: multiset(xs)[x] <= 1
    ensures Distinct(xs)
  {
    if xs != [] {
      assert xs == [xs[0]] + xs[1..];
      assert forall x :: multiset(xs)[x] == multiset{xs[0]}[x] + multiset(xs[1..])[x];
      OnceDistinct(xs[1..]);
      forall y | 0 < y < |xs| ensures xs[0] != xs[y] {
        assert xs[y] == xs[1..][y - 1] && xs[y] in multiset(xs[1..]);
      }
      forall x, y | 0 < x < y < |xs| ensures xs[x] != xs[y] {
        assert xs[x] == xs[1..][x - 1] && xs[y] == xs[1..][y - 1];
      }
    }
  }

  // ----- starting and completing -----

  /** Starting a module that nobody waits for changes only that module. */
  ghost predicate Ran(s: EvalState, t: EvalState, i: nat) {
    && |t.status| == |s.status| && |t.order| == |s.order|
    && t.pending == s.pending && t.parents == s.parents
    && (forall k :: 0 <= k < |s.status| && k != i ==> t.status[k] == s.status[k])
    && (forall k :: 0 <= k < |s.order| && (k != i || s.order[k].Some?) ==> t.order[k] == s.order[k])
    && (forall k: nat :: k != i ==> (Started(t, k) <==> Started(s, k)))
    && (forall k: nat :: Finished(s, k) ==> Finished(t, k))
    && (forall k: nat :: Started(s, k) ==> Started(t, k))
  }

  /** Completing a module starts at most modules that were waiting. */
  ghost predicate Cascaded(s: EvalState, t: EvalState, i: nat) {
    && |t.status| == |s.status| && |t.pending| == |s.pending| && |t.parents| == |s.parents|
    && (forall k :: 0 <= k < |s.pending| && !Started(s, k) && Started(t, k) ==> s.pending[k] > 0)
    && (forall k :: 0 <= k < |s.status| && k < |s.pending| && k != i && s.pending[k] == 0 ==>
          t.status[k] == s.status[k])
    && (forall k :: 0 <= k < |s.status| && k != i && s.status[k] != EvaluatingAsync ==> t.status[k] == s.status[k])
    && (forall k :: 0 <= k < |s.parents| && s.parents[k] == [] ==> t.parents[k] == [])
    && (forall k :: 0 <= k < |t.parents| && !Started(s, k) && Started(t, k) ==> t.parents[k] == [])
    && MoreBegun(s, t) && SameErrors(s.status, t.status)
    && (forall k: nat :: Finished(s, k) ==> Finished(t, k))
    && (forall k: nat :: Started(s, k) ==> Started(t, k))
  }

  // ----- failures -----

  /** The same modules have failed. */
  ghost predicate SameErrors(a: seq<Status>, b: seq<Status>) {
    |b| == |a| && forall k :: 0 <= k < |a| ==> (a[k] == Errored <==> b[k] == Errored)
  }

  function ErrorCount(status: seq<Status>): nat {
    if status == [] then 0 else (if status[0] == Errored then 1 else 0) + ErrorCount(status[1..])
  }

  lemma {:induction false} SameCount(a: seq<Status>, b: seq<Status>)
    requires SameErrors(a, b)
    ensures ErrorCount(a) == ErrorCount(b)
    decreases |a|
  {
    if a != [] {
      SameCount(a[1..], b[1..]);
    }
  }

  lemma {:induction false} OneMore(a: seq<Status>, i: nat)
    requires i < |a| && a[i] != Errored
    ensures ErrorCount(a[i := Errored]) == ErrorCount(a) + 1
    decreases |a|
  {
    if i == 0 {
      assert a[i := Errored][1..] == a[1..];
    } else {
      assert a[i := Errored][1..] == a[1..][i - 1 := Errored];
      OneMore(a[1..], i - 1);
    }
  }

  /** Where nothing has failed that had not failed before, no more have. */
  lemma {:induction false} NoMore(a: seq<Status>, b: seq<Status>)
    requires |a| == |b| && forall k :: 0 <= k < |a| && b[k] == Errored ==> a[k] == Errored
    ensures ErrorCount(b) <= ErrorCount(a)
    decreases |a|
  {
    if a != [] {
      NoMore(a[1..], b[1..]);
    }
  }

  lemma CascadedErrors(s: EvalState, t: EvalState, i: nat)
    requires Cascaded(s, t, i)
    ensures SameErrors(s.status, t.status)
  {
  }

  lemma GrewErrors(s: EvalState, t: EvalState)
    requires Grew(s, t)
    ensures SameErrors(s.status, t.status)
  {
  }

  /** A module that stands in the way goes on standing there. */
  lemma BarredStill(pr: Program, s: EvalState, t: EvalState, i: nat)
    requires |t.status| == |s.status|
    requires forall k :: 0 <= k < |s.status| && InTheWay(s.status[k]) ==> t.status[k] == s.status[k]
    ensures Unbarred(pr, t, i) ==> Unbarred(pr, s, i)
  {
    hide Reaches;
  }

  lemma GrewBarred(pr: Program, s: EvalState, t: EvalState, i: nat)
    requires Grew(s, t)
    ensures Unbarred(pr, t, i) ==> Unbarred(pr, s, i)
  {
    BarredStill(pr, s, t, i);
  }

  // ----- imports that wait for a module -----

  /** From imports `x` that wait, and statuses `a`, to `y` and `b`: exactly the
      imports of the modules that have become evaluated have been answered. */
  ghost predicate KeptWaiters(x: seq<nat>, a: seq<Status>, y: seq<nat>, b: seq<Status>) {
    && |x| == |a| == |y| == |b|
    && (forall k :: 0 <= k < |a| && a[k] == Evaluated ==> b[k] == Evaluated)
    && (forall k :: 0 <= k < |x| ==> y[k] == if a[k] != Evaluated && b[k] == Evaluated then 0 else x[k])
  }

  lemma NoneAnswered(x: seq<nat>, a: seq<Status>, b: seq<Status>)
    requires |x| == |a| == |b| && forall k :: 0 <= k < |a| ==> (a[k] == Evaluated <==> b[k] == Evaluated)
    ensures KeptWaiters(x, a, x, b)
  {
  }

  lemma RanUnanswered(x: seq<nat>, s: EvalState, t: EvalState, i: nat)
    requires Ran(s, t, i) && i < |s.status| == |x| && s.status[i] != Evaluated && t.status[i] != Evaluated
    ensures KeptWaiters(x, s.status, x, t.status)
  {
    NoneAnswered(x, s.status, t.status);
  }

  lemma AnsweredOne(x: seq<nat>, a: seq<Status>, y: seq<nat>, i: nat)
    requires |x| == |a| == |y| && i < |a| && a[i] != Evaluated && y[i] == 0
    requires forall k :: 0 <= k < |y| && k != i ==> y[k] == x[k]
    ensures KeptWaiters(x, a, y, a[i := Evaluated])
  {
  }

  lemma KeptOn(x: seq<nat>, a: seq<Status>, y: seq<nat>, b: seq<Status>, z: seq<nat>, c: seq<Status>)
    requires KeptWaiters(x, a, y, b) && KeptWaiters(y, b, z, c)
    ensures KeptWaiters(x, a, z, c)
  {
  }

  lemma RanStart(s: EvalState, i: nat)
    ensures Ran(s, WithEvent(s, Start(i)), i)
  {
    var t := WithEvent(s, Start(i));
    assert forall k: nat :: Started(t, k) <==> Started(s, k) || k == i;
    assert forall k: nat :: Finished(t, k) <==> Finished(s, k);
  }

  lemma RanFinish(s: EvalState, i: nat)
    requires i < |s.status|
    ensures Ran(s, WithFinish(s, i), i)
    ensures Finished(WithFinish(s, i), i)
    ensures forall k: nat :: Started(WithFinish(s, i), k) <==> Started(s, k)
  {
    var t := WithFinish(s, i);
    assert forall k: nat :: Started(t, k) <==> Started(s, k);
    assert forall k: nat :: Finished(t, k) <==> Finished(s, k) || k == i;
  }

  lemma RanAsync(s: EvalState, i: nat)
    requires i < |s.status| && i < |s.order|
    ensures Ran(s, WithAsync(s, i), i)
  {
  }

  lemma RanTrans(s: EvalState, t: EvalState, u: EvalState, i: nat)
    requires Ran(s, t, i) && Ran(t, u, i)
    ensures Ran(s, u, i)
  {
  }

  // ----- evaluating new modules -----

  /** Evaluation of a module touches only modules that nothing had evaluated,
      but these may join the parent lists of others. */
  ghost predicate Grew(s: EvalState, t: EvalState) {
    && |t.status| == |s.status| && |t.pending| == |s.pending| && |t.order| == |s.order| && |t.parents| == |s.parents|
    && (forall k :: 0 <= k < |s.status| && s.status[k] != Linked ==> t.status[k] == s.status[k])
    && (forall k :: 0 <= k < |s.status| && k < |s.order| && !NotBegun(s.status[k]) ==> t.order[k] == s.order[k])
    && (forall k :: 0 <= k < |s.status| && (NotBegun(t.status[k]) || t.status[k] == Errored) ==>
          t.status[k] == s.status[k])
    && (forall k :: 0 <= k < |s.status| && k < |s.pending| && !NotBegun(s.status[k]) ==> t.pending[k] == s.pending[k])
    && (forall k :: 0 <= k < |s.status| && !NotBegun(s.status[k]) ==> (Started(t, k) <==> Started(s, k)))
    && (forall m, k :: 0 <= m < |s.parents| && k in t.parents[m] && k < |s.status| && !NotBegun(s.status[k])
          ==> k in s.parents[m])
    && (forall m, k :: 0 <= m < |s.parents| && k in s.parents[m] ==> k in t.parents[m])
  }

  lemma GrewSelf(s: EvalState)
    ensures Grew(s, s)
  {
  }

  lemma GrewTrans(s: EvalState, t: EvalState, u: EvalState)
    requires Grew(s, t) && Grew(t, u)
    ensures Grew(s, u)
  {
  }

  lemma StartsSame(s: EvalState, t: EvalState)
    requires s.events == t.events
    ensures forall m: nat :: (Started(s, m) <==> Started(t, m)) && (Finished(s, m) <==> Finished(t, m))
  {
  }

  lemma GatheredParents(s: EvalState, t: EvalState, available: seq<nat>, more: seq<nat>)
    requires Gathered(s, t, available, more)
    ensures |t.parents| == |s.parents|
    ensures forall m :: 0 <= m < |s.parents| && s.parents[m] == [] ==> t.parents[m] == []
  {
  }

  lemma StartedMore(s: EvalState, t: EvalState, i: nat)
    requires Ran(s, t, i)
    ensures forall k: nat :: Started(s, k) ==> Started(t, k)
  {
  }

  lemma TidyOrdered(pr: Program, s: EvalState, avail: set<nat>, broken: set<nat>)
    requires Tidy(pr, s, avail, broken)
    ensures Ordered(pr, s.events, broken)
  {
  }

  lemma StatusAsync(s: EvalState, i: nat)
    requires Inv(s, NoDrain) && i < |s.status|
    ensures i < |s.order| && Inv(WithAsync(s, i), NoDrain)
  {
    hide Waiting;
    StatusInv(s, i, EvaluatingAsync, NoDrain);
    var t := WithAsync(s, i);
    StartsSame(s, t);
  }

  lemma FinishStep(s: EvalState, i: nat)
    requires Inv(s, NoDrain) && i < |s.status|
    ensures Inv(WithFinish(s, i), NoDrain)
  {
    hide Inv;
    assert |s.status| > 0;
    StatusInvEvaluated(s, i);
    FinishInv(WithStatus(s, i, Evaluated), i, NoDrain);
  }

  lemma StatusInvEvaluated(s: EvalState, i: nat)
    requires Inv(s, NoDrain) && i < |s.status|
    ensures Inv(WithStatus(s, i, Evaluated), NoDrain)
  {
    StatusInv(s, i, Evaluated, NoDrain);
  }

  lemma RanCascaded(s: EvalState, t: EvalState, i: nat)
    requires Ran(s, t, i) && i < |t.status| && !NotBegun(t.status[i])
    requires s.status[i] != Errored && t.status[i] != Errored
    requires forall k: nat :: Started(t, k) <==> Started(s, k)
    ensures Cascaded(s, t, i)
  {
  }

  // ----- released modules -----

  /** From position `x` on, modules that `f` had waiting and that may start. */
  ghost predicate Released(f: EvalState, t: EvalState, ready: seq<nat>, x: nat) {
    && (forall y :: 0 <= y < |ready| ==> ready[y] < |f.pending| && f.pending[ready[y]] > 0)
    && (forall y :: x <= y < |ready| ==> ReleasedAt(t, ready[y]))
  }

  ghost predicate ReleasedAt(t: EvalState, p: nat) {
    && p < |t.pending| && p < |t.parents| && p < |t.status| && p < |t.order|
    && t.pending[p] == 0 && t.parents[p] == [] && t.status[p] == EvaluatingAsync && !Started(t, p)
  }

  /** Modules that were not waiting in `f` have not been touched. */
  ghost predicate StartedOnly(f: EvalState, t: EvalState) {
    && |t.status| == |f.status| && |t.pending| == |f.pending| && |t.parents| == |f.parents|
    && (forall k :: 0 <= k < |f.pending| && !Started(f, k) && Started(t, k) ==> f.pending[k] > 0)
    && (forall k :: 0 <= k < |f.status| && k < |f.pending| && f.pending[k] == 0 ==> t.status[k] == f.status[k])
    && (forall k :: 0 <= k < |f.status| && f.status[k] != EvaluatingAsync ==> t.status[k] == f.status[k])
    && (forall k :: 0 <= k < |f.parents| && f.parents[k] == [] ==> t.parents[k] == [])
    && (forall k :: 0 <= k < |t.parents| && !Started(f, k) && Started(t, k) ==> t.parents[k] == [])
    && MoreBegun(f, t) && SameErrors(f.status, t.status)
    && (forall k: nat :: Finished(f, k) ==> Finished(t, k))
    && (forall k: nat :: Started(f, k) ==> Started(t, k))
  }

  lemma ReleasedAfter(f: EvalState, g: EvalState, available: seq<nat>, ready: seq<nat>)
    requires Inv(f, NoDrain) && Inv(g, NoDrain) && Gathered(f, g, [], available)
    requires Elements(ready) == Elements(available)
    ensures Released(f, g, ready, 0) && StartedOnly(f, g) && Distinct(available)
  {
    hide Waiting;
    StartsSame(f, g);
    forall y | 0 <= y < |ready| ensures ReleasedBy(f, g, ready[y]) && !Started(g, ready[y]) {
      assert ready[y] in Elements(available);
      var x :| 0 <= x < |available| && available[x] == ready[y];
      assert ReleasedBy(f, g, available[x]);
    }
  }

  lemma ReleasedNow(f: EvalState, t: EvalState, ready: seq<nat>, x: nat)
    requires Released(f, t, ready, x) && x < |ready|
    ensures ReleasedAt(t, ready[x])
  {
  }

  /** The asynchronous order of the released modules has not changed. */
  ghost predicate SameOrder(g: EvalState, t: EvalState, ready: seq<nat>) {
    forall y :: 0 <= y < |ready| ==> OrderOf(t.order, ready[y]) == OrderOf(g.order, ready[y])
  }

  /** The first `x` released modules have finished, unless nobody imports them. */
  ghost predicate DoneUpTo(pr: Program, t: EvalState, ready: seq<nat>, x: nat) {
    forall y :: 0 <= y < x && y < |ready| ==> Finished(t, ready[y]) || !Imported(pr, ready[y])
  }

  ghost predicate PastUpTo(t: EvalState, ready: seq<nat>, x: nat) {
    forall y :: 0 <= y < x && y < |ready| ==> !Waits(t, ready[y])
  }

  lemma NotListed(t: EvalState, p: nat)
    requires Inv(t, NoDrain) && p < |t.pending| && t.pending[p] == 0
    ensures forall m :: 0 <= m < |t.parents| ==> p !in t.parents[m]
  {
    hide Waiting;
    forall m | 0 <= m < |t.parents| ensures p !in t.parents[m] {
      if p in t.parents[m] {
        WaitingHas(t.parents, m, p);
      }
    }
  }

  /** What comes first in the order comes first in the sorted sequence. */
  lemma EarlierIn(order: seq<Option<nat>>, xs: seq<nat>, x: nat, d: nat)
    returns (y: nat)
    requires SortedBy(order, xs) && x < |xs| && d in xs
    requires OrderOf(order, d).Some? && OrderOf(order, xs[x]).Some?
    requires OrderOf(order, d).value < OrderOf(order, xs[x]).value
    ensures y < x && xs[y] == d
  {
    y :| 0 <= y < |xs| && xs[y] == d;
  }

  /** When its turn comes, all dependencies of a released module are done. */
  lemma ReleasedReady(pr: Program, t: EvalState, g: EvalState, ready: seq<nat>, x: nat, broken: set<nat>)
    requires Inv(t, NoDrain) && x < |ready| && Tidy(pr, t, {} + Elements(ready), broken)
    requires ReleasedAt(t, ready[x]) && SortedBy(g.order, ready) && SameOrder(g, t, ready) && DoneUpTo(pr, t, ready, x)
    ensures ready[x] < |pr.deps| && DepsDone(pr, t, ready[x], broken)
  {
    hide Inv, Ordered, SortedBy;
    var p := ready[x];
    assert Waits(t, p);
    NotListed(t, p);
    forall d | d in pr.deps[p] ensures Finished(t, d) || d in broken {
      assert Covered(t, {} + Elements(ready), broken, p, d);
      assert Imported(pr, d);
      if d in ready && d < |t.order| && t.order[d].Some? && t.order[p].Some? && t.order[d].value < t.order[p].value {
        var z :| 0 <= z < |ready| && ready[z] == d;
        var y := EarlierIn(g.order, ready, x, d);
        assert ready[y] == d;
      }
    }
  }

  lemma RanReleased(f: EvalState, t: EvalState, u: EvalState, ready: seq<nat>, x: nat)
    requires x < |ready| && Ran(t, u, ready[x]) && Distinct(ready) && Released(f, t, ready, x) && StartedOnly(f, t)
    requires |t.status| == |u.status| == |u.pending| == |u.parents| == |u.order|
    requires ready[x] < |u.status| && !NotBegun(u.status[ready[x]]) && u.status[ready[x]] != Errored
    ensures Released(f, u, ready, x + 1) && StartedOnly(f, u) && u.parents == t.parents
  {
    forall y | x + 1 <= y < |ready| ensures ReleasedAt(u, ready[y]) {
      assert ReleasedAt(t, ready[y]) && ready[y] != ready[x];
    }
  }

  /** A module that waited for others and suspends has no importer. */
  lemma WaitedAlone(pr: Program, t: EvalState, avail: set<nat>, p: nat)
    requires Tracked(pr, t, avail, {}) && AwaitsApart(pr) && ReleasedAt(t, p) && p in pr.awaits
    ensures !Imported(pr, p)
  {
    hide Recorded, Explored, Listed, AwaitBelow, Imported;
    assert Waits(t, p);
  }

  lemma OrderNext(pr: Program, t: EvalState, g: EvalState, u: EvalState, ready: seq<nat>, x: nat, avail: set<nat>,
                  broken: set<nat>)
    requires x < |ready| && Ran(t, u, ready[x]) && ReleasedAt(t, ready[x]) && Tidy(pr, t, avail, broken)
    requires SameOrder(g, t, ready) && DoneUpTo(pr, t, ready, x)
    requires Finished(u, ready[x]) || !Imported(pr, ready[x])
    ensures SameOrder(g, u, ready) && DoneUpTo(pr, u, ready, x + 1)
  {
    hide Ordered, Covered, Imported;
    forall y | 0 <= y < x + 1 ensures Finished(u, ready[y]) || !Imported(pr, ready[y]) {
      if y < x {
        assert Finished(t, ready[y]) || !Imported(pr, ready[y]);
      }
    }
    assert t.order[ready[x]].Some?;
  }

  lemma NothingPast(pr: Program, g: EvalState, ready: seq<nat>)
    ensures PastUpTo(g, ready, 0) && DoneUpTo(pr, g, ready, 0) && SameOrder(g, g, ready)
  {
  }

  lemma AsyncBegun(pr: Program, t: EvalState, avail: set<nat>, owing: set<nat>, p: nat)
    requires Tracked(pr, t, avail, owing) && p < |t.status| && t.status[p] == EvaluatingAsync
    ensures DepsBegun(pr, t, p)
  {
    hide Recorded, Blamed, Listed, DepsBegun;
  }

  lemma PastNext(t: EvalState, u: EvalState, ready: seq<nat>, x: nat)
    requires x < |ready| && Ran(t, u, ready[x]) && PastUpTo(t, ready, x) && !Waits(u, ready[x])
    ensures PastUpTo(u, ready, x + 1)
  {
    forall y | 0 <= y < x + 1 ensures !Waits(u, ready[y]) {
      if y < x && ready[y] != ready[x] {
        assert !Waits(t, ready[y]);
      }
    }
  }

  lemma AllDone(pr: Program, t: EvalState, ready: seq<nat>)
    requires DoneUpTo(pr, t, ready, |ready|)
    ensures forall p :: p in Elements(ready) ==> Finished(t, p) || !Imported(pr, p)
  {
    hide Imported;
  }

  lemma AllPast(t: EvalState, ready: seq<nat>)
    requires PastUpTo(t, ready, |ready|)
    ensures forall p :: p in Elements(ready) ==> !Waits(t, p)
  {
  }

  lemma CascadedStarts(s: EvalState, f: EvalState, t: EvalState, i: nat)
    requires Ran(s, f, i) && Cascaded(s, f, i) && StartedOnly(f, t) && i < |s.status| && |s.status| == |s.pending|
    requires Finished(f, i) && f.status[i] == Evaluated && s.pending[i] == 0
    ensures Cascaded(s, t, i) && Finished(t, i) && t.status[i] == Evaluated
  {
  }

  lemma NothingSorted(xs: seq<nat>, r: seq<nat>)
    requires xs == [] && multiset(r) == multiset(xs)
    ensures r == []
  {
    assert |multiset(r)| == 0;
  }

  // ----- evaluating one more module -----

  /** Linked modules still to be evaluated. */
  function LinkedCount(status: seq<Status>): nat {
    if status == [] then 0 else (if status[0] == Linked then 1 else 0) + LinkedCount(status[1..])
  }

  lemma {:induction false} EnteredCount(status: seq<Status>, i: nat)
    requires i < |status| && status[i] == Linked
    ensures LinkedCount(status[i := Evaluating]) < LinkedCount(status)
    decreases |status|
  {
    if i == 0 {
      assert status[i := Evaluating][1..] == status[1..];
    } else {
      assert status[i := Evaluating][1..] == status[1..][i - 1 := Evaluating];
      EnteredCount(status[1..], i - 1);
    }
  }

  lemma {:induction false} FewerLinked(s: seq<Status>, t: seq<Status>)
    requires |s| == |t| && forall k :: 0 <= k < |s| && t[k] == Linked ==> s[k] == Linked
    ensures LinkedCount(t) <= LinkedCount(s)
    decreases |s|
  {
    if s != [] {
      FewerLinked(s[1..], t[1..]);
    }
  }

  lemma GrewCount(s: EvalState, t: EvalState)
    requires Grew(s, t)
    ensures LinkedCount(t.status) <= LinkedCount(s.status)
  {
    FewerLinked(s.status, t.status);
  }

  lemma GrewStatus(s: EvalState, i: nat)
    requires i < |s.status| && s.status[i] == Linked
    ensures Grew(s, WithStatus(s, i, Evaluating))
  {
    var t := WithStatus(s, i, Evaluating);
    StartsSame(s, t);
  }

  /** Changes of a module that the caller had not begun. */
  lemma GrewAt(s: EvalState, t: EvalState, u: EvalState, i: nat)
    requires Grew(s, t) && Ran(t, u, i) && i < |s.status| && s.status[i] == Linked && !NotBegun(u.status[i])
    requires u.status[i] != Errored
    ensures Grew(s, u)
  {
  }

  lemma GrewWait(s: EvalState, t: EvalState, i: nat, d: nat)
    requires Grew(s, t) && Shaped(t) && i < |s.status| && d < |s.status| && NotBegun(s.status[i])
    ensures Grew(s, WithWait(t, i, d))
  {
    var u := WithWait(t, i, d);
    StartsSame(t, u);
    forall m, k | 0 <= m < |s.parents| && k in u.parents[m] && k < |s.status| && !NotBegun(s.status[k])
      ensures k in s.parents[m]
    {
      if m == d {
        assert k in t.parents[m] || k == i;
      }
    }
  }

  /** What holds of all that `i` needs holds of all that its dependency needs. */
  lemma ClearDown(pr: Program, plan: Plan, s: EvalState, t: EvalState, i: nat, d: nat)
    requires Grew(s, t) && i < |pr.deps| && d in pr.deps[i]
    ensures Unbarred(pr, s, i) ==> Unbarred(pr, t, d)
    ensures Clear(pr, plan, s, i) ==> Clear(pr, plan, t, d)
  {
    hide Reaches;
    forall m: nat | Reaches(pr, d, m) ensures Reaches(pr, i, m) {
      ReachesStep(pr, i, d, m);
    }
  }

  /** The dependencies that have settled have been passed. */
  lemma SettledPassed(t: EvalState, i: nat, deps: seq<nat>, x: nat)
    requires SettledUpTo(t, i, deps, x, {}) && |t.order| == |t.status|
    ensures PassedUpTo(t, deps, x)
  {
    forall y | 0 <= y < x && y < |deps| ensures Passed(t, deps[y]) {
      assert SettledDep(t, i, deps[y], {});
    }
  }

  lemma PassedMore(t: EvalState, u: EvalState, deps: seq<nat>, x: nat)
    requires PassedUpTo(t, deps, x) && Grew(t, u)
    ensures PassedUpTo(u, deps, x)
  {
  }

  lemma NotJson(pr: Program, i: nat)
    requires ProgramOk(pr, |pr.deps|) && i < |pr.deps| && pr.deps[i] != []
    ensures i !in pr.json
  {
  }

  lemma AllPassed(pr: Program, t: EvalState, i: nat)
    requires i < |pr.deps| && PassedUpTo(t, pr.deps[i], |pr.deps[i]|)
    ensures DepsPassed(pr, t, i)
  {
    hide Passed;
  }

  /** Module `i` is listed only for the first `x` of its dependencies. */
  ghost predicate ListedUpTo(t: EvalState, i: nat, deps: seq<nat>, x: nat) {
    forall m :: 0 <= m < |t.parents| && i in t.parents[m] ==> exists y :: 0 <= y < x && y < |deps| && deps[y] == m
  }

  /** The first `x` dependencies have been evaluated as far as they go, and
      those that are not done have `i` in their lists or are broken. */
  ghost predicate SettledUpTo(t: EvalState, i: nat, deps: seq<nat>, x: nat, broken: set<nat>) {
    forall y :: 0 <= y < x && y < |deps| ==> SettledDep(t, i, deps[y], broken)
  }

  ghost predicate SettledDep(t: EvalState, i: nat, d: nat, broken: set<nat>) {
    d < |t.status| && d < |t.parents|
    && (t.status[d] == Evaluated || (t.status[d] == EvaluatingAsync && i in t.parents[d]) || d in broken)
  }

  /** The first `x` dependencies have begun. */
  ghost predicate BegunUpTo(t: EvalState, deps: seq<nat>, x: nat) {
    forall y :: 0 <= y < x && y < |deps| ==> deps[y] < |t.status| && !NotBegun(t.status[deps[y]])
  }

  lemma BegunNext(t: EvalState, u: EvalState, deps: seq<nat>, x: nat)
    requires BegunUpTo(t, deps, x) && MoreBegun(t, u) && x < |deps| && deps[x] < |u.status|
    requires !NotBegun(u.status[deps[x]])
    ensures BegunUpTo(u, deps, x + 1)
  {
  }

  lemma BegunSteady(t: EvalState, u: EvalState, deps: seq<nat>, x: nat)
    requires BegunUpTo(t, deps, x) && u.status == t.status
    ensures BegunUpTo(u, deps, x)
  {
  }

  lemma BegunSame(pr: Program, t: EvalState, u: EvalState, i: nat)
    requires DepsBegun(pr, t, i) && u.status == t.status
    ensures DepsBegun(pr, u, i)
  {
  }

  lemma BegunAll(pr: Program, t: EvalState, i: nat)
    requires i < |pr.deps| && BegunUpTo(t, pr.deps[i], |pr.deps[i]|)
    ensures DepsBegun(pr, t, i)
  {
  }

  lemma BegunSelf(s: EvalState)
    ensures MoreBegun(s, s)
  {
  }

  lemma BegunOn(s: EvalState, t: EvalState, u: EvalState)
    requires MoreBegun(s, t) && MoreBegun(t, u)
    ensures MoreBegun(s, u)
  {
  }

  lemma BegunErrored(s: EvalState, t: EvalState, i: nat)
    requires MoreBegun(s, t) && i < |t.status|
    ensures forall u: EvalState :: u.status == t.status[i := Errored] ==> MoreBegun(s, u)
  {
  }

  lemma GrewBegun(s: EvalState, t: EvalState)
    requires Grew(s, t)
    ensures MoreBegun(s, t)
  {
  }

  lemma NotListedYet(s: EvalState, i: nat, deps: seq<nat>)
    requires Inv(s, NoDrain) && i < |s.status| && NotBegun(s.status[i])
    ensures ListedUpTo(WithStatus(s, i, Evaluating), i, deps, 0) && s.pending[i] == 0 && s.parents[i] == []
    ensures !Started(s, i)
  {
    hide Waiting;
    NotListed(s, i);
  }

  lemma ListedStays(t: EvalState, u: EvalState, i: nat, deps: seq<nat>, x: nat)
    requires Grew(t, u) && i < |t.status| && !NotBegun(t.status[i]) && ListedUpTo(t, i, deps, x)
    ensures ListedUpTo(u, i, deps, x)
  {
  }

  lemma ListedFresh(t: EvalState, i: nat, deps: seq<nat>, x: nat)
    requires ListedUpTo(t, i, deps, x) && x < |deps| && deps[x] < |t.parents|
    requires forall a, b :: 0 <= a < b < |deps| ==> deps[a] != deps[b]
    ensures i !in t.parents[deps[x]]
  {
  }

  lemma ListedNext(t: EvalState, i: nat, deps: seq<nat>, x: nat)
    requires Shaped(t) && ListedUpTo(t, i, deps, x) && x < |deps| && i < |t.status| && deps[x] < |t.status|
    ensures ListedUpTo(WithWait(t, i, deps[x]), i, deps, x + 1) && ListedUpTo(t, i, deps, x + 1)
  {
  }

  lemma SettledStays(t: EvalState, u: EvalState, i: nat, deps: seq<nat>, x: nat, broken: set<nat>)
    requires SettledUpTo(t, i, deps, x, broken) && Grew(t, u)
    ensures SettledUpTo(u, i, deps, x, broken)
  {
    forall y | 0 <= y < x && y < |deps| ensures SettledDep(u, i, deps[y], broken) {
      assert SettledDep(t, i, deps[y], broken);
    }
  }

  /** Modules under evaluation: `i` and those that `s` had under way. */
  ghost predicate UnderWay(s: EvalState, t: EvalState, i: nat) {
    |t.status| == |s.status| && forall k :: 0 <= k < |t.status| && t.status[k] == Evaluating ==>
      k == i || s.status[k] == Evaluating
  }

  ghost predicate NothingNew(s: EvalState, t: EvalState) {
    |t.status| == |s.status| && forall k :: 0 <= k < |t.status| && t.status[k] == Evaluating ==>
      s.status[k] == Evaluating
  }

  lemma NothingNewAfter(s: EvalState, f: EvalState, t: EvalState, i: nat)
    requires i < |s.status| && f.status == s.status[i := Evaluated] && (t == f || NothingNew(f, t))
    ensures NothingNew(s, t)
  {
  }

  /** Everything under way depends on what is to be evaluated next; what a
      failed import has left under way is broken. */
  ghost predicate Above(s: EvalState, rank: seq<nat>, i: nat, broken: set<nat>) {
    i < |rank|
    && forall k :: 0 <= k < |s.status| && k < |rank| && s.status[k] == Evaluating && k !in broken ==> rank[k] > rank[i]
  }

  lemma AboveDep(pr: Program, rank: seq<nat>, s: EvalState, t: EvalState, i: nat, d: nat, broken: set<nat>)
    requires Acyclic(pr, rank) && |pr.deps| == |s.status| && i < |rank| && d in pr.deps[i]
    requires Above(s, rank, i, broken) && UnderWay(s, t, i)
    ensures Above(t, rank, d, broken)
  {
  }

  /** Below everything under way, a dependency that was evaluated is not under
      way itself. */
  lemma DepSettles(pr: Program, rank: seq<nat>, s: EvalState, u: EvalState, i: nat, d: nat, broken: set<nat>)
    requires Acyclic(pr, rank) && |pr.deps| == |s.status| && i < |rank| && d in pr.deps[i]
    requires Above(s, rank, i, broken) && UnderWay(s, u, i)
    ensures d < |u.status| && (u.status[d] != Evaluating || d in broken)
  {
    hide UnderWay, Above;
    RankFalls(pr, rank, i, d);
    NotUnderWay(s, u, rank, i, d, broken);
  }

  lemma RankFalls(pr: Program, rank: seq<nat>, i: nat, d: nat)
    requires Acyclic(pr, rank) && |pr.deps| == |rank| && i < |rank| && d in pr.deps[i]
    ensures d < |rank| && rank[d] < rank[i]
  {
  }

  lemma StaysUnderWay(s: EvalState, t: EvalState, u: EvalState, i: nat)
    requires UnderWay(s, t, i) && NothingNew(t, u)
    ensures UnderWay(s, u, i)
  {
  }

  lemma NotUnderWay(s: EvalState, u: EvalState, rank: seq<nat>, i: nat, d: nat, broken: set<nat>)
    requires Above(s, rank, i, broken) && UnderWay(s, u, i)
    requires d < |rank| && |rank| == |s.status| && rank[d] < rank[i]
    ensures d < |u.status| && (u.status[d] != Evaluating || d in broken)
  {
  }

  lemma WaitSettles(t: EvalState, i: nat, deps: seq<nat>, x: nat, broken: set<nat>)
    requires Shaped(t) && i < |t.status| && x < |deps| && deps[x] < |t.status| && t.status[deps[x]] == EvaluatingAsync
    requires SettledUpTo(t, i, deps, x, broken)
    ensures SettledUpTo(WithWait(t, i, deps[x]), i, deps, x + 1, broken)
  {
    var u := WithWait(t, i, deps[x]);
    forall y | 0 <= y < x + 1 ensures SettledDep(u, i, deps[y], broken) {
      if y < x {
        assert SettledDep(t, i, deps[y], broken);
      }
    }
  }

  lemma DoneSettles(t: EvalState, i: nat, deps: seq<nat>, x: nat, broken: set<nat>)
    requires Shaped(t) && x < |deps| && deps[x] < |t.status| && SettledUpTo(t, i, deps, x, broken)
    requires t.status[deps[x]] == Evaluated || deps[x] in broken
    ensures SettledUpTo(t, i, deps, x + 1, broken)
  {
  }

  /** With nothing left to wait for, all dependencies are done. */
  lemma SettledDone(pr: Program, t: EvalState, i: nat, broken: set<nat>)
    requires Inv(t, NoDrain) && Tidy(pr, t, {}, broken) && i < |t.pending| && t.pending[i] == 0 && i < |pr.deps|
    requires SettledUpTo(t, i, pr.deps[i], |pr.deps[i]|, broken)
    ensures DepsDone(pr, t, i, broken)
  {
    hide Inv, Ordered, Covered, Waits;
    NotListed(t, i);
    forall d | d in pr.deps[i] ensures Finished(t, d) || d in broken {
      var y :| 0 <= y < |pr.deps[i]| && pr.deps[i][y] == d;
      assert SettledDep(t, i, pr.deps[i][y], broken);
    }
  }

  lemma SettledWaiting(pr: Program, t: EvalState, i: nat, broken: set<nat>)
    requires i < |pr.deps| && SettledUpTo(t, i, pr.deps[i], |pr.deps[i]|, broken)
    ensures forall d :: d in pr.deps[i] ==>
              d < |t.status| && d < |t.parents|
              && (t.status[d] == Evaluated || (t.status[d] == EvaluatingAsync && i in t.parents[d]) || d in broken)
  {
    forall d | d in pr.deps[i] ensures SettledDep(t, i, d, broken) {
      var y :| 0 <= y < |pr.deps[i]| && pr.deps[i][y] == d;
    }
  }

  lemma GrewKeeps(s: EvalState, t: EvalState, i: nat)
    requires Grew(s, t) && i < |s.status| && i < |s.pending| && !NotBegun(s.status[i])
    ensures t.status[i] == s.status[i] && t.pending[i] == s.pending[i] && (Started(t, i) <==> Started(s, i))
  {
  }

  lemma InvWaitedFor(t: EvalState, i: nat)
    requires Inv(t, NoDrain) && i < |t.status| && t.status[i] == Evaluating
    ensures i < |t.parents| && t.parents[i] == []
  {
  }

  lemma InvShape(t: EvalState)
    requires Inv(t, NoDrain)
    ensures Shaped(t)
  {
  }

  lemma WaitUnderWay(s: EvalState, u: EvalState, i: nat, d: nat)
    requires UnderWay(s, u, i) && Shaped(u) && i < |u.status| && d < |u.status|
    ensures UnderWay(s, WithWait(u, i, d), i)
  {
  }

  lemma RanUnderWay(s: EvalState, t: EvalState, u: EvalState, i: nat)
    requires Ran(t, u, i) && i < |u.status|
    ensures UnderWay(s, t, i) && u.status[i] != Evaluating ==> NothingNew(s, u)
  {
  }

  // ----- between calls -----

  lemma StatusErrored(s: EvalState, i: nat)
    requires Inv(s, NoDrain) && i < |s.status|
    ensures Inv(WithStatus(s, i, Errored), NoDrain)
  {
    StatusInv(s, i, Errored, NoDrain);
  }

  /** A started module waits for nothing. */
  lemma RanAlready(s: EvalState, i: nat)
    requires Inv(s, NoDrain) && i < |s.status| && Started(s, i)
    ensures i < |s.pending| && s.pending[i] == 0
  {
  }

  /** Only abandoned modules are under way between calls from outside. */
  ghost predicate OnlyBroken(s: EvalState, broken: set<nat>) {
    && (forall m :: 0 <= m < |s.status| && s.status[m] == Evaluating ==> m in broken)
    && (forall m :: m in broken ==> m < |s.status| && s.status[m] == Evaluating)
    && (broken != {} ==> exists m :: 0 <= m < |s.status| && s.status[m] == Errored)
  }

  /** Modules that neither were new nor waited have kept their status. */
  ghost predicate KeepsOthers(s: EvalState, t: EvalState, i: nat) {
    |t.status| == |s.status|
    && forall k :: 0 <= k < |s.status| && k != i && !NotBegun(s.status[k]) && s.status[k] != EvaluatingAsync ==>
         t.status[k] == s.status[k]
  }

  lemma EntrySettles(s: EvalState, t: EvalState, broken: set<nat>)
    requires OnlyBroken(s, broken) && NothingNew(s, t) && Grew(s, t)
    ensures OnlyBroken(t, broken)
  {
    if broken != {} {
      var m :| 0 <= m < |s.status| && s.status[m] == Errored;
      assert t.status[m] == Errored;
    }
  }

  lemma LinkedSettles(s: EvalState, t: EvalState, i: nat, broken: set<nat>)
    requires OnlyBroken(s, broken) && NothingNew(s, t) && KeepsOthers(s, t, i) && i < |s.status|
    requires s.status[i] == Linked
    ensures OnlyBroken(t, broken)
  {
    if broken != {} {
      var m :| 0 <= m < |s.status| && s.status[m] == Errored;
      assert t.status[m] == Errored;
    }
  }

  lemma AsyncSettles(s: EvalState, t: EvalState, i: nat, broken: set<nat>)
    requires OnlyBroken(s, broken) && NothingNew(s, t) && KeepsOthers(s, t, i)
    requires i < |s.status| && s.status[i] == EvaluatingAsync
    ensures OnlyBroken(t, broken)
  {
    if broken != {} {
      var m :| 0 <= m < |s.status| && s.status[m] == Errored;
      assert t.status[m] == Errored;
    }
  }

  lemma ErroredSettles(s: EvalState, i: nat, broken: set<nat>)
    requires OnlyBroken(s, broken) && i < |s.status| && s.status[i] == EvaluatingAsync
    ensures forall t: EvalState :: t.status == s.status[i := Errored] ==> OnlyBroken(t, broken)
  {
    forall t: EvalState | t.status == s.status[i := Errored] ensures OnlyBroken(t, broken) {
      if broken != {} {
        var m :| 0 <= m < |s.status| && s.status[m] == Errored;
        assert t.status[m] == Errored;
      }
    }
  }

  /** Module `i` has been resumed to its end: what this has started has nobody
      left to notify. */
  ghost predicate Resumed(s: EvalState, t: EvalState, i: nat) {
    && |t.status| == |s.status| && |t.parents| == |s.parents|
    && i < |t.status| && t.status[i] == Evaluated && MoreBegun(s, t)
    && (forall k: nat :: Started(s, k) ==> Started(t, k))
    && (forall k :: 0 <= k < |t.parents| && !Started(s, k) && Started(t, k) ==> t.parents[k] == [])
  }

  lemma CascadedResumed(s: EvalState, t: EvalState, i: nat)
    requires Cascaded(s, t, i) && i < |t.status| && t.status[i] == Evaluated
    ensures Resumed(s, t, i)
  {
  }

  lemma FewSorted(xs: seq<nat>, r: seq<nat>)
    requires multiset(r) == multiset(xs)
    ensures |xs| <= 1 ==> r == xs
  {
    assert |multiset(r)| == |r| && |multiset(xs)| == |xs|;
    if |xs| == 1 {
      assert xs == [xs[0]] && r == [r[0]];
      assert r[0] in multiset(xs);
    }
  }

  lemma GrewOthers(s: EvalState, t: EvalState, i: nat)
    requires Grew(s, t)
    ensures KeepsOthers(s, t, i)
  {
  }

  lemma CascadedOthers(s: EvalState, t: EvalState, i: nat)
    requires Cascaded(s, t, i)
    ensures KeepsOthers(s, t, i)
  {
  }

  /** What a failed import leaves under way is broken from now on. */
  lemma NowBroken(s: EvalState, t: EvalState, i: nat, broken: set<nat>, more: set<nat>)
    requires OnlyBroken(s, broken) && KeepsOthers(s, t, i) && i < |t.status| && t.status[i] == Errored
    requires more == (set m: nat | m < |t.status| && t.status[m] == Evaluating) && i !in broken
    ensures OnlyBroken(t, more) && broken <= more
  {
  }

  /** No body has started that depends on a module still under way. */
  ghost predicate NoneMissed(pr: Program, s: EvalState) {
    forall m, d :: 0 <= m < |pr.deps| && d in pr.deps[m] && Started(s, m) ==>
      d < |s.status| && s.status[d] != Evaluating
  }

  lemma MissedBroken(pr: Program, s: EvalState, broken: set<nat>)
    requires ProgramOk(pr, |s.status|) && OnlyBroken(s, broken)
    ensures NoneMissed(pr, s) <==>
            forall m, d :: 0 <= m < |pr.deps| && d in pr.deps[m] && Start(m) in s.events ==> d !in broken
  {
    forall m, d | 0 <= m < |pr.deps| && d in pr.deps[m]
      ensures d < |s.status| && (s.status[d] != Evaluating <==> d !in broken)
    {
      var x :| 0 <= x < |pr.deps[m]| && pr.deps[m][x] == d;
    }
  }

  /** Abandoned modules never finish. */
  lemma BrokenOpen(pr: Program, s: EvalState, broken: set<nat>)
    requires Tracked(pr, s, {}, {}) && OnlyBroken(s, broken)
    ensures forall m :: m in broken ==> !Finished(s, m)
  {
    hide Explored, Blamed, Listed;
    forall m | m in broken ensures !Finished(s, m) {
      assert Finished(s, m) ==> FinishedWell(pr, s, m);
    }
  }

  lemma InvOnce(s: EvalState)
    requires Inv(s, NoDrain)
    ensures OnceEach(s.events)
  {
  }
}
