/** The state of module evaluation: statuses, counters of pending asynchronous
    dependencies, and for each module the parents that wait for it. */
module EvalStates {
  import opened Syntax
  import opened ModuleGraphs

  /** What an observer of evaluation sees. */
  datatype Event = Start(m: nat) | Finish(m: nat)

  datatype EvalState = EvalState(
    status: seq<Status>,
    pending: seq<nat>,
    parents: seq<seq<nat>>,
    order: seq<Option<nat>>,
    nextOrder: nat,
    events: seq<Event>)

  ghost predicate Shaped(s: EvalState) {
    var n := |s.status|;
    && |s.pending| == n && |s.parents| == n && |s.order| == n
    && forall m, k :: 0 <= m < n && k in s.parents[m] ==> k < n
  }

  /** All entries of all parent lists, with their multiplicities. */
  function Waiting(parents: seq<seq<nat>>): multiset<nat> {
    if parents == [] then multiset{} else multiset(parents[0]) + Waiting(parents[1..])
  }

  lemma {:induction false} WaitingSet(parents: seq<seq<nat>>, i: nat, ps: seq<nat>, k: nat)
    requires i < |parents|
    ensures Waiting(parents[i := ps])[k] + multiset(parents[i])[k] == Waiting(parents)[k] + multiset(ps)[k]
    decreases |parents|
  {
    if i == 0 {
      assert parents[i := ps][1..] == parents[1..];
    } else {
      assert parents[i := ps][1..] == parents[1..][i - 1 := ps];
      WaitingSet(parents[1..], i - 1, ps, k);
    }
  }

  lemma {:induction false} WaitingHas(parents: seq<seq<nat>>, i: nat, k: nat)
    requires i < |parents| && k in parents[i]
    ensures Waiting(parents)[k] > 0
    decreases |parents|
  {
    if i > 0 {
      WaitingHas(parents[1..], i - 1, k);
    }
  }

  lemma {:induction false} WaitingFrom(parents: seq<seq<nat>>, k: nat)
    requires Waiting(parents)[k] > 0
    ensures exists i :: 0 <= i < |parents| && k in parents[i]
    decreases |parents|
  {
    if k in parents[0] {
    } else {
      WaitingFrom(parents[1..], k);
      var i :| 0 <= i < |parents[1..]| && k in parents[1..][i];
      assert k in parents[i + 1];
    }
  }

  function ListedTotal(parents: seq<seq<nat>>): nat {
    if parents == [] then 0 else |parents[0]| + ListedTotal(parents[1..])
  }

  lemma {:induction false} TakenTotal(parents: seq<seq<nat>>, i: nat)
    requires i < |parents|
    ensures ListedTotal(parents[i := []]) + |parents[i]| == ListedTotal(parents)
    decreases |parents|
  {
    if i == 0 {
      assert parents[i := []][1..] == parents[1..];
    } else {
      assert parents[i := []][1..] == parents[1..][i - 1 := []];
      TakenTotal(parents[1..], i - 1);
    }
  }

  // ----- the invariant -----

  predicate NotBegun(s: Status) {
    s == Unlinked || s == Linking || s == Linked
  }

  predicate BeforeWaiting(s: Status) {
    NotBegun(s) || s == Evaluating
  }

  ghost predicate Started(s: EvalState, m: nat) {
    Start(m) in s.events
  }

  /** The counter of a module is the number of its entries in parent lists,
      those being drained included. */
  ghost predicate Conserved(s: EvalState, drained: multiset<nat>) {
    forall k: nat :: k < |s.pending| ==> s.pending[k] == Waiting(s.parents)[k] + drained[k]
  }

  /** Nobody is listed twice for the same dependency. */
  ghost predicate ListedOnce(s: EvalState) {
    forall m, k :: 0 <= m < |s.parents| ==> multiset(s.parents[m])[k] <= 1
  }

  /** Only modules that have become asynchronous have parents waiting. */
  ghost predicate WaitedFor(s: EvalState) {
    forall m :: 0 <= m < |s.status| && m < |s.parents| && BeforeWaiting(s.status[m]) ==> s.parents[m] == []
  }

  ghost predicate NothingBegun(s: EvalState) {
    forall m :: 0 <= m < |s.status| && m < |s.pending| && NotBegun(s.status[m]) ==> s.pending[m] == 0 && !Started(s, m)
  }

  /** A module whose body has started waits for nothing. */
  ghost predicate StartedRan(s: EvalState) {
    forall m :: 0 <= m < |s.pending| && Started(s, m) ==> s.pending[m] == 0
  }

  ghost predicate OnceEach(events: seq<Event>) {
    forall x, y :: 0 <= x < y < |events| && events[x].Start? ==> events[x] != events[y]
  }

  ghost predicate Inv(s: EvalState, drained: multiset<nat>) {
    && Shaped(s) && Conserved(s, drained) && ListedOnce(s) && WaitedFor(s)
    && NothingBegun(s) && StartedRan(s) && OnceEach(s.events)
    && forall k :: k in drained ==> k < |s.status|
  }

  const NoDrain: multiset<nat> := multiset{}

  // ----- single changes -----

  function WithStatus(s: EvalState, i: nat, st: Status): EvalState
    requires i < |s.status|
  {
    s.(status := s.status[i := st])
  }

  lemma StatusInv(s: EvalState, i: nat, st: Status, drained: multiset<nat>)
    requires Inv(s, drained) && i < |s.status| && !NotBegun(st)
    requires BeforeWaiting(st) ==> s.parents[i] == []
    ensures Inv(WithStatus(s, i, st), drained)
  {
    hide Waiting;
  }

  function WithEvent(s: EvalState, e: Event): EvalState {
    s.(events := s.events + [e])
  }

  lemma StartInv(s: EvalState, i: nat, drained: multiset<nat>)
    requires Inv(s, drained) && i < |s.status| && !Started(s, i) && s.pending[i] == 0 && !NotBegun(s.status[i])
    ensures Inv(WithEvent(s, Start(i)), drained)
  {
    hide Waiting;
    var t := WithEvent(s, Start(i));
    assert forall m :: Started(t, m) <==> Started(s, m) || m == i;
  }

  lemma FinishInv(s: EvalState, i: nat, drained: multiset<nat>)
    requires Inv(s, drained)
    ensures Inv(WithEvent(s, Finish(i)), drained)
    ensures forall m :: Started(WithEvent(s, Finish(i)), m) <==> Started(s, m)
  {
    hide Waiting;
    var t := WithEvent(s, Finish(i));
    assert forall m :: Started(t, m) <==> Started(s, m);
  }

  /** Module `i` starts to wait for module `d`. */
  function WithWait(s: EvalState, i: nat, d: nat): EvalState
    requires Shaped(s) && i < |s.status| && d < |s.status|
  {
    s.(pending := s.pending[i := s.pending[i] + 1],
       parents := s.parents[d := if i in s.parents[d] then s.parents[d] else s.parents[d] + [i]])
  }

  lemma WaitInv(s: EvalState, i: nat, d: nat)
    requires Inv(s, NoDrain) && i < |s.status| && d < |s.status|
    requires s.status[d] == EvaluatingAsync && s.status[i] == Evaluating && !Started(s, i) && i !in s.parents[d]
    ensures Inv(WithWait(s, i, d), NoDrain)
  {
    hide Waiting;
    var t := WithWait(s, i, d);
    assert multiset(s.parents[d] + [i]) == multiset(s.parents[d]) + multiset{i};
    forall k: nat | k < |s.pending| ensures t.pending[k] == Waiting(t.parents)[k] + NoDrain[k] {
      WaitingSet(s.parents, d, s.parents[d] + [i], k);
    }
    assert i !in multiset(s.parents[d]);
  }

  /** The parents of `i`, taken off its list to be notified. */
  function WithTaken(s: EvalState, i: nat): EvalState
    requires i < |s.parents|
  {
    s.(parents := s.parents[i := []])
  }

  lemma TakeInv(s: EvalState, i: nat, drained: multiset<nat>)
    requires Inv(s, drained) && i < |s.parents|
    ensures Inv(WithTaken(s, i), drained + multiset(s.parents[i]))
    ensures ListedTotal(WithTaken(s, i).parents) + |s.parents[i]| == ListedTotal(s.parents)
  {
    hide Waiting;
    var t := WithTaken(s, i);
    TakenTotal(s.parents, i);
    var ps := multiset(s.parents[i]);
    forall k: nat | k < |s.pending| ensures t.pending[k] == Waiting(t.parents)[k] + (drained + ps)[k] {
      WaitingSet(s.parents, i, [], k);
    }
    assert forall k :: k in ps <==> k in s.parents[i];
  }

  /** A notified parent waits for one dependency less; subtraction stops at
      zero. */
  function WithNotice(s: EvalState, p: nat): EvalState
    requires p < |s.pending|
  {
    s.(pending := s.pending[p := if s.pending[p] == 0 then 0 else s.pending[p] - 1])
  }

  /** The subtraction never has to stop at zero. */
  lemma NoticeInv(s: EvalState, p: nat, drained: multiset<nat>)
    requires Inv(s, drained + multiset{p}) && p < |s.pending|
    ensures s.pending[p] > 0
    ensures Inv(WithNotice(s, p), drained)
  {
    hide Waiting;
    assert s.pending[p] == Waiting(s.parents)[p] + (drained + multiset{p})[p];
    assert forall k :: k in drained ==> k in drained + multiset{p};
  }
}
