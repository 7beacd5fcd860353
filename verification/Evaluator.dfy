/** Module evaluation. The interpreter is a host that answers questions: a body
    that is started or resumed completes, suspends or throws. */
module Evaluator {
  import opened Syntax
  import opened ModuleGraphs
  import opened EvalStates
  import opened EvalOrder
  import opened EvalTrack
  import opened EvalShield
  import opened EvalScript
  import opened EvalSteps
  import opened EvalFailure

  datatype Outcome = Completed | Suspended | Threw | Fault

  datatype EvalResult = Ok | Exception | EngineError

  /** A dynamic import that a running body has asked for. */
  datatype ImportRequest = Resolved(target: nat) | Unresolved

  datatype JobsOutcome = NoJobs | JobsRan | JobFailed

  /** What the interpreter does, by the number of the question put to it. */
  datatype Host = Host(
    begin: (nat, nat) -> Outcome,
    resume: (nat, nat) -> Outcome,
    settles: nat -> bool,
    requests: nat -> seq<ImportRequest>,
    jobs: nat -> JobsOutcome,
    ready: (nat, nat) -> bool,
    idle: nat -> bool)

  /** What has happened to the promise of an order: modules that failed imports
      have left under way, modules resumed to their end, whether any of these had
      modules waiting for it, and the module that was entered before any import
      failed. */
  datatype Ledger = Ledger(abandoned: set<nat>, woken: set<nat>, released: bool, entry: Option<nat>)

  const NewLedger := Ledger({}, {}, false, None)

  /** No import has failed yet, or the program is safe against failed imports. */
  ghost predicate Shield(pr: Program, l: Ledger) {
    l.abandoned == {} || (l.entry.Some? && Shielded(pr, l.entry.value))
  }

  /** The modules that others may come to without waiting for them. */
  ghost function Broken(pr: Program, l: Ledger): set<nat> {
    if Shield(pr, l) then {} else l.abandoned
  }

  /** A host in which no body throws. */
  ghost predicate NeverThrows(host: Host) {
    forall t: nat, i: nat :: !host.begin(t, i).Threw? && !host.resume(t, i).Threw?
  }

  /** A host that is never in trouble: bodies are there, promises settle and jobs
      do not fail. */
  ghost predicate SoundHost(host: Host) {
    && (forall t: nat, i: nat :: !host.begin(t, i).Fault? && !host.resume(t, i).Fault?)
    && (forall t: nat :: host.settles(t) && !host.jobs(t).JobFailed?)
  }

  /** Running code asks for an import of the module at some time. */
  ghost predicate Requested(host: Host, m: nat) {
    exists t: nat :: Resolved(m) in host.requests(t)
  }

  /** A host that never has anything to do. */
  ghost predicate NeverBusy(host: Host) {
    && (forall t: nat :: host.requests(t) == [] && !host.jobs(t).JobsRan?)
    && (forall t: nat, i: nat :: !host.ready(t, i))
  }

  ghost predicate NoRequests(host: Host) {
    forall t: nat :: host.requests(t) == []
  }

  /** From statuses `s` and `a` bodies that had thrown to statuses `t` and `b`:
      every exception has been caught by an import of the module that failed. */
  ghost predicate Tally(host: Host, s: seq<Status>, a: nat, t: seq<Status>, b: nat) {
    && |s| == |t| && a <= b && b + ErrorCount(s) == a + ErrorCount(t)
    && forall k :: 0 <= k < |s| && t[k] == Errored && s[k] != Errored ==> Requested(host, k)
  }

  lemma TallyOn(host: Host, s: seq<Status>, a: nat, t: seq<Status>, b: nat, u: seq<Status>, c: nat)
    requires Tally(host, s, a, t, b) && Tally(host, t, b, u, c)
    ensures Tally(host, s, a, u, c)
  {
    hide Requested;
  }

  lemma TallyMore(host: Host, s: seq<Status>, a: nat, t: seq<Status>, b: nat)
    requires Tally(host, s, a, t, b)
    ensures a <= b
  {
  }

  lemma TallySame(host: Host, s: seq<Status>, t: seq<Status>, a: nat)
    requires SameErrors(s, t)
    ensures Tally(host, s, a, t, a)
  {
    SameCount(s, t);
  }

  lemma TallyCaught(host: Host, s: seq<Status>, t: seq<Status>, i: nat, a: nat)
    requires SameErrors(s, t) && i < |t| && t[i] != Errored && Requested(host, i)
    ensures Tally(host, s, a, t[i := Errored], a + 1)
  {
    SameCount(s, t);
    OneMore(t, i);
  }

  /** A host that follows the plan. */
  ghost predicate Follows(host: Host, plan: Plan) {
    && (forall t: nat, i: nat :: host.begin(t, i) == Beginning(plan, i))
    && (forall t: nat, i: nat :: host.resume(t, i) == Completed)
    && (forall t: nat :: host.settles(t) && host.jobs(t) == NoJobs && Asks(host.requests(t), plan.imports))
    && (forall t: nat, i: nat :: host.ready(t, i) <==> i == plan.wake)
  }

  function Beginning(plan: Plan, i: nat): Outcome {
    if i in plan.held then Suspended else if i in plan.throws then Threw else Completed
  }

  ghost predicate Asks(requests: seq<ImportRequest>, imports: seq<nat>) {
    |requests| == |imports| && forall x :: 0 <= x < |imports| ==> requests[x] == Resolved(imports[x])
  }

  class ModuleEvaluator {
    var status: seq<Status>
    var pending: seq<nat>
    var parents: seq<seq<nat>>
    var order: seq<Option<nat>>
    var nextOrder: nat
    var waiters: seq<nat>
    var suspended: set<nat>
    var clock: nat
    ghost var events: seq<Event>
    ghost var throws: nat
    ghost var ledger: Ledger
    const program: Program
    const host: Host
    ghost const plan: Plan

    ghost function State(): EvalState
      reads this
    {
      EvalState(status, pending, parents, order, nextOrder, events)
    }

    /** Evaluation of a linked graph that nothing has been evaluated of. */
    constructor (status: seq<Status>, program: Program, host: Host, ghost plan: Plan)
      requires ProgramOk(program, |status|) && forall m :: 0 <= m < |status| ==> NotBegun(status[m])
      ensures this.program == program && this.host == host && this.plan == plan
      ensures this.status == status && events == [] && ledger == NewLedger
      ensures EventsInOrder() && ((forall m :: 0 <= m < |status| ==> status[m] == Linked) || !Scripted() ==> Valid())
    {
      this.status, this.program, this.host, this.plan := status, program, host, plan;
      pending, parents := seq(|status|, i => 0), seq(|status|, i => []);
      order, waiters := seq(|status|, i => None), seq(|status|, i => 0);
      nextOrder, suspended, clock, events, throws, ledger := 0, {}, 0, [], 0, NewLedger;
      new;
      FreshValid();
    }

    lemma FreshValid()
      requires ProgramOk(program, |status|) && |waiters| == |status| && suspended == {} && ledger == NewLedger
      requires |pending| == |parents| == |order| == |status| && events == []
      requires forall m :: 0 <= m < |status| ==>
                 pending[m] == 0 && parents[m] == [] && order[m] == None && NotBegun(status[m]) && waiters[m] == 0
      ensures EventsInOrder() && ((forall m :: 0 <= m < |status| ==> status[m] == Linked) || !Scripted() ==> Valid())
    {
      hide Inv, Tidy, Tracked, Clean, Acyclic, AwaitsApart, Follows, Shielded;
      FreshInv(State());
      FreshTidy(program, State());
      TrackFresh(program, State());
      CleanFresh(program, State());
      FreshPlayed(State(), plan);
    }

    ghost predicate Base(drained: multiset<nat>)
      reads this
    {
      && Inv(State(), drained) && ProgramOk(program, |status|) && |waiters| == |status|
      && (forall m :: m in suspended ==> Started(State(), m))
      && (NeverThrows(host) ==> ledger.abandoned == {})
    }

    /** Starts come in order on an acyclic graph, until a module is released by
        one that waited for others itself. */
    ghost predicate Promised()
      reads this
    {
      Acyclic(program, plan.rank) && (AwaitsApart(program) || !ledger.released)
    }

    ghost predicate Scripted() {
      && Follows(host, plan) && plan.held <= program.awaits && plan.throws !! program.json
      && (plan.held == {} || plan.throws == {})
    }

    /** A script that wakes a module. */
    ghost predicate Waking() {
      Scripted() && plan.throws == {} && plan.imports == []
    }

    /** What failed imports have left does not matter. */
    ghost predicate CleanAt(s: EvalState)
      reads this
    {
      Promised() && Shield(program, ledger) ==> Clean(program, s, ledger.abandoned, ledger.entry)
    }

    /** The evaluation of `i` may come to its end. */
    ghost predicate Grounded(s: EvalState, i: nat)
      reads this
    {
      && DepsBegun(program, s, i)
      && (Promised() && Shield(program, ledger) ==> DepsPassed(program, s, i) && i !in ledger.abandoned)
    }

    /** How calls end: with an exception exactly if a body has thrown, and with
        another error only if the host is in trouble. `before` counts the bodies
        that had thrown. */
    ghost predicate Answered(r: EvalResult, before: nat)
      reads this`throws
    {
      && throws == before + (if r.Exception? then 1 else 0)
      && (r.Exception? ==> !NeverThrows(host)) && (SoundHost(host) ==> !r.EngineError?)
    }

    lemma ScriptSound()
      ensures Scripted() ==> SoundHost(host)
    {
    }

    /** What every step keeps. `avail` have just been released, `owing` have yet
        to notify their parents, `exempt` are about to complete. */
    ghost predicate Kept(avail: set<nat>, owing: set<nat>, exempt: set<nat>)
      reads this
    {
      && Tracked(program, State(), avail, owing)
      && (Promised() ==> Tidy(program, State(), avail, Broken(program, ledger))) && CleanAt(State())
      && (Scripted() ==> Played(State(), plan, ledger.woken, suspended, exempt))
    }

    ghost predicate EventsInOrder()
      reads this
    {
      Promised() ==> Ordered(program, events, Broken(program, ledger))
    }

    /** Only requested imports wait, and none for a module that is done. */
    ghost predicate Asked()
      reads this
    {
      forall m :: 0 <= m < |waiters| && m < |status| && waiters[m] > 0 ==>
        Requested(host, m) && status[m] != Evaluated && status[m] != Errored
    }

    /** Between calls from outside. */
    ghost predicate Valid()
      reads this
    {
      Base(NoDrain) && Kept({}, {}, {}) && OnlyBroken(State(), ledger.abandoned) && Asked()
    }

    method MarkAsync(i: nat)
      requires i < |status| && i < |order|
      modifies this`status, this`order, this`nextOrder
      ensures State() == WithAsync(old(State()), i)
    {
      status := status[i := EvaluatingAsync];
      if order[i].None? {
        order := order[i := Some(nextOrder)];
        nextOrder := nextOrder + 1;
      }
    }

    /** A module whose parents may be notified. */
    ghost predicate Notifies(i: nat, avail: set<nat>)
      reads this
    {
      Promised() ==> Finished(State(), i) || i in avail
    }

    /** Notify the parents of a module, and the parents of every module that
        this releases. `base` are modules released before. */
    method GatherAvailableAncestors(i: nat, available: seq<nat>, ghost drained: multiset<nat>, ghost base: set<nat>)
      returns (more: seq<nat>)
      requires Base(drained) && i < |status| && Kept(base + Elements(available), {i}, {})
      requires Notifies(i, base + Elements(available))
      modifies this`pending, this`parents
      ensures Base(drained) && Kept(base + Elements(more), {}, {})
      ensures Gathered(old(State()), State(), available, more) && parents[i] == []
      ensures ListedTotal(parents) + |old(parents)[i]| <= ListedTotal(old(parents))
      ensures old(parents)[i] == [] ==> more == available && State() == old(State())
      decreases ListedTotal(parents), 0
    {
      hide Inv, Tidy, Gathered, Waiting, ListedTotal, Tracked, Played, Follows, Acyclic, AwaitsApart;
      ghost var s := State();
      InvShaped(s, drained);
      TakeInv(s, i, drained);
      var ps := parents[i];
      parents := parents[i := []];
      assert State() == WithTaken(s, i);
      KeptTaken(s, base + Elements(available), i);
      GatheredTaken(s, i, available);
      StartsSame(s, State());
      more := available;
      var x := 0;
      assert ps[x..] == ps;
      while x < |ps|
        invariant 0 <= x <= |ps| && Base(drained + multiset(ps[x..])) && |status| == |s.status|
        invariant Kept(base + Elements(more), {}, {}) && i < |parents| && parents[i] == []
        invariant Gathered(s, State(), available, more)
        invariant ListedTotal(parents) + |ps| <= ListedTotal(s.parents)
        invariant x == 0 ==> State() == WithTaken(s, i) && more == available
      {
        more := NotifyParent(ps, x, s, available, more, drained, base);
        x := x + 1;
      }
      assert ps[x..] == [];
      assert drained + multiset([]) == drained;
      if ps == [] {
        assert parents == s.parents;
      }
    }

    lemma KeptClean(s: EvalState)
      requires CleanAt(s) && status == s.status && order == s.order
      ensures CleanAt(State())
    {
      hide Promised, Shield, Clean;
      if Promised() && Shield(program, ledger) {
        CleanSame(program, s, State(), ledger.abandoned, ledger.entry);
      }
    }

    /** The list of `i` has been taken. */
    lemma KeptTaken(s: EvalState, avail: set<nat>, i: nat)
      requires i < |s.parents| && State() == WithTaken(s, i) && i < |s.status|
      requires Tracked(program, s, avail, {i}) && CleanAt(s)
      requires Promised() ==> Tidy(program, s, avail, Broken(program, ledger)) && (Finished(s, i) || i in avail)
      requires Scripted() ==> Played(s, plan, ledger.woken, suspended, {})
      ensures Kept(avail, {}, {})
    {
      hide Tidy, Tracked, Played, Follows, Acyclic, AwaitsApart;
      TrackTaken(program, s, i, avail);
      KeptClean(s);
      if Promised() {
        TidyTaken(program, s, i, avail, Broken(program, ledger));
      }
      if Scripted() {
        PlaySame(s, State(), plan, ledger.woken, suspended, {});
      }
    }

    method NotifyParent(ps: seq<nat>, x: nat, ghost s: EvalState, ghost first: seq<nat>, available: seq<nat>,
                        ghost drained: multiset<nat>, ghost base: set<nat>) returns (more: seq<nat>)
      requires x < |ps| && Base(drained + multiset(ps[x..])) && Kept(base + Elements(available), {}, {})
      requires Gathered(s, State(), first, available) && |s.status| == |status|
      modifies this`pending, this`parents
      ensures Base(drained + multiset(ps[x + 1..])) && Kept(base + Elements(more), {}, {})
      ensures Gathered(s, State(), first, more) && |parents| == |old(parents)|
      ensures forall m :: 0 <= m < |parents| && old(parents)[m] == [] ==> parents[m] == []
      ensures ListedTotal(parents) <= ListedTotal(old(parents))
      decreases ListedTotal(parents), 1
    {
      hide Inv, Tidy, Gathered, Waiting, ListedTotal, Tracked, Played, Follows, Acyclic, AwaitsApart;
      var p := ps[x];
      ghost var rest := drained + multiset(ps[x + 1..]);
      DrainNext(drained, ps, x);
      ghost var before := State();
      InvShaped(before, drained + multiset(ps[x..]));
      NoticeInv(before, p, rest);
      pending := pending[p := if pending[p] == 0 then 0 else pending[p] - 1];
      ghost var noticed := State();
      assert noticed == WithNotice(before, p);
      KeptNotice(before, base + Elements(available), p);
      GatheredNotice(s, before, first, available, p);
      StartsSame(before, noticed);
      more := available;
      PushedElements(available, p);
      if pending[p] == 0 && status[p] == EvaluatingAsync {
        if p !in available {
          assert base + Elements(available) + {p} == base + Elements(available + [p]);
          TrackOwing(program, noticed, base + Elements(available + [p]), p);
          more := GatherAvailableAncestors(p, available + [p], rest, base);
          GatheredRelease(s, noticed, State(), first, available, more, p);
          GatheredParents(noticed, State(), available + [p], more);
        } else {
          assert base + Elements(available) + {p} == base + Elements(available);
        }
      }
    }

    lemma KeptNotice(s: EvalState, avail: set<nat>, p: nat)
      requires p < |s.pending| && p < |s.status| && State() == WithNotice(s, p)
      requires Tracked(program, s, avail, {}) && CleanAt(s)
      requires Promised() ==> Tidy(program, s, avail, Broken(program, ledger))
      requires Scripted() ==> Played(s, plan, ledger.woken, suspended, {})
      ensures Kept(if pending[p] == 0 && status[p] == EvaluatingAsync then avail + {p} else avail, {}, {})
    {
      hide Tidy, Tracked, Played, Follows, Acyclic, AwaitsApart;
      TrackNotice(program, s, p, avail);
      KeptClean(s);
      if Promised() {
        TidyNotice(program, s, p, avail, Broken(program, ledger));
      }
      if Scripted() {
        PlaySame(s, State(), plan, ledger.woken, suspended, {});
      }
    }

    // ----- bodies -----

    /** What the interpreter answers when a body is started or resumed. Only a
        body with a top-level await suspends. */
    method Interpret(i: nat, resumed: bool) returns (o: Outcome)
      modifies this`clock, this`throws
      ensures o.Suspended? ==> i in program.awaits
      ensures (o.Threw? ==> !NeverThrows(host)) && (SoundHost(host) ==> !o.Fault?)
      ensures throws == old(throws) + (if o.Threw? then 1 else 0)
      ensures Scripted() && resumed ==> o.Completed?
      ensures Scripted() && !resumed ==>
                && (o.Suspended? <==> i in plan.held)
                && (o.Threw? <==> i !in plan.held && i in plan.throws)
    {
      o := if resumed then host.resume(clock, i) else host.begin(clock, i);
      clock := clock + 1;
      throws := throws + (if o.Threw? then 1 else 0);
      if o.Suspended? && i !in program.awaits {
        o := Completed;
      }
    }

    lemma KeptStart(s: EvalState, avail: set<nat>, i: nat)
      requires State() == WithEvent(s, Start(i)) && i < |s.status| && ProgramOk(program, |s.status|)
      requires Tracked(program, s, avail, {}) && CleanAt(s)
      requires Promised() ==>
                 Tidy(program, s, avail, Broken(program, ledger)) && DepsDone(program, s, i, Broken(program, ledger))
      requires Scripted() ==> Played(s, plan, ledger.woken, suspended, {})
      ensures Kept(avail, {}, {i}) && EventsInOrder()
    {
      hide Tidy, Tracked, Played, Follows, Acyclic, AwaitsApart, Ordered;
      TrackStart(program, s, i, avail);
      KeptClean(s);
      if Promised() {
        TidyStart(program, s, i, avail, Broken(program, ledger));
        TidyOrdered(program, State(), avail, Broken(program, ledger));
      }
      if Scripted() {
        PlayStart(s, i, plan, ledger.woken, suspended);
      }
    }

    /** Module `i` has become asynchronous or has finished. */
    lemma KeptThrough(s: EvalState, i: nat)
      requires CleanAt(s) && i < |s.status| && i < |s.order| && Grounded(s, i)
      requires s.status[i] == Evaluating || s.status[i] == EvaluatingAsync
      requires State() == WithAsync(s, i) || State() == WithFinish(s, i)
      ensures CleanAt(State())
    {
      hide Promised, Shield, Clean, DepsPassed, DepsBegun;
      if Promised() && Shield(program, ledger) {
        CleanSized(program, s, ledger.abandoned, ledger.entry);
        CleanThrough(program, s, State(), i, ledger.abandoned, ledger.entry);
      }
    }

    /** A body has suspended; `before` were suspended already. */
    lemma KeptSuspended(s: EvalState, avail: set<nat>, i: nat, before: set<nat>)
      requires i < |s.status| && i < |s.order| && State() == WithAsync(s, i) && suspended == before + {i}
      requires s.status[i] == Evaluating || s.status[i] == EvaluatingAsync
      requires Tracked(program, s, avail, {}) && Grounded(s, i) && Started(s, i) && i in program.awaits && CleanAt(s)
      requires Promised() ==> Tidy(program, s, avail, Broken(program, ledger))
      requires Scripted() ==> Played(s, plan, ledger.woken, before, {i}) && i in plan.held
      ensures Kept(avail, {}, {})
    {
      hide Tidy, Tracked, Played, Follows, Acyclic, AwaitsApart;
      TrackAsync(program, s, i, avail);
      KeptThrough(s, i);
      if Promised() {
        TidyAsyncStarted(program, s, i, avail, Broken(program, ledger));
      }
      if Scripted() {
        PlaySuspended(s, i, plan, ledger.woken, before);
      }
    }

    method Suspend(i: nat, ghost avail: set<nat>)
      requires Base(NoDrain) && Kept(avail, {}, {i}) && EventsInOrder() && i < |status| && Started(State(), i)
      requires (status[i] == Evaluating || status[i] == EvaluatingAsync) && Grounded(State(), i)
      requires i in program.awaits && (Scripted() ==> i in plan.held)
      modifies this`status, this`order, this`nextOrder, this`suspended
      ensures Base(NoDrain) && Kept(avail, {}, {}) && EventsInOrder() && Ran(old(State()), State(), i)
      ensures |status| == |old(status)| && status[i] == EvaluatingAsync && Started(State(), i)
      ensures NothingNew(old(State()), State())
    {
      hide Inv, Tidy, Waiting, Tracked, Played, Follows, Acyclic, AwaitsApart, DepsBegun, Ordered;
      ghost var t := State();
      InvShaped(t, NoDrain);
      StatusAsync(t, i);
      RanAsync(t, i);
      ghost var before := suspended;
      MarkAsync(i);
      suspended := suspended + {i};
      StartsSame(t, State());
      KeptSuspended(t, avail, i, before);
    }

    /** Start a body. When it throws, nothing has come of it but its start. */
    method StartModule(i: nat, ghost avail: set<nat>) returns (r: EvalResult)
      requires Base(NoDrain) && Kept(avail, {}, {}) && i < |status| && pending[i] == 0 && parents[i] == []
      requires !Started(State(), i) && (status[i] == Evaluating || status[i] == EvaluatingAsync)
      requires Grounded(State(), i)
      requires Promised() ==> DepsDone(program, State(), i, Broken(program, ledger))
      modifies this
      ensures Base(NoDrain) && EventsInOrder() && Ran(old(State()), State(), i) && ledger == old(ledger)
      ensures |status| == |old(status)| && Answered(r, old(throws)) && !NotBegun(status[i]) && status[i] != Errored
      ensures SameWaiters(old(waiters), old(status))
      ensures !r.EngineError? ==> Kept(avail, {}, {})
      ensures r.Exception? ==> status == old(status) && i !in program.json && (Scripted() ==> i in plan.throws)
      ensures NothingNew(old(State()), State())
      ensures r.Ok? ==> (status[i] == Evaluated && Finished(State(), i))
                        || (status[i] == EvaluatingAsync && i in program.awaits && Started(State(), i))
      decreases ListedTotal(parents), 4
    {
      hide Inv, Tidy, Ran, Waiting, ListedTotal, Tracked, Played, Follows, Acyclic, AwaitsApart, DepsBegun, DepsDone;
      hide Ordered, Shield, Broken, Clean, DepsPassed, Scripted, NeverThrows, SoundHost, KeptWaiters;
      ghost var s := State();
      NoneAnswered(waiters, status, status);
      InvShaped(s, NoDrain);
      if i in program.json {
        NotInScript(i);
        KeptExempt(avail, i);
        r := CompleteModule(i, avail);
        return;
      }
      StartInv(s, i, NoDrain);
      RanStart(s, i);
      events := events + [Start(i)];
      ghost var t := State();
      assert t == WithEvent(s, Start(i)) && Started(t, i);
      StartedMore(s, t, i);
      KeptStart(s, avail, i);
      StillGrounded(s, t, i);
      var outcome := Interpret(i, false);
      assert State() == t;
      match outcome
      case Completed =>
        r := CompleteModule(i, avail);
        RanTrans(s, t, State(), i);
      case Suspended =>
        Suspend(i, avail);
        RanUnanswered(waiters, t, State(), i);
        RanTrans(s, t, State(), i);
        r := Ok;
      case Threw =>
        KeptThrew(avail, i);
        r := Exception;
      case Fault => r := EngineError;
    }

    /** A script leaves JSON modules alone. */
    lemma NotInScript(i: nat)
      requires ProgramOk(program, |status|) && i in program.json
      ensures Scripted() ==> i !in plan.held && i !in plan.throws
    {
    }

    lemma KeptThrew(avail: set<nat>, i: nat)
      requires Kept(avail, {}, {i}) && (Scripted() ==> plan.throws != {})
      ensures Kept(avail, {}, {})
    {
      hide Tidy, Tracked, Follows, Acyclic, AwaitsApart, Clean;
    }

    lemma StillGrounded(s: EvalState, t: EvalState, i: nat)
      requires Grounded(s, i) && t.status == s.status && t.order == s.order
      ensures Grounded(t, i)
    {
      hide Promised, Shield;
      BegunSame(program, s, t, i);
      assert forall m: nat :: Passed(s, m) ==> Passed(t, m);
    }

    lemma KeptExempt(avail: set<nat>, i: nat)
      requires Kept(avail, {}, {})
      ensures Kept(avail, {}, {i})
    {
      hide Tidy, Tracked, Follows, Acyclic, AwaitsApart;
    }

    lemma KeptFinish(s: EvalState, avail: set<nat>, i: nat)
      requires i < |s.status| && State() == WithFinish(s, i) && (i in program.json || Started(s, i))
      requires s.status[i] == Evaluating || s.status[i] == EvaluatingAsync
      requires Tracked(program, s, avail, {}) && Grounded(s, i) && CleanAt(s) && i < |s.order|
      requires Promised() ==> Tidy(program, s, avail, Broken(program, ledger))
      requires Scripted() ==> Played(s, plan, ledger.woken, suspended, {i})
      requires Scripted() ==> (i in plan.held ==> i in ledger.woken) && i !in plan.throws
      ensures Kept(avail, {i}, {}) && EventsInOrder()
    {
      hide Tidy, Tracked, Played, Follows, Acyclic, AwaitsApart, Ordered;
      TrackFinish(program, s, i, avail);
      KeptThrough(s, i);
      if Promised() {
        TidyFinish(program, s, i, avail, Broken(program, ledger));
        TidyOrdered(program, State(), avail, Broken(program, ledger));
      }
      if Scripted() {
        PlayFinish(s, i, plan, ledger.woken, suspended);
      }
    }

    method CompleteModule(i: nat, ghost avail: set<nat>) returns (r: EvalResult)
      requires Base(NoDrain) && Kept(avail, {}, {i}) && i < |status| && pending[i] == 0
      requires status[i] == Evaluating || status[i] == EvaluatingAsync
      requires (i in program.json || Started(State(), i)) && Grounded(State(), i)
      requires Scripted() ==> (i in plan.held ==> i in ledger.woken) && i !in plan.throws
      requires parents[i] == [] || (avail == {} && ledger.released)
      modifies this
      ensures Base(NoDrain) && EventsInOrder() && Cascaded(old(State()), State(), i) && ledger == old(ledger)
      ensures (r.Ok? ==> Kept(avail, {}, {})) && Answered(r, old(throws)) && SameWaiters(old(waiters), old(status))
      ensures status[i] == Evaluated && Finished(State(), i) && NothingNew(old(State()), State())
      ensures old(parents)[i] == [] ==>
                (r.Ok? || r.EngineError?) && Ran(old(State()), State(), i)
                && forall k: nat :: Started(State(), k) <==> old(Started(State(), k))
      decreases ListedTotal(parents), 3
    {
      hide Inv, Tidy, Ran, Waiting, ListedTotal, Cascaded, StartedOnly, Tracked, Played, Follows, Acyclic, AwaitsApart;
      hide Ordered, DepsBegun, NothingNew, KeptWaiters, SoundHost, NeverThrows, Shield, Clean, DepsPassed;
      ghost var s := State();
      InvShaped(s, NoDrain);
      FinishStep(s, i);
      RanFinish(s, i);
      status := status[i := Evaluated];
      events := events + [Finish(i)];
      ghost var finished := State();
      assert finished == WithFinish(s, i);
      KeptFinish(s, avail, i);
      RanCascaded(s, finished, i);
      NothingNewAfter(s, finished, finished, i);
      ghost var asked := waiters;
      r := ResolveWaiters(i);
      assert State() == finished;
      AnsweredOne(asked, s.status, waiters, i);
      if !r.Ok? {
        return;
      }
      ghost var left := waiters;
      r := ReleaseParents(i, avail);
      CascadedStarts(s, finished, State(), i);
      KeptOn(asked, s.status, left, finished.status, waiters, status);
      NothingNewAfter(s, finished, State(), i);
    }

    /** Notify the parents of a finished module and start those that this
        releases. */
    method ReleaseParents(i: nat, ghost avail: set<nat>) returns (r: EvalResult)
      requires Base(NoDrain) && Kept(avail, {i}, {}) && EventsInOrder() && i < |status| && Finished(State(), i)
      requires parents[i] == [] || (avail == {} && ledger.released)
      modifies this
      ensures Base(NoDrain) && EventsInOrder() && StartedOnly(old(State()), State()) && ledger == old(ledger)
      ensures (r.Ok? ==> Kept(avail, {}, {})) && Answered(r, old(throws)) && SameWaiters(old(waiters), old(status))
      ensures NothingNew(old(State()), State())
      ensures old(parents)[i] == [] ==> State() == old(State()) && r.Ok?
      decreases ListedTotal(parents), 2
    {
      hide Inv, Tidy, Waiting, ListedTotal, Gathered, StartedOnly, Released, Tracked, Played, Follows, Acyclic;
      hide AwaitsApart;
      ghost var f := State();
      InvShaped(f, NoDrain);
      assert avail + Elements([]) == avail;
      var available := GatherAvailableAncestors(i, [], NoDrain, avail);
      var ready := SortByOrder(order, available);
      if old(parents)[i] == [] {
        NothingSorted(available, ready);
      }
      ReleasedAfter(f, State(), available, ready);
      r := StartReleased(ready, f, avail);
    }

    /** Only the imports of evaluated modules have been answered. */
    ghost predicate SameWaiters(before: seq<nat>, sts: seq<Status>)
      reads this
    {
      KeptWaiters(before, sts, waiters, status)
    }

    method ResolveWaiters(i: nat) returns (r: EvalResult)
      requires i < |waiters|
      modifies this`waiters, this`clock
      ensures |waiters| == |old(waiters)| && (r.Ok? || r.EngineError?)
      ensures waiters[i] == 0 && forall k :: 0 <= k < |waiters| && k != i ==> waiters[k] == old(waiters)[k]
      ensures r.Ok? ==> clock == old(clock) + old(waiters)[i]
      ensures if r.Ok? then forall t: nat :: old(clock) <= t < clock ==> host.settles(t)
              else exists t :: !host.settles(t)
      ensures SoundHost(host) ==> r.Ok?
    {
      var n := waiters[i];
      waiters := waiters[i := 0];
      while n > 0
        invariant clock + n == old(clock) + old(waiters)[i]
        invariant forall t: nat :: old(clock) <= t < clock ==> host.settles(t)
        invariant |waiters| == |old(waiters)|
        invariant waiters[i] == 0 && forall k :: 0 <= k < |waiters| && k != i ==> waiters[k] == old(waiters)[k]
      {
        clock := clock + 1;
        if !host.settles(clock - 1) {
          return EngineError;
        }
        n := n - 1;
      }
      return Ok;
    }

    /** Start the released modules in asynchronous order. `f` is the state
        that released them. */
    method StartReleased(ready: seq<nat>, ghost f: EvalState, ghost avail: set<nat>) returns (r: EvalResult)
      requires Base(NoDrain) && Kept(avail + Elements(ready), {}, {}) && EventsInOrder()
      requires ready == [] || (avail == {} && ledger.released)
      requires Distinct(ready) && SortedBy(order, ready) && Released(f, State(), ready, 0) && StartedOnly(f, State())
      modifies this
      ensures Base(NoDrain) && EventsInOrder() && StartedOnly(f, State()) && ledger == old(ledger)
      ensures (r.Ok? ==> Kept(avail, {}, {})) && Answered(r, old(throws)) && SameWaiters(old(waiters), old(status))
      ensures NothingNew(old(State()), State())
      ensures ready == [] ==> State() == old(State()) && r.Ok?
      decreases ListedTotal(parents) + (if ready == [] then 0 else 1), 1
    {
      hide Inv, Tidy, Waiting, ListedTotal, StartedOnly, Ran, Released, Tracked, Played, Follows, Acyclic, AwaitsApart;
      hide DepsBegun, DepsDone, Imported, Ordered, SortedBy, PastUpTo, DoneUpTo, SameOrder;
      ghost var g := State();
      NothingPast(program, g, ready);
      NoneAnswered(waiters, status, status);
      var x := 0;
      while x < |ready|
        invariant 0 <= x <= |ready| && Base(NoDrain) && Kept(avail + Elements(ready), {}, {}) && EventsInOrder()
        invariant Released(f, State(), ready, x) && StartedOnly(f, State()) && ledger == old(ledger)
        invariant SameWaiters(old(waiters), old(status)) && throws == old(throws)
        invariant parents == g.parents && NothingNew(g, State()) && PastUpTo(State(), ready, x)
        invariant Promised() ==> SameOrder(g, State(), ready) && DoneUpTo(program, State(), ready, x)
        invariant x == 0 ==> State() == g
      {
        ghost var t, asked := State(), waiters;
        ReleasedNow(f, t, ready, x);
        InvShaped(t, NoDrain);
        AsyncGrounded(avail + Elements(ready), ready[x]);
        if Promised() {
          ReleasedReady(program, t, g, ready, x, Broken(program, ledger));
        }
        if status[ready[x]] == EvaluatingAsync && pending[ready[x]] == 0 {
          r := StartModule(ready[x], avail + Elements(ready));
          InvShaped(State(), NoDrain);
          RanReleased(f, t, State(), ready, x);
          KeptOn(old(waiters), old(status), asked, t.status, waiters, status);
          if !r.Ok? {
            return;
          }
          PastNext(t, State(), ready, x);
          if Promised() {
            if ready[x] in program.awaits {
              WaitedAlone(program, t, avail + Elements(ready), ready[x]);
            }
            OrderNext(program, t, g, State(), ready, x, avail + Elements(ready), Broken(program, ledger));
          }
        }
        x := x + 1;
      }
      KeptReleased(ready, avail);
      r := Ok;
    }

    lemma AsyncGrounded(avail: set<nat>, i: nat)
      requires Kept(avail, {}, {}) && i < |status| && status[i] == EvaluatingAsync
      ensures Grounded(State(), i)
    {
      hide Tidy, Tracked, Played, Follows, Promised, Shield, Clean, DepsPassed;
      AsyncBegun(program, State(), avail, {}, i);
      if Promised() && Shield(program, ledger) {
        AsyncPassed(program, State(), i, ledger.abandoned, ledger.entry);
      }
    }

    lemma KeptReleased(ready: seq<nat>, avail: set<nat>)
      requires Kept(avail + Elements(ready), {}, {}) && (ready == [] || avail == {})
      requires PastUpTo(State(), ready, |ready|) && (Promised() ==> DoneUpTo(program, State(), ready, |ready|))
      ensures Kept(avail, {}, {})
    {
      hide Tidy, Tracked, Played, Follows, Acyclic, AwaitsApart, PastUpTo, DoneUpTo, Imported, Waits;
      AllPast(State(), ready);
      TrackReleased(program, State(), avail + Elements(ready), avail);
      if Promised() {
        if ready == [] {
          assert avail + Elements(ready) == avail;
        } else {
          assert avail + Elements(ready) == Elements(ready) && avail == {};
          AllDone(program, State(), ready);
          TidyReleased(program, State(), Elements(ready), Broken(program, ledger));
        }
      }
    }

    // ----- evaluation of a module and its dependencies -----

    /** How the evaluation of `i`, begun in state `s`, has ended. */
    ghost predicate Entered(r: EvalResult, s: EvalState, i: nat, before: nat)
      reads this
    {
      && throws == before + (if r.Exception? then 1 else 0)
      && (r.Exception? ==> !NeverThrows(host) && NewlyStuck(s, State(), i))
      && (r.Exception? && Promised() && Shield(program, ledger) ==> Trail(program, s, State(), i))
      && (SoundHost(host) && r.EngineError? ==> !Unbarred(program, s, i))
      && (Scripted() && r.Exception? ==> ThrewThere(plan, State()) && !Clear(program, plan, s, i))
    }

    method InnerEvaluation(i: nat) returns (r: EvalResult)
      requires Base(NoDrain) && i < |status| && Kept({}, {}, {})
      requires Promised() ==> Above(State(), plan.rank, i, ledger.abandoned)
      modifies this
      ensures Base(NoDrain) && EventsInOrder() && Grew(old(State()), State()) && ledger == old(ledger)
      ensures |status| == |old(status)| && Entered(r, old(State()), i, old(throws))
      ensures SameWaiters(old(waiters), old(status))
      ensures !r.EngineError? ==> Kept({}, {}, {})
      ensures r.Ok? ==> !NotBegun(status[i]) && status[i] != Errored && NothingNew(old(State()), State())
      decreases LinkedCount(status), 1
    {
      hide Inv, Tidy, Grew, Waiting, Above, SettledUpTo, ListedUpTo, UnderWay, Ran, LinkedCount, Tracked, Played;
      hide Follows;
      hide Acyclic, AwaitsApart, Ordered, BegunUpTo;
      ghost var s := State();
      GrewSelf(s);
      InvShaped(s, NoDrain);
      NoneAnswered(waiters, status, status);
      if Promised() {
        TidyOrdered(program, s, {}, Broken(program, ledger));
      }
      CannotBegin(i);
      match status[i]
      case Evaluated => return Ok;
      case Evaluating => return Ok;
      case EvaluatingAsync => return Ok;
      case Errored => return EngineError;
      case Unlinked => return EngineError;
      case Linking => return EngineError;
      case Linked =>
        Enter(s, i);
        ghost var first := waiters;
        NoneAnswered(first, status, status[i := Evaluating]);
        status := status[i := Evaluating];
        ghost var begun := status;
        r := EvaluateDependencies(i, s);
        KeptOn(first, s.status, first, begun, waiters, status);
        if r.Ok? {
          ghost var t, asked := State(), waiters;
          r := FinishEvaluation(i, s);
          KeptOn(old(waiters), old(status), asked, t.status, waiters, status);
        }
    }

    lemma CannotBegin(i: nat)
      requires i < |status| && |program.deps| == |status|
      ensures status[i] == Errored || status[i] == Unlinked || status[i] == Linking ==> !Unbarred(program, State(), i)
    {
      hide Reaches;
      ReachesSelf(program, i);
    }

    lemma Enter(s: EvalState, i: nat)
      requires Base(NoDrain) && s == State() && i < |status| && status[i] == Linked && Kept({}, {}, {})
      ensures var t := WithStatus(s, i, Evaluating);
              && Inv(t, NoDrain) && Grew(s, t) && UnderWay(s, t, i) && Tracked(program, t, {}, {})
              && ListedUpTo(t, i, program.deps[i], 0) && BegunUpTo(t, program.deps[i], 0)
              && SettledUpTo(t, i, program.deps[i], 0, Broken(program, ledger))
              && (Promised() ==> Tidy(program, t, {}, Broken(program, ledger)))
              && (Scripted() ==> Played(t, plan, ledger.woken, suspended, {}))
              && CleanAt(t) && (Promised() && Shield(program, ledger) ==> i !in ledger.abandoned)
              && forall m: nat :: Started(t, m) <==> Started(s, m)
      ensures LinkedCount(status[i := Evaluating]) < LinkedCount(status) && !Started(s, i)
    {
      hide Tidy, Waiting, Tracked, Played, Follows, Acyclic, AwaitsApart;
      NotListedYet(s, i, program.deps[i]);
      StatusInv(s, i, Evaluating, NoDrain);
      GrewStatus(s, i);
      EnteredCount(status, i);
      StartsSame(s, WithStatus(s, i, Evaluating));
      TrackEvaluating(program, s, i);
      if Promised() {
        TidyEvaluating(program, s, i, Broken(program, ledger));
        if Shield(program, ledger) {
          CleanEvaluating(program, s, i, ledger.abandoned, ledger.entry);
        }
      }
      if Scripted() {
        PlayEvaluating(s, i, plan, ledger.woken, suspended);
      }
    }

    /** Inside the evaluation of `i`, after `x` of its dependencies. `s` is the
        state in which it began. */
    ghost predicate Inside(s: EvalState, i: nat, x: nat)
      reads this
    {
      && Base(NoDrain) && Kept({}, {}, {}) && Grew(s, State()) && |s.status| == |status| && i < |status|
      && s.status[i] == Linked && status[i] == Evaluating && !Started(State(), i)
      && ListedUpTo(State(), i, program.deps[i], x) && BegunUpTo(State(), program.deps[i], x) && UnderWay(s, State(), i)
      && (Promised() ==> Above(s, plan.rank, i, ledger.abandoned)
                         && SettledUpTo(State(), i, program.deps[i], x, Broken(program, ledger)))
      && (Promised() && Shield(program, ledger) ==> i !in ledger.abandoned)
    }

    method EvaluateDependencies(i: nat, ghost s: EvalState) returns (r: EvalResult)
      requires Inside(s, i, 0)
      modifies this
      ensures Base(NoDrain) && EventsInOrder() && Grew(s, State()) && ledger == old(ledger)
      ensures |status| == |old(status)| && Entered(r, s, i, old(throws)) && SameWaiters(old(waiters), old(status))
      ensures r.Exception? ==> Kept({}, {}, {})
      ensures r.Ok? ==> Inside(s, i, |program.deps[i]|)
      decreases LinkedCount(status), 3
    {
      hide Inv, Tidy, Grew, Waiting, Above, SettledUpTo, ListedUpTo, UnderWay, LinkedCount, Tracked, Played, Follows;
      hide Acyclic, AwaitsApart, Ordered, BegunUpTo;
      var deps := program.deps[i];
      ghost var entered := State();
      if Promised() {
        TidyOrdered(program, State(), {}, Broken(program, ledger));
      }
      NoneAnswered(waiters, status, status);
      var x := 0;
      while x < |deps|
        invariant 0 <= x <= |deps| && Inside(s, i, x) && EventsInOrder() && ledger == old(ledger)
        invariant SameWaiters(old(waiters), old(status)) && throws == old(throws)
        invariant |status| == |old(status)| && LinkedCount(status) <= LinkedCount(entered.status)
      {
        ghost var before, asked := status, waiters;
        r := EvaluateDependency(i, deps, x, s);
        KeptOn(old(waiters), old(status), asked, before, waiters, status);
        if !r.Ok? {
          return;
        }
        x := x + 1;
      }
      r := Ok;
    }

    method EvaluateDependency(i: nat, deps: seq<nat>, x: nat, ghost s: EvalState) returns (r: EvalResult)
      requires Inside(s, i, x) && deps == program.deps[i] && x < |deps|
      modifies this
      ensures Base(NoDrain) && EventsInOrder() && Grew(s, State()) && ledger == old(ledger)
      ensures |status| == |old(status)| && LinkedCount(status) <= LinkedCount(old(status))
      ensures Entered(r, s, i, old(throws))
      ensures SameWaiters(old(waiters), old(status))
      ensures r.Exception? ==> Kept({}, {}, {})
      ensures r.Ok? ==> Inside(s, i, x + 1)
      decreases LinkedCount(status), 2
    {
      hide Inv, Tidy, Grew, Waiting, Above, SettledUpTo, ListedUpTo, UnderWay, NothingNew, LinkedCount, Tracked, Played;
      hide Follows, Acyclic, AwaitsApart, Ordered, BegunUpTo, MoreBegun;
      var d := deps[x];
      ghost var t := State();
      InvShaped(t, NoDrain);
      if Promised() {
        AcyclicRank();
        AboveDep(program, plan.rank, s, t, i, d, ledger.abandoned);
      }
      NoneSkipped(s, i, x);
      r := InnerEvaluation(d);
      ghost var u := State();
      InvShaped(u, NoDrain);
      GrewTrans(s, t, u);
      GrewCount(t, u);
      DependencyEntered(r, s, t, i, x, old(throws));
      if !r.Ok? {
        return;
      }
      GrewKeeps(t, u, i);
      ListedStays(t, u, i, deps, x);
      ListedFresh(u, i, deps, x);
      StaysUnderWay(s, t, u, i);
      GrewBegun(t, u);
      BegunNext(t, u, deps, x);
      if Promised() {
        DepSettles(program, plan.rank, s, u, i, d, ledger.abandoned);
        SettledStays(t, u, i, deps, x, Broken(program, ledger));
        assert u.status[d] == Evaluating ==> d in Broken(program, ledger);
        TidyOrdered(program, u, {}, Broken(program, ledger));
      }
      NoteDependency(i, deps, x, s);
    }

    /** In a shielded program no dependency has been left behind. */
    lemma NoneSkipped(s: EvalState, i: nat, x: nat)
      requires Inside(s, i, x) && i < |program.deps| && x < |program.deps[i]|
      ensures Promised() && Shield(program, ledger) ==> PassedUpTo(State(), program.deps[i], x)
      ensures Promised() ==> program.deps[i][x] in ledger.abandoned ==> program.deps[i][x] in Broken(program, ledger)
    {
      hide Inv, Tidy, Tracked, Played, Follows, Acyclic, AwaitsApart, Grew, Above, UnderWay, Passed, Shielded;
      hide SettledUpTo, Closed;
      if Promised() && Shield(program, ledger) {
        var t := State();
        SettledPassed(t, i, program.deps[i], x);
        if ledger.abandoned != {} {
          NotSkipped(program, plan.rank, t, ledger.abandoned, ledger.entry.value, i, x);
        }
      }
    }

    /** The evaluation of dependency number `x` has ended. */
    lemma DependencyEntered(r: EvalResult, s: EvalState, t: EvalState, i: nat, x: nat, before: nat)
      requires Grew(s, t) && Grew(t, State()) && UnderWay(s, t, i) && |s.status| == |program.deps| == |status|
      requires i < |program.deps| && x < |program.deps[i]| && ProgramOk(program, |status|)
      requires t.status[i] == Evaluating && NotBegun(s.status[i]) && Entered(r, t, program.deps[i][x], before)
      requires Promised() && Shield(program, ledger) ==> PassedUpTo(t, program.deps[i], x)
      ensures Entered(r, s, i, before)
    {
      hide Unbarred, Clear, ThrewThere, Promised, Scripted, SoundHost, NeverThrows, Shield, Trail, ProgramOk, Passed;
      ClearDown(program, plan, s, t, i, program.deps[i][x]);
      if r.Exception? && Promised() && Shield(program, ledger) {
        PassedMore(t, State(), program.deps[i], x);
        NotJson(program, i);
        TrailUp(program, s, t, State(), i, x);
      }
    }

    /** Wait for dependency number `x` if it is asynchronous. */
    method NoteDependency(i: nat, deps: seq<nat>, x: nat, ghost s: EvalState)
      requires Base(NoDrain) && Kept({}, {}, {}) && EventsInOrder() && Grew(s, State()) && |s.status| == |status|
      requires i < |status| && deps == program.deps[i] && x < |deps| && deps[x] < |status| && i !in parents[deps[x]]
      requires s.status[i] == Linked && status[i] == Evaluating && !Started(State(), i)
      requires ListedUpTo(State(), i, deps, x) && BegunUpTo(State(), deps, x + 1) && UnderWay(s, State(), i)
      requires Promised() ==>
                 && Above(s, plan.rank, i, ledger.abandoned)
                 && SettledUpTo(State(), i, deps, x, Broken(program, ledger))
                 && (status[deps[x]] == EvaluatingAsync || status[deps[x]] == Evaluated
                     || deps[x] in Broken(program, ledger))
      requires Promised() && Shield(program, ledger) ==> i !in ledger.abandoned
      modifies this`pending, this`parents
      ensures Inside(s, i, x + 1) && EventsInOrder()
    {
      hide Inv, Tidy, Grew, Waiting, Above, SettledUpTo, ListedUpTo, UnderWay, Tracked, Played;
      hide Follows, Acyclic, AwaitsApart, Ordered, BegunUpTo;
      ghost var u := State();
      var d := deps[x];
      InvShape(u);
      ListedNext(u, i, deps, x);
      if status[d] == EvaluatingAsync {
        WaitInv(u, i, d);
        GrewWait(s, u, i, d);
        StartsSame(u, WithWait(u, i, d));
        WaitUnderWay(s, u, i, d);
        BegunSteady(u, WithWait(u, i, d), deps, x + 1);
        pending := pending[i := pending[i] + 1];
        if i !in parents[d] {
          parents := parents[d := parents[d] + [i]];
        }
        assert State() == WithWait(u, i, d);
        KeptWait(u, i, d);
        if Promised() {
          WaitSettles(u, i, deps, x, Broken(program, ledger));
        }
      } else if Promised() {
        DoneSettles(u, i, deps, x, Broken(program, ledger));
      }
    }

    lemma KeptWait(u: EvalState, i: nat, d: nat)
      requires Shaped(u) && i < |u.status| && d < |u.status| && |program.deps| == |u.status| && d in program.deps[i]
      requires State() == WithWait(u, i, d) && u.status[d] == EvaluatingAsync && u.status[i] == Evaluating
      requires Tracked(program, u, {}, {}) && CleanAt(u)
      requires Promised() ==> Tidy(program, u, {}, Broken(program, ledger))
      requires Scripted() ==> Played(u, plan, ledger.woken, suspended, {})
      ensures Kept({}, {}, {})
    {
      hide Tidy, Tracked, Played, Follows, Acyclic, AwaitsApart;
      TrackWait(program, u, i, d);
      KeptClean(u);
      if Promised() {
        TidyWait(program, u, i, d, Broken(program, ledger));
      }
      if Scripted() {
        PlayWait(u, State(), d, plan, ledger.woken, suspended);
      }
    }

    lemma AcyclicRank()
      requires Promised()
      ensures |plan.rank| == |program.deps| && Acyclic(program, plan.rank)
    {
    }

    /** Start the body, or wait for the dependencies that are not done. */
    method FinishEvaluation(i: nat, ghost s: EvalState) returns (r: EvalResult)
      requires i < |program.deps| && Inside(s, i, |program.deps[i]|)
      modifies this
      ensures Base(NoDrain) && EventsInOrder() && Grew(s, State()) && ledger == old(ledger)
      ensures |status| == |old(status)| && Entered(r, s, i, old(throws)) && SameWaiters(old(waiters), old(status))
      ensures Ran(old(State()), State(), i)
      ensures !r.EngineError? ==> Kept({}, {}, {})
      ensures r.Ok? ==> !NotBegun(status[i]) && status[i] != Errored && NothingNew(s, State())
    {
      hide Inv, Tidy, Grew, Waiting, Above, SettledUpTo, ListedUpTo, Ran, UnderWay, NothingNew, Tracked, Played;
      hide Follows, Acyclic, AwaitsApart, Ordered, BegunUpTo, DepsBegun, DepsDone;
      ghost var t := State();
      InvShaped(t, NoDrain);
      InvWaitedFor(t, i);
      DepsGrounded(s, i);
      if pending[i] == 0 {
        if Promised() {
          SettledDone(program, t, i, Broken(program, ledger));
        }
        r := StartModule(i, {});
        InvShaped(State(), NoDrain);
        GrewAt(s, t, State(), i);
        RanUnderWay(s, t, State(), i);
        BodyEntered(r, s, t, i, old(throws));
      } else {
        StatusAsync(t, i);
        RanAsync(t, i);
        GrewAt(s, t, WithAsync(t, i), i);
        RanUnderWay(s, t, WithAsync(t, i), i);
        if Promised() {
          SettledWaiting(program, t, i, Broken(program, ledger));
        }
        NoneAnswered(waiters, status, status[i := EvaluatingAsync]);
        MarkAsync(i);
        StartsSame(t, State());
        KeptWaiting(t, i);
        r := Ok;
      }
    }

    lemma DepsGrounded(s: EvalState, i: nat)
      requires i < |program.deps| && Inside(s, i, |program.deps[i]|)
      ensures Grounded(State(), i)
    {
      hide Inv, Tidy, Tracked, Played, Follows, Acyclic, AwaitsApart, Grew, Above, UnderWay, Passed, SettledUpTo;
      hide Shield, Closed, Shielded;
      BegunAll(program, State(), i);
      if Promised() && Shield(program, ledger) {
        SettledPassed(State(), i, program.deps[i], |program.deps[i]|);
        AllPassed(program, State(), i);
      }
    }

    /** The body of `i` has been started. */
    lemma BodyEntered(r: EvalResult, s: EvalState, t: EvalState, i: nat, before: nat)
      requires i < |s.status| && i < |t.status| && UnderWay(s, t, i) && NotBegun(s.status[i])
      requires t.status[i] == Evaluating && |program.deps| == |t.status|
      requires r.Exception? ==> status == t.status && i !in program.json && (Scripted() ==> i in plan.throws)
      requires Answered(r, before)
      ensures Entered(r, s, i, before)
    {
      hide Reaches, Promised, Shield, NeverThrows, Follows;
      ReachesSelf(program, i);
    }

    lemma KeptWaiting(t: EvalState, i: nat)
      requires i < |t.status| && i < |t.order| && i < |t.pending| && |t.parents| == |t.status|
      requires State() == WithAsync(t, i) && t.status[i] == Evaluating && t.pending[i] > 0 && !Started(t, i)
      requires Inv(t, NoDrain) && Tracked(program, t, {}, {}) && Grounded(t, i) && CleanAt(t)
      requires Promised() ==>
                 && Tidy(program, t, {}, Broken(program, ledger)) && i < |program.deps|
                 && forall d :: d in program.deps[i] ==>
                      d < |t.status|
                      && (t.status[d] == Evaluated || (t.status[d] == EvaluatingAsync && i in t.parents[d])
                          || d in Broken(program, ledger))
      requires Scripted() ==> Played(t, plan, ledger.woken, suspended, {})
      ensures Kept({}, {}, {}) && EventsInOrder()
    {
      hide Inv, Tidy, Tracked, Played, Follows, Acyclic, AwaitsApart, Ordered, Waiting;
      TrackAsync(program, t, i, {});
      KeptThrough(t, i);
      if Promised() {
        TidyAsyncWaiting(program, t, i, Broken(program, ledger));
        TidyOrdered(program, State(), {}, Broken(program, ledger));
      }
      if Scripted() {
        PlayWaiting(t, i, plan, ledger.woken, suspended);
      }
    }

    // ----- failures and dynamic imports -----

    /** Record an exception and reject the imports that wait for the module;
        an exception that nobody waits for ends the evaluation. */
    method FailModule(i: nat, e: EvalResult) returns (r: EvalResult)
      requires Base(NoDrain) && EventsInOrder() && i < |status| && !e.Ok?
      requires e.Exception? ==> Kept({}, {}, {}) && (status[i] == Evaluating || status[i] == EvaluatingAsync)
      requires e.Exception? && Promised() && Shield(program, ledger) ==> i !in ledger.abandoned
      requires Scripted() && e.Exception? ==> plan.throws != {}
      modifies this`status, this`waiters
      ensures Base(NoDrain) && EventsInOrder() && |status| == |old(status)|
      ensures r.Ok? ==> Kept({}, {}, {}) && State() == WithStatus(old(State()), i, Errored)
      ensures (r.Ok? <==> e.Exception? && old(waiters)[i] > 0) && (!r.Ok? ==> r == e)
      ensures status == if e.Exception? then old(status)[i := Errored] else old(status)
      ensures waiters == if r.Ok? then old(waiters)[i := 0] else old(waiters)
    {
      hide Inv, Tidy, Waiting, Tracked, Played, Follows, Acyclic, AwaitsApart, Ordered, Clean, Shield;
      if e.EngineError? {
        return e;
      }
      ghost var s := State();
      StatusErrored(s, i);
      KeptErrored(s, i);
      StartsSame(s, WithStatus(s, i, Errored));
      status := status[i := Errored];
      assert State() == WithStatus(s, i, Errored);
      if waiters[i] == 0 {
        return e;
      }
      waiters := waiters[i := 0];
      r := Ok;
    }

    lemma KeptErrored(s: EvalState, i: nat)
      requires s == State() && Kept({}, {}, {}) && i < |status| && Inv(s, NoDrain)
      requires status[i] == Evaluating || status[i] == EvaluatingAsync
      requires Promised() && Shield(program, ledger) ==> i !in ledger.abandoned
      requires Scripted() ==> plan.throws != {}
      ensures var t := WithStatus(s, i, Errored);
              && Tracked(program, t, {}, {}) && CleanAt(t)
              && (Promised() ==> Tidy(program, t, {}, Broken(program, ledger)))
              && (Scripted() ==> Played(t, plan, ledger.woken, suspended, {}))
    {
      hide Inv, Tidy, Tracked, Played, Follows, Acyclic, AwaitsApart, Clean, Shield;
      TrackErrored(program, s, i);
      if Promised() {
        TidyErrored(program, s, i, Broken(program, ledger));
        OrderIfAsync(program, s, Broken(program, ledger), i);
        if Shield(program, ledger) {
          CleanSized(program, s, ledger.abandoned, ledger.entry);
          CleanErrored(program, s, i, ledger.abandoned, ledger.entry);
        }
      }
      if Scripted() {
        PlayErrored(s, i, plan, ledger.woken, suspended);
      }
    }

    /** How a call has gone that began with these statuses and this count. */
    ghost predicate Accounted(r: EvalResult, sts: seq<Status>, before: nat)
      reads this`status, this`throws
    {
      if r.Exception? then throws > before else Tally(host, sts, before, status, throws)
    }

    /** With a host that is in no trouble, an error other than an exception means
        that something stands in the way of a requested module. */
    ghost predicate Troubled(r: EvalResult)
      reads this
    {
      SoundHost(host) && r.EngineError? ==> exists q: nat :: Requested(host, q) && !Unbarred(program, State(), q)
    }

    lemma StillAsked(before: seq<nat>, sts: seq<Status>)
      requires SameWaiters(before, sts) && SameErrors(sts, status)
      requires forall m :: 0 <= m < |before| && before[m] > 0 ==>
                 Requested(host, m) && sts[m] != Evaluated && sts[m] != Errored
      ensures Asked()
    {
      hide Requested;
    }

    /** The imports that running code has requested, whatever they are. */
    method ProcessDynamicImports() returns (r: EvalResult, progressed: bool)
      requires Valid() && EventsInOrder()
      modifies this
      ensures Base(NoDrain) && EventsInOrder() && |status| == |old(status)| && ledger.entry == old(ledger).entry
      ensures r.Ok? ==> Valid() && MoreBegun(old(State()), State())
      ensures Accounted(r, old(status), old(throws)) && Troubled(r)
      ensures progressed <==> host.requests(old(clock)) != []
      ensures !progressed ==> r.Ok? && Unmoved(old(State()), old(suspended), old(ledger)) && waiters == old(waiters)
      ensures !progressed ==> clock == old(clock) + 1
      ensures Waking() ==> r.Ok? && Unmoved(old(State()), old(suspended), old(ledger))
      ensures Ripe(old(State()), old(ledger)) ==> r.Ok? && |plan.imports| > 1 && Started(State(), plan.imports[1])
    {
      hide Inv, Tidy, Waiting, Tracked, Played, Acyclic, AwaitsApart, Ordered, OnlyBroken, Clean, Shield, Brewing;
      hide MoreBegun, Shielded, Unbarred, Tally, SoundHost, Requested, Burnt, KeptWaiters, Broken, Clear;
      ghost var s := State();
      ghost var now := clock;
      var requests := host.requests(clock);
      clock := clock + 1;
      progressed := requests != [];
      var x := 0;
      BegunSelf(s);
      AskedFor(requests, clock - 1);
      RipeImports();
      TallySame(host, status, status, throws);
      while x < |requests|
        invariant 0 <= x <= |requests| && Valid() && EventsInOrder() && |status| == |old(status)|
        invariant ledger.entry == old(ledger).entry && MoreBegun(s, State())
        invariant x == 0 ==> Unmoved(s, old(suspended), old(ledger)) && waiters == old(waiters) && clock == now + 1
        invariant Ripe(s, old(ledger)) ==> Halfway(x)
        invariant Tally(host, s.status, old(throws), status, throws)
      {
        if requests[x].Resolved? && requests[x].target < |status| {
          ghost var t, l, thrown := State(), ledger, throws;
          RipeReady(s, old(ledger), x);
          AskedNow(requests, now, x);
          TallyMore(host, s.status, old(throws), status, throws);
          r := ImportDynamically(requests[x].target);
          if !r.Exception? {
            TallyOn(host, s.status, old(throws), t.status, thrown, status, throws);
          }
          if !r.Ok? {
            return;
          }
          RipeNext(s, old(ledger), t, l, x);
          BegunOn(s, t, State());
        }
        x := x + 1;
      }
      r := Ok;
    }

    lemma AskedNow(requests: seq<ImportRequest>, t: nat, x: nat)
      requires requests == host.requests(t) && x < |requests| && requests[x].Resolved?
      ensures Requested(host, requests[x].target)
    {
      assert requests[x] == Resolved(requests[x].target) && requests[x] in host.requests(t);
    }

    lemma AskedFor(requests: seq<ImportRequest>, t: nat)
      requires requests == host.requests(t)
      ensures Scripted() ==> Asks(requests, plan.imports)
    {
    }

    lemma RipeImports()
      requires |program.deps| == |status|
      ensures Ripe(State(), ledger) ==> Halfway(0)
    {
    }

    /** The next import will begin its target. */
    lemma RipeReady(s: EvalState, l: Ledger, x: nat)
      requires Valid() && (x == 0 ==> State() == s && ledger == l)
      requires Ripe(s, l) ==> Halfway(x) && x < |plan.imports|
      ensures Ripe(s, l) ==>
                && plan.imports[x] < |status| && status[plan.imports[x]] == Linked
                && Unbarred(program, State(), plan.imports[x])
      ensures Ripe(s, l) && x == 1 ==> Clear(program, plan, State(), plan.imports[1])
    {
      hide Inv, Tidy, Tracked, Played, Follows, Acyclic, Clean, Brewing, Burnt, Unbarred, Clear, OnlyBroken, Shield;
      if Ripe(s, l) {
        if x == 0 {
          var y :| Brewing(program, plan, y, s);
          BrewingUnbarred(program, plan, y, s, ledger.woken, suspended);
          assert status[plan.imports[0]] == Linked by {
            BrewingLinked(program, plan, y, s);
          }
        } else {
          var y :| Burnt(program, plan, y, State());
          BurntClear(program, plan, y, State(), ledger.woken, suspended);
          ClearUnbarred(program, plan, State(), plan.imports[1]);
          BurntLinked(program, plan, y, State());
        }
      }
    }

    /** The first import has failed, or the second module has started. */
    lemma RipeNext(s: EvalState, l: Ledger, t: EvalState, was: Ledger, x: nat)
      requires Valid() && |t.status| == |status| && (x == 0 ==> t == s && was == l)
      requires Ripe(s, l) ==> x < |plan.imports| == 2 && Came(t, was, plan.imports[x])
      requires Ripe(s, l) ==> plan.imports[0] < |status| && plan.imports[1] < |status|
      requires Ripe(s, l) && x == 1 ==>
                 Clear(program, plan, t, plan.imports[1]) && exists y :: Burnt(program, plan, y, t)
      ensures Ripe(s, l) ==> Halfway(x + 1)
    {
      hide Inv, Tidy, Tracked, Played, Follows, Acyclic, Clean, Brewing, Burnt, Clear, ImportedWell, ImportedBadly;
      if Ripe(s, l) {
        if x == 0 {
          var y :| Brewing(program, plan, y, s);
          BrewingFails(program, plan, y, s, State(), ledger.woken, suspended);
          BrewingBurns(program, plan, y, s, State(), ledger.woken, suspended, ledger.abandoned, ledger.entry);
        } else {
          var y :| Burnt(program, plan, y, t);
          BurntStarts(program, plan, y, t, State(), ledger.woken, suspended);
        }
      }
    }

    /** The script is about to import two modules of which the first will fail. */
    ghost predicate Ripe(s: EvalState, l: Ledger) {
      && Scripted() && Acyclic(program, plan.rank) && l.abandoned == {} && !l.released
      && exists x :: Brewing(program, plan, x, s)
    }

    /** After `x` of the two imports. */
    ghost predicate Halfway(x: nat)
      reads this
    {
      && |plan.imports| == 2 && plan.imports[0] < |status| && plan.imports[1] < |status|
      && (x == 1 ==> exists y :: Burnt(program, plan, y, State()))
      && (x == 2 ==> Started(State(), plan.imports[1]))
    }

    ghost predicate Unmoved(s: EvalState, asleep: set<nat>, l: Ledger)
      reads this
    {
      State() == s && suspended == asleep && ledger == l
    }

    /** Evaluate the linked target of an import that is waiting for it. */
    method EvaluateTarget(target: nat) returns (r: EvalResult)
      requires Valid() && EventsInOrder() && target < |status| && Requested(host, target)
      requires status[target] == Linked && target < |waiters| && waiters[target] > 0
      modifies this
      ensures Base(NoDrain) && EventsInOrder() && |status| == |old(status)| && ledger.entry == old(ledger).entry
      ensures r.Ok? ==> Valid() && MoreBegun(old(State()), State())
      ensures Accounted(r, old(status), old(throws)) && Troubled(r)
      ensures r.Ok? ==>
                !NotBegun(status[target])
                && waiters[target] == if status[target] in {Evaluated, Errored} then 0 else old(waiters)[target]
      ensures Scripted() && Unbarred(program, old(State()), target) ==>
                r.Ok? && Came(old(State()), old(ledger), target)
    {
      hide Requested, SoundHost, Tally, KeptWaiters, SameErrors, Broken;
      ScriptSound();
      hide Inv, Tidy, Waiting, Tracked, Played, Follows, Acyclic, AwaitsApart, Ordered, OnlyBroken, Above, Grew;
      hide NothingNew, Clean, Shield, Shielded, MoreBegun, Unbarred, Clear, Trail, ImportedWell, ImportedBadly;
      ghost var s := State();
      ScriptSound();
      NothingAbove(target);
      LinkedUnbroken(target);
      ghost var asked := waiters;
      r := InnerEvaluation(target);
      AskedStill(asked, s, target, r, old(throws));
      InvShaped(State(), NoDrain);
      ghost var t := State();
      GrewErrors(s, t);
      StillAsked(asked, s.status);
      TallySame(host, s.status, status, throws);
      GrewBarred(program, s, t, target);
      GrewOthers(s, t, target);
      GrewBegun(s, t);
      if r.Ok? {
        LinkedSettles(s, t, target, ledger.abandoned);
        WellImported(s, t, target);
      } else if r.Exception? {
        r := EndImport(s, target, old(throws));
      } else {
        r := FailModule(target, r);
      }
    }

    method ImportDynamically(target: nat) returns (r: EvalResult)
      requires Valid() && EventsInOrder() && target < |status| && Requested(host, target)
      modifies this
      ensures Base(NoDrain) && EventsInOrder() && |status| == |old(status)| && ledger.entry == old(ledger).entry
      ensures r.Ok? ==> Valid() && MoreBegun(old(State()), State())
      ensures Accounted(r, old(status), old(throws)) && Troubled(r)
      ensures old(status)[target] == Evaluated ==>
                Unmoved(old(State()), old(suspended), old(ledger)) && waiters == old(waiters)
                && (r.Ok? <==> host.settles(old(clock)))
      ensures old(status)[target] == Errored ==>
                r.Ok? && Unmoved(old(State()), old(suspended), old(ledger)) && waiters == old(waiters)
      ensures !(old(status)[target] in {Evaluated, Errored, Linked}) ==>
                r.Ok? && Unmoved(old(State()), old(suspended), old(ledger))
                && waiters == old(waiters)[target := old(waiters)[target] + 1]
      ensures old(status)[target] == Linked && r.Ok? ==>
                !NotBegun(status[target])
                && waiters[target] == if status[target] in {Evaluated, Errored} then 0 else old(waiters)[target] + 1
      ensures Scripted() && old(status)[target] == Linked && Unbarred(program, old(State()), target) ==>
                r.Ok? && Came(old(State()), old(ledger), target)
    {
      hide Requested, SoundHost, Tally, KeptWaiters, SameErrors, Broken;
      ScriptSound();
      hide Inv, Tidy, Waiting, Tracked, Played, Follows, Acyclic, AwaitsApart, Ordered, OnlyBroken, Above, Grew;
      hide NothingNew, Clean, Shield, Shielded, MoreBegun, Unbarred, Clear, Trail, ImportedWell, ImportedBadly;
      ghost var s := State();
      BegunSelf(s);
      TallySame(host, status, status, throws);
      if status[target] == Evaluated {
        clock := clock + 1;
        Settling(clock - 1);
        return if host.settles(clock - 1) then Ok else EngineError;
      }
      if status[target] == Errored {
        return Ok;
      }
      waiters := waiters[target := waiters[target] + 1];
      r := Ok;
      if status[target] == Linked {
        r := EvaluateTarget(target);
      }
    }

    lemma Settling(t: nat)
      ensures SoundHost(host) ==> host.settles(t) && !host.jobs(t).JobFailed?
    {
    }

    /** The evaluation of the target of an import has thrown. */
    method EndImport(ghost s: EvalState, target: nat, ghost before: nat) returns (r: EvalResult)
      requires Base(NoDrain) && Kept({}, {}, {}) && EventsInOrder() && |s.status| == |status| && target < |status|
      requires OnlyBroken(s, ledger.abandoned) && KeepsOthers(s, State(), target) && s.status[target] == Linked
      requires MoreBegun(s, State()) && Grew(s, State()) && target !in ledger.abandoned
      requires Entered(Exception, s, target, before) && Requested(host, target) && Asked()
      requires Promised() && Shield(program, ledger) ==> Clean(program, s, ledger.abandoned, ledger.entry)
      requires target < |waiters| && waiters[target] > 0
      modifies this
      ensures Base(NoDrain) && EventsInOrder() && |status| == |old(status)| && ledger.entry == old(ledger).entry
      ensures r.Ok? && Valid() && MoreBegun(s, State()) && Tally(host, s.status, before, status, throws)
      ensures target < |waiters| && status[target] == Errored && waiters[target] == 0
      ensures Scripted() ==> Came(s, old(ledger), target)
    {
      hide Inv, Tidy, Waiting, Tracked, Played, Follows, Acyclic, AwaitsApart, Ordered, OnlyBroken, Above, Grew;
      hide NothingNew, Clean, Shield, Shielded, MoreBegun, Unbarred, Clear, Trail, ImportedWell, ImportedBadly;
      hide Requested, SoundHost, NeverThrows, Tally, KeptWaiters, SameErrors, Broken;
      ghost var t := State();
      StuckFacts(s, target, before);
      GrewErrors(s, t);
      TallyCaught(host, s.status, status, target, before);
      r := FailModule(target, Exception);
      BegunErrored(s, t, target);
      Abandon(s, t, target);
      BadlyImported(s, t, target);
    }

    /** How the import of `target` has come out, under a script. */
    ghost predicate Came(s: EvalState, l: Ledger, target: nat)
      reads this
    {
      || (ImportedWell(s, State(), target) && ledger == l)
      || (!Clear(program, plan, s, target) && ImportedBadly(plan, s, State(), target)
          && (Acyclic(program, plan.rank) && !l.released && Shield(program, l) ==>
                Clean(program, State(), ledger.abandoned, ledger.entry)))
    }

    /** Whoever waits for a module that has not been evaluated still does. */
    lemma AskedStill(asked: seq<nat>, s: EvalState, i: nat, r: EvalResult, before: nat)
      requires SameWaiters(asked, s.status) && Entered(r, s, i, before) && i < |asked| && asked[i] > 0
      requires i < |s.status| && s.status[i] != Evaluated
      ensures i < |waiters| && i < |status| && waiters[i] == if status[i] == Evaluated then 0 else asked[i]
      ensures r.Exception? ==> waiters[i] > 0
    {
      hide Trail, Unbarred, Clear, ThrewThere, Follows;
    }

    lemma WellImported(s: EvalState, t: EvalState, i: nat)
      requires t == State() && i < |status| && !NotBegun(status[i]) && status[i] != Errored
      requires NothingNew(s, t) && Grew(s, t)
      ensures Came(s, ledger, i)
    {
    }

    lemma StuckFacts(s: EvalState, i: nat, before: nat)
      requires Entered(Exception, s, i, before) && Kept({}, {}, {})
      ensures i < |status| && status[i] == Evaluating && !NeverThrows(host)
      ensures Promised() ==> i < |order| && order[i].None?
      ensures Promised() && Shield(program, ledger) ==>
                Clean(program, State(), ledger.abandoned, ledger.entry) && Trail(program, s, State(), i)
      ensures Scripted() ==> ThrewThere(plan, State()) && plan.throws != {} && !Clear(program, plan, s, i)
    {
      hide Clear, Unbarred, Follows, Tidy, Tracked, Played, Clean, Trail, Acyclic, AwaitsApart, Shield;
      if Promised() {
        OrderIfAsync(program, State(), Broken(program, ledger), i);
      }
    }

    lemma LinkedUnbroken(i: nat)
      requires Valid() && i < |status| && status[i] == Linked
      ensures i !in ledger.abandoned
    {
      hide Inv, Tidy, Tracked, Played, Follows, Acyclic, AwaitsApart, Clean;
    }

    lemma BadlyImported(s: EvalState, t: EvalState, i: nat)
      requires Grew(s, t) && i < |t.status| && State().status == t.status[i := Errored]
      ensures ThrewThere(plan, t) ==> ImportedBadly(plan, s, State(), i)
    {
    }

    /** What the failed import of `i` has left under way is abandoned. */
    ghost method Abandon(s: EvalState, t: EvalState, i: nat)
      requires Base(NoDrain) && Kept({}, {}, {}) && EventsInOrder() && i < |t.status| && |s.status| == |t.status|
      requires OnlyBroken(s, ledger.abandoned) && KeepsOthers(s, t, i) && s.status[i] == Linked
      requires State() == WithStatus(t, i, Errored) && !NeverThrows(host) && Asked()
      requires t.status[i] == Evaluating && (Promised() ==> i < |t.order| && t.order[i].None?)
      requires Promised() && Shield(program, ledger) ==>
                 && Clean(program, s, ledger.abandoned, ledger.entry)
                 && Clean(program, t, ledger.abandoned, ledger.entry) && Trail(program, s, t, i)
      modifies this`ledger
      ensures Valid() && EventsInOrder() && ledger == old(ledger).(abandoned := ledger.abandoned)
      ensures old(Promised() && Shield(program, ledger)) ==>
                Clean(program, State(), ledger.abandoned, ledger.entry)
    {
      hide Inv, Tidy, Waiting, Tracked, Played, Follows, Acyclic, AwaitsApart, Ordered, Clean, Trail, Shielded;
      var more := set m: nat | m < |status| && status[m] == Evaluating;
      NowBroken(s, State(), i, ledger.abandoned, more);
      var after := ledger.(abandoned := more);
      if Promised() {
        TidyBroken(program, State(), {}, Broken(program, ledger), Broken(program, after));
        TidyOrdered(program, State(), {}, Broken(program, after));
        if Shield(program, ledger) {
          AbandonedClean(s, t, i, more);
        }
      }
      ledger := after;
    }

    lemma AbandonedClean(s: EvalState, t: EvalState, i: nat, more: set<nat>)
      requires Promised() && Shield(program, ledger) && Kept({}, {}, {}) && OnlyBroken(s, ledger.abandoned)
      requires i < |t.status| && i < |t.order| && State() == WithStatus(t, i, Errored) && |s.status| == |t.status|
      requires t.status[i] == Evaluating && t.order[i].None?
      requires Clean(program, s, ledger.abandoned, ledger.entry)
      requires Clean(program, t, ledger.abandoned, ledger.entry) && Trail(program, s, t, i)
      requires more == set m: nat | m < |status| && status[m] == Evaluating
      ensures Clean(program, State(), more, ledger.entry)
    {
      hide Tidy, Tracked, Played, Follows, Acyclic, AwaitsApart, Clean, Trail, Shield;
      assert Fell(State(), i);
      assert forall m: nat :: Passed(t, m) ==> Passed(State(), m);
      TrailLeft(program, s, t, State(), i, ledger.abandoned, more, ledger.entry);
    }

    /** Between calls, only abandoned modules are under way. */
    lemma NothingAbove(i: nat)
      requires Valid() && i < |status|
      ensures Promised() ==> Above(State(), plan.rank, i, ledger.abandoned)
    {
      hide Inv, Tidy, Tracked, Follows, AwaitsApart;
    }

    // ----- the scheduling loop -----

    /** The interpreter has reported that the module is not ready, if it is
        suspended at all. */
    ghost predicate Unready(i: nat)
      reads this`status, this`suspended
    {
      i < |status| && status[i] == EvaluatingAsync && i in suspended ==> exists t :: !host.ready(t, i)
    }

    /** From question `t` on, a turn in which the host asks for nothing, runs
        nothing and has nothing ready. */
    ghost predicate Idled(t: nat)
      reads this`status, this`suspended
    {
      host.requests(t) == [] && host.jobs(t + 1) == NoJobs && forall i: nat :: Unready(i)
    }

    /** Suspended modules that the interpreter reports as ready, in
        asynchronous order. */
    method ReadyModules() returns (ready: seq<nat>)
      requires |order| == |status|
      modifies this`clock
      ensures forall i :: i in ready ==>
                i < |status| && status[i] == EvaluatingAsync && i in suspended && exists t :: host.ready(t, i)
      ensures forall i: nat :: i < |status| && i !in ready ==> Unready(i)
      ensures SortedBy(order, ready) && Distinct(ready)
      ensures Scripted() ==> ready == WokenOnly()
    {
      var found: seq<nat> := [];
      var i := 0;
      while i < |status|
        invariant 0 <= i <= |status|
        invariant forall k :: k in found ==>
                    k < |status| && status[k] == EvaluatingAsync && k in suspended && exists t :: host.ready(t, k)
        invariant forall k: nat :: k < i && k !in found ==> Unready(k)
        invariant Distinct(found) && forall k :: k in found ==> k < i
        invariant Scripted() ==> found == if plan.wake < i then WokenOnly() else []
      {
        if status[i] == EvaluatingAsync && i in suspended && host.ready(clock, i) {
          found := found + [i];
        }
        clock := clock + 1;
        i := i + 1;
      }
      ready := SortByOrder(order, found);
      forall k ensures k in ready <==> k in found {
        assert k in ready <==> k in Elements(ready);
        assert k in found <==> k in Elements(found);
      }
      FewSorted(found, ready);
    }

    /** A scripted host finds only one module ready. */
    ghost function WokenOnly(): seq<nat>
      reads this
    {
      if plan.wake < |status| && status[plan.wake] == EvaluatingAsync && plan.wake in suspended then [plan.wake] else []
    }

    method ResumeModule(i: nat) returns (r: EvalResult)
      requires Valid() && EventsInOrder() && i < |status| && status[i] == EvaluatingAsync && i in suspended
      modifies this
      ensures Base(NoDrain) && EventsInOrder() && |status| == |old(status)| && ledger.entry == old(ledger).entry
      ensures r.Ok? ==> Valid() && MoreBegun(old(State()), State())
      ensures Accounted(r, old(status), old(throws)) && (SoundHost(host) ==> !r.EngineError?)
      ensures Waking() ==> r.Ok? && Resumed(old(State()), State(), i) && ledger.woken == old(ledger).woken + {i}
    {
      hide Inv, Tidy, Waiting, NothingNew, Tracked, Played, Follows, Acyclic, AwaitsApart, Ordered, OnlyBroken;
      hide Cascaded, SoundHost, NeverThrows, Tally, Requested, KeptWaiters, SameErrors, Shield, Clean, DepsPassed;
      hide DepsBegun, KeepsOthers, Resumed, Broken;
      ghost var s, thrown := State(), throws;
      InvShaped(s, NoDrain);
      WakingThrowsNot();
      BegunSelf(s);
      var outcome := Interpret(i, true);
      assert State() == s;
      match outcome
      case Completed => r := CompleteResumed(i, thrown);
      case Suspended =>
        TallySame(host, status, status, thrown);
        r := Ok;
      case Threw => r := FailResumed(i, Exception, thrown);
      case Fault => r := FailResumed(i, EngineError, thrown);
    }

    /** A resumed body has come to its end. */
    method CompleteResumed(i: nat, ghost before: nat) returns (r: EvalResult)
      requires Valid() && EventsInOrder() && i < |status| && status[i] == EvaluatingAsync && i in suspended
      requires throws == before
      modifies this
      ensures Base(NoDrain) && EventsInOrder() && |status| == |old(status)| && ledger.entry == old(ledger).entry
      ensures r.Ok? ==> Valid() && MoreBegun(old(State()), State())
      ensures Accounted(r, old(status), before) && (SoundHost(host) ==> !r.EngineError?)
      ensures Waking() ==> r.Ok? && Resumed(old(State()), State(), i) && ledger.woken == old(ledger).woken + {i}
    {
      hide Inv, Tidy, Waiting, NothingNew, Tracked, Played, Follows, Acyclic, AwaitsApart, Ordered, OnlyBroken;
      hide Cascaded, SoundHost, NeverThrows, Tally, Requested, KeptWaiters, SameErrors, Shield, Clean, DepsPassed;
      hide DepsBegun, KeepsOthers, Resumed, Broken;
      ghost var s, asked, asleep, was := State(), waiters, suspended, ledger;
      InvShaped(s, NoDrain);
      RanAlready(s, i);
      AsyncGrounded({}, i);
      HeldOnly(i);
      WakingThrowsNot();
      suspended := suspended - {i};
      ledger := ledger.(woken := ledger.woken + {i}, released := ledger.released || parents[i] != []);
      KeptWoken(s, i, asleep, was);
      StillGroundedThen(s, i, was);
      r := CompleteModule(i, {});
      CascadedOthers(s, State(), i);
      CascadedResumed(s, State(), i);
      CascadedErrors(s, State(), i);
      TallySame(host, s.status, status, before);
      InvShaped(State(), NoDrain);
      StillAsked(asked, s.status);
      if r.Ok? {
        AsyncSettles(s, State(), i, ledger.abandoned);
      }
    }

    /** A resumed body has thrown, or is in trouble. */
    method FailResumed(i: nat, e: EvalResult, ghost before: nat) returns (r: EvalResult)
      requires Valid() && EventsInOrder() && i < |status| && status[i] == EvaluatingAsync && !Scripted() && !e.Ok?
      requires throws == before + (if e.Exception? then 1 else 0)
      modifies this
      ensures Base(NoDrain) && EventsInOrder() && |status| == |old(status)| && ledger == old(ledger)
      ensures r.Ok? ==> Valid() && MoreBegun(old(State()), State())
      ensures Accounted(r, old(status), before) && (r.EngineError? ==> e.EngineError?)
    {
      hide Inv, Tidy, Waiting, Tracked, Played, Follows, Acyclic, AwaitsApart, Ordered, OnlyBroken, Clean, Shield;
      hide Requested, Tally, KeptWaiters, SameErrors, DepsPassed, DepsBegun;
      ghost var s := State();
      AsyncGrounded({}, i);
      InvShaped(s, NoDrain);
      TallyThrown(i, before);
      TallySame(host, status, status, before);
      ErroredSettles(s, i, ledger.abandoned);
      BegunSelf(s);
      BegunErrored(s, s, i);
      suspended := suspended - {i};
      r := FailModule(i, e);
    }

    lemma KeptWoken(s: EvalState, i: nat, before: set<nat>, was: Ledger)
      requires State() == s && Tracked(program, s, {}, {}) && suspended == before - {i}
      requires ledger == was.(woken := was.woken + {i}, released := ledger.released)
      requires was.released ==> ledger.released
      requires Acyclic(program, plan.rank) && (AwaitsApart(program) || !was.released) ==>
                 Tidy(program, s, {}, Broken(program, was))
                 && (Shield(program, was) ==> Clean(program, s, was.abandoned, was.entry))
      requires Scripted() ==> Played(s, plan, was.woken, before, {})
      ensures Kept({}, {}, {i})
    {
      hide Tidy, Tracked, Played, Follows, Acyclic, AwaitsApart, Clean;
      if Scripted() {
        PlayWoken(s, i, plan, was.woken, before);
      }
    }

    lemma StillGroundedThen(s: EvalState, i: nat, was: Ledger)
      requires State() == s && DepsBegun(program, s, i) && (was.released ==> ledger.released)
      requires ledger == was.(woken := ledger.woken, released := ledger.released)
      requires Acyclic(program, plan.rank) && (AwaitsApart(program) || !was.released) && Shield(program, was) ==>
                 DepsPassed(program, s, i) && i !in was.abandoned
      ensures Grounded(s, i)
    {
    }

    lemma WakingThrowsNot()
      ensures Waking() ==> NeverThrows(host) && SoundHost(host)
    {
    }

    /** An import that waits for the module catches what it throws. */
    lemma TallyThrown(i: nat, before: nat)
      requires Asked() && i < |status| && i < |waiters| && status[i] != Errored
      ensures waiters[i] > 0 ==> Tally(host, status, before, status[i := Errored], before + 1)
    {
      hide Requested, Tally;
      if waiters[i] > 0 {
        TallyCaught(host, status, status, i, before);
      }
    }

    /** A suspended body is one that the script holds. */
    lemma HeldOnly(i: nat)
      requires Valid() && i < |status| && status[i] == EvaluatingAsync && i in suspended
      ensures Scripted() ==> i in plan.held && i !in plan.throws
    {
      hide Inv, Tidy, Tracked, Follows, Acyclic, AwaitsApart, Clean;
    }

    /** One turn: dynamic imports, promise jobs, ready modules. */
    method Turn() returns (r: EvalResult, progressed: bool)
      requires Valid() && EventsInOrder()
      modifies this
      ensures Base(NoDrain) && EventsInOrder() && |status| == |old(status)| && ledger.entry == old(ledger).entry
      ensures r.Ok? ==> Valid() && MoreBegun(old(State()), State())
      ensures Accounted(r, old(status), old(throws)) && Troubled(r)
      ensures progressed ==> !NeverBusy(host)
      ensures r.Ok? && !progressed ==>
                Idled(old(clock)) && Unmoved(old(State()), old(suspended), old(ledger)) && waiters == old(waiters)
      ensures Waking() ==> r.Ok?
      ensures Waking() && old(WokenOnly()) == [plan.wake] ==>
                Resumed(old(State()), State(), plan.wake) && ledger.woken == old(ledger).woken + {plan.wake}
      ensures Ripe(old(State()), old(ledger)) ==> r.Ok? && |plan.imports| > 1 && Started(State(), plan.imports[1])
    {
      hide Inv, Tidy, Waiting, Tracked, Played, Acyclic, AwaitsApart, Ordered, OnlyBroken, Resumed, MoreBegun;
      hide Clean, Shield, Shielded, Ripe, Follows, Tally, Requested, Unbarred, SoundHost, Unready;
      ghost var s, l, before, now := State(), ledger, throws, clock;
      r, progressed := ProcessDynamicImports();
      if !r.Ok? {
        return;
      }
      RipeCalm(s, l);
      PlanFollowed(clock);
      Settling(clock);
      var jobs := host.jobs(clock);
      clock := clock + 1;
      progressed := progressed || jobs.JobsRan?;
      if jobs.JobFailed? {
        return EngineError, progressed;
      }
      ghost var t, thrown := State(), throws;
      var more: bool;
      TallyMore(host, s.status, before, status, throws);
      ghost var woken: seq<nat>;
      r, more, woken := ResumeReady();
      progressed := progressed || more;
      if !r.Exception? {
        TallyOn(host, s.status, before, t.status, thrown, status, throws);
      }
      if r.Ok? {
        BegunOn(s, t, State());
      }
    }

    /** Resume a module, if it is still ready. */
    method ResumeIfReady(i: nat) returns (r: EvalResult, went: bool)
      requires Valid() && EventsInOrder() && i < |status|
      modifies this
      ensures Base(NoDrain) && EventsInOrder() && |status| == |old(status)| && ledger.entry == old(ledger).entry
      ensures r.Ok? ==> Valid() && MoreBegun(old(State()), State())
      ensures Accounted(r, old(status), old(throws)) && (SoundHost(host) ==> !r.EngineError?)
      ensures !went ==> r.Ok? && Unmoved(old(State()), old(suspended), old(ledger)) && waiters == old(waiters)
      ensures !went ==> Unready(i)
      ensures went ==> old(status)[i] == EvaluatingAsync && i in old(suspended) && host.ready(old(clock), i)
      ensures Waking() ==> r.Ok?
      ensures Waking() && went ==> Resumed(old(State()), State(), i) && ledger.woken == old(ledger).woken + {i}
      ensures Waking() && !went ==> !(status[i] == EvaluatingAsync && i in suspended && i == plan.wake)
      ensures Waking() && went ==> i == plan.wake
    {
      hide Inv, Tidy, Waiting, Tracked, Played, Acyclic, AwaitsApart, Ordered, OnlyBroken, Resumed, MoreBegun;
      hide Clean, Shield, Shielded, Follows, Tally, Requested, SoundHost;
      BegunSelf(State());
      TallySame(host, status, status, throws);
      PlanFollowed(clock);
      var isReady := i in suspended && host.ready(clock, i);
      clock := clock + 1;
      r, went := Ok, status[i] == EvaluatingAsync && isReady;
      if went {
        r := ResumeModule(i);
      }
    }

    /** Resume the modules that are ready. */
    method ResumeReady() returns (r: EvalResult, progressed: bool, ghost woken: seq<nat>)
      requires Valid() && EventsInOrder()
      modifies this
      ensures Base(NoDrain) && EventsInOrder() && |status| == |old(status)| && ledger.entry == old(ledger).entry
      ensures r.Ok? ==> Valid() && MoreBegun(old(State()), State())
      ensures Accounted(r, old(status), old(throws)) && (SoundHost(host) ==> !r.EngineError?)
      ensures !progressed ==> r.Ok? && Unmoved(old(State()), old(suspended), old(ledger)) && waiters == old(waiters)
      ensures !progressed ==> forall i: nat :: Unready(i)
      ensures progressed ==> exists i: nat, t: nat ::
                i < |old(status)| && old(status)[i] == EvaluatingAsync && i in old(suspended) && host.ready(t, i)
      ensures SortedBy(old(order), woken) && Distinct(woken) && (progressed <==> woken != [])
      ensures Elements(woken) <= old(suspended)
      ensures Waking() ==> r.Ok?
      ensures Waking() && old(WokenOnly()) == [plan.wake] ==>
                Resumed(old(State()), State(), plan.wake) && ledger.woken == old(ledger).woken + {plan.wake}
      ensures Scripted() && plan.held == {} ==> r.Ok? && State() == old(State())
    {
      hide Inv, Tidy, Waiting, Tracked, Played, Acyclic, AwaitsApart, Ordered, OnlyBroken, Resumed, MoreBegun;
      hide Clean, Shield, Shielded, Follows, Tally, Requested, SoundHost, InTurn, SortedBy, Distinct;
      ghost var s, l, before := State(), ledger, throws;
      InvShaped(s, NoDrain);
      NobodyReady();
      BegunSelf(s);
      TallySame(host, status, status, throws);
      var ready := ReadyModules();
      TurnFirst(s.order, ready);
      progressed, woken := false, [];
      var x := 0;
      while x < |ready|
        invariant 0 <= x <= |ready| && Valid() && EventsInOrder() && |status| == |old(status)|
        invariant ledger.entry == l.entry && MoreBegun(s, State())
        invariant x == 0 ==> Unmoved(s, old(suspended), l) && !progressed
        invariant InTurn(s.order, ready, x, woken) && (progressed <==> woken != [])
        invariant Tally(host, s.status, before, status, throws)
        invariant !progressed ==> Unmoved(s, old(suspended), l) && waiters == old(waiters)
        invariant !progressed ==> forall k: nat :: k < |status| && k !in ready[x..] ==> Unready(k)
        invariant progressed ==> exists i: nat, t: nat ::
                    i < |s.status| && s.status[i] == EvaluatingAsync && i in old(suspended) && host.ready(t, i)
        invariant Waking() && x == 1 ==> Resumed(s, State(), plan.wake) && ledger.woken == l.woken + {plan.wake}
      {
        var i := ready[x];
        assert i in ready;
        assert ready[x..] == [i] + ready[x + 1..];
        TurnNext(s.order, ready, x, woken);
        ghost var t, thrown, asked := State(), throws, clock;
        TallyMore(host, s.status, before, status, throws);
        var went;
        r, went := ResumeIfReady(i);
        if !r.Exception? {
          TallyOn(host, s.status, before, t.status, thrown, status, throws);
        }
        if went {
          assert host.ready(asked, i);
          progressed := true;
          woken := woken + [i];
          TurnOver(s.order, ready, x + 1, woken, old(suspended));
        }
        if !r.Ok? {
          return;
        }
        BegunOn(s, t, State());
        x := x + 1;
      }
      TurnOver(s.order, ready, x, woken, old(suspended));
      r := Ok;
    }

    lemma PlanFollowed(t: nat)
      ensures Scripted() ==> host.jobs(t) == NoJobs && forall i: nat :: host.ready(t, i) <==> i == plan.wake
    {
    }

    lemma RipeCalm(s: EvalState, l: Ledger)
      ensures Ripe(s, l) ==> Scripted() && plan.held == {}
    {
      hide Follows, Acyclic;
    }

    lemma NobodyReady()
      requires Valid()
      ensures Scripted() && plan.held == {} ==> WokenOnly() == []
    {
      hide Inv, Tidy, Tracked, Follows, Acyclic, AwaitsApart, Clean;
    }

    /** What entering a module leaves, before the first turn of the loop. */
    ghost predicate Entering(entry: nat, s: EvalState, first: EvalState, asleep: set<nat>, l: Ledger) {
      && |first.status| == |s.status|
      && (forall m :: 0 <= m < |s.status| && first.status[m] == Errored ==> s.status[m] == Errored)
      && Inv(first, NoDrain) && Tracked(program, first, {}, {}) && OnlyBroken(first, l.abandoned)
      && entry < |first.status| && !NotBegun(first.status[entry])
      && (Acyclic(program, plan.rank) && (AwaitsApart(program) || !l.released) ==>
            Ordered(program, first.events, Broken(program, l)))
      && (Scripted() ==> Played(first, plan, l.woken, asleep, {}))
    }

    ghost predicate Wakes(first: EvalState, asleep: set<nat>) {
      plan.wake < |first.status| && first.status[plan.wake] == EvaluatingAsync && plan.wake in asleep
    }

    /** What a script has done when `n` of `turns` turns are left. */
    ghost predicate TurnsLeft(n: nat, turns: nat, first: EvalState, asleep: set<nat>, l: Ledger)
      reads this
    {
      && (n == turns ==> Unmoved(first, asleep, l))
      && (Waking() && n == 0 && turns == 1 && Wakes(first, asleep) ==>
            Resumed(first, State(), plan.wake) && ledger.woken == l.woken + {plan.wake})
      && (n == 0 && turns == 1 && Ripe(first, l) ==> |plan.imports| > 1 && Started(State(), plan.imports[1]))
    }

    method NextTurn(n: nat, turns: nat, ghost first: EvalState, ghost asleep: set<nat>, ghost l: Ledger,
                    ghost sts: seq<Status>, ghost before: nat)
      returns (r: EvalResult, progressed: bool, idle: bool)
      requires Tally(host, sts, before, status, throws)
      requires Valid() && EventsInOrder() && 0 < n <= turns && TurnsLeft(n, turns, first, asleep, l)
      modifies this
      ensures Base(NoDrain) && EventsInOrder() && |status| == |old(status)| && OnceEach(events)
      ensures ledger.entry == old(ledger).entry && Accounted(r, sts, before) && Troubled(r)
      ensures clock > 0 && (idle <==> host.idle(clock - 1))
      ensures r.Ok? && !progressed ==> exists t: nat :: Idled(t)
      ensures progressed ==> !NeverBusy(host)
      ensures r.Ok? ==> Valid() && MoreBegun(old(State()), State()) && TurnsLeft(n - 1, turns, first, asleep, l)
      ensures Waking() || (n == turns && Ripe(first, l)) ==> r.Ok?
    {
      hide Inv, Tidy, Tracked, Played, Follows, Acyclic, AwaitsApart, Ordered, OnlyBroken, OnceEach, Resumed, Clean;
      hide MoreBegun, Shield, Brewing, Tally, Requested, Unbarred, SoundHost;
      ghost var now, thrown, was := clock, throws, status;
      TallyMore(host, sts, before, was, thrown);
      r, progressed := Turn();
      InvOnce(State());
      if !r.Exception? {
        TallyOn(host, sts, before, was, thrown, status, throws);
      }
      idle := host.idle(clock);
      clock := clock + 1;
      assert r.Ok? && !progressed ==> Idled(now);
    }

    /** The first module to be entered before any import has failed. */
    ghost function Opened(l: Ledger, entry: nat): Ledger {
      if l.abandoned == {} && l.entry.None? then l.(entry := Some(entry)) else l
    }

    ghost method Open(entry: nat)
      requires Valid() && EventsInOrder() && entry < |status|
      requires !NotBegun(status[entry]) && status[entry] != Errored
      modifies this`ledger
      ensures Valid() && EventsInOrder() && ledger == Opened(old(ledger), entry)
    {
      hide Inv, Tidy, Tracked, Played, Follows, Acyclic, AwaitsApart, Ordered, Clean;
      if ledger.abandoned == {} && ledger.entry.None? {
        InvShaped(State(), NoDrain);
        assert Passed(State(), entry);
        if Promised() {
          CleanEntered(program, State(), {}, entry);
        }
      }
      ledger := Opened(ledger, entry);
    }

    /** The entry has been evaluated, nothing is under way and nobody waits. */
    ghost predicate RunDone(entry: nat)
      reads this
    {
      && entry < |status| && status[entry] == Evaluated && clock > 0 && host.idle(clock - 1)
      && forall m :: 0 <= m < |waiters| ==> waiters[m] == 0
    }

    /** Something that has not been linked, or has failed, is needed by the entry
        or by a module whose import has been requested. */
    ghost predicate Blocked(entry: nat)
      reads this
    {
      || !Unbarred(program, State(), entry)
      || exists q: nat :: Requested(host, q) && !Unbarred(program, State(), q)
    }

    /** Which result a run has, from the statuses and the count of bodies that had
        thrown at its beginning, and whether it has had a turn: it ends with an exception only if a body has
        thrown; otherwise every exception has been caught by an import of the
        module that failed. Without imports it ends with an exception exactly if a
        body has thrown. */
    ghost predicate Concludes(r: RunResult, entry: nat, sts: seq<Status>, before: nat, ran: bool)
      reads this
    {
      && r != Failed(Ok)
      && (if r == Failed(Exception) then throws > before else Tally(host, sts, before, status, throws))
      && (NoRequests(host) ==> (r == Failed(Exception) <==> throws > before))
      && (r == Failed(EngineError) && SoundHost(host) ==> Blocked(entry))
      && (r.Done? ==> RunDone(entry))
      && (r.Stuck? ==> !RunDone(entry) && exists t: nat :: Idled(t))
      && (r.OutOfTurns? && ran ==> !RunDone(entry) && !NeverBusy(host))
    }

    lemma EntryFails(e: EvalResult, entry: nat, sts: seq<Status>, before: nat)
      requires !e.Ok? && throws == before + (if e.Exception? then 1 else 0)
      requires e.EngineError? ==> Tally(host, sts, before, status, throws)
      requires SoundHost(host) && e.EngineError? ==> !Unbarred(program, State(), entry)
      ensures forall ran :: Concludes(Failed(e), entry, sts, before, ran)
    {
      hide Tally, SoundHost, Unbarred, Requested;
    }

    lemma TurnFails(e: EvalResult, entry: nat, sts: seq<Status>, before: nat)
      requires !e.Ok? && (if e.Exception? then throws > before else Tally(host, sts, before, status, throws))
      requires Troubled(e)
      ensures forall ran :: Concludes(Failed(e), entry, sts, before, ran)
    {
      hide SoundHost, Unbarred;
      NothingCaught(sts, before);
    }

    /** Where nothing is imported, nothing catches an exception. */
    lemma NothingCaught(sts: seq<Status>, before: nat)
      ensures NoRequests(host) && Tally(host, sts, before, status, throws) ==> throws == before
    {
      if NoRequests(host) && Tally(host, sts, before, status, throws) {
        NoMore(sts, status);
      }
    }

    lemma Ends(r: RunResult, entry: nat, sts: seq<Status>, before: nat, ran: bool)
      requires !r.Failed? && Tally(host, sts, before, status, throws)
      requires r.Done? ==> RunDone(entry)
      requires r.Stuck? ==> !RunDone(entry) && exists t: nat :: Idled(t)
      requires r.OutOfTurns? && ran ==> !RunDone(entry) && !NeverBusy(host)
      ensures Concludes(r, entry, sts, before, ran)
    {
      hide SoundHost, Unbarred, Tally, Requested, NoRequests, Unready;
      NothingCaught(sts, before);
    }

    /** Evaluate the entry and what it needs, up to the first turn of the loop. */
    method EvaluateEntry(entry: nat) returns (e: EvalResult)
      requires Valid() && EventsInOrder() && entry < |status|
      modifies this
      ensures Base(NoDrain) && OnceEach(events) && EventsInOrder() && |status| == |old(status)|
      ensures e.Ok? ==> Valid() && ledger == Opened(old(ledger), entry) && !NotBegun(status[entry])
      ensures e.Ok? ==> Entering(entry, old(State()), State(), suspended, ledger)
      ensures e.Ok? ==> Tally(host, old(status), old(throws), status, throws)
      ensures !e.Ok? ==>
                ledger == old(ledger) && forall ran :: Concludes(Failed(e), entry, old(status), old(throws), ran)
      ensures Waking() || (Scripted() && Clear(program, plan, old(State()), entry)) ==> e.Ok?
    {
      hide Inv, Tidy, Waiting, NothingNew, Tracked, Played, Follows, Acyclic, AwaitsApart, Ordered, OnlyBroken, Above;
      hide OnceEach, KeepsOthers, Grew, Clean, Shielded, Clear, Unbarred, Trail, ThrewThere, Entering, Shield, Tally;
      hide Requested, SoundHost, Concludes;
      ghost var s, before := State(), throws;
      NothingAbove(entry);
      WakingClear(entry);
      ClearUnbarred(program, plan, s, entry);
      ScriptSound();
      ghost var asked := waiters;
      e := InnerEvaluation(entry);
      InvOnce(State());
      GrewErrors(s, State());
      TallySame(host, s.status, status, before);
      GrewBarred(program, s, State(), entry);
      if !e.Ok? {
        EntryFails(e, entry, s.status, before);
        return;
      }
      InvShaped(State(), NoDrain);
      StillAsked(asked, s.status);
      GrewOthers(s, State(), entry);
      EntrySettles(s, State(), ledger.abandoned);
      Open(entry);
      EnteringNow(entry, s);
    }

    /** Evaluation of an entry module, for at most `turns` turns of the loop.
        Whatever bodies do, none is started twice. When nothing fails, all that
        the entry reaches has been evaluated in the end, except what a top-level
        await keeps asynchronous. `first` is the state before the first turn. */
    method Evaluate(entry: nat, turns: nat) returns (r: RunResult, ghost first: EvalState, ghost asleep: set<nat>)
      requires Valid() && EventsInOrder() && entry < |status|
      modifies this
      ensures Base(NoDrain) && OnceEach(events) && EventsInOrder() && |status| == |old(status)|
      ensures !r.Failed? ==> Valid()
      ensures !r.Failed? || (Scripted() && Clear(program, plan, old(State()), entry)) ==>
                Entering(entry, old(State()), first, asleep, Opened(old(ledger), entry))
      ensures !r.Failed? && Acyclic(program, plan.rank) && AwaitsApart(program) ==>
                (Ordered(program, events, {}) <==> NoneMissed(program, State()))
      ensures (old(ledger) == NewLedger && Acyclic(program, plan.rank) && AwaitsApart(program)
               && (Shielded(program, entry) || NeverThrows(host))) ==> Ordered(program, events, {})
      ensures r.Done? ==> RanOnce(program, State(), entry)
      ensures !r.Failed? && NoneFailed(State()) && program.awaits == {} ==>
                forall m: nat :: Reaches(program, entry, m) ==> RanOnce(program, State(), m)
      ensures !r.Failed? && NoneFailed(State()) ==>
                forall m: nat :: Reaches(program, entry, m) ==> m < |status| && Through(status[m])
      ensures Concludes(r, entry, old(status), old(throws), turns > 0)
      ensures Waking() ==> !r.Failed?
      ensures Waking() && turns == 1 && Wakes(first, asleep) ==>
                Resumed(first, State(), plan.wake) && ledger.woken == old(ledger).woken + {plan.wake}
      ensures Clear(program, plan, old(State()), entry) && turns == 1 && Ripe(first, Opened(old(ledger), entry)) ==>
                !r.Failed? && |plan.imports| > 1 && Started(State(), plan.imports[1])
    {
      hide Inv, Tidy, Tracked, Played, Follows, Acyclic, AwaitsApart, Ordered, OnlyBroken, Finished, Reaches, RanOnce;
      hide NoneFailed, OnceEach, Resumed, NoneMissed, Wakes, Clean, Shielded, Clear, Unbarred, MoreBegun, Brewing;
      hide TurnsLeft, Entering, Ripe, Shield, Tally, Requested, SoundHost, Concludes, Unready, NoRequests;
      ghost var s, before := State(), throws;
      first, asleep := s, suspended;
      RipeCalm(s, Opened(ledger, entry));
      var e := EvaluateEntry(entry);
      if !e.Ok? {
        InOrder(entry);
        return Failed(e), first, asleep;
      }
      ghost var l := ledger;
      first, asleep := State(), suspended;
      BegunSelf(first);
      TurnsBegin(turns, first, asleep, l);
      var n: nat := turns;
      r := OutOfTurns;
      while n > 0
        invariant r.OutOfTurns?
        invariant Valid() && EventsInOrder() && |status| == |old(status)| && OnceEach(events)
        invariant ledger.entry == l.entry && MoreBegun(first, State())
        invariant n <= turns && TurnsLeft(n, turns, first, asleep, l)
        invariant Tally(host, s.status, before, status, throws)
        invariant n < turns ==> !RunDone(entry) && !NeverBusy(host)
      {
        var progressed: bool, idle: bool;
        ghost var t := State();
        e, progressed, idle := NextTurn(n, turns, first, asleep, l, s.status, before);
        if !e.Ok? {
          TurnFails(e, entry, s.status, before);
          InOrder(entry);
          return Failed(e), first, asleep;
        }
        BegunOn(first, t, State());
        n := n - 1;
        if status[entry] == Evaluated && idle && forall m :: 0 <= m < |waiters| ==> waiters[m] == 0 {
          r := Done;
          break;
        }
        if !progressed {
          r := Stuck;
          break;
        }
      }
      Concluded(entry, first);
      Ends(r, entry, s.status, before, turns > 0);
      TurnsDone(n, turns, first, asleep, l);
    }

    lemma TurnsBegin(turns: nat, first: EvalState, asleep: set<nat>, l: Ledger)
      requires first == State() && asleep == suspended && l == ledger
      ensures TurnsLeft(turns, turns, first, asleep, l)
    {
    }

    lemma TurnsDone(n: nat, turns: nat, first: EvalState, asleep: set<nat>, l: Ledger)
      requires TurnsLeft(n, turns, first, asleep, l)
      ensures Waking() && n == 0 && turns == 1 && Wakes(first, asleep) ==>
                Resumed(first, State(), plan.wake) && ledger.woken == l.woken + {plan.wake}
      ensures Ripe(first, l) && n == 0 && turns == 1 ==> |plan.imports| > 1 && Started(State(), plan.imports[1])
    {
      hide Waking, Wakes, Resumed, Ripe;
    }

    /** Without the ledger: the order that is kept whatever fails. */
    lemma InOrder(entry: nat)
      requires EventsInOrder() && Base(NoDrain)
      ensures ledger.abandoned == {} || ledger.entry == Some(entry) ==>
                Acyclic(program, plan.rank) && AwaitsApart(program)
                && (Shielded(program, entry) || NeverThrows(host)) ==>
                  Ordered(program, events, {})
    {
      hide Inv, Ordered, Acyclic, AwaitsApart, Shielded, NeverThrows;
    }

    lemma WakingClear(entry: nat)
      requires Valid()
      ensures Waking() ==> Clear(program, plan, State(), entry)
    {
      hide Inv, Tidy, Tracked, Follows, Acyclic, AwaitsApart, Clean, Reaches;
    }

    lemma EnteringNow(entry: nat, s: EvalState)
      requires Valid() && EventsInOrder() && entry < |status| && !NotBegun(status[entry]) && Grew(s, State())
      ensures Entering(entry, s, State(), suspended, ledger)
    {
      hide Inv, Tidy, Tracked, Played, Follows, Acyclic, AwaitsApart, Clean, Ordered, OnlyBroken, Shield;
    }

    /** What holds when the loop ends. */
    lemma Concluded(entry: nat, first: EvalState)
      requires Valid() && EventsInOrder() && OnceEach(events) && MoreBegun(first, State())
      requires entry < |first.status| && !NotBegun(first.status[entry]) && |first.status| == |status|
      ensures Acyclic(program, plan.rank) && AwaitsApart(program) ==>
                (Ordered(program, events, {}) <==> NoneMissed(program, State()))
      ensures ledger.abandoned == {} || ledger.entry == Some(entry) ==>
                Acyclic(program, plan.rank) && AwaitsApart(program)
                && (Shielded(program, entry) || NeverThrows(host)) ==>
                  Ordered(program, events, {})
      ensures status[entry] == Evaluated ==> RanOnce(program, State(), entry)
      ensures NoneFailed(State()) && program.awaits == {} ==>
                forall m: nat :: Reaches(program, entry, m) ==> RanOnce(program, State(), m)
      ensures NoneFailed(State()) ==>
                forall m: nat :: Reaches(program, entry, m) ==> m < |status| && Through(status[m])
    {
      hide Inv, Tidy, Tracked, Played, Follows, Acyclic, AwaitsApart, Clean, Ordered, OnlyBroken, RanOnce, OnceEach;
      hide Reaches, NoneMissed, Shielded;
      OrderExact();
      InOrder(entry);
      AllReached(entry);
    }

    /** Starts come after all their dependencies exactly if no body has run that
        depends on a module left under way by a failed import. */
    lemma OrderExact()
      requires Valid() && EventsInOrder()
      ensures Acyclic(program, plan.rank) && AwaitsApart(program) ==>
                (Ordered(program, events, {}) <==> NoneMissed(program, State()))
    {
      hide Inv, Tidy, Tracked, Played, Follows, Acyclic, AwaitsApart, Ordered;
      if Promised() {
        BrokenOpen(program, State(), ledger.abandoned);
        OrderedMore(program, events, Broken(program, ledger), ledger.abandoned);
        OrderedExactly(program, events, ledger.abandoned);
        MissedBroken(program, State(), ledger.abandoned);
      }
    }

    lemma AllReached(entry: nat)
      requires Tracked(program, State(), {}, {}) && OnceEach(events) && entry < |status| && !NotBegun(status[entry])
      ensures status[entry] == Evaluated ==> RanOnce(program, State(), entry)
      ensures NoneFailed(State()) && program.awaits == {} ==>
                forall m: nat :: Reaches(program, entry, m) ==> RanOnce(program, State(), m)
      ensures NoneFailed(State()) ==>
                forall m: nat :: Reaches(program, entry, m) ==> m < |status| && Through(status[m])
    {
      hide Tracked, OnceEach, RanOnce;
      if status[entry] == Evaluated {
        EvaluatedOnce(program, State(), entry);
      }
      if NoneFailed(State()) {
        assert Through(status[entry]);
        hide NoneFailed, Through;
        forall m: nat | Reaches(program, entry, m) ensures m < |status| && Through(status[m]) {
          var p: seq<nat> :| DepPath(program, p) && p[0] == entry && p[|p| - 1] == m;
          Reached(program, State(), p, |p| - 1);
        }
        if program.awaits == {} {
          forall m: nat | Reaches(program, entry, m) ensures RanOnce(program, State(), m) {
            AllOnce(program, State(), entry, m);
          }
        }
      }
    }
  }

  datatype RunResult = Done | Failed(e: EvalResult) | Stuck | OutOfTurns
}
