/** Module linking: depth first over dependencies, imports bound as views of
    the cells that their exports resolve to. */
module Linker {
  import opened Syntax
  import opened Cells
  import opened ModuleGraphs
  import opened ExportResolution
  import opened LinkGraph
  import opened LinkOrder

  datatype LinkResult = LinkOk | LinkError

  // ----- graphs that can be linked -----

  predicate Started(s: Status) {
    IsLinked(s) || s == Linking
  }

  /** The dependencies of a linked module are linked or under way. */
  ghost predicate ClosedUp(g: Graph)
    requires Loaded(g)
  {
    forall i: nat, j: nat :: i < |g| && j < |g| && IsLinked(g[i].status) && DepEdge(g, i, j) ==> Started(g[j].status)
  }

  ghost predicate Linkable(g: Graph) {
    WellFormed(g) && ClosedUp(g)
  }

  lemma LinkableLoaded(g: Graph)
    requires Linkable(g)
    ensures WellFormed(g) && Loaded(g)
  {
  }

  // ----- how the graph evolves -----

  /** Linked modules and slots that are not imports keep their cells. */
  ghost predicate Keeps(a: RuntimeModule, b: RuntimeModule) {
    && SameRecord(a, b)
    && (IsLinked(a.status) ==> IsLinked(b.status) && b.bindings == a.bindings)
    && (forall x: nat :: x < |a.bindings| && !IsImportSlot(a, x) ==> b.bindings[x] == a.bindings[x])
  }

  ghost predicate Evolves(g: Graph, h: Graph) {
    |g| == |h| && forall i :: 0 <= i < |g| ==> Keeps(g[i], h[i])
  }

  lemma EvolvesStatic(g: Graph, h: Graph)
    requires Evolves(g, h)
    ensures SameStatic(g, h)
  {
    forall i | 0 <= i < |g| ensures SameRecord(g[i], h[i]) {
      assert Keeps(g[i], h[i]);
    }
  }

  lemma KeepsTrans(a: RuntimeModule, b: RuntimeModule, c: RuntimeModule)
    requires Keeps(a, b) && Keeps(b, c)
    ensures Keeps(a, c)
  {
    assert forall x: nat :: IsImportSlot(a, x) <==> IsImportSlot(b, x);
  }

  lemma EvolvesTrans(g: Graph, h: Graph, k: Graph)
    requires Evolves(g, h) && Evolves(h, k)
    ensures Evolves(g, k)
  {
    hide Keeps;
    forall i | 0 <= i < |g| ensures Keeps(g[i], k[i]) {
      KeepsTrans(g[i], h[i], k[i]);
    }
  }

  lemma LinksEvolve(g: Graph, h: Graph, order: seq<nat>)
    requires Links(g, h, order)
    ensures Evolves(g, h)
  {
    hide ModuleBound;
    forall i | 0 <= i < |g| ensures Keeps(g[i], h[i]) {
      if i in order {
        var k :| 0 <= k < |order| && order[k] == i;
        assert BecameLinked(g[order[k]], h[order[k]]);
      }
    }
  }

  // ----- why a link fails -----

  /** A name that stands for no binding or for several. */
  ghost predicate Unbound(g: Graph, n: Node) {
    (forall t :: !LeadsTo(g, n, t)) || Conflict(g, n)
  }

  /** An import of the module, or one of the names that it passes on, has no
      single binding to stand for. */
  ghost predicate Blocked(g: Graph, i: nat) {
    && i < |g|
    && ((exists e :: e in g[i].imports && BlockedImport(g, i, e))
        || (exists e :: e in g[i].exports && e.Indirect? && Conflict(g, Node(i, e.exported))))
  }

  ghost predicate BlockedImport(g: Graph, i: nat, e: ImportEntry) {
    && i < |g| && e.imported.Named? && e.request in g[i].dependencies
    && Unbound(g, Node(g[i].dependencies[e.request], e.imported.name))
  }

  /** A module that a failed link has left under way is blocked. */
  ghost predicate StuckBlocked(g: Graph, h: Graph) {
    |g| == |h| && forall k: nat :: k < |g| && LeftUnderWay(g[k], h[k]) ==> Blocked(h, k)
  }

  lemma BlockedNow(g: Graph, i: nat, e: ImportEntry, r: Resolution)
    requires i < |g| && e in g[i].imports && e.imported.Named? && e.request in g[i].dependencies && !r.Found?
    requires Decides(g, Node(g[i].dependencies[e.request], e.imported.name), r)
    ensures Blocked(g, i)
  {
    hide LeadsTo, Conflict;
    assert BlockedImport(g, i, e);
  }

  lemma BlockedExport(g: Graph, i: nat, e: ExportEntry)
    requires i < |g| && e in g[i].exports && e.Indirect? && Decides(g, Node(i, e.exported), Ambiguous)
    ensures Blocked(g, i)
  {
    hide LeadsTo, Conflict;
  }

  /** Statuses do not matter for what names stand for. */
  lemma SameNames(g: Graph, h: Graph, n: Node)
    requires SameStatic(g, h) && Loaded(g) && Loaded(h) && forall k :: 0 <= k < |g| ==> h[k].bindings == g[k].bindings
    ensures Unbound(g, n) ==> Unbound(h, n)
    ensures Conflict(g, n) ==> Conflict(h, n)
  {
    hide Loaded, SameStatic, Reaches, TerminalCell, Decider;
    StaticBack(g, h);
    if Conflict(g, n) {
      var s, t :| LeadsTo(g, n, s) && LeadsTo(g, n, t) && BindingOf(g, s) != BindingOf(g, t);
      StaticTargets(g, h, n, s);
      StaticTargets(g, h, n, t);
      SameRecords(g, h);
      assert SameCell(g, h, s) && SameCell(g, h, t);
      SameCellBinding(g, h, s);
      SameCellBinding(g, h, t);
    }
    if forall t :: !LeadsTo(g, n, t) {
      forall t ensures !LeadsTo(h, n, t) {
        if LeadsTo(h, n, t) {
          StaticTargets(h, g, n, t);
        }
      }
    }
  }

  lemma SameRecords(g: Graph, h: Graph)
    requires SameStatic(g, h)
    ensures |g| == |h|
  {
  }

  lemma BlockedStays(g: Graph, h: Graph, i: nat)
    requires SameStatic(g, h) && Loaded(g) && Loaded(h) && (forall k :: 0 <= k < |g| ==> h[k].bindings == g[k].bindings)
    requires Blocked(g, i)
    ensures Blocked(h, i)
  {
    hide Loaded, Unbound, Conflict;
    assert SameRecord(g[i], h[i]);
    if e :| e in g[i].imports && BlockedImport(g, i, e) {
      SameNames(g, h, Node(g[i].dependencies[e.request], e.imported.name));
      assert BlockedImport(h, i, e);
    } else {
      var e :| e in g[i].exports && e.Indirect? && Conflict(g, Node(i, e.exported));
      SameNames(g, h, Node(i, e.exported));
    }
  }

  /** The module passes on a name that leads to nothing. */
  ghost predicate DeadEnd(g: Graph, i: nat) {
    i < |g| && exists e :: e in g[i].exports && e.Indirect? && forall t :: !LeadsTo(g, Node(i, e.exported), t)
  }

  /** A link that leads from `g` to `h` fails at module `i` itself: it had failed
      before, or it has been entered and something about its names is wrong. */
  ghost predicate FailsAt(g: Graph, h: Graph, i: nat) {
    && i < |g| && i < |h|
    && (g[i].status == Errored
        || (g[i].status == Unlinked && h[i].status == Linking && Blocked(h, i))
        || (g[i].status == Unlinked && h[i].status == Errored && DeadEnd(g, i)))
  }

  /** Module `i` needs one at which the link fails. */
  ghost predicate Reason(g: Graph, h: Graph, i: nat) {
    exists m: nat :: DepReaches(g, i, m) && FailsAt(g, h, m)
  }

  /** Whatever is marked as failed has a reason. */
  ghost predicate Reasons(g: Graph, h: Graph) {
    |g| == |h| && forall k: nat :: k < |g| && h[k].status == Errored ==> Reason(g, h, k)
  }

  lemma ReasonHere(g: Graph, h: Graph, i: nat)
    requires Loaded(g) && FailsAt(g, h, i)
    ensures Reason(g, h, i)
  {
    hide Loaded, DepReaches, FailsAt;
    FailsIn(g, h, i);
    DepSelf(g, i);
  }

  lemma FailsIn(g: Graph, h: Graph, i: nat)
    requires FailsAt(g, h, i)
    ensures i < |g|
  {
  }

  /** What had failed before is a reason. */
  lemma OldReasons(g: Graph, h: Graph)
    requires Loaded(g) && |g| == |h| && forall k: nat :: k < |g| && h[k].status == Errored ==> g[k].status == Errored
    ensures Reasons(g, h)
  {
    hide Loaded, DepReaches;
    forall k: nat | k < |g| && h[k].status == Errored ensures Reason(g, h, k) {
      assert FailsAt(g, h, k);
      ReasonHere(g, h, k);
    }
  }

  lemma DeadEndStays(g: Graph, h: Graph, i: nat)
    requires SameStatic(g, h) && SameStatic(h, g) && Loaded(g) && Loaded(h) && DeadEnd(g, i)
    ensures DeadEnd(h, i)
  {
    hide Loaded, SameStatic, LeadsTo;
    SameRecords(g, h);
    RecordOf(g, h, i);
    var e :| e in g[i].exports && e.Indirect? && forall t :: !LeadsTo(g, Node(i, e.exported), t);
    forall t ensures !LeadsTo(h, Node(i, e.exported), t) {
      if LeadsTo(h, Node(i, e.exported), t) {
        StaticTargets(h, g, Node(i, e.exported), t);
      }
    }
  }

  lemma RecordOf(g: Graph, h: Graph, i: nat)
    requires SameStatic(g, h) && i < |g|
    ensures i < |h| && SameRecord(g[i], h[i])
  {
  }

  /** The reason why a dependency fails is one for the module, too. `h` is the
      graph when the dependency is asked for, `k` after that. */
  lemma ReasonUp(g: Graph, h: Graph, k: Graph, i: nat, order: seq<nat>, m: nat)
    requires Inside(g, h, i, order) && Evolves(h, k) && WellFormed(k) && StatusKept(h, k) && Reason(h, k, m)
    ensures Reason(g, WithStatus(k, i, Errored), m)
  {
    hide Keeps, Linkable, Loaded, WellFormed, Links, Blocked, DeadEnd, DepReaches;
    InsideFacts(g, h, i, order);
    EvolvesStatic(h, k);
    BoundWellFormed(k);
    var n: nat :| DepReaches(h, m, n) && FailsAt(h, k, n);
    var f := WithStatus(k, i, Errored);
    StatusEvolves(k, i, Errored);
    BoundWellFormed(f);
    LinkableLoaded(g);
    StaticBack(g, h);
    ReachesStatic(h, g, m, n);
    var e := WithStatus(g, i, Linking);
    LinksSize(e, h, order);
    LinksStatus(e, h, order, n);
    if h[n].status == Unlinked && k[n].status == Linking {
      BlockedStays(k, f, n);
    }
    if h[n].status == Unlinked && k[n].status == Errored {
      DeadEndStays(h, g, n);
    }
    assert FailsAt(g, f, n);
  }

  lemma ReachesStatic(g: Graph, h: Graph, i: nat, j: nat)
    requires SameStatic(g, h) && Loaded(g) && DepReaches(g, i, j)
    ensures DepReaches(h, i, j)
  {
    hide Loaded, DepEdge;
    StaticEdges(g, h);
    var p: seq<nat> :| DepPath(g, p) && p[0] == i && p[|p| - 1] == j;
    SameRecords(g, h);
    assert DepPath(h, p);
  }

  /** A module whose dependency fails fails with it. */
  lemma ReasonsUp(g: Graph, h: Graph, k: Graph, i: nat, order: seq<nat>, d: nat)
    requires Inside(g, h, i, order) && Evolves(h, k) && WellFormed(k) && StatusKept(h, k)
    requires Reasons(h, k) && Reason(h, k, d)
    requires Loaded(g) && i < |g| && d < |g| && DepEdge(g, i, d)
    ensures Reasons(g, WithStatus(k, i, Errored)) && Reason(g, WithStatus(k, i, Errored), i)
  {
    hide Keeps, Linkable, Loaded, WellFormed, Links, FailsAt, DepReaches, DepEdge;
    InsideFacts(g, h, i, order);
    EvolvesStatic(h, k);
    SameRecords(h, k);
    var f := WithStatus(k, i, Errored);
    ReasonUp(g, h, k, i, order, d);
    var n: nat :| DepReaches(g, d, n) && FailsAt(g, f, n);
    DepStep(g, i, d);
    DepTrans(g, i, d, n);
    forall x: nat | x < |g| && f[x].status == Errored ensures Reason(g, f, x) {
      if x != i {
        ReasonUp(g, h, k, i, order, x);
      }
    }
  }

  /** A module at which a link fails while it is bound or validated. */
  lemma ReasonsHere(g: Graph, h: Graph, f: Graph, i: nat, order: seq<nat>)
    requires Inside(g, h, i, order) && |f| == |g| && FailsAt(g, f, i)
    requires forall k :: 0 <= k < |g| && k != i ==> f[k].status == h[k].status
    ensures Reasons(g, f) && Reason(g, f, i)
  {
    hide Keeps, Linkable, Loaded, WellFormed, Links, Blocked, DeadEnd, DepReaches;
    InsideFacts(g, h, i, order);
    LinkableLoaded(g);
    ReasonHere(g, f, i);
    forall k: nat | k < |g| && f[k].status == Errored ensures Reason(g, f, k) {
      if k != i {
        LinksSize(WithStatus(g, i, Linking), h, order);
        LinksStatus(WithStatus(g, i, Linking), h, order, k);
        assert FailsAt(g, f, k);
        ReasonHere(g, f, k);
      }
    }
  }

  /** Modules that a link finds entered keep their status throughout. */
  ghost predicate StatusKept(g: Graph, h: Graph) {
    |g| == |h| && forall k :: 0 <= k < |g| && g[k].status != Unlinked ==> h[k].status == g[k].status
  }

  predicate LeftUnderWay(a: RuntimeModule, b: RuntimeModule) {
    a.status != Linking && b.status == Linking
  }

  /** At most one module has been left under way. */
  ghost predicate OneStuck(g: Graph, h: Graph) {
    |g| == |h|
    && forall a, b :: 0 <= a < |g| && 0 <= b < |g| && LeftUnderWay(g[a], h[a]) && LeftUnderWay(g[b], h[b]) ==> a == b
  }

  lemma LinksKeepStatus(g: Graph, h: Graph, order: seq<nat>)
    requires Links(g, h, order)
    ensures StatusKept(g, h) && forall k :: 0 <= k < |g| && h[k].status == Linking ==> g[k].status == Linking
  {
    hide ModuleBound;
    forall k | 0 <= k < |g|
      ensures g[k].status != Unlinked ==> h[k].status == g[k].status
      ensures h[k].status == Linking ==> g[k].status == Linking
    {
      LinksStatus(g, h, order, k);
    }
  }

  // ----- graphs without a reason to fail -----

  /** A name that stands for exactly one decided name. */
  ghost predicate Single(g: Graph, n: Node) {
    (exists t :: LeadsTo(g, n, t)) && forall s, t :: LeadsTo(g, n, s) && LeadsTo(g, n, t) ==> s == t
  }

  ghost predicate PlainModule(g: Graph, i: nat) {
    && i < |g|
    && (forall e :: e in g[i].imports && e.imported.Named? && e.request in g[i].dependencies
                    ==> Single(g, Node(g[i].dependencies[e.request], e.imported.name)))
    && (forall e :: e in g[i].exports && e.Indirect? ==> Single(g, Node(i, e.exported)))
  }

  /** Nothing has failed, and every imported or passed-on name is unambiguous
      whatever the cells are. */
  ghost predicate Plain(g: Graph) {
    forall i :: 0 <= i < |g| ==> g[i].status != Errored && PlainModule(g, i)
  }

  lemma SingleFound(g: Graph, n: Node, r: Resolution)
    requires Single(g, n) && Decides(g, n, r)
    ensures r.Found?
  {
    hide LeadsTo;
  }

  lemma SingleStays(g: Graph, h: Graph, n: Node)
    requires SameStatic(g, h) && SameStatic(h, g) && Loaded(g) && Loaded(h) && Single(g, n)
    ensures Single(h, n)
  {
    hide Loaded, SameStatic, Reaches, TerminalCell;
    var t :| LeadsTo(g, n, t);
    StaticTargets(g, h, n, t);
    forall s, t | LeadsTo(h, n, s) && LeadsTo(h, n, t) ensures s == t {
      StaticTargets(h, g, n, s);
      StaticTargets(h, g, n, t);
    }
  }

  lemma PlainStays(g: Graph, h: Graph)
    requires SameStatic(g, h) && Loaded(g) && Loaded(h) && Plain(g)
    requires forall k :: 0 <= k < |h| ==> h[k].status != Errored
    ensures Plain(h)
  {
    hide Loaded, Single;
    StaticBack(g, h);
    forall i | 0 <= i < |h| ensures PlainModule(h, i) {
      assert SameRecord(g[i], h[i]) && PlainModule(g, i);
      forall e | e in h[i].imports && e.imported.Named? && e.request in h[i].dependencies
        ensures Single(h, Node(h[i].dependencies[e.request], e.imported.name))
      {
        SingleStays(g, h, Node(g[i].dependencies[e.request], e.imported.name));
      }
      forall e | e in h[i].exports && e.Indirect? ensures Single(h, Node(i, e.exported)) {
        SingleStays(g, h, Node(i, e.exported));
      }
    }
  }

  // ----- entering a module -----

  function WithStatus(g: Graph, i: nat, s: Status): Graph
    requires i < |g|
  {
    g[i := g[i].(status := s)]
  }

  lemma StatusKeeps(a: RuntimeModule, s: Status)
    requires IsLinked(a.status) ==> IsLinked(s)
    ensures Keeps(a, a.(status := s))
  {
  }

  lemma StatusEvolves(g: Graph, i: nat, s: Status)
    requires i < |g| && !IsLinked(g[i].status) && WellFormed(g)
    ensures var h := WithStatus(g, i, s); Evolves(g, h) && WellFormed(h) && SameStatic(g, h)
    ensures Statuses(WithStatus(g, i, s)) == Statuses(g)[i := s]
  {
    hide Keeps, WellFormed;
    var h := WithStatus(g, i, s);
    forall k | 0 <= k < |g| ensures Keeps(g[k], h[k]) {
      StatusKeeps(g[k], h[k].status);
    }
    EvolvesStatic(g, h);
    StaticWellFormed(g, h);
  }

  lemma Enter(g: Graph, i: nat)
    requires Linkable(g) && i < |g| && g[i].status == Unlinked
    ensures var h := WithStatus(g, i, Linking); Linkable(h) && Evolves(g, h) && SameStatic(g, h)
    ensures Statuses(WithStatus(g, i, Linking)) == Statuses(g)[i := Linking]
  {
    hide Keeps, DepEdge, Requested, LoadedModule, Deps;
    StatusEvolves(g, i, Linking);
    StaticEdges(g, WithStatus(g, i, Linking));
  }

  /** The state while module `i`, unlinked in `g`, is being linked and `order`
      have been linked for it. */
  ghost predicate Inside(g: Graph, h: Graph, i: nat, order: seq<nat>) {
    && Linkable(g) && i < |g| && g[i].status == Unlinked
    && Linkable(h) && Links(WithStatus(g, i, Linking), h, order)
  }

  lemma InsideStart(g: Graph, i: nat)
    requires Linkable(g) && i < |g| && g[i].status == Unlinked
    ensures Inside(g, WithStatus(g, i, Linking), i, [])
  {
    hide Linkable, Links;
    Enter(g, i);
    LinksSelf(WithStatus(g, i, Linking));
  }

  lemma InsideFacts(g: Graph, h: Graph, i: nat, order: seq<nat>)
    requires Inside(g, h, i, order)
    ensures WellFormed(h) && Loaded(h) && Evolves(g, h) && StatusKept(g, h) && |g| == |h| && SameStatic(g, h)
    ensures h[i].status == Linking && i !in order && h[i] == g[i].(status := Linking)
    ensures OneStuck(g, h)
  {
    hide Keeps, WellFormed, Loaded, Links;
    var e := WithStatus(g, i, Linking);
    Enter(g, i);
    LinkableLoaded(h);
    LinksSize(e, h, order);
    LinksEntered(e, h, order, i);
    LinksKeepStatus(e, h, order);
    LinksEvolve(e, h, order);
    EvolvesTrans(g, e, h);
    EvolvesStatic(g, h);
  }

  lemma InsideLoaded(g: Graph, h: Graph, i: nat, order: seq<nat>)
    requires Inside(g, h, i, order)
    ensures Loaded(g) && i < |g| && g[i].status == Unlinked
  {
    LinkableLoaded(g);
  }

  lemma InsidePlain(g: Graph, h: Graph, i: nat, order: seq<nat>)
    requires Inside(g, h, i, order) && Plain(g)
    ensures Plain(h)
  {
    hide Keeps, WellFormed, Links, PlainModule;
    var e := WithStatus(g, i, Linking);
    InsideFacts(g, h, i, order);
    LinkableLoaded(g);
    LinksSize(e, h, order);
    forall k | 0 <= k < |h| ensures h[k].status != Errored {
      LinksStatus(e, h, order, k);
    }
    PlainStays(g, h);
  }

  // ----- dependencies -----

  ghost predicate StartedUpTo(g: Graph, i: nat, x: nat) {
    && i < |g| && x <= |g[i].requests|
    && forall y :: 0 <= y < x ==> StartedRequest(g, i, y)
  }

  ghost predicate StartedRequest(g: Graph, i: nat, y: nat)
    requires i < |g| && y < |g[i].requests|
  {
    var r := g[i].requests[y];
    r in g[i].dependencies && g[i].dependencies[r] < |g| && Started(g[g[i].dependencies[r]].status)
  }

  ghost predicate DependenciesStarted(g: Graph, i: nat)
    requires Loaded(g) && i < |g|
  {
    forall j: nat :: j < |g| && DepEdge(g, i, j) ==> Started(g[j].status)
  }

  lemma NoneStarted(g: Graph, i: nat)
    requires i < |g|
    ensures StartedUpTo(g, i, 0)
  {
  }

  lemma DependencyIn(g: Graph, i: nat, x: nat)
    requires Loaded(g) && i < |g| && x < |g[i].requests|
    ensures g[i].requests[x] in g[i].dependencies && g[i].dependencies[g[i].requests[x]] < |g|
    ensures |Deps(g)[i]| == |g[i].requests| && Deps(g)[i][x] == g[i].dependencies[g[i].requests[x]]
  {
    assert LoadedModule(g[i], |g|);
  }

  lemma DependencyDone(g: Graph, h: Graph, k: Graph, i: nat, o1: seq<nat>, o2: seq<nat>, x: nat)
    requires Inside(g, h, i, o1) && Linkable(k) && Links(h, k, o2) && StartedUpTo(h, i, x) && x < |h[i].requests|
    requires h[i].requests[x] in h[i].dependencies
    requires var d := h[i].dependencies[h[i].requests[x]]; d < |k| && Started(k[d].status)
    ensures Inside(g, k, i, o1 + o2) && StartedUpTo(k, i, x + 1) && k[i] == h[i]
  {
    hide Linkable, Links, WellFormed, Loaded;
    var e := WithStatus(g, i, Linking);
    InsideFacts(g, h, i, o1);
    Enter(g, i);
    LinkableLoaded(e);
    LinkableLoaded(k);
    LinksTrans(e, h, k, o1, o2);
    LinksSize(h, k, o2);
    LinksEntered(h, k, o2, i);
    forall y | 0 <= y < x + 1 ensures StartedRequest(k, i, y) {
      if y < x {
        assert StartedRequest(h, i, y);
        LinksStatus(h, k, o2, h[i].dependencies[h[i].requests[y]]);
      }
    }
  }

  lemma AllStarted(h: Graph, i: nat)
    requires Loaded(h) && i < |h| && StartedUpTo(h, i, |h[i].requests|)
    ensures DependenciesStarted(h, i)
  {
    assert LoadedModule(h[i], |h|);
    forall j: nat | j < |h| && DepEdge(h, i, j) ensures Started(h[j].status) {
      var r :| r in h[i].requests && h[i].dependencies[r] == j;
      var y :| 0 <= y < |h[i].requests| && h[i].requests[y] == r;
      assert StartedRequest(h, i, y);
    }
  }

  /** A failed dependency marks the module as failed. */
  lemma Failed(g: Graph, h: Graph, k: Graph, i: nat, order: seq<nat>)
    requires Inside(g, h, i, order) && Evolves(h, k) && WellFormed(k) && StatusKept(h, k) && OneStuck(h, k)
    requires StuckBlocked(h, k)
    ensures var e := WithStatus(k, i, Errored); WellFormed(e) && Evolves(g, e) && StatusKept(g, e) && OneStuck(g, e)
    ensures StuckBlocked(g, WithStatus(k, i, Errored))
  {
    hide Keeps, Linkable, Loaded, WellFormed, Links, Blocked;
    InsideFacts(g, h, i, order);
    LinksKeepStatus(WithStatus(g, i, Linking), h, order);
    LinksSize(WithStatus(g, i, Linking), h, order);
    var e := WithStatus(k, i, Errored);
    StatusEvolves(k, i, Errored);
    EvolvesTrans(g, h, k);
    EvolvesTrans(g, k, e);
    BoundWellFormed(k);
    BoundWellFormed(e);
    forall x: nat | x < |g| && LeftUnderWay(g[x], e[x]) ensures Blocked(e, x) {
      assert LeftUnderWay(h[x], k[x]);
      BlockedStays(k, e, x);
    }
  }

  // ----- installing the bindings -----

  datatype SlotBinding = SlotBinding(slot: nat, cell: Cell)

  function Install(bindings: seq<Cell>, bs: seq<SlotBinding>): (r: seq<Cell>)
    requires forall b :: b in bs ==> b.slot < |bindings|
    ensures |r| == |bindings|
    decreases |bs|
  {
    if bs == [] then bindings
    else
      assert bs[0] in bs && forall b :: b in bs[1..] ==> b in bs;
      Install(bindings[bs[0].slot := CreateImport(bs[0].cell)], bs[1..])
  }

  lemma {:induction false} Installed(bindings: seq<Cell>, bs: seq<SlotBinding>)
    requires forall b :: b in bs ==> b.slot < |bindings|
    requires forall x, y :: 0 <= x < y < |bs| ==> bs[x].slot != bs[y].slot
    ensures forall b :: b in bs ==> Install(bindings, bs)[b.slot] == View(b.cell)
    ensures forall x: nat :: x < |bindings| && (forall b :: b in bs ==> b.slot != x) ==>
              Install(bindings, bs)[x] == bindings[x]
    decreases |bs|
  {
    if bs != [] {
      assert bs[0] in bs && forall b :: b in bs[1..] ==> b in bs;
      Installed(bindings[bs[0].slot := CreateImport(bs[0].cell)], bs[1..]);
      assert forall b :: b in bs <==> b == bs[0] || b in bs[1..];
      forall b | b in bs[1..] ensures b.slot != bs[0].slot {
        var y :| 0 <= y < |bs[1..]| && bs[1..][y] == b;
        assert bs[y + 1] == b;
      }
    }
  }

  function WithBindings(g: Graph, i: nat, bindings: seq<Cell>): Graph
    requires i < |g|
  {
    g[i := g[i].(bindings := bindings)]
  }

  /** What an import was resolved to. */
  ghost predicate Chosen(g: Graph, i: nat, e: ImportEntry, c: Cell) {
    && i < |g| && e.request in g[i].dependencies && g[i].dependencies[e.request] < |g|
    && match e.imported
       case Named(name) => Decides(g, Node(g[i].dependencies[e.request], name), Found(c))
       case NamespaceObject => c == g[g[i].dependencies[e.request]].namespaceCell
       case Source => c == g[g[i].dependencies[e.request]].sourceCell
  }

  /** The resolved cells of a module's imports, in order. */
  ghost predicate ChosenUpTo(g: Graph, i: nat, bs: seq<SlotBinding>) {
    && i < |g| && |bs| <= |g[i].imports|
    && forall x :: 0 <= x < |bs| ==> bs[x].slot == g[i].imports[x].slot && Chosen(g, i, g[i].imports[x], bs[x].cell)
  }

  lemma DistinctBindings(g: Graph, i: nat, bs: seq<SlotBinding>)
    requires WellFormed(g) && i < |g| && ChosenUpTo(g, i, bs)
    ensures forall x, y :: 0 <= x < y < |bs| ==> bs[x].slot != bs[y].slot
    ensures forall b :: b in bs ==> b.slot < |g[i].bindings|
  {
    hide Chosen;
    assert Requested(g[i]) && LoadedModule(g[i], |g|);
  }

  /** Installing gives every import its view and leaves all other slots. */
  lemma InstallSlots(g: Graph, i: nat, bs: seq<SlotBinding>)
    requires WellFormed(g) && i < |g| && ChosenUpTo(g, i, bs) && |bs| == |g[i].imports|
    ensures forall b :: b in bs ==> b.slot < |g[i].bindings|
    ensures var cells := Install(g[i].bindings, bs);
            && (forall x :: 0 <= x < |bs| ==> cells[g[i].imports[x].slot] == View(bs[x].cell))
            && (forall x: nat :: x < |cells| && !IsImportSlot(g[i], x) ==> cells[x] == g[i].bindings[x])
  {
    hide Chosen, WellFormed;
    DistinctBindings(g, i, bs);
    Installed(g[i].bindings, bs);
    forall x: nat | x < |g[i].bindings| && !IsImportSlot(g[i], x) ensures forall b :: b in bs ==> b.slot != x {
      forall b | b in bs ensures b.slot != x {
        var y :| 0 <= y < |bs| && bs[y] == b;
        assert g[i].imports[y].slot == b.slot;
      }
    }
  }

  /** The graph with module `i` bound. */
  function Bound(h: Graph, i: nat, bs: seq<SlotBinding>): Graph
    requires i < |h| && forall b :: b in bs ==> b.slot < |h[i].bindings|
  {
    WithBindings(h, i, Install(h[i].bindings, bs))
  }

  lemma BoundEvolves(h: Graph, i: nat, bs: seq<SlotBinding>)
    requires WellFormed(h) && i < |h| && ChosenUpTo(h, i, bs) && |bs| == |h[i].imports| && !IsLinked(h[i].status)
    ensures forall b :: b in bs ==> b.slot < |h[i].bindings|
    ensures var b := Bound(h, i, bs); Evolves(h, b) && WellFormed(b) && SameStatic(h, b)
  {
    hide ChosenUpTo, WellFormed, Install;
    InstallSlots(h, i, bs);
    var b := Bound(h, i, bs);
    forall k | 0 <= k < |h| ensures Keeps(h[k], b[k]) {
    }
    EvolvesStatic(h, b);
    StaticWellFormed(h, b);
  }

  // ----- completing a module -----

  /** Only re-exported imports of module `i` change when it is bound. */
  lemma BoundSameCell(h: Graph, f: Graph, i: nat, bs: seq<SlotBinding>, t: Node)
    requires WellFormed(h) && i < |h| && ChosenUpTo(h, i, bs) && |bs| == |h[i].imports|
    requires forall b :: b in bs ==> b.slot < |h[i].bindings|
    requires f == WithStatus(Bound(h, i, bs), i, Linked) && Loaded(f)
    requires InGraph(h, t) && (t.index == i ==> !Reexported(h, t))
    ensures SameCell(h, f, t)
  {
    hide WellFormed, Loaded, ChosenUpTo, Install, Decider;
    InstallSlots(h, i, bs);
    forall slot: nat | Denotes(h, t, slot) && slot < |h[t.index].bindings| && slot < |f[t.index].bindings|
      ensures h[t.index].bindings[slot] == f[t.index].bindings[slot]
    {
      if t.index == i {
        assert !IsImportSlot(h[i], slot);
      }
    }
  }

  /** The completed graph, and what is known about it. */
  ghost predicate Completes(g: Graph, h: Graph, f: Graph, i: nat, order: seq<nat>, bs: seq<SlotBinding>) {
    && Inside(g, h, i, order) && ChosenUpTo(h, i, bs) && |bs| == |h[i].imports|
    && (forall b :: b in bs ==> b.slot < |h[i].bindings|)
    && f == WithStatus(Bound(h, i, bs), i, Linked) && WellFormed(f) && Loaded(f) && SameStatic(h, f) && SameStatic(g, f)
  }

  lemma CompletesFacts(g: Graph, h: Graph, f: Graph, i: nat, order: seq<nat>, bs: seq<SlotBinding>)
    requires Completes(g, h, f, i, order, bs)
    ensures var e := WithStatus(g, i, Linking);
            && WellFormed(g) && Loaded(g) && WellFormed(h) && Loaded(h) && Loaded(f) && Loaded(e) && |g| == |h| == |f|
            && Links(e, h, order) && SameStatic(g, e) && SameStatic(g, h) && SameStatic(h, f) && SameStatic(g, f)
            && i < |g| && g[i].status == Unlinked && i !in order && h[i] == g[i].(status := Linking)
  {
    hide Keeps, WellFormed, Loaded, Links;
    InsideFacts(g, h, i, order);
    LinkableLoaded(g);
    Enter(g, i);
    LinkableLoaded(WithStatus(g, i, Linking));
  }

  lemma GotCompletes(g: Graph, h: Graph, f: Graph, i: nat, order: seq<nat>, bs: seq<SlotBinding>, prior: seq<nat>,
                     c: Cell, t: Node)
    requires Completes(g, h, f, i, order, bs) && (forall m :: m in prior ==> m in order) && InGraph(g, t)
    requires Got(WithStatus(g, i, Linking), h, prior, c, t)
    ensures Got(g, f, prior, c, t)
  {
    hide Loaded, WellFormed, TerminalCell, Decider, Links, Completes, Reexported, ChosenUpTo;
    CompletesFacts(g, h, f, i, order, bs);
    var e := WithStatus(g, i, Linking);
    StaticTerminal(g, e, t);
    StaticTerminal(g, h, t);
    StaticTerminal(h, f, t);
    assert Late(g, prior, t) <==> Late(e, prior, t);
    if Late(g, prior, t) {
      assert SameCell(g, e, t);
      SameCellBinding(g, e, t);
    } else {
      CompletesCell(g, h, f, i, order, bs, t);
      SameCellBinding(h, f, t);
    }
  }

  lemma CompletesCell(g: Graph, h: Graph, f: Graph, i: nat, order: seq<nat>, bs: seq<SlotBinding>, t: Node)
    requires Completes(g, h, f, i, order, bs) && InGraph(h, t) && (t.index == i ==> !Reexported(h, t))
    ensures SameCell(h, f, t)
  {
    hide WellFormed, Loaded, ChosenUpTo, Reexported, SameCell;
    CompletesFacts(g, h, f, i, order, bs);
    BoundSameCell(h, f, i, bs, t);
  }

  /** What was linked before stays bound as it was. */
  lemma EarlierBound(g: Graph, h: Graph, f: Graph, i: nat, order: seq<nat>, bs: seq<SlotBinding>, k: nat)
    requires Completes(g, h, f, i, order, bs) && k < |order|
    ensures order[k] < |g| && order[k] != i && BecameLinked(g[order[k]], f[order[k]])
    ensures ModuleBound(g, f, order[..k], order[k])
  {
    hide Loaded, WellFormed, TerminalCell, Decider, Completes, Reaches, Got, ChosenUpTo;
    CompletesFacts(g, h, f, i, order, bs);
    var e, m := WithStatus(g, i, Linking), order[k];
    assert ModuleBound(e, h, order[..k], m) && BecameLinked(e[m], h[m]);
    CompletesOthers(g, h, f, i, order, bs, m);
    StaticBack(g, e);
    forall x | x in g[m].imports ensures BoundImport(g, f, order[..k], m, x) {
      assert BoundImport(e, h, order[..k], m, x);
      var d := g[m].dependencies[x.request];
      assert SameRecord(g[d], e[d]);
      if x.imported.Named? {
        var n := Node(d, x.imported.name);
        var t :| LeadsTo(e, n, t);
        StaticTargets(e, g, n, t);
        forall t | LeadsTo(g, n, t) ensures Got(g, f, order[..k], f[m].bindings[x.slot], t) {
          StaticTargets(g, e, n, t);
          GotCompletes(g, h, f, i, order, bs, order[..k], f[m].bindings[x.slot], t);
        }
      }
    }
  }

  lemma CompletesOthers(g: Graph, h: Graph, f: Graph, i: nat, order: seq<nat>, bs: seq<SlotBinding>, m: nat)
    requires Completes(g, h, f, i, order, bs) && m < |g| && m != i
    ensures m < |f| && f[m] == h[m] && WithStatus(g, i, Linking)[m] == g[m]
    ensures m !in order ==> f[m] == g[m]
  {
    hide Loaded, WellFormed, ChosenUpTo, Install, Links;
    CompletesFacts(g, h, f, i, order, bs);
    LinksEntered(WithStatus(g, i, Linking), h, order, m);
  }

  /** What it passed on still stands for the same. */
  lemma EarlierExports(g: Graph, h: Graph, f: Graph, i: nat, order: seq<nat>, bs: seq<SlotBinding>, k: nat)
    requires Completes(g, h, f, i, order, bs) && k < |order|
    ensures ExportsBound(g, f, order[..k + 1], order[k])
  {
    hide Loaded, WellFormed, TerminalCell, Decider, Completes, Reaches, Got, BindingThen, ChosenUpTo;
    CompletesFacts(g, h, f, i, order, bs);
    var e, m := WithStatus(g, i, Linking), order[k];
    assert ExportsBound(e, h, order[..k + 1], m);
    CompletesOthers(g, h, f, i, order, bs, m);
    StaticBack(g, e);
    forall x | x in g[m].exports && x.Indirect? ensures PassedOn(g, f, order[..k + 1], Node(m, x.exported)) {
      assert PassedOn(e, h, order[..k + 1], Node(m, x.exported));
      var n := Node(m, x.exported);
      var t :| LeadsTo(e, n, t);
      StaticTargets(e, g, n, t);
      forall t | LeadsTo(g, n, t)
        ensures LeadsTo(e, n, t) && Decided(g, f, t)
        ensures BindingThen(g, f, order[..k + 1], t) == BindingThen(e, h, order[..k + 1], t)
      {
        StaticTargets(g, e, n, t);
        var c := Direct(BindingThen(e, h, order[..k + 1], t));
        GotItself(e, h, order[..k + 1], t);
        GotCompletes(g, h, f, i, order, bs, order[..k + 1], c, t);
        GotThat(g, f, order[..k + 1], c, t);
      }
    }
  }

  /** Every name that module `i` passes on has been found to stand for one
      binding, its imports being bound. */
  ghost predicate Validated(b: Graph, i: nat) {
    i < |b| && forall e :: e in b[i].exports && e.Indirect? ==> Exported(b, i, e.exported)
  }

  ghost predicate Exported(g: Graph, i: nat, name: string) {
    (exists t :: LeadsTo(g, Node(i, name), t)) && !Conflict(g, Node(i, name))
  }

  lemma FoundExported(g: Graph, i: nat, name: string, c: Cell)
    requires Decides(g, Node(i, name), Found(c))
    ensures Exported(g, i, name)
  {
    hide LeadsTo, Conflict;
  }

  /** What module `i` passes on is bound in the completed graph. */
  lemma LastExports(g: Graph, h: Graph, f: Graph, i: nat, order: seq<nat>, bs: seq<SlotBinding>)
    requires Completes(g, h, f, i, order, bs) && Validated(Bound(h, i, bs), i)
    ensures ExportsBound(g, f, order + [i], i)
  {
    hide Loaded, WellFormed, TerminalCell, Decider, Completes, Reaches, BindingThen, ChosenUpTo, Install;
    CompletesFacts(g, h, f, i, order, bs);
    CompletedGraph(g, h, f, i, order, bs);
    var b := Bound(h, i, bs);
    CompletesBound(g, h, f, i, order, bs);
    StaticBack(g, b);
    forall e | e in g[i].exports && e.Indirect? ensures PassedOn(g, f, order + [i], Node(i, e.exported)) {
      assert Exported(b, i, e.exported);
      var n := Node(i, e.exported);
      var t :| LeadsTo(b, n, t);
      StaticTargets(b, g, n, t);
      forall t | LeadsTo(g, n, t)
        ensures LeadsTo(b, n, t) && TerminalCell(b, t).Some?
        ensures Decided(g, f, t) && BindingThen(g, f, order + [i], t) == BindingOf(b, t)
      {
        StaticTargets(g, b, n, t);
        BoundThen(g, h, f, i, order, bs, t);
      }
    }
  }

  /** The graph with the imports bound and the module still under way. */
  lemma CompletesBound(g: Graph, h: Graph, f: Graph, i: nat, order: seq<nat>, bs: seq<SlotBinding>)
    requires Completes(g, h, f, i, order, bs)
    ensures var b := Bound(h, i, bs);
            && SameStatic(g, b) && SameStatic(b, f) && Loaded(b) && |b| == |f| && b[i].exports == g[i].exports
            && forall k :: 0 <= k < |b| ==> b[k].bindings == f[k].bindings
  {
    hide WellFormed, Loaded, Install, ChosenUpTo, Completes;
    CompletesFacts(g, h, f, i, order, bs);
    CompletedGraph(g, h, f, i, order, bs);
    var b := Bound(h, i, bs);
    forall k | 0 <= k < |g| ensures SameRecord(g[k], b[k]) && SameRecord(b[k], f[k]) {
      assert SameRecord(g[k], f[k]);
    }
    StaticLoaded(g, b);
  }

  lemma CompletedGraph(g: Graph, h: Graph, f: Graph, i: nat, order: seq<nat>, bs: seq<SlotBinding>)
    requires Completes(g, h, f, i, order, bs)
    ensures i < |h| && (forall b :: b in bs ==> b.slot < |h[i].bindings|)
    ensures f == WithStatus(Bound(h, i, bs), i, Linked)
  {
  }

  lemma BoundThen(g: Graph, h: Graph, f: Graph, i: nat, order: seq<nat>, bs: seq<SlotBinding>, t: Node)
    requires Completes(g, h, f, i, order, bs) && InGraph(Bound(h, i, bs), t) && TerminalCell(Bound(h, i, bs), t).Some?
    ensures Decided(g, f, t) && BindingThen(g, f, order + [i], t) == BindingOf(Bound(h, i, bs), t)
  {
    hide Loaded, WellFormed, TerminalCell, Decider, Links, Completes, ChosenUpTo, Install;
    CompletesFacts(g, h, f, i, order, bs);
    CompletedGraph(g, h, f, i, order, bs);
    CompletesBound(g, h, f, i, order, bs);
    var e, b := WithStatus(g, i, Linking), Bound(h, i, bs);
    StaticBack(g, b);
    StaticTerminal(b, g, t);
    StaticTerminal(b, f, t);
    assert SameCell(b, f, t);
    SameCellBinding(b, f, t);
    if Late(g, order + [i], t) {
      LinksEntered(e, h, order, t.index);
      CompletesOthers(g, h, f, i, order, bs, t.index);
      assert SameCell(g, f, t);
      SameCellBinding(g, f, t);
    }
  }

  /** The imports of `i` are bound to what they resolve to now. */
  lemma LastBound(g: Graph, h: Graph, f: Graph, i: nat, order: seq<nat>, bs: seq<SlotBinding>)
    requires Completes(g, h, f, i, order, bs)
    ensures BecameLinked(g[i], f[i]) && ModuleBound(g, f, order, i)
  {
    hide Loaded, WellFormed, TerminalCell, Decider, Links, Reaches, Got, Chosen, Install, Resolved;
    CompletesFacts(g, h, f, i, order, bs);
    InstallSlots(h, i, bs);
    assert forall x: nat :: IsImportSlot(g[i], x) <==> IsImportSlot(h[i], x);
    forall e | e in g[i].imports ensures BoundImport(g, f, order, i, e) {
      var x :| 0 <= x < |g[i].imports| && g[i].imports[x] == e;
      DistinctBindings(h, i, bs);
      assert bs[x] in bs;
      assert Chosen(h, i, h[i].imports[x], bs[x].cell);
      assert f[i].bindings[e.slot] == View(bs[x].cell);
      ChosenResolved(g, h, f, i, order, bs, e, bs[x].cell);
    }
  }

  lemma ChosenResolved(g: Graph, h: Graph, f: Graph, i: nat, order: seq<nat>, bs: seq<SlotBinding>, e: ImportEntry,
                       c: Cell)
    requires Completes(g, h, f, i, order, bs) && Chosen(h, i, e, c)
    ensures e.request in g[i].dependencies && g[i].dependencies[e.request] < |g|
    ensures Resolved(g, f, order, g[i].dependencies[e.request], e.imported, View(c))
  {
    hide Loaded, WellFormed, TerminalCell, Decider, Links, Reaches, Got, Completes;
    CompletesFacts(g, h, f, i, order, bs);
    var d := g[i].dependencies[e.request];
    assert SameRecord(g[d], h[d]);
    StaticBack(g, h);
    match e.imported
    case Named(name) =>
      var t :| LeadsTo(h, Node(d, name), t);
      StaticTargets(h, g, Node(d, name), t);
      forall t | LeadsTo(g, Node(d, name), t) ensures Got(g, f, order, View(c), t) {
        StaticTargets(g, h, Node(d, name), t);
        GotNow(g, h, f, i, order, bs, c, t);
      }
    case _ =>
  }

  lemma GotNow(g: Graph, h: Graph, f: Graph, i: nat, order: seq<nat>, bs: seq<SlotBinding>, c: Cell, t: Node)
    requires Completes(g, h, f, i, order, bs) && InGraph(h, t) && TerminalCell(h, t).Some? && BindingOf(h, t) == Root(c)
    ensures Got(g, f, order, View(c), t)
  {
    hide Loaded, WellFormed, TerminalCell, Decider, Links, Completes, ChosenUpTo;
    CompletesFacts(g, h, f, i, order, bs);
    var e := WithStatus(g, i, Linking);
    StaticBack(g, h);
    StaticTerminal(h, g, t);
    StaticTerminal(h, f, t);
    if Late(g, order, t) {
      StaticTerminal(g, e, t);
      NotLateStays(e, h, order, t);
      assert SameCell(g, h, t);
      SameCellBinding(g, h, t);
    } else {
      CompletesCell(g, h, f, i, order, bs, t);
      SameCellBinding(h, f, t);
    }
  }

  lemma CompletesLinks(g: Graph, h: Graph, f: Graph, i: nat, order: seq<nat>, bs: seq<SlotBinding>)
    requires Completes(g, h, f, i, order, bs) && Validated(Bound(h, i, bs), i)
    ensures Links(g, f, order + [i])
  {
    hide Completes, ModuleBound, ExportsBound, BecameLinked, Loaded, WellFormed, Validated, Install, Links;
    CompletesFacts(g, h, f, i, order, bs);
    var o := order + [i];
    LastBound(g, h, f, i, order, bs);
    LastExports(g, h, f, i, order, bs);
    forall k | 0 <= k < |o| ensures o[k] < |g| && LinkedAt(g, f, o, k) {
      if k < |order| {
        EarlierBound(g, h, f, i, order, bs, k);
        EarlierExports(g, h, f, i, order, bs, k);
        assert o[..k] == order[..k] && o[..k + 1] == order[..k + 1];
      } else {
        assert o[..k] == order && o[..k + 1] == o;
      }
    }
    forall m | 0 <= m < |g| && m !in o ensures f[m] == g[m] {
      assert m != i;
      CompletesOthers(g, h, f, i, order, bs, m);
    }
    CompletesDistinct(g, h, f, i, order, bs);
    AllLinkedAt(g, f, o);
  }

  lemma CompletesDistinct(g: Graph, h: Graph, f: Graph, i: nat, order: seq<nat>, bs: seq<SlotBinding>)
    requires Completes(g, h, f, i, order, bs)
    ensures var o := order + [i]; forall a, b :: 0 <= a < b < |o| ==> o[a] != o[b]
  {
    hide Completes, ModuleBound, ExportsBound, BecameLinked, Loaded, WellFormed, Install;
    CompletesFacts(g, h, f, i, order, bs);
  }

  lemma CompletesClosed(g: Graph, h: Graph, f: Graph, i: nat, order: seq<nat>, bs: seq<SlotBinding>)
    requires Completes(g, h, f, i, order, bs) && DependenciesStarted(h, i)
    ensures Linkable(f)
  {
    hide Loaded, WellFormed, DepEdge, Links, ChosenUpTo, Install;
    CompletesFacts(g, h, f, i, order, bs);
    StaticBack(h, f);
    StaticEdges(h, f);
    forall a: nat, b: nat | a < |f| && b < |f| && IsLinked(f[a].status) && DepEdge(f, a, b)
      ensures Started(f[b].status)
    {
      assert DepEdge(h, a, b);
    }
  }

  /** Every way out of a module whose imports have resolved; the way on, when
      what it passes on has been validated. */
  lemma CompleteInside(g: Graph, h: Graph, i: nat, order: seq<nat>, bs: seq<SlotBinding>)
    requires Inside(g, h, i, order) && Loaded(h) && i < |h| && DependenciesStarted(h, i)
    requires ChosenUpTo(h, i, bs) && |bs| == |h[i].imports|
    ensures forall b :: b in bs ==> b.slot < |h[i].bindings|
    ensures var b := Bound(h, i, bs);
            var f, e := WithStatus(b, i, Linked), WithStatus(b, i, Errored);
            && WellFormed(b) && Loaded(b) && Evolves(g, b) && StatusKept(g, b) && OneStuck(g, b) && SameStatic(g, b)
            && WellFormed(e) && Evolves(g, e) && StatusKept(g, e) && OneStuck(g, e)
            && WellFormed(f) && Linkable(f) && Statuses(f) == Statuses(h)[i := Linked]
            && (Validated(b, i) ==> Links(g, f, order + [i]))
  {
    hide Keeps, ChosenUpTo, WellFormed, Linkable, DepEdge, Links, Install, Loaded, Validated;
    InsideFacts(g, h, i, order);
    LinksKeepStatus(WithStatus(g, i, Linking), h, order);
    LinksSize(WithStatus(g, i, Linking), h, order);
    BoundEvolves(h, i, bs);
    var b := Bound(h, i, bs);
    EvolvesTrans(g, h, b);
    EvolvesStatic(g, b);
    BoundWellFormed(b);
    StatusEvolves(b, i, Errored);
    EvolvesTrans(g, b, WithStatus(b, i, Errored));
    var f := WithStatus(b, i, Linked);
    StatusEvolves(b, i, Linked);
    EvolvesTrans(h, b, f);
    EvolvesTrans(g, b, f);
    EvolvesStatic(h, f);
    EvolvesStatic(g, f);
    BoundWellFormed(f);
    assert Completes(g, h, f, i, order, bs);
    if Validated(b, i) {
      CompletesLinks(g, h, f, i, order, bs);
    }
    CompletesClosed(g, h, f, i, order, bs);
  }

  lemma BoundWellFormed(g: Graph)
    requires WellFormed(g)
    ensures Loaded(g)
  {
  }

  // ----- the linker -----

  class ModuleGraph {
    var modules: Graph

    constructor (modules: Graph)
      ensures this.modules == modules
    {
      this.modules := modules;
    }

    /** A module that a link has entered is left alone, also when that link has
        not completed it. On success the modules of the depth-first order, and
        no others, have become linked in that order; on failure at most one
        module is left under way. */
    method LinkModule(index: nat) returns (r: LinkResult)
      requires Linkable(modules) && index < |modules|
      modifies this
      ensures WellFormed(modules) && Evolves(old(modules), modules) && StatusKept(old(modules), modules)
      ensures |modules| == |old(modules)| && OneStuck(old(modules), modules)
      ensures old(modules)[index].status != Unlinked
              ==> modules == old(modules) && (r.LinkOk? <==> old(modules)[index].status != Errored)
      ensures r.LinkOk? ==> Linkable(modules) && Started(modules[index].status)
      ensures r.LinkOk? ==> Links(old(modules), modules, PostOrder(old(modules), index))
      ensures r.LinkOk? ==> Statuses(modules) == Visit(Deps(old(modules)), Statuses(old(modules)), index).sts
      ensures r.LinkOk? ==> PassesOn(old(modules), PostOrder(old(modules), index))
      ensures r.LinkError? ==> modules[index].status == Errored || modules[index].status == Linking
      ensures r.LinkError? ==> StuckBlocked(old(modules), modules)
      ensures Reasons(old(modules), modules) && (r.LinkError? ==> Reason(old(modules), modules, index))
      ensures Plain(old(modules)) ==> r.LinkOk?
      decreases UnlinkedCount(Statuses(modules)), 1
    {
      hide Linkable, Evolves, WellFormed, StatusKept, Inside, Links, OneStuck, VisitFrom, PlainModule, Reasons, Reason;
      hide PassesOn;
      ghost var g := modules;
      LinkableLoaded(g);
      Untouched(g);
      OldReasons(g, g);
      LinksPassOn(g, g, []);
      if modules[index].status == Errored {
        ReasonHere(g, g, index);
        return LinkError;
      }
      if modules[index].status != Unlinked {
        return LinkOk;
      }
      InsideStart(g, index);
      Enter(g, index);
      EnteredFewer(Statuses(g), index, Linking);
      modules := WithStatus(modules, index, Linking);
      ghost var order;
      r, order := LinkDependencies(index, g);
      if r.LinkOk? {
        r := LinkImports(index, g, order);
      }
      if r.LinkOk? {
        LinksPassOn(g, modules, PostOrder(g, index));
      }
    }

    method LinkDependencies(index: nat, ghost g: Graph) returns (r: LinkResult, ghost order: seq<nat>)
      requires Inside(g, modules, index, []) && index < |g| && Loaded(g) && modules == WithStatus(g, index, Linking)
      modifies this
      ensures WellFormed(modules) && Evolves(g, modules) && StatusKept(g, modules) && |modules| == |g|
      ensures OneStuck(g, modules)
      ensures r.LinkOk? ==> Inside(g, modules, index, order) && Loaded(modules) && index < |modules|
      ensures r.LinkOk? ==> DependenciesStarted(modules, index)
      ensures r.LinkOk? ==>
                Visited(Statuses(modules), order) == VisitFrom(Deps(g), Statuses(g)[index := Linking], index, 0)
      ensures r.LinkError? ==> modules[index].status == Errored && StuckBlocked(g, modules)
      ensures r.LinkError? ==> Reasons(g, modules) && Reason(g, modules, index)
      ensures Plain(g) ==> r.LinkOk?
      decreases UnlinkedCount(Statuses(modules)), 2
    {
      hide Linkable, Evolves, WellFormed, StatusKept, Inside, Loaded, StartedUpTo, DependenciesStarted, Links, OneStuck;
      hide Visit, VisitFrom, Deps, Plain, StuckBlocked, StartedUpTo, PlainModule, SameStatic, Reasons, Reason, PassesOn;
      ghost var entered := modules;
      InsideFacts(g, modules, index, []);
      StatusOf(g, index);
      var requests := modules[index].requests;
      var x := 0;
      order := [];
      NoneStarted(modules, index);
      DepsCount(g, index);
      while x < |requests|
        invariant 0 <= x <= |requests| && Inside(g, modules, index, order) && |modules| == |g|
        invariant modules[index].requests == requests && |Deps(g)[index]| == |requests|
        invariant UnlinkedCount(Statuses(modules)) <= UnlinkedCount(Statuses(entered))
        invariant StartedUpTo(modules, index, x)
        invariant VisitFrom(Deps(g), Statuses(entered), index, 0)
                  == Later(order, VisitFrom(Deps(g), Statuses(modules), index, x))
      {
        InsideFacts(g, modules, index, order);
        InsideLinkable(g, modules, index, order);
        DependencyIn(modules, index, x);
        DepsStatic(g, modules);
        ghost var before := modules;
        if Plain(g) {
          InsidePlain(g, modules, index, order);
        }
        ghost var v := Visit(Deps(g), Statuses(modules), Deps(g)[index][x]);
        VisitStep(Deps(g), Statuses(modules), index, x);
        r := LinkModule(modules[index].dependencies[requests[x]]);
        if r.LinkError? {
          Failed(g, before, modules, index, order);
          RequestEdge(g, before, index, x);
          ReasonsUp(g, before, modules, index, order, before[index].dependencies[requests[x]]);
          modules := WithStatus(modules, index, Errored);
          return;
        }
        DependencyDone(g, before, modules, index, order, v.order, x);
        order := order + v.order;
        x := x + 1;
      }
      InsideFacts(g, modules, index, order);
      AllStarted(modules, index);
      VisitEnd(Deps(g), Statuses(modules), index);
      r := LinkOk;
    }

    method LinkImports(index: nat, ghost g: Graph, ghost order: seq<nat>) returns (r: LinkResult)
      requires Inside(g, modules, index, order) && Loaded(modules) && index < |modules|
      requires DependenciesStarted(modules, index)
      modifies this
      ensures WellFormed(modules) && Evolves(g, modules) && StatusKept(g, modules) && |modules| == |g|
      ensures OneStuck(g, modules)
      ensures r.LinkOk? ==> Linkable(modules) && Links(g, modules, order + [index]) && modules[index].status == Linked
      ensures r.LinkOk? ==> Statuses(modules) == Statuses(old(modules))[index := Linked]
      ensures r.LinkError? ==> modules[index].status == Errored || modules[index].status == Linking
      ensures r.LinkError? ==> StuckBlocked(g, modules)
      ensures r.LinkError? ==> Reason(g, modules, index)
      ensures Reasons(g, modules)
      ensures Plain(g) ==> r.LinkOk?
    {
      hide Linkable, Evolves, WellFormed, StatusKept, Inside, ChosenUpTo, Loaded, Links, OneStuck, Plain, Reason;
      hide Blocked, DeadEnd, Reasons;
      hide DependenciesStarted;
      ghost var h := modules;
      InsideFacts(g, modules, index, order);
      InsideLoaded(g, modules, index, order);
      if Plain(g) {
        InsidePlain(g, modules, index, order);
      }
      var resolved, bs := ResolveImports(index);
      OnlyOneUnderWay(g, h, index, order);
      if !resolved {
        ReasonsHere(g, h, modules, index, order);
        return LinkError;
      }
      CompleteInside(g, modules, index, order, bs);
      InstallBindings(index, bs);
      if Plain(g) {
        BoundPlain(h, modules, index, bs);
      }
      var ok := ValidateIndirectExports(index);
      if ok.AmbiguousExport? {
        ReasonsHere(g, h, modules, index, order);
        return LinkError;
      }
      if ok.Unresolved? {
        DeadEndBefore(g, modules, index);
        modules := WithStatus(modules, index, Errored);
        ReasonsHere(g, h, modules, index, order);
        return LinkError;
      }
      modules := WithStatus(modules, index, Linked);
      LinksEvolve(g, modules, order + [index]);
      LinksKeepStatus(g, modules, order + [index]);
      StuckNone(g, modules);
      LinkedReasons(g, modules, order + [index]);
      return LinkOk;
    }

    /** The cells that the imports of a module resolve to. */
    method ResolveImports(index: nat) returns (ok: bool, bs: seq<SlotBinding>)
      requires Loaded(modules) && index < |modules|
      ensures ok ==> |bs| == |modules[index].imports| && ChosenUpTo(modules, index, bs)
      ensures !ok ==> Blocked(modules, index)
      ensures Plain(modules) ==> ok
    {
      hide Decides, Plain, Single;
      var m := modules[index];
      assert LoadedModule(m, |modules|);
      bs := [];
      var x := 0;
      while x < |m.imports|
        invariant 0 <= x <= |m.imports| && |bs| == x && ChosenUpTo(modules, index, bs)
      {
        var e := m.imports[x];
        var d := m.dependencies[e.request];
        var cell;
        match e.imported {
          case Named(name) =>
            var found := ResolveExport(modules, d, name);
            if Plain(modules) {
              PlainImport(modules, index, e, found);
            }
            if !found.Found? {
              BlockedNow(modules, index, e, found);
              return false, bs;
            }
            cell := found.cell;
          case NamespaceObject =>
            cell := modules[d].namespaceCell;
          case Source =>
            cell := modules[d].sourceCell;
        }
        bs := bs + [SlotBinding(e.slot, cell)];
        x := x + 1;
      }
      ok := true;
    }

    method InstallBindings(index: nat, bs: seq<SlotBinding>)
      requires index < |modules| && forall b :: b in bs ==> b.slot < |modules[index].bindings|
      modifies this
      ensures modules == WithBindings(old(modules), index, Install(old(modules)[index].bindings, bs))
    {
      ghost var g := modules;
      var y := 0;
      assert bs[y..] == bs && WithBindings(g, index, g[index].bindings) == g;
      while y < |bs|
        invariant 0 <= y <= |bs| && index < |modules| && |modules| == |g|
        invariant forall b :: b in bs ==> b.slot < |modules[index].bindings|
        invariant forall b :: b in bs[y..] ==> b in bs
        invariant modules == WithBindings(g, index, modules[index].bindings)
        invariant Install(modules[index].bindings, bs[y..]) == Install(g[index].bindings, bs)
      {
        assert bs[y] in bs && bs[y..][1..] == bs[y + 1..];
        var env := modules[index].bindings;
        modules := WithBindings(modules, index, env[bs[y].slot := CreateImport(bs[y].cell)]);
        y := y + 1;
      }
    }

    /** Indirect exports must resolve even when nothing imports them. */
    method ValidateIndirectExports(index: nat) returns (r: Validation)
      requires Loaded(modules) && index < |modules|
      ensures r.Valid? ==> Validated(modules, index)
      ensures r.AmbiguousExport? ==> Blocked(modules, index)
      ensures r.Unresolved? ==> DeadEnd(modules, index)
      ensures Plain(modules) ==> r.Valid?
    {
      hide Decides, Exported, Loaded, LoadedModule, Plain, Single, DeadEnd;
      var exports := modules[index].exports;
      var x := 0;
      while x < |exports|
        invariant 0 <= x <= |exports|
        invariant forall y :: 0 <= y < x && exports[y].Indirect? ==> Exported(modules, index, exports[y].exported)
      {
        if exports[x].Indirect? {
          var found := ResolveExport(modules, index, exports[x].exported);
          if Plain(modules) {
            PlainExport(modules, index, exports[x], found);
          }
          if found.Ambiguous? {
            BlockedExport(modules, index, exports[x]);
            return AmbiguousExport;
          }
          if found.NotFound? {
            NothingThere(modules, index, exports[x]);
            return Unresolved;
          }
          FoundExported(modules, index, exports[x].exported, found.cell);
        }
        x := x + 1;
      }
      return Valid;
    }

    /** Linking from outside, with no module under way: on success every module
        that dependencies reach is linked. */
    method Link(index: nat) returns (r: LinkResult)
      requires Linkable(modules) && index < |modules| && NoneUnderWay(modules)
      modifies this
      ensures WellFormed(modules) && Evolves(old(modules), modules) && OneStuck(old(modules), modules)
      ensures r.LinkOk? ==> Linkable(modules) && NoneUnderWay(modules)
      ensures r.LinkError? ==> StuckBlocked(old(modules), modules)
      ensures Reasons(old(modules), modules) && (r.LinkError? ==> Reason(old(modules), modules, index))
      ensures r.LinkOk? ==> Links(old(modules), modules, PostOrder(old(modules), index))
      ensures r.LinkOk? ==> PassesOn(old(modules), PostOrder(old(modules), index))
      ensures r.LinkOk? ==> forall k: nat :: DepReaches(modules, index, k) ==>
                k < |modules| && IsLinked(modules[k].status)
      ensures Plain(old(modules)) ==> r.LinkOk?
    {
      hide Linkable, Evolves, Links, WellFormed, Reasons, Reason, PassesOn;
      LinkableLoaded(modules);
      r := LinkModule(index);
      if r.LinkOk? {
        LinksKeepStatus(old(modules), modules, PostOrder(old(modules), index));
        AllLinked(modules, index);
      }
    }
  }

  datatype Validation = Valid | Unresolved | AmbiguousExport

  lemma NothingThere(g: Graph, i: nat, e: ExportEntry)
    requires i < |g| && e in g[i].exports && e.Indirect? && Decides(g, Node(i, e.exported), NotFound)
    ensures DeadEnd(g, i)
  {
    hide LeadsTo, Conflict;
  }

  lemma DeadEndBefore(g: Graph, h: Graph, i: nat)
    requires SameStatic(g, h) && Loaded(g) && DeadEnd(h, i)
    ensures DeadEnd(g, i)
  {
    hide Loaded, SameStatic, DeadEnd;
    StaticBack(g, h);
    StaticLoaded(g, h);
    DeadEndStays(h, g, i);
  }

  lemma RequestEdge(g: Graph, h: Graph, i: nat, x: nat)
    requires SameStatic(g, h) && Loaded(g) && i < |g| && x < |h[i].requests|
    ensures h[i].requests[x] in h[i].dependencies
    ensures var d := h[i].dependencies[h[i].requests[x]]; d < |g| && DepEdge(g, i, d)
  {
    assert SameRecord(g[i], h[i]) && LoadedModule(g[i], |g|);
  }

  lemma LinkedReasons(g: Graph, h: Graph, order: seq<nat>)
    requires Loaded(g) && Links(g, h, order)
    ensures Reasons(g, h)
  {
    hide Loaded, Reasons, ModuleBound, ExportsBound;
    LinksSize(g, h, order);
    forall k: nat | k < |g| && h[k].status == Errored ensures g[k].status == Errored {
      LinksStatus(g, h, order, k);
    }
    OldReasons(g, h);
  }

  lemma PlainImport(g: Graph, i: nat, e: ImportEntry, r: Resolution)
    requires Plain(g) && i < |g| && e in g[i].imports && e.imported.Named? && e.request in g[i].dependencies
    requires Decides(g, Node(g[i].dependencies[e.request], e.imported.name), r)
    ensures r.Found?
  {
    hide Single, Decides;
    assert PlainModule(g, i);
    SingleFound(g, Node(g[i].dependencies[e.request], e.imported.name), r);
  }

  lemma PlainExport(g: Graph, i: nat, e: ExportEntry, r: Resolution)
    requires Plain(g) && i < |g| && e in g[i].exports && e.Indirect? && Decides(g, Node(i, e.exported), r)
    ensures r.Found?
  {
    hide Single, Decides;
    assert PlainModule(g, i);
    SingleFound(g, Node(i, e.exported), r);
  }

  lemma BoundPlain(h: Graph, b: Graph, i: nat, bs: seq<SlotBinding>)
    requires Plain(h) && Loaded(h) && Loaded(b) && i < |h| && forall x :: x in bs ==> x.slot < |h[i].bindings|
    requires b == Bound(h, i, bs)
    ensures Plain(b)
  {
    hide Loaded, PlainModule, Install;
    forall k | 0 <= k < |h| ensures SameRecord(h[k], b[k]) {
    }
    PlainStays(h, b);
  }

  lemma Untouched(g: Graph)
    requires WellFormed(g)
    ensures Evolves(g, g) && StatusKept(g, g) && OneStuck(g, g) && Links(g, g, [])
  {
    LinksSelf(g);
  }

  lemma StatusOf(g: Graph, i: nat)
    requires i < |g|
    ensures Statuses(WithStatus(g, i, Linking)) == Statuses(g)[i := Linking]
  {
  }

  lemma DepsCount(g: Graph, i: nat)
    requires Loaded(g) && i < |g|
    ensures |Deps(g)[i]| == |g[i].requests|
  {
    assert LoadedModule(g[i], |g|);
  }

  lemma InsideLinkable(g: Graph, h: Graph, i: nat, order: seq<nat>)
    requires Inside(g, h, i, order)
    ensures Linkable(h)
  {
  }

  /** Inside the linking of module `i`, no other module has been left under way. */
  lemma OnlyOneUnderWay(g: Graph, h: Graph, i: nat, order: seq<nat>)
    requires Inside(g, h, i, order)
    ensures |g| == |h| && forall k: nat :: k < |g| && k != i && h[k].status == Linking ==> g[k].status == Linking
  {
    hide Linkable, Links;
    var e := WithStatus(g, i, Linking);
    LinksKeepStatus(e, h, order);
    LinksSize(e, h, order);
  }

  lemma StuckNone(g: Graph, h: Graph)
    requires |g| == |h| && forall k :: 0 <= k < |g| && h[k].status == Linking ==> g[k].status == Linking
    ensures OneStuck(g, h)
  {
  }

  // ----- whole links -----

  ghost predicate NoneUnderWay(g: Graph) {
    forall k :: 0 <= k < |g| ==> g[k].status != Linking
  }

  /** Dependencies of a linked module are linked when nothing is under way. */
  lemma {:induction false} PathLinked(g: Graph, p: seq<nat>, x: nat)
    requires Linkable(g) && NoneUnderWay(g) && DepPath(g, p) && x < |p| && IsLinked(g[p[0]].status)
    ensures IsLinked(g[p[x]].status)
    decreases x
  {
    hide DepEdge, Loaded, WellFormed;
    if x > 0 {
      PathLinked(g, p, x - 1);
      var y := x - 1;
      assert DepEdge(g, p[y], p[y + 1]);
    }
  }

  lemma AllLinked(g: Graph, i: nat)
    requires Linkable(g) && NoneUnderWay(g) && i < |g| && Started(g[i].status)
    ensures forall k: nat :: DepReaches(g, i, k) ==> k < |g| && IsLinked(g[k].status)
  {
    hide DepEdge, Loaded, WellFormed, ClosedUp;
    forall k: nat | DepReaches(g, i, k) ensures k < |g| && IsLinked(g[k].status) {
      var p: seq<nat> :| DepPath(g, p) && p[0] == i && p[|p| - 1] == k;
      PathLinked(g, p, |p| - 1);
    }
  }

  /** Before anything is linked, well-formedness is all that linking asks for. */
  lemma FreshLinkable(g: Graph)
    requires WellFormed(g) && forall k :: 0 <= k < |g| ==> !Started(g[k].status)
    ensures Linkable(g) && NoneUnderWay(g)
  {
    hide Requested, LoadedModule;
  }
}
