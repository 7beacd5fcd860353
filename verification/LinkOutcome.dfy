/** What a whole link promises its importers, the graphs for which it always
    keeps that promise, and a graph for which the entry decides. */
module LinkOutcome {
  import opened Syntax
  import Machine
  import opened Cells
  import opened ModuleGraphs
  import opened ExportResolution
  import opened LinkGraph
  import opened LinkOrder
  import opened Linker
  import opened LinkedImports

  /** Every import of every linked module shares what it stands for. */
  ghost predicate LinkedShare(g: Graph) {
    forall i: nat :: i < |g| && IsLinked(g[i].status) ==> ModuleShares(g, i)
  }

  // ----- after a link from outside -----

  /** What an import may stand for is in a linked module once its own module
      is linked. */
  lemma TargetLinked(h: Graph, i: nat, e: ImportEntry, t: Node)
    requires Linkable(h) && NoneUnderWay(h) && i < |h| && IsLinked(h[i].status) && e in h[i].imports
    requires e.imported.Named?
    requires e.request in h[i].dependencies
    requires LeadsTo(h, Node(h[i].dependencies[e.request], e.imported.name), t)
    ensures t.index < |h| && IsLinked(h[t.index].status)
  {
    hide ClosedUp, DepReaches, LeadsTo, DepEdge;
    LinkableLoaded(h);
    var d := h[i].dependencies[e.request];
    ImportDepends(h, i, e);
    DepStep(h, i, d);
    TargetDepends(h, Node(d, e.imported.name), t);
    DepTrans(h, i, d, t.index);
    AllLinked(h, i);
  }

  lemma ImportDepends(h: Graph, i: nat, e: ImportEntry)
    requires WellFormed(h) && Loaded(h) && i < |h| && e in h[i].imports && e.request in h[i].dependencies
    ensures h[i].dependencies[e.request] < |h| && DepEdge(h, i, h[i].dependencies[e.request])
  {
    assert Requested(h[i]) && LoadedModule(h[i], |h|);
    var x :| 0 <= x < |h[i].imports| && h[i].imports[x] == e;
  }

  lemma AllTargetsLinked(g: Graph, h: Graph, order: seq<nat>)
    requires WholeLink(g, h, order) && Linkable(h) && NoneUnderWay(h)
    ensures TargetsLinked(g, h, order)
  {
    hide Loaded, WellFormed, Linkable, Links, LeadsTo, FreshImports, SameStatic;
    LinksStatic(g, h, order);
    LinksSize(g, h, order);
    forall k: nat, e, t | k < |order| && TargetOf(g, order, k, e, t)
      ensures t.index < |h| && IsLinked(h[t.index].status)
    {
      RecordKept(g, h, order[k]);
      StaticTargets(g, h, Node(g[order[k]].dependencies[e.request], e.imported.name), t);
      LinksStatus(g, h, order, order[k]);
      TargetLinked(h, order[k], e, t);
    }
  }

  /** A module linked before still shares exactly what it shared. */
  lemma EarlierShares(g: Graph, h: Graph, order: seq<nat>, i: nat)
    requires WholeLink(g, h, order) && Linkable(g) && NoneUnderWay(g) && i < |g| && IsLinked(g[i].status) && |g| == |h|
    ensures h[i] == g[i] && (ModuleShares(h, i) <==> ModuleShares(g, i))
  {
    hide Loaded, WellFormed, Linkable, Links, LeadsTo, FreshImports, NoneUnderWay, SameStatic, Decider;
    LinksEntered(g, h, order, i);
    LinksStatic(g, h, order);
    StaticBack(g, h);
    forall e | e in g[i].imports ensures Shares(h, i, e) <==> Shares(g, i, e) {
      EarlierImport(g, h, order, i, e);
    }
  }

  lemma EarlierImport(g: Graph, h: Graph, order: seq<nat>, i: nat, e: ImportEntry)
    requires WholeLink(g, h, order) && Linkable(g) && NoneUnderWay(g) && i < |g| && IsLinked(g[i].status) && |g| == |h|
    requires SameStatic(g, h) && SameStatic(h, g) && h[i] == g[i] && e in g[i].imports
    ensures Shares(h, i, e) <==> Shares(g, i, e)
  {
    hide Loaded, WellFormed, Linkable, Links, Reaches, FreshImports, NoneUnderWay, SameStatic, Decider, TerminalCell;
    if e.imported.Named? && e.request in g[i].dependencies {
      var n := Node(g[i].dependencies[e.request], e.imported.name);
      forall t ensures LeadsTo(g, n, t) <==> LeadsTo(h, n, t) {
        TargetsKept(g, h, n, t);
      }
      forall t | LeadsTo(g, n, t) ensures BindingOf(h, t) == BindingOf(g, t) {
        TargetLinked(g, i, e, t);
        LinksEntered(g, h, order, t.index);
        NotLateStays(g, h, order, t);
        SameCellBinding(g, h, t);
      }
    }
  }

  /** A link completes the sharing exactly if it was complete before and the
      order of linking is timely. */
  lemma LinkShares(g: Graph, h: Graph, order: seq<nat>)
    requires WholeLink(g, h, order) && Linkable(g) && NoneUnderWay(g) && Linkable(h) && NoneUnderWay(h)
    ensures LinkedShare(h) <==> LinkedShare(g) && Timely(g, order)
  {
    hide Loaded, WellFormed, Linkable, Links, FreshImports, NoneUnderWay, ModuleShares, Timely, TargetsLinked;
    AllTargetsLinked(g, h, order);
    SharingExactly(g, h, order);
    LinksSize(g, h, order);
    OrderInside(g, h, order);
    forall i: nat | i < |g|
      ensures IsLinked(g[i].status) ==> h[i] == g[i] && (ModuleShares(h, i) <==> ModuleShares(g, i))
      ensures i in order ==> h[i].status == Linked
      ensures i !in order ==> h[i].status == g[i].status
    {
      LinksStatus(g, h, order, i);
      if IsLinked(g[i].status) {
        EarlierShares(g, h, order, i);
      }
    }
    if LinkedShare(g) && SharesAll(h, order) {
      forall i: nat | i < |h| && IsLinked(h[i].status) ensures ModuleShares(h, i) {
        if i in order {
          var k := OrderPosition(order, i);
        }
      }
    }
  }

  // ----- cells of modules that are still to come -----

  /** A cell that an import is left with belongs to a module that is linked now. */
  lemma {:induction false} LeftWithLinked(g: Graph, h: Graph, order: seq<nat>, k: nat, e: ImportEntry, p: Place)
    requires TargetsLinked(g, h, order) && k < |order| && order[k] < |g| && e in g[order[k]].imports
    requires LeftWith(g, order, k, e, p)
    ensures p.index < |h| && IsLinked(h[p.index].status)
    decreases k
  {
    hide LeadsTo, Late, Denotes;
    var u :| LeadsTo(g, Node(g[order[k]].dependencies[e.request], e.imported.name), u) && Passes(g, order, k, u, p);
    assert TargetOf(g, order, k, e, u);
    if !Late(g, order[..k], u) {
      var j: nat, x :| j < k && ImportAt(g, order, j, u, x) && LeftWith(g, order, j, x, p);
      LeftWithLinked(g, h, order, j, x, p);
    }
  }

  lemma StillAlone(g: Graph, h: Graph, order: seq<nat>, p: Place)
    requires WholeLink(g, h, order) && TargetsLinked(g, h, order) && Placeholder(h, p)
    ensures Alone(h, p)
  {
    hide Loaded, WellFormed, Links, TargetsLinked, IsImportSlot;
    LinksSize(g, h, order);
    LinksEntered(g, h, order, p.index);
    assert Placeholder(g, p) && Alone(g, p);
    LinksStatic(g, h, order);
    var b := Root(g[p.index].bindings[p.slot]);
    forall i: nat, s: nat | i < |h| && s < |h[i].bindings| && Root(h[i].bindings[s]) == b ensures Place(i, s) == p {
      RecordKept(g, h, i);
      OtherCell(g, h, order, p, i, s);
    }
    forall i | 0 <= i < |h| ensures Root(h[i].namespaceCell) != b && Root(h[i].sourceCell) != b {
      RecordKept(g, h, i);
    }
  }

  lemma OtherCell(g: Graph, h: Graph, order: seq<nat>, p: Place, i: nat, s: nat)
    requires WholeLink(g, h, order) && TargetsLinked(g, h, order) && Placeholder(g, p) && Alone(g, p) && |g| == |h|
    requires h[p.index] == g[p.index] && i < |g| && s < |h[i].bindings| && |h[i].bindings| == |g[i].bindings|
    requires Root(h[i].bindings[s]) == Root(g[p.index].bindings[p.slot])
    ensures Place(i, s) == p
  {
    hide Loaded, WellFormed, Links, TargetsLinked, FreshImports, ModuleBound;
    LinksEntered(g, h, order, i);
    if i in order && IsImportSlot(g[i], s) {
      var k := OrderPosition(order, i);
      var e := ImportEntryOf(g[i], s);
      ImportHolds(g, h, order, k, e, p);
      LeftWithLinked(g, h, order, k, e, p);
    } else if i in order {
      BecameAt(g, h, order, i);
    }
  }

  lemma BecameAt(g: Graph, h: Graph, order: seq<nat>, i: nat)
    requires Links(g, h, order) && i in order
    ensures i < |g| && |g| == |h| && BecameLinked(g[i], h[i])
  {
    hide ModuleBound, BecameLinked;
    var k := OrderPosition(order, i);
    assert BecameLinked(g[order[k]], h[order[k]]);
  }

  lemma FreshStays(g: Graph, h: Graph, order: seq<nat>)
    requires WholeLink(g, h, order) && Linkable(h) && NoneUnderWay(h)
    ensures FreshImports(h)
  {
    hide Loaded, WellFormed, Linkable, Links, Alone, TargetsLinked;
    AllTargetsLinked(g, h, order);
    forall p | Placeholder(h, p) ensures Alone(h, p) {
      StillAlone(g, h, order, p);
    }
  }

  /** The state between links from outside. */
  ghost predicate AtRest(g: Graph) {
    Linkable(g) && NoneUnderWay(g) && FreshImports(g)
  }

  /** One link from outside. On success every dependency is linked, and all
      imports of linked modules share what they stand for if and only if they
      did before and the order of linking was timely. */
  method LinkFrom(m: ModuleGraph, index: nat) returns (r: LinkResult)
    requires AtRest(m.modules) && index < |m.modules|
    modifies m
    ensures Evolves(old(m.modules), m.modules)
    ensures r.LinkOk? ==> AtRest(m.modules)
    ensures r.LinkOk? ==> Links(old(m.modules), m.modules, PostOrder(old(m.modules), index))
    ensures r.LinkOk? ==> forall k: nat :: DepReaches(m.modules, index, k) ==>
              k < |m.modules| && IsLinked(m.modules[k].status)
    ensures r.LinkOk? ==> (LinkedShare(m.modules) <==>
                           LinkedShare(old(m.modules)) && Timely(old(m.modules), PostOrder(old(m.modules), index)))
    ensures r.LinkOk? ==> PassesOn(old(m.modules), PostOrder(old(m.modules), index))
    ensures r.LinkError? ==> Reason(old(m.modules), m.modules, index)
    ensures Plain(old(m.modules)) ==> r.LinkOk?
  {
    hide PassesOn, Reason, Reasons;
    hide Evolves, WellFormed, Linkable, Links, FreshImports, NoneUnderWay, LinkedShare, Timely, DepReaches, Loaded;
    ghost var g := m.modules;
    LinkableLoaded(g);
    r := m.Link(index);
    if r.LinkOk? {
      LinkableLoaded(m.modules);
      LinkShares(g, m.modules, PostOrder(g, index));
      FreshStays(g, m.modules, PostOrder(g, index));
    }
  }

  /** An assignment by the exporting module is what every sharing importer reads. */
  method ExporterWrites(g: Graph, i: nat, e: ImportEntry, t: Node, v: Machine.Value) returns (r: BindingResult<()>)
    requires Loaded(g) && LinkedShare(g) && i < |g| && IsLinked(g[i].status) && e in g[i].imports && e.imported.Named?
    requires e.request in g[i].dependencies && e.slot < |g[i].bindings|
    requires LeadsTo(g, Node(g[i].dependencies[e.request], e.imported.name), t)
    modifies BindingOf(g, t)
    ensures r.Bound? ==> Get(g[i].bindings[e.slot]) == BindingResult.Bound(v)
    ensures r.Refused? ==> Get(g[i].bindings[e.slot]) == old(Get(g[i].bindings[e.slot]))
  {
    hide Reaches, Loaded;
    assert ModuleShares(g, i) && Shares(g, i, e);
    r := Set(TerminalCell(g, t).value, v);
  }

  // ----- graphs that are always timely -----

  /** Without `export { x }` of an imported `x`, every order is timely. */
  lemma NoReexportsTimely(g: Graph, order: seq<nat>)
    requires forall t :: !Reexported(g, t)
    ensures Timely(g, order)
  {
    hide LeadsTo, Reexported;
  }

  ghost predicate Ranked(ds: seq<seq<nat>>, rank: seq<nat>) {
    DepsIn(ds) && |rank| == |ds| && forall i, x :: 0 <= i < |ds| && 0 <= x < |ds[i]| ==> rank[ds[i][x]] < rank[i]
  }

  /** Completed before, or among `order`. */
  predicate Completed(sts: seq<Status>, order: seq<nat>, d: nat) {
    d in order || (d < |sts| && sts[d] != Unlinked && sts[d] != Linking)
  }

  /** Every module comes after its dependencies. */
  ghost predicate Sorted(ds: seq<seq<nat>>, sts: seq<Status>, order: seq<nat>) {
    forall k, x :: 0 <= k < |order| && order[k] < |ds| && 0 <= x < |ds[order[k]]| ==>
      Completed(sts, order[..k], ds[order[k]][x])
  }

  /** What a visit has changed. */
  ghost predicate Visits(sts: seq<Status>, v: Visited) {
    |v.sts| == |sts| && forall j: nat :: j < |sts| ==> v.sts[j] == if j in v.order then Linked else sts[j]
  }

  lemma {:induction false} VisitSorted(ds: seq<seq<nat>>, sts: seq<Status>, i: nat, rank: seq<nat>)
    requires Ranked(ds, rank) && |sts| == |ds| && i < |ds|
    requires forall j :: 0 <= j < |sts| && sts[j] == Linking ==> rank[i] < rank[j]
    ensures var v := Visit(ds, sts, i); Visits(sts, v) && Sorted(ds, sts, v.order) && Completed(sts, v.order, i)
    decreases UnlinkedCount(sts), 0, 0
  {
    hide VisitFrom, Sorted, UnlinkedCount;
    if sts[i] == Unlinked {
      EnteredFewer(sts, i, Linking);
      var inside := sts[i := Linking];
      VisitFromSorted(ds, inside, i, 0, rank);
      LastSorted(ds, sts, i, VisitFrom(ds, inside, i, 0).order);
    } else {
      NothingSorted(ds, sts);
    }
  }

  lemma NothingSorted(ds: seq<seq<nat>>, sts: seq<Status>)
    ensures Sorted(ds, sts, [])
  {
  }

  lemma LastSorted(ds: seq<seq<nat>>, sts: seq<Status>, i: nat, order: seq<nat>)
    requires |sts| == |ds| && i < |ds| && Sorted(ds, sts[i := Linking], order)
    requires forall y :: 0 <= y < |ds[i]| ==> Completed(sts[i := Linking], order, ds[i][y])
    ensures Sorted(ds, sts, order + [i])
  {
    var o := order + [i];
    forall k, x | 0 <= k < |o| && o[k] < |ds| && 0 <= x < |ds[o[k]]| ensures Completed(sts, o[..k], ds[o[k]][x]) {
      assert o[..k] == order[..k] && o[k] == if k < |order| then order[k] else i;
      assert k == |order| ==> order[..k] == order;
      assert Completed(sts[i := Linking], order[..k], ds[o[k]][x]);
    }
  }

  lemma {:induction false} VisitFromSorted(ds: seq<seq<nat>>, sts: seq<Status>, i: nat, x: nat, rank: seq<nat>)
    requires Ranked(ds, rank) && |sts| == |ds| && i < |ds| && x <= |ds[i]|
    requires forall j :: 0 <= j < |sts| && sts[j] == Linking ==> rank[i] <= rank[j]
    ensures var v := VisitFrom(ds, sts, i, x);
            && Visits(sts, v) && Sorted(ds, sts, v.order)
            && forall y :: x <= y < |ds[i]| ==> Completed(sts, v.order, ds[i][y])
    decreases UnlinkedCount(sts), 1, |ds[i]| - x
  {
    hide Visit, Sorted, UnlinkedCount;
    if x == |ds[i]| {
      NothingSorted(ds, sts);
    } else {
      var a := Visit(ds, sts, ds[i][x]);
      VisitSorted(ds, sts, ds[i][x], rank);
      VisitFromSorted(ds, a.sts, i, x + 1, rank);
      BothSorted(ds, sts, a, VisitFrom(ds, a.sts, i, x + 1).order);
    }
  }

  lemma BothSorted(ds: seq<seq<nat>>, sts: seq<Status>, a: Visited, order: seq<nat>)
    requires |sts| == |ds| && Visits(sts, a) && Sorted(ds, sts, a.order) && Sorted(ds, a.sts, order)
    ensures Sorted(ds, sts, a.order + order)
  {
    hide Visits;
    var o := a.order + order;
    forall k, x | 0 <= k < |o| && o[k] < |ds| && 0 <= x < |ds[o[k]]| ensures Completed(sts, o[..k], ds[o[k]][x]) {
      if k < |a.order| {
        assert o[..k] == a.order[..k];
      } else {
        var y := k - |a.order|;
        assert o[..k] == a.order + order[..y] && o[k] == order[y];
        assert Completed(a.sts, order[..y], ds[order[y]][x]);
        assert Visits(sts, a);
        StillCompleted(sts, a, order[..y], ds[order[y]][x]);
      }
    }
  }

  lemma StillCompleted(sts: seq<Status>, a: Visited, order: seq<nat>, d: nat)
    requires Visits(sts, a) && Completed(a.sts, order, d)
    ensures Completed(sts, a.order + order, d)
  {
  }

  /** Whatever a completed module depends on is completed. */
  lemma {:induction false} CompletedBelow(g: Graph, order: seq<nat>, k: nat, p: seq<nat>, x: nat)
    requires Linkable(g) && Loaded(g) && NoneUnderWay(g) && (forall i :: 0 <= i < |g| ==> g[i].status != Errored)
    requires Sorted(Deps(g), Statuses(g), order) && k < |order|
    requires DepPath(g, p) && x < |p| && Completed(Statuses(g), order[..k], p[0])
    ensures Completed(Statuses(g), order[..k], p[x])
    decreases x
  {
    hide Loaded, WellFormed, Deps, ClosedUp, DepEdge;
    if x > 0 {
      var y := x - 1;
      CompletedBelow(g, order, k, p, y);
      assert DepEdge(g, p[y], p[y + 1]);
      if p[y] in order[..k] {
        var j := OrderPosition(order[..k], p[y]);
        var z := EdgeNumber(g, p[y], p[x]);
        assert Completed(Statuses(g), order[..j], Deps(g)[order[j]][z]);
      } else {
        LinkedBelow(g, p[y], p[x]);
      }
    }
  }

  lemma LinkedBelow(g: Graph, i: nat, j: nat)
    requires Linkable(g) && Loaded(g) && NoneUnderWay(g) && i < |g| && j < |g| && IsLinked(g[i].status)
    requires DepEdge(g, i, j)
    ensures IsLinked(g[j].status)
  {
    hide DepEdge, Loaded, WellFormed;
  }

  lemma EdgeNumber(g: Graph, i: nat, j: nat)
    returns (z: nat)
    requires Loaded(g) && i < |g| && DepEdge(g, i, j)
    ensures z < |Deps(g)[i]| && Deps(g)[i][z] == j
  {
    assert LoadedModule(g[i], |g|);
    var r :| r in g[i].requests && g[i].dependencies[r] == j;
    z :| z < |g[i].requests| && g[i].requests[z] == r;
  }

  /** The order in which a link without cycles completes modules is timely. */
  lemma AcyclicTimely(g: Graph, index: nat, rank: seq<nat>)
    requires Linkable(g) && Loaded(g) && NoneUnderWay(g) && (forall i :: 0 <= i < |g| ==> g[i].status != Errored)
    requires index < |g| && Ranked(Deps(g), rank)
    ensures Timely(g, PostOrder(g, index))
  {
    hide Loaded, WellFormed, Deps, ClosedUp, DepReaches, Reaches, LeadsTo, Reexported, Visit, Ranked, Sorted;
    var order := PostOrder(g, index);
    NoneLinking(g);
    VisitSorted(Deps(g), Statuses(g), index, rank);
    forall k: nat, e | k < |order| && order[k] < |g| && e in g[order[k]].imports ensures TimelyImport(g, order, k, e) {
      AcyclicImport(g, order, k, e);
    }
  }

  lemma AcyclicImport(g: Graph, order: seq<nat>, k: nat, e: ImportEntry)
    requires Linkable(g) && Loaded(g) && NoneUnderWay(g) && (forall i :: 0 <= i < |g| ==> g[i].status != Errored)
    requires Sorted(Deps(g), Statuses(g), order) && k < |order| && order[k] < |g| && e in g[order[k]].imports
    ensures TimelyImport(g, order, k, e)
  {
    hide Loaded, WellFormed, Deps, ClosedUp, Reaches, LeadsTo, Reexported, Sorted;
    if e.request in g[order[k]].dependencies && e.imported.Named? {
      var n := Node(g[order[k]].dependencies[e.request], e.imported.name);
      forall t | LeadsTo(g, n, t) ensures OnTime(g, order, k, t) {
        assert TargetOf(g, order, k, e, t);
        AcyclicTarget(g, order, k, e, t);
      }
    }
  }

  lemma NoneLinking(g: Graph)
    requires NoneUnderWay(g)
    ensures forall j :: 0 <= j < |g| ==> Statuses(g)[j] != Linking
  {
  }

  lemma AcyclicTarget(g: Graph, order: seq<nat>, k: nat, e: ImportEntry, t: Node)
    requires Linkable(g) && Loaded(g) && NoneUnderWay(g) && (forall i :: 0 <= i < |g| ==> g[i].status != Errored)
    requires Sorted(Deps(g), Statuses(g), order) && TargetOf(g, order, k, e, t)
    ensures t.index in order[..k] || (t.index < |g| && IsLinked(g[t.index].status))
  {
    hide Loaded, Deps, ClosedUp, DepEdge, LeadsTo;
    LinkableLoaded(g);
    var i := order[k];
    var d := g[i].dependencies[e.request];
    ImportDepends(g, i, e);
    var z := EdgeNumber(g, i, d);
    assert Completed(Statuses(g), order[..k], Deps(g)[order[k]][z]);
    TargetDepends(g, Node(d, e.imported.name), t);
    var p: seq<nat> :| DepPath(g, p) && p[0] == d && p[|p| - 1] == t.index;
    CompletedBelow(g, order, k, p, |p| - 1);
  }

  // ----- two modules that import from each other -----

  /** `import { x } from "b"; export { x };` */
  function ReexportingModule(own: Cell, other: Cell): RuntimeModule {
    RuntimeModule(Unlinked, ["b"], map["b" := 1], [ImportEntry("b", ImportedName.Named("x"), 0)], [Local("x", 0)],
                  [own],
                  other, other)
  }

  /** `import { x as y } from "a"; export let x;` */
  function CyclicModule(imported: Cell, x: Cell, other: Cell): RuntimeModule {
    RuntimeModule(Unlinked, ["a"], map["a" := 0], [ImportEntry("a", ImportedName.Named("x"), 0)], [Local("x", 1)],
                  [imported, x], other, other)
  }

  function TwoModules(own: Binding, imported: Binding, x: Binding, other: Binding): Graph {
    [ReexportingModule(Direct(own), Direct(other)), CyclicModule(Direct(imported), Direct(x), Direct(other))]
  }

  lemma DecidedAlone(g: Graph, n: Node)
    requires InGraph(g, n) && TerminalCell(g, n).Some?
    ensures LeadsTo(g, n, n) && Single(g, n)
  {
    hide LoadedModule, FirstNamed;
    ReachesSelf(g, n);
    forall t | LeadsTo(g, n, t) ensures t == n {
      var p :| Path(g, p) && p[0] == n && p[|p| - 1] == t;
      assert |p| > 1 ==> Edge(g, p[0], p[1]);
    }
  }

  lemma TwoWellFormed(own: Binding, imported: Binding, x: Binding, other: Binding)
    ensures var g := TwoModules(own, imported, x, other); WellFormed(g) && Loaded(g) && Deps(g) == [[1], [0]]
  {
    var g := TwoModules(own, imported, x, other);
    forall i | 0 <= i < |g| ensures LoadedModule(g[i], |g|) && Requested(g[i]) {
    }
    assert DepsOf(g[0]) == [1] && DepsOf(g[1]) == [0];
  }

  lemma TwoNames(g: Graph)
    requires exists a, b, x, z :: g == TwoModules(a, b, x, z)
    ensures WellFormed(g) && Loaded(g)
    ensures Denotes(g, Node(0, "x"), 0) && Denotes(g, Node(1, "x"), 1)
    ensures Reexported(g, Node(0, "x")) && !Reexported(g, Node(1, "x"))
    ensures Single(g, Node(0, "x")) && Single(g, Node(1, "x"))
    ensures LeadsTo(g, Node(0, "x"), Node(0, "x")) && LeadsTo(g, Node(1, "x"), Node(1, "x"))
  {
    var a, b, x, z :| g == TwoModules(a, b, x, z);
    TwoWellFormed(a, b, x, z);
    assert Decider(g, Node(0, "x")) == Some(Local("x", 0)) && Decider(g, Node(1, "x")) == Some(Local("x", 1));
    assert g[0].imports[0].slot == 0;
    assert IsImportSlot(g[0], 0);
    DecidedAlone(g, Node(0, "x"));
    DecidedAlone(g, Node(1, "x"));
  }

  /** The module that is entered is linked last. */
  lemma TwoOrder(ds: seq<seq<nat>>, sts: seq<Status>, entry: nat)
    requires ds == [[1], [0]] && sts == [Unlinked, Unlinked] && entry < 2
    ensures Visit(ds, sts, entry).order == [1 - entry, entry]
  {
    var i, j: nat := entry, 1 - entry;
    var s := sts[i := Linking];
    var t := s[j := Linking];
    VisitStep(ds, s, i, 0);
    VisitStep(ds, t, j, 0);
    assert VisitFrom(ds, t, j, 0) == Visited(t, []);
    assert Visit(ds, s, j) == Visited(t[j := Linked], [j]);
  }

  /** Entered from the module that exports the binding itself, all imports are
      on time; entered from the other one, its import is not. */
  lemma TwoTimely(g: Graph, entry: nat)
    requires entry < 2 && exists a, b, x, z :: g == TwoModules(a, b, x, z)
    ensures Timely(g, [1 - entry, entry]) <==> entry == 1
  {
    hide WellFormed, Loaded, Reexported, Reaches, LeadsTo, Denotes, Timely, TwoModules;
    var order: seq<nat> := [1 - entry, entry];
    TwoNames(g);
    TwoImports(g);
    var a, b := g[0].imports[0], g[1].imports[0];
    assert g[0].imports == [a] && g[1].imports == [b];
    if entry == 1 {
      OnlyTarget(g, order, 0, a, Node(1, "x"));
      OnlyTarget(g, order, 1, b, Node(0, "x"));
      TwoParts(g, order, a, b);
    } else {
      OnlyTarget(g, order, 0, b, Node(0, "x"));
      assert order[..0] == [];
      assert Late(g, order[..0], Node(0, "x"));
      NeverBack(g, order, a);
      NotTimely(g, order, b);
    }
  }

  lemma TwoImports(g: Graph)
    requires exists a, b, x, z :: g == TwoModules(a, b, x, z)
    ensures |g| == 2 && g[0].imports == [ImportEntry("b", ImportedName.Named("x"), 0)]
    ensures g[1].imports == [ImportEntry("a", ImportedName.Named("x"), 0)]
    ensures g[0].dependencies == map["b" := 1] && g[1].dependencies == map["a" := 0]
    ensures g[0].status == Unlinked && g[1].status == Unlinked
  {
  }

  /** A single target decides whether an import is timely. */
  lemma OnlyTarget(g: Graph, order: seq<nat>, k: nat, e: ImportEntry, t: Node)
    requires k < |order| && order[k] < |g| && e.imported.Named? && e.request in g[order[k]].dependencies
    requires var n := Node(g[order[k]].dependencies[e.request], e.imported.name);
             n == t && LeadsTo(g, n, t) && Single(g, n)
    ensures TimelyImport(g, order, k, e) <==> OnTime(g, order, k, t)
  {
    hide LeadsTo, OnTime;
  }

  lemma TwoParts(g: Graph, order: seq<nat>, a: ImportEntry, b: ImportEntry)
    requires |g| == 2 && order == [0, 1] && g[0].imports == [a] && g[1].imports == [b]
    requires TimelyImport(g, order, 0, a) && TimelyImport(g, order, 1, b)
    ensures Timely(g, order)
  {
    hide TimelyImport;
    forall k: nat, e | k < |order| && order[k] < |g| && e in g[order[k]].imports ensures TimelyImport(g, order, k, e) {
    }
  }

  lemma NotTimely(g: Graph, order: seq<nat>, b: ImportEntry)
    requires |g| == 2 && order == [1, 0] && g[1].imports == [b] && !TimelyImport(g, order, 0, b)
    ensures !Timely(g, order)
  {
    hide TimelyImport;
    assert b in g[order[0]].imports;
  }

  /** The late import does not lead back to itself. */
  lemma NeverBack(g: Graph, order: seq<nat>, a: ImportEntry)
    requires |g| == 2 && order == [1, 0] && a == ImportEntry("b", ImportedName.Named("x"), 0) && g[0].imports == [a]
    requires g[0].dependencies == map["b" := 1] && g[1].imports == [ImportEntry("a", ImportedName.Named("x"), 0)]
    requires Denotes(g, Node(1, "x"), 1) && !Reexported(g, Node(1, "x"))
    requires LeadsTo(g, Node(1, "x"), Node(1, "x")) && Single(g, Node(1, "x"))
    ensures !LoopsBack(g, order, Node(0, "x"))
  {
    hide LeadsTo, Reexported;
    forall j: nat, e | ImportAt(g, order, j, Node(0, "x"), e) ensures !LeftWith(g, order, j, e, Place(0, e.slot)) {
      assert j == 1 && e == a;
      NotPassed(g, order, Place(0, 0));
    }
  }

  lemma NotPassed(g: Graph, order: seq<nat>, p: Place)
    requires |g| == 2 && order == [1, 0] && g[1].imports == [ImportEntry("a", ImportedName.Named("x"), 0)]
    requires Denotes(g, Node(1, "x"), 1) && !Reexported(g, Node(1, "x"))
    ensures !Passes(g, order, 1, Node(1, "x"), p)
  {
    hide Reexported;
    forall j: nat, e | ImportAt(g, order, j, Node(1, "x"), e) ensures false {
    }
  }

  lemma TwoFresh(own: Binding, imported: Binding, x: Binding, other: Binding)
    requires own != imported && own != x && own != other && imported != x && imported != other
    ensures FreshImports(TwoModules(own, imported, x, other))
  {
    var g := TwoModules(own, imported, x, other);
    forall p | Placeholder(g, p) ensures Alone(g, p) {
      assert p.slot == 0;
    }
  }

  lemma TwoPlain(g: Graph)
    requires exists a, b, x, z :: g == TwoModules(a, b, x, z)
    ensures Plain(g)
  {
    hide Single, WellFormed, Loaded, TwoModules, Denotes, Reexported, LeadsTo, PlainModule;
    TwoNames(g);
    TwoImports(g);
    TwoExports(g);
    PlainOne(g, 0, Node(1, "x"));
    PlainOne(g, 1, Node(0, "x"));
  }

  lemma PlainOne(g: Graph, i: nat, n: Node)
    requires i < |g| && |g[i].imports| == 1 && Single(g, n) && forall e :: e in g[i].exports ==> e.Local?
    requires var e := g[i].imports[0];
             && e.imported == ImportedName.Named(n.name)
             && e.request in g[i].dependencies && g[i].dependencies[e.request] == n.index
    ensures PlainModule(g, i)
  {
    hide Single;
  }

  lemma TwoExports(g: Graph)
    requires exists a, b, x, z :: g == TwoModules(a, b, x, z)
    ensures |g| == 2 && forall i, e :: 0 <= i < |g| && e in g[i].exports ==> e.Local?
  {
  }

  /** The linker run on these two modules: it succeeds from either entry, and
      only from the exporter of the binding do all imports share it. */
  method LinkTwo(entry: nat) returns (m: ModuleGraph, r: LinkResult)
    requires entry < 2
    ensures fresh(m) && r.LinkOk? && |m.modules| == 2 && m.modules[0].status == m.modules[1].status == Linked
    ensures LinkedShare(m.modules) <==> entry == 1
  {
    hide WellFormed, Loaded, Linkable, FreshImports, Links, Evolves, Timely, LinkedShare, Plain, Deps;
    var own := new Binding(None, false);
    var imported := new Binding(None, false);
    var x := new Binding(None, true);
    var other := new Binding(None, false);
    var g := TwoModules(own, imported, x, other);
    TwoWellFormed(own, imported, x, other);
    TwoFresh(own, imported, x, other);
    FreshLinkable(g);
    TwoPlain(g);
    TwoTimely(g, entry);
    m := new ModuleGraph(g);
    r := LinkFrom(m, entry);
    assert Statuses(g) == [Unlinked, Unlinked];
    TwoOrder(Deps(g), Statuses(g), entry);
    NoneShare(g);
    LinksStatus(g, m.modules, PostOrder(g, entry), 0);
    LinksStatus(g, m.modules, PostOrder(g, entry), 1);
    LinksSize(g, m.modules, PostOrder(g, entry));
  }

  lemma NoneShare(g: Graph)
    requires forall i :: 0 <= i < |g| ==> !IsLinked(g[i].status)
    ensures LinkedShare(g)
  {
  }
}
