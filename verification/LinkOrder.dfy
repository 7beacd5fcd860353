/** The order in which linking completes modules, and what it has done to a
    graph when it has completed some of them. */
module LinkOrder {
  import opened Syntax
  import opened Cells
  import opened ModuleGraphs
  import opened ExportResolution
  import opened LinkGraph

  // ----- depth-first order -----

  function DepsOf(m: RuntimeModule): seq<nat>
    requires forall r :: r in m.requests ==> r in m.dependencies
  {
    seq(|m.requests|, x requires 0 <= x < |m.requests| => m.dependencies[m.requests[x]])
  }

  function Deps(g: Graph): (ds: seq<seq<nat>>)
    requires Loaded(g)
    ensures |ds| == |g| && DepsIn(ds)
  {
    seq(|g|, i requires 0 <= i < |g| => DepsOf(g[i]))
  }

  predicate DepsIn(ds: seq<seq<nat>>) {
    forall i, x :: 0 <= i < |ds| && 0 <= x < |ds[i]| ==> ds[i][x] < |ds|
  }

  function Statuses(g: Graph): (sts: seq<Status>)
    ensures |sts| == |g|
  {
    seq(|g|, i requires 0 <= i < |g| => g[i].status)
  }

  /** The number of modules that no link has entered. */
  function UnlinkedCount(sts: seq<Status>): nat {
    if sts == [] then 0 else (if sts[0] == Unlinked then 1 else 0) + UnlinkedCount(sts[1..])
  }

  lemma {:induction false} EnteredFewer(sts: seq<Status>, i: nat, s: Status)
    requires i < |sts| && s != Unlinked
    ensures UnlinkedCount(sts[i := s]) + (if sts[i] == Unlinked then 1 else 0) == UnlinkedCount(sts)
  {
    if i == 0 {
      assert sts[i := s][1..] == sts[1..];
    } else {
      assert sts[i := s][1..] == sts[1..][i - 1 := s];
      EnteredFewer(sts[1..], i - 1, s);
    }
  }

  /** Statuses after a successful link, and the modules in the order in which
      they became linked. */
  datatype Visited = Visited(sts: seq<Status>, order: seq<nat>)

  function Visit(ds: seq<seq<nat>>, sts: seq<Status>, i: nat): (v: Visited)
    requires DepsIn(ds) && |sts| == |ds| && i < |ds|
    ensures |v.sts| == |sts| && UnlinkedCount(v.sts) <= UnlinkedCount(sts)
    decreases UnlinkedCount(sts), 0, 0
  {
    if sts[i] != Unlinked then Visited(sts, [])
    else
      EnteredFewer(sts, i, Linking);
      var v := VisitFrom(ds, sts[i := Linking], i, 0);
      EnteredFewer(v.sts, i, Linked);
      Visited(v.sts[i := Linked], v.order + [i])
  }

  /** The dependencies of `i` from number `x` on. */
  function VisitFrom(ds: seq<seq<nat>>, sts: seq<Status>, i: nat, x: nat): (v: Visited)
    requires DepsIn(ds) && |sts| == |ds| && i < |ds| && x <= |ds[i]|
    ensures |v.sts| == |sts| && UnlinkedCount(v.sts) <= UnlinkedCount(sts)
    decreases UnlinkedCount(sts), 1, |ds[i]| - x
  {
    if x == |ds[i]| then Visited(sts, [])
    else
      var a := Visit(ds, sts, ds[i][x]);
      var b := VisitFrom(ds, a.sts, i, x + 1);
      Visited(b.sts, a.order + b.order)
  }

  /** What has been visited after `order`. */
  function Later(order: seq<nat>, v: Visited): Visited {
    v.(order := order + v.order)
  }

  lemma VisitStep(ds: seq<seq<nat>>, sts: seq<Status>, i: nat, x: nat)
    requires DepsIn(ds) && |sts| == |ds| && i < |ds| && x < |ds[i]|
    ensures var a := Visit(ds, sts, ds[i][x]);
            VisitFrom(ds, sts, i, x) == Later(a.order, VisitFrom(ds, a.sts, i, x + 1))
    ensures forall order: seq<nat> ::
              Later(order, VisitFrom(ds, sts, i, x))
              == Later(order + Visit(ds, sts, ds[i][x]).order, VisitFrom(ds, Visit(ds, sts, ds[i][x]).sts, i, x + 1))
  {
    hide Visit;
    var a := Visit(ds, sts, ds[i][x]);
    var b := VisitFrom(ds, a.sts, i, x + 1);
    forall order: seq<nat> ensures Later(order, VisitFrom(ds, sts, i, x)) == Later(order + a.order, b) {
      assert order + (a.order + b.order) == order + a.order + b.order;
    }
  }

  lemma VisitEnd(ds: seq<seq<nat>>, sts: seq<Status>, i: nat)
    requires DepsIn(ds) && |sts| == |ds| && i < |ds|
    ensures VisitFrom(ds, sts, i, |ds[i]|) == Visited(sts, [])
  {
  }

  /** The modules that a successful link from `index` links, in order. It
      depends on requests and statuses alone. */
  function PostOrder(g: Graph, index: nat): seq<nat>
    requires Loaded(g) && index < |g|
  {
    Visit(Deps(g), Statuses(g), index).order
  }

  lemma DepsStatic(g: Graph, h: Graph)
    requires SameStatic(g, h) && Loaded(g) && Loaded(h)
    ensures Deps(g) == Deps(h)
  {
    hide LoadedModule;
    forall i | 0 <= i < |g| ensures Deps(g)[i] == Deps(h)[i] {
      assert SameRecord(g[i], h[i]);
      DepsSame(g, h, i);
    }
  }

  lemma DepsSame(g: Graph, h: Graph, i: nat)
    requires i < |g| && i < |h| && Loaded(g) && Loaded(h) && SameRecord(g[i], h[i])
    ensures Deps(g)[i] == Deps(h)[i]
  {
    assert LoadedModule(g[i], |g|) && LoadedModule(h[i], |h|);
    assert DepsOf(g[i]) == DepsOf(h[i]);
  }

  // ----- what has been linked -----

  /** The slot that a name denotes, when its own module decides so. */
  ghost predicate Denotes(g: Graph, t: Node, slot: nat) {
    InGraph(g, t) && Decider(g, t).Some? && Decider(g, t).value.Local? && Decider(g, t).value.slot == slot
  }

  /** `export { x }` of an imported binding. */
  ghost predicate Reexported(g: Graph, t: Node) {
    exists slot: nat :: Denotes(g, t, slot) && IsImportSlot(g[t.index], slot)
  }

  /** The binding of `t` will be replaced when its module is linked, which is
      neither so in `g` nor among the modules `prior`. */
  ghost predicate Late(g: Graph, prior: seq<nat>, t: Node) {
    Reexported(g, t) && !IsLinked(g[t.index].status) && t.index !in prior
  }

  /** `c` got the binding of `t` when the modules `prior` had been linked. */
  ghost predicate Got(g: Graph, h: Graph, prior: seq<nat>, c: Cell, t: Node) {
    Decided(g, h, t) && Root(c) == BindingThen(g, h, prior, t)
  }

  /** An import slot is a read-only view of what it resolved to when the modules
      `prior` had been linked. */
  ghost predicate BoundImport(g: Graph, h: Graph, prior: seq<nat>, i: nat, e: ImportEntry) {
    && i < |g| && i < |h| && e.slot < |h[i].bindings| && h[i].bindings[e.slot].View?
    && e.request in g[i].dependencies && g[i].dependencies[e.request] < |g|
    && Resolved(g, h, prior, g[i].dependencies[e.request], e.imported, h[i].bindings[e.slot])
  }

  ghost predicate Resolved(g: Graph, h: Graph, prior: seq<nat>, d: nat, imported: ImportedName, c: Cell)
    requires d < |g|
  {
    match imported
    case Named(name) =>
      && (exists t :: LeadsTo(g, Node(d, name), t))
      && (forall t :: LeadsTo(g, Node(d, name), t) ==> Got(g, h, prior, c, t))
    case NamespaceObject => Root(c) == Root(g[d].namespaceCell)
    case Source => Root(c) == Root(g[d].sourceCell)
  }

  ghost predicate ModuleBound(g: Graph, h: Graph, prior: seq<nat>, i: nat) {
    i < |g| && forall e :: e in g[i].imports ==> BoundImport(g, h, prior, i, e)
  }

  /** The name stands for one binding when the modules `prior` have been linked. */
  ghost predicate PassedOn(g: Graph, h: Graph, prior: seq<nat>, n: Node) {
    && (exists t :: LeadsTo(g, n, t)) && (forall t :: LeadsTo(g, n, t) ==> Decided(g, h, t))
    && (forall s, t :: LeadsTo(g, n, s) && LeadsTo(g, n, t) ==>
          BindingThen(g, h, prior, s) == BindingThen(g, h, prior, t))
  }

  ghost predicate Decided(g: Graph, h: Graph, t: Node) {
    InGraph(g, t) && TerminalCell(g, t).Some? && InGraph(h, t) && TerminalCell(h, t).Some?
  }

  /** The binding of `t` when the modules `prior` had been linked. */
  ghost function BindingThen(g: Graph, h: Graph, prior: seq<nat>, t: Node): Binding
    requires Decided(g, h, t)
  {
    if Late(g, prior, t) then BindingOf(g, t) else BindingOf(h, t)
  }

  ghost predicate ExportsBound(g: Graph, h: Graph, prior: seq<nat>, i: nat) {
    i < |g| && forall e :: e in g[i].exports && e.Indirect? ==> PassedOn(g, h, prior, Node(i, e.exported))
  }

  /** Module `i` became linked; slots that are not imports kept their cells. */
  ghost predicate BecameLinked(a: RuntimeModule, b: RuntimeModule) {
    && SameRecord(a, b) && a.status == Unlinked && b.status == Linked
    && forall x: nat :: x < |a.bindings| && !IsImportSlot(a, x) ==> b.bindings[x] == a.bindings[x]
  }

  /** `h` is `g` after the modules `order` have been linked, one after the
      other. */
  ghost predicate Links(g: Graph, h: Graph, order: seq<nat>) {
    && |g| == |h|
    && (forall k :: 0 <= k < |order| ==> order[k] < |g|)
    && (forall j, k :: 0 <= j < k < |order| ==> order[j] != order[k])
    && (forall i :: 0 <= i < |g| && i !in order ==> h[i] == g[i])
    && (forall k :: 0 <= k < |order| ==> BecameLinked(g[order[k]], h[order[k]]))
    && (forall k :: 0 <= k < |order| ==> ModuleBound(g, h, order[..k], order[k]))
    && (forall k :: 0 <= k < |order| ==> ExportsBound(g, h, order[..k + 1], order[k]))
  }

  /** What linked modules pass on leads to something. */
  ghost predicate PassesOn(g: Graph, order: seq<nat>) {
    forall m, e :: m in order && m < |g| && e in g[m].exports && e.Indirect? ==>
      exists t :: LeadsTo(g, Node(m, e.exported), t)
  }

  lemma LinksPassOn(g: Graph, h: Graph, order: seq<nat>)
    requires Links(g, h, order)
    ensures PassesOn(g, order)
  {
    hide ModuleBound, BecameLinked, LeadsTo, Decided;
    forall m, e | m in order && m < |g| && e in g[m].exports && e.Indirect?
      ensures exists t :: LeadsTo(g, Node(m, e.exported), t)
    {
      var k :| 0 <= k < |order| && order[k] == m;
      assert ExportsBound(g, h, order[..k + 1], order[k]);
      assert PassedOn(g, h, order[..k + 1], Node(m, e.exported));
    }
  }

  lemma LinksSelf(g: Graph)
    ensures Links(g, g, [])
  {
  }

  lemma LinksStatic(g: Graph, h: Graph, order: seq<nat>)
    requires Links(g, h, order)
    ensures SameStatic(g, h)
  {
    hide ModuleBound, ExportsBound;
    forall i | 0 <= i < |g| ensures SameRecord(g[i], h[i]) {
      if i in order {
        var k :| 0 <= k < |order| && order[k] == i;
        assert BecameLinked(g[order[k]], h[order[k]]);
      }
    }
  }

  lemma LinksStatus(g: Graph, h: Graph, order: seq<nat>, i: nat)
    requires Links(g, h, order) && i < |g|
    ensures h[i].status == if i in order then Linked else g[i].status
    ensures i in order ==> g[i].status == Unlinked
  {
    hide ModuleBound, ExportsBound;
    if i in order {
      var k :| 0 <= k < |order| && order[k] == i;
      assert BecameLinked(g[order[k]], h[order[k]]);
    }
  }

  // ----- bindings that stay -----

  /** The cell behind `t` is the same in both graphs. */
  ghost predicate SameCell(g: Graph, h: Graph, t: Node) {
    && InGraph(g, t) && InGraph(h, t)
    && forall slot: nat :: Denotes(g, t, slot) && slot < |g[t.index].bindings| && slot < |h[t.index].bindings|
                      ==> g[t.index].bindings[slot] == h[t.index].bindings[slot]
  }

  lemma SlotExists(g: Graph, t: Node, slot: nat)
    requires Denotes(g, t, slot)
    ensures slot < |g[t.index].bindings|
  {
    var e := Decider(g, t).value;
    var x :| 0 <= x < |g[t.index].exports| && g[t.index].exports[x] == e;
    assert LoadedModule(g[t.index], |g|) && LoadedExport(e, g[t.index]);
  }

  lemma NamespaceExists(g: Graph, t: Node, request: string)
    requires InGraph(g, t) && Decider(g, t).Some? && Decider(g, t).value.Namespace?
    requires Decider(g, t).value.request == request
    ensures request in g[t.index].dependencies && g[t.index].dependencies[request] < |g|
  {
    var e := Decider(g, t).value;
    var x :| 0 <= x < |g[t.index].exports| && g[t.index].exports[x] == e;
    assert LoadedModule(g[t.index], |g|) && LoadedExport(e, g[t.index]);
  }

  lemma SameCellBinding(g: Graph, h: Graph, t: Node)
    requires SameStatic(g, h) && SameCell(g, h, t) && TerminalCell(g, t).Some?
    ensures TerminalCell(h, t) == TerminalCell(g, t) && BindingOf(h, t) == BindingOf(g, t)
  {
    hide Loaded, IsImportSlot;
    assert SameRecord(g[t.index], h[t.index]);
    match Decider(g, t)
    case Some(Local(_, slot)) =>
      SlotExists(g, t, slot);
      SlotExists(h, t, slot);
      assert Denotes(g, t, slot);
    case Some(Namespace(_, request)) =>
      NamespaceExists(g, t, request);
      assert SameRecord(g[g[t.index].dependencies[request]], h[h[t.index].dependencies[request]]);
  }

  /** A name is decided by the same kind of cell in both graphs. */
  lemma StaticTerminal(g: Graph, h: Graph, t: Node)
    requires SameStatic(g, h) && InGraph(g, t) && Loaded(h)
    ensures InGraph(h, t) && (TerminalCell(h, t).Some? <==> TerminalCell(g, t).Some?)
    ensures forall slot: nat :: Denotes(g, t, slot) <==> Denotes(h, t, slot)
    ensures Reexported(g, t) <==> Reexported(h, t)
  {
    hide Loaded;
    assert SameRecord(g[t.index], h[t.index]);
    assert forall slot: nat :: IsImportSlot(g[t.index], slot) <==> IsImportSlot(h[t.index], slot);
  }

  /** Only late bindings are replaced. */
  lemma NotLateStays(g: Graph, h: Graph, order: seq<nat>, t: Node)
    requires Loaded(g) && Loaded(h) && Links(g, h, order) && InGraph(g, t) && (t.index in order ==> !Reexported(g, t))
    ensures SameCell(g, h, t)
  {
    hide Loaded, ModuleBound, ExportsBound;
    forall slot: nat | Denotes(g, t, slot) && slot < |g[t.index].bindings| && slot < |h[t.index].bindings|
      ensures g[t.index].bindings[slot] == h[t.index].bindings[slot]
    {
      if t.index in order {
        var k :| 0 <= k < |order| && order[k] == t.index;
        assert BecameLinked(g[order[k]], h[order[k]]);
        assert !IsImportSlot(g[t.index], slot);
      }
    }
  }

  // ----- one link after another -----

  lemma GotForward(g: Graph, h: Graph, k: Graph, o1: seq<nat>, o2: seq<nat>, prior: seq<nat>, c: Cell, t: Node)
    requires Loaded(g) && Loaded(h) && Loaded(k) && Links(g, h, o1) && Links(h, k, o2)
    requires (forall m :: m in prior ==> m in o1) && Got(g, h, prior, c, t)
    ensures Got(g, k, prior, c, t)
  {
    hide Loaded, ModuleBound, TerminalCell, Decider, Links, Reexported;
    LinksStatic(g, h, o1);
    LinksStatic(h, k, o2);
    StaticTerminal(g, h, t);
    StaticTerminal(h, k, t);
    if !Late(g, prior, t) {
      LinksSize(g, h, o1);
      LinksStatus(g, h, o1, t.index);
      LinksEntered(h, k, o2, t.index);
      NotLateStays(h, k, o2, t);
      SameCellBinding(h, k, t);
    }
  }

  lemma LinksSize(g: Graph, h: Graph, order: seq<nat>)
    requires Links(g, h, order)
    ensures |g| == |h|
  {
  }

  lemma LinksEntered(g: Graph, h: Graph, order: seq<nat>, i: nat)
    requires Links(g, h, order)
    ensures i in order ==> i < |g| && g[i].status == Unlinked && h[i].status == Linked
    ensures i < |g| && i !in order ==> h[i] == g[i]
  {
    hide ModuleBound, ExportsBound;
    if i in order {
      var k :| 0 <= k < |order| && order[k] == i;
      assert BecameLinked(g[order[k]], h[order[k]]);
    }
  }

  /** A module linked first stays bound as it was. */
  lemma BoundForward(g: Graph, h: Graph, k: Graph, o1: seq<nat>, o2: seq<nat>, prior: seq<nat>, i: nat)
    requires Loaded(g) && Loaded(h) && Loaded(k) && Links(g, h, o1) && Links(h, k, o2)
    requires (forall m :: m in prior ==> m in o1) && i in o1 && ModuleBound(g, h, prior, i)
    ensures ModuleBound(g, k, prior, i)
  {
    hide Loaded, TerminalCell, Decider, Links, LeadsTo, Got;
    LinksEntered(g, h, o1, i);
    LinksEntered(h, k, o2, i);
    LinksSize(g, h, o1);
    LinksSize(h, k, o2);
    forall e | e in g[i].imports ensures BoundImport(g, k, prior, i, e) {
      assert BoundImport(g, h, prior, i, e);
      if e.imported.Named? {
        var n := Node(g[i].dependencies[e.request], e.imported.name);
        forall t | LeadsTo(g, n, t) ensures Got(g, k, prior, h[i].bindings[e.slot], t) {
          GotForward(g, h, k, o1, o2, prior, h[i].bindings[e.slot], t);
        }
      }
    }
  }

  /** What it passes on stays bound as well. */
  lemma ExportsForward(g: Graph, h: Graph, k: Graph, o1: seq<nat>, o2: seq<nat>, prior: seq<nat>, i: nat)
    requires Loaded(g) && Loaded(h) && Loaded(k) && Links(g, h, o1) && Links(h, k, o2)
    requires (forall m :: m in prior ==> m in o1) && ExportsBound(g, h, prior, i)
    ensures ExportsBound(g, k, prior, i)
  {
    hide Loaded, TerminalCell, Decider, Links, LeadsTo, Got, BindingThen;
    forall e | e in g[i].exports && e.Indirect? ensures PassedOn(g, k, prior, Node(i, e.exported)) {
      assert PassedOn(g, h, prior, Node(i, e.exported));
      forall t | LeadsTo(g, Node(i, e.exported), t)
        ensures Decided(g, k, t) && BindingThen(g, k, prior, t) == BindingThen(g, h, prior, t)
      {
        var c := Direct(BindingThen(g, h, prior, t));
        GotItself(g, h, prior, t);
        GotForward(g, h, k, o1, o2, prior, c, t);
        GotThat(g, k, prior, c, t);
      }
    }
  }

  lemma GotItself(g: Graph, h: Graph, prior: seq<nat>, t: Node)
    requires Decided(g, h, t)
    ensures Got(g, h, prior, Direct(BindingThen(g, h, prior, t)), t)
  {
    hide TerminalCell;
  }

  lemma GotThat(g: Graph, h: Graph, prior: seq<nat>, c: Cell, t: Node)
    requires Got(g, h, prior, c, t)
    ensures Decided(g, h, t) && BindingThen(g, h, prior, t) == Root(c)
  {
    hide TerminalCell;
  }

  lemma GotBack(g: Graph, h: Graph, k: Graph, o1: seq<nat>, prior: seq<nat>, c: Cell, t: Node)
    requires Loaded(g) && Loaded(h) && Links(g, h, o1) && SameStatic(g, h) && InGraph(g, t) && Got(h, k, prior, c, t)
    ensures Got(g, k, o1 + prior, c, t)
  {
    hide Loaded, ModuleBound, TerminalCell, Decider, Links, Reexported;
    StaticTerminal(g, h, t);
    LinksSize(g, h, o1);
    LinksStatus(g, h, o1, t.index);
    assert Late(g, o1 + prior, t) <==> Late(h, prior, t);
    if Late(h, prior, t) {
      NotLateStays(g, h, o1, t);
      SameCellBinding(g, h, t);
    }
  }

  /** A module linked later was bound with the first ones linked already. */
  lemma BoundBack(g: Graph, h: Graph, k: Graph, o1: seq<nat>, prior: seq<nat>, i: nat)
    requires Loaded(g) && Loaded(h) && Links(g, h, o1) && i !in o1 && ModuleBound(h, k, prior, i)
    ensures ModuleBound(g, k, o1 + prior, i)
  {
    hide Loaded, TerminalCell, Decider, Links, LeadsTo, Got;
    LinksSize(g, h, o1);
    LinksEntered(g, h, o1, i);
    LinksStatic(g, h, o1);
    StaticBack(g, h);
    forall e | e in g[i].imports ensures BoundImport(g, k, o1 + prior, i, e) {
      assert BoundImport(h, k, prior, i, e);
      BoundBackImport(g, h, k, o1, prior, i, e);
    }
  }

  lemma BoundBackImport(g: Graph, h: Graph, k: Graph, o1: seq<nat>, prior: seq<nat>, i: nat, e: ImportEntry)
    requires Loaded(g) && Loaded(h) && Links(g, h, o1) && SameStatic(g, h) && SameStatic(h, g)
    requires i < |g| && h[i] == g[i] && BoundImport(h, k, prior, i, e)
    ensures BoundImport(g, k, o1 + prior, i, e)
  {
    hide Loaded, TerminalCell, Decider, Links, Reaches, Got;
    var d := g[i].dependencies[e.request];
    assert SameRecord(g[d], h[d]);
    if e.imported.Named? {
      var n := Node(d, e.imported.name);
      var t :| LeadsTo(h, n, t);
      StaticTargets(h, g, n, t);
      forall t | LeadsTo(g, n, t) ensures Got(g, k, o1 + prior, k[i].bindings[e.slot], t) {
        StaticTargets(g, h, n, t);
        GotBack(g, h, k, o1, prior, k[i].bindings[e.slot], t);
      }
    }
  }

  lemma ExportsBack(g: Graph, h: Graph, k: Graph, o1: seq<nat>, prior: seq<nat>, i: nat)
    requires Loaded(g) && Loaded(h) && Links(g, h, o1) && i !in o1 && ExportsBound(h, k, prior, i)
    ensures ExportsBound(g, k, o1 + prior, i)
  {
    hide Loaded, TerminalCell, Decider, Links, Reaches, Got, BindingThen;
    LinksSize(g, h, o1);
    LinksEntered(g, h, o1, i);
    LinksStatic(g, h, o1);
    StaticBack(g, h);
    forall e | e in g[i].exports && e.Indirect? ensures PassedOn(g, k, o1 + prior, Node(i, e.exported)) {
      assert PassedOn(h, k, prior, Node(i, e.exported));
      var n := Node(i, e.exported);
      var t :| LeadsTo(h, n, t);
      StaticTargets(h, g, n, t);
      forall t | LeadsTo(g, n, t)
        ensures LeadsTo(h, n, t) && Decided(g, k, t)
        ensures BindingThen(g, k, o1 + prior, t) == BindingThen(h, k, prior, t)
      {
        StaticTargets(g, h, n, t);
        GotItself(h, k, prior, t);
        GotBack(g, h, k, o1, prior, Direct(BindingThen(h, k, prior, t)), t);
        GotThat(g, k, o1 + prior, Direct(BindingThen(h, k, prior, t)), t);
      }
    }
  }

  ghost predicate LinkedAt(g: Graph, h: Graph, order: seq<nat>, x: nat)
    requires |g| == |h| && x < |order| && order[x] < |g|
  {
    && BecameLinked(g[order[x]], h[order[x]]) && ModuleBound(g, h, order[..x], order[x])
    && ExportsBound(g, h, order[..x + 1], order[x])
  }

  lemma FirstLinked(g: Graph, h: Graph, k: Graph, o1: seq<nat>, o2: seq<nat>, x: nat)
    requires Loaded(g) && Loaded(h) && Loaded(k) && Links(g, h, o1) && Links(h, k, o2) && |g| == |k|
    requires x < |o1| && o1[x] < |g| && o1[x] !in o2
    ensures LinkedAt(g, k, o1 + o2, x)
  {
    hide Loaded, ModuleBound, ExportsBound, BecameLinked;
    var o := o1 + o2;
    assert o[..x] == o1[..x] && o[..x + 1] == o1[..x + 1] && o[x] == o1[x];
    assert k[o1[x]] == h[o1[x]];
    BoundForward(g, h, k, o1, o2, o1[..x], o1[x]);
    ExportsForward(g, h, k, o1, o2, o1[..x + 1], o1[x]);
  }

  lemma ThenLinked(g: Graph, h: Graph, k: Graph, o1: seq<nat>, o2: seq<nat>, y: nat)
    requires Loaded(g) && Loaded(h) && Loaded(k) && Links(g, h, o1) && Links(h, k, o2) && |g| == |k|
    requires y < |o2| && o2[y] < |g| && o2[y] !in o1
    ensures LinkedAt(g, k, o1 + o2, |o1| + y)
  {
    hide Loaded, ModuleBound, ExportsBound, BecameLinked;
    var o, x := o1 + o2, |o1| + y;
    assert o[..x] == o1 + o2[..y] && o[..x + 1] == o1 + o2[..y + 1] && o[x] == o2[y];
    assert g[o2[y]] == h[o2[y]];
    BoundBack(g, h, k, o1, o2[..y], o2[y]);
    ExportsBack(g, h, k, o1, o2[..y + 1], o2[y]);
  }

  lemma LinksTrans(g: Graph, h: Graph, k: Graph, o1: seq<nat>, o2: seq<nat>)
    requires Loaded(g) && Loaded(h) && Loaded(k) && Links(g, h, o1) && Links(h, k, o2)
    ensures Links(g, k, o1 + o2)
  {
    hide Loaded, Links, LinkedAt;
    var o := o1 + o2;
    LinksSize(g, h, o1);
    LinksSize(h, k, o2);
    LinksDistinct(g, h, o1);
    LinksDistinct(h, k, o2);
    forall i | i in o1 ensures i !in o2 {
      LinksEntered(g, h, o1, i);
      LinksEntered(h, k, o2, i);
    }
    DistinctCat(o1, o2);
    forall x | 0 <= x < |o| ensures LinkedAt(g, k, o, x) {
      if x < |o1| {
        FirstLinked(g, h, k, o1, o2, x);
      } else {
        ThenLinked(g, h, k, o1, o2, x - |o1|);
      }
    }
    forall i | 0 <= i < |g| && i !in o ensures k[i] == g[i] {
      LinksEntered(g, h, o1, i);
      LinksEntered(h, k, o2, i);
    }
    AllLinkedAt(g, k, o);
  }

  lemma LinksDistinct(g: Graph, h: Graph, order: seq<nat>)
    requires Links(g, h, order)
    ensures forall x :: 0 <= x < |order| ==> order[x] < |g|
    ensures forall j, k :: 0 <= j < k < |order| ==> order[j] != order[k]
  {
    hide ModuleBound, ExportsBound, BecameLinked;
  }

  lemma DistinctCat(a: seq<nat>, b: seq<nat>)
    requires forall j, k :: 0 <= j < k < |a| ==> a[j] != a[k]
    requires forall j, k :: 0 <= j < k < |b| ==> b[j] != b[k]
    requires forall i :: i in a ==> i !in b
    ensures var c := a + b; forall j, k :: 0 <= j < k < |c| ==> c[j] != c[k]
  {
    var c := a + b;
    forall j, k | 0 <= j < k < |c| ensures c[j] != c[k] {
      if j < |a| <= k {
        assert a[j] in a && b[k - |a|] in b;
      }
    }
  }

  lemma AllLinkedAt(g: Graph, h: Graph, order: seq<nat>)
    requires |g| == |h| && (forall x :: 0 <= x < |order| ==> order[x] < |g|)
    requires forall j, k :: 0 <= j < k < |order| ==> order[j] != order[k]
    requires forall i :: 0 <= i < |g| && i !in order ==> h[i] == g[i]
    requires forall x :: 0 <= x < |order| ==> LinkedAt(g, h, order, x)
    ensures Links(g, h, order)
  {
    hide ModuleBound, ExportsBound, BecameLinked;
    forall x | 0 <= x < |order|
      ensures BecameLinked(g[order[x]], h[order[x]]) && ModuleBound(g, h, order[..x], order[x])
      ensures ExportsBound(g, h, order[..x + 1], order[x])
    {
      assert LinkedAt(g, h, order, x);
    }
  }
}
