/** When linking makes importers share the bindings of their exporters: exactly
    when every re-exported import that an import resolves to has been linked
    before it, or is bound to nothing but itself. */
module LinkedImports {
  import opened Syntax
  import Machine
  import opened Cells
  import opened ModuleGraphs
  import opened ExportResolution
  import opened LinkGraph
  import opened LinkOrder
  import opened Linker

  /** Import `e` of module `i` shares the binding of every name that it may
      stand for. */
  ghost predicate Shares(h: Graph, i: nat, e: ImportEntry) {
    && i < |h| && e.slot < |h[i].bindings| && e.request in h[i].dependencies
    && (e.imported.Named? ==>
          forall t :: LeadsTo(h, Node(h[i].dependencies[e.request], e.imported.name), t)
                      ==> BindingOf(h, t) == Root(h[i].bindings[e.slot]))
  }

  ghost predicate ModuleShares(h: Graph, i: nat) {
    i < |h| && forall e :: e in h[i].imports ==> Shares(h, i, e)
  }

  ghost predicate SharesAll(h: Graph, order: seq<nat>) {
    forall k :: 0 <= k < |order| ==> ModuleShares(h, order[k])
  }

  // ----- the condition -----

  datatype Place = Place(index: nat, slot: nat)

  /** Import `e` of module number `k` in the order is left with the cell that
      was at `p` before linking: it resolves to `p` before `p` is linked, or to
      an import linked earlier that is left with that cell. */
  ghost predicate LeftWith(g: Graph, order: seq<nat>, k: nat, e: ImportEntry, p: Place)
    decreases k, 1
  {
    && k < |order| && order[k] < |g| && e.imported.Named? && e.request in g[order[k]].dependencies
    && exists u ::
         LeadsTo(g, Node(g[order[k]].dependencies[e.request], e.imported.name), u) && Passes(g, order, k, u, p)
  }

  ghost predicate Passes(g: Graph, order: seq<nat>, k: nat, u: Node, p: Place)
    decreases k, 0
  {
    k < |order| &&
    if Late(g, order[..k], u) then u.index == p.index && Denotes(g, u, p.slot)
    else
      exists j: nat, e :: j < k && ImportAt(g, order, j, u, e) && LeftWith(g, order, j, e, p)
  }

  /** The name `u` denotes the slot of import `e` of module number `j`. */
  ghost predicate ImportAt(g: Graph, order: seq<nat>, j: nat, u: Node, e: ImportEntry) {
    j < |order| && order[j] == u.index && u.index < |g| && e in g[u.index].imports && Denotes(g, u, e.slot)
  }

  /** A re-exported import whose chain of imports leads back to itself. */
  ghost predicate LoopsBack(g: Graph, order: seq<nat>, t: Node) {
    exists j: nat, e :: ImportAt(g, order, j, t, e) && LeftWith(g, order, j, e, Place(t.index, e.slot))
  }

  ghost predicate OnTime(g: Graph, order: seq<nat>, k: nat, t: Node)
    requires k < |order|
  {
    Late(g, order[..k], t) ==> LoopsBack(g, order, t)
  }

  ghost predicate TimelyImport(g: Graph, order: seq<nat>, k: nat, e: ImportEntry)
    requires k < |order|
  {
    order[k] < |g| && e.request in g[order[k]].dependencies && e.imported.Named? ==>
      forall t :: LeadsTo(g, Node(g[order[k]].dependencies[e.request], e.imported.name), t) ==> OnTime(g, order, k, t)
  }

  /** No import resolves to a re-exported import that is linked only later,
      unless that one leads back to itself. Computed from requests, imports,
      exports and statuses before the link. */
  ghost predicate Timely(g: Graph, order: seq<nat>) {
    forall k: nat, e :: k < |order| && order[k] < |g| && e in g[order[k]].imports ==> TimelyImport(g, order, k, e)
  }

  // ----- fresh cells -----

  /** A slot that still holds the cell that linking will replace. */
  ghost predicate Placeholder(g: Graph, p: Place) {
    && p.index < |g| && !IsLinked(g[p.index].status)
    && p.slot < |g[p.index].bindings| && IsImportSlot(g[p.index], p.slot)
  }

  ghost predicate Alone(g: Graph, p: Place)
    requires p.index < |g| && p.slot < |g[p.index].bindings|
  {
    var b := Root(g[p.index].bindings[p.slot]);
    && (forall i: nat, s: nat :: i < |g| && s < |g[i].bindings| && Root(g[i].bindings[s]) == b ==> Place(i, s) == p)
    && (forall i :: 0 <= i < |g| ==> Root(g[i].namespaceCell) != b && Root(g[i].sourceCell) != b)
  }

  /** Every module environment starts with cells of its own. */
  ghost predicate FreshImports(g: Graph) {
    forall p :: Placeholder(g, p) ==> Alone(g, p)
  }

  // ----- what a slot holds in the end -----

  /** The slot that `t` denotes, if it denotes one. */
  lemma TerminalKinds(g: Graph, t: Node)
    requires InGraph(g, t) && TerminalCell(g, t).Some?
    ensures Decider(g, t).Some? && (Decider(g, t).value.Local? || Decider(g, t).value.Namespace?)
    ensures Decider(g, t).value.Local? ==>
              var s := Decider(g, t).value.slot;
              Denotes(g, t, s) && s < |g[t.index].bindings| && BindingOf(g, t) == Root(g[t.index].bindings[s])
    ensures Decider(g, t).value.Namespace? ==>
              && (forall s: nat :: !Denotes(g, t, s))
              && exists i: nat :: i < |g| && BindingOf(g, t) == Root(g[i].namespaceCell)
  {
    hide Loaded;
    match Decider(g, t)
    case Some(Local(_, slot)) => SlotExists(g, t, slot);
    case Some(Namespace(_, request)) => NamespaceExists(g, t, request);
    case _ =>
  }

  lemma ImportEntryOf(m: RuntimeModule, slot: nat)
    returns (e: ImportEntry)
    requires IsImportSlot(m, slot)
    ensures e in m.imports && e.slot == slot
  {
    var i :| 0 <= i < |m.imports| && m.imports[i].slot == slot;
    e := m.imports[i];
  }

  /** The facts about a link that the proofs below share. */
  ghost predicate WholeLink(g: Graph, h: Graph, order: seq<nat>) {
    WellFormed(g) && Loaded(g) && Loaded(h) && Links(g, h, order) && FreshImports(g)
  }

  lemma OrderPosition(order: seq<nat>, m: nat)
    returns (j: nat)
    requires m in order
    ensures j < |order| && order[j] == m
  {
    j :| 0 <= j < |order| && order[j] == m;
  }

  /** A late name brings its own placeholder and no other. */
  lemma LateBrings(g: Graph, prior: seq<nat>, u: Node, p: Place)
    requires Loaded(g) && FreshImports(g) && Placeholder(g, p) && Late(g, prior, u) && TerminalCell(g, u).Some?
    ensures BindingOf(g, u) == Root(g[p.index].bindings[p.slot]) <==> u.index == p.index && Denotes(g, u, p.slot)
  {
    hide Loaded, IsImportSlot;
    TerminalKinds(g, u);
    assert Alone(g, p);
    var s :| Denotes(g, u, s) && IsImportSlot(g[u.index], s);
    if BindingOf(g, u) == Root(g[p.index].bindings[p.slot]) {
      assert Place(u.index, s) == p;
    }
  }

  /** A name of a module that is not linked by this link brings no placeholder. */
  lemma SettledBrings(g: Graph, h: Graph, order: seq<nat>, u: Node, p: Place)
    requires WholeLink(g, h, order) && Placeholder(g, p) && InGraph(g, u) && TerminalCell(h, u).Some?
    requires !Reexported(g, u) || IsLinked(g[u.index].status)
    ensures BindingOf(h, u) != Root(g[p.index].bindings[p.slot])
  {
    hide Loaded, WellFormed, ModuleBound, Decider, Links, TerminalCell, IsImportSlot;
    LinksStatic(g, h, order);
    StaticBack(g, h);
    StaticTerminal(h, g, u);
    LinksEntered(g, h, order, u.index);
    NotLateStays(g, h, order, u);
    SameCellBinding(g, h, u);
    TerminalKinds(g, u);
    assert Alone(g, p);
  }

  lemma {:induction false} TargetHolds(g: Graph, h: Graph, order: seq<nat>, k: nat, u: Node, p: Place, c: Cell)
    requires WholeLink(g, h, order) && Placeholder(g, p) && k < |order| && Got(g, h, order[..k], c, u)
    ensures Root(c) == Root(g[p.index].bindings[p.slot]) <==> Passes(g, order, k, u, p)
    decreases k, 0
  {
    hide Loaded, WellFormed, ModuleBound, Decider, Links, TerminalCell, LeadsTo, LeftWith, FreshImports, IsImportSlot;
    if Late(g, order[..k], u) {
      LateBrings(g, order[..k], u, p);
    } else if Reexported(g, u) && !IsLinked(g[u.index].status) {
      EarlierHolds(g, h, order, k, u, p, c);
    } else {
      SettledBrings(g, h, order, u, p);
      forall j: nat, e | j < k && ImportAt(g, order, j, u, e) ensures false {
        NotImportAt(g, h, order, j, u, e);
      }
    }
  }

  lemma NotImportAt(g: Graph, h: Graph, order: seq<nat>, j: nat, u: Node, e: ImportEntry)
    requires WholeLink(g, h, order) && ImportAt(g, order, j, u, e)
    ensures Reexported(g, u) && !IsLinked(g[u.index].status)
  {
    hide Loaded, WellFormed, ModuleBound, Decider, FreshImports, Links;
    LinksEntered(g, h, order, u.index);
    var x :| 0 <= x < |g[u.index].imports| && g[u.index].imports[x] == e;
    assert IsImportSlot(g[u.index], e.slot);
  }

  /** A name of a module linked earlier brings what that import was left with. */
  lemma {:induction false} EarlierHolds(g: Graph, h: Graph, order: seq<nat>, k: nat, u: Node, p: Place, c: Cell)
    requires WholeLink(g, h, order) && Placeholder(g, p) && k < |order| && Got(g, h, order[..k], c, u)
    requires Reexported(g, u) && !IsLinked(g[u.index].status) && u.index in order[..k]
    ensures Root(c) == Root(g[p.index].bindings[p.slot]) <==> Passes(g, order, k, u, p)
    decreases k, 0, 0
  {
    hide Loaded, WellFormed, ModuleBound, Decider, Links, TerminalCell, LeadsTo, LeftWith, FreshImports, IsImportSlot;
    var j := OrderPosition(order[..k], u.index);
    var slot: nat :| Denotes(g, u, slot) && IsImportSlot(g[u.index], slot);
    var e := ImportEntryOf(g[u.index], slot);
    ImportHolds(g, h, order, j, e, p);
    EarlierCell(g, h, order, u, slot);
    assert ImportAt(g, order, j, u, e);
    forall i: nat, x | i < k && ImportAt(g, order, i, u, x) ensures i == j && x == e {
      SameImport(g, h, order, i, j, u, x, e);
    }
  }

  lemma SameImport(g: Graph, h: Graph, order: seq<nat>, i: nat, j: nat, u: Node, x: ImportEntry, e: ImportEntry)
    requires WholeLink(g, h, order) && ImportAt(g, order, i, u, x) && ImportAt(g, order, j, u, e)
    ensures i == j && x == e
  {
    hide Loaded, ModuleBound, Decider, FreshImports;
    assert Requested(g[u.index]);
    var a :| 0 <= a < |g[u.index].imports| && g[u.index].imports[a] == x;
    var b :| 0 <= b < |g[u.index].imports| && g[u.index].imports[b] == e;
    assert i == j;
  }

  lemma EarlierCell(g: Graph, h: Graph, order: seq<nat>, u: Node, slot: nat)
    requires WholeLink(g, h, order) && Denotes(g, u, slot) && InGraph(h, u) && TerminalCell(h, u).Some?
    ensures slot < |h[u.index].bindings| && BindingOf(h, u) == Root(h[u.index].bindings[slot])
  {
    hide Loaded, WellFormed, Links, FreshImports, ModuleBound;
    LinksStatic(g, h, order);
    StaticTerminal(g, h, u);
    TerminalKinds(h, u);
  }

  /** An import slot holds the cell of a placeholder in the end exactly when it
      was left with it. */
  lemma {:induction false} ImportHolds(g: Graph, h: Graph, order: seq<nat>, k: nat, e: ImportEntry, p: Place)
    requires WholeLink(g, h, order) && Placeholder(g, p) && k < |order| && order[k] < |g| && e in g[order[k]].imports
    ensures e.slot < |h[order[k]].bindings|
    ensures Root(h[order[k]].bindings[e.slot]) == Root(g[p.index].bindings[p.slot]) <==> LeftWith(g, order, k, e, p)
    decreases k, 1
  {
    hide Loaded, WellFormed, Decider, TerminalCell, LeadsTo, Passes, IsImportSlot, Got;
    var m := order[k];
    assert ModuleBound(g, h, order[..k], m) && BoundImport(g, h, order[..k], m, e);
    var c := h[m].bindings[e.slot];
    if e.imported.Named? {
      var n := Node(g[m].dependencies[e.request], e.imported.name);
      forall u | LeadsTo(g, n, u)
        ensures Root(c) == Root(g[p.index].bindings[p.slot]) <==> Passes(g, order, k, u, p)
      {
        TargetHolds(g, h, order, k, u, p, c);
      }
    } else {
      assert Alone(g, p);
    }
  }

  // ----- sharing, exactly -----

  /** Every name that the linked imports may stand for is in a linked module. */
  ghost predicate TargetsLinked(g: Graph, h: Graph, order: seq<nat>) {
    forall k: nat, e, t :: k < |order| && TargetOf(g, order, k, e, t) ==> t.index < |h| && IsLinked(h[t.index].status)
  }

  ghost predicate TargetOf(g: Graph, order: seq<nat>, k: nat, e: ImportEntry, t: Node) {
    && k < |order| && order[k] < |g| && e in g[order[k]].imports && e.imported.Named?
    && e.request in g[order[k]].dependencies
    && LeadsTo(g, Node(g[order[k]].dependencies[e.request], e.imported.name), t)
  }

  /** One import and one name that it may stand for. */
  lemma TargetShared(g: Graph, h: Graph, order: seq<nat>, k: nat, e: ImportEntry, t: Node)
    requires WholeLink(g, h, order) && TargetsLinked(g, h, order) && TargetOf(g, order, k, e, t)
    ensures e.slot < |h[order[k]].bindings| && InGraph(h, t) && TerminalCell(h, t).Some?
    ensures BindingOf(h, t) == Root(h[order[k]].bindings[e.slot]) <==> OnTime(g, order, k, t)
  {
    hide Loaded, WellFormed, Decider, TerminalCell, Reaches, LeftWith, IsImportSlot, FreshImports, Denotes;
    var m := order[k];
    assert ModuleBound(g, h, order[..k], m) && BoundImport(g, h, order[..k], m, e);
    var c := h[m].bindings[e.slot];
    assert Got(g, h, order[..k], c, t);
    if Late(g, order[..k], t) {
      assert IsLinked(h[t.index].status);
      LateShared(g, h, order, k, t);
    }
  }

  lemma LateShared(g: Graph, h: Graph, order: seq<nat>, k: nat, t: Node)
    requires WholeLink(g, h, order) && k < |order| && Late(g, order[..k], t) && InGraph(h, t)
    requires IsLinked(h[t.index].status)
    requires TerminalCell(g, t).Some? && TerminalCell(h, t).Some?
    ensures BindingOf(h, t) == BindingOf(g, t) <==> LoopsBack(g, order, t)
  {
    hide Loaded, WellFormed, Decider, TerminalCell, LeftWith, IsImportSlot, FreshImports, Links, ModuleBound;
    LinksSize(g, h, order);
    LinksStatus(g, h, order, t.index);
    var j := OrderPosition(order, t.index);
    var slot: nat :| Denotes(g, t, slot) && IsImportSlot(g[t.index], slot);
    SlotExists(g, t, slot);
    var e := ImportEntryOf(g[t.index], slot);
    var p := Place(t.index, slot);
    assert Placeholder(g, p);
    ImportHolds(g, h, order, j, e, p);
    EarlierCell(g, h, order, t, slot);
    TerminalKinds(g, t);
    assert ImportAt(g, order, j, t, e);
    forall i: nat, x | ImportAt(g, order, i, t, x) ensures i == j && x == e {
      SameImport(g, h, order, i, j, t, x, e);
    }
  }

  /** After a link, all imports of the modules it linked share the bindings they
      stand for if and only if the condition held before. */
  lemma SharingExactly(g: Graph, h: Graph, order: seq<nat>)
    requires WholeLink(g, h, order) && TargetsLinked(g, h, order)
    ensures SharesAll(h, order) <==> Timely(g, order)
  {
    hide Loaded, WellFormed, Decider, TerminalCell, Links, FreshImports, ModuleShares, TimelyImport;
    forall k: nat | k < |order| && order[k] < |g|
      ensures ModuleShares(h, order[k]) <==> forall e :: e in g[order[k]].imports ==> TimelyImport(g, order, k, e)
    {
      ModuleSharing(g, h, order, k);
    }
    OrderInside(g, h, order);
  }

  lemma OrderInside(g: Graph, h: Graph, order: seq<nat>)
    requires Links(g, h, order)
    ensures forall k :: 0 <= k < |order| ==> order[k] < |g|
  {
  }

  lemma ModuleSharing(g: Graph, h: Graph, order: seq<nat>, k: nat)
    requires WholeLink(g, h, order) && TargetsLinked(g, h, order) && k < |order| && order[k] < |g|
    ensures ModuleShares(h, order[k]) <==> forall e :: e in g[order[k]].imports ==> TimelyImport(g, order, k, e)
  {
    hide Loaded, WellFormed, Decider, TerminalCell, FreshImports, Shares, TimelyImport, Links, ModuleBound;
    LinksStatic(g, h, order);
    assert SameRecord(g[order[k]], h[order[k]]);
    forall e | e in g[order[k]].imports ensures Shares(h, order[k], e) <==> TimelyImport(g, order, k, e) {
      ImportSharing(g, h, order, k, e);
    }
  }

  lemma ImportSharing(g: Graph, h: Graph, order: seq<nat>, k: nat, e: ImportEntry)
    requires WholeLink(g, h, order) && TargetsLinked(g, h, order) && k < |order| && order[k] < |g|
    requires e in g[order[k]].imports
    ensures Shares(h, order[k], e) <==> TimelyImport(g, order, k, e)
  {
    hide Loaded, WellFormed, Decider, TerminalCell, Reaches, FreshImports, OnTime, SameStatic, Resolved, TargetsLinked;
    LinksStatic(g, h, order);
    var m := order[k];
    assert ModuleBound(g, h, order[..k], m) && BoundImport(g, h, order[..k], m, e);
    RecordKept(g, h, m);
    if e.imported.Named? {
      var n := Node(g[m].dependencies[e.request], e.imported.name);
      StaticBack(g, h);
      forall t ensures LeadsTo(g, n, t) <==> LeadsTo(h, n, t) {
        TargetsKept(g, h, n, t);
      }
      forall t | LeadsTo(g, n, t)
        ensures BindingOf(h, t) == Root(h[m].bindings[e.slot]) <==> OnTime(g, order, k, t)
      {
        TargetShared(g, h, order, k, e, t);
      }
    }
  }

  lemma RecordKept(g: Graph, h: Graph, i: nat)
    requires SameStatic(g, h) && i < |g|
    ensures |g| == |h| && SameRecord(g[i], h[i])
  {
  }

  lemma TargetsKept(g: Graph, h: Graph, n: Node, t: Node)
    requires SameStatic(g, h) && SameStatic(h, g) && Loaded(g) && Loaded(h)
    ensures LeadsTo(g, n, t) <==> LeadsTo(h, n, t)
  {
    hide LeadsTo, SameStatic, Loaded;
    if LeadsTo(g, n, t) {
      StaticTargets(g, h, n, t);
    }
    if LeadsTo(h, n, t) {
      StaticTargets(h, g, n, t);
    }
  }
}
