/** The dependency structure that linking walks, and what linking may change. */
module LinkGraph {
  import opened Syntax
  import opened Cells
  import opened ModuleGraphs
  import opened ExportResolution

  /** A module that an earlier link has completed. */
  predicate IsLinked(s: Status) {
    s == Linked || s == Evaluating || s == EvaluatingAsync || s == Evaluated
  }

  ghost predicate IsImportSlot(m: RuntimeModule, slot: nat) {
    exists i :: 0 <= i < |m.imports| && m.imports[i].slot == slot
  }

  /** Loaded, with every module named in an import or export requested, and
      one slot for each import. */
  ghost predicate WellFormed(g: Graph) {
    Loaded(g) && forall i :: 0 <= i < |g| ==> Requested(g[i])
  }

  ghost predicate Requested(m: RuntimeModule) {
    && (forall x :: 0 <= x < |m.imports| ==> m.imports[x].request in m.requests)
    && (forall x :: 0 <= x < |m.exports| && !m.exports[x].Local? ==> m.exports[x].request in m.requests)
    && (forall x, y :: 0 <= x < y < |m.imports| ==> m.imports[x].slot != m.imports[y].slot)
  }

  // ----- dependencies -----

  ghost predicate DepEdge(g: Graph, i: nat, j: nat)
    requires Loaded(g) && i < |g|
  {
    exists r :: r in g[i].requests && g[i].dependencies[r] == j
  }

  ghost predicate DepPath(g: Graph, p: seq<nat>) {
    && Loaded(g) && |p| > 0 && (forall x :: 0 <= x < |p| ==> p[x] < |g|)
    && (forall x :: 0 <= x < |p| - 1 ==> DepEdge(g, p[x], p[x + 1]))
  }

  ghost predicate DepReaches(g: Graph, i: nat, j: nat) {
    exists p :: DepPath(g, p) && p[0] == i && p[|p| - 1] == j
  }

  lemma DepSelf(g: Graph, i: nat)
    requires Loaded(g) && i < |g|
    ensures DepReaches(g, i, i)
  {
    assert DepPath(g, [i]);
  }

  lemma DepTrans(g: Graph, i: nat, j: nat, k: nat)
    requires DepReaches(g, i, j) && DepReaches(g, j, k)
    ensures DepReaches(g, i, k)
  {
    hide DepEdge, Loaded;
    var p: seq<nat> :| DepPath(g, p) && p[0] == i && p[|p| - 1] == j;
    var q: seq<nat> :| DepPath(g, q) && q[0] == j && q[|q| - 1] == k;
    var r := p + q[1..];
    forall x | 0 <= x < |r| - 1 ensures DepEdge(g, r[x], r[x + 1]) {
      if x < |p| - 1 {
        assert r[x] == p[x] && r[x + 1] == p[x + 1];
      } else {
        var y := x - (|p| - 1);
        assert r[x] == q[y] && r[x + 1] == q[y + 1];
      }
    }
    assert DepPath(g, r);
    assert r[|r| - 1] == k;
  }

  lemma DepStep(g: Graph, i: nat, j: nat)
    requires Loaded(g) && i < |g| && j < |g| && DepEdge(g, i, j)
    ensures DepReaches(g, i, j)
  {
    assert DepPath(g, [i, j]);
  }

  /** An export is looked for only in dependencies. */
  lemma EdgeDepends(g: Graph, a: Node, b: Node)
    requires WellFormed(g) && InGraph(g, a) && InGraph(g, b) && Edge(g, a, b)
    ensures DepEdge(g, a.index, b.index)
  {
    var m := g[a.index];
    var e: ExportEntry;
    if Decider(g, a).Some? {
      e := Decider(g, a).value;
    } else {
      e :| e in m.exports && e.Star? && m.dependencies[e.request] == b.index;
    }
    var x :| 0 <= x < |m.exports| && m.exports[x] == e;
    assert Requested(m) && e.request in m.requests;
  }

  lemma {:induction false} PathDepends(g: Graph, p: seq<Node>, x: nat)
    requires WellFormed(g) && Path(g, p) && x < |p|
    ensures DepReaches(g, p[0].index, p[x].index)
    decreases x
  {
    hide Edge, DepReaches;
    if x == 0 {
      DepSelf(g, p[0].index);
    } else {
      PathDepends(g, p, x - 1);
      EdgeDepends(g, p[x - 1], p[x]);
      DepStep(g, p[x - 1].index, p[x].index);
      DepTrans(g, p[0].index, p[x - 1].index, p[x].index);
    }
  }

  lemma TargetDepends(g: Graph, n: Node, t: Node)
    requires WellFormed(g) && LeadsTo(g, n, t)
    ensures DepReaches(g, n.index, t.index)
  {
    hide Edge, DepReaches;
    var p :| Path(g, p) && p[0] == n && p[|p| - 1] == t;
    PathDepends(g, p, |p| - 1);
  }

  // ----- what linking may change -----

  ghost predicate SameRecord(a: RuntimeModule, b: RuntimeModule) {
    && a.requests == b.requests && a.dependencies == b.dependencies && a.imports == b.imports
    && a.exports == b.exports && a.namespaceCell == b.namespaceCell && a.sourceCell == b.sourceCell
    && |a.bindings| == |b.bindings|
  }

  /** Only statuses and bindings differ. */
  ghost predicate SameStatic(g: Graph, h: Graph) {
    |g| == |h| && forall i :: 0 <= i < |g| ==> SameRecord(g[i], h[i])
  }

  lemma StaticLoaded(g: Graph, h: Graph)
    requires SameStatic(g, h) && Loaded(g)
    ensures Loaded(h)
  {
    hide LoadedExport;
    forall i | 0 <= i < |h| ensures LoadedModule(h[i], |h|) {
      assert SameRecord(g[i], h[i]) && LoadedModule(g[i], |g|);
      forall x | 0 <= x < |h[i].exports| ensures LoadedExport(h[i].exports[x], h[i]) {
        LoadedSame(h[i].exports[x], g[i], h[i]);
      }
    }
  }

  lemma LoadedSame(e: ExportEntry, a: RuntimeModule, b: RuntimeModule)
    requires SameRecord(a, b) && LoadedExport(e, a)
    ensures LoadedExport(e, b)
  {
  }

  lemma StaticWellFormed(g: Graph, h: Graph)
    requires SameStatic(g, h) && WellFormed(g)
    ensures WellFormed(h)
  {
    StaticLoaded(g, h);
    forall i | 0 <= i < |h| ensures Requested(h[i]) {
      assert SameRecord(g[i], h[i]) && Requested(g[i]);
    }
  }

  lemma StaticEdges(g: Graph, h: Graph)
    requires SameStatic(g, h) && Loaded(g)
    ensures Loaded(h)
    ensures forall i: nat, j: nat :: i < |g| ==> (DepEdge(g, i, j) <==> DepEdge(h, i, j))
    ensures forall a, b :: InGraph(g, a) ==> (Edge(g, a, b) <==> Edge(h, a, b))
  {
    hide LoadedModule, FirstNamed;
    StaticLoaded(g, h);
    forall i: nat, j: nat | i < |g| ensures DepEdge(g, i, j) <==> DepEdge(h, i, j) {
      assert SameRecord(g[i], h[i]);
    }
    forall a, b | InGraph(g, a) ensures Edge(g, a, b) <==> Edge(h, a, b) {
      assert SameRecord(g[a.index], h[a.index]);
    }
  }

  lemma StaticTargets(g: Graph, h: Graph, n: Node, t: Node)
    requires SameStatic(g, h) && Loaded(g) && LeadsTo(g, n, t)
    ensures LeadsTo(h, n, t)
  {
    hide Edge, Loaded, LoadedModule;
    StaticEdges(g, h);
    var p :| Path(g, p) && p[0] == n && p[|p| - 1] == t;
    assert Path(h, p);
    assert SameRecord(g[t.index], h[t.index]);
  }

  lemma StaticBack(g: Graph, h: Graph)
    requires SameStatic(g, h)
    ensures SameStatic(h, g)
  {
    forall i | 0 <= i < |h| ensures SameRecord(h[i], g[i]) {
      assert SameRecord(g[i], h[i]);
    }
  }
}
