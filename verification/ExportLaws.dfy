/** Laws of export resolution, read off the export entries of one module: what a
    name stands for when an entry names it, and when only stars are left. */
module ExportLaws {
  import opened Syntax
  import opened Cells
  import opened ModuleGraphs
  import opened ExportResolution
  import opened Namespaces

  /** A name leads to what its own module decides, or on along one edge. */
  lemma LeadsOn(g: Graph, a: Node, t: Node)
    requires InGraph(g, a)
    ensures LeadsTo(g, a, t)
            <==> (t == a && TerminalCell(g, a).Some?) || exists b :: Edge(g, a, b) && LeadsTo(g, b, t)
  {
    hide TerminalCell, Edge;
    if LeadsTo(g, a, t) {
      var p :| Path(g, p) && p[0] == a && p[|p| - 1] == t;
      if |p| > 1 {
        PathTail(g, p);
        assert Edge(g, a, p[1]) && LeadsTo(g, p[1], t);
      }
    }
    if t == a {
      ReachesSelf(g, a);
    }
    forall b | Edge(g, a, b) && LeadsTo(g, b, t) ensures LeadsTo(g, a, t) {
      EdgeThen(g, a, b, t);
    }
  }

  lemma PathTail(g: Graph, p: seq<Node>)
    requires Path(g, p) && |p| > 1
    ensures Reaches(g, p[1], p[|p| - 1])
  {
    hide Edge;
    var q := p[1..];
    forall i | 0 <= i < |q| - 1 ensures Edge(g, q[i], q[i + 1]) {
      assert Edge(g, p[i + 1], p[i + 2]);
    }
    assert Path(g, q) && q[0] == p[1] && q[|q| - 1] == p[|p| - 1];
  }

  /** The first entry that names it decides. */
  lemma FirstDecides(exports: seq<ExportEntry>, k: nat, name: string)
    requires k < |exports| && !exports[k].Star? && exports[k].exported == name && Unnamed(exports[..k], name)
    ensures FirstNamed(exports, name) == Some(exports[k])
  {
    var r := FirstNamed(exports, name);
    assert exports[k] in exports;
    var j :| 0 <= j < |exports| && exports[j] == r.value && Unnamed(exports[..j], name);
    InPrefix(exports, j);
    InPrefix(exports, k);
  }

  lemma InPrefix(exports: seq<ExportEntry>, j: nat)
    ensures forall k :: j < k <= |exports| ==> exports[j] in exports[..k]
  {
    forall k | j < k <= |exports| ensures exports[j] in exports[..k] {
      assert exports[..k][j] == exports[j];
    }
  }

  /** What a name stands for that the entry at `k` is the first to name: a
      variable of the module, the namespace of another one, or whatever the
      imported name stands for there. */
  lemma NamedExport(g: Graph, i: nat, k: nat)
    requires Loaded(g) && i < |g| && k < |g[i].exports| && !g[i].exports[k].Star?
    requires Unnamed(g[i].exports[..k], g[i].exports[k].exported)
    ensures var n := Node(i, g[i].exports[k].exported);
            match g[i].exports[k]
            case Local(_, slot) =>
              (forall t :: LeadsTo(g, n, t) <==> t == n) && BindingOf(g, n) == Root(g[i].bindings[slot])
            case Namespace(_, request) =>
              (forall t :: LeadsTo(g, n, t) <==> t == n)
              && BindingOf(g, n) == Root(g[g[i].dependencies[request]].namespaceCell)
            case Indirect(_, request, imported) =>
              forall t :: LeadsTo(g, n, t) <==> LeadsTo(g, Node(g[i].dependencies[request], imported), t)
  {
    hide LeadsTo, FirstNamed;
    var n := Node(i, g[i].exports[k].exported);
    FirstDecides(g[i].exports, k, n.name);
    assert LoadedExport(g[i].exports[k], g[i]);
    forall t ensures LeadsTo(g, n, t)
                     <==> (t == n && TerminalCell(g, n).Some?) || exists b :: Edge(g, n, b) && LeadsTo(g, b, t)
    {
      LeadsOn(g, n, t);
    }
    if g[i].exports[k].Indirect? {
      var b := Node(g[i].dependencies[g[i].exports[k].request], g[i].exports[k].imported);
      assert forall c :: Edge(g, n, c) <==> c == b;
    }
  }

  /** A name that no entry names stands for what the starred modules make of it;
      `default` is never starred. */
  lemma StarredExport(g: Graph, i: nat, name: string)
    requires Loaded(g) && i < |g| && Unnamed(g[i].exports, name)
    ensures forall t :: LeadsTo(g, Node(i, name), t)
              <==> name != "default" && exists j: nat :: StarEdge(g, i, j) && LeadsTo(g, Node(j, name), t)
  {
    hide LeadsTo, FirstNamed, StarEdge;
    var n := Node(i, name);
    assert FirstNamed(g[i].exports, name).None?;
    forall t ensures LeadsTo(g, n, t)
                     <==> name != "default" && exists j: nat :: StarEdge(g, i, j) && LeadsTo(g, Node(j, name), t)
    {
      LeadsOn(g, n, t);
      forall b | Edge(g, n, b) ensures b == Node(b.index, name) && StarEdge(g, i, b.index) && name != "default" {
      }
      forall j: nat | name != "default" && StarEdge(g, i, j) ensures Edge(g, n, Node(j, name)) {
      }
    }
  }

  /** The names of a module: those of its entries, and without `default` those
      of the modules it stars. */
  lemma OfferedNames(g: Graph, i: nat, name: string)
    requires Loaded(g) && i < |g|
    ensures Offers(g, i, name)
            <==> !Unnamed(g[i].exports, name)
                 || (name != "default" && exists j: nat :: StarEdge(g, i, j) && j < |g| && Offers(g, j, name))
  {
    hide StarEdge, StarReaches;
    assert name in OwnNames(g[i]) <==> !Unnamed(g[i].exports, name);
    if name != "default" {
      forall k: nat | StarOffers(g, i, k, name) && name !in OwnNames(g[i])
        ensures exists j: nat :: StarEdge(g, i, j) && j < |g| && Offers(g, j, name)
      {
        var j := StarFirst(g, i, k);
        assert StarOffers(g, j, k, name);
      }
      forall j: nat | StarEdge(g, i, j) && j < |g| && Offers(g, j, name) ensures Offers(g, i, name) {
        OfferedAbove(g, i, j, name);
      }
    }
  }

  lemma OfferedAbove(g: Graph, i: nat, j: nat, name: string)
    requires Loaded(g) && i < |g| && j < |g| && StarEdge(g, i, j) && name != "default" && Offers(g, j, name)
    ensures Offers(g, i, name)
  {
    hide StarEdge, StarReaches;
    StarReachesSelf(g, j);
    var k: nat := j;
    if name !in OwnNames(g[j]) {
      k :| StarOffers(g, j, k, name);
    }
    StarThen(g, i, j, k);
    assert StarOffers(g, i, k, name);
  }

  lemma StarFirst(g: Graph, i: nat, k: nat) returns (j: nat)
    requires Loaded(g) && i < |g| && StarReaches(g, i, k) && k != i
    ensures StarEdge(g, i, j) && j < |g| && StarReaches(g, j, k)
  {
    hide StarEdge;
    var p :| StarPath(g, p) && p[0] == i && p[|p| - 1] == k;
    j := p[1];
    var q := p[1..];
    forall x | 0 <= x < |q| - 1 ensures StarEdge(g, q[x], q[x + 1]) {
      assert StarEdge(g, p[x + 1], p[x + 2]);
    }
    assert StarPath(g, q) && q[0] == j && q[|q| - 1] == k;
  }
}
