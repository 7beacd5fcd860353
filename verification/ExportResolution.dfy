/** Export resolution over cyclic module graphs. The depth-first search with
    one shared set of visited (module, name) pairs decides which binding an
    export name denotes. */
module ExportResolution {
  import opened Syntax
  import opened Cells
  import opened ModuleGraphs

  datatype Node = Node(index: nat, name: string)

  // ----- the declarative reading -----

  /** The entry that decides an export name: the first one that names it. */
  function FirstNamed(exports: seq<ExportEntry>, name: string): (r: Option<ExportEntry>)
    ensures r.Some? ==> r.value in exports && !r.value.Star? && r.value.exported == name
    ensures r.None? <==> forall e :: e in exports && !e.Star? ==> e.exported != name
    ensures r.Some? ==> exists k :: 0 <= k < |exports| && exports[k] == r.value && Unnamed(exports[..k], name)
  {
    if exports == [] then None
    else if !exports[0].Star? && exports[0].exported == name then
      assert Unnamed(exports[..0], name);
      Some(exports[0])
    else
      assert forall k: nat :: k < |exports| - 1 ==> exports[..k + 1] == [exports[0]] + exports[1..][..k];
      FirstNamed(exports[1..], name)
  }

  ghost predicate Unnamed(exports: seq<ExportEntry>, name: string) {
    forall e :: e in exports && !e.Star? ==> e.exported != name
  }

  function Decider(g: Graph, n: Node): Option<ExportEntry>
    requires n.index < |g|
  {
    FirstNamed(g[n.index].exports, n.name)
  }

  ghost predicate InGraph(g: Graph, n: Node) {
    Loaded(g) && n.index < |g|
  }

  /** The cell of a name that is decided by its own module. */
  function TerminalCell(g: Graph, n: Node): Option<Cell>
    requires InGraph(g, n)
  {
    match Decider(g, n)
    case Some(Local(_, slot)) => Some(g[n.index].bindings[slot])
    case Some(Namespace(_, request)) => Some(g[g[n.index].dependencies[request]].namespaceCell)
    case _ => None
  }

  /** Where a name is looked for next: one module for an indirect export, all
      starred modules for a name that no entry decides. `default` is never
      starred. */
  ghost predicate Edge(g: Graph, a: Node, b: Node)
    requires InGraph(g, a)
  {
    match Decider(g, a)
    case Some(Indirect(_, request, imported)) => b == Node(g[a.index].dependencies[request], imported)
    case Some(_) => false
    case None => a.name != "default" && b.name == a.name && StarEdge(g, a.index, b.index)
  }

  ghost predicate StarEdge(g: Graph, i: nat, j: nat)
    requires Loaded(g) && i < |g|
  {
    exists e :: e in g[i].exports && e.Star? && g[i].dependencies[e.request] == j
  }

  ghost predicate Path(g: Graph, p: seq<Node>) {
    && |p| > 0 && (forall i :: 0 <= i < |p| ==> InGraph(g, p[i]))
    && (forall i :: 0 <= i < |p| - 1 ==> Edge(g, p[i], p[i + 1]))
  }

  ghost predicate Reaches(g: Graph, a: Node, b: Node) {
    exists p :: Path(g, p) && p[0] == a && p[|p| - 1] == b
  }

  /** A name that `a` may stand for and that its own module decides. */
  ghost predicate LeadsTo(g: Graph, a: Node, t: Node) {
    Reaches(g, a, t) && InGraph(g, t) && TerminalCell(g, t).Some?
  }

  /** The binding that a decided name stands for. */
  function BindingOf(g: Graph, t: Node): Binding
    requires InGraph(g, t) && TerminalCell(g, t).Some?
  {
    Root(TerminalCell(g, t).value)
  }

  lemma ReachesSelf(g: Graph, a: Node)
    requires InGraph(g, a)
    ensures Reaches(g, a, a)
  {
    assert Path(g, [a]);
  }

  lemma EdgeThen(g: Graph, a: Node, b: Node, c: Node)
    requires InGraph(g, a) && Edge(g, a, b) && Reaches(g, b, c)
    ensures Reaches(g, a, c)
  {
    var p :| Path(g, p) && p[0] == b && p[|p| - 1] == c;
    var q := [a] + p;
    assert forall i :: 0 < i < |q| ==> q[i] == p[i - 1];
    forall i | 0 <= i < |q| - 1 ensures Edge(g, q[i], q[i + 1]) {
      if i > 0 {
        assert Edge(g, p[i - 1], p[i]);
      }
    }
    assert Path(g, q);
  }

  // ----- the search -----

  datatype Resolution = NotFound | Found(cell: Cell) | Ambiguous

  /** A finite set of nodes that the search cannot leave. */
  ghost predicate Closed(g: Graph, u: set<Node>) {
    forall a :: a in u ==> InGraph(g, a) && forall b :: Edge(g, a, b) ==> b in u
  }

  ghost predicate SameRoots(g: Graph, nodes: set<Node>, b: Binding) {
    forall t :: t in nodes && InGraph(g, t) && TerminalCell(g, t).Some? ==> BindingOf(g, t) == b
  }

  ghost predicate NoTerminal(g: Graph, nodes: set<Node>) {
    forall t :: t in nodes && InGraph(g, t) ==> TerminalCell(g, t).None?
  }

  ghost predicate SomeTerminal(g: Graph, nodes: set<Node>) {
    exists t :: t in nodes && InGraph(g, t) && TerminalCell(g, t).Some?
  }

  /** What the nodes visited by a search say about its result. */
  ghost predicate Agrees(g: Graph, nodes: set<Node>, r: Resolution) {
    match r
    case NotFound => NoTerminal(g, nodes)
    case Found(c) => SomeTerminal(g, nodes) && SameRoots(g, nodes, Root(c))
    case Ambiguous => false
  }

  /** Two different bindings are reachable. */
  ghost predicate Conflict(g: Graph, a: Node) {
    exists s, t :: LeadsTo(g, a, s) && LeadsTo(g, a, t) && BindingOf(g, s) != BindingOf(g, t)
  }

  ghost predicate AllReached(g: Graph, a: Node, nodes: set<Node>) {
    forall n :: n in nodes ==> InGraph(g, n) && Reaches(g, a, n)
  }

  ghost predicate EdgesInto(g: Graph, nodes: set<Node>, into: set<Node>) {
    forall a, b :: a in nodes && InGraph(g, a) && Edge(g, a, b) ==> b in into
  }

  /** What a search from `a` that had visited `before` and now has visited
      `after` has established. */
  ghost predicate Searched(g: Graph, a: Node, before: set<Node>, after: set<Node>, r: Resolution) {
    && before <= after && a in after
    && AllReached(g, a, after - before)
    && EdgesInto(g, after - before, after)
    && Agrees(g, after - before, r)
  }

  lemma ConflictFrom(g: Graph, a: Node, b: Node)
    requires InGraph(g, a) && Edge(g, a, b) && Conflict(g, b)
    ensures Conflict(g, a)
  {
    hide Reaches, TerminalCell, Edge;
    var s, t :| LeadsTo(g, b, s) && LeadsTo(g, b, t) && BindingOf(g, s) != BindingOf(g, t);
    EdgeThen(g, a, b, s);
    EdgeThen(g, a, b, t);
  }

  /** A name decided by its own module, visited for the first time. */
  lemma TerminalSearched(g: Graph, n: Node, visited: set<Node>, c: Cell)
    requires InGraph(g, n) && n !in visited && TerminalCell(g, n).Some?
    requires Root(c) == BindingOf(g, n)
    ensures Searched(g, n, visited, visited + {n}, Found(c))
  {
    hide Reaches;
    ReachesSelf(g, n);
    assert visited + {n} - visited == {n};
  }

  /** An indirect export hands on what the search of its target found. */
  lemma IndirectSearched(g: Graph, n: Node, b: Node, visited: set<Node>, seen: set<Node>, r: Resolution)
    requires InGraph(g, n) && n !in visited && TerminalCell(g, n).None? && Edge(g, n, b)
    requires Decider(g, n).Some? && Decider(g, n).value.Indirect?
    requires Searched(g, b, visited + {n}, seen, r)
    ensures Searched(g, n, visited, seen, r)
  {
    hide Reaches, InGraph, TerminalCell, BindingOf, Decider;
    IndirectOnly(g, n, b);
    var added := seen - (visited + {n});
    assert seen - visited == added + {n};
    ReachesSelf(g, n);
    forall m | m in added ensures Reaches(g, n, m) {
      EdgeThen(g, n, b, m);
    }
  }

  lemma IndirectOnly(g: Graph, n: Node, b: Node)
    requires InGraph(g, n) && Edge(g, n, b) && Decider(g, n).Some?
    ensures forall c :: Edge(g, n, c) ==> c == b
  {
  }

  // ----- stars -----

  /** The search of an undecided name after its first `i` export entries. */
  ghost predicate Progress(g: Graph, n: Node, i: nat, visited: set<Node>, seen: set<Node>, acc: Resolution)
    requires InGraph(g, n) && i <= |g[n.index].exports|
  {
    && visited + {n} <= seen
    && AllReached(g, n, seen - visited)
    && EdgesInto(g, seen - visited - {n}, seen)
    && (forall j :: 0 <= j < i && g[n.index].exports[j].Star? ==>
          Node(g[n.index].dependencies[g[n.index].exports[j].request], n.name) in seen)
    && Agrees(g, seen - visited, acc)
  }

  lemma ProgressStart(g: Graph, n: Node, visited: set<Node>)
    requires InGraph(g, n) && n !in visited && TerminalCell(g, n).None?
    ensures Progress(g, n, 0, visited, visited + {n}, NotFound)
  {
    hide Reaches;
    ReachesSelf(g, n);
    assert visited + {n} - visited == {n};
    assert {n} - {n} == {};
  }

  /** What two results amount to when their bindings agree. */
  function Merge(acc: Resolution, r: Resolution): Resolution {
    match (acc, r)
    case (NotFound, _) => r
    case (_, NotFound) => acc
    case (Found(p), Found(c)) => if PtrEq(p, c) then acc else Ambiguous
    case (_, _) => Ambiguous
  }

  lemma ProgressNext(g: Graph, n: Node, i: nat, visited: set<Node>, seen: set<Node>, acc: Resolution, b: Node,
                     seen': set<Node>, r: Resolution)
    requires InGraph(g, n) && i < |g[n.index].exports| && Progress(g, n, i, visited, seen, acc)
    requires g[n.index].exports[i].Star? && Edge(g, n, b)
    requires b == Node(g[n.index].dependencies[g[n.index].exports[i].request], n.name)
    requires Searched(g, b, seen, seen', r)
    ensures Merge(acc, r).Ambiguous? ==> Conflict(g, n)
    ensures !Merge(acc, r).Ambiguous? ==> Progress(g, n, i + 1, visited, seen', Merge(acc, r))
  {
    hide Reaches, Conflict, Edge, TerminalCell, BindingOf;
    hide Agrees;
    var old_, new_ := seen - visited, seen' - seen;
    assert seen' - visited == old_ + new_;
    assert seen' - visited - {n} == (old_ - {n}) + new_;
    forall m | m in new_ ensures Reaches(g, n, m) {
      EdgeThen(g, n, b, m);
    }
    assert AllReached(g, n, old_ + new_);
    MergeAgrees(g, n, old_, new_, acc, r);
  }

  lemma MergeAgrees(g: Graph, n: Node, a: set<Node>, b: set<Node>, acc: Resolution, r: Resolution)
    requires Agrees(g, a, acc) && Agrees(g, b, r) && AllReached(g, n, a + b)
    ensures Merge(acc, r).Ambiguous? ==> Conflict(g, n)
    ensures !Merge(acc, r).Ambiguous? ==> Agrees(g, a + b, Merge(acc, r))
  {
    hide Reaches, TerminalCell, BindingOf;
    if acc.Found? && r.Found? {
      PtrEqRoot(acc.cell, r.cell);
      var s :| s in a && InGraph(g, s) && TerminalCell(g, s).Some?;
      var t :| t in b && InGraph(g, t) && TerminalCell(g, t).Some?;
      assert LeadsTo(g, n, s) && LeadsTo(g, n, t);
    }
  }

  lemma ProgressSkip(g: Graph, n: Node, i: nat, visited: set<Node>, seen: set<Node>, acc: Resolution)
    requires InGraph(g, n) && i < |g[n.index].exports| && Progress(g, n, i, visited, seen, acc)
    requires !g[n.index].exports[i].Star?
    ensures Progress(g, n, i + 1, visited, seen, acc)
  {
  }

  lemma ProgressEnd(g: Graph, n: Node, visited: set<Node>, seen: set<Node>, acc: Resolution)
    requires InGraph(g, n) && Decider(g, n).None? && Progress(g, n, |g[n.index].exports|, visited, seen, acc)
    ensures Searched(g, n, visited, seen, acc)
  {
    hide Agrees, AllReached, TerminalCell, FirstNamed;
    forall a, b | a in seen - visited && InGraph(g, a) && Edge(g, a, b) ensures b in seen {
      if a == n {
        var e :| e in g[n.index].exports && e.Star? && g[n.index].dependencies[e.request] == b.index;
        var j :| 0 <= j < |g[n.index].exports| && g[n.index].exports[j] == e;
        assert b == Node(g[n.index].dependencies[e.request], n.name);
      } else {
        assert a in seen - visited - {n};
      }
    }
  }

  // ----- the method -----

  ghost predicate NoSource(g: Graph, b: Binding) {
    forall i :: 0 <= i < |g| ==> Root(g[i].sourceCell) != b
  }

  /** A cell of a module object is handed out as it is and not through a view. */
  ghost predicate AtSource(g: Graph, c: Cell) {
    NoSource(g, Root(c)) || exists i :: 0 <= i < |g| && (c == g[i].sourceCell || c == g[i].namespaceCell)
  }

  /** Some module's source cell, when the cell is a view of it. */
  method FindModuleSourceCell(g: Graph, cell: Cell) returns (r: Option<Cell>)
    ensures r.Some? ==> Root(r.value) == Root(cell) && exists i :: 0 <= i < |g| && r.value == g[i].sourceCell
    ensures r.None? ==> NoSource(g, Root(cell))
  {
    var i := 0;
    while i < |g|
      invariant 0 <= i <= |g| && forall j :: 0 <= j < i ==> Root(g[j].sourceCell) != Root(cell)
    {
      PtrEqRoot(cell, g[i].sourceCell);
      if PtrEq(cell, g[i].sourceCell) {
        return Some(g[i].sourceCell);
      }
      i := i + 1;
    }
    return None;
  }

  method FindDecider(g: Graph, n: Node) returns (r: Option<ExportEntry>)
    requires InGraph(g, n)
    ensures r == Decider(g, n)
  {
    var exports := g[n.index].exports;
    var i := 0;
    while i < |exports|
      invariant 0 <= i <= |exports| && FirstNamed(exports[i..], n.name) == Decider(g, n)
    {
      if !exports[i].Star? && exports[i].exported == n.name {
        return Some(exports[i]);
      }
      assert exports[i..][1..] == exports[i + 1..];
      i := i + 1;
    }
    return None;
  }

  /** The search, threading the set of visited pairs. `u` bounds it. */
  method Search(g: Graph, n: Node, visited: set<Node>, ghost u: set<Node>) returns (r: Resolution, seen: set<Node>)
    requires InGraph(g, n) && Closed(g, u) && n in u && visited <= u
    ensures seen <= u && (r.Found? ==> AtSource(g, r.cell))
    ensures r.Ambiguous? ==> Conflict(g, n)
    ensures !r.Ambiguous? ==> Searched(g, n, visited, seen, r)
    decreases u - visited, 1
  {
    hide Reaches, Conflict, Searched;
    if n in visited {
      VisitedSearched(g, n, visited);
      return NotFound, visited;
    }
    seen := visited + {n};
    assert u - seen < u - visited by {
      assert n in u - visited && n !in u - seen;
    }
    var m := g[n.index];
    var decider := FindDecider(g, n);
    match decider
    case Some(Local(_, slot)) =>
      var source := FindModuleSourceCell(g, m.bindings[slot]);
      r := Found(if source.Some? then source.value else m.bindings[slot]);
      TerminalSearched(g, n, visited, r.cell);
    case Some(Namespace(_, request)) =>
      r := Found(g[m.dependencies[request]].namespaceCell);
      TerminalSearched(g, n, visited, r.cell);
    case Some(Indirect(_, request, imported)) =>
      var b := Node(m.dependencies[request], imported);
      assert Edge(g, n, b);
      r, seen := Search(g, b, seen, u);
      if r.Ambiguous? {
        ConflictFrom(g, n, b);
      } else {
        IndirectSearched(g, n, b, visited, seen, r);
      }
    case None =>
      ProgressStart(g, n, visited);
      if n.name == "default" {
        DefaultSearched(g, n, visited);
        return NotFound, seen;
      }
      r, seen := SearchStars(g, n, visited, u);
  }

  lemma VisitedSearched(g: Graph, n: Node, visited: set<Node>)
    requires n in visited
    ensures Searched(g, n, visited, visited, NotFound)
  {
    assert visited - visited == {};
  }

  lemma DefaultSearched(g: Graph, n: Node, visited: set<Node>)
    requires InGraph(g, n) && n !in visited && Decider(g, n).None? && n.name == "default"
    ensures Searched(g, n, visited, visited + {n}, NotFound)
  {
    hide Reaches;
    ReachesSelf(g, n);
    assert visited + {n} - visited == {n};
  }

  /** The starred modules, in order. */
  method SearchStars(g: Graph, n: Node, visited: set<Node>, ghost u: set<Node>) returns (r: Resolution, seen: set<Node>)
    requires InGraph(g, n) && Closed(g, u) && n in u && visited <= u && n !in visited
    requires Decider(g, n).None? && n.name != "default" && Progress(g, n, 0, visited, visited + {n}, NotFound)
    ensures seen <= u && (r.Found? ==> AtSource(g, r.cell))
    ensures r.Ambiguous? ==> Conflict(g, n)
    ensures !r.Ambiguous? ==> Searched(g, n, visited, seen, r)
    decreases u - visited, 0
  {
    hide Reaches, Conflict, Searched, Progress, Agrees;
    var m := g[n.index];
    r, seen := NotFound, visited + {n};
    var i := 0;
    while i < |m.exports|
      invariant 0 <= i <= |m.exports| && visited + {n} <= seen <= u
      invariant !r.Ambiguous? && Progress(g, n, i, visited, seen, r) && (r.Found? ==> AtSource(g, r.cell))
    {
      if m.exports[i].Star? {
        var b := Node(m.dependencies[m.exports[i].request], n.name);
        assert Edge(g, n, b);
        assert u - seen < u - visited by {
          assert n in u - visited && n !in u - seen;
        }
        var found, next := Search(g, b, seen, u);
        if found.Ambiguous? {
          ConflictFrom(g, n, b);
          return found, next;
        }
        ProgressNext(g, n, i, visited, seen, r, b, next, found);
        SearchedGrows(g, b, seen, next, found);
        var merged := Merge(r, found);
        r, seen := merged, next;
        if merged.Ambiguous? {
          return;
        }
      } else {
        ProgressSkip(g, n, i, visited, seen, r);
      }
      i := i + 1;
    }
    ProgressEnd(g, n, visited, seen, r);
  }

  lemma SearchedGrows(g: Graph, n: Node, visited: set<Node>, seen: set<Node>, r: Resolution)
    requires Searched(g, n, visited, seen, r)
    ensures visited <= seen
  {
  }

  // ----- exactness -----

  /** The names that a search for `name` can meet. */
  function Names(g: Graph, name: string): set<string> {
    {name} + set i, e | 0 <= i < |g| && e in g[i].exports && e.Indirect? :: e.imported
  }

  function Universe(g: Graph, name: string): set<Node> {
    set i, s | 0 <= i < |g| && s in Names(g, name) :: Node(i, s)
  }

  lemma UniverseClosed(g: Graph, index: nat, name: string)
    requires Loaded(g) && index < |g|
    ensures Closed(g, Universe(g, name)) && Node(index, name) in Universe(g, name)
  {
    hide FirstNamed;
    var u := Universe(g, name);
    forall a, b | a in u && Edge(g, a, b) ensures b in u {
      var m := g[a.index];
      if Decider(g, a).Some? {
        var e := Decider(g, a).value;
        assert e in m.exports && LoadedExport(e, m);
      } else {
        var e :| e in m.exports && e.Star? && m.dependencies[e.request] == b.index;
        assert LoadedExport(e, m);
      }
    }
  }

  lemma {:induction false} PathStays(g: Graph, p: seq<Node>, nodes: set<Node>, i: nat)
    requires Path(g, p) && p[0] in nodes && EdgesInto(g, nodes, nodes) && i < |p|
    ensures p[i] in nodes
    decreases i
  {
    if i > 0 {
      PathStays(g, p, nodes, i - 1);
      assert Edge(g, p[i - 1], p[i]);
    }
  }

  /** `resolve_export` decides what the export rules say: nothing when no
      decided name is reachable, a binding when all reachable decided names
      share it, an ambiguity when two of them differ. A cell of a module object
      is found itself, not a view of it. */
  method ResolveExport(g: Graph, index: nat, name: string) returns (r: Resolution)
    requires Loaded(g) && index < |g|
    ensures Decides(g, Node(index, name), r) && (r.Found? ==> AtSource(g, r.cell))
  {
    hide Searched, Closed, Conflict, Decides, AtSource;
    var n := Node(index, name);
    UniverseClosed(g, index, name);
    var seen;
    r, seen := Search(g, n, {}, Universe(g, name));
    if r.Ambiguous? {
      ConflictDecides(g, n);
    } else {
      WholeSearch(g, n, seen, r);
    }
  }

  ghost predicate Decides(g: Graph, n: Node, r: Resolution) {
    && (r.NotFound? <==> forall t :: !LeadsTo(g, n, t))
    && (r.Found? <==> (exists t :: LeadsTo(g, n, t)) && !Conflict(g, n))
    && (r.Ambiguous? <==> Conflict(g, n))
    && (r.Found? ==> forall t :: LeadsTo(g, n, t) ==> BindingOf(g, t) == Root(r.cell))
  }

  lemma ConflictDecides(g: Graph, n: Node)
    requires Conflict(g, n)
    ensures Decides(g, n, Ambiguous)
  {
    hide LeadsTo, BindingOf;
  }

  lemma WholeSearch(g: Graph, n: Node, seen: set<Node>, r: Resolution)
    requires InGraph(g, n) && Searched(g, n, {}, seen, r)
    ensures Decides(g, n, r)
  {
    hide Edge, TerminalCell, BindingOf;
    assert seen - {} == seen;
    forall t | Reaches(g, n, t) ensures t in seen {
      var p :| Path(g, p) && p[0] == n && p[|p| - 1] == t;
      LastStays(g, p, seen);
    }
    assert forall t :: LeadsTo(g, n, t) <==> t in seen && InGraph(g, t) && TerminalCell(g, t).Some?;
  }

  lemma LastStays(g: Graph, p: seq<Node>, nodes: set<Node>)
    requires Path(g, p) && p[0] in nodes && EdgesInto(g, nodes, nodes)
    ensures p[|p| - 1] in nodes
  {
    PathStays(g, p, nodes, |p| - 1);
  }
}
