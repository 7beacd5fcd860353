/** Module namespace objects: their keys are the names that resolve. */
module Namespaces {
  import opened Syntax
  import opened Cells
  import opened ModuleGraphs
  import opened ExportResolution

  // ----- the names a module offers -----

  function OwnNames(m: RuntimeModule): set<string> {
    set e | e in m.exports && !e.Star? :: e.exported
  }

  ghost predicate StarPath(g: Graph, p: seq<nat>) {
    && Loaded(g) && |p| > 0 && (forall i :: 0 <= i < |p| ==> p[i] < |g|)
    && (forall i :: 0 <= i < |p| - 1 ==> StarEdge(g, p[i], p[i + 1]))
  }

  /** `j` is `i` or is starred by it, directly or not. */
  ghost predicate StarReaches(g: Graph, i: nat, j: nat) {
    exists p :: StarPath(g, p) && p[0] == i && p[|p| - 1] == j
  }

  lemma StarReachesSelf(g: Graph, i: nat)
    requires Loaded(g) && i < |g|
    ensures StarReaches(g, i, i)
  {
    assert StarPath(g, [i]);
  }

  lemma StarThen(g: Graph, i: nat, j: nat, k: nat)
    requires Loaded(g) && i < |g| && StarEdge(g, i, j) && StarReaches(g, j, k)
    ensures StarReaches(g, i, k)
  {
    var p :| StarPath(g, p) && p[0] == j && p[|p| - 1] == k;
    var q := [i] + p;
    assert forall x :: 0 < x < |q| ==> q[x] == p[x - 1];
    assert StarPath(g, q);
  }

  /** The export names of a module: its own, and everything but `default` of
      the modules it stars. */
  ghost predicate Offers(g: Graph, i: nat, name: string)
    requires Loaded(g) && i < |g|
  {
    name in OwnNames(g[i]) || (name != "default" && exists k :: StarOffers(g, i, k, name))
  }

  ghost predicate StarOffers(g: Graph, i: nat, k: nat, name: string) {
    StarReaches(g, i, k) && k < |g| && name in OwnNames(g[k])
  }

  // ----- the walk -----

  ghost predicate AllStarred(g: Graph, i: nat, nodes: set<nat>) {
    forall k :: k in nodes ==> k < |g| && StarReaches(g, i, k)
  }

  ghost predicate StarsInto(g: Graph, nodes: set<nat>, into: set<nat>)
    requires Loaded(g)
  {
    forall a, b :: a in nodes && a < |g| && StarEdge(g, a, b) ==> b in into
  }

  ghost predicate OfferedBy(g: Graph, nodes: set<nat>, name: string) {
    exists k :: k in nodes && k < |g| && name in OwnNames(g[k])
  }

  /** What a walk from `i` that had visited `visited` has collected. */
  ghost predicate Walked(g: Graph, i: nat, visited: set<nat>, seen: set<nat>, names: set<string>)
    requires Loaded(g) && i < |g|
  {
    && visited <= seen && i in seen
    && AllStarred(g, i, seen - visited) && StarsInto(g, seen - visited, seen)
    && (forall n :: n in names
          <==> (i !in visited && n in OwnNames(g[i])) || (n != "default" && OfferedBy(g, seen - visited, n)))
  }

  /** A walk after the first `x` export entries of `i`. */
  ghost predicate Walking(g: Graph, i: nat, x: nat, visited: set<nat>, seen: set<nat>, names: set<string>)
    requires Loaded(g) && i < |g| && x <= |g[i].exports|
  {
    && visited + {i} <= seen
    && AllStarred(g, i, seen - visited) && StarsInto(g, seen - visited - {i}, seen)
    && (forall j :: 0 <= j < x && g[i].exports[j].Star? ==> g[i].dependencies[g[i].exports[j].request] in seen)
    && (forall n :: n in names
          <==> n in NamesUpTo(g[i].exports, x) || (n != "default" && OfferedBy(g, seen - visited - {i}, n)))
  }

  function NamesUpTo(exports: seq<ExportEntry>, x: nat): set<string>
    requires x <= |exports|
  {
    set j | 0 <= j < x && !exports[j].Star? :: exports[j].exported
  }

  lemma WalkingStart(g: Graph, i: nat, visited: set<nat>)
    requires Loaded(g) && i < |g| && i !in visited
    ensures Walking(g, i, 0, visited, visited + {i}, {})
  {
    hide StarReaches;
    StarReachesSelf(g, i);
    assert visited + {i} - visited == {i} && {i} - {i} == {};
  }

  lemma WalkingOwn(g: Graph, i: nat, x: nat, visited: set<nat>, seen: set<nat>, names: set<string>)
    requires Loaded(g) && i < |g| && x < |g[i].exports| && Walking(g, i, x, visited, seen, names)
    requires !g[i].exports[x].Star?
    ensures Walking(g, i, x + 1, visited, seen, names + {g[i].exports[x].exported})
  {
    hide StarReaches, OfferedBy;
    assert NamesUpTo(g[i].exports, x + 1) == NamesUpTo(g[i].exports, x) + {g[i].exports[x].exported};
  }

  lemma WalkingStar(g: Graph, i: nat, x: nat, visited: set<nat>, seen: set<nat>, names: set<string>, j: nat,
                    seen': set<nat>, more: set<string>)
    requires Loaded(g) && i < |g| && x < |g[i].exports| && Walking(g, i, x, visited, seen, names)
    requires g[i].exports[x].Star? && j == g[i].dependencies[g[i].exports[x].request] && j < |g|
    requires StarEdge(g, i, j) && Walked(g, j, seen, seen', more)
    ensures Walking(g, i, x + 1, visited, seen', names + set n | n in more && n != "default")
  {
    hide StarReaches, StarEdge;
    assert seen' - visited == (seen - visited) + (seen' - seen);
    assert seen' - visited - {i} == (seen - visited - {i}) + (seen' - seen);
    forall k | k in seen' - seen ensures StarReaches(g, i, k) {
      StarThen(g, i, j, k);
    }
    assert NamesUpTo(g[i].exports, x + 1) == NamesUpTo(g[i].exports, x);
    forall n | n != "default" && n in OwnNames(g[j]) && j !in seen ensures OfferedBy(g, seen' - seen, n) {
      assert j in seen' - seen;
    }
  }

  lemma WalkingEnd(g: Graph, i: nat, visited: set<nat>, seen: set<nat>, names: set<string>)
    requires Loaded(g) && i < |g| && i !in visited && Walking(g, i, |g[i].exports|, visited, seen, names)
    ensures Walked(g, i, visited, seen, names)
  {
    hide StarReaches;
    assert NamesUpTo(g[i].exports, |g[i].exports|) == OwnNames(g[i]);
    assert seen - visited == (seen - visited - {i}) + {i};
    forall b | StarEdge(g, i, b) ensures b in seen {
      var e :| e in g[i].exports && e.Star? && g[i].dependencies[e.request] == b;
      var j :| 0 <= j < |g[i].exports| && g[i].exports[j] == e;
    }
    forall n | n != "default" && OfferedBy(g, seen - visited, n)
      ensures n in OwnNames(g[i]) || OfferedBy(g, seen - visited - {i}, n)
    {
      var k :| k in seen - visited && k < |g| && n in OwnNames(g[k]);
      assert k == i || k in seen - visited - {i};
    }
  }

  lemma WalkedAgain(g: Graph, i: nat, visited: set<nat>)
    requires Loaded(g) && i < |g| && i in visited
    ensures Walked(g, i, visited, visited, {})
  {
    assert visited - visited == {};
  }

  function Indices(n: nat): (r: set<nat>)
    ensures forall k: nat :: k in r <==> k < n
  {
    if n == 0 then {} else Indices(n - 1) + {n - 1}
  }

  method Collect(g: Graph, i: nat, visited: set<nat>) returns (names: set<string>, seen: set<nat>)
    requires Loaded(g) && i < |g| && forall k :: k in visited ==> k < |g|
    ensures Walked(g, i, visited, seen, names) && forall k :: k in seen ==> k < |g|
    decreases Indices(|g|) - visited
  {
    hide Walked, Walking, StarEdge;
    if i in visited {
      WalkedAgain(g, i, visited);
      return {}, visited;
    }
    names, seen := {}, visited + {i};
    WalkingStart(g, i, visited);
    var x := 0;
    while x < |g[i].exports|
      invariant 0 <= x <= |g[i].exports| && Walking(g, i, x, visited, seen, names)
      invariant visited + {i} <= seen && forall k :: k in seen ==> k < |g|
    {
      match g[i].exports[x] {
        case Star(request) =>
          var j := g[i].dependencies[request];
          StarHolds(g, i, x);
          assert Indices(|g|) - seen < Indices(|g|) - visited by {
            assert i in Indices(|g|) - visited;
          }
          var more, next := Collect(g, j, seen);
          WalkingStar(g, i, x, visited, seen, names, j, next, more);
          WalkedGrows(g, j, seen, next, more);
          seen := next;
          names := names + set n | n in more && n != "default";
        case e =>
          WalkingOwn(g, i, x, visited, seen, names);
          names := names + {e.exported};
      }
      x := x + 1;
    }
    WalkingEnd(g, i, visited, seen, names);
  }

  lemma StarHolds(g: Graph, i: nat, x: nat)
    requires Loaded(g) && i < |g| && x < |g[i].exports| && g[i].exports[x].Star?
    ensures StarEdge(g, i, g[i].dependencies[g[i].exports[x].request])
  {
  }

  lemma WalkedGrows(g: Graph, i: nat, visited: set<nat>, seen: set<nat>, names: set<string>)
    requires Loaded(g) && i < |g| && Walked(g, i, visited, seen, names)
    ensures visited <= seen
  {
  }

  lemma {:induction false} StarStays(g: Graph, p: seq<nat>, nodes: set<nat>, x: nat)
    requires StarPath(g, p) && p[0] in nodes && StarsInto(g, nodes, nodes) && x < |p|
    ensures p[x] in nodes
    decreases x
  {
    if x > 0 {
      StarStays(g, p, nodes, x - 1);
      assert StarEdge(g, p[x - 1], p[x]);
    }
  }

  /** The visited-set walk collects exactly the names a module offers. */
  method CollectExportNames(g: Graph, i: nat) returns (names: set<string>)
    requires Loaded(g) && i < |g|
    ensures forall n :: n in names <==> Offers(g, i, n)
  {
    var seen;
    names, seen := Collect(g, i, {});
    WholeWalk(g, i, seen, names);
  }

  lemma WholeWalk(g: Graph, i: nat, seen: set<nat>, names: set<string>)
    requires Loaded(g) && i < |g| && Walked(g, i, {}, seen, names)
    ensures forall n :: n in names <==> Offers(g, i, n)
  {
    hide StarEdge;
    assert seen - {} == seen;
    forall k | StarReaches(g, i, k) ensures k in seen {
      var p :| StarPath(g, p) && p[0] == i && p[|p| - 1] == k;
      StarStays(g, p, seen, |p| - 1);
    }
    forall n | n in names ensures Offers(g, i, n) {
      if n !in OwnNames(g[i]) {
        var k :| k in seen && k < |g| && n in OwnNames(g[k]);
        assert StarOffers(g, i, k, n);
      }
    }
    forall n | Offers(g, i, n) ensures n in names {
      if n !in OwnNames(g[i]) {
        var k :| StarOffers(g, i, k, n);
        assert OfferedBy(g, seen, n);
      }
    }
  }

  // ----- names that resolve -----

  lemma DeciderOwns(g: Graph, n: Node)
    requires InGraph(g, n)
    ensures Decider(g, n).Some? <==> n.name in OwnNames(g[n.index])
  {
    hide Loaded;
  }

  /** Everything that is found under a name is found under a name that the
      module offers. */
  lemma {:induction false} FoundOffered(g: Graph, p: seq<Node>)
    requires Path(g, p) && Decider(g, p[|p| - 1]).Some?
    ensures Offers(g, p[0].index, p[0].name)
    decreases |p|
  {
    hide StarReaches, FirstNamed;
    var a := p[0];
    DeciderOwns(g, a);
    if Decider(g, a).None? {
      var q := p[1..];
      assert Edge(g, a, p[1]) && q[|q| - 1] == p[|p| - 1];
      assert forall i :: 0 <= i < |q| ==> q[i] == p[i + 1];
      assert forall i :: 0 <= i < |q| - 1 ==> Edge(g, q[i], q[i + 1]);
      FoundOffered(g, q);
      OffersThrough(g, a.index, q[0].index, a.name);
    }
  }

  lemma OffersThrough(g: Graph, i: nat, j: nat, name: string)
    requires Loaded(g) && i < |g| && j < |g| && StarEdge(g, i, j) && name != "default" && Offers(g, j, name)
    ensures Offers(g, i, name)
  {
    hide StarEdge, StarReaches;
    var k := OfferedAt(g, j, name);
    StarThen(g, i, j, k);
    assert StarOffers(g, i, k, name);
  }

  /** The starred module, or the module itself, that owns an offered name. */
  lemma OfferedAt(g: Graph, j: nat, name: string)
    returns (k: nat)
    requires Loaded(g) && j < |g| && name != "default" && Offers(g, j, name)
    ensures k < |g| && StarReaches(g, j, k) && name in OwnNames(g[k])
  {
    if name in OwnNames(g[j]) {
      StarReachesSelf(g, j);
      k := j;
    } else {
      k :| StarOffers(g, j, k, name);
    }
  }

  lemma TargetOffered(g: Graph, n: Node, t: Node)
    requires InGraph(g, n) && LeadsTo(g, n, t)
    ensures Offers(g, n.index, n.name)
  {
    hide FirstNamed;
    var p :| Path(g, p) && p[0] == n && p[|p| - 1] == t;
    FoundOffered(g, p);
  }

  /** A key exactly when the name resolves to one binding, which it then
      shows. */
  ghost predicate Shown(g: Graph, i: nat, n: string, exports: map<string, Cell>) {
    && (n in exports <==> ((exists t :: LeadsTo(g, Node(i, n), t)) && !Conflict(g, Node(i, n))))
    && (n in exports ==> forall t :: LeadsTo(g, Node(i, n), t) ==> BindingOf(g, t) == Root(exports[n]))
  }

  /** A name is a key of the namespace exactly when it resolves, and the key
      shows the binding that it resolves to. */
  method BuildModuleNamespace(g: Graph, i: nat) returns (exports: map<string, Cell>)
    requires Loaded(g) && i < |g|
    ensures forall n :: Shown(g, i, n, exports)
  {
    hide LeadsTo, Conflict, BindingOf, Offers;
    var names := CollectExportNames(g, i);
    ghost var all := names;
    exports := map[];
    while names != {}
      invariant names <= all
      invariant forall n :: n in exports ==> n in all && n !in names
      invariant forall n :: n in all - names ==> Shown(g, i, n, exports)
      decreases names
    {
      var name :| name in names;
      var r := ResolveExport(g, i, name);
      ghost var before := exports;
      if r.Found? {
        exports := exports[name := r.cell];
      }
      names := names - {name};
      ShownNow(g, i, name, exports, r);
      forall n | n in all - names && n != name ensures Shown(g, i, n, exports) {
        ShownStill(g, i, n, before, exports);
      }
    }
    AllShown(g, i, all, exports);
  }

  lemma ShownNow(g: Graph, i: nat, n: string, exports: map<string, Cell>, r: Resolution)
    requires Decides(g, Node(i, n), r)
    requires n in exports <==> r.Found?
    requires r.Found? ==> exports[n] == r.cell
    ensures Shown(g, i, n, exports)
  {
    hide LeadsTo, Conflict, BindingOf;
  }

  lemma ShownStill(g: Graph, i: nat, n: string, before: map<string, Cell>, after: map<string, Cell>)
    requires Shown(g, i, n, before) && (n in before <==> n in after) && (n in before ==> before[n] == after[n])
    ensures Shown(g, i, n, after)
  {
    hide LeadsTo, Conflict, BindingOf;
  }

  lemma AllShown(g: Graph, i: nat, all: set<string>, exports: map<string, Cell>)
    requires Loaded(g) && i < |g| && forall n :: n in all <==> Offers(g, i, n)
    requires forall n :: n in exports ==> n in all
    requires forall n :: n in all ==> Shown(g, i, n, exports)
    ensures forall n :: Shown(g, i, n, exports)
  {
    hide LeadsTo, Conflict, BindingOf, Offers;
    forall n ensures Shown(g, i, n, exports) {
      if n !in all {
        forall t ensures !LeadsTo(g, Node(i, n), t) {
          if LeadsTo(g, Node(i, n), t) {
            TargetOffered(g, Node(i, n), t);
          }
        }
      }
    }
  }
}
