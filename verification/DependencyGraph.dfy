/** The check that a build depends on nothing local outside the repository.

    A worklist walks the resolved graph from the selected package; the graph may
    have cycles and the worklist may hold duplicates. Canonical paths and the
    tracked files come from the file system and Git, and are given here.
*/
module DependencyGraph {
  import opened Machine

  type Id = nat
  type Path = seq<string>

  datatype Node = Node(id: Id, deps: seq<Id>)

  datatype Package = Package(id: Id, local: bool, manifest: Path, targets: seq<Path>)

  datatype Metadata = Metadata(resolve: Option<seq<Node>>, packages: seq<Package>)

  /** What the file system and Git answer. */
  datatype Checkout = Checkout(repository: Path, canonical: map<Path, Path>, tracked: set<Path>)

  datatype Error =
    | NoResolvedGraph
    | NoNode(id: Id)
    | NoPackage(id: Id)
    | BadManifest(id: Id)
    | BadTarget(id: Id, target: nat)

  datatype Result = Ok | Err(error: Error)

  /** The first node with this id. */
  function FindNode(nodes: seq<Node>, id: Id): Option<Node>
  {
    if nodes == [] then None else if nodes[0].id == id then Some(nodes[0]) else FindNode(nodes[1..], id)
  }

  function FindPackage(packages: seq<Package>, id: Id): Option<Package>
  {
    if packages == [] then None else if packages[0].id == id then Some(packages[0]) else FindPackage(packages[1..], id)
  }

  lemma {:induction false} FoundNode(nodes: seq<Node>, id: Id)
    ensures FindNode(nodes, id).Some? ==> FindNode(nodes, id).value in nodes && FindNode(nodes, id).value.id == id
    ensures FindNode(nodes, id).None? ==> forall n :: n in nodes ==> n.id != id
  {
    if nodes == [] {
    } else {
      FoundNode(nodes[1..], id);
    }
  }

  /** The file resolves to a tracked path inside the repository. */
  predicate Owned(c: Checkout, file: Path)
  {
    file in c.canonical && c.repository <= c.canonical[file] && c.canonical[file] in c.tracked
  }

  // ------------------------------------------------------------- reachability

  predicate Edge(nodes: seq<Node>, a: Id, b: Id)
  {
    FindNode(nodes, a).Some? && b in FindNode(nodes, a).value.deps
  }

  ghost predicate IsWalk(nodes: seq<Node>, root: Id, walk: seq<Id>)
  {
    walk != [] && walk[0] == root && forall i :: 0 < i < |walk| ==> Edge(nodes, walk[i - 1], walk[i])
  }

  ghost predicate Reachable(nodes: seq<Node>, root: Id, id: Id)
  {
    exists walk :: IsWalk(nodes, root, walk) && walk[|walk| - 1] == id
  }

  lemma ReachableStart(nodes: seq<Node>, root: Id)
    ensures Reachable(nodes, root, root)
  {
    assert IsWalk(nodes, root, [root]);
  }

  lemma ReachableStep(nodes: seq<Node>, root: Id, a: Id, b: Id)
    requires Reachable(nodes, root, a) && Edge(nodes, a, b)
    ensures Reachable(nodes, root, b)
  {
    var walk :| IsWalk(nodes, root, walk) && walk[|walk| - 1] == a;
    assert IsWalk(nodes, root, walk + [b]);
  }

  /** A set that holds the root and is closed under edges holds every walk. */
  lemma {:induction false} ClosedHoldsWalk(nodes: seq<Node>, root: Id, closed: set<Id>, walk: seq<Id>)
    requires root in closed && IsWalk(nodes, root, walk)
    requires forall a, b :: a in closed && Edge(nodes, a, b) ==> b in closed
    ensures walk[|walk| - 1] in closed
    decreases |walk|
  {
    if |walk| > 1 {
      var front := walk[..|walk| - 1];
      ClosedHoldsWalk(nodes, root, closed, front);
      assert Edge(nodes, walk[|walk| - 2], walk[|walk| - 1]);
    }
  }

  // -------------------------------------------------------------- the two loops

  ghost predicate Acceptable(m: Metadata, c: Checkout, id: Id)
  {
    var p := FindPackage(m.packages, id);
    p.Some? && (p.value.local ==>
                  Owned(c, p.value.manifest)
                  && forall i :: 0 <= i < |p.value.targets| ==> Owned(c, p.value.targets[i]))
  }

  ghost predicate AllAcceptable(m: Metadata, root: Id, c: Checkout)
    requires m.resolve.Some?
  {
    forall id :: Reachable(m.resolve.value, root, id) ==> FindNode(m.resolve.value, id).Some? && Acceptable(m, c, id)
  }

  /** The error names a reachable package that fails that very check. */
  ghost predicate Deserved(m: Metadata, c: Checkout, root: Id, e: Error)
  {
    if m.resolve.None? then e == NoResolvedGraph
    else
      var nodes := m.resolve.value;
      match e
      case NoResolvedGraph => false
      case NoNode(id) => Reachable(nodes, root, id) && FindNode(nodes, id).None?
      case NoPackage(id) => Reachable(nodes, root, id) && FindPackage(m.packages, id).None?
      case BadManifest(id) =>
        Reachable(nodes, root, id) && var p := FindPackage(m.packages, id);
        p.Some? && p.value.local && !Owned(c, p.value.manifest)
      case BadTarget(id, target) =>
        Reachable(nodes, root, id) && var p := FindPackage(m.packages, id);
        p.Some? && p.value.local && target < |p.value.targets| && !Owned(c, p.value.targets[target])
  }

  ghost predicate Worklist(nodes: seq<Node>, root: Id, visited: set<Id>, pending: seq<Id>)
  {
    (root in visited || root in pending)
    && (forall id :: id in visited || id in pending ==> Reachable(nodes, root, id))
    && (forall id :: id in visited ==> FindNode(nodes, id).Some?)
    && (forall a, b :: a in visited && Edge(nodes, a, b) ==> b in visited || b in pending)
  }

  lemma SkipKeeps(nodes: seq<Node>, root: Id, visited: set<Id>, pending: seq<Id>)
    requires pending != [] && pending[0] in visited && Worklist(nodes, root, visited, pending)
    ensures Worklist(nodes, root, visited, pending[1..])
  {
    assert pending == [pending[0]] + pending[1..];
  }

  lemma VisitKeeps(nodes: seq<Node>, root: Id, visited: set<Id>, pending: seq<Id>)
    requires pending != [] && Worklist(nodes, root, visited, pending) && FindNode(nodes, pending[0]).Some?
    ensures Worklist(nodes, root, visited + {pending[0]}, pending[1..] + FindNode(nodes, pending[0]).value.deps)
  {
    var id, deps := pending[0], FindNode(nodes, pending[0]).value.deps;
    assert pending == [id] + pending[1..];
    forall b | b in deps ensures Reachable(nodes, root, b) {
      ReachableStep(nodes, root, id, b);
    }
  }

  lemma EmptyWorklistIsDone(nodes: seq<Node>, root: Id, visited: set<Id>)
    requires Worklist(nodes, root, visited, [])
    ensures forall id :: id in visited <==> Reachable(nodes, root, id)
  {
    forall id | Reachable(nodes, root, id) ensures id in visited {
      var walk :| IsWalk(nodes, root, walk) && walk[|walk| - 1] == id;
      ClosedHoldsWalk(nodes, root, visited, walk);
    }
  }

  lemma VisitingShrinks(known: set<Id>, visited: set<Id>, id: Id)
    requires id in known && id !in visited
    ensures |known - (visited + {id})| < |known - visited|
  {
    assert known - (visited + {id}) == known - visited - {id};
  }

  /** The breadth-first worklist: every reachable id, or one that has no node. */
  method CollectReachable(nodes: seq<Node>, root: Id) returns (visited: set<Id>, missing: Option<Id>)
    ensures missing.Some? ==> Reachable(nodes, root, missing.value) && FindNode(nodes, missing.value).None?
    ensures missing.None? ==> forall id :: id in visited <==> Reachable(nodes, root, id)
    ensures missing.None? ==> forall id :: id in visited ==> FindNode(nodes, id).Some?
  {
    var pending := [root];
    visited := {};
    ReachableStart(nodes, root);
    ghost var known := set n <- nodes :: n.id;
    while pending != []
      invariant Worklist(nodes, root, visited, pending)
      decreases |known - visited|, |pending|
    {
      var id := pending[0];
      if id in visited {
        SkipKeeps(nodes, root, visited, pending);
        pending := pending[1..];
        continue;
      }
      var node := FindNode(nodes, id);
      if node.None? {
        return visited, Some(id);
      }
      FoundNode(nodes, id);
      VisitKeeps(nodes, root, visited, pending);
      VisitingShrinks(known, visited, id);
      visited := visited + {id};
      pending := pending[1..] + node.value.deps;
    }
    missing := None;
    EmptyWorklistIsDone(nodes, root, visited);
  }

  /** The checks of one reachable package. */
  method CheckPackage(m: Metadata, c: Checkout, id: Id) returns (r: Result)
    ensures r.Ok? <==> Acceptable(m, c, id)
    ensures forall root :: r.Err? && m.resolve.Some? && Reachable(m.resolve.value, root, id) ==>
      Deserved(m, c, root, r.error)
  {
    var package := FindPackage(m.packages, id);
    if package.None? {
      return Err(NoPackage(id));
    }
    if !package.value.local {
      return Ok;
    }
    if !Owned(c, package.value.manifest) {
      return Err(BadManifest(id));
    }
    for i := 0 to |package.value.targets|
      invariant forall j :: 0 <= j < i ==> Owned(c, package.value.targets[j])
    {
      if !Owned(c, package.value.targets[i]) {
        return Err(BadTarget(id, i));
      }
    }
    r := Ok;
  }

  /** `validate_reachable_local_graph`. It terminates on every graph, accepts
      exactly when every reachable package has a node and an acceptable entry,
      and otherwise names a reachable package and the check it fails. */
  method ValidateReachableLocalGraph(m: Metadata, root: Id, c: Checkout) returns (r: Result)
    ensures r.Ok? <==> m.resolve.Some? && AllAcceptable(m, root, c)
    ensures r.Err? ==> Deserved(m, c, root, r.error)
  {
    if m.resolve.None? {
      return Err(NoResolvedGraph);
    }
    var reachable, missing := CollectReachable(m.resolve.value, root);
    if missing.Some? {
      return Err(NoNode(missing.value));
    }
    var rest := reachable;
    while rest != {}
      invariant rest <= reachable
      invariant forall id :: id in reachable - rest ==> Acceptable(m, c, id)
      decreases |rest|
    {
      var id :| id in rest;
      r := CheckPackage(m, c, id);
      if r.Err? {
        return;
      }
      rest := rest - {id};
    }
    r := Ok;
  }
}
