/** The dependency walk of ios/scripts/collect-rust-licenses.py: a recursive visit that shares one set. */
module DependencyWalk {
  // `kinds` are the entries of `dep_kinds`; a normal dependency has the kind null in the source.
  datatype Kind = Normal | Build | Dev

  datatype Dependency = Dependency(package: nat, kinds: seq<Kind>)

  // `nodes`: every package of the resolution with its dependencies.
  type Graph = map<nat, seq<Dependency>>

  predicate Followed(d: Dependency) {
    exists k :: k in d.kinds && k != Dev
  }

  // A dependency that is not for development alone.
  ghost predicate Edge(g: Graph, from: nat, to: nat) {
    from in g && exists d, kind :: d in g[from] && d.package == to && kind in d.kinds && kind in {Normal, Build}
  }

  lemma FollowedIsEdge(g: Graph, from: nat, d: Dependency)
    requires from in g && d in g[from] && Followed(d)
    ensures Edge(g, from, d.package)
  {
    var kind :| kind in d.kinds && kind != Dev;
    assert kind in {Normal, Build};
  }

  ghost predicate IsPath(g: Graph, path: seq<nat>) {
    path != [] && forall i | 0 <= i < |path| - 1 :: Edge(g, path[i], path[i + 1])
  }

  ghost predicate Reaches(g: Graph, from: nat, to: nat) {
    exists path :: IsPath(g, path) && path[0] == from && path[|path| - 1] == to
  }

  lemma ReachesItself(g: Graph, a: nat)
    ensures Reaches(g, a, a)
  {
    assert IsPath(g, [a]);
  }

  lemma ReachesFurther(g: Graph, a: nat, b: nat, c: nat)
    requires Reaches(g, a, b) && Edge(g, b, c)
    ensures Reaches(g, a, c)
  {
    var path :| IsPath(g, path) && path[0] == a && path[|path| - 1] == b;
    var longer := path + [c];
    assert IsPath(g, longer) && longer[|longer| - 1] == c;
  }

  // A set with every edge out of it still inside, apart from edges out of `open`, holds what its members
  // reach without passing through `open`.
  ghost predicate Closed(g: Graph, s: set<nat>, open: set<nat>) {
    forall a, b | a in s && a !in open && Edge(g, a, b) :: b in s
  }

  lemma {:induction false} ClosedHoldsPaths(g: Graph, s: set<nat>, path: seq<nat>)
    requires Closed(g, s, {}) && IsPath(g, path) && path[0] in s
    ensures path[|path| - 1] in s
    decreases |path|
  {
    if |path| > 1 {
      assert Edge(g, path[0], path[1]);
      ClosedHoldsPaths(g, s, path[1..]);
    }
  }

  class Collector {
    const nodes: Graph
    var reachable: set<nat>

    constructor (nodes: Graph)
      ensures this.nodes == nodes && reachable == {}
    {
      this.nodes, reachable := nodes, {};
    }

    // `open` are the packages whose own loops are still running; `root` reaches everything visited.
    // The result is false when a package is not among the nodes, where the source raises KeyError.
    method Visit(identifier: nat, ghost root: nat, ghost open: set<nat>) returns (found: bool)
      requires Reaches(nodes, root, identifier)
      requires forall p | p in reachable :: Reaches(nodes, root, p)
      requires Closed(nodes, reachable, open) && open <= reachable
      modifies this
      ensures old(reachable) <= reachable
      ensures forall p | p in reachable :: Reaches(nodes, root, p)
      ensures found ==> identifier in reachable && Closed(nodes, reachable, open)
      ensures found ==> reachable - old(reachable) <= nodes.Keys
      ensures !found ==> exists p :: p !in nodes && Reaches(nodes, root, p)
      decreases |nodes.Keys - reachable|, 0
    {
      if identifier in reachable { return true; }
      reachable := reachable + {identifier};
      if identifier !in nodes { return false; }
      Shrinks(nodes.Keys, old(reachable), reachable, identifier);
      found := VisitAll(identifier, root, open);
    }

    lemma Shrinks(all: set<nat>, before: set<nat>, after: set<nat>, one: nat)
      requires one in all && one !in before && after == before + {one}
      ensures |all - after| < |all - before|
    {
      assert all - before == (all - after) + {one};
    }

    lemma Bounded(all: set<nat>, before: set<nat>, after: set<nat>)
      requires before <= after
      ensures |all - after| <= |all - before|
    {
      var extra := (all - before) - (all - after);
      assert all - before == (all - after) + extra;
    }

    method VisitAll(identifier: nat, ghost root: nat, ghost open: set<nat>) returns (found: bool)
      requires identifier in nodes && identifier in reachable && Reaches(nodes, root, identifier)
      requires forall p | p in reachable :: Reaches(nodes, root, p)
      requires Closed(nodes, reachable, open + {identifier}) && open <= reachable
      modifies this
      ensures old(reachable) <= reachable
      ensures forall p | p in reachable :: Reaches(nodes, root, p)
      ensures found ==> Closed(nodes, reachable, open) && reachable - old(reachable) <= nodes.Keys
      ensures !found ==> exists p :: p !in nodes && Reaches(nodes, root, p)
      decreases |nodes.Keys - reachable|, 1
    {
      var deps := nodes[identifier];
      for i := 0 to |deps|
        invariant old(reachable) <= reachable
        invariant forall p | p in reachable :: Reaches(nodes, root, p)
        invariant Closed(nodes, reachable, open + {identifier})
        invariant reachable - old(reachable) <= nodes.Keys
        invariant forall k | 0 <= k < i && Followed(deps[k]) :: deps[k].package in reachable
      {
        if Followed(deps[i]) {
          FollowedIsEdge(nodes, identifier, deps[i]);
          ReachesFurther(nodes, root, identifier, deps[i].package);
          Bounded(nodes.Keys, old(reachable), reachable);
          found := Visit(deps[i].package, root, open + {identifier});
          if !found { return; }
        }
      }
      found := true;
    }

    /** From the empty set the walk ends on every graph, cycles included. It leaves exactly the packages
        that the root reaches by dependencies of which some kind is not `dev`, unless it meets a package
        that is not among the nodes, which it does exactly when the root reaches one. */
    method Collect(root: nat) returns (found: bool)
      requires reachable == {}
      modifies this
      ensures found <==> forall p | Reaches(nodes, root, p) :: p in nodes
      ensures found ==> forall p :: p in reachable <==> Reaches(nodes, root, p)
    {
      ReachesItself(nodes, root);
      found := Visit(root, root, {});
      if found {
        forall p | Reaches(nodes, root, p) ensures p in reachable {
          var path :| IsPath(nodes, path) && path[0] == root && path[|path| - 1] == p;
          ClosedHoldsPaths(nodes, reachable, path);
        }
        assert reachable - old(reachable) == reachable;
      }
    }
  }

  /** What the walk leaves is the smallest set that holds the root and follows every edge. */
  lemma ReachedIsLeast(g: Graph, root: nat, s: set<nat>, p: nat)
    requires root in s && Closed(g, s, {}) && Reaches(g, root, p)
    ensures p in s
  {
    var path :| IsPath(g, path) && path[0] == root && path[|path| - 1] == p;
    ClosedHoldsPaths(g, s, path);
  }
}
