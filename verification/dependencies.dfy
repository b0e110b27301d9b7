/** Explicit "depends on" edges between the stack's resources, and what
    it means for a set of such edges to admit an apply order. */
module Dependencies {

  /** The resources that take part in dependency edges; buckets are
      identified by their position in the bucket list. */
  datatype Node = VpcNode | SecurityGroupNode | SecretNode | BucketNode(index: nat) | ClusterNode

  /** `dependent` must be applied after `dependency`. */
  datatype Edge = DependsOn(dependent: Node, dependency: Node)

  /** A walk that follows edges from dependent to dependency. */
  ghost predicate IsPath(edges: seq<Edge>, path: seq<Node>) {
    |path| >= 1 && forall i :: 0 <= i < |path| - 1 ==> DependsOn(path[i], path[i + 1]) in edges
  }

  /** No walk of one or more edges returns to where it started. */
  ghost predicate Acyclic(edges: seq<Edge>) {
    forall path :: IsPath(edges, path) && |path| >= 2 ==> path[0] != path[|path| - 1]
  }

  predicate NoSelfEdges(edges: seq<Edge>) {
    forall e :: e in edges ==> e.dependent != e.dependency
  }

  /** Every edge leads from a higher rank to a strictly lower one. */
  predicate RankedBy(edges: seq<Edge>, rank: Node -> nat) {
    forall e :: e in edges ==> rank(e.dependent) > rank(e.dependency)
  }

  lemma {:induction false} RankDecreasesAlongPath(edges: seq<Edge>, rank: Node -> nat, path: seq<Node>)
    requires RankedBy(edges, rank)
    requires IsPath(edges, path) && |path| >= 2
    ensures rank(path[0]) > rank(path[|path| - 1])
    decreases |path|
  {
    assert DependsOn(path[0], path[1]) in edges;
    if |path| > 2 {
      var tail := path[1..];
      forall i | 0 <= i < |tail| - 1
        ensures DependsOn(tail[i], tail[i + 1]) in edges
      {
        assert DependsOn(path[i + 1], path[i + 2]) in edges;
      }
      RankDecreasesAlongPath(edges, rank, tail);
    }
  }

  /** Edges that some rank strictly decreases along have no cycle and no self-edge. */
  lemma RankedIsAcyclic(edges: seq<Edge>, rank: Node -> nat)
    requires RankedBy(edges, rank)
    ensures Acyclic(edges) && NoSelfEdges(edges)
  {
    forall path | IsPath(edges, path) && |path| >= 2
      ensures path[0] != path[|path| - 1]
    {
      RankDecreasesAlongPath(edges, rank, path);
    }
  }

  /** Every edge of `edges` runs between nodes of `order`, the dependency first. */
  predicate RespectsOrder(edges: seq<Edge>, order: seq<Node>) {
    forall e :: e in edges ==>
      exists i, j :: 0 <= j < i < |order| && order[i] == e.dependent && order[j] == e.dependency
  }

}
