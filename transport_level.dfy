/**
 * MultiscaleTransportLevel: the nodes of one scale of a hierarchy and a link
 * to the coarser level above it.
 *
 * getNeighborhood is supplied by the concrete level type; here it is a
 * function fixed when the level is built.
 */
module Levels {
  import opened Nodes

  /** getNeighborhood(node, eps) of the concrete level type. */
  type Neighborhood = (TransportNode, real) -> seq<TransportNode>

  class Level {
    const scale: int
    const parent: Level?
    const neighborhood: Neighborhood
    /** The number of parent links above this level; it makes the parent chain finite. */
    ghost const height: nat
    var nodes: seq<TransportNode>

    /** The parent chain ends: each parent sits strictly higher. */
    ghost predicate Chain()
      decreases height
    {
      parent != null ==> parent.height < height && parent.Chain()
    }

    /** getScale and getParent return what the constructor was given. */
    constructor (s: int, parentLevel: Level?, nbh: Neighborhood)
      requires parentLevel != null ==> parentLevel.Chain()
      ensures scale == s && parent == parentLevel && neighborhood == nbh
      ensures nodes == [] && Chain()
    {
      scale := s;
      parent := parentLevel;
      neighborhood := nbh;
      height := if parentLevel == null then 0 else parentLevel.height + 1;
      nodes := [];
    }

    /** addNode appends, so getNodes lists the nodes in insertion order. */
    method AddNode(node: TransportNode)
      modifies this`nodes
      ensures nodes == old(nodes) + [node]
    {
      nodes := nodes + [node];
    }

    /** getMaximalRadius: max(0, largest node radius); 0 for an empty level. */
    method GetMaximalRadius() returns (r: real)
      ensures r >= 0.0
      ensures forall i :: 0 <= i < |nodes| ==> nodes[i].nodeRadius <= r
      ensures r == 0.0 || exists i :: 0 <= i < |nodes| && r == nodes[i].nodeRadius
    {
      r := 0.0;
      var i := 0;
      while i < |nodes|
        invariant 0 <= i <= |nodes|
        invariant r >= 0.0
        invariant forall j :: 0 <= j < i ==> nodes[j].nodeRadius <= r
        invariant r == 0.0 || exists j :: 0 <= j < i && r == nodes[j].nodeRadius
      {
        if r < nodes[i].nodeRadius {
          r := nodes[i].nodeRadius;
        }
        i := i + 1;
      }
    }

    /** The level reached by following parent links until there is none. */
    ghost function Root(): (root: Level)
      requires Chain()
      ensures root.parent == null
      decreases height
    {
      if parent == null then this else parent.Root()
    }

    /** The root level is an allocated object, so the calls that follow keep its fields in frame. */
    lemma RootAllocated()
      requires Chain()
      ensures allocated(Root())
      decreases height
    {
      if parent != null {
        parent.RootAllocated();
      }
    }

    /** getRootLevel walks the parent chain and returns its parentless end. */
    method GetRootLevel() returns (root: Level)
      requires Chain()
      ensures root == Root()
      ensures root.parent == null
      ensures parent == null ==> root == this
    {
      var current: Level := this;
      var up := current.parent;
      while up != null
        invariant current.Chain() && current.Root() == Root()
        invariant up == current.parent
        decreases current.height
      {
        current := up;
        up := current.parent;
      }
      root := current;
    }
  }
}
