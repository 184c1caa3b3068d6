/**
 * NeighborhoodStrategy: what the refinement strategies share, the local
 * radius a node's neighbourhood is measured in (the one of its parent
 * when it has one), and the radius searched around an arc.
 */
module NeighborhoodStrategy {
  import opened Nodes
  import opened Levels
  import opened Plans
  import opened TransportSolver
  import opened StrategyLP
  import NP = NeighborhoodPropagation

  /**
   * getLocalNodeRadius: a node without parent answers with its own local
   * radius and a node with a parent with the parent's. Only one level up is
   * read (the reads clause stops at the node's parent link), and nothing is
   * changed.
   */
  function LocalNodeRadius(node: TransportNode): (r: real)
    reads node`parent
    ensures node.parent == null ==> r == node.localRadius
    ensures node.parent != null ==> r == node.parent.localRadius
  {
    var parent := node.parent;
    if parent == null then node.localRadius else parent.localRadius
  }

  /** Two children of the same parent are searched with the same radius, whatever their own local radii. */
  lemma SiblingsShareRadius(a: TransportNode, b: TransportNode)
    requires a.parent != null && a.parent == b.parent
    ensures LocalNodeRadius(a) == LocalNodeRadius(b)
  {
  }

  /** A child of a root node is searched with the radius of its parent, the root's own local radius. */
  lemma ChildOfRoot(n: TransportNode)
    requires n.parent != null && n.parent.parent == null
    ensures LocalNodeRadius(n) == LocalNodeRadius(n.parent) == n.parent.localRadius
  {
  }

  /**
   * The radius the expand and refine strategies search around an arc q:
   * the sum of the local radii of its endpoints times the expansion factor.
   */
  function SearchRadius(q: Path, rFactor: real): (r: real)
    reads q.from`parent, q.to`parent
    ensures rFactor >= 0.0 && LocalNodeRadius(q.from) >= 0.0 && LocalNodeRadius(q.to) >= 0.0 ==> r >= 0.0
    ensures rFactor == 0.0 ==> r == 0.0
  {
    (LocalNodeRadius(q.to) + LocalNodeRadius(q.from)) * rFactor
  }

  /**
   * The reduced cost of a candidate arc from f to t of transport cost c
   * against the node potentials: c - potential(f) + potential(t). An arc
   * qualifies when it is not positive.
   */
  function ReducedCost(c: real, f: TransportNode, t: TransportNode): real
    reads f`potential, t`potential
  {
    c - f.potential + t.potential
  }

  /**
   * The source and target nodes getNeighborhood returns around the
   * endpoints of q, both searched with SearchRadius(q, rFactor).
   */
  function Reach(q: Path, rFactor: real, nbS: Neighborhood, nbT: Neighborhood): (seq<TransportNode>, seq<TransportNode>)
    reads q.from`parent, q.to`parent
  {
    (nbS(q.from, SearchRadius(q, rFactor)), nbT(q.to, SearchRadius(q, rFactor)))
  }

  /** Every node of ns is a node of the level whose nodes are S. */
  predicate Inside(ns: seq<TransportNode>, S: seq<TransportNode>) {
    forall j :: 0 <= j < |ns| ==> ns[j] in S
  }

  /** The search balls of the seed arcs of a walk, keyed by arc. */
  type Balls = map<Arc, (seq<TransportNode>, seq<TransportNode>)>

  /** The node potentials as they stood during a search. */
  type PotentialMap = map<TransportNode, real>

  /** PI records the current potential of each of its nodes. */
  ghost predicate Recorded(PI: PotentialMap)
    reads PI.Keys`potential
  {
    forall n :: n in PI ==> PI[n] == n.potential
  }

  /** Under the potentials PI the pair f2, t2 has a reduced cost that is not positive. */
  ghost predicate Reduces(PI: PotentialMap, f2: TransportNode, t2: TransportNode, cost: CostFunction, p: real) {
    f2 in PI && t2 in PI && cost(f2, t2, p) - PI[f2] + PI[t2] <= 0.0
  }

  /**
   * A pair the search admits: its arc is not in the rows X and its reduced
   * cost is not positive.
   */
  ghost predicate Admitted(X: seq<map<int, Path>>, PI: PotentialMap, f2: TransportNode, t2: TransportNode, cost: CostFunction, p: real) {
    !Has(X, (f2.id, t2.id)) && Reduces(PI, f2, t2, cost, p)
  }

  /** Every admitted pair around a seed arc (one with balls in B) is an arc of the rows N. */
  ghost predicate Covered(N: seq<map<int, Path>>, B: Balls, X: seq<map<int, Path>>, PI: PotentialMap, cost: CostFunction, p: real) {
    forall a, f2, t2 :: a in B && f2 in B[a].0 && t2 in B[a].1 && Admitted(X, PI, f2, t2, cost, p) ==> Has(N, (f2.id, t2.id))
  }

  /**
   * q is the path the search records for an admitted pair around a seed
   * arc: no weight, the transport cost, whatever index it was given.
   */
  ghost predicate Drawn(q: Path, B: Balls, X: seq<map<int, Path>>, PI: PotentialMap, cost: CostFunction, p: real) {
    && q == NP.PairPath(q.from, q.to, cost, p).(index := q.index)
    && Admitted(X, PI, q.from, q.to, cost, p)
    && exists a :: a in B && q.from in B[a].0 && q.to in B[a].1
  }

  /** Every arc of the rows N holds a path drawn around the seeds of B. */
  ghost predicate Sound(N: seq<map<int, Path>>, B: Balls, X: seq<map<int, Path>>, PI: PotentialMap, cost: CostFunction, p: real) {
    forall k :: Has(N, k) ==> Get(N, k).Key() == k && Drawn(Get(N, k), B, X, PI, cost, p)
  }

  /** getNeighborhood of the level whose nodes are S returns nodes of S, whatever the node of S and the radius. */
  ghost predicate Closed(nb: Neighborhood, S: seq<TransportNode>) {
    forall n, r :: n in S ==> Inside(nb(n, r), S)
  }

  /** Every node of ns has a recorded potential in PI. */
  ghost predicate Priced(PI: PotentialMap, ns: seq<TransportNode>) {
    forall n :: n in ns ==> n in PI
  }

  /** Rows Q have every arc of P, with the same path. */
  ghost predicate Keeps(Q: seq<map<int, Path>>, P: seq<map<int, Path>>) {
    forall b :: Has(P, b) ==> Has(Q, b) && Get(Q, b) == Get(P, b)
  }
  /** The candidate plan N can take arcs between the nodes of sol's levels: it has a row per source and a count per target. */
  ghost predicate Beside(N: TransportPlan, sol: TransportPlan)
    reads N`paths, N`toPathCounts, N`pathCounter, N`added, sol`paths, sol`toPathCounts
  {
    N.Valid() && N.Dense() && |N.paths| == |sol.paths| && |N.toPathCounts| == |sol.toPathCounts|
  }
  /** Every seed's balls in B are the ones R gives it. */
  ghost predicate Within(B: Balls, R: Balls)
  {
    forall a :: a in B ==> a in R && B[a] == R[a]
  }

  /** Giving one more seed the balls R gives it keeps B within R. */
  lemma WithinSet(B: Balls, R: Balls, c: Arc)
    requires Within(B, R) && c in R
    ensures Within(B[c := R[c]], R)
  {
  }

  /** R holds the balls Reach gives every arc of the rows E that it keys. */
  ghost predicate Reaches(E: seq<map<int, Path>>, R: Balls, rFactor: real, sol: TransportPlan)
    reads sol.source`nodes, sol.target`nodes, sol.source.nodes`parent, sol.target.nodes`parent
  {
    EndsIn(E, sol.source.nodes, sol.target.nodes) &&
    (forall a :: a in R ==> Has(E, a) && R[a] == Reach(Get(E, a), rFactor, sol.source.neighborhood, sol.target.neighborhood))
  }

  /** The balls Reach gives every arc of E, taken before the walk starts. */
  lemma ReachAll(E: seq<map<int, Path>>, rFactor: real, nbS: Neighborhood, nbT: Neighborhood) returns (R: Balls)
    ensures forall a :: Has(E, a) ==> a in R
    ensures forall a :: a in R ==> Has(E, a) && R[a] == Reach(Get(E, a), rFactor, nbS, nbT)
  {
    R := map a | a in ArcSet(E) && Has(E, a) :: Reach(Get(E, a), rFactor, nbS, nbT);
    forall a | Has(E, a)
      ensures a in R
    {
      InArcSet(E, a);
    }
  }
  /** The stopping test of the inner loop: the cost fell from prevCost by no more than tol times prevCost. */
  predicate Stalled(prevCost: real, cost: real, tol: real) {
    prevCost - cost <= tol * prevCost
  }
  /** The duals of rows id (source nodes) and |S| + id (target nodes) exist. */
  ghost predicate DualsCover(dual: seq<real>, S: seq<TransportNode>, T: seq<TransportNode>) {
    && (forall n :: n in S ==> 0 <= n.id < |dual|)
    && (forall n :: n in T ==> 0 <= |S| + n.id < |dual|)
  }

  /**
   * The potentials setPotentials gives the nodes: the dual of row |S| + id
   * to a target node and the dual of row id to any other source node.
   */
  ghost function DualPotentials(dual: seq<real>, S: seq<TransportNode>, T: seq<TransportNode>): (PI: PotentialMap)
    requires DualsCover(dual, S, T)
    ensures Priced(PI, S) && Priced(PI, T)
  {
    map n | n in S + T :: if n in T then dual[|S| + n.id] else dual[n.id]
  }
  /** setPotentials from the duals of the last solve; PI records the potentials it gives. */
  method TakePotentials(lp: TransportLPSolver, sol: TransportPlan) returns (ghost PI: PotentialMap)
    requires Holds(lp, sol)
    modifies (set n | n in sol.source.nodes)`potential, (set n | n in sol.source.nodes)`piMin, (set n | n in sol.source.nodes)`piMax
    modifies (set n | n in sol.target.nodes)`potential, (set n | n in sol.target.nodes)`piMin, (set n | n in sol.target.nodes)`piMax
    ensures DualsCover(lp.solver.dual, sol.source.nodes, sol.target.nodes)
    ensures PI == DualPotentials(lp.solver.dual, sol.source.nodes, sol.target.nodes) && Recorded(PI)
    ensures forall n :: n in sol.source.nodes || n in sol.target.nodes ==> n.piMin == PI[n] && n.piMax == PI[n]
    ensures unchanged(lp, lp.solver, sol, sol.source, sol.target)
  {
    HeldIndices(lp, sol);
    lp.SetPotentials(sol.source.nodes, sol.target.nodes);
    PI := DualPotentials(lp.solver.dual, sol.source.nodes, sol.target.nodes);
  }

  /**
   * Every arc of Q that P lacks is the path the search records for an
   * admitted pair of a node of F and a node of T.
   */
  ghost predicate NewDrawn(Q: seq<map<int, Path>>, P: seq<map<int, Path>>, F: seq<TransportNode>, T: seq<TransportNode>,
                           X: seq<map<int, Path>>, PI: PotentialMap, cost: CostFunction, p: real) {
    forall b :: Has(Q, b) && !Has(P, b) ==>
      && Get(Q, b).Key() == b
      && Get(Q, b) == NP.PairPath(Get(Q, b).from, Get(Q, b).to, cost, p).(index := Get(Q, b).index)
      && Admitted(X, PI, Get(Q, b).from, Get(Q, b).to, cost, p)
      && Get(Q, b).from in F && Get(Q, b).to in T
  }

  /** A new arc drawn from [f] and [t] is drawn from any F and T holding f and t. */
  lemma DrawnWiden(Q: seq<map<int, Path>>, P: seq<map<int, Path>>, f: TransportNode, t: TransportNode, F: seq<TransportNode>, T: seq<TransportNode>,
                   X: seq<map<int, Path>>, PI: PotentialMap, cost: CostFunction, p: real)
    requires NewDrawn(Q, P, [f], [t], X, PI, cost, p) && f in F && t in T
    ensures NewDrawn(Q, P, F, T, X, PI, cost, p)
  {
  }

  /** Arcs drawn in two steps are drawn in one. */
  lemma DrawnTrans(R: seq<map<int, Path>>, Q: seq<map<int, Path>>, P: seq<map<int, Path>>, F: seq<TransportNode>, T: seq<TransportNode>,
                   X: seq<map<int, Path>>, PI: PotentialMap, cost: CostFunction, p: real)
    requires Keeps(R, Q) && NewDrawn(R, Q, F, T, X, PI, cost, p) && NewDrawn(Q, P, F, T, X, PI, cost, p)
    ensures NewDrawn(R, P, F, T, X, PI, cost, p)
  {
    forall b | Has(R, b) && !Has(P, b)
      ensures Get(R, b).from in F
    {
      if Has(Q, b) {
        assert Get(R, b) == Get(Q, b);
      }
    }
  }

  /** The balls (F, T) of a new seed a extend what N covers. */
  lemma SeedCovered(Q: seq<map<int, Path>>, P: seq<map<int, Path>>, B: Balls, a: Arc, F: seq<TransportNode>, T: seq<TransportNode>,
                    X: seq<map<int, Path>>, PI: PotentialMap, cost: CostFunction, p: real)
    requires Covered(P, B, X, PI, cost, p) && Keeps(Q, P)
    requires forall f2, t2 :: f2 in F && t2 in T && Admitted(X, PI, f2, t2, cost, p) ==> Has(Q, (f2.id, t2.id))
    ensures Covered(Q, B[a := (F, T)], X, PI, cost, p)
  {
    var B' := B[a := (F, T)];
    forall a', f2, t2 | a' in B' && f2 in B'[a'].0 && t2 in B'[a'].1 && Admitted(X, PI, f2, t2, cost, p)
      ensures Has(Q, (f2.id, t2.id))
    {
      if a' != a {
        assert Has(P, (f2.id, t2.id));
      }
    }
  }
}
