/**
 * RefineNeighborhoodStrategy: replace the primary plan by a new plan
 * built around the arcs that carry mass, and solve its LP from the basis
 * of the last solve.
 *
 * A pass sets the node potentials from the duals of the last solve, builds
 * a new plan from the seeds of the old one (its arcs of positive weight):
 * each seed is copied, and every pair of nodes within SearchRadius of the
 * seed's endpoints whose reduced cost is not positive is added with its
 * transport cost (refine). The new plan's LP starts from the row basis of
 * the last solve and from BASIC on the copied seeds, LOWER elsewhere; it
 * is solved and stored. Passes repeat until the cost repeats, the
 * improvement falls within expansionTolerance or nRefinementIterations
 * passes have run.
 */
module RefineNeighborhood {
  import opened Nodes
  import opened Levels
  import opened Plans
  import opened LPSolver
  import opened Lemon
  import opened TransportSolver
  import opened StrategyLP
  import opened NeighborhoodStrategy
  import NP = NeighborhoodPropagation

  /** q is a copy, under whatever index, of the arc of E at its key, an arc that carries mass. */
  ghost predicate Copied(q: Path, E: seq<map<int, Path>>) {
    Has(E, q.Key()) && Get(E, q.Key()).w > 0.0 && q == Get(E, q.Key()).(index := q.index)
  }

  /**
   * Every arc of the rows N is a copied seed of the rows E or a pair around
   * a seed of B whose reduced cost is not positive, recorded with its
   * transport cost.
   */
  ghost predicate Refined(N: seq<map<int, Path>>, E: seq<map<int, Path>>, B: Balls, PI: PotentialMap, cost: CostFunction, p: real) {
    forall k :: Has(N, k) ==> Get(N, k).Key() == k && (Copied(Get(N, k), E) || Drawn(Get(N, k), B, [], PI, cost, p))
  }

  /** Every seed of B is an arc of N, and so is every pair within its balls whose reduced cost is not positive. */
  ghost predicate Spanned(N: seq<map<int, Path>>, B: Balls, PI: PotentialMap, cost: CostFunction, p: real) {
    (forall a :: a in B ==> Has(N, a)) && Covered(N, B, [], PI, cost, p)
  }

  /** N is spanned by and refined around the seeds of B of the rows E. */
  ghost predicate Built(N: seq<map<int, Path>>, E: seq<map<int, Path>>, B: Balls, PI: PotentialMap, cost: CostFunction, p: real) {
    Spanned(N, B, PI, cost, p) && Refined(N, E, B, PI, cost, p)
  }

  /**
   * The innermost body of refine: the pair f2, t2 is added to N, with its
   * transport cost, when N lacks its arc and its reduced cost is not
   * positive. Unlike the expand strategy's search, the old plan is not
   * consulted.
   */
  method RefinePair(N: TransportPlan, sol: TransportPlan, f2: TransportNode, t2: TransportNode, p: real, cost: CostFunction,
                    ghost PI: PotentialMap)
    requires Beside(N, sol) && N != sol && 0 <= f2.id < |sol.paths| && 0 <= t2.id < |sol.toPathCounts|
    requires Recorded(PI) && f2 in PI && t2 in PI
    modifies N`paths, N`pathCounter, N`toPathCounts, N`added
    ensures Beside(N, sol) && Keeps(N.paths, old(N.paths))
    ensures Reduces(PI, f2, t2, cost, p) ==> Has(N.paths, (f2.id, t2.id))
    ensures NewDrawn(N.paths, old(N.paths), [f2], [t2], [], PI, cost, p)
  {
    InArcSet(N.paths, (f2.id, t2.id));
    if !N.HasPath(f2.id, t2.id) {
      var q := NP.PairPath(f2, t2, cost, p);
      var rc := q.cost - q.from.potential + q.to.potential;
      if rc <= 0.0 {
        var _ := N.AddPath(q);
      }
    }
  }

  /** The loop over the target neighbours T of one source neighbour f. */
  method RefineRow(f: TransportNode, F: seq<TransportNode>, T: seq<TransportNode>, N: TransportPlan, sol: TransportPlan, p: real,
                   cost: CostFunction, ghost PI: PotentialMap)
    requires Fits(sol) && Beside(N, sol) && N != sol && f in F && Inside(F, sol.source.nodes) && Inside(T, sol.target.nodes)
    requires Recorded(PI) && Priced(PI, sol.source.nodes) && Priced(PI, sol.target.nodes)
    modifies N`paths, N`pathCounter, N`toPathCounts, N`added
    ensures Beside(N, sol) && Keeps(N.paths, old(N.paths))
    ensures forall l :: 0 <= l < |T| && Reduces(PI, f, T[l], cost, p) ==> Has(N.paths, (f.id, T[l].id))
    ensures NewDrawn(N.paths, old(N.paths), F, T, [], PI, cost, p)
  {
    ghost var N0 := N.paths;
    NodeAtId(sol.source.nodes, f);
    var k := 0;
    while k < |T|
      invariant 0 <= k <= |T|
      invariant Beside(N, sol) && Keeps(N.paths, N0) && NewDrawn(N.paths, N0, F, T, [], PI, cost, p)
      invariant forall l :: 0 <= l < k && Reduces(PI, f, T[l], cost, p) ==> Has(N.paths, (f.id, T[l].id))
    {
      ghost var Q := N.paths;
      NodeAtId(sol.target.nodes, T[k]);
      RefinePair(N, sol, f, T[k], p, cost, PI);
      DrawnWiden(N.paths, Q, f, T[k], F, T, [], PI, cost, p);
      DrawnTrans(N.paths, Q, N0, F, T, [], PI, cost, p);
      k := k + 1;
    }
  }

  /**
   * The two loops over the neighbourhoods F and T of one seed's endpoints:
   * afterwards every pair of F x T whose reduced cost is not positive is
   * an arc of N.
   */
  method RefinePairs(F: seq<TransportNode>, T: seq<TransportNode>, N: TransportPlan, sol: TransportPlan, p: real,
                     cost: CostFunction, ghost PI: PotentialMap)
    requires Fits(sol) && Beside(N, sol) && N != sol && Inside(F, sol.source.nodes) && Inside(T, sol.target.nodes)
    requires Recorded(PI) && Priced(PI, sol.source.nodes) && Priced(PI, sol.target.nodes)
    modifies N`paths, N`pathCounter, N`toPathCounts, N`added
    ensures Beside(N, sol) && Keeps(N.paths, old(N.paths))
    ensures forall f2, t2 :: f2 in F && t2 in T && Reduces(PI, f2, t2, cost, p) ==> Has(N.paths, (f2.id, t2.id))
    ensures NewDrawn(N.paths, old(N.paths), F, T, [], PI, cost, p)
  {
    ghost var N0 := N.paths;
    var i := 0;
    while i < |F|
      invariant 0 <= i <= |F|
      invariant Beside(N, sol) && Keeps(N.paths, N0) && NewDrawn(N.paths, N0, F, T, [], PI, cost, p)
      invariant forall j, l :: 0 <= j < i && 0 <= l < |T| && Reduces(PI, F[j], T[l], cost, p) ==> Has(N.paths, (F[j].id, T[l].id))
    {
      ghost var Q := N.paths;
      RefineRow(F[i], F, T, N, sol, p, cost, PI);
      DrawnTrans(N.paths, Q, N0, F, T, [], PI, cost, p);
      i := i + 1;
    }
    forall f2, t2 | f2 in F && t2 in T && Reduces(PI, f2, t2, cost, p)
      ensures Has(N.paths, (f2.id, t2.id))
    {
      var j :| 0 <= j < |F| && F[j] == f2;
      var l :| 0 <= l < |T| && T[l] == t2;
    }
  }

  /** The seed `path` is copied into N unless N already has its arc. */
  method CopySeed(N: TransportPlan, sol: TransportPlan, path: Path)
    requires Beside(N, sol) && N != sol && 0 <= path.from.id < |sol.paths| && 0 <= path.to.id < |sol.toPathCounts|
    modifies N`paths, N`pathCounter, N`toPathCounts, N`added
    ensures Beside(N, sol) && Keeps(N.paths, old(N.paths)) && Has(N.paths, path.Key())
    ensures forall b :: Has(N.paths, b) && !Has(old(N.paths), b) ==> b == path.Key() && Get(N.paths, b) == path.(index := Get(N.paths, b).index)
  {
    InArcSet(N.paths, path.Key());
    if !N.HasPath(path.from.id, path.to.id) {
      var _ := N.AddPath(path);
    }
  }

  /** Copying the seed at c of E keeps N spanned and refined around the seeds of B. */
  lemma SeedCopied(Q: seq<map<int, Path>>, P: seq<map<int, Path>>, E: seq<map<int, Path>>, B: Balls, c: Arc,
                   PI: PotentialMap, cost: CostFunction, p: real)
    requires Spanned(P, B, PI, cost, p) && Refined(P, E, B, PI, cost, p) && Keeps(Q, P)
    requires Has(E, c) && Get(E, c).Key() == c && Get(E, c).w > 0.0
    requires forall b :: Has(Q, b) && !Has(P, b) ==> b == c && Get(Q, b) == Get(E, c).(index := Get(Q, b).index)
    ensures Spanned(Q, B, PI, cost, p) && Refined(Q, E, B, PI, cost, p)
  {
    forall a, f2, t2 | a in B && f2 in B[a].0 && t2 in B[a].1 && Admitted([], PI, f2, t2, cost, p)
      ensures Has(Q, (f2.id, t2.id))
    {
      assert Has(P, (f2.id, t2.id));
    }
    forall k | Has(Q, k)
      ensures Get(Q, k).Key() == k && (Copied(Get(Q, k), E) || Drawn(Get(Q, k), B, [], PI, cost, p))
    {
      if !Has(P, k) {
        assert k == c && Copied(Get(Q, k), E);
      }
    }
  }

  /**
   * When every pair of F x T that reduces is in Q, Q spans the seeds of
   * B and the new seed c with balls (F, T).
   */
  lemma SeedSpanned(Q: seq<map<int, Path>>, P: seq<map<int, Path>>, B: Balls, c: Arc,
                    F: seq<TransportNode>, T: seq<TransportNode>, PI: PotentialMap, cost: CostFunction, p: real)
    requires Spanned(P, B, PI, cost, p) && Keeps(Q, P) && Has(P, c)
    requires forall f2, t2 :: f2 in F && t2 in T && Reduces(PI, f2, t2, cost, p) ==> Has(Q, (f2.id, t2.id))
    ensures Spanned(Q, B[c := (F, T)], PI, cost, p)
  {
    SeedCovered(Q, P, B, c, F, T, [], PI, cost, p);
  }

  /** The pairs drawn from the balls (F, T) of a new seed c are refined around the seeds of B[c := (F, T)]. */
  lemma SeedRefined(Q: seq<map<int, Path>>, P: seq<map<int, Path>>, E: seq<map<int, Path>>, B: Balls, c: Arc,
                    F: seq<TransportNode>, T: seq<TransportNode>, PI: PotentialMap, cost: CostFunction, p: real)
    requires Refined(P, E, B, PI, cost, p) && Keeps(Q, P) && c !in B
    requires NewDrawn(Q, P, F, T, [], PI, cost, p)
    ensures Refined(Q, E, B[c := (F, T)], PI, cost, p)
  {
    var B' := B[c := (F, T)];
    forall k | Has(Q, k)
      ensures Get(Q, k).Key() == k && (Copied(Get(Q, k), E) || Drawn(Get(Q, k), B', [], PI, cost, p))
    {
      var q := Get(Q, k);
      if Has(P, k) {
        if !Copied(q, E) {
          assert Drawn(Get(P, k), B, [], PI, cost, p);
          var a' :| a' in B && q.from in B[a'].0 && q.to in B[a'].1;
          assert a' in B' && B'[a'] == B[a'];
        }
      } else {
        assert c in B' && q.from in B'[c].0 && q.to in B'[c].1;
      }
    }
  }

  /**
   * The body of refine's walk for the arc `path` at key c of sol: a seed
   * (positive weight) is copied into N and the pairs within the balls R
   * gives it are added when they reduce.
   */
  method RefineSeed(path: Path, ghost c: Arc, sol: TransportPlan, N: TransportPlan, p: real, rFactor: real, cost: CostFunction,
                    ghost PI: PotentialMap, ghost B: Balls, ghost R: Balls)
    returns (ghost B': Balls)
    requires Fits(sol) && Beside(N, sol) && N != sol && c !in B
    requires Has(sol.paths, c) && Get(sol.paths, c) == path
    requires c in R && Within(B, R) && R[c] == Reach(path, rFactor, sol.source.neighborhood, sol.target.neighborhood)
    requires Built(N.paths, sol.paths, B, PI, cost, p)
    requires path.from in sol.source.nodes && path.to in sol.target.nodes
    requires Closed(sol.source.neighborhood, sol.source.nodes) && Closed(sol.target.neighborhood, sol.target.nodes)
    requires Recorded(PI) && Priced(PI, sol.source.nodes) && Priced(PI, sol.target.nodes)
    modifies N`paths, N`pathCounter, N`toPathCounts, N`added
    ensures Beside(N, sol) && Built(N.paths, sol.paths, B', PI, cost, p)
    ensures path.w > 0.0 ==> B' == B[c := R[c]]
    ensures path.w <= 0.0 ==> B' == B
    ensures Within(B', R)
  {
    B' := B;
    if path.w > 0.0 {
      ghost var P0 := N.paths;
      CopySeed(N, sol, path);
      SeedCopied(N.paths, P0, sol.paths, B, c, PI, cost, p);
      var r := Reach(path, rFactor, sol.source.neighborhood, sol.target.neighborhood);
      ghost var P := N.paths;
      RefinePairs(r.0, r.1, N, sol, p, cost, PI);
      SeedSpanned(N.paths, P, B, c, r.0, r.1, PI, cost, p);
      SeedRefined(N.paths, P, sol.paths, B, c, r.0, r.1, PI, cost, p);
      B' := B[c := r];
      WithinSet(B, R, c);
    }
  }

  /** The seeds with balls in B are the arcs of E among D that carry mass. */
  ghost predicate Seeds(B: Balls, D: set<Arc>, E: seq<map<int, Path>>) {
    forall a :: a in B <==> a in D && Has(E, a) && Get(E, a).w > 0.0
  }

  /** Passing arc c of E adds it to the seeds exactly when it carries mass. */
  lemma SeedsStep(B: Balls, B': Balls, D: set<Arc>, E: seq<map<int, Path>>, c: Arc, balls: (seq<TransportNode>, seq<TransportNode>))
    requires Seeds(B, D, E) && c !in D && Has(E, c)
    requires Get(E, c).w > 0.0 ==> B' == B[c := balls]
    requires Get(E, c).w <= 0.0 ==> B' == B
    ensures Seeds(B', D + {c}, E)
  {
  }

  /** Part way through refine's walk over the rows E of sol: the passed arcs are D, and the seeds among them have balls in B. */
  ghost predicate Refining(sol: TransportPlan, E: seq<map<int, Path>>, D: set<Arc>, B: Balls, N: TransportPlan,
                           PI: PotentialMap, cost: CostFunction, p: real)
    reads sol, N`paths, N`toPathCounts, N`pathCounter, N`added
  {
    && sol.Valid() && sol.Cursor() && sol.paths == E
    && DoneUpTo(E, D, sol.IsAtEnd(), (sol.outer, sol.inner))
    && Seeds(B, D, E)
    && Beside(N, sol) && Built(N.paths, E, B, PI, cost, p)
  }

  /** One arc of refine's walk: refine around it when it is a seed, then move the cursor on. */
  method RefineStep(sol: TransportPlan, N: TransportPlan, p: real, rFactor: real, cost: CostFunction,
                    ghost PI: PotentialMap, ghost E: seq<map<int, Path>>, ghost R: Balls, ghost D: set<Arc>, ghost B: Balls, ghost c: Arc)
    returns (ghost D': set<Arc>, ghost B': Balls)
    requires Refining(sol, E, D, B, N, PI, cost, p) && !sol.IsAtEnd()
    requires Fits(sol) && N != sol && EndsIn(E, sol.source.nodes, sol.target.nodes)
    requires Closed(sol.source.neighborhood, sol.source.nodes) && Closed(sol.target.neighborhood, sol.target.nodes)
    requires Recorded(PI) && Priced(PI, sol.source.nodes) && Priced(PI, sol.target.nodes)
    requires c == (sol.outer, sol.inner) && Has(E, c) && Within(B, R)
    requires Reaches(E, R, rFactor, sol) && forall a :: Has(E, a) ==> a in R
    modifies sol`outer, sol`inner, N`paths, N`pathCounter, N`toPathCounts, N`added
    ensures Refining(sol, E, D', B', N, PI, cost, p) && Within(B', R)
    ensures sol.Remaining() < old(sol.Remaining())
  {
    var path := sol.Current();
    ReachAt(E, R, rFactor, sol, c);
    assert Get(E, c) == path && c !in D;
    B' := RefineSeed(path, c, sol, N, p, rFactor, cost, PI, B, R);
    SeedsStep(B, B', D, E, c, R[c]);
    sol.Pass(D);
    D' := D + {c};
  }

  /** The balls R holds for an arc c of E are the ones Reach gives it. */
  lemma ReachAt(E: seq<map<int, Path>>, R: Balls, rFactor: real, sol: TransportPlan, c: Arc)
    requires Reaches(E, R, rFactor, sol) && (forall a :: Has(E, a) ==> a in R) && Has(E, c)
    ensures c in R && R[c] == Reach(Get(E, c), rFactor, sol.source.neighborhood, sol.target.neighborhood)
  {
  }

  /** refine's walk over sol, from its first arc to its end. */
  method RefineWalk(sol: TransportPlan, N: TransportPlan, p: real, rFactor: real, cost: CostFunction,
                    ghost PI: PotentialMap, ghost E: seq<map<int, Path>>, ghost R: Balls)
    returns (ghost D: set<Arc>, ghost B: Balls)
    requires Refining(sol, E, {}, map[], N, PI, cost, p)
    requires Fits(sol) && N != sol && EndsIn(E, sol.source.nodes, sol.target.nodes)
    requires Closed(sol.source.neighborhood, sol.source.nodes) && Closed(sol.target.neighborhood, sol.target.nodes)
    requires Recorded(PI) && Priced(PI, sol.source.nodes) && Priced(PI, sol.target.nodes)
    requires Reaches(E, R, rFactor, sol) && forall a :: Has(E, a) ==> a in R
    modifies sol`outer, sol`inner, N`paths, N`pathCounter, N`toPathCounts, N`added
    ensures Refining(sol, E, D, B, N, PI, cost, p) && sol.IsAtEnd() && Within(B, R)
  {
    D := {};
    B := map[];
    while !sol.IsAtEnd()
      invariant Refining(sol, E, D, B, N, PI, cost, p)
      invariant Within(B, R)
      decreases sol.Remaining()
    {
      ghost var c: Arc := (sol.outer, sol.inner);
      D, B := RefineStep(sol, N, p, rFactor, cost, PI, E, R, D, B, c);
    }
  }

  /**
   * refine: the walk over sol into the empty plan N. Afterwards the seeds
   * are the arcs of sol with positive weight, each with the balls Reach
   * gives it; every seed and every pair within a seed's balls whose
   * reduced cost is not positive is an arc of N, and every arc of N is a
   * copied seed or such a pair.
   */
  method Refine(sol: TransportPlan, N: TransportPlan, p: real, rFactor: real, cost: CostFunction, ghost PI: PotentialMap)
    returns (ghost B: Balls)
    requires Fits(sol) && EndsIn(sol.paths, sol.source.nodes, sol.target.nodes)
    requires Closed(sol.source.neighborhood, sol.source.nodes) && Closed(sol.target.neighborhood, sol.target.nodes)
    requires N != sol && Beside(N, sol) && forall b :: !Has(N.paths, b)
    requires Recorded(PI) && Priced(PI, sol.source.nodes) && Priced(PI, sol.target.nodes)
    modifies sol`outer, sol`inner, N`paths, N`pathCounter, N`toPathCounts, N`added
    ensures Beside(N, sol)
    ensures forall a :: a in B <==> Has(sol.paths, a) && Get(sol.paths, a).w > 0.0
    ensures forall a :: a in B ==> B[a] == old(Reach(Get(sol.paths, a), rFactor, sol.source.neighborhood, sol.target.neighborhood))
    ensures forall a :: a in B ==> Inside(B[a].0, sol.source.nodes) && Inside(B[a].1, sol.target.nodes)
    ensures Built(N.paths, sol.paths, B, PI, cost, p)
    ensures unchanged(sol`paths, sol`toPathCounts, sol`pathCounter, sol`added, sol.source`nodes, sol.target`nodes)
  {
    ghost var E := sol.paths;
    ghost var R := ReachAll(E, rFactor, sol.source.neighborhood, sol.target.neighborhood);
    ReachInside(E, R, rFactor, sol.source.neighborhood, sol.target.neighborhood, sol.source.nodes, sol.target.nodes);
    sol.Begin();
    ghost var D;
    D, B := RefineWalk(sol, N, p, rFactor, cost, PI, E, R);
    WalkSeeds(B, R, D, E, (sol.outer, sol.inner), sol.source.nodes, sol.target.nodes);
  }

  /** At the end of the walk the seeds are all the arcs of E that carry mass, with balls from R. */
  lemma WalkSeeds(B: Balls, R: Balls, D: set<Arc>, E: seq<map<int, Path>>, pos: Arc, S: seq<TransportNode>, T: seq<TransportNode>)
    requires Seeds(B, D, E) && DoneUpTo(E, D, true, pos) && Within(B, R)
    requires forall a :: a in R ==> Inside(R[a].0, S) && Inside(R[a].1, T)
    ensures forall a :: a in B <==> Has(E, a) && Get(E, a).w > 0.0
    ensures forall a :: a in B ==> a in R && B[a] == R[a] && Inside(B[a].0, S) && Inside(B[a].1, T)
  {
  }

  /** The balls Reach gives the arcs of E hold nodes of the arcs' own levels. */
  lemma ReachInside(E: seq<map<int, Path>>, R: Balls, rFactor: real, nbS: Neighborhood, nbT: Neighborhood,
                    S: seq<TransportNode>, T: seq<TransportNode>)
    requires EndsIn(E, S, T) && Closed(nbS, S) && Closed(nbT, T)
    requires forall a :: a in R ==> Has(E, a) && R[a] == Reach(Get(E, a), rFactor, nbS, nbT)
    ensures forall a :: a in R ==> Inside(R[a].0, S) && Inside(R[a].1, T)
  {
    forall a | a in R
      ensures Inside(R[a].0, S) && Inside(R[a].1, T)
    {
      assert Get(E, a).from in S && Get(E, a).to in T;
    }
  }

  /** Arcs of a refined plan join the nodes at their keys' positions, as the old plan's do. */
  lemma RefinedEnds(N: seq<map<int, Path>>, E: seq<map<int, Path>>, B: Balls, PI: PotentialMap, cost: CostFunction, p: real,
                    S: seq<TransportNode>, T: seq<TransportNode>)
    requires Refined(N, E, B, PI, cost, p) && EndsIn(E, S, T) && IdsArePositions(S) && IdsArePositions(T)
    requires |N| <= |S| && forall a :: a in B ==> Inside(B[a].0, S) && Inside(B[a].1, T)
    ensures EndsIn(N, S, T)
  {
    forall k | Has(N, k)
      ensures 0 <= k.0 < |S| && 0 <= k.1 < |T| && Get(N, k).from == S[k.0] && Get(N, k).to == T[k.1]
    {
      var q := Get(N, k);
      if !Copied(q, E) {
        var a :| a in B && q.from in B[a].0 && q.to in B[a].1;
        NodeAtId(S, q.from);
        NodeAtId(T, q.to);
      }
    }
  }

  /**
   * The column basis refine gives the new plan N: going over sol's arcs,
   * the column of each arc that carries mass becomes BASIC, all others
   * stay LOWER. Column i is N's i-th arc in creation order.
   */
  method ColumnStatuses(sol: TransportPlan, N: TransportPlan) returns (colStatus: seq<Status>)
    requires sol.Valid() && N.Valid() && N.Dense() && |N.paths| == |sol.paths| && N != sol
    requires forall a :: Has(sol.paths, a) && Get(sol.paths, a).w > 0.0 ==> Has(N.paths, a)
    modifies sol`outer, sol`inner
    ensures |colStatus| == N.pathCounter
    ensures forall i :: 0 <= i < |colStatus| ==> colStatus[i] == BASIC || colStatus[i] == LOWER
    ensures forall i :: 0 <= i < |colStatus| ==>
      (colStatus[i] == BASIC <==> Has(sol.paths, N.added[i]) && Get(sol.paths, N.added[i]).w > 0.0)
  {
    var n := N.GetNumberOfPaths();
    colStatus := seq(n, _ => LOWER);
    sol.Begin();
    ghost var D: set<Arc> := {};
    while !sol.IsAtEnd()
      invariant sol.Valid() && sol.Cursor()
      invariant DoneUpTo(sol.paths, D, sol.IsAtEnd(), (sol.outer, sol.inner))
      invariant |colStatus| == |N.added|
      invariant forall i :: 0 <= i < |colStatus| ==> colStatus[i] == BASIC || colStatus[i] == LOWER
      invariant forall i :: 0 <= i < |colStatus| ==>
        (colStatus[i] == BASIC <==> N.added[i] in D && Has(sol.paths, N.added[i]) && Get(sol.paths, N.added[i]).w > 0.0)
      decreases sol.Remaining()
    {
      ghost var c: Arc := (sol.outer, sol.inner);
      var path := sol.Current();
      if path.w > 0.0 {
        var index := N.GetPathIndex(path);
        forall i | 0 <= i < |N.added| && N.added[i] == c
          ensures i == index
        {
          assert Get(N.paths, N.added[i]).index == i;
        }
        colStatus := colStatus[index := BASIC];
      }
      sol.Pass(D);
      D := D + {c};
    }
    InArcSetAll(sol.paths, D);
    forall a | Has(sol.paths, a)
      ensures a in D
    {
      InArcSet(sol.paths, a);
    }
  }

  /** The row basis of the last solve, read back row by row: it is the backend's row statuses, whole. */
  method RowStatuses(lp: TransportLPSolver) returns (rowStatus: seq<Status>)
    requires lp.solver.Valid()
    ensures rowStatus == lp.solver.rowStatus
  {
    var nrow := lp.GetNumberOfRows();
    rowStatus := [];
    var i := 0;
    while i < nrow
      invariant 0 <= i <= nrow && rowStatus == lp.solver.rowStatus[..i]
    {
      var status := lp.GetRowStatus(i);
      rowStatus := rowStatus + [status];
      i := i + 1;
    }
  }

  /**
   * What a pass leaves behind: the duals of the solve before it, the
   * potentials taken from them, the seeds of prior with their balls, and
   * the new plan built from prior.
   */
  ghost predicate Passed(prior: seq<map<int, Path>>, built: seq<map<int, Path>>, dual: seq<real>, B: Balls, PI: PotentialMap,
                         S: seq<TransportNode>, T: seq<TransportNode>, cost: CostFunction, p: real) {
    && DualsCover(dual, S, T) && PI == DualPotentials(dual, S, T)
    && (forall a :: a in B <==> Has(prior, a) && Get(prior, a).w > 0.0)
    && Built(built, prior, B, PI, cost, p)
  }

  /** Every seed of a pass is an arc of the plan it built. */
  lemma PassedSeeds(prior: seq<map<int, Path>>, built: seq<map<int, Path>>, dual: seq<real>, B: Balls, PI: PotentialMap,
                    S: seq<TransportNode>, T: seq<TransportNode>, cost: CostFunction, p: real)
    requires Passed(prior, built, dual, B, PI, S, T, cost, p)
    ensures forall a :: Has(prior, a) && Get(prior, a).w > 0.0 ==> Has(built, a)
  {
    forall a | Has(prior, a) && Get(prior, a).w > 0.0
      ensures Has(built, a)
    {
      assert a in B;
    }
  }

  /**
   * The start of a pass: the potentials from the duals of the last solve,
   * a new plan for sol's levels, and refine from sol into it. The plan is
   * allocated before setPotentials runs, where the source allocates it
   * after; the constructor reads no potential, so the outcome is the same.
   */
  method Rebuild(lp: TransportLPSolver, sol: TransportPlan, p: real, rFactor: real, cost: CostFunction)
    returns (newSol: TransportPlan, ghost B: Balls, ghost PI: PotentialMap)
    requires Holds(lp, sol) && EndsIn(sol.paths, sol.source.nodes, sol.target.nodes)
    requires Closed(sol.source.neighborhood, sol.source.nodes) && Closed(sol.target.neighborhood, sol.target.nodes)
    modifies (set n | n in sol.source.nodes)`potential, (set n | n in sol.source.nodes)`piMin, (set n | n in sol.source.nodes)`piMax
    modifies (set n | n in sol.target.nodes)`potential, (set n | n in sol.target.nodes)`piMin, (set n | n in sol.target.nodes)`piMax
    modifies sol`outer, sol`inner
    ensures fresh(newSol) && newSol.source == sol.source && newSol.target == sol.target
    ensures Fits(newSol) && newSol.cost == MaxDouble && EndsIn(newSol.paths, sol.source.nodes, sol.target.nodes)
    ensures Passed(sol.paths, newSol.paths, lp.solver.dual, B, PI, sol.source.nodes, sol.target.nodes, cost, p)
    ensures forall a :: a in B ==> B[a] == old(Reach(Get(sol.paths, a), rFactor, sol.source.neighborhood, sol.target.neighborhood))
  {
    newSol := new TransportPlan(sol.source, sol.target);
    PI := TakePotentials(lp, sol);
    B := Refine(sol, newSol, p, rFactor, cost, PI);
    RefinedEnds(newSol.paths, sol.paths, B, PI, cost, p, sol.source.nodes, sol.target.nodes);
  }

  /**
   * The rest of a pass up to setupBasis: the row basis of the last solve
   * and the column basis from sol's weights are read, the time counters are
   * carried over, createLP sets up the new plan's LP and setupBasis starts
   * it from those statuses.
   */
  method Restart(lp: TransportLPSolver, sol: TransportPlan, newSol: TransportPlan)
    requires Holds(lp, sol) && Weighted(sol.source) && Fits(newSol) && newSol != sol
    requires newSol.source == sol.source && newSol.target == sol.target
    requires forall a :: Has(sol.paths, a) && Get(sol.paths, a).w > 0.0 ==> Has(newSol.paths, a)
    modifies lp`pathOffset, lp`sourceMassSupplyDistributionStart, lp`sourceMassSinkDistributionStart
    modifies lp`targetMassSupplyDistributionStart, lp`targetMassSinkDistributionStart
    modifies lp`sourceMassExchangePath, lp`targetMassExchangePath, lp`sourceCirculationPath
    modifies lp`sourceMassSupplyNode, lp`sourceMassSinkNode, lp`targetMassSupplyNode, lp`targetMassSinkNode
    modifies lp.solver`sInd, lp.solver`tInd, lp.solver`coeff, lp.solver`primal, lp.solver`colStatus, lp.solver`colLB, lp.solver`colUB
    modifies lp.solver`mass, lp.solver`rowStatus, lp.solver`dual, lp.solver`ns, lp.solver`nt
    modifies sol`outer, sol`inner, newSol`outer, newSol`inner, newSol`timeRefine, newSol`timeSolve, newSol`timePropagate
    ensures Holds(lp, newSol)
    ensures newSol.timeRefine == sol.timeRefine && newSol.timeSolve == sol.timeSolve && newSol.timePropagate == sol.timePropagate
    ensures forall i :: 0 <= i < newSol.pathCounter ==>
      (lp.solver.colStatus[lp.pathOffset + i] == BASIC <==> Has(sol.paths, newSol.added[i]) && Get(sol.paths, newSol.added[i]).w > 0.0)
    ensures lp.solver.rowStatus == old(lp.solver.rowStatus)
  {
    var rowStatus := RowStatuses(lp);
    var colStatus := ColumnStatuses(sol, newSol);
    newSol.timeRefine := sol.timeRefine;
    newSol.timeSolve := sol.timeSolve;
    newSol.timePropagate := sol.timePropagate;
    ghost var P, added := sol.paths, newSol.added;
    Create(lp, newSol);
    Warm(lp, newSol, colStatus, rowStatus);
    forall i | 0 <= i < newSol.pathCounter
      ensures lp.solver.colStatus[lp.pathOffset + i] == BASIC <==> Has(P, added[i]) && Get(P, added[i]).w > 0.0
    {
      assert lp.solver.colStatus[lp.pathOffset + i] == colStatus[i];
    }
  }

  /** Restart, then solveLP on the new plan's LP. */
  method Resume(lp: TransportLPSolver, sol: TransportPlan, newSol: TransportPlan)
    requires Holds(lp, sol) && Weighted(sol.source) && Fits(newSol) && newSol != sol
    requires newSol.source == sol.source && newSol.target == sol.target
    requires forall a :: Has(sol.paths, a) && Get(sol.paths, a).w > 0.0 ==> Has(newSol.paths, a)
    modifies lp`pathOffset, lp`sourceMassSupplyDistributionStart, lp`sourceMassSinkDistributionStart
    modifies lp`targetMassSupplyDistributionStart, lp`targetMassSinkDistributionStart
    modifies lp`sourceMassExchangePath, lp`targetMassExchangePath, lp`sourceCirculationPath
    modifies lp`sourceMassSupplyNode, lp`sourceMassSinkNode, lp`targetMassSupplyNode, lp`targetMassSinkNode
    modifies lp.solver`sInd, lp.solver`tInd, lp.solver`coeff, lp.solver`primal, lp.solver`colStatus, lp.solver`colLB, lp.solver`colUB
    modifies lp.solver`mass, lp.solver`rowStatus, lp.solver`dual, lp.solver`ns, lp.solver`nt
    modifies lp.solver`success, lp.solver`objValue, lp.solver`iCount
    modifies sol`outer, sol`inner, newSol`outer, newSol`inner, newSol`timeRefine, newSol`timeSolve, newSol`timePropagate
    ensures Holds(lp, newSol) && Solved(lp.solver)
    ensures unchanged(sol`paths, newSol`paths, sol.source`nodes, sol.target`nodes, newSol`cost)
  {
    Restart(lp, sol, newSol);
    StrategyLP.Solve(lp, newSol);
  }

  /** storeLP changes weights only, so the stored plan joins the same nodes. */
  lemma StoredEnds(rs: seq<map<int, Path>>, P: seq<map<int, Path>>, primal: seq<real>, offset: int, S: seq<TransportNode>, T: seq<TransportNode>)
    requires StoredFrom(rs, P, primal, offset) && EndsIn(P, S, T)
    ensures EndsIn(rs, S, T)
  {
    forall a | Has(rs, a)
      ensures 0 <= a.0 < |S| && 0 <= a.1 < |T| && Get(rs, a).from == S[a.0] && Get(rs, a).to == T[a.1]
    {
      assert Has(P, a);
    }
  }

  /**
   * A pass up to and including solveLP: the new plan is refined from sol,
   * its LP is created, started from the statuses of the last solve and
   * solved. The new plan still costs MaxDouble, since storeLP has not run.
   */
  method RefineSolve(lp: TransportLPSolver, sol: TransportPlan, p: real, rFactor: real, cost: CostFunction)
    returns (newSol: TransportPlan, ghost prior: seq<map<int, Path>>, ghost built: seq<map<int, Path>>, ghost dual: seq<real>,
             ghost B: Balls, ghost PI: PotentialMap)
    requires Holds(lp, sol) && Weighted(sol.source) && EndsIn(sol.paths, sol.source.nodes, sol.target.nodes)
    requires Closed(sol.source.neighborhood, sol.source.nodes) && Closed(sol.target.neighborhood, sol.target.nodes)
    modifies lp`pathOffset, lp`sourceMassSupplyDistributionStart, lp`sourceMassSinkDistributionStart
    modifies lp`targetMassSupplyDistributionStart, lp`targetMassSinkDistributionStart
    modifies lp`sourceMassExchangePath, lp`targetMassExchangePath, lp`sourceCirculationPath
    modifies lp`sourceMassSupplyNode, lp`sourceMassSinkNode, lp`targetMassSupplyNode, lp`targetMassSinkNode
    modifies lp.solver`sInd, lp.solver`tInd, lp.solver`coeff, lp.solver`primal, lp.solver`colStatus, lp.solver`colLB, lp.solver`colUB
    modifies lp.solver`mass, lp.solver`rowStatus, lp.solver`dual, lp.solver`ns, lp.solver`nt
    modifies lp.solver`success, lp.solver`objValue, lp.solver`iCount
    modifies (set n | n in sol.source.nodes)`potential, (set n | n in sol.source.nodes)`piMin, (set n | n in sol.source.nodes)`piMax
    modifies (set n | n in sol.target.nodes)`potential, (set n | n in sol.target.nodes)`piMin, (set n | n in sol.target.nodes)`piMax
    modifies sol`outer, sol`inner
    ensures fresh(newSol) && newSol.source == sol.source && newSol.target == sol.target
    ensures Holds(lp, newSol) && Solved(lp.solver) && newSol.cost == MaxDouble
    ensures EndsIn(newSol.paths, sol.source.nodes, sol.target.nodes)
    ensures prior == sol.paths && built == newSol.paths && dual == old(lp.solver.dual)
    ensures unchanged(sol`paths, sol.source`nodes, sol.target`nodes)
    ensures Passed(prior, built, dual, B, PI, sol.source.nodes, sol.target.nodes, cost, p)
    ensures forall a :: a in B ==> B[a] == old(Reach(Get(sol.paths, a), rFactor, sol.source.neighborhood, sol.target.neighborhood))
  {
    dual := lp.solver.dual;
    prior := sol.paths;
    newSol, B, PI := Rebuild(lp, sol, p, rFactor, cost);
    built := newSol.paths;
    PassedSeeds(prior, built, dual, B, PI, sol.source.nodes, sol.target.nodes, cost, p);
    Resume(lp, sol, newSol);
  }

  /** storeLP on the new plan of a pass: its arcs keep their endpoints. */
  method StoreNew(lp: TransportLPSolver, sol: TransportPlan, p: real, pow: Power)
    requires Holds(lp, sol) && p != 0.0 && EndsIn(sol.paths, sol.source.nodes, sol.target.nodes)
    modifies sol`cost, sol`paths, sol`outer, sol`inner
    modifies (set n | n in sol.source.nodes)`potential, (set n | n in sol.target.nodes)`potential
    ensures Holds(lp, sol) && EndsIn(sol.paths, sol.source.nodes, sol.target.nodes)
    ensures StoredFrom(sol.paths, old(sol.paths), lp.solver.primal, lp.pathOffset)
    ensures sol.cost == pow(lp.solver.objValue, 1.0 / p)
    ensures unchanged(lp, lp.solver, sol.source`nodes, sol.target`nodes)
    ensures StoredPotentials(lp.solver.dual, sol.source.nodes, sol.target.nodes)
  {
    Store(lp, sol, p, pow);
    StoredEnds(sol.paths, old(sol.paths), lp.solver.primal, lp.pathOffset, sol.source.nodes, sol.target.nodes);
  }

  /**
   * solveNeighborhoodLP with the stopping test made on the new plan's
   * stored cost against the cost of the plan it was refined from: each
   * pass refines res, solves and stores the new plan, and stops once its
   * cost improved on prevCost by no more than tol times prevCost. fuel
   * bounds the passes when nIterations is negative. After a pass, res holds
   * the new plan built from prior with the weights of the last solve.
   */
  method SolveNeighborhoodLP(lp: TransportLPSolver, sol: TransportPlan, p: real, pow: Power, cost: CostFunction,
                             rFactor: real, tol: real, nIterations: int, fuel: nat)
    returns (res: TransportPlan, ghost passes: nat, ghost lastCost: real, ghost prior: seq<map<int, Path>>,
             ghost built: seq<map<int, Path>>, ghost dual: seq<real>, ghost B: Balls, ghost PI: PotentialMap)
    requires Holds(lp, sol) && p != 0.0 && Weighted(sol.source) && EndsIn(sol.paths, sol.source.nodes, sol.target.nodes)
    requires Closed(sol.source.neighborhood, sol.source.nodes) && Closed(sol.target.neighborhood, sol.target.nodes)
    modifies lp`pathOffset, lp`sourceMassSupplyDistributionStart, lp`sourceMassSinkDistributionStart
    modifies lp`targetMassSupplyDistributionStart, lp`targetMassSinkDistributionStart
    modifies lp`sourceMassExchangePath, lp`targetMassExchangePath, lp`sourceCirculationPath
    modifies lp`sourceMassSupplyNode, lp`sourceMassSinkNode, lp`targetMassSupplyNode, lp`targetMassSinkNode
    modifies lp.solver`sInd, lp.solver`tInd, lp.solver`coeff, lp.solver`primal, lp.solver`colStatus, lp.solver`colLB, lp.solver`colUB
    modifies lp.solver`mass, lp.solver`rowStatus, lp.solver`dual, lp.solver`ns, lp.solver`nt
    modifies lp.solver`success, lp.solver`objValue, lp.solver`iCount
    modifies (set n | n in sol.source.nodes)`potential, (set n | n in sol.source.nodes)`piMin, (set n | n in sol.source.nodes)`piMax
    modifies (set n | n in sol.target.nodes)`potential, (set n | n in sol.target.nodes)`piMin, (set n | n in sol.target.nodes)`piMax
    modifies sol`outer, sol`inner
    ensures res == sol || fresh(res)
    ensures res.source == sol.source && res.target == sol.target
    ensures Holds(lp, res) && EndsIn(res.paths, sol.source.nodes, sol.target.nodes)
    ensures passes == 0 ==> res == sol && lastCost == -1.0
    ensures passes <= fuel && (nIterations >= 0 ==> passes <= nIterations)
    ensures lastCost == res.cost || Stalled(lastCost, res.cost, tol) || passes == nIterations || passes == fuel
    ensures passes > 0 ==> StoredFrom(res.paths, built, lp.solver.primal, lp.pathOffset)
    ensures passes > 0 ==> res.cost == pow(lp.solver.objValue, 1.0 / p)
    ensures passes > 0 ==> Passed(prior, built, dual, B, PI, old(sol.source.nodes), old(sol.target.nodes), cost, p)
  {
    res := sol;
    var nIter := nIterations;
    var prevCost := -1.0;
    var left := fuel;
    passes, prior, built, dual, B, PI := 0, sol.paths, sol.paths, lp.solver.dual, map[], map[];
    ghost var S, T := sol.source.nodes, sol.target.nodes;
    ghost var i :| 0 <= i < |sol.source.nodes| && sol.source.nodes[i].mass != 0.0;
    while prevCost != res.cost && nIter != 0 && left > 0
      invariant res == sol || fresh(res)
      invariant res.source == sol.source && res.target == sol.target
      invariant Holds(lp, res) && EndsIn(res.paths, sol.source.nodes, sol.target.nodes)
      invariant passes == 0 ==> res == sol && prevCost == -1.0
      invariant left == fuel - passes && nIter == nIterations - passes && (nIterations >= 0 ==> nIter >= 0)
      invariant passes > 0 ==> StoredFrom(res.paths, built, lp.solver.primal, lp.pathOffset)
      invariant passes > 0 ==> res.cost == pow(lp.solver.objValue, 1.0 / p)
      invariant passes > 0 ==> Passed(prior, built, dual, B, PI, S, T, cost, p)
      decreases left
    {
      nIter, left := nIter - 1, left - 1;
      prevCost := res.cost;
      assert Weighted(res.source) by { assert sol.source.nodes[i].mass != 0.0; }
      res, prior, built, dual, B, PI := RefineSolve(lp, res, p, rFactor, cost);
      StoreNew(lp, res, p, pow);
      passes := passes + 1;
      if Stalled(prevCost, res.cost, tol) {
        break;
      }
    }
    lastCost := prevCost;
  }

  /** A new plan, which costs MaxDouble, compared with itself passes the stopping test unless tol is negative. */
  lemma NewPlanStalls(tol: real)
    ensures Stalled(MaxDouble, MaxDouble, tol) <==> tol >= 0.0
  {
  }

  /**
   * solveNeighborhoodLP as written: the stopping test compares the cost
   * of the new plan, read just before its solve, with itself, since
   * storeLP has not run. A new plan costs MaxDouble, so with a tolerance
   * of at least zero the first pass stops before storeLP and returns the
   * refined plan with the weights it was copied with.
   */
  method SolveNeighborhoodLPAsWritten(lp: TransportLPSolver, sol: TransportPlan, p: real, pow: Power, cost: CostFunction,
                                     rFactor: real, tol: real, nIterations: int, fuel: nat)
    returns (res: TransportPlan, ghost passes: nat, ghost built: seq<map<int, Path>>)
    requires Holds(lp, sol) && p != 0.0 && Weighted(sol.source) && EndsIn(sol.paths, sol.source.nodes, sol.target.nodes)
    requires Closed(sol.source.neighborhood, sol.source.nodes) && Closed(sol.target.neighborhood, sol.target.nodes)
    modifies lp`pathOffset, lp`sourceMassSupplyDistributionStart, lp`sourceMassSinkDistributionStart
    modifies lp`targetMassSupplyDistributionStart, lp`targetMassSinkDistributionStart
    modifies lp`sourceMassExchangePath, lp`targetMassExchangePath, lp`sourceCirculationPath
    modifies lp`sourceMassSupplyNode, lp`sourceMassSinkNode, lp`targetMassSupplyNode, lp`targetMassSinkNode
    modifies lp.solver`sInd, lp.solver`tInd, lp.solver`coeff, lp.solver`primal, lp.solver`colStatus, lp.solver`colLB, lp.solver`colUB
    modifies lp.solver`mass, lp.solver`rowStatus, lp.solver`dual, lp.solver`ns, lp.solver`nt
    modifies lp.solver`success, lp.solver`objValue, lp.solver`iCount
    modifies (set n | n in sol.source.nodes)`potential, (set n | n in sol.source.nodes)`piMin, (set n | n in sol.source.nodes)`piMax
    modifies (set n | n in sol.target.nodes)`potential, (set n | n in sol.target.nodes)`piMin, (set n | n in sol.target.nodes)`piMax
    modifies sol`outer, sol`inner
    ensures res == sol || fresh(res)
    ensures Holds(lp, res)
    ensures nIterations != 0 && fuel > 0 && old(sol.cost) != -1.0 && tol >= 0.0 ==>
      passes == 1 && res != sol && res.cost == MaxDouble && res.paths == built
  {
    res := sol;
    var nIter := nIterations;
    var prevCost := -1.0;
    var left := fuel;
    passes, built := 0, sol.paths;
    ghost var starts := nIterations != 0 && fuel > 0 && sol.cost != -1.0;
    ghost var i :| 0 <= i < |sol.source.nodes| && sol.source.nodes[i].mass != 0.0;
    while prevCost != res.cost && nIter != 0 && left > 0
      invariant res == sol || fresh(res)
      invariant res.source == sol.source && res.target == sol.target
      invariant Holds(lp, res) && EndsIn(res.paths, sol.source.nodes, sol.target.nodes)
      invariant passes == 0 ==> res == sol && prevCost == -1.0 && nIter == nIterations && left == fuel
      invariant passes > 0 ==> res != sol && starts && tol < 0.0
      decreases left
    {
      nIter, left := nIter - 1, left - 1;
      prevCost := res.cost;
      assert Weighted(res.source) by { assert sol.source.nodes[i].mass != 0.0; }
      var newSol, _, newPaths, _, _, _ := RefineSolve(lp, res, p, rFactor, cost);
      res, built := newSol, newPaths;
      var prevCost := res.cost;
      passes := passes + 1;
      if Stalled(prevCost, res.cost, tol) {
        break;
      }
      NewPlanStalls(tol);
      assert tol < 0.0;
      StoreNew(lp, res, p, pow);
    }
  }
}
