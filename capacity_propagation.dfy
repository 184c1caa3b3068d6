/**
 * CapacityPropagationStrategy: before propagating, it re-solves the LP of
 * the coarse primary plan with each arc's flow capped, so that every node
 * has to spread its mass over at least min(k, its number of arcs) arcs, and
 * records the capped solution as an alternative plan.
 */
module CapacityPropagation {
  import opened Nodes
  import opened Plans
  import opened LPSolver
  import opened Lemon
  import opened TransportSolver
  import opened StrategyLP
  import opened ArcWalk

  /** std::min on ints. */
  function MinInt(a: int, b: int): int {
    if b < a then b else a
  }

  /** An integer shifted by 0.01 is never zero. */
  lemma ShiftNonZero(n: int)
    ensures n as real - 0.01 != 0.0
  {
    if n <= 0 {
      assert n as real - 0.01 < 0.0;
    } else {
      assert n as real - 0.01 > 0.0;
    }
  }

  /**
   * The upper bound of an arc from a node of mass mFrom with nFrom arcs to
   * a node of mass mTo with nTo inbound arcs:
   * max(mFrom / (min(k, nFrom) - 0.01), mTo / (min(k, nTo) - 0.01)).
   */
  function CapacityBound(k: int, mFrom: real, mTo: real, nFrom: int, nTo: int): real {
    ShiftNonZero(MinInt(k, nFrom));
    ShiftNonZero(MinInt(k, nTo));
    Max(mFrom / (MinInt(k, nFrom) as real - 0.01), mTo / (MinInt(k, nTo) as real - 0.01))
  }

  /** A quotient by a positive divisor below n is at least the quotient by n, scaled up by n. */
  lemma ShareCovers(m: real, d: real, n: real)
    requires m >= 0.0 && 0.0 < d <= n
    ensures n * (m / d) >= m
  {
    assert m / d >= 0.0;
    assert n * (m / d) >= d * (m / d);
    assert d * (m / d) == m;
  }

  /**
   * The point of the cap: for k >= 1, a node with n >= 1 arcs that all
   * carry the cap of one of them has capacity for all of its mass, on both
   * ends of the arc.
   */
  lemma CapacitySuffices(k: int, mFrom: real, mTo: real, nFrom: int, nTo: int)
    requires k >= 1 && nFrom >= 1 && nTo >= 1 && mFrom >= 0.0 && mTo >= 0.0
    ensures nFrom as real * CapacityBound(k, mFrom, mTo, nFrom, nTo) >= mFrom
    ensures nTo as real * CapacityBound(k, mFrom, mTo, nFrom, nTo) >= mTo
    ensures MinInt(k, nFrom) as real * CapacityBound(k, mFrom, mTo, nFrom, nTo) >= mFrom
    ensures MinInt(k, nTo) as real * CapacityBound(k, mFrom, mTo, nFrom, nTo) >= mTo
  {
    var b := CapacityBound(k, mFrom, mTo, nFrom, nTo);
    var dF, dT := MinInt(k, nFrom) as real - 0.01, MinInt(k, nTo) as real - 0.01;
    assert b >= mFrom / dF && b >= mTo / dT;
    assert mFrom / dF >= 0.0 && mTo / dT >= 0.0;
    ShareCovers(mFrom, dF, MinInt(k, nFrom) as real);
    ShareCovers(mTo, dT, MinInt(k, nTo) as real);
    ShareCovers(mFrom, dF, nFrom as real);
    ShareCovers(mTo, dT, nTo as real);
  }

  /** The cap of an arc is positive when one of its end nodes has positive mass, for k >= 1. */
  lemma CapPositive(k: int, mFrom: real, mTo: real, nFrom: int, nTo: int)
    requires k >= 1 && nFrom >= 1 && nTo >= 1 && mFrom >= 0.0 && mTo >= 0.0 && (mFrom > 0.0 || mTo > 0.0)
    ensures CapacityBound(k, mFrom, mTo, nFrom, nTo) > 0.0
  {
    var dF, dT := MinInt(k, nFrom) as real - 0.01, MinInt(k, nTo) as real - 0.01;
    assert dF > 0.0 && dT > 0.0;
    if mFrom > 0.0 {
      assert mFrom / dF > 0.0;
    } else {
      assert mTo / dT > 0.0;
    }
  }

  /**
   * The capping walk has passed the arcs D of rows P (with inbound counts
   * `counts` and end-node masses M): in the bounds LB, UB their columns
   * have the bounds [0, cap], with the cap of CapacityBound from the masses
   * of the arc's end nodes, the arcs leaving its source and the arcs
   * entering its target; every other column keeps the bounds LB0, UB0.
   */
  ghost predicate CappedBounds(LB: seq<real>, UB: seq<real>, LB0: seq<real>, UB0: seq<real>, P: seq<map<int, Path>>, counts: seq<int>,
                               added: seq<Arc>, D: set<Arc>, offset: int, k: int, M: map<Arc, (real, real)>)
  {
    && WellKeyed(P, |counts|)
    && KeptOutside(LB, LB0, added, D, offset) && KeptOutside(UB, UB0, added, D, offset)
    && forall a :: a in D && Has(P, a) ==>
         var col := offset + Get(P, a).index;
         && 0 <= col < |LB| && col < |UB| && a in M
         && LB[col] == 0.0
         && UB[col] == CapacityBound(k, M[a].0, M[a].1, |P[a.0]|, counts[a.1])
  }

  /**
   * computeAlternateSolutions: cap every arc column of the LP of the
   * primary plan, solve, and append a copy of the primary plan holding the
   * capped solution as a new alternative. The clock differences of the
   * bounding loop and of the solve are the parameters tPropagate and
   * tSolve; they are added to the copy's time counters.
   */
  method ComputeAlternateSolutions(lp: TransportLPSolver, pSol: TransportPlanSolutions, k: int, p: real, pow: Power,
                                   tPropagate: int, tSolve: int) returns (ghost res: TransportPlan)
    requires Holds(lp, pSol.sol) && p != 0.0
    modifies lp.solver`colLB, lp.solver`colUB, lp.solver`success, lp.solver`objValue, lp.solver`iCount, lp.solver`primal, lp.solver`dual
    modifies pSol.sol`outer, pSol.sol`inner, pSol`alternatives
    modifies (set n | n in pSol.sol.source.nodes)`potential, (set n | n in pSol.sol.target.nodes)`potential
    ensures pSol.sol == old(pSol.sol) && pSol.sol.paths == old(pSol.sol.paths)
    ensures fresh(res) && pSol.alternatives == old(pSol.alternatives) + [res]
    ensures CappedBounds(lp.solver.colLB, lp.solver.colUB, old(lp.solver.colLB), old(lp.solver.colUB), old(pSol.sol.paths),
                         old(pSol.sol.toPathCounts), old(pSol.sol.added), ArcSet(old(pSol.sol.paths)), lp.pathOffset, k, old(EndMasses(pSol.sol.paths)))
    ensures Solved(lp.solver) && Holds(lp, res)
    ensures res.source == pSol.sol.source && res.target == pSol.sol.target
    ensures res.pathCounter == pSol.sol.pathCounter && res.toPathCounts == pSol.sol.toPathCounts
    ensures StoredFrom(res.paths, old(pSol.sol.paths), lp.solver.primal, lp.pathOffset)
    ensures res.cost == pow(lp.solver.objValue, 1.0 / p)
    ensures res.timePropagate == pSol.sol.timePropagate + tPropagate && res.timeSolve == pSol.sol.timeSolve + tSolve
    ensures res.timeRefine == pSol.sol.timeRefine
    ensures StoredPotentials(lp.solver.dual, res.source.nodes, res.target.nodes)
  {
    CapColumns(lp, pSol.sol, k);
    StrategyLP.Solve(lp, pSol.sol);
    res := AddSolvedCopy(lp, pSol, p, pow, tPropagate, tSolve);
  }

  /**
   * The loop of computeAlternateSolutions before the solve: every arc
   * column of the primary plan gets the bounds [0, cap]; the other columns
   * keep their bounds.
   */
  method CapColumns(lp: TransportLPSolver, sol: TransportPlan, k: int)
    requires Holds(lp, sol)
    modifies lp.solver`colLB, lp.solver`colUB, sol`outer, sol`inner
    ensures Holds(lp, sol)
    ensures CappedBounds(lp.solver.colLB, lp.solver.colUB, old(lp.solver.colLB), old(lp.solver.colUB), sol.paths, sol.toPathCounts,
                         sol.added, ArcSet(sol.paths), lp.pathOffset, k, old(EndMasses(sol.paths)))
  {
    HeldIndices(lp, sol);
    ghost var M := EndMasses(sol.paths);
    CapWalk(lp, sol, k, sol.paths, M, sol.toPathCounts, sol.pathCounter, sol.added);
  }

  /** The cursor walk of CapColumns, with the end-node masses M taken before it. */
  method CapWalk(lp: TransportLPSolver, sol: TransportPlan, k: int, ghost P: seq<map<int, Path>>, ghost M: map<Arc, (real, real)>,
                 ghost counts: seq<int>, ghost counter: int, ghost added: seq<Arc>)
    requires sol.Valid() && sol.paths == P && sol.toPathCounts == counts && DenseRows(P, counts, counter, added)
    requires |lp.solver.colUB| == |lp.solver.colLB|
    requires forall a :: Has(P, a) ==> 0 <= lp.pathOffset + Get(P, a).index < |lp.solver.colLB|
    requires forall a :: Has(P, a) ==> a in M && M[a] == (Get(P, a).from.mass, Get(P, a).to.mass)
    modifies lp.solver`colLB, lp.solver`colUB, sol`outer, sol`inner
    ensures CappedBounds(lp.solver.colLB, lp.solver.colUB, old(lp.solver.colLB), old(lp.solver.colUB), P, counts, added, ArcSet(P), lp.pathOffset, k, M)
  {
    ghost var D: set<Arc> := {};
    ghost var LB0, UB0 := lp.solver.colLB, lp.solver.colUB;
    sol.Begin();
    while !sol.IsAtEnd()
      invariant Visiting(sol, P, D)
      invariant CappedBounds(lp.solver.colLB, lp.solver.colUB, LB0, UB0, P, counts, added, D, lp.pathOffset, k, M)
      decreases sol.Remaining()
    {
      D := CapStep(lp, sol, k, P, D, LB0, UB0, M, counts, counter, added);
    }
    InArcSetAll(P, D);
  }

  /** One arc of the capping walk. */
  method CapStep(lp: TransportLPSolver, sol: TransportPlan, k: int, ghost P: seq<map<int, Path>>, ghost D: set<Arc>,
                 ghost LB0: seq<real>, ghost UB0: seq<real>, ghost M: map<Arc, (real, real)>,
                 ghost counts: seq<int>, ghost counter: int, ghost added: seq<Arc>) returns (ghost D': set<Arc>)
    requires Visiting(sol, P, D) && !sol.IsAtEnd()
    requires forall a :: Has(P, a) ==> a in M && M[a] == (Get(P, a).from.mass, Get(P, a).to.mass)
    requires sol.toPathCounts == counts && DenseRows(P, counts, counter, added) && |UB0| == |LB0|
    requires forall a :: Has(P, a) ==> 0 <= lp.pathOffset + Get(P, a).index < |LB0|
    requires CappedBounds(lp.solver.colLB, lp.solver.colUB, LB0, UB0, P, counts, added, D, lp.pathOffset, k, M)
    modifies lp.solver`colLB, lp.solver`colUB, sol`outer, sol`inner
    ensures Visiting(sol, P, D')
    ensures CappedBounds(lp.solver.colLB, lp.solver.colUB, LB0, UB0, P, counts, added, D', lp.pathOffset, k, M)
    ensures sol.Remaining() < old(sol.Remaining())
  {
    var path := sol.Current();
    ghost var c: Arc := (sol.outer, sol.inner);
    var nFrom := sol.GetNumberOfToPaths(path.from.id);
    var nTo := sol.GetNumberOfFromPaths(path.to.id);
    var ub := CapacityBound(k, path.from.mass, path.to.mass, nFrom, nTo);
    ghost var LB, UB := lp.solver.colLB, lp.solver.colUB;
    ghost var col := lp.pathOffset + path.index;
    assert 0 <= col < |LB| && col < |UB| && CappedBounds(LB[col := 0.0], UB[col := ub], LB0, UB0, P, counts, added, D + {c}, lp.pathOffset, k, M) by {
      assert Has(P, c) && Get(P, c) == path && c !in D;
      InArcSet(P, c);
      assert c in M && M[c] == (path.from.mass, path.to.mass);
      CappedStep(LB, UB, LB0, UB0, P, counts, counter, added, D, c, lp.pathOffset, k, M, col, ub);
    }
    lp.SetColumnBounds(path.index, 0.0, ub);
    assert lp.solver.colLB == LB[col := 0.0] && lp.solver.colUB == UB[col := ub];
    sol.Pass(D);
    D' := D + {c};
  }

  /** Writing the bounds [0, cap] of the column of arc c, not passed yet, grows the capped arcs by c. */
  lemma CappedStep(LB: seq<real>, UB: seq<real>, LB0: seq<real>, UB0: seq<real>, P: seq<map<int, Path>>, counts: seq<int>,
                   counter: int, added: seq<Arc>, D: set<Arc>, c: Arc, offset: int, k: int, M: map<Arc, (real, real)>,
                   col: int, ub: real)
    requires CappedBounds(LB, UB, LB0, UB0, P, counts, added, D, offset, k, M)
    requires DenseRows(P, counts, counter, added) && Has(P, c) && c !in D && c in M
    requires col == offset + Get(P, c).index && 0 <= col < |LB| && col < |UB|
    requires ub == CapacityBound(k, M[c].0, M[c].1, |P[c.0]|, counts[c.1])
    ensures CappedBounds(LB[col := 0.0], UB[col := ub], LB0, UB0, P, counts, added, D + {c}, offset, k, M)
  {
    ColumnsStep(P, counts, counter, added, D, c, offset);
    KeptStep(LB, LB0, added, D, c, offset, col, 0.0);
    KeptStep(UB, UB0, added, D, c, offset, col, ub);
  }
}
