/**
 * RandomizedNeighborhoodPropagationStrategy: before propagating, it runs
 * nRandom rounds on the LP of the coarse primary plan. Each round sets the
 * objective of every arc column to the arc's cost plus a random
 * perturbation, solves, and records a copy of the primary plan holding that
 * solution as an alternative plan. Every round perturbs the arc's own cost,
 * so perturbations do not add up over rounds; the LP is not rebuilt.
 *
 * The draws of the normal random generator are the parameter `normal`: the
 * draw for arc a in round i is normal(i, a).
 */
module RandomizedPropagation {
  import opened Nodes
  import opened Levels
  import opened Plans
  import opened LPSolver
  import opened Lemon
  import opened TransportSolver
  import opened StrategyLP
  import opened ArcWalk

  /** The part of the backend's LP the rounds leave alone: everything but the objective. */
  datatype UnpricedLP = UnpricedLP(simplex: NetworkSimplex, sInd: seq<int>, tInd: seq<int>, mass: seq<real>,
                                   colLB: seq<real>, colUB: seq<real>)

  /** The backend's LP without its objective. */
  ghost function Unpriced(s: LemonSolver): UnpricedLP
    reads s`sInd, s`tInd, s`mass, s`colLB, s`colUB
  {
    UnpricedLP(s.simplex, s.sInd, s.tInd, s.mass, s.colLB, s.colUB)
  }

  /** What one round did: the objective it solved and the objective value and primal values of that solve. */
  datatype Draw = Draw(coeff: seq<real>, objValue: real, primal: seq<real>)

  /**
   * Round i on arcs P of the LP U whose objective was C0 when the rounds
   * began: every arc column's objective is the arc's cost perturbed by the
   * draw of round i, every other column keeps its objective from C0, and
   * the objective value and the primal values are the backend's solve.
   */
  ghost predicate Drawn(d: Draw, U: UnpricedLP, C0: seq<real>, P: seq<map<int, Path>>, added: seq<Arc>, offset: int, i: int,
                        normal: (int, Arc) -> real, p: real, pow: Power)
  {
    && p != 0.0 && |U.tInd| == |U.sInd| && |U.colLB| == |U.sInd| && |U.colUB| == |U.sInd| && |C0| == |U.sInd|
    && MaxCapacity(U.mass) > 0.0
    && Rewritten(d.coeff, C0, P, added, ArcSet(P), offset, Perturb(i, normal, p, 1.0 / p, pow))
    && var o := SolveOutcome(U.simplex, U.sInd, U.tInd, d.coeff, U.mass, U.colLB, U.colUB, |U.sInd|, |U.mass|);
       d.objValue == o.objValue && d.primal == o.primal
  }

  /**
   * The alternatives rs of the rounds so far: round j is draws[j], and
   * rs[j] is a copy of the primary plan (rows P, levels S and T, time
   * counters `times`) holding that round's solution.
   */
  ghost predicate Recorded(rs: seq<TransportPlan>, draws: seq<Draw>, U: UnpricedLP, C0: seq<real>, P: seq<map<int, Path>>, added: seq<Arc>,
                           offset: int, S: Level, T: Level, times: (int, int, int), normal: (int, Arc) -> real, p: real, pow: Power)
    reads rs`paths, rs`cost, rs`timePropagate, rs`timeSolve, rs`timeRefine
  {
    && |rs| == |draws|
    && forall j :: 0 <= j < |rs| ==>
         && Drawn(draws[j], U, C0, P, added, offset, j, normal, p, pow)
         && rs[j].source == S && rs[j].target == T
         && StoredFrom(rs[j].paths, P, draws[j].primal, offset)
         && rs[j].cost == pow(draws[j].objValue, 1.0 / p)
         && (rs[j].timePropagate, rs[j].timeSolve, rs[j].timeRefine) == times
  }

  /**
   * Before round |rs|: the backend holds the LP of the primary plan sol
   * with rows P, its objective agrees with C0 outside the arc columns and
   * the rest of the LP is U; the rounds so far are recorded.
   */
  ghost predicate Drawing(lp: TransportLPSolver, sol: TransportPlan, rs: seq<TransportPlan>, draws: seq<Draw>, U: UnpricedLP, C0: seq<real>,
                          P: seq<map<int, Path>>, added: seq<Arc>, S: Level, T: Level, times: (int, int, int),
                          normal: (int, Arc) -> real, p: real, pow: Power)
    reads lp, lp.solver, sol, sol.source, sol.target, rs`paths, rs`cost, rs`timePropagate, rs`timeSolve, rs`timeRefine
  {
    && Holds(lp, sol) && p != 0.0 && Unpriced(lp.solver) == U
    && sol.paths == P && sol.added == added && sol.source == S && sol.target == T
    && (sol.timePropagate, sol.timeSolve, sol.timeRefine) == times
    && KeptOutside(lp.solver.coeff, C0, added, ArcSet(P), lp.pathOffset)
    && Recorded(rs, draws, U, C0, P, added, lp.pathOffset, S, T, times, normal, p, pow)
    && sol !in rs
  }

  /**
   * computeAlternateSolutions: nRandom rounds, each of which perturbs the
   * objective of every arc column of the primary plan's LP, solves, and
   * appends a copy of the primary plan holding the solution. The rounds'
   * objectives all perturb the costs of the primary plan's arcs, starting
   * from the objective C0 the LP had.
   */
  method ComputeAlternateSolutions(lp: TransportLPSolver, pSol: TransportPlanSolutions, nRandom: int, p: real, pow: Power,
                                   normal: (int, Arc) -> real)
    returns (ghost rs: seq<TransportPlan>, ghost draws: seq<Draw>)
    requires Holds(lp, pSol.sol) && p != 0.0
    modifies lp.solver`coeff, lp.solver`success, lp.solver`objValue, lp.solver`iCount, lp.solver`primal, lp.solver`dual
    modifies pSol.sol`outer, pSol.sol`inner, pSol`alternatives
    modifies (set n | n in pSol.sol.source.nodes)`potential, (set n | n in pSol.sol.target.nodes)`potential
    ensures pSol.sol == old(pSol.sol) && pSol.sol.paths == old(pSol.sol.paths)
    ensures |rs| == (if nRandom > 0 then nRandom else 0)
    ensures pSol.alternatives == old(pSol.alternatives) + rs
    ensures forall j :: 0 <= j < |rs| ==> fresh(rs[j])
    ensures Recorded(rs, draws, old(Unpriced(lp.solver)), old(lp.solver.coeff), pSol.sol.paths, pSol.sol.added, lp.pathOffset,
                     pSol.sol.source, pSol.sol.target, (pSol.sol.timePropagate, pSol.sol.timeSolve, pSol.sol.timeRefine), normal, p, pow)
    ensures nRandom > 0 ==> StoredPotentials(lp.solver.dual, pSol.sol.source.nodes, pSol.sol.target.nodes)
  {
    var sol := pSol.sol;
    ghost var times := (sol.timePropagate, sol.timeSolve, sol.timeRefine);
    ghost var U, C0 := Unpriced(lp.solver), lp.solver.coeff;
    rs, draws := [], [];
    var i := 0;
    while i < nRandom
      invariant 0 <= i == |rs| && (nRandom > 0 ==> i <= nRandom) && (nRandom <= 0 ==> i == 0)
      invariant pSol.sol == sol && pSol.alternatives == old(pSol.alternatives) + rs
      invariant forall j :: 0 <= j < |rs| ==> fresh(rs[j])
      invariant Drawing(lp, sol, rs, draws, U, C0, old(sol.paths), old(sol.added), sol.source, sol.target, times, normal, p, pow)
      invariant i > 0 ==> StoredPotentials(lp.solver.dual, sol.source.nodes, sol.target.nodes)
      decreases nRandom - i
    {
      ghost var before := rs;
      ghost var res;
      res, draws := Round(lp, pSol, i, p, pow, normal, rs, draws, U, C0, old(sol.paths), old(sol.added), sol.source,
                          sol.target, times);
      rs := rs + [res];
      forall j | 0 <= j < |rs|
        ensures fresh(rs[j])
      {
        assert rs[j] == if j < |before| then before[j] else res;
      }
      i := i + 1;
    }
  }

  /** One round: perturb, solve, and append the copy holding the solution. */
  method Round(lp: TransportLPSolver, pSol: TransportPlanSolutions, i: int, p: real, pow: Power, normal: (int, Arc) -> real,
               ghost rs: seq<TransportPlan>, ghost draws: seq<Draw>, ghost U: UnpricedLP, ghost C0: seq<real>, ghost P: seq<map<int, Path>>,
               ghost added: seq<Arc>, ghost S: Level, ghost T: Level, ghost times: (int, int, int))
    returns (ghost res: TransportPlan, ghost draws': seq<Draw>)
    requires Drawing(lp, pSol.sol, rs, draws, U, C0, P, added, S, T, times, normal, p, pow) && i == |rs|
    modifies lp.solver`coeff, lp.solver`success, lp.solver`objValue, lp.solver`iCount, lp.solver`primal, lp.solver`dual
    modifies pSol.sol`outer, pSol.sol`inner, pSol`alternatives
    modifies (set n | n in pSol.sol.source.nodes)`potential, (set n | n in pSol.sol.target.nodes)`potential
    ensures fresh(res) && pSol.sol == old(pSol.sol) && pSol.alternatives == old(pSol.alternatives) + [res]
    ensures Drawing(lp, pSol.sol, rs + [res], draws', U, C0, P, added, S, T, times, normal, p, pow)
    ensures StoredPotentials(lp.solver.dual, pSol.sol.source.nodes, pSol.sol.target.nodes)
  {
    var d := PerturbSolve(lp, pSol.sol, i, p, pow, normal, U, C0, P, added);
    res, draws' := Record(lp, pSol, p, pow, normal, d, rs, draws, U, C0, P, added, S, T, times);
  }

  /** The second half of a round: append the copy holding the solution of draw d. */
  method Record(lp: TransportLPSolver, pSol: TransportPlanSolutions, p: real, pow: Power, normal: (int, Arc) -> real, ghost d: Draw,
                ghost rs: seq<TransportPlan>, ghost draws: seq<Draw>, ghost U: UnpricedLP, ghost C0: seq<real>, ghost P: seq<map<int, Path>>,
                ghost added: seq<Arc>, ghost S: Level, ghost T: Level, ghost times: (int, int, int))
    returns (ghost res: TransportPlan, ghost draws': seq<Draw>)
    requires Drawing(lp, pSol.sol, rs, draws, U, C0, P, added, S, T, times, normal, p, pow)
    requires Drawn(d, U, C0, P, added, lp.pathOffset, |rs|, normal, p, pow)
    requires lp.solver.primal == d.primal && lp.solver.objValue == d.objValue
    modifies pSol`alternatives
    modifies (set n | n in pSol.sol.source.nodes)`potential, (set n | n in pSol.sol.target.nodes)`potential
    ensures fresh(res) && pSol.sol == old(pSol.sol) && pSol.alternatives == old(pSol.alternatives) + [res]
    ensures Drawing(lp, pSol.sol, rs + [res], draws', U, C0, P, added, S, T, times, normal, p, pow)
    ensures StoredPotentials(lp.solver.dual, pSol.sol.source.nodes, pSol.sol.target.nodes)
  {
    var sol := pSol.sol;
    ghost var tp, ts, tr := sol.timePropagate, sol.timeSolve, sol.timeRefine;
    res := AddSolvedCopy(lp, pSol, p, pow, 0, 0);
    assert Drawing(lp, sol, rs, draws, U, C0, P, added, S, T, times, normal, p, pow);
    assert res.timePropagate == tp && res.timeSolve == ts && res.timeRefine == tr;
    draws' := draws + [d];
    DrawingAppend(lp, sol, rs, draws, res, d, U, C0, P, added, S, T, times, normal, p, pow);
  }

  /** Appending a copy res, other than the primary plan, that holds the solution of draw d keeps the rounds recorded. */
  lemma DrawingAppend(lp: TransportLPSolver, sol: TransportPlan, rs: seq<TransportPlan>, draws: seq<Draw>, res: TransportPlan, d: Draw,
                      U: UnpricedLP, C0: seq<real>, P: seq<map<int, Path>>, added: seq<Arc>, S: Level, T: Level, times: (int, int, int),
                      normal: (int, Arc) -> real, p: real, pow: Power)
    requires Drawing(lp, sol, rs, draws, U, C0, P, added, S, T, times, normal, p, pow) && res != sol
    requires Drawn(d, U, C0, P, added, lp.pathOffset, |rs|, normal, p, pow)
    requires res.source == S && res.target == T && StoredFrom(res.paths, P, d.primal, lp.pathOffset)
    requires res.cost == pow(d.objValue, 1.0 / p) && (res.timePropagate, res.timeSolve, res.timeRefine) == times
    ensures Drawing(lp, sol, rs + [res], draws + [d], U, C0, P, added, S, T, times, normal, p, pow)
  {
    RecordedAppend(rs, draws, res, d, U, C0, P, added, lp.pathOffset, S, T, times, normal, p, pow);
  }

  /** Appending the copy res that holds the solution of draw d records one more round. */
  lemma RecordedAppend(rs: seq<TransportPlan>, draws: seq<Draw>, res: TransportPlan, d: Draw, U: UnpricedLP, C0: seq<real>,
                       P: seq<map<int, Path>>, added: seq<Arc>, offset: int, S: Level, T: Level, times: (int, int, int),
                       normal: (int, Arc) -> real, p: real, pow: Power)
    requires Recorded(rs, draws, U, C0, P, added, offset, S, T, times, normal, p, pow)
    requires Drawn(d, U, C0, P, added, offset, |rs|, normal, p, pow)
    requires res.source == S && res.target == T && StoredFrom(res.paths, P, d.primal, offset)
    requires res.cost == pow(d.objValue, 1.0 / p) && (res.timePropagate, res.timeSolve, res.timeRefine) == times
    ensures Recorded(rs + [res], draws + [d], U, C0, P, added, offset, S, T, times, normal, p, pow)
  {
    forall j | 0 <= j < |rs|
      ensures (rs + [res])[j] == rs[j] && (draws + [d])[j] == draws[j]
    {
    }
  }

  /**
   * The LP part of round i on the primary plan sol: the perturbing walk and
   * the solve. The objective stays the objective C0 outside the arc columns.
   */
  method PerturbSolve(lp: TransportLPSolver, sol: TransportPlan, i: int, p: real, pow: Power, normal: (int, Arc) -> real,
                      ghost U: UnpricedLP, ghost C0: seq<real>, ghost P: seq<map<int, Path>>, ghost added: seq<Arc>)
    returns (ghost d: Draw)
    requires Holds(lp, sol) && p != 0.0 && Unpriced(lp.solver) == U && sol.paths == P && sol.added == added
    requires KeptOutside(lp.solver.coeff, C0, added, ArcSet(P), lp.pathOffset)
    modifies lp.solver`coeff, lp.solver`success, lp.solver`objValue, lp.solver`iCount, lp.solver`primal, lp.solver`dual
    modifies sol`outer, sol`inner
    ensures Holds(lp, sol) && Unpriced(lp.solver) == U && unchanged(sol`paths, sol`added)
    ensures KeptOutside(lp.solver.coeff, C0, added, ArcSet(P), lp.pathOffset)
    ensures Drawn(d, U, C0, P, added, lp.pathOffset, i, normal, p, pow)
    ensures lp.solver.primal == d.primal && lp.solver.objValue == d.objValue
  {
    ghost var C1 := lp.solver.coeff;
    PerturbArcs(lp, sol, i, p, pow, normal);
    RewriteOver(lp.solver.coeff, C1, C0, P, added, lp.pathOffset, i, normal, p, pow);
    StrategyLP.Solve(lp, sol);
    d := Draw(lp.solver.coeff, lp.solver.objValue, lp.solver.primal);
  }

  /**
   * A perturbing rewrite ignores the objective it overwrites, so a rewrite
   * of an objective that agreed with C0 outside the arc columns is a
   * rewrite of C0 itself.
   */
  lemma RewriteOver(C2: seq<real>, C1: seq<real>, C0: seq<real>, P: seq<map<int, Path>>, added: seq<Arc>, offset: int,
                    i: int, normal: (int, Arc) -> real, p: real, pow: Power)
    requires p != 0.0 && Rewritten(C2, C1, P, added, ArcSet(P), offset, Perturb(i, normal, p, 1.0 / p, pow))
    requires KeptOutside(C1, C0, added, ArcSet(P), offset)
    ensures Rewritten(C2, C0, P, added, ArcSet(P), offset, Perturb(i, normal, p, 1.0 / p, pow))
    ensures KeptOutside(C2, C0, added, ArcSet(P), offset)
  {
  }

  /** The perturbing walk of round i: every arc column's objective becomes the arc's perturbed cost; every other column keeps its objective. */
  method PerturbArcs(lp: TransportLPSolver, sol: TransportPlan, i: int, p: real, pow: Power, normal: (int, Arc) -> real)
    requires Holds(lp, sol) && p != 0.0
    modifies lp.solver`coeff, sol`outer, sol`inner
    ensures Holds(lp, sol) && unchanged(sol`paths, sol`added)
    ensures Rewritten(lp.solver.coeff, old(lp.solver.coeff), sol.paths, sol.added, ArcSet(sol.paths), lp.pathOffset,
                      Perturb(i, normal, p, 1.0 / p, pow))
  {
    HeldIndices(lp, sol);
    PerturbWalk(lp, sol, i, p, pow, normal, sol.paths, sol.toPathCounts, sol.pathCounter, sol.added);
  }

  /** The cursor walk of PerturbArcs. */
  method PerturbWalk(lp: TransportLPSolver, sol: TransportPlan, i: int, p: real, pow: Power, normal: (int, Arc) -> real,
                     ghost P: seq<map<int, Path>>, ghost counts: seq<int>, ghost counter: int, ghost added: seq<Arc>)
    requires sol.Valid() && sol.paths == P && DenseRows(P, counts, counter, added) && p != 0.0
    requires forall a :: Has(P, a) ==> 0 <= lp.pathOffset + Get(P, a).index < |lp.solver.coeff|
    modifies lp.solver`coeff, sol`outer, sol`inner
    ensures Rewritten(lp.solver.coeff, old(lp.solver.coeff), P, added, ArcSet(P), lp.pathOffset, Perturb(i, normal, p, 1.0 / p, pow))
  {
    ghost var D: set<Arc> := {};
    ghost var C0 := lp.solver.coeff;
    sol.Begin();
    while !sol.IsAtEnd()
      invariant Visiting(sol, P, D)
      invariant Rewritten(lp.solver.coeff, C0, P, added, D, lp.pathOffset, Perturb(i, normal, p, 1.0 / p, pow))
      decreases sol.Remaining()
    {
      D := PerturbStep(lp, sol, i, p, pow, normal, P, D, C0, counts, counter, added);
    }
    InArcSetAll(P, D);
  }

  /** One arc of the perturbing walk: its objective becomes path.cost + normal * delta / 5. */
  method PerturbStep(lp: TransportLPSolver, sol: TransportPlan, i: int, p: real, pow: Power, normal: (int, Arc) -> real,
                     ghost P: seq<map<int, Path>>, ghost D: set<Arc>, ghost C0: seq<real>,
                     ghost counts: seq<int>, ghost counter: int, ghost added: seq<Arc>) returns (ghost D': set<Arc>)
    requires Visiting(sol, P, D) && !sol.IsAtEnd() && p != 0.0
    requires DenseRows(P, counts, counter, added)
    requires forall a :: Has(P, a) ==> 0 <= lp.pathOffset + Get(P, a).index < |C0|
    requires Rewritten(lp.solver.coeff, C0, P, added, D, lp.pathOffset, Perturb(i, normal, p, 1.0 / p, pow))
    modifies lp.solver`coeff, sol`outer, sol`inner
    ensures Visiting(sol, P, D')
    ensures Rewritten(lp.solver.coeff, C0, P, added, D', lp.pathOffset, Perturb(i, normal, p, 1.0 / p, pow))
    ensures sol.Remaining() < old(sol.Remaining())
  {
    var path := sol.Current();
    ghost var c: Arc := (sol.outer, sol.inner);
    ghost var C := lp.solver.coeff;
    ghost var col := lp.pathOffset + path.index;
    var from, to := path.from, path.to;
    var r := from.nodeRadius + to.nodeRadius;
    var dist := pow(path.cost, 1.0 / p);
    var delta := pow(dist + r, p) - pow(dist - r, p);
    var change := normal(i, path.Key()) * delta / 5.0;
    assert Has(P, c) && Get(P, c) == path && c !in D && 0 <= col < |C|;
    assert path.cost + change == NewBound(Perturb(i, normal, p, 1.0 / p, pow), path, C[col]);
    assert Rewritten(C[col := path.cost + change], C0, P, added, D + {c}, lp.pathOffset, Perturb(i, normal, p, 1.0 / p, pow)) by {
      RewriteStep(C, C0, P, counts, counter, added, D, c, lp.pathOffset, Perturb(i, normal, p, 1.0 / p, pow), col);
    }
    lp.SetColumnObjective(path.index, path.cost + change);
    sol.Pass(D);
    D' := D + {c};
  }

  /**
   * In round i the objective of the column of arc a of the primary plan is
   * the arc's perturbed cost: its cost plus its draw times the perturbation
   * range over 5.
   */
  lemma DrawnColumn(d: Draw, U: UnpricedLP, C0: seq<real>, P: seq<map<int, Path>>, added: seq<Arc>, offset: int, i: int,
                    normal: (int, Arc) -> real, p: real, pow: Power, a: Arc)
    requires Drawn(d, U, C0, P, added, offset, i, normal, p, pow) && Has(P, a)
    ensures 0 <= offset + Get(P, a).index < |d.coeff|
    ensures 0 <= offset + Get(P, a).index < |C0|
    ensures d.coeff[offset + Get(P, a).index] == NewBound(Perturb(i, normal, p, 1.0 / p, pow), Get(P, a), C0[offset + Get(P, a).index])
  {
    InArcSet(P, a);
    RewrittenAt(d.coeff, C0, P, added, ArcSet(P), offset, Perturb(i, normal, p, 1.0 / p, pow), a);
  }

  /**
   * With a zero draw for every arc, a round solves the LP with each arc's
   * own cost as its objective: the objective createLP gives the arc.
   */
  lemma ZeroDrawIsCost(d: Draw, U: UnpricedLP, C0: seq<real>, P: seq<map<int, Path>>, added: seq<Arc>, offset: int, i: int,
                       normal: (int, Arc) -> real, p: real, pow: Power, a: Arc)
    requires Drawn(d, U, C0, P, added, offset, i, normal, p, pow) && Has(P, a) && normal(i, Get(P, a).Key()) == 0.0
    ensures 0 <= offset + Get(P, a).index < |d.coeff| && d.coeff[offset + Get(P, a).index] == Get(P, a).cost
  {
    DrawnColumn(d, U, C0, P, added, offset, i, normal, p, pow, a);
    var col := offset + Get(P, a).index;
    ZeroPerturbation(i, normal, p, 1.0 / p, pow, Get(P, a), C0[col]);
  }

  /**
   * Perturbations do not accumulate: the objective of an arc column in
   * round j depends only on the arc and on round j's draw, not on earlier
   * rounds, so two rounds with the same draw for an arc give it the same
   * objective.
   */
  lemma NoAccumulation(d1: Draw, d2: Draw, U: UnpricedLP, C0: seq<real>, P: seq<map<int, Path>>, added: seq<Arc>, offset: int,
                       i: int, j: int, normal: (int, Arc) -> real, p: real, pow: Power, a: Arc)
    requires Drawn(d1, U, C0, P, added, offset, i, normal, p, pow) && Drawn(d2, U, C0, P, added, offset, j, normal, p, pow)
    requires Has(P, a) && normal(i, Get(P, a).Key()) == normal(j, Get(P, a).Key())
    ensures 0 <= offset + Get(P, a).index < |d1.coeff| && offset + Get(P, a).index < |d2.coeff|
    ensures d1.coeff[offset + Get(P, a).index] == d2.coeff[offset + Get(P, a).index]
  {
    DrawnColumn(d1, U, C0, P, added, offset, i, normal, p, pow, a);
    DrawnColumn(d2, U, C0, P, added, offset, j, normal, p, pow, a);
    var col := offset + Get(P, a).index;
    SamePerturbation(i, j, normal, p, 1.0 / p, pow, Get(P, a), C0[col], C0[col]);
  }

  /** A zero draw leaves the arc's objective at its cost, whatever the column held. */
  lemma ZeroPerturbation(i: int, normal: (int, Arc) -> real, p: real, root: real, pow: Power, q: Path, v: real)
    requires normal(i, q.Key()) == 0.0
    ensures NewBound(Perturb(i, normal, p, root, pow), q, v) == q.cost
  {
  }

  /** Two rounds whose draws for an arc agree give it the same objective, whatever the column held. */
  lemma SamePerturbation(i: int, j: int, normal: (int, Arc) -> real, p: real, root: real, pow: Power, q: Path, v: real, v': real)
    requires normal(i, q.Key()) == normal(j, q.Key())
    ensures NewBound(Perturb(i, normal, p, root, pow), q, v) == NewBound(Perturb(j, normal, p, root, pow), q, v')
  {
  }
}
