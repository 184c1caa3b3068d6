/**
 * What the propagation and neighbourhood strategies assume of a plan and of
 * the LP layer while they add arcs, solve and store: the plan's rows match
 * its levels, and the LP layer holds the LP of that plan (createLP's layout,
 * one column per arc, every arc column joining two existing rows).
 *
 * The strategies only ever extend such an LP by columns they fill in at
 * once; `Pending` describes the moment in between, when some appended
 * columns have not been filled in yet.
 */
module StrategyLP {
  import opened Nodes
  import opened Levels
  import opened Plans
  import opened LPSolver
  import opened Lemon
  import opened TransportSolver

  /** A pair of nodes, source first. */
  type NodePair = (TransportNode, TransportNode)

  /** The key of the arc between a pair of nodes. */
  function PairKey(e: NodePair): Arc {
    (e.0.id, e.1.id)
  }

  /** The plan has one row per source node and one inbound count per target node; node ids are positions. */
  ghost predicate Fits(sol: TransportPlan)
    reads sol`paths, sol`toPathCounts, sol`pathCounter, sol`added, sol.source`nodes, sol.target`nodes
  {
    && sol.Valid() && sol.Dense()
    && |sol.paths| == |sol.source.nodes| && |sol.toPathCounts| == |sol.target.nodes|
    && IdsArePositions(sol.source.nodes) && IdsArePositions(sol.target.nodes)
  }

  /**
   * Columns below n join rows inside the graph of `rows` rows; the columns
   * from n on are the unfilled ones addColumns appends (rows -1 and -1).
   */
  predicate Placed(sInd: seq<int>, tInd: seq<int>, rows: int, n: int) {
    && |tInd| == |sInd| && 0 <= n <= |sInd|
    && (forall i :: 0 <= i < n ==> 0 <= sInd[i] <= rows && 0 <= tInd[i] <= rows)
    && (forall i :: n <= i < |sInd| ==> sInd[i] == -1 && tInd[i] == -1)
  }

  /**
   * The LP layer holds the LP of sol with `extra` appended columns still
   * unfilled: createLP's row layout and column offset, one filled column
   * per arc of sol, and a non-zero row bound so that solveLP can scale.
   */
  ghost predicate Pending(lp: TransportLPSolver, sol: TransportPlan, extra: int)
    reads lp`pathOffset, lp.solver`sInd, lp.solver`tInd, lp.solver`coeff, lp.solver`primal
    reads lp.solver`colLB, lp.solver`colUB, lp.solver`colStatus, lp.solver`mass, lp.solver`rowStatus, lp.solver`dual
    reads sol`paths, sol`toPathCounts, sol`pathCounter, sol`added, sol.source`nodes, sol.target`nodes
  {
    && Fits(sol)
    && extra >= 0
    && lp.pathOffset == 2 * |sol.source.nodes| + 2 * |sol.target.nodes| + 3
    && lp.solver.Valid()
    && |lp.solver.mass| == |sol.source.nodes| + |sol.target.nodes| + 4
    && |lp.solver.sInd| == lp.pathOffset + sol.pathCounter + extra
    && MaxCapacity(lp.solver.mass) > 0.0
    && Placed(lp.solver.sInd, lp.solver.tInd, |lp.solver.mass|, lp.pathOffset + sol.pathCounter)
  }

  /**
   * The node potentials storeLP leaves: each target node holds the dual of
   * row |S| + id, and each source node that is not also a target node the
   * dual of row id.
   */
  ghost predicate StoredPotentials(dual: seq<real>, S: seq<TransportNode>, T: seq<TransportNode>)
    reads set n | n in S, set n | n in T
  {
    && (forall n :: n in T ==> 0 <= |S| + n.id < |dual| && n.potential == dual[|S| + n.id])
    && (forall n :: n in S && n !in T ==> 0 <= n.id < |dual| && n.potential == dual[n.id])
  }

  /** The LP layer holds exactly the LP of sol. */
  ghost predicate Holds(lp: TransportLPSolver, sol: TransportPlan)
    reads lp`pathOffset, lp.solver`sInd, lp.solver`tInd, lp.solver`coeff, lp.solver`primal
    reads lp.solver`colLB, lp.solver`colUB, lp.solver`colStatus, lp.solver`mass, lp.solver`rowStatus, lp.solver`dual
    reads sol`paths, sol`toPathCounts, sol`pathCounter, sol`added, sol.source`nodes, sol.target`nodes
  {
    Pending(lp, sol, 0)
  }

  /** solveLP may run exactly when no appended column is left unfilled. */
  lemma PendingInGraph(lp: TransportLPSolver, sol: TransportPlan, extra: int)
    requires Pending(lp, sol, extra)
    ensures lp.solver.ArcsInGraph() <==> extra == 0
  {
    var n := lp.pathOffset + sol.pathCounter;
    if extra > 0 {
      assert lp.solver.sInd[n] == -1;
    }
  }

  /** Some node of the level has a non-zero mass. */
  ghost predicate Weighted(level: Level)
    reads level`nodes, (set n | n in level.nodes)`mass
  {
    exists i :: 0 <= i < |level.nodes| && level.nodes[i].mass != 0.0
  }

  /** A node of a level whose ids are positions has its id as its position. */
  lemma NodeAtId(nodes: seq<TransportNode>, n: TransportNode)
    requires IdsArePositions(nodes) && n in nodes
    ensures 0 <= n.id < |nodes| && nodes[n.id] == n
  {
    var i :| 0 <= i < |nodes| && nodes[i] == n;
  }

  /** In a held LP every arc column and every node row exists, as storeLP and setPotentials index them. */
  lemma HeldIndices(lp: TransportLPSolver, sol: TransportPlan)
    requires Holds(lp, sol)
    ensures forall a :: Has(sol.paths, a) ==> 0 <= lp.pathOffset + Get(sol.paths, a).index < |lp.solver.primal|
    ensures forall n :: n in sol.source.nodes ==> 0 <= n.id < |lp.solver.dual|
    ensures forall n :: n in sol.target.nodes ==> 0 <= |sol.source.nodes| + n.id < |lp.solver.dual|
  {
    sol.DenseIndices();
    forall n | n in sol.source.nodes
      ensures 0 <= n.id < |lp.solver.dual|
    {
      NodeAtId(sol.source.nodes, n);
    }
    forall n | n in sol.target.nodes
      ensures 0 <= |sol.source.nodes| + n.id < |lp.solver.dual|
    {
      NodeAtId(sol.target.nodes, n);
    }
  }

  /** The solver's outcome is the backend's solve of its current arrays. */
  ghost predicate Solved(s: LemonSolver)
    reads s`success, s`objValue, s`primal, s`dual, s`sInd, s`tInd, s`coeff, s`mass, s`colLB, s`colUB
  {
    && |s.tInd| == |s.sInd| && |s.coeff| == |s.sInd| && |s.colLB| == |s.sInd| && |s.colUB| == |s.sInd|
    && MaxCapacity(s.mass) > 0.0
    && Outcome(s.success, s.objValue, s.primal, s.dual)
       == SolveOutcome(s.simplex, s.sInd, s.tInd, s.coeff, s.mass, s.colLB, s.colUB, |s.primal|, |s.dual|)
  }

  /**
   * rs are the rows P after storeLP: the same arcs, each with the primal
   * value of its column as weight and otherwise unchanged.
   */
  ghost predicate StoredFrom(rs: seq<map<int, Path>>, P: seq<map<int, Path>>, primal: seq<real>, offset: int) {
    && (forall a :: Has(rs, a) <==> Has(P, a))
    && (forall a :: Has(P, a) ==>
          0 <= offset + Get(P, a).index < |primal| && Get(rs, a) == Get(P, a).(w := primal[offset + Get(P, a).index]))
  }

  /** createLP(sol): afterwards the LP layer holds the LP of sol, with the start basis. */
  method Create(lp: TransportLPSolver, sol: TransportPlan)
    requires Fits(sol) && Weighted(sol.source)
    modifies lp`pathOffset, lp`sourceMassSupplyDistributionStart, lp`sourceMassSinkDistributionStart
    modifies lp`targetMassSupplyDistributionStart, lp`targetMassSinkDistributionStart
    modifies lp`sourceMassExchangePath, lp`targetMassExchangePath, lp`sourceCirculationPath
    modifies lp`sourceMassSupplyNode, lp`sourceMassSinkNode, lp`targetMassSupplyNode, lp`targetMassSinkNode
    modifies lp.solver`sInd, lp.solver`tInd, lp.solver`coeff, lp.solver`primal, lp.solver`colStatus, lp.solver`colLB, lp.solver`colUB
    modifies lp.solver`mass, lp.solver`rowStatus, lp.solver`dual, lp.solver`ns, lp.solver`nt
    modifies sol`outer, sol`inner
    ensures Holds(lp, sol) && StartBasis(lp.solver)
  {
    ghost var i :| 0 <= i < |sol.source.nodes| && sol.source.nodes[i].mass != 0.0;
    ghost var src, tgt := Masses(sol.source.nodes), Masses(sol.target.nodes);
    assert src[i] != 0.0;
    lp.CreateLP(sol);
    ghost var L := Layout(|sol.source.nodes|, |sol.target.nodes|, |sol.added|);
    Created(lp, sol, L, src, tgt, MassTable(lp.transportType, RealSum(src), RealSum(tgt)), i);
  }

  /** What createLP leaves is a held LP. */
  lemma Created(lp: TransportLPSolver, sol: TransportPlan, L: Layout, src: seq<real>, tgt: seq<real>, u: Unbalanced, i: int)
    requires Fits(sol) && L == Layout(|sol.source.nodes|, |sol.target.nodes|, |sol.added|)
    requires lp.LaidOut(L) && Sized(lp.solver, L.NumRows(), L.NumColumns()) && lp.solver.ArcsInGraph()
    requires |src| == L.ns && |tgt| == L.nt && lp.solver.mass == RowBounds(src, tgt, u)
    requires 0 <= i < |src| && src[i] != 0.0
    ensures Holds(lp, sol)
  {
    assert lp.solver.mass[i] == src[i];
    CapacityPositive(lp.solver.mass, i);
  }

  /** solveLP on a held LP: it stays held and the outcome is the backend's solve. */
  method Solve(lp: TransportLPSolver, ghost sol: TransportPlan)
    requires Holds(lp, sol)
    modifies lp.solver`success, lp.solver`objValue, lp.solver`iCount, lp.solver`primal, lp.solver`dual
    ensures Holds(lp, sol) && Solved(lp.solver)
  {
    PendingInGraph(lp, sol, 0);
    lp.SolveLP();
  }

  /** createLP then solveLP on a plan that fits its levels. */
  method CreateSolve(lp: TransportLPSolver, sol: TransportPlan)
    requires Fits(sol) && Weighted(sol.source)
    modifies lp`pathOffset, lp`sourceMassSupplyDistributionStart, lp`sourceMassSinkDistributionStart
    modifies lp`targetMassSupplyDistributionStart, lp`targetMassSinkDistributionStart
    modifies lp`sourceMassExchangePath, lp`targetMassExchangePath, lp`sourceCirculationPath
    modifies lp`sourceMassSupplyNode, lp`sourceMassSinkNode, lp`targetMassSupplyNode, lp`targetMassSinkNode
    modifies lp.solver`sInd, lp.solver`tInd, lp.solver`coeff, lp.solver`primal, lp.solver`colStatus, lp.solver`colLB, lp.solver`colUB
    modifies lp.solver`mass, lp.solver`rowStatus, lp.solver`dual, lp.solver`ns, lp.solver`nt
    modifies lp.solver`success, lp.solver`objValue, lp.solver`iCount
    modifies sol`outer, sol`inner
    ensures Holds(lp, sol) && Solved(lp.solver) && unchanged(sol`paths, sol`toPathCounts, sol`pathCounter)
  {
    Create(lp, sol);
    Solve(lp, sol);
  }

  /** storeLP(sol, p) on a held LP: the arcs take their primal values as weights and the cost is the objective's p-th root. */
  method Store(lp: TransportLPSolver, sol: TransportPlan, p: real, pow: Power)
    requires Holds(lp, sol) && p != 0.0
    modifies sol`cost, sol`paths, sol`outer, sol`inner
    modifies (set n | n in sol.source.nodes)`potential, (set n | n in sol.target.nodes)`potential
    ensures Holds(lp, sol)
    ensures StoredFrom(sol.paths, old(sol.paths), lp.solver.primal, lp.pathOffset)
    ensures sol.cost == pow(lp.solver.objValue, 1.0 / p)
    ensures StoredPotentials(lp.solver.dual, sol.source.nodes, sol.target.nodes)
  {
    HeldIndices(lp, sol);
    lp.StoreLP(sol, p, pow);
  }

  /**
   * The end of the strategies that re-solve the LP of the primary plan in
   * place to find an alternative solution: a copy of the primary plan
   * takes the time counters plus tPropagate and tSolve, storeLP puts the
   * solution into it, and it is appended as an alternative.
   */
  method AddSolvedCopy(lp: TransportLPSolver, pSol: TransportPlanSolutions, p: real, pow: Power, tPropagate: int, tSolve: int)
    returns (ghost res: TransportPlan)
    requires Holds(lp, pSol.sol) && p != 0.0
    modifies pSol`alternatives
    modifies (set n | n in pSol.sol.source.nodes)`potential, (set n | n in pSol.sol.target.nodes)`potential
    ensures fresh(res) && pSol.alternatives == old(pSol.alternatives) + [res]
    ensures Holds(lp, res)
    ensures res.source == pSol.sol.source && res.target == pSol.sol.target
    ensures res.pathCounter == pSol.sol.pathCounter && res.toPathCounts == pSol.sol.toPathCounts
    ensures StoredFrom(res.paths, pSol.sol.paths, lp.solver.primal, lp.pathOffset)
    ensures res.cost == pow(lp.solver.objValue, 1.0 / p)
    ensures res.timePropagate == pSol.sol.timePropagate + tPropagate && res.timeSolve == pSol.sol.timeSolve + tSolve
    ensures res.timeRefine == pSol.sol.timeRefine
    ensures StoredPotentials(lp.solver.dual, res.source.nodes, res.target.nodes)
  {
    var sol := pSol.sol;
    var r := sol.CreateCopy();
    r.timePropagate := r.timePropagate + tPropagate;
    r.timeSolve := r.timeSolve + tSolve;
    Store(lp, r, p, pow);
    pSol.AddAlternativeSolution(r);
    res := r;
  }

  /** setColumnBounds(col, lb, ub) on a held LP: it stays held. */
  method Bound(lp: TransportLPSolver, ghost sol: TransportPlan, col: int, lb: real, ub: real)
    requires Holds(lp, sol) && 0 <= lp.pathOffset + col < |lp.solver.colLB|
    modifies lp.solver`colLB, lp.solver`colUB
    ensures Holds(lp, sol)
    ensures lp.solver.colLB == old(lp.solver.colLB)[lp.pathOffset + col := lb]
    ensures lp.solver.colUB == old(lp.solver.colUB)[lp.pathOffset + col := ub]
  {
    lp.SetColumnBounds(col, lb, ub);
  }

  /** setColumnBoundsLower(col, lb) on a held LP: it stays held. */
  method BoundBelow(lp: TransportLPSolver, ghost sol: TransportPlan, col: int, lb: real)
    requires Holds(lp, sol) && 0 <= lp.pathOffset + col < |lp.solver.colLB|
    modifies lp.solver`colLB, lp.solver`colUB
    ensures Holds(lp, sol)
    ensures lp.solver.colLB == old(lp.solver.colLB)[lp.pathOffset + col := lb]
    ensures lp.solver.colUB == old(lp.solver.colUB)[lp.pathOffset + col := MaxDouble]
  {
    lp.SetColumnBoundsLower(col, lb);
  }

  /** setColumnObjective(col, cost) on a held LP: it stays held. */
  method Price(lp: TransportLPSolver, ghost sol: TransportPlan, col: int, cost: real)
    requires Holds(lp, sol) && 0 <= lp.pathOffset + col < |lp.solver.coeff|
    modifies lp.solver`coeff
    ensures Holds(lp, sol)
    ensures lp.solver.coeff == old(lp.solver.coeff)[lp.pathOffset + col := cost]
  {
    lp.SetColumnObjective(col, cost);
  }

  /** Column k of the backend together with its status. */
  ghost function EntryAt(s: LemonSolver, k: int): (Column, Status)
    reads s`sInd, s`tInd, s`coeff, s`colLB, s`colUB, s`colStatus
    requires 0 <= k < |s.sInd| && k < |s.tInd| && k < |s.coeff| && k < |s.colLB| && k < |s.colUB| && k < |s.colStatus|
  {
    (Column(s.sInd[k], s.tInd[k], s.colLB[k], s.colUB[k], s.coeff[k]), s.colStatus[k])
  }

  /** The column createLP gives arc q (its ArcColumn for ns source nodes), at its lower bound. */
  function ArcEntry(ns: int, q: Path): (Column, Status) {
    (Column(q.from.id, ns + q.to.id, 0.0, MaxDouble, q.cost), LOWER)
  }

  /**
   * The four calls that fill the column of arc index `index` for path q:
   * setColumnObjective, setColumnBoundsLower(0), setColumnStatus(LOWER) and
   * setColumnCoefficients(from, offset + to).
   */
  method FillColumn(lp: TransportLPSolver, index: int, q: Path, offset: int)
    requires lp.solver.Valid() && 0 <= lp.pathOffset + index < |lp.solver.sInd|
    modifies lp.solver`coeff, lp.solver`colLB, lp.solver`colUB, lp.solver`colStatus, lp.solver`sInd, lp.solver`tInd
    ensures lp.solver.Valid()
    ensures lp.solver.sInd == old(lp.solver.sInd)[lp.pathOffset + index := q.from.id]
    ensures lp.solver.tInd == old(lp.solver.tInd)[lp.pathOffset + index := offset + q.to.id]
    ensures EntryAt(lp.solver, lp.pathOffset + index) == ArcEntry(offset, q)
    ensures EntriesKept(lp.solver, lp.pathOffset + index, old(Entries(lp.solver)))
  {
    lp.SetColumnObjective(index, q.cost);
    lp.SetColumnBoundsLower(index, 0.0);
    lp.SetColumnStatus(index, LOWER);
    lp.SetColumnCoefficients(index, q.from.id, offset + q.to.id);
  }

  /** Q has the arcs of P, with the same paths, except perhaps arc a. */
  ghost predicate OthersKept(Q: seq<map<int, Path>>, P: seq<map<int, Path>>, a: Arc) {
    && (forall b :: b != a ==> (Has(Q, b) <==> Has(P, b)))
    && (forall b :: b != a && Has(Q, b) ==> Get(Q, b) == Get(P, b))
  }

  /**
   * addPath(q) took plan rows P (creation order `added`, counter c) to Q
   * (added', c') and returned index: q's arc is present and nothing else
   * changed; a new arc got index c and was appended to the creation order,
   * a present one kept its index.
   */
  ghost predicate PlanStep(Q: seq<map<int, Path>>, P: seq<map<int, Path>>, added': seq<Arc>, added: seq<Arc>, c': int, c: int,
                           q: Path, index: int) {
    && Has(Q, q.Key()) && OthersKept(Q, P, q.Key())
    && (!Has(P, q.Key()) ==> index == c && c' == c + 1 && added' == added + [q.Key()] && Get(Q, q.Key()) == q.(index := index))
    && (Has(P, q.Key()) ==>
          index == Get(P, q.Key()).index && c' == c && added' == added
          && Get(Q, q.Key()) == Get(P, q.Key()).(w := Max(Get(P, q.Key()).w, q.w)))
  }

  /** The backend columns other than column k are those of the snapshot. */
  ghost predicate EntriesKept(s: LemonSolver, k: int, E: seq<(Column, Status)>)
    reads s`sInd, s`tInd, s`coeff, s`colLB, s`colUB, s`colStatus
  {
    && |E| == |s.sInd| && |s.tInd| == |s.sInd| && |s.coeff| == |s.sInd|
    && |s.colLB| == |s.sInd| && |s.colUB| == |s.sInd| && |s.colStatus| == |s.sInd|
    && forall j :: 0 <= j < |E| && j != k ==> EntryAt(s, j) == E[j]
  }

  /** The first |X| backend columns, with their statuses, are X. */
  ghost predicate Prefix(s: LemonSolver, X: seq<(Column, Status)>)
    reads s`sInd, s`tInd, s`coeff, s`colLB, s`colUB, s`colStatus
  {
    && |X| <= |s.sInd| && |s.tInd| == |s.sInd| && |s.coeff| == |s.sInd|
    && |s.colLB| == |s.sInd| && |s.colUB| == |s.sInd| && |s.colStatus| == |s.sInd|
    && forall k :: 0 <= k < |X| ==> EntryAt(s, k) == X[k]
  }

  /** The backend columns, with their statuses, are exactly X. */
  ghost predicate EntriesAre(s: LemonSolver, X: seq<(Column, Status)>)
    reads s`sInd, s`tInd, s`coeff, s`colLB, s`colUB, s`colStatus
  {
    Prefix(s, X) && |X| == |s.sInd|
  }

  /** The backend columns with their statuses. */
  ghost function Entries(s: LemonSolver): (r: seq<(Column, Status)>)
    reads s`sInd, s`tInd, s`coeff, s`colLB, s`colUB, s`colStatus
    requires |s.tInd| == |s.sInd| && |s.coeff| == |s.sInd| && |s.colLB| == |s.sInd| && |s.colUB| == |s.sInd| && |s.colStatus| == |s.sInd|
    ensures |r| == |s.sInd| && forall j :: 0 <= j < |r| ==> r[j] == EntryAt(s, j)
  {
    EntriesOf(s.sInd, s.tInd, s.colLB, s.colUB, s.coeff, s.colStatus)
  }

  /** The columns of the column arrays, with their statuses. */
  function EntriesOf(sInd: seq<int>, tInd: seq<int>, colLB: seq<real>, colUB: seq<real>, coeff: seq<real>, colStatus: seq<Status>)
    : (r: seq<(Column, Status)>)
    requires |tInd| == |sInd| && |colLB| == |sInd| && |colUB| == |sInd| && |coeff| == |sInd| && |colStatus| == |sInd|
    ensures |r| == |sInd|
  {
    seq(|sInd|, k requires 0 <= k < |sInd| => (Column(sInd[k], tInd[k], colLB[k], colUB[k], coeff[k]), colStatus[k]))
  }

  /**
   * One step of the add loops: index = sol.addPath(q), then the column of
   * that index is filled. A new arc takes the first unfilled column; an
   * arc already present has its own column filled again.
   */
  method AddAndFill(lp: TransportLPSolver, sol: TransportPlan, q: Path, ghost extra: int) returns (index: int)
    requires Pending(lp, sol, extra) && 0 <= q.from.id < |sol.paths| && 0 <= q.to.id < |sol.toPathCounts|
    requires !Has(sol.paths, q.Key()) ==> extra > 0
    modifies sol`paths, sol`pathCounter, sol`toPathCounts, sol`added
    modifies lp.solver`coeff, lp.solver`colLB, lp.solver`colUB, lp.solver`colStatus, lp.solver`sInd, lp.solver`tInd
    ensures Pending(lp, sol, if Has(old(sol.paths), q.Key()) then extra else extra - 1)
    ensures PlanStep(sol.paths, old(sol.paths), sol.added, old(sol.added), sol.pathCounter, old(sol.pathCounter), q, index)
    ensures 0 <= lp.pathOffset + index < |lp.solver.sInd| && EntryAt(lp.solver, lp.pathOffset + index) == ArcEntry(|sol.source.nodes|, q)
    ensures EntriesKept(lp.solver, lp.pathOffset + index, old(Entries(lp.solver)))
  {
    ghost var s0, t0 := lp.solver.sInd, lp.solver.tInd;
    ghost var n := lp.pathOffset + sol.pathCounter;
    var offset := |sol.source.nodes|;
    index := AddToPlan(sol, q);
    ghost var e := if Has(old(sol.paths), q.Key()) then extra else extra - 1;
    assert offset == |sol.source.nodes|;
    FillColumn(lp, index, q, offset);
    PlacedFill(s0, t0, |lp.solver.mass|, n, lp.pathOffset + index, q.from.id, offset + q.to.id);
    PendingFrom(lp, sol, e);
  }

  /** sol.addPath(q) on a plan that fits its levels. */
  method AddToPlan(sol: TransportPlan, q: Path) returns (index: int)
    requires Fits(sol) && 0 <= q.from.id < |sol.paths| && 0 <= q.to.id < |sol.toPathCounts|
    modifies sol`paths, sol`pathCounter, sol`toPathCounts, sol`added
    ensures Fits(sol) && 0 <= index < sol.pathCounter
    ensures PlanStep(sol.paths, old(sol.paths), sol.added, old(sol.added), sol.pathCounter, old(sol.pathCounter), q, index)
  {
    ghost var P := sol.paths;
    if Has(P, q.Key()) {
      assert 0 <= Get(P, q.Key()).index < sol.pathCounter;
    }
    index := sol.AddPath(q);
  }

  /** The conjuncts of Pending, one by one. */
  lemma PendingFrom(lp: TransportLPSolver, sol: TransportPlan, extra: int)
    requires Fits(sol) && extra >= 0 && lp.solver.Valid()
    requires lp.pathOffset == 2 * |sol.source.nodes| + 2 * |sol.target.nodes| + 3
    requires |lp.solver.mass| == |sol.source.nodes| + |sol.target.nodes| + 4 && MaxCapacity(lp.solver.mass) > 0.0
    requires |lp.solver.sInd| == lp.pathOffset + sol.pathCounter + extra
    requires Placed(lp.solver.sInd, lp.solver.tInd, |lp.solver.mass|, lp.pathOffset + sol.pathCounter)
    ensures Pending(lp, sol, extra)
  {
  }

  /** Filling column k with rows inside the graph keeps the columns placed, and filling the first unfilled one extends the filled part. */
  lemma PlacedFill(sInd: seq<int>, tInd: seq<int>, rows: int, n: int, k: int, a: int, b: int)
    requires Placed(sInd, tInd, rows, n) && 0 <= k <= n && k < |sInd| && 0 <= a <= rows && 0 <= b <= rows
    ensures Placed(sInd[k := a], tInd[k := b], rows, if k == n then n + 1 else n)
  {
  }

  /**
   * addColumns(n) on a held LP: n unfilled columns are appended and every
   * existing column stays as it was.
   */
  method Widen(lp: TransportLPSolver, ghost sol: TransportPlan, n: int)
    requires Holds(lp, sol) && n >= 0
    modifies lp.solver`sInd, lp.solver`tInd, lp.solver`coeff, lp.solver`primal, lp.solver`colStatus, lp.solver`colLB, lp.solver`colUB
    ensures Pending(lp, sol, n) && Prefix(lp.solver, old(Entries(lp.solver)))
  {
    ghost var s0, t0 := lp.solver.sInd, lp.solver.tInd;
    lp.AddColumns(n);
    PlacedAppend(s0, t0, |lp.solver.mass|, n);
  }

  /** Appending unfilled columns keeps the columns placed. */
  lemma PlacedAppend(sInd: seq<int>, tInd: seq<int>, rows: int, m: int)
    requires Placed(sInd, tInd, rows, |sInd|) && m >= 0
    ensures Placed(sInd + seq(m, _ => -1), tInd + seq(m, _ => -1), rows, |sInd|)
  {
  }

  /** Filling the one column appended to X gives the columns X and then that column. */
  lemma FilledLast(s: LemonSolver, X: seq<(Column, Status)>, Y: seq<(Column, Status)>, k: int, e: (Column, Status))
    requires |Y| == |X| + 1 && k == |X| && (forall j :: 0 <= j < |X| ==> Y[j] == X[j])
    requires EntriesKept(s, k, Y) && EntryAt(s, k) == e
    ensures EntriesAre(s, X + [e])
  {
  }

  /** Columns that are exactly X read back as X. */
  lemma EntriesAreValues(s: LemonSolver, X: seq<(Column, Status)>)
    requires EntriesAre(s, X)
    ensures Entries(s) == X
  {
  }

  /**
   * setupBasis on a held LP, with the arc statuses placed from the arc
   * offset on (the corrected placement): the LP stays held.
   */
  method Warm(lp: TransportLPSolver, ghost sol: TransportPlan, colStatus: seq<Status>, rowStatus: seq<Status>)
    requires Holds(lp, sol) && |colStatus| <= sol.pathCounter && |rowStatus| <= |lp.solver.rowStatus|
    modifies lp.solver`colStatus, lp.solver`rowStatus
    ensures Holds(lp, sol)
    ensures lp.solver.colStatus == PlaceStatuses(old(lp.solver.colStatus), colStatus, lp.pathOffset)
    ensures lp.solver.rowStatus == PlaceStatuses(old(lp.solver.rowStatus), rowStatus, 0)
  {
    lp.SetupArcBasis(colStatus, rowStatus);
  }
}
