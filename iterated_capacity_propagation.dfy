/**
 * IteratedCapacityPropagationStrategy: before propagating, it rebuilds the
 * LP of a copy of the coarse primary plan and runs nIterations rounds. Each
 * round caps every arc that carries flow at a random 90% to 95% of that
 * flow, solves, lifts every arc's bounds back to [0, MaxDouble] and solves
 * again when the capped LP is not optimal, stores the solution in the
 * current copy, records it as an alternative plan and continues on a copy
 * of it. The LP is not rebuilt between rounds, so a cap stays in force for
 * an arc whose flow later drops to zero.
 *
 * The draws of the random generator are the parameter `uniform`: the draw
 * for arc a in round i is uniform(i, a).
 */
module IteratedCapacityPropagation {
  import opened Nodes
  import opened Levels
  import opened Plans
  import opened LPSolver
  import opened Lemon
  import opened TransportSolver
  import opened StrategyLP
  import opened ArcWalk
  import opened CapacityRounds

  /**
   * The rounds: round j starts from the rows P0 of the primary plan and the
   * bounds LB0, UB0 for j = 0, and from the rows and bounds round j - 1 left
   * otherwise; it stores its primal values as the weights of rows[j].
   */
  ghost predicate Rounds(P0: seq<map<int, Path>>, added: seq<Arc>, LB0: seq<real>, UB0: seq<real>, F: FixedLP, rows: seq<seq<map<int, Path>>>,
                         rounds: seq<RoundLP>, offset: int, uniform: (int, Arc) -> real)
    decreases |rows|
  {
    && |rounds| == |rows|
    && (|rows| > 0 ==>
          var n := |rows| - 1;
          && Rounds(P0, added, LB0, UB0, F, rows[..n], rounds[..n], offset, uniform)
          && Link(RowsBefore(P0, rows, n), added, BoundsBefore(LB0, rounds, n, true), BoundsBefore(UB0, rounds, n, false), F, rows[n], rounds[n],
                  offset, n, uniform))
  }

  /** Appending one more round. */
  lemma RoundsStep(P0: seq<map<int, Path>>, added: seq<Arc>, LB0: seq<real>, UB0: seq<real>, F: FixedLP, rows: seq<seq<map<int, Path>>>,
                   rounds: seq<RoundLP>, offset: int, uniform: (int, Arc) -> real, R: seq<map<int, Path>>, r: RoundLP)
    requires Rounds(P0, added, LB0, UB0, F, rows, rounds, offset, uniform)
    requires Link(RowsBefore(P0, rows, |rows|), added, BoundsBefore(LB0, rounds, |rows|, true), BoundsBefore(UB0, rounds, |rows|, false),
                  F, R, r, offset, |rows|, uniform)
    ensures Rounds(P0, added, LB0, UB0, F, rows + [R], rounds + [r], offset, uniform)
  {
    var rows', rounds' := rows + [R], rounds + [r];
    assert rows'[..|rows|] == rows && rounds'[..|rows|] == rounds;
    assert RowsBefore(P0, rows', |rows|) == RowsBefore(P0, rows, |rows|);
    assert BoundsBefore(LB0, rounds', |rows|, true) == BoundsBefore(LB0, rounds, |rows|, true);
    assert BoundsBefore(UB0, rounds', |rows|, false) == BoundsBefore(UB0, rounds, |rows|, false);
  }

  /**
   * computeAlternateSolutions: a copy of the primary plan gets its own LP
   * from createLP; each of the nIterations rounds caps, solves (lifting
   * the bounds and solving again when not optimal), stores the solution in
   * the current copy, appends that copy as an alternative and goes on with
   * a copy of it. The alternatives rs hold the rows `rows` the rounds
   * describe: round 0 starts from the rows P0 of the primary plan and the
   * bounds LB0, UB0 createLP sets, every later round from what the one
   * before left. The time counters of every alternative are those of the
   * primary plan: the clock readings go to no counter.
   */
  /** What a plan holds once stored: its rows, its cost and its time counters. */
  datatype Stored = Stored(paths: seq<map<int, Path>>, cost: real, timePropagate: int, timeSolve: int, timeRefine: int)

  /** The stored content of plan t. */
  ghost function View(t: TransportPlan): Stored
    reads t`paths, t`cost, t`timePropagate, t`timeSolve, t`timeRefine
  {
    Stored(t.paths, t.cost, t.timePropagate, t.timeSolve, t.timeRefine)
  }

  /** The alternatives rs so far hold the rows and the costs of the rounds, and the time counters T of the primary plan. */
  ghost predicate Kept(rs: seq<TransportPlan>, rows: seq<seq<map<int, Path>>>, rounds: seq<RoundLP>, S: Level, T: Level,
                       times: (int, int, int), p: real, pow: Power)
    reads rs`paths, rs`cost, rs`timePropagate, rs`timeSolve, rs`timeRefine
  {
    && p != 0.0
    && |rs| == |rows| == |rounds|
    && forall j :: 0 <= j < |rs| ==>
         && rs[j].source == S && rs[j].target == T
         && View(rs[j]) == Stored(rows[j], pow(rounds[j].objValue, 1.0 / p), times.0, times.1, times.2)
  }

  /**
   * After round |rows| - 1 (before round 0 when rows is empty): res holds
   * the LP, whose fixed part is F; the rounds so far chain from P0, LB0,
   * UB0; res holds the rows and the backend the bounds the last round left;
   * the alternatives so far are kept.
   */
  ghost predicate Chained(lp: TransportLPSolver, res: TransportPlan, P0: seq<map<int, Path>>, added: seq<Arc>, S: Level, T: Level,
                          times: (int, int, int), F: FixedLP, LB0: seq<real>, UB0: seq<real>, rs: seq<TransportPlan>,
                          rows: seq<seq<map<int, Path>>>, rounds: seq<RoundLP>, p: real, pow: Power, uniform: (int, Arc) -> real)
    reads lp, lp.solver, res, res.source, res.target, rs`paths, rs`cost, rs`timePropagate, rs`timeSolve, rs`timeRefine
  {
    && Holds(lp, res) && Fixed(lp.solver) == F && p != 0.0
    && res.source == S && res.target == T && (res.timePropagate, res.timeSolve, res.timeRefine) == times && res.added == added
    && Rounds(P0, added, LB0, UB0, F, rows, rounds, lp.pathOffset, uniform)
    && res.paths == RowsBefore(P0, rows, |rows|)
    && lp.solver.colLB == BoundsBefore(LB0, rounds, |rows|, true) && lp.solver.colUB == BoundsBefore(UB0, rounds, |rows|, false)
    && Kept(rs, rows, rounds, S, T, times, p, pow)
  }

  /** Before round |rows|: the chain holds and the current copy res is none of the alternatives. */
  ghost predicate Looping(lp: TransportLPSolver, res: TransportPlan, P0: seq<map<int, Path>>, added: seq<Arc>, S: Level, T: Level,
                          times: (int, int, int), F: FixedLP, LB0: seq<real>, UB0: seq<real>, rs: seq<TransportPlan>,
                          rows: seq<seq<map<int, Path>>>, rounds: seq<RoundLP>, p: real, pow: Power, uniform: (int, Arc) -> real)
    reads lp, lp.solver, res, res.source, res.target, rs`paths, rs`cost, rs`timePropagate, rs`timeSolve, rs`timeRefine
  {
    Chained(lp, res, P0, added, S, T, times, F, LB0, UB0, rs, rows, rounds, p, pow, uniform) && res !in rs
  }

  /**
   * What computeAlternateSolutions leaves after n rounds: max(n, 0)
   * alternatives rs, which hold the rows `rows` and the costs of the
   * rounds `rounds`, which chain from the rows P0 of the primary plan and
   * the bounds LB0, UB0; the alternatives have the levels S, T and the time
   * counters of the primary plan.
   */
  ghost predicate Alternatives(rs: seq<TransportPlan>, rows: seq<seq<map<int, Path>>>, rounds: seq<RoundLP>, n: int, P0: seq<map<int, Path>>,
                               added: seq<Arc>, LB0: seq<real>, UB0: seq<real>, F: FixedLP, offset: int, S: Level, T: Level,
                               times: (int, int, int), p: real, pow: Power, uniform: (int, Arc) -> real)
    reads rs`paths, rs`cost, rs`timePropagate, rs`timeSolve, rs`timeRefine
  {
    && |rs| == (if n > 0 then n else 0)
    && Rounds(P0, added, LB0, UB0, F, rows, rounds, offset, uniform)
    && Kept(rs, rows, rounds, S, T, times, p, pow)
  }

  method ComputeAlternateSolutions(lp: TransportLPSolver, pSol: TransportPlanSolutions, nIterations: int, p: real, pow: Power,
                                   uniform: (int, Arc) -> real)
    returns (ghost rs: seq<TransportPlan>, ghost rows: seq<seq<map<int, Path>>>, ghost rounds: seq<RoundLP>,
             ghost F: FixedLP, ghost LB0: seq<real>, ghost UB0: seq<real>)
    requires Fits(pSol.sol) && Weighted(pSol.sol.source) && p != 0.0
    modifies lp`pathOffset, lp`sourceMassSupplyDistributionStart, lp`sourceMassSinkDistributionStart
    modifies lp`targetMassSupplyDistributionStart, lp`targetMassSinkDistributionStart
    modifies lp`sourceMassExchangePath, lp`targetMassExchangePath, lp`sourceCirculationPath
    modifies lp`sourceMassSupplyNode, lp`sourceMassSinkNode, lp`targetMassSupplyNode, lp`targetMassSinkNode
    modifies lp.solver`sInd, lp.solver`tInd, lp.solver`coeff, lp.solver`primal, lp.solver`colStatus, lp.solver`colLB, lp.solver`colUB
    modifies lp.solver`mass, lp.solver`rowStatus, lp.solver`dual, lp.solver`ns, lp.solver`nt
    modifies lp.solver`success, lp.solver`objValue, lp.solver`iCount
    modifies pSol`alternatives
    modifies (set n | n in pSol.sol.source.nodes)`potential, (set n | n in pSol.sol.target.nodes)`potential
    ensures pSol.alternatives == old(pSol.alternatives) + rs
    ensures pSol.sol !in rs
    ensures Alternatives(rs, rows, rounds, nIterations, old(pSol.sol.paths), old(pSol.sol.added), LB0, UB0, F, lp.pathOffset,
                         old(pSol.sol.source), old(pSol.sol.target), old((pSol.sol.timePropagate, pSol.sol.timeSolve, pSol.sol.timeRefine)),
                         p, pow, uniform)
    ensures nIterations > 0 ==> StoredPotentials(lp.solver.dual, pSol.sol.source.nodes, pSol.sol.target.nodes)
  {
    var sol := pSol.sol;
    ghost var P0, added, S, T := sol.paths, sol.added, sol.source, sol.target;
    ghost var times := (sol.timePropagate, sol.timeSolve, sol.timeRefine);
    var res;
    res := Start(lp, sol);
    F, LB0, UB0 := Fixed(lp.solver), lp.solver.colLB, lp.solver.colUB;
    rs, rows, rounds := Iterate(lp, pSol, res, nIterations, p, pow, uniform, P0, added, S, T, times, F, LB0, UB0, sol);
  }

  /** The copy res of the primary plan sol that gets its own LP from createLP, with fixed part F and column bounds LB0, UB0. */
  method Start(lp: TransportLPSolver, sol: TransportPlan) returns (res: TransportPlan)
    requires Fits(sol) && Weighted(sol.source)
    modifies lp`pathOffset, lp`sourceMassSupplyDistributionStart, lp`sourceMassSinkDistributionStart
    modifies lp`targetMassSupplyDistributionStart, lp`targetMassSinkDistributionStart
    modifies lp`sourceMassExchangePath, lp`targetMassExchangePath, lp`sourceCirculationPath
    modifies lp`sourceMassSupplyNode, lp`sourceMassSinkNode, lp`targetMassSupplyNode, lp`targetMassSinkNode
    modifies lp.solver`sInd, lp.solver`tInd, lp.solver`coeff, lp.solver`primal, lp.solver`colStatus, lp.solver`colLB, lp.solver`colUB
    modifies lp.solver`mass, lp.solver`rowStatus, lp.solver`dual, lp.solver`ns, lp.solver`nt
    modifies lp.solver`success, lp.solver`objValue, lp.solver`iCount
    ensures Holds(lp, res)
    ensures fresh(res)
    ensures res.paths == old(sol.paths) && res.added == old(sol.added) && res.source == sol.source && res.target == sol.target
    ensures (res.timePropagate, res.timeSolve, res.timeRefine) == old((sol.timePropagate, sol.timeSolve, sol.timeRefine))
  {
    res := sol.CreateCopy();
    Create(lp, res);
  }

  /** Before the first round: no round, no alternative, and the copy holds the LP createLP built. */
  lemma LoopingStart(lp: TransportLPSolver, res: TransportPlan, P0: seq<map<int, Path>>, added: seq<Arc>, S: Level, T: Level,
                     times: (int, int, int), p: real, pow: Power, uniform: (int, Arc) -> real)
    requires Holds(lp, res) && p != 0.0 && res.paths == P0 && res.added == added && res.source == S && res.target == T
    requires (res.timePropagate, res.timeSolve, res.timeRefine) == times
    ensures Looping(lp, res, P0, added, S, T, times, Fixed(lp.solver), lp.solver.colLB, lp.solver.colUB, [], [], [], p, pow, uniform)
  {
  }

  /** The loop of computeAlternateSolutions over nIterations rounds, from the copy res that holds the LP. */
  method Iterate(lp: TransportLPSolver, pSol: TransportPlanSolutions, res: TransportPlan, nIterations: int, p: real, pow: Power,
                 uniform: (int, Arc) -> real, ghost P0: seq<map<int, Path>>, ghost added: seq<Arc>, ghost S: Level, ghost T: Level,
                 ghost times: (int, int, int), ghost F: FixedLP, ghost LB0: seq<real>, ghost UB0: seq<real>, ghost sol: TransportPlan)
    returns (ghost rs: seq<TransportPlan>, ghost rows: seq<seq<map<int, Path>>>, ghost rounds: seq<RoundLP>)
    requires sol != res
    requires Holds(lp, res) && p != 0.0 && res.paths == P0 && res.added == added && res.source == S && res.target == T
    requires (res.timePropagate, res.timeSolve, res.timeRefine) == times
    requires Fixed(lp.solver) == F && lp.solver.colLB == LB0 && lp.solver.colUB == UB0
    modifies lp.solver`colLB, lp.solver`colUB, lp.solver`success, lp.solver`objValue, lp.solver`iCount, lp.solver`primal, lp.solver`dual
    modifies res`outer, res`inner, res`cost, res`paths, pSol`alternatives
    modifies (set n | n in S.nodes)`potential, (set n | n in T.nodes)`potential
    ensures pSol.alternatives == old(pSol.alternatives) + rs && sol !in rs
    ensures Alternatives(rs, rows, rounds, nIterations, P0, added, LB0, UB0, F, lp.pathOffset, S, T, times, p, pow, uniform)
    ensures nIterations > 0 ==> StoredPotentials(lp.solver.dual, S.nodes, T.nodes)
  {
    LoopingStart(lp, res, P0, added, S, T, times, p, pow, uniform);
    rs, rows, rounds := [], [], [];
    var cur := res;
    var i := 0;
    while i < nIterations
      invariant 0 <= i == |rs| == |rows| && (nIterations > 0 ==> i <= nIterations) && (nIterations <= 0 ==> i == 0)
      invariant cur == res || fresh(cur)
      invariant sol != cur && sol !in rs
      invariant pSol.alternatives == old(pSol.alternatives) + rs
      invariant Looping(lp, cur, P0, added, S, T, times, F, LB0, UB0, rs, rows, rounds, p, pow, uniform)
      invariant i > 0 ==> StoredPotentials(lp.solver.dual, S.nodes, T.nodes)
      decreases nIterations - i
    {
      cur, rs, rows, rounds := Step(lp, pSol, cur, i, p, pow, uniform, P0, added, S, T, times, F, LB0, UB0, old(pSol.alternatives), rs, rows, rounds);
      i := i + 1;
    }
  }

  /** Appending to a concatenation. */
  lemma AppendOne(a: seq<TransportPlan>, b: seq<TransportPlan>, x: TransportPlan)
    ensures a + b + [x] == a + (b + [x])
  {
  }

  /** One iteration of the loop of computeAlternateSolutions: the round on res, which becomes the last alternative, and the copy next. */
  method Step(lp: TransportLPSolver, pSol: TransportPlanSolutions, res: TransportPlan, i: int, p: real, pow: Power, uniform: (int, Arc) -> real,
              ghost P0: seq<map<int, Path>>, ghost added: seq<Arc>, ghost S: Level, ghost T: Level, ghost times: (int, int, int),
              ghost F: FixedLP, ghost LB0: seq<real>, ghost UB0: seq<real>, ghost before: seq<TransportPlan>, ghost rs: seq<TransportPlan>,
              ghost rows: seq<seq<map<int, Path>>>, ghost rounds: seq<RoundLP>)
    returns (next: TransportPlan, ghost rs': seq<TransportPlan>, ghost rows': seq<seq<map<int, Path>>>, ghost rounds': seq<RoundLP>)
    requires Looping(lp, res, P0, added, S, T, times, F, LB0, UB0, rs, rows, rounds, p, pow, uniform) && i == |rows|
    requires pSol.alternatives == before + rs
    modifies lp.solver`colLB, lp.solver`colUB, lp.solver`success, lp.solver`objValue, lp.solver`iCount, lp.solver`primal, lp.solver`dual
    modifies res`outer, res`inner, res`cost, res`paths, pSol`alternatives
    modifies (set n | n in S.nodes)`potential, (set n | n in T.nodes)`potential
    ensures fresh(next) && rs' == rs + [res] && pSol.alternatives == before + rs'
    ensures Looping(lp, next, P0, added, S, T, times, F, LB0, UB0, rs', rows', rounds', p, pow, uniform)
    ensures StoredPotentials(lp.solver.dual, S.nodes, T.nodes)
  {
    AppendOne(before, rs, res);
    rows', rounds' := StoreRound(lp, res, i, p, pow, uniform, P0, added, S, T, times, F, LB0, UB0, rs, rows, rounds);
    rs' := rs + [res];
    next := CopyRound(lp, pSol, res, p, pow, uniform, P0, added, S, T, times, F, LB0, UB0, rs', rows', rounds');
  }

  /** Round i on res: the LP part of the round, then storeLP into res, which joins the alternatives. */
  method StoreRound(lp: TransportLPSolver, res: TransportPlan, i: int, p: real, pow: Power, uniform: (int, Arc) -> real,
                    ghost P0: seq<map<int, Path>>, ghost added: seq<Arc>, ghost S: Level, ghost T: Level, ghost times: (int, int, int),
                    ghost F: FixedLP, ghost LB0: seq<real>, ghost UB0: seq<real>, ghost rs: seq<TransportPlan>,
                    ghost rows: seq<seq<map<int, Path>>>, ghost rounds: seq<RoundLP>)
    returns (ghost rows': seq<seq<map<int, Path>>>, ghost rounds': seq<RoundLP>)
    requires Looping(lp, res, P0, added, S, T, times, F, LB0, UB0, rs, rows, rounds, p, pow, uniform) && i == |rows|
    modifies lp.solver`colLB, lp.solver`colUB, lp.solver`success, lp.solver`objValue, lp.solver`iCount, lp.solver`primal, lp.solver`dual
    modifies res`outer, res`inner, res`cost, res`paths
    modifies (set n | n in S.nodes)`potential, (set n | n in T.nodes)`potential
    ensures Chained(lp, res, P0, added, S, T, times, F, LB0, UB0, rs + [res], rows', rounds', p, pow, uniform)
    ensures StoredPotentials(lp.solver.dual, S.nodes, T.nodes)
  {
    ghost var P, LB, UB := res.paths, lp.solver.colLB, lp.solver.colUB;
    ghost var r := Round(lp, res, i, p, pow, uniform, F, LB, UB, P, added, rs, rows, rounds, S, T, times);
    RoundsStep(P0, added, LB0, UB0, F, rows, rounds, lp.pathOffset, uniform, res.paths, r);
    rows', rounds' := rows + [res.paths], rounds + [r];
    KeptAppend(rs, rows, rounds, S, T, times, p, pow, res, r);
    ChainedLast(lp, res, P0, added, S, T, times, F, LB0, UB0, rs + [res], rows', rounds', p, pow, uniform);
  }

  /**
   * Round i on the copy res, which holds the LP with rows P and column
   * bounds LB, UB: the LP part of the round, then storeLP into res. The
   * alternatives rs, none of which is res, keep what they hold.
   */
  method Round(lp: TransportLPSolver, res: TransportPlan, i: int, p: real, pow: Power, uniform: (int, Arc) -> real,
               ghost F: FixedLP, ghost LB: seq<real>, ghost UB: seq<real>, ghost P: seq<map<int, Path>>, ghost added: seq<Arc>,
               ghost rs: seq<TransportPlan>, ghost rows: seq<seq<map<int, Path>>>, ghost rounds: seq<RoundLP>,
               ghost S: Level, ghost T: Level, ghost times: (int, int, int))
    returns (ghost r: RoundLP)
    requires Holds(lp, res) && p != 0.0 && Fixed(lp.solver) == F && lp.solver.colLB == LB && lp.solver.colUB == UB
    requires res.paths == P && res.added == added && res !in rs && Kept(rs, rows, rounds, S, T, times, p, pow)
    requires res.source == S && res.target == T && (res.timePropagate, res.timeSolve, res.timeRefine) == times
    modifies lp.solver`colLB, lp.solver`colUB, lp.solver`success, lp.solver`objValue, lp.solver`iCount, lp.solver`primal, lp.solver`dual
    modifies res`outer, res`inner, res`cost, res`paths
    modifies (set n | n in S.nodes)`potential, (set n | n in T.nodes)`potential
    ensures Holds(lp, res) && Fixed(lp.solver) == F && lp.solver.colLB == r.LB && lp.solver.colUB == r.UB
    ensures Link(P, added, LB, UB, F, res.paths, r, lp.pathOffset, i, uniform)
    ensures Kept(rs, rows, rounds, S, T, times, p, pow)
    ensures res.source == S && res.target == T && (res.timePropagate, res.timeSolve, res.timeRefine) == times && res.added == added
    ensures View(res) == Stored(res.paths, pow(r.objValue, 1.0 / p), times.0, times.1, times.2)
    ensures StoredPotentials(lp.solver.dual, S.nodes, T.nodes)
  {
    r := SolveRound(lp, res, i, uniform);
    Store(lp, res, p, pow);
  }

  /** The alternatives so far, then res holding the rows and the cost of round r. */
  lemma KeptAppend(rs: seq<TransportPlan>, rows: seq<seq<map<int, Path>>>, rounds: seq<RoundLP>, S: Level, T: Level,
                   times: (int, int, int), p: real, pow: Power, res: TransportPlan, r: RoundLP)
    requires Kept(rs, rows, rounds, S, T, times, p, pow) && res.source == S && res.target == T
    requires View(res) == Stored(res.paths, pow(r.objValue, 1.0 / p), times.0, times.1, times.2)
    ensures Kept(rs + [res], rows + [res.paths], rounds + [r], S, T, times, p, pow)
  {
    var rs', rows', rounds' := rs + [res], rows + [res.paths], rounds + [r];
    forall j | 0 <= j < |rs'|
      ensures rs'[j].source == S && rs'[j].target == T
      ensures View(rs'[j]) == Stored(rows'[j], pow(rounds'[j].objValue, 1.0 / p), times.0, times.1, times.2)
    {
      if j < |rs| {
        assert rs'[j] == rs[j] && rows'[j] == rows[j] && rounds'[j] == rounds[j];
      }
    }
  }

  /** A plan `cur` holding the LP, the rows of the last round and the bounds it left continues the chain. */
  lemma ChainedLast(lp: TransportLPSolver, cur: TransportPlan, P0: seq<map<int, Path>>, added: seq<Arc>, S: Level, T: Level,
                    times: (int, int, int), F: FixedLP, LB0: seq<real>, UB0: seq<real>, rs: seq<TransportPlan>,
                    rows: seq<seq<map<int, Path>>>, rounds: seq<RoundLP>, p: real, pow: Power, uniform: (int, Arc) -> real)
    requires Holds(lp, cur) && Fixed(lp.solver) == F && p != 0.0 && |rows| > 0 && |rounds| == |rows|
    requires cur.source == S && cur.target == T && (cur.timePropagate, cur.timeSolve, cur.timeRefine) == times && cur.added == added
    requires Rounds(P0, added, LB0, UB0, F, rows, rounds, lp.pathOffset, uniform)
    requires cur.paths == rows[|rows| - 1]
    requires lp.solver.colLB == rounds[|rows| - 1].LB && lp.solver.colUB == rounds[|rows| - 1].UB
    requires Kept(rs, rows, rounds, S, T, times, p, pow)
    ensures Chained(lp, cur, P0, added, S, T, times, F, LB0, UB0, rs, rows, rounds, p, pow, uniform)
  {
  }

  /** The end of a round: res joins the alternatives and a fresh copy of it goes on with the chain. */
  method CopyRound(lp: TransportLPSolver, pSol: TransportPlanSolutions, res: TransportPlan, p: real, pow: Power, uniform: (int, Arc) -> real,
                   ghost P0: seq<map<int, Path>>, ghost added: seq<Arc>, ghost S: Level, ghost T: Level, ghost times: (int, int, int),
                   ghost F: FixedLP, ghost LB0: seq<real>, ghost UB0: seq<real>, ghost rs: seq<TransportPlan>,
                   ghost rows: seq<seq<map<int, Path>>>, ghost rounds: seq<RoundLP>)
    returns (next: TransportPlan)
    requires Chained(lp, res, P0, added, S, T, times, F, LB0, UB0, rs, rows, rounds, p, pow, uniform)
    modifies pSol`alternatives
    ensures pSol.alternatives == old(pSol.alternatives) + [res]
    ensures fresh(next) && Chained(lp, next, P0, added, S, T, times, F, LB0, UB0, rs, rows, rounds, p, pow, uniform)
  {
    pSol.AddAlternativeSolution(res);
    next := res.CreateCopy();
    ChainedCopy(lp, res, next, P0, added, S, T, times, F, LB0, UB0, rs, rows, rounds, p, pow, uniform);
  }

  /** A copy of the plan that holds the LP continues the chain in its place. */
  lemma ChainedCopy(lp: TransportLPSolver, res: TransportPlan, next: TransportPlan, P0: seq<map<int, Path>>, added: seq<Arc>, S: Level, T: Level,
                    times: (int, int, int), F: FixedLP, LB0: seq<real>, UB0: seq<real>, rs: seq<TransportPlan>,
                    rows: seq<seq<map<int, Path>>>, rounds: seq<RoundLP>, p: real, pow: Power, uniform: (int, Arc) -> real)
    requires Chained(lp, res, P0, added, S, T, times, F, LB0, UB0, rs, rows, rounds, p, pow, uniform)
    requires next.Valid() && next.Dense() && next.source == res.source && next.target == res.target
    requires next.paths == res.paths && next.pathCounter == res.pathCounter && next.toPathCounts == res.toPathCounts && next.added == res.added
    requires next.timePropagate == res.timePropagate && next.timeSolve == res.timeSolve && next.timeRefine == res.timeRefine
    ensures Chained(lp, next, P0, added, S, T, times, F, LB0, UB0, rs, rows, rounds, p, pow, uniform)
  {
  }

  /** The LP part of round i on the plan sol whose LP the backend holds: cap, solve, and lift and solve again when not optimal. */
  method SolveRound(lp: TransportLPSolver, sol: TransportPlan, i: int, uniform: (int, Arc) -> real) returns (ghost r: RoundLP)
    requires Holds(lp, sol)
    modifies lp.solver`colLB, lp.solver`colUB, lp.solver`success, lp.solver`objValue, lp.solver`iCount, lp.solver`primal, lp.solver`dual
    modifies sol`outer, sol`inner
    ensures Holds(lp, sol) && Fixed(lp.solver) == old(Fixed(lp.solver))
    ensures CapRound(r, Fixed(lp.solver), old(lp.solver.colLB), old(lp.solver.colUB), sol.paths, sol.added, lp.pathOffset, i, uniform)
    ensures lp.solver.colLB == r.LB && lp.solver.colUB == r.UB
    ensures lp.solver.objValue == r.objValue && lp.solver.primal == r.primal
  {
    ghost var LB1, UB1 := CapSolve(lp, sol, i, uniform);
    ghost var feasible := lp.IsOptimal();
    if !lp.IsOptimal() {
      LiftSolve(lp, sol);
    }
    r := RoundLP(LB1, UB1, feasible, lp.solver.colLB, lp.solver.colUB, lp.solver.objValue, lp.solver.primal);
  }

  /** The backend's outcome is that of the fixed part F with the column bounds LB, UB. */
  ghost predicate SolvedAt(s: LemonSolver, F: FixedLP, LB: seq<real>, UB: seq<real>)
    reads s`success, s`objValue, s`primal
  {
    && |F.tInd| == |F.sInd| && |F.coeff| == |F.sInd| && |LB| == |F.sInd| && |UB| == |F.sInd| && MaxCapacity(F.mass) > 0.0
    && s.success == OutcomeWith(F, LB, UB).success
    && s.objValue == OutcomeWith(F, LB, UB).objValue
    && s.primal == OutcomeWith(F, LB, UB).primal
  }

  /** Capping and the first solve of round i. */
  method CapSolve(lp: TransportLPSolver, sol: TransportPlan, i: int, uniform: (int, Arc) -> real) returns (ghost LB1: seq<real>, ghost UB1: seq<real>)
    requires Holds(lp, sol)
    modifies lp.solver`colLB, lp.solver`colUB, lp.solver`success, lp.solver`objValue, lp.solver`iCount, lp.solver`primal, lp.solver`dual
    modifies sol`outer, sol`inner
    ensures Holds(lp, sol) && Fixed(lp.solver) == old(Fixed(lp.solver))
    ensures lp.solver.colLB == LB1 && lp.solver.colUB == UB1
    ensures Rewritten(LB1, old(lp.solver.colLB), sol.paths, sol.added, ArcSet(sol.paths), lp.pathOffset, CapLower)
    ensures Rewritten(UB1, old(lp.solver.colUB), sol.paths, sol.added, ArcSet(sol.paths), lp.pathOffset, CapUpper(i, uniform))
    ensures SolvedAt(lp.solver, Fixed(lp.solver), LB1, UB1)
  {
    CapArcs(lp, sol, i, uniform);
    LB1, UB1 := lp.solver.colLB, lp.solver.colUB;
    StrategyLP.Solve(lp, sol);
    SolvedWith(lp.solver);
  }

  /** Lifting and the second solve of a round whose capped LP is not optimal. */
  method LiftSolve(lp: TransportLPSolver, sol: TransportPlan)
    requires Holds(lp, sol)
    modifies lp.solver`colLB, lp.solver`colUB, lp.solver`success, lp.solver`objValue, lp.solver`iCount, lp.solver`primal, lp.solver`dual
    modifies sol`outer, sol`inner
    ensures Holds(lp, sol) && Fixed(lp.solver) == old(Fixed(lp.solver))
    ensures Rewritten(lp.solver.colLB, old(lp.solver.colLB), sol.paths, sol.added, ArcSet(sol.paths), lp.pathOffset, LiftLower)
    ensures Rewritten(lp.solver.colUB, old(lp.solver.colUB), sol.paths, sol.added, ArcSet(sol.paths), lp.pathOffset, LiftUpper)
    ensures SolvedAt(lp.solver, Fixed(lp.solver), lp.solver.colLB, lp.solver.colUB)
  {
    LiftArcs(lp, sol);
    StrategyLP.Solve(lp, sol);
    SolvedWith(lp.solver);
  }

  /** A solved backend holds the outcome of its fixed part with its current column bounds. */
  lemma SolvedWith(s: LemonSolver)
    requires s.Valid() && Solved(s)
    ensures SolvedAt(s, Fixed(s), s.colLB, s.colUB)
  {
  }

  /** The capping loop of round i: every arc with flow gets the bounds [0, cap]; every other column keeps its bounds. */
  method CapArcs(lp: TransportLPSolver, sol: TransportPlan, i: int, uniform: (int, Arc) -> real)
    requires Holds(lp, sol)
    modifies lp.solver`colLB, lp.solver`colUB, sol`outer, sol`inner
    ensures Holds(lp, sol)
    ensures Rewritten(lp.solver.colLB, old(lp.solver.colLB), sol.paths, sol.added, ArcSet(sol.paths), lp.pathOffset, CapLower)
    ensures Rewritten(lp.solver.colUB, old(lp.solver.colUB), sol.paths, sol.added, ArcSet(sol.paths), lp.pathOffset, CapUpper(i, uniform))
  {
    HeldIndices(lp, sol);
    CapWalk(lp, sol, i, uniform, sol.paths, sol.toPathCounts, sol.pathCounter, sol.added);
  }

  /** The cursor walk of CapArcs. */
  method CapWalk(lp: TransportLPSolver, sol: TransportPlan, i: int, uniform: (int, Arc) -> real, ghost P: seq<map<int, Path>>,
                 ghost counts: seq<int>, ghost counter: int, ghost added: seq<Arc>)
    requires sol.Valid() && sol.paths == P && DenseRows(P, counts, counter, added)
    requires |lp.solver.colUB| == |lp.solver.colLB|
    requires forall a :: Has(P, a) ==> 0 <= lp.pathOffset + Get(P, a).index < |lp.solver.colLB|
    modifies lp.solver`colLB, lp.solver`colUB, sol`outer, sol`inner
    ensures Rewritten(lp.solver.colLB, old(lp.solver.colLB), P, added, ArcSet(P), lp.pathOffset, CapLower)
    ensures Rewritten(lp.solver.colUB, old(lp.solver.colUB), P, added, ArcSet(P), lp.pathOffset, CapUpper(i, uniform))
  {
    ghost var D: set<Arc> := {};
    ghost var LB0, UB0 := lp.solver.colLB, lp.solver.colUB;
    sol.Begin();
    while !sol.IsAtEnd()
      invariant Visiting(sol, P, D)
      invariant Rewritten(lp.solver.colLB, LB0, P, added, D, lp.pathOffset, CapLower)
      invariant Rewritten(lp.solver.colUB, UB0, P, added, D, lp.pathOffset, CapUpper(i, uniform))
      decreases sol.Remaining()
    {
      D := CapStep(lp, sol, i, uniform, P, D, LB0, UB0, counts, counter, added);
    }
    InArcSetAll(P, D);
  }

  /** One arc of the capping walk. */
  method CapStep(lp: TransportLPSolver, sol: TransportPlan, i: int, uniform: (int, Arc) -> real, ghost P: seq<map<int, Path>>,
                 ghost D: set<Arc>, ghost LB0: seq<real>, ghost UB0: seq<real>,
                 ghost counts: seq<int>, ghost counter: int, ghost added: seq<Arc>) returns (ghost D': set<Arc>)
    requires Visiting(sol, P, D) && !sol.IsAtEnd()
    requires DenseRows(P, counts, counter, added) && |UB0| == |LB0|
    requires forall a :: Has(P, a) ==> 0 <= lp.pathOffset + Get(P, a).index < |LB0|
    requires Rewritten(lp.solver.colLB, LB0, P, added, D, lp.pathOffset, CapLower)
    requires Rewritten(lp.solver.colUB, UB0, P, added, D, lp.pathOffset, CapUpper(i, uniform))
    modifies lp.solver`colLB, lp.solver`colUB, sol`outer, sol`inner
    ensures Visiting(sol, P, D')
    ensures Rewritten(lp.solver.colLB, LB0, P, added, D', lp.pathOffset, CapLower)
    ensures Rewritten(lp.solver.colUB, UB0, P, added, D', lp.pathOffset, CapUpper(i, uniform))
    ensures sol.Remaining() < old(sol.Remaining())
  {
    var path := sol.Current();
    ghost var c: Arc := (sol.outer, sol.inner);
    ghost var LB, UB := lp.solver.colLB, lp.solver.colUB;
    ghost var col := lp.pathOffset + path.index;
    assert Has(P, c) && Get(P, c) == path && c !in D && 0 <= col < |LB| && col < |UB|;
    assert Rewritten(LB[col := NewBound(CapLower, path, LB[col])], LB0, P, added, D + {c}, lp.pathOffset, CapLower) by {
      RewriteStep(LB, LB0, P, counts, counter, added, D, c, lp.pathOffset, CapLower, col);
    }
    assert Rewritten(UB[col := NewBound(CapUpper(i, uniform), path, UB[col])], UB0, P, added, D + {c}, lp.pathOffset, CapUpper(i, uniform)) by {
      RewriteStep(UB, UB0, P, counts, counter, added, D, c, lp.pathOffset, CapUpper(i, uniform), col);
    }
    CapColumn(lp, path, i, uniform);
    sol.Pass(D);
    D' := D + {c};
  }

  /** The bounds capLP gives the column of the path: [0, w (0.9 + 0.05 u)] for a positive mass w, unchanged bounds otherwise. */
  method CapColumn(lp: TransportLPSolver, path: Path, i: int, uniform: (int, Arc) -> real)
    requires 0 <= lp.pathOffset + path.index < |lp.solver.colLB| && lp.pathOffset + path.index < |lp.solver.colUB|
    modifies lp.solver`colLB, lp.solver`colUB
    ensures lp.solver.colLB == old(lp.solver.colLB)[lp.pathOffset + path.index := NewBound(CapLower, path, old(lp.solver.colLB)[lp.pathOffset + path.index])]
    ensures lp.solver.colUB == old(lp.solver.colUB)[lp.pathOffset + path.index := NewBound(CapUpper(i, uniform), path, old(lp.solver.colUB)[lp.pathOffset + path.index])]
  {
    ghost var LB, UB, col := lp.solver.colLB, lp.solver.colUB, lp.pathOffset + path.index;
    if path.w > 0.0 {
      var ub := path.w * (0.9 + 0.05 * uniform(i, path.Key()));
      assert NewBound(CapUpper(i, uniform), path, UB[col]) == ub;
      lp.SetColumnBounds(path.index, 0.0, ub);
    } else {
      RewriteKeeps(LB, col, NewBound(CapLower, path, LB[col]));
      RewriteKeeps(UB, col, NewBound(CapUpper(i, uniform), path, UB[col]));
    }
  }

  /** The lifting loop: every arc column gets the bounds [0, MaxDouble]; every other column keeps its bounds. */
  method LiftArcs(lp: TransportLPSolver, sol: TransportPlan)
    requires Holds(lp, sol)
    modifies lp.solver`colLB, lp.solver`colUB, sol`outer, sol`inner
    ensures Holds(lp, sol)
    ensures Rewritten(lp.solver.colLB, old(lp.solver.colLB), sol.paths, sol.added, ArcSet(sol.paths), lp.pathOffset, LiftLower)
    ensures Rewritten(lp.solver.colUB, old(lp.solver.colUB), sol.paths, sol.added, ArcSet(sol.paths), lp.pathOffset, LiftUpper)
  {
    HeldIndices(lp, sol);
    LiftWalk(lp, sol, sol.paths, sol.toPathCounts, sol.pathCounter, sol.added);
  }

  /** The cursor walk of LiftArcs. */
  method LiftWalk(lp: TransportLPSolver, sol: TransportPlan, ghost P: seq<map<int, Path>>,
                  ghost counts: seq<int>, ghost counter: int, ghost added: seq<Arc>)
    requires sol.Valid() && sol.paths == P && DenseRows(P, counts, counter, added)
    requires |lp.solver.colUB| == |lp.solver.colLB|
    requires forall a :: Has(P, a) ==> 0 <= lp.pathOffset + Get(P, a).index < |lp.solver.colLB|
    modifies lp.solver`colLB, lp.solver`colUB, sol`outer, sol`inner
    ensures Rewritten(lp.solver.colLB, old(lp.solver.colLB), P, added, ArcSet(P), lp.pathOffset, LiftLower)
    ensures Rewritten(lp.solver.colUB, old(lp.solver.colUB), P, added, ArcSet(P), lp.pathOffset, LiftUpper)
  {
    ghost var D: set<Arc> := {};
    ghost var LB0, UB0 := lp.solver.colLB, lp.solver.colUB;
    sol.Begin();
    while !sol.IsAtEnd()
      invariant Visiting(sol, P, D)
      invariant Rewritten(lp.solver.colLB, LB0, P, added, D, lp.pathOffset, LiftLower)
      invariant Rewritten(lp.solver.colUB, UB0, P, added, D, lp.pathOffset, LiftUpper)
      decreases sol.Remaining()
    {
      D := LiftStep(lp, sol, P, D, LB0, UB0, counts, counter, added);
    }
    InArcSetAll(P, D);
  }

  /** One arc of the lifting walk. */
  method LiftStep(lp: TransportLPSolver, sol: TransportPlan, ghost P: seq<map<int, Path>>, ghost D: set<Arc>,
                  ghost LB0: seq<real>, ghost UB0: seq<real>,
                  ghost counts: seq<int>, ghost counter: int, ghost added: seq<Arc>) returns (ghost D': set<Arc>)
    requires Visiting(sol, P, D) && !sol.IsAtEnd()
    requires DenseRows(P, counts, counter, added) && |UB0| == |LB0|
    requires forall a :: Has(P, a) ==> 0 <= lp.pathOffset + Get(P, a).index < |LB0|
    requires Rewritten(lp.solver.colLB, LB0, P, added, D, lp.pathOffset, LiftLower)
    requires Rewritten(lp.solver.colUB, UB0, P, added, D, lp.pathOffset, LiftUpper)
    modifies lp.solver`colLB, lp.solver`colUB, sol`outer, sol`inner
    ensures Visiting(sol, P, D')
    ensures Rewritten(lp.solver.colLB, LB0, P, added, D', lp.pathOffset, LiftLower)
    ensures Rewritten(lp.solver.colUB, UB0, P, added, D', lp.pathOffset, LiftUpper)
    ensures sol.Remaining() < old(sol.Remaining())
  {
    var path := sol.Current();
    ghost var c: Arc := (sol.outer, sol.inner);
    ghost var LB, UB := lp.solver.colLB, lp.solver.colUB;
    ghost var col := lp.pathOffset + path.index;
    assert Has(P, c) && Get(P, c) == path && c !in D && 0 <= col < |LB| && col < |UB|;
    assert Rewritten(LB[col := NewBound(LiftLower, path, LB[col])], LB0, P, added, D + {c}, lp.pathOffset, LiftLower) by {
      RewriteStep(LB, LB0, P, counts, counter, added, D, c, lp.pathOffset, LiftLower, col);
    }
    assert Rewritten(UB[col := NewBound(LiftUpper, path, UB[col])], UB0, P, added, D + {c}, lp.pathOffset, LiftUpper) by {
      RewriteStep(UB, UB0, P, counts, counter, added, D, c, lp.pathOffset, LiftUpper, col);
    }
    lp.SetColumnBoundsLower(path.index, 0.0);
    sol.Pass(D);
    D' := D + {c};
  }
}
