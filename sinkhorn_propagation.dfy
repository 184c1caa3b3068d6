/**
 * SinkhornPropagationStrategy: the fine plan's arcs are the child pairs of
 * the coarse primary plan's arcs (an arc that moved too little is skipped
 * once there is a previous left scaling), the entropic transport problem
 * over those arcs is handed to the Sinkhorn solver, warm-started from the
 * coarse left scaling split among the children, and the solver's plan,
 * left scaling and distance are stored in the new plan.
 *
 * Masses of the coarse nodes are read through a value map CM, children
 * through KS and KT; all agree with the nodes' fields.
 */
module SinkhornPropagation {
  import opened Nodes
  import opened Levels
  import opened Plans
  import opened TransportSolver
  import opened StrategyLP
  import opened NeighborhoodPropagation
  import opened SinkhornSolve
  import ME = MaxEntropyPropagation
  import M = Multiscale

  /** std::min as the source uses it: the first argument unless the second is smaller. */
  function MinMass(a: real, b: real): real {
    if b < a then b else a
  }

  /**
   * The walk skips coarse arc q when the previous plan has a left scaling
   * (scaled) and q moved less than threshold times the smaller of its end
   * masses.
   */
  predicate Dropped(q: Path, scaled: bool, threshold: real, CM: ME.Masses) {
    scaled && q.w < MinMass(ME.MassOf(CM, q.from), ME.MassOf(CM, q.to)) * threshold
  }

  /** The child pairs the walk adds for the coarse arcs of P in the order given: none for a skipped arc. */
  ghost function Candidates(P: seq<map<int, Path>>, order: seq<Arc>, scaled: bool, threshold: real, CM: ME.Masses, KS: Kids, KT: Kids,
                            cost: CostFunction, p: real): seq<Path>
    decreases |order|
  {
    if order == [] then []
    else
      var a := order[|order| - 1];
      Candidates(P, order[..|order| - 1], scaled, threshold, CM, KS, KT, cost, p)
        + (if Has(P, a) then Thinned(Get(P, a), scaled, threshold, CM, KS, KT, cost, p) else [])
  }

  /** The child pairs the walk adds for coarse arc q: none when it is skipped. */
  function Thinned(q: Path, scaled: bool, threshold: real, CM: ME.Masses, KS: Kids, KT: Kids, cost: CostFunction, p: real): seq<Path> {
    if Dropped(q, scaled, threshold, CM) then [] else ChildPairs(q, KS, KT, cost, p)
  }

  /** The candidates of order + [c], for an arc c of P, end with c's child pairs unless c is skipped. */
  lemma CandidatesSnoc(P: seq<map<int, Path>>, order: seq<Arc>, c: Arc, scaled: bool, threshold: real, CM: ME.Masses, KS: Kids, KT: Kids,
                       cost: CostFunction, p: real)
    requires Has(P, c)
    ensures Candidates(P, order + [c], scaled, threshold, CM, KS, KT, cost, p)
         == Candidates(P, order, scaled, threshold, CM, KS, KT, cost, p)
            + Thinned(Get(P, c), scaled, threshold, CM, KS, KT, cost, p)
  {
    assert (order + [c])[..|order|] == order;
  }

  /** Coarse arc b is an arc of P the walk does not skip, and a is one of its child arcs. */
  ghost predicate Spawns(P: seq<map<int, Path>>, b: Arc, a: Arc, scaled: bool, threshold: real, CM: ME.Masses, KS: Kids, KT: Kids) {
    Has(P, b) && !Dropped(Get(P, b), scaled, threshold, CM) && a in ChildKeys(Get(P, b), KS, KT)
  }

  /** The candidates are fresh paths between children. */
  lemma {:induction false} CandidatesFresh(P: seq<map<int, Path>>, order: seq<Arc>, scaled: bool, threshold: real, CM: ME.Masses,
                                           KS: Kids, KT: Kids, cost: CostFunction, p: real, ns: int, nt: int)
    requires KidsBelow(KS, ns) && KidsBelow(KT, nt)
    ensures Fresh(Candidates(P, order, scaled, threshold, CM, KS, KT, cost, p), cost, p)
    ensures Between(Candidates(P, order, scaled, threshold, CM, KS, KT, cost, p), ns, nt)
    decreases |order|
  {
    if order != [] {
      var n := |order| - 1;
      var front, c := order[..n], order[n];
      CandidatesFresh(P, front, scaled, threshold, CM, KS, KT, cost, p, ns, nt);
      if Has(P, c) && !Dropped(Get(P, c), scaled, threshold, CM) {
        var q := Get(P, c);
        var fk, tk := KidsOf(KS, q.from), KidsOf(KT, q.to);
        PairsAre(fk, |fk|, tk, cost, p, ns, nt);
      }
    }
  }

  /** The arcs of the candidates are exactly the child arcs of the arcs of order that are not skipped. */
  lemma {:induction false} CandidateKeys(P: seq<map<int, Path>>, order: seq<Arc>, scaled: bool, threshold: real, CM: ME.Masses,
                                         KS: Kids, KT: Kids, cost: CostFunction, p: real)
    ensures forall a :: a in KeysOf(Candidates(P, order, scaled, threshold, CM, KS, KT, cost, p)) <==>
      exists b :: b in order && Spawns(P, b, a, scaled, threshold, CM, KS, KT)
    decreases |order|
  {
    if order != [] {
      var n := |order| - 1;
      var front, c := order[..n], order[n];
      assert order == front + [c];
      CandidateKeys(P, front, scaled, threshold, CM, KS, KT, cost, p);
      var E := Candidates(P, front, scaled, threshold, CM, KS, KT, cost, p);
      var B := if Has(P, c) then Thinned(Get(P, c), scaled, threshold, CM, KS, KT, cost, p) else [];
      KeysAppend(E, B);
      if Has(P, c) && !Dropped(Get(P, c), scaled, threshold, CM) {
        var q := Get(P, c);
        var fk, tk := KidsOf(KS, q.from), KidsOf(KT, q.to);
        PairsAre(fk, |fk|, tk, cost, p, 0, 0);
      }
      forall a
        ensures a in KeysOf(E + B) <==> exists b :: b in order && Spawns(P, b, a, scaled, threshold, CM, KS, KT)
      {
        assert a in KeysOf(B) <==> Spawns(P, c, a, scaled, threshold, CM, KS, KT);
      }
    }
  }

  /**
   * The support of the new plan: the plan grown from empty rows by the
   * candidates of a walk over every arc of P holds exactly the child pairs
   * of the coarse arcs that are not skipped, each path with the transport
   * cost of its own ends.
   */
  lemma Support(P: seq<map<int, Path>>, order: seq<Arc>, scaled: bool, threshold: real, CM: ME.Masses, KS: Kids, KT: Kids,
                cost: CostFunction, p: real, ns: nat, nt: int)
    requires (forall a :: a in order <==> Has(P, a)) && KidsBelow(KS, ns) && KidsBelow(KT, nt)
    ensures forall a :: Has(ME.InsertAll(EmptyRows(ns), 0, Candidates(P, order, scaled, threshold, CM, KS, KT, cost, p)).0, a) <==>
      exists b :: Has(P, b) && !Dropped(Get(P, b), scaled, threshold, CM) && a in ChildKeys(Get(P, b), KS, KT)
    ensures Costed(ME.InsertAll(EmptyRows(ns), 0, Candidates(P, order, scaled, threshold, CM, KS, KT, cost, p)).0, cost, p)
  {
    var E := Candidates(P, order, scaled, threshold, CM, KS, KT, cost, p);
    CandidatesFresh(P, order, scaled, threshold, CM, KS, KT, cost, p, ns, nt);
    CandidateKeys(P, order, scaled, threshold, CM, KS, KT, cost, p);
    GrownArcs(ns, E, cost, p, nt);
    forall a
      ensures a in KeysOf(E) <==> exists b :: Has(P, b) && !Dropped(Get(P, b), scaled, threshold, CM) && a in ChildKeys(Get(P, b), KS, KT)
    {
      if exists b :: Has(P, b) && !Dropped(Get(P, b), scaled, threshold, CM) && a in ChildKeys(Get(P, b), KS, KT) {
        var b :| Has(P, b) && !Dropped(Get(P, b), scaled, threshold, CM) && a in ChildKeys(Get(P, b), KS, KT);
        assert b in order && Spawns(P, b, a, scaled, threshold, CM, KS, KT);
      }
    }
  }

  /** With the default threshold 0, an arc of non-negative weight is never skipped. */
  lemma NothingDroppedAtZero(q: Path, scaled: bool, CM: ME.Masses)
    requires q.w >= 0.0
    ensures !Dropped(q, scaled, 0.0, CM)
  {
  }

  /** The masses of both ends of every arc of P are in CM. */
  ghost predicate Ended(P: seq<map<int, Path>>, CM: ME.Masses) {
    forall a :: Has(P, a) ==> Get(P, a).from in CM && Get(P, a).to in CM
  }

  /** One coarse arc of the walk, with the child pairs it adds written as the next candidates. */
  method WalkStep(prev: TransportPlan, sol: TransportPlan, scaled: bool, threshold: real, p: real, cost: CostFunction,
                  ghost KS: Kids, ghost KT: Kids, ghost CM: ME.Masses, ghost P: seq<map<int, Path>>, ghost D: set<Arc>,
                  ghost order: seq<Arc>, ghost R0: seq<map<int, Path>>, ghost c0: int)
    returns (ghost D': set<Arc>, ghost order': seq<Arc>)
    requires ME.Walking(prev, P, D, order) && !prev.IsAtEnd() && prev != sol && KidsOn(KS, KT, sol)
    requires ME.Listed(P, KS, KT) && ME.MassesOn(CM) && Ended(P, CM)
    requires Added(sol, R0, c0, Candidates(P, order, scaled, threshold, CM, KS, KT, cost, p))
    modifies prev`outer, prev`inner, sol`paths, sol`pathCounter, sol`toPathCounts, sol`added
    ensures ME.Walking(prev, P, D', order') && KidsOn(KS, KT, sol)
    ensures Added(sol, R0, c0, Candidates(P, order', scaled, threshold, CM, KS, KT, cost, p))
    ensures prev.Remaining() < old(prev.Remaining())
  {
    ghost var c;
    D', order', c := Visit(prev, sol, scaled, threshold, p, cost, KS, KT, CM, P, D, order, R0, c0,
                           Candidates(P, order, scaled, threshold, CM, KS, KT, cost, p));
    CandidatesSnoc(P, order, c, scaled, threshold, CM, KS, KT, cost, p);
  }

  /** One coarse arc c of the walk: skipped, or all of its child pairs added; then the cursor moves on. */
  method Visit(prev: TransportPlan, sol: TransportPlan, scaled: bool, threshold: real, p: real, cost: CostFunction,
               ghost KS: Kids, ghost KT: Kids, ghost CM: ME.Masses, ghost P: seq<map<int, Path>>, ghost D: set<Arc>,
               ghost order: seq<Arc>, ghost R0: seq<map<int, Path>>, ghost c0: int, ghost E: seq<Path>)
    returns (ghost D': set<Arc>, ghost order': seq<Arc>, ghost c: Arc)
    requires ME.Walking(prev, P, D, order) && !prev.IsAtEnd() && prev != sol && KidsOn(KS, KT, sol)
    requires ME.Listed(P, KS, KT) && ME.MassesOn(CM) && Ended(P, CM) && Added(sol, R0, c0, E)
    modifies prev`outer, prev`inner, sol`paths, sol`pathCounter, sol`toPathCounts, sol`added
    ensures ME.Walking(prev, P, D', order') && KidsOn(KS, KT, sol) && Has(P, c) && order' == order + [c]
    ensures Added(sol, R0, c0, E + Thinned(Get(P, c), scaled, threshold, CM, KS, KT, cost, p))
    ensures prev.Remaining() < old(prev.Remaining())
  {
    var path := prev.Current();
    c := (prev.outer, prev.inner);
    assert Has(P, c) && Get(P, c) == path;
    ThinArc(path, scaled, sol, threshold, p, cost, KS, KT, CM, R0, c0, E);
    D', order' := ME.Advance(prev, P, D, order);
  }

  /** The body of the walk for one coarse path: the skip test, then its child pairs unless it is skipped. */
  method ThinArc(path: Path, scaled: bool, sol: TransportPlan, threshold: real, p: real, cost: CostFunction,
                 ghost KS: Kids, ghost KT: Kids, ghost CM: ME.Masses, ghost R0: seq<map<int, Path>>, ghost c0: int, ghost E: seq<Path>)
    requires Added(sol, R0, c0, E) && KidsOn(KS, KT, sol) && ME.MassesOn(CM)
    requires path.from in KS && path.to in KT && path.from in CM && path.to in CM
    modifies sol`paths, sol`pathCounter, sol`toPathCounts, sol`added
    ensures Added(sol, R0, c0, E + Thinned(path, scaled, threshold, CM, KS, KT, cost, p))
    ensures KidsOn(KS, KT, sol)
  {
    var mass := MinMass(path.from.mass, path.to.mass);
    assert mass == MinMass(ME.MassOf(CM, path.from), ME.MassOf(CM, path.to));
    if scaled && path.w < mass * threshold {
      assert Dropped(path, scaled, threshold, CM);
      assert E + [] == E;
    } else {
      AddChildPairs(sol, path, p, cost, KS, KT, R0, c0, E);
    }
  }

  /**
   * The walk over prev: every coarse arc in increasing order, each skipped
   * or replaced by all of its child pairs in the new plan sol.
   */
  method Walk(prev: TransportPlan, sol: TransportPlan, scaled: bool, threshold: real, p: real, cost: CostFunction,
              ghost KS: Kids, ghost KT: Kids, ghost CM: ME.Masses)
    returns (ghost order: seq<Arc>)
    requires prev.Valid() && prev != sol && Fits(sol) && KidsOn(KS, KT, sol)
    requires ME.Listed(prev.paths, KS, KT) && ME.MassesOn(CM) && Ended(prev.paths, CM)
    modifies prev`outer, prev`inner, sol`paths, sol`pathCounter, sol`toPathCounts, sol`added
    ensures Increasing(order) && (forall a :: a in order <==> Has(prev.paths, a))
    ensures Added(sol, old(sol.paths), old(sol.pathCounter), Candidates(prev.paths, order, scaled, threshold, CM, KS, KT, cost, p))
  {
    ghost var P, R0, c0 := prev.paths, sol.paths, sol.pathCounter;
    ghost var D: set<Arc> := {};
    order := [];
    prev.Begin();
    while !prev.IsAtEnd()
      invariant ME.Walking(prev, P, D, order) && KidsOn(KS, KT, sol)
      invariant Added(sol, R0, c0, Candidates(P, order, scaled, threshold, CM, KS, KT, cost, p))
      decreases prev.Remaining()
    {
      D, order := WalkStep(prev, sol, scaled, threshold, p, cost, KS, KT, CM, P, D, order, R0, c0);
    }
    InArcSetAll(P, D);
    forall a
      ensures a in order <==> Has(P, a)
    {
      InArcSet(P, a);
    }
  }

  /** SinkhornPropagationStrategy with its parameters: the kernel's lambda, the tolerance, the skip threshold and the iteration count. */
  class SinkhornPropagationStrategy {
    const lambda: real
    const tolerance: real
    const threshold: real
    const iterations: int

    /** The defaults are lambda 50, tolerance 1e-6, threshold 0 and 100 iterations. */
    constructor (l: real := 50.0, t: real := 0.000001, thres: real := 0.0, iter: int := 100)
      ensures lambda == l && tolerance == t && threshold == thres && iterations == iter
    {
      lambda, tolerance, threshold, iterations := l, t, thres, iter;
    }

    /**
     * propagate: a new plan over the fine levels source and target whose
     * arcs are the child pairs of the coarse primary plan's arcs that are
     * not skipped (rows), the Sinkhorn problem over them, warm-started when
     * the coarse plan has a left scaling, and the solver's plan, left
     * scaling and distance stored in the new plan. The clock readings t1,
     * t2 and t3 (before the walk, before and after the solve) are
     * parameters.
     */
    method Propagate(source: Level, target: Level, pSol: TransportPlanSolutions, p: real, cost: CostFunction, exp: Exp, sinkhorn: Sinkhorn,
                     t1: int, t2: int, t3: int, ghost KS: Kids, ghost KT: Kids, ghost CM: ME.Masses, ghost Up: map<int, int>)
      returns (sols: TransportPlanSolutions, ghost order: seq<Arc>, ghost rows: seq<map<int, Path>>, ghost problem: Problem)
      requires IdsArePositions(source.nodes) && IdsArePositions(target.nodes) && pSol.sol.Valid()
      requires Mirrors(KS) && Mirrors(KT) && KidsBelow(KS, |source.nodes|) && KidsBelow(KT, |target.nodes|)
      requires ME.Listed(pSol.sol.paths, KS, KT) && ME.MassesOn(CM) && Ended(pSol.sol.paths, CM)
      requires Scalable(pSol.sol, KS, Up)
      modifies pSol.sol`outer, pSol.sol`inner
      ensures fresh(sols) && fresh(sols.sol) && sols.alternatives == [] && sols.sol.source == source && sols.sol.target == target
      ensures Increasing(order) && (forall a :: a in order <==> Has(pSol.sol.paths, a))
      ensures rows == ME.InsertAll(EmptyRows(|source.nodes|), 0,
                                  Candidates(pSol.sol.paths, order, |pSol.sol.leftScaling| != 0, threshold, CM, KS, KT, cost, p)).0
      ensures Posed(problem, source, target, rows, lambda, tolerance, iterations, exp)
      ensures WarmStarted(problem, pSol.sol, |source.nodes|, KS)
      ensures Kept(sols.sol, rows, sinkhorn(problem))
      ensures sols.sol.timeSolve == t3 - t2 && sols.sol.timePropagate == t2 - t1
    {
      var prevSol := pSol.sol;
      sols, order, rows := NewSupport(source, target, prevSol, threshold, p, cost, KS, KT, CM);
      var sol := sols.sol;
      problem := SolveSupport(sol, prevSol, lambda, tolerance, iterations, exp, sinkhorn, KS, Up);
      sol.timeSolve := sol.timeSolve + (t3 - t2);
      sol.timePropagate := sol.timePropagate + (t2 - t1);
    }
  }

  /** The warm start may read prev: its source ids are positions, its scaling covers them, and KS partitions their children with Up. */
  ghost predicate Scalable(prev: TransportPlan, KS: Kids, Up: map<int, int>)
    reads prev`leftScaling, prev.source`nodes, KS.Keys`kids
  {
    var N := prev.source.nodes;
    && IdsArePositions(N) && (|prev.leftScaling| == 0 || |N| <= |prev.leftScaling|)
    && Mirrors(KS) && (forall j :: 0 <= j < |N| ==> N[j] in KS) && Partition(N, KS, Up)
  }

  /** The problem handed to the solver: the level masses, K and U over the arcs of rows, the tolerance and the iteration count. */
  ghost predicate Posed(problem: Problem, source: Level, target: Level, rows: seq<map<int, Path>>, lambda: real, tolerance: real,
                        iterations: int, exp: Exp)
    reads source`nodes, target`nodes, source.nodes, target.nodes
  {
    && problem.mu == Masses(source.nodes) && problem.nu == Masses(target.nodes)
    && KernelOf(problem.kernel, rows, lambda, exp) && CostsOf(problem.costs, rows, lambda, exp)
    && problem.tolerance == tolerance && problem.iterations == iterations
  }

  /**
   * The solver is initialised exactly when prev has a left scaling and
   * source nodes, with prev's left scaling split evenly among the children
   * of each coarse source node, over n fine source nodes.
   */
  ghost predicate WarmStarted(problem: Problem, prev: TransportPlan, n: int, KS: Kids)
    reads prev`leftScaling, prev.source`nodes
  {
    && (problem.init.None? <==> |prev.leftScaling| == 0 || |prev.source.nodes| == 0)
    && (problem.init.Some? ==> |problem.init.value| == n && Split(problem.init.value, prev.source.nodes, prev.leftScaling, KS))
  }

  /** The plan holds the arcs of rows, each weighted with the solver's coefficient at its key, and the solver's left scaling and distance. */
  ghost predicate Kept(sol: TransportPlan, rows: seq<map<int, Path>>, result: Transport)
    reads sol`paths, sol`leftScaling, sol`cost
  {
    Coefficients(sol.paths, rows, ArcSet(rows), result.plan) && sol.leftScaling == result.leftScaling && sol.cost == result.distance
  }

  /** The support half of propagate: the new plan, its cost reset to 0, and the walk over prev. */
  method NewSupport(source: Level, target: Level, prev: TransportPlan, threshold: real, p: real, cost: CostFunction,
                    ghost KS: Kids, ghost KT: Kids, ghost CM: ME.Masses)
    returns (sols: TransportPlanSolutions, ghost order: seq<Arc>, ghost rows: seq<map<int, Path>>)
    requires IdsArePositions(source.nodes) && IdsArePositions(target.nodes) && prev.Valid()
    requires Mirrors(KS) && Mirrors(KT) && KidsBelow(KS, |source.nodes|) && KidsBelow(KT, |target.nodes|)
    requires ME.Listed(prev.paths, KS, KT) && ME.MassesOn(CM) && Ended(prev.paths, CM)
    modifies prev`outer, prev`inner
    ensures fresh(sols) && fresh(sols.sol) && sols.alternatives == [] && sols.sol.source == source && sols.sol.target == target
    ensures Increasing(order) && (forall a :: a in order <==> Has(prev.paths, a))
    ensures rows == ME.InsertAll(EmptyRows(|source.nodes|), 0, Candidates(prev.paths, order, |prev.leftScaling| != 0, threshold, CM, KS, KT, cost, p)).0
    ensures Fits(sols.sol) && sols.sol.paths == rows && sols.sol.timeSolve == 0 && sols.sol.timePropagate == 0
  {
    sols := new TransportPlanSolutions(source, target);
    var sol := sols.sol;
    sol.cost := 0.0;
    assert sol.paths == EmptyRows(|source.nodes|);
    order := Walk(prev, sol, |prev.leftScaling| != 0, threshold, p, cost, KS, KT, CM);
    rows := sol.paths;
  }

  /** The solving half of propagate: mu, nu, K and U, the warm start, the solve, and the stored result. */
  method SolveSupport(sol: TransportPlan, prev: TransportPlan, lambda: real, tolerance: real, iterations: int, exp: Exp, sinkhorn: Sinkhorn,
                      ghost KS: Kids, ghost Up: map<int, int>)
    returns (ghost problem: Problem)
    requires Fits(sol) && Scalable(prev, KS, Up) && KidsBelow(KS, |sol.source.nodes|) && sol != prev
    modifies sol`paths, sol`outer, sol`inner, sol`leftScaling, sol`cost
    ensures Posed(problem, sol.source, sol.target, old(sol.paths), lambda, tolerance, iterations, exp)
    ensures WarmStarted(problem, prev, |sol.source.nodes|, KS)
    ensures Kept(sol, old(sol.paths), sinkhorn(problem))
  {
    var mu, nu, K, U := Prepare(sol, lambda, exp);
    var init: M.Option<seq<real>> := M.None;
    if |prev.leftScaling| != 0 {
      init := WarmStart(prev.source.nodes, prev.leftScaling, |sol.source.nodes|, KS, Up);
    }
    var prob := Problem(mu, nu, K, U, tolerance, iterations, init);
    problem := prob;
    Finish(sol, prob, sinkhorn);
  }
}
