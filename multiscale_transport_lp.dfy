/**
 * MultiscaleTransportLP: the LP driver's solveLP. For one pair of levels it
 * runs a propagation strategy (the second one when the two levels together
 * hold more than maxNeighborhoodSize nodes), then, when there is a previous
 * solution, every neighbourhood strategy in insertion order and, at the last
 * scale, the last-scale strategy; each of these replaces the primary plan.
 * The LP layer's last-scale flag is raised for the duration of the call.
 *
 * The strategies are reached through abstract interfaces. Here a strategy
 * is a value naming the concrete strategy and its constructor parameters,
 * and running one is a function the caller supplies: propagate for the
 * propagation interface, solveNeighborhoodLP for the neighbourhood one and
 * getCombinedPaths for the solution holder. Each is given the LP layer's
 * last-scale flag as it stands when the strategy runs.
 */
module MultiscaleLP {
  import opened Levels
  import opened TransportSolver
  import Multiscale

  type Option<T> = Multiscale.Option<T>

  /** The concrete propagation strategies with their constructor arguments. */
  datatype PropagationStrategy =
    | NeighborhoodPropagation(expansionFactor: real)
    | CapacityPropagation(k: int, expansionFactor: real)
    | IteratedCapacityPropagation(nIterations: int, expansionFactor: real)
    | RandomizedNeighborhoodPropagation(nRandom: int, expansionFactor: real)
    | MaxEntropyPropagation
    | SinkhornPropagation(lambda: real, tolerance: real, threshold: real, iterations: int)

  /** The concrete neighbourhood strategies with their constructor arguments. */
  datatype NeighborhoodStrategy =
    | ExpandNeighborhood(expansionFactor: real, expansionTolerance: real, nRefinementIterations: int, nExpansionAdd: int)
    | RefineNeighborhood(expansionFactor: real, expansionTolerance: real, nRefinementIterations: int, nExpansionAdd: int)
    | PotentialNeighborhood(reducedCostThresholdFactor: real, expansionTolerance: real, sortReducedCost: bool,
                            expandPotential: bool, nRefinementIterations: int, nExpansionAdd: int)

  /** A solution holder: the primary plan and the alternative plans. */
  datatype Solutions<P> = Solutions(primary: P, alternatives: seq<P>)

  /** propagate(solver, source, target, pSol, p, lastScale), given the LP layer's flag. */
  type Propagate<!P> = (PropagationStrategy, Level, Level, Option<Solutions<P>>, real, bool, bool) -> Solutions<P>

  /** solveNeighborhoodLP(source, target, sol, nhood, solver, p), given the LP layer's flag. */
  type Refine<!P> = (NeighborhoodStrategy, Level, Level, P, P, real, bool) -> P

  /** getCombinedPaths of a solution holder. */
  type Combine<!P> = Solutions<P> -> P

  /** One neighbourhood strategy run: its plan, its expansion plan, the LP layer's flag and its result. */
  datatype Run<P> = Run(strategy: NeighborhoodStrategy, input: P, nhood: P, flag: bool, result: P)

  /**
   * Run i of a chain: strategy ns[i] applied to the previous result (the
   * primary plan of start for the first), with the combined plan of the
   * holder as it stands, under flag.
   */
  ghost predicate Linked<P>(runs: seq<Run<P>>, i: int, ns: seq<NeighborhoodStrategy>, start: Solutions<P>,
                            source: Level, target: Level, p: real, flag: bool, refine: Refine<P>, combine: Combine<P>)
    requires 0 <= i < |runs| && |runs| == |ns|
  {
    && runs[i].strategy == ns[i]
    && runs[i].input == (if i == 0 then start.primary else runs[i - 1].result)
    && runs[i].nhood == combine(Solutions(runs[i].input, start.alternatives))
    && runs[i].flag == flag
    && runs[i].result == refine(ns[i], source, target, runs[i].input, runs[i].nhood, p, flag)
  }

  /** The runs are the strategies ns, one after the other, each on the result of the one before. */
  ghost predicate Chain<P>(runs: seq<Run<P>>, ns: seq<NeighborhoodStrategy>, start: Solutions<P>,
                           source: Level, target: Level, p: real, flag: bool, refine: Refine<P>, combine: Combine<P>)
  {
    && |runs| == |ns|
    && forall i :: 0 <= i < |runs| ==> Linked(runs, i, ns, start, source, target, p, flag, refine, combine)
  }

  /** The holder a chain leaves: its last result as primary, the alternatives untouched. */
  function After<P>(runs: seq<Run<P>>, start: Solutions<P>): (s: Solutions<P>)
    ensures s.alternatives == start.alternatives
    ensures runs == [] ==> s == start
  {
    if runs == [] then start else start.(primary := runs[|runs| - 1].result)
  }

  /** A chain grows by one run of the next strategy on the holder it left. */
  lemma ChainStep<P>(runs: seq<Run<P>>, ns: seq<NeighborhoodStrategy>, n: NeighborhoodStrategy, start: Solutions<P>,
                     source: Level, target: Level, p: real, flag: bool, refine: Refine<P>, combine: Combine<P>)
    requires Chain(runs, ns, start, source, target, p, flag, refine, combine)
    ensures var sols := After(runs, start);
      var nh := combine(sols);
      var r := Run(n, sols.primary, nh, flag, refine(n, source, target, sols.primary, nh, p, flag));
      && Chain(runs + [r], ns + [n], start, source, target, p, flag, refine, combine)
      && After(runs + [r], start) == start.(primary := r.result)
  {
    var sols := After(runs, start);
    var nh := combine(sols);
    var r := Run(n, sols.primary, nh, flag, refine(n, source, target, sols.primary, nh, p, flag));
    var runs', ns' := runs + [r], ns + [n];
    forall i | 0 <= i < |runs'|
      ensures Linked(runs', i, ns', start, source, target, p, flag, refine, combine)
    {
      if i < |runs| {
        assert Linked(runs, i, ns, start, source, target, p, flag, refine, combine);
        assert runs'[i] == runs[i] && ns'[i] == ns[i];
        if i > 0 {
          assert runs'[i - 1] == runs[i - 1];
        }
      } else {
        assert sols == Solutions(r.input, start.alternatives);
        if i > 0 {
          assert runs'[i - 1] == runs[i - 1];
        }
      }
    }
  }

  /** A chain is determined by its strategies: two chains over the same list agree run by run. */
  lemma {:induction false} ChainUnique<P>(r1: seq<Run<P>>, r2: seq<Run<P>>, ns: seq<NeighborhoodStrategy>, start: Solutions<P>,
                                          source: Level, target: Level, p: real, flag: bool, refine: Refine<P>, combine: Combine<P>)
    requires Chain(r1, ns, start, source, target, p, flag, refine, combine)
    requires Chain(r2, ns, start, source, target, p, flag, refine, combine)
    ensures r1 == r2
    decreases |ns|
  {
    if ns != [] {
      var n := |ns| - 1;
      ChainPrefix(r1, ns, n, start, source, target, p, flag, refine, combine);
      ChainPrefix(r2, ns, n, start, source, target, p, flag, refine, combine);
      ChainUnique(r1[..n], r2[..n], ns[..n], start, source, target, p, flag, refine, combine);
      assert Linked(r1, n, ns, start, source, target, p, flag, refine, combine);
      assert Linked(r2, n, ns, start, source, target, p, flag, refine, combine);
      assert r1[n].input == r2[n].input by {
        if n > 0 {
          assert r1[n - 1] == r1[..n][n - 1] && r2[n - 1] == r2[..n][n - 1];
        }
      }
      assert r1 == r1[..n] + [r1[n]] && r2 == r2[..n] + [r2[n]];
    }
  }

  /** Every prefix of a chain is the chain of the strategies' prefix. */
  lemma ChainPrefix<P>(runs: seq<Run<P>>, ns: seq<NeighborhoodStrategy>, n: nat, start: Solutions<P>,
                       source: Level, target: Level, p: real, flag: bool, refine: Refine<P>, combine: Combine<P>)
    requires Chain(runs, ns, start, source, target, p, flag, refine, combine) && n <= |ns|
    ensures Chain(runs[..n], ns[..n], start, source, target, p, flag, refine, combine)
  {
    var rs := runs[..n];
    forall i | 0 <= i < |rs|
      ensures Linked(rs, i, ns[..n], start, source, target, p, flag, refine, combine)
    {
      assert Linked(runs, i, ns, start, source, target, p, flag, refine, combine);
      assert rs[i] == runs[i] && ns[..n][i] == ns[i];
      if i > 0 {
        assert rs[i - 1] == runs[i - 1];
      }
    }
  }

  /** Default maxNeighborhoodSize. */
  const DefaultMaxNeighborhoodSize: int := 10000000

  class MultiscaleTransportLP {
    var neighborhood: seq<NeighborhoodStrategy>
    var lastScaleNeighborhood: Option<NeighborhoodStrategy>
    var maxNeighborhoodSize: int
    var propagation1: Option<PropagationStrategy>
    var propagation2: Option<PropagationStrategy>
    const solver: TransportLPSolver

    /** The defaults: propagation1 is a neighbourhood propagation with factor 0, nothing else is set. */
    constructor (lps: TransportLPSolver)
      ensures solver == lps && neighborhood == [] && lastScaleNeighborhood == Multiscale.None
      ensures maxNeighborhoodSize == DefaultMaxNeighborhoodSize
      ensures propagation1 == Multiscale.Some(NeighborhoodPropagation(0.0)) && propagation2 == Multiscale.None
    {
      solver := lps;
      neighborhood := [];
      propagation1 := Multiscale.None;
      propagation2 := Multiscale.None;
      maxNeighborhoodSize := DefaultMaxNeighborhoodSize;
      lastScaleNeighborhood := Multiscale.None;
      propagation1 := Multiscale.Some(NeighborhoodPropagation(0.0));
    }

    method SetPropagationStrategy1(ps: Option<PropagationStrategy>)
      modifies this`propagation1
      ensures propagation1 == ps
    {
      propagation1 := ps;
    }

    method SetPropagationStrategy2(ps: Option<PropagationStrategy>)
      modifies this`propagation2
      ensures propagation2 == ps
    {
      propagation2 := ps;
    }

    method SetMaxNeighborhoodSize(n: int)
      modifies this`maxNeighborhoodSize
      ensures maxNeighborhoodSize == n
    {
      maxNeighborhoodSize := n;
    }

    /** addNeighborhodStrategy appends, so the strategies run in insertion order. */
    method AddNeighborhoodStrategy(ns: NeighborhoodStrategy)
      modifies this`neighborhood
      ensures neighborhood == old(neighborhood) + [ns]
    {
      neighborhood := neighborhood + [ns];
    }

    method SetLastScaleNeighborhoodStrategy(ns: Option<NeighborhoodStrategy>)
      modifies this`lastScaleNeighborhood
      ensures lastScaleNeighborhood == ns
    {
      lastScaleNeighborhood := ns;
    }

    /** The strategies solveLP runs after propagation for this previous solution and flag. */
    function Refinements<P>(prevSol: Option<Solutions<P>>, lastScale: bool): (ns: seq<NeighborhoodStrategy>)
      reads this
      ensures prevSol.None? ==> ns == []
      ensures prevSol.Some? ==> |ns| == |neighborhood| + (if lastScale && lastScaleNeighborhood.Some? then 1 else 0)
      ensures prevSol.Some? ==> ns[..|neighborhood|] == neighborhood
      ensures prevSol.Some? && lastScale && lastScaleNeighborhood.Some? ==> ns[|neighborhood|] == lastScaleNeighborhood.value
    {
      if prevSol.None? then []
      else if lastScale && lastScaleNeighborhood.Some? then neighborhood + [lastScaleNeighborhood.value]
      else neighborhood
    }

    /**
     * solveLP: above maxNeighborhoodSize nodes only propagation2 runs;
     * otherwise propagation1 runs and, with a previous solution, the chain of
     * neighbourhood strategies (then the last-scale one when lastScale holds
     * and it is set) replaces the primary plan run after run, keeping the
     * alternatives. Every strategy sees the flag lastScale, which is false
     * again on return.
     */
    method SolveLP<P>(source: Level, target: Level, prevSol: Option<Solutions<P>>, p: real, lastScale: bool,
                      propagate: Propagate<P>, refine: Refine<P>, combine: Combine<P>)
      returns (sols: Solutions<P>, ghost runs: seq<Run<P>>)
      requires |source.nodes| + |target.nodes| > maxNeighborhoodSize ==> propagation2.Some?
      requires |source.nodes| + |target.nodes| <= maxNeighborhoodSize ==> propagation1.Some?
      modifies solver`lastScale
      ensures !solver.lastScale
      ensures |source.nodes| + |target.nodes| > maxNeighborhoodSize ==>
        sols == propagate(propagation2.value, source, target, prevSol, p, lastScale, lastScale) && runs == []
      ensures |source.nodes| + |target.nodes| <= maxNeighborhoodSize ==>
        var start := propagate(propagation1.value, source, target, prevSol, p, lastScale, lastScale);
        && Chain(runs, Refinements(prevSol, lastScale), start, source, target, p, lastScale, refine, combine)
        && sols == After(runs, start)
    {
      solver.SetLastScale(lastScale);
      var nPoints := |source.nodes| + |target.nodes|;
      runs := [];
      if nPoints > maxNeighborhoodSize {
        sols := propagate(propagation2.value, source, target, prevSol, p, lastScale, solver.lastScale);
      } else {
        sols := propagate(propagation1.value, source, target, prevSol, p, lastScale, solver.lastScale);
        ghost var start := sols;
        if prevSol.Some? {
          var i := 0;
          while i < |neighborhood|
            invariant 0 <= i <= |neighborhood| && solver.lastScale == lastScale
            invariant Chain(runs, neighborhood[..i], start, source, target, p, lastScale, refine, combine)
            invariant sols == After(runs, start)
          {
            var nhood := combine(sols);
            var res := refine(neighborhood[i], source, target, sols.primary, nhood, p, solver.lastScale);
            ChainStep(runs, neighborhood[..i], neighborhood[i], start, source, target, p, lastScale, refine, combine);
            runs := runs + [Run(neighborhood[i], sols.primary, nhood, lastScale, res)];
            sols := sols.(primary := res);
            assert neighborhood[..i + 1] == neighborhood[..i] + [neighborhood[i]];
            i := i + 1;
          }
          assert neighborhood[..i] == neighborhood;
          if lastScale && lastScaleNeighborhood.Some? {
            var nhood := combine(sols);
            var res := refine(lastScaleNeighborhood.value, source, target, sols.primary, nhood, p, solver.lastScale);
            ChainStep(runs, neighborhood, lastScaleNeighborhood.value, start, source, target, p, lastScale, refine, combine);
            runs := runs + [Run(lastScaleNeighborhood.value, sols.primary, nhood, lastScale, res)];
            sols := sols.(primary := res);
          }
        }
      }
      solver.SetLastScale(false);
    }
  }
}
