/**
 * One round of IteratedCapacityPropagationStrategy described on values: the
 * new column bounds of the capping and of the lifting walk, the fixed part
 * of the LP, and what a round did to the LP's column bounds and what its
 * solves gave.
 */
module CapacityRounds {
  import opened Nodes
  import opened Plans
  import opened LPSolver
  import opened Lemon
  import opened TransportSolver
  import opened StrategyLP
  import opened ArcWalk

  /** For a draw in [0, 1], the cap of an arc with flow w > 0 lies between 90% and 95% of w, below the flow itself. */
  lemma CapBetween(i: int, uniform: (int, Arc) -> real, q: Path, v: real)
    requires q.w > 0.0 && 0.0 <= uniform(i, q.Key()) <= 1.0
    ensures 0.9 * q.w <= NewBound(CapUpper(i, uniform), q, v) <= 0.95 * q.w < q.w
  {
    var u := uniform(i, q.Key());
    assert NewBound(CapUpper(i, uniform), q, v) == q.w * (0.9 + 0.05 * u);
    assert q.w * (0.05 * u) <= q.w * 0.05;
  }

  /** An arc without flow keeps both of its bounds in the capping walk. */
  lemma CapSkips(i: int, uniform: (int, Arc) -> real, q: Path, lb: real, ub: real)
    requires q.w <= 0.0
    ensures NewBound(CapLower, q, lb) == lb && NewBound(CapUpper(i, uniform), q, ub) == ub
  {
  }

  /**
   * What a round did to the LP: the capped bounds LB1, UB1 it solved first,
   * whether that solve was optimal, the bounds LB, UB of the solution it
   * stored, and that solution's objective and primal values.
   */
  datatype RoundLP = RoundLP(LB1: seq<real>, UB1: seq<real>, feasible: bool, LB: seq<real>, UB: seq<real>,
                             objValue: real, primal: seq<real>)

  /** The fixed part of the LP across the rounds: everything but the column bounds. */
  datatype FixedLP = FixedLP(simplex: NetworkSimplex, sInd: seq<int>, tInd: seq<int>, coeff: seq<real>, mass: seq<real>,
                             nPrimal: nat, nDual: nat)

  /** The outcome of the backend on the fixed part of the LP with column bounds LB, UB. */
  function OutcomeWith(F: FixedLP, LB: seq<real>, UB: seq<real>): Outcome
    requires |F.tInd| == |F.sInd| && |F.coeff| == |F.sInd| && |LB| == |F.sInd| && |UB| == |F.sInd| && MaxCapacity(F.mass) > 0.0
  {
    SolveOutcome(F.simplex, F.sInd, F.tInd, F.coeff, F.mass, LB, UB, F.nPrimal, F.nDual)
  }

  /**
   * Round i on arcs P with the bounds LB0, UB0 in force: the capped bounds
   * rewrite every arc column by CapLower and CapUpper; when their solve is
   * optimal they are the final bounds, otherwise every arc column of the
   * final bounds is [0, MaxDouble]; the objective and the primal values
   * are those of the solve of the final bounds.
   */
  ghost predicate CapRound(r: RoundLP, F: FixedLP, LB0: seq<real>, UB0: seq<real>, P: seq<map<int, Path>>, added: seq<Arc>,
                           offset: int, i: int, uniform: (int, Arc) -> real)
  {
    && |F.tInd| == |F.sInd| && |F.coeff| == |F.sInd| && MaxCapacity(F.mass) > 0.0
    && |r.LB1| == |F.sInd| && |r.UB1| == |F.sInd| && |r.LB| == |F.sInd| && |r.UB| == |F.sInd|
    && Rewritten(r.LB1, LB0, P, added, ArcSet(P), offset, CapLower)
    && Rewritten(r.UB1, UB0, P, added, ArcSet(P), offset, CapUpper(i, uniform))
    && r.feasible == OutcomeWith(F, r.LB1, r.UB1).success
    && (r.feasible ==> r.LB == r.LB1 && r.UB == r.UB1)
    && (!r.feasible ==> Rewritten(r.LB, r.LB1, P, added, ArcSet(P), offset, LiftLower) && Rewritten(r.UB, r.UB1, P, added, ArcSet(P), offset, LiftUpper))
    && r.objValue == OutcomeWith(F, r.LB, r.UB).objValue
    && r.primal == OutcomeWith(F, r.LB, r.UB).primal
  }

  /** The rows round j starts from: those of the primary plan for j = 0, otherwise those round j - 1 stored. */
  function RowsBefore(P0: seq<map<int, Path>>, rows: seq<seq<map<int, Path>>>, j: int): seq<map<int, Path>>
    requires 0 <= j <= |rows|
  {
    if j == 0 then P0 else rows[j - 1]
  }

  /** The lower (lower = true) or upper column bounds round j starts from: B0 for j = 0, otherwise those round j - 1 left. */
  function BoundsBefore(B0: seq<real>, rounds: seq<RoundLP>, j: int, lower: bool): seq<real>
    requires 0 <= j <= |rounds|
  {
    if j == 0 then B0 else if lower then rounds[j - 1].LB else rounds[j - 1].UB
  }

  /** Round j is r: it starts from the rows P and the bounds LB, UB and stores its primal values as the weights of the rows R. */
  ghost predicate Link(P: seq<map<int, Path>>, added: seq<Arc>, LB: seq<real>, UB: seq<real>, F: FixedLP, R: seq<map<int, Path>>,
                       r: RoundLP, offset: int, j: int, uniform: (int, Arc) -> real)
  {
    CapRound(r, F, LB, UB, P, added, offset, j, uniform) && StoredFrom(R, P, r.primal, offset)
  }

  /** After the lifting walk every arc column has the bounds createLP gives it, [0, MaxDouble]. */
  lemma LiftedIsFresh(LB: seq<real>, UB: seq<real>, LB1: seq<real>, UB1: seq<real>, P: seq<map<int, Path>>, added: seq<Arc>,
                      offset: int, a: Arc)
    requires Rewritten(LB, LB1, P, added, ArcSet(P), offset, LiftLower) && Rewritten(UB, UB1, P, added, ArcSet(P), offset, LiftUpper)
    requires Has(P, a)
    ensures 0 <= offset + Get(P, a).index < |LB| && offset + Get(P, a).index < |UB| && LB[offset + Get(P, a).index] == 0.0 && UB[offset + Get(P, a).index] == MaxDouble
  {
    InArcSet(P, a);
  }

  /** The part of the backend's LP the rounds leave alone. */
  ghost function Fixed(s: LemonSolver): FixedLP
    reads s`sInd, s`tInd, s`coeff, s`mass
  {
    FixedLP(s.simplex, s.sInd, s.tInd, s.coeff, s.mass, |s.sInd|, |s.mass|)
  }
}
