/**
 * LemonSolver: the array-backed LPSolver backend. Columns are arcs (source
 * row, target row, cost, bounds), rows are nodes with a supply; solveLP
 * scales masses and costs to integers, balances the integer supplies and
 * hands the network to a network-simplex solver.
 *
 * The network simplex itself is a foreign library: here it is the function
 * `simplex` fixed when the backend is built, which maps the integer network
 * to an outcome (optimality, a flow per arc, a potential per node).
 */
module Lemon {
  import opened LPSolver
  import opened Nodes

  /** The integer range solveLP scales costs and capacities into. */
  const MaxVal: int := 10000000000

  /** The integer network given to the network simplex. */
  datatype NetworkProblem = NetworkProblem(
    nodes: nat,
    arcs: seq<(int, int)>,
    supply: seq<int>,
    lower: seq<int>,
    upper: seq<int>,
    cost: seq<int>)

  /** What the network simplex reports: whether it is optimal, the flow of each arc and the potential of each node. */
  datatype SimplexResult = SimplexResult(optimal: bool, flow: int -> int, potential: int -> int)

  type NetworkSimplex = NetworkProblem -> SimplexResult

  function RealMax(a: real, b: real): real {
    if a >= b then a else b
  }

  /** A cast from double to long long: truncation toward zero (exact here). */
  function Trunc(x: real): int {
    if x >= 0.0 then x.Floor else -((-x).Floor)
  }

  lemma TruncBounds(x: real)
    ensures x >= 0.0 ==> 0.0 <= Trunc(x) as real <= x && x < Trunc(x) as real + 1.0
    ensures x < 0.0 ==> x <= Trunc(x) as real <= 0.0 && Trunc(x) as real - 1.0 < x
  {
  }

  /** The running maximum of the objective coefficients, starting at 0. */
  function MaxCoeff(c: seq<real>): real {
    if c == [] then 0.0
    else
      var r := MaxCoeff(c[..|c| - 1]);
      if c[|c| - 1] > r then c[|c| - 1] else r
  }

  lemma {:induction false} MaxCoeffIsMax(c: seq<real>)
    ensures MaxCoeff(c) >= 0.0
    ensures forall i :: 0 <= i < |c| ==> c[i] <= MaxCoeff(c)
  {
    if c != [] {
      var front := c[..|c| - 1];
      MaxCoeffIsMax(front);
      assert forall i :: 0 <= i < |front| ==> front[i] == c[i];
    }
  }

  /** The factor taking the largest coefficient to MaxVal; MaxVal itself when no coefficient is positive. */
  function CostScaling(c: seq<real>): (r: real)
    ensures r > 0.0
  {
    MaxCoeffIsMax(c);
    var m := MaxCoeff(c);
    if m == 0.0 then MaxVal as real else MaxVal as real / m
  }

  /** The sum of the positive row bounds. */
  function PositiveSum(m: seq<real>): real {
    if m == [] then 0.0
    else PositiveSum(m[..|m| - 1]) + (if m[|m| - 1] > 0.0 then m[|m| - 1] else 0.0)
  }

  /** The sum of the other row bounds. */
  function NegativeSum(m: seq<real>): real {
    if m == [] then 0.0
    else NegativeSum(m[..|m| - 1]) + (if m[|m| - 1] > 0.0 then 0.0 else m[|m| - 1])
  }

  function RealSum(m: seq<real>): real {
    if m == [] then 0.0 else RealSum(m[..|m| - 1]) + m[|m| - 1]
  }

  /** max(total supply, total demand). */
  function MaxCapacity(m: seq<real>): real {
    RealMax(PositiveSum(m), -NegativeSum(m))
  }

  /** The supply sum bounds every positive row bound from above, the demand sum every other one from below. */
  lemma {:induction false} SumsBoundRows(m: seq<real>)
    ensures PositiveSum(m) >= 0.0 && NegativeSum(m) <= 0.0
    ensures forall i :: 0 <= i < |m| && m[i] > 0.0 ==> m[i] <= PositiveSum(m)
    ensures forall i :: 0 <= i < |m| && m[i] <= 0.0 ==> NegativeSum(m) <= m[i]
  {
    if m != [] {
      var front := m[..|m| - 1];
      SumsBoundRows(front);
      assert forall i :: 0 <= i < |front| ==> front[i] == m[i];
    }
  }

  /** One non-zero row bound is enough for solveLP's capacity scaling to be defined. */
  lemma CapacityPositive(m: seq<real>, i: int)
    requires 0 <= i < |m| && m[i] != 0.0
    ensures MaxCapacity(m) > 0.0
  {
    SumsBoundRows(m);
  }

  /** The factor taking the larger of total supply and total demand to MaxVal. */
  function CapacityScaling(m: seq<real>): (r: real)
    requires MaxCapacity(m) > 0.0
    ensures r > 0.0
  {
    MaxVal as real / MaxCapacity(m)
  }

  /** Each row bound scaled by s and truncated to an integer. */
  function ScaledMasses(m: seq<real>, s: real): (r: seq<int>)
    ensures |r| == |m|
  {
    seq(|m|, i requires 0 <= i < |m| => Trunc(m[i] * s))
  }

  function IntSum(s: seq<int>): int {
    if s == [] then 0 else IntSum(s[..|s| - 1]) + s[|s| - 1]
  }

  /** The index at which the running maximum (starting at 0) was last raised; -1 when no entry is positive. */
  function FirstMax(s: seq<int>): (k: int)
    ensures -1 <= k < |s|
  {
    if s == [] then -1
    else
      var k := FirstMax(s[..|s| - 1]);
      var best := if k < 0 then 0 else s[k];
      if s[|s| - 1] > best then |s| - 1 else k
  }

  /** The index at which the running minimum (starting at 0) was last lowered; -1 when no entry is negative. */
  function FirstMin(s: seq<int>): (k: int)
    ensures -1 <= k < |s|
  {
    if s == [] then -1
    else
      var k := FirstMin(s[..|s| - 1]);
      var best := if k < 0 then 0 else s[k];
      if s[|s| - 1] < best then |s| - 1 else k
  }

  /** FirstMax picks the first entry of largest value, when that value is positive. */
  lemma {:induction false} FirstMaxIsMax(s: seq<int>)
    ensures FirstMax(s) < 0 <==> forall i :: 0 <= i < |s| ==> s[i] <= 0
    ensures FirstMax(s) >= 0 ==> s[FirstMax(s)] > 0
    ensures FirstMax(s) >= 0 ==> forall i :: 0 <= i < |s| ==> s[i] <= s[FirstMax(s)]
    ensures FirstMax(s) >= 0 ==> forall i :: 0 <= i < FirstMax(s) ==> s[i] < s[FirstMax(s)]
  {
    if s != [] {
      var front := s[..|s| - 1];
      FirstMaxIsMax(front);
      assert forall i :: 0 <= i < |front| ==> front[i] == s[i];
    }
  }

  /** FirstMin picks the first entry of smallest value, when that value is negative. */
  lemma {:induction false} FirstMinIsMin(s: seq<int>)
    ensures FirstMin(s) < 0 <==> forall i :: 0 <= i < |s| ==> s[i] >= 0
    ensures FirstMin(s) >= 0 ==> s[FirstMin(s)] < 0
    ensures FirstMin(s) >= 0 ==> forall i :: 0 <= i < |s| ==> s[FirstMin(s)] <= s[i]
    ensures FirstMin(s) >= 0 ==> forall i :: 0 <= i < FirstMin(s) ==> s[FirstMin(s)] < s[i]
  {
    if s != [] {
      var front := s[..|s| - 1];
      FirstMinIsMin(front);
      assert forall i :: 0 <= i < |front| ==> front[i] == s[i];
    }
  }

  /** A positive sum has a positive entry, a negative sum a negative one. */
  lemma {:induction false} SumSign(s: seq<int>)
    ensures IntSum(s) > 0 ==> exists i :: 0 <= i < |s| && s[i] > 0
    ensures IntSum(s) < 0 ==> exists i :: 0 <= i < |s| && s[i] < 0
  {
    if s != [] {
      var front := s[..|s| - 1];
      SumSign(front);
      if IntSum(front) > 0 {
        var i :| 0 <= i < |front| && front[i] > 0;
        assert s[i] > 0;
      }
      if IntSum(front) < 0 {
        var i :| 0 <= i < |front| && front[i] < 0;
        assert s[i] < 0;
      }
    }
  }

  /**
   * The integer supplies after balancing: a positive imbalance is taken off
   * the first largest supply, a negative one off the first smallest. (The
   * index tests never fail: see BalanceFindsIndex.)
   */
  function Balance(s: seq<int>): (r: seq<int>)
    ensures |r| == |s|
  {
    var imbalance := IntSum(s);
    if imbalance > 0 && FirstMax(s) >= 0 then s[FirstMax(s) := s[FirstMax(s)] - imbalance]
    else if imbalance < 0 && FirstMin(s) >= 0 then s[FirstMin(s) := s[FirstMin(s)] - imbalance]
    else s
  }

  /** A positive imbalance has a largest positive supply to take it from, a negative one a smallest negative supply. */
  lemma BalanceFindsIndex(s: seq<int>)
    ensures IntSum(s) > 0 ==> FirstMax(s) >= 0
    ensures IntSum(s) < 0 ==> FirstMin(s) >= 0
  {
    SumSign(s);
    FirstMaxIsMax(s);
    FirstMinIsMin(s);
  }

  /** Changing one entry changes the sum by the same amount. */
  lemma {:induction false} SumUpdate(s: seq<int>, k: int, v: int)
    requires 0 <= k < |s|
    ensures IntSum(s[k := v]) == IntSum(s) - s[k] + v
  {
    var n := |s| - 1;
    var t := s[k := v];
    assert t[..n] == if k == n then s[..n] else s[..n][k := v];
    if k < n {
      SumUpdate(s[..n], k, v);
    }
  }

  /** The balanced supplies sum to zero. */
  lemma BalanceSumsToZero(s: seq<int>)
    ensures IntSum(Balance(s)) == 0
  {
    BalanceFindsIndex(s);
    var imbalance := IntSum(s);
    if imbalance > 0 {
      SumUpdate(s, FirstMax(s), s[FirstMax(s)] - imbalance);
    } else if imbalance < 0 {
      SumUpdate(s, FirstMin(s), s[FirstMin(s)] - imbalance);
    }
  }

  /** Balancing changes at most one supply, and only when the integer supplies do not already balance. */
  lemma BalanceTouchesOne(s: seq<int>)
    ensures IntSum(s) == 0 ==> Balance(s) == s
    ensures forall i, j :: 0 <= i < j < |s| && Balance(s)[i] != s[i] ==> Balance(s)[j] == s[j]
  {
  }

  /** The supplies of the graph: the balanced scaled row bounds and a last node with supply 0. */
  function Supplies(m: seq<real>): (r: seq<int>)
    requires MaxCapacity(m) > 0.0
    ensures |r| == |m| + 1 && r[|m|] == 0
  {
    Balance(ScaledMasses(m, CapacityScaling(m))) + [0]
  }

  /** The supplies handed to the network simplex sum to zero. */
  lemma SuppliesSumToZero(m: seq<real>)
    requires MaxCapacity(m) > 0.0
    ensures IntSum(Supplies(m)) == 0
  {
    var b := Balance(ScaledMasses(m, CapacityScaling(m)));
    BalanceSumsToZero(ScaledMasses(m, CapacityScaling(m)));
    assert Supplies(m)[..|b|] == b;
  }

  /** Each row bound scaled by s, before truncation. */
  function Scaled(m: seq<real>, s: real): (r: seq<real>)
    ensures |r| == |m|
  {
    seq(|m|, i requires 0 <= i < |m| => m[i] * s)
  }

  lemma ScaledAt(m: seq<real>, s: real, i: int)
    requires 0 <= i < |m|
    ensures Scaled(m, s)[i] == m[i] * s && ScaledMasses(m, s)[i] == Trunc(m[i] * s)
  {
  }

  /** Scaling and truncating a prefix gives the prefix of the scaled bounds. */
  lemma ScaledPrefix(m: seq<real>, s: real, n: nat)
    requires n <= |m|
    ensures Scaled(m, s)[..n] == Scaled(m[..n], s)
    ensures ScaledMasses(m, s)[..n] == ScaledMasses(m[..n], s)
  {
    forall i | 0 <= i < n
      ensures Scaled(m, s)[..n][i] == Scaled(m[..n], s)[i]
      ensures ScaledMasses(m, s)[..n][i] == ScaledMasses(m[..n], s)[i]
    {
      assert m[..n][i] == m[i];
    }
  }

  /** The sum of the scaled bounds is the scaled sum. */
  lemma {:induction false} ScaledSum(m: seq<real>, s: real)
    ensures RealSum(Scaled(m, s)) == s * RealSum(m)
  {
    if m != [] {
      var front := m[..|m| - 1];
      ScaledSum(front, s);
      ScaledPrefix(m, s, |m| - 1);
    }
  }

  /** Truncating each of n reals moves their sum by less than n. */
  lemma {:induction false} TruncSum(m: seq<real>, s: real)
    ensures var d := IntSum(ScaledMasses(m, s)) as real - RealSum(Scaled(m, s));
      -(|m| as real) <= d <= |m| as real && (|m| > 0 ==> -(|m| as real) < d < |m| as real)
  {
    if m != [] {
      var n := |m| - 1;
      var front := m[..n];
      TruncSum(front, s);
      ScaledPrefix(m, s, n);
      ScaledAt(m, s, n);
      TruncBounds(m[n] * s);
    }
  }

  /**
   * When the row bounds balance exactly, the correction made to the integer
   * supplies is smaller than the number of rows.
   */
  lemma ImbalanceBelowRowCount(m: seq<real>)
    requires MaxCapacity(m) > 0.0 && RealSum(m) == 0.0
    ensures -|m| < IntSum(ScaledMasses(m, CapacityScaling(m))) < |m|
  {
    var s := CapacityScaling(m);
    TruncSum(m, s);
    ScaledSum(m, s);
  }

  /** The integer capacity of an arc: its upper bound, clipped to the total capacity, scaled, truncated, plus 1. */
  function ArcUpper(ub: real, maxCapacity: real, scale: real): int {
    if ub > maxCapacity then Trunc(scale * maxCapacity) + 1 else Trunc(scale * ub) + 1
  }

  /** The integer lower bound of an arc: its scaled lower bound, truncated, minus 1, and at least 0. */
  function ArcLower(lb: real, scale: real): int {
    var l := Trunc(scale * lb) - 1;
    if 0 > l then 0 else l
  }

  /** The integer cost of an arc: its scaled objective coefficient, truncated. */
  function ArcCost(c: real, scale: real): int {
    Trunc(scale * c)
  }

  /** The integer network solveLP builds from the backend's arrays. */
  function Problem(sInd: seq<int>, tInd: seq<int>, coeff: seq<real>, mass: seq<real>, colLB: seq<real>, colUB: seq<real>): (p: NetworkProblem)
    requires |tInd| == |coeff| == |colLB| == |colUB| == |sInd|
    requires MaxCapacity(mass) > 0.0
    ensures |p.arcs| == |p.lower| == |p.upper| == |p.cost| == |sInd| && |p.supply| == p.nodes
  {
    var n := |sInd|;
    var maxCapacity, scale, costScaling := MaxCapacity(mass), CapacityScaling(mass), CostScaling(coeff);
    NetworkProblem(
      |mass| + 1,
      seq(n, i requires 0 <= i < n => (sInd[i], tInd[i])),
      Supplies(mass),
      seq(n, i requires 0 <= i < n => ArcLower(colLB[i], scale)),
      seq(n, i requires 0 <= i < n => ArcUpper(colUB[i], maxCapacity, scale)),
      seq(n, i requires 0 <= i < n => ArcCost(coeff[i], costScaling)))
  }

  /**
   * The network solveLP builds: supplies summing to zero on |mass| + 1
   * nodes, lower bounds at least 0, capacities at most MaxVal + 1 (the
   * clipped ones exactly MaxVal + 1) and costs at most MaxVal.
   */
  lemma ProblemBounds(sInd: seq<int>, tInd: seq<int>, coeff: seq<real>, mass: seq<real>, colLB: seq<real>, colUB: seq<real>)
    requires |tInd| == |coeff| == |colLB| == |colUB| == |sInd|
    requires MaxCapacity(mass) > 0.0
    ensures var p := Problem(sInd, tInd, coeff, mass, colLB, colUB);
      && IntSum(p.supply) == 0
      && (forall i :: 0 <= i < |p.lower| ==> p.lower[i] >= 0)
      && (forall i :: 0 <= i < |p.upper| ==> p.upper[i] <= MaxVal + 1)
      && (forall i :: 0 <= i < |p.upper| && colUB[i] > MaxCapacity(mass) ==> p.upper[i] == MaxVal + 1)
      && (forall i :: 0 <= i < |p.cost| ==> p.cost[i] <= MaxVal)
  {
    var p := Problem(sInd, tInd, coeff, mass, colLB, colUB);
    SuppliesSumToZero(mass);
    var maxCapacity, scale := MaxCapacity(mass), CapacityScaling(mass);
    assert scale * maxCapacity == MaxVal as real;
    assert scale > 0.0;
    forall i | 0 <= i < |p.upper|
      ensures p.upper[i] <= MaxVal + 1
    {
      if colUB[i] <= maxCapacity {
        assert scale * colUB[i] <= scale * maxCapacity;
        TruncBounds(scale * colUB[i]);
      }
    }
    MaxCoeffIsMax(coeff);
    forall i | 0 <= i < |p.cost|
      ensures p.cost[i] <= MaxVal
    {
      CostBound(coeff[i], MaxCoeff(coeff));
    }
  }

  /** A coefficient no larger than the largest scales to at most MaxVal. */
  lemma CostBound(c: real, m: real)
    requires m >= 0.0 && c <= m
    ensures ArcCost(c, if m == 0.0 then MaxVal as real else MaxVal as real / m) <= MaxVal
  {
    var s := if m == 0.0 then MaxVal as real else MaxVal as real / m;
    if m == 0.0 {
      assert s * c <= 0.0;
    } else {
      assert s * m == MaxVal as real;
      assert s * c <= s * m;
    }
    TruncBounds(s * c);
  }

  /** The total cost of a flow: the sum over the arcs of flow times integer cost. */
  function TotalCost(r: SimplexResult, cost: seq<int>): int {
    if cost == [] then 0 else TotalCost(r, cost[..|cost| - 1]) + r.flow(|cost| - 1) * cost[|cost| - 1]
  }

  /** The primal values solveLP stores: each arc's flow divided by the capacity scaling. */
  function ScaledFlows(r: SimplexResult, n: nat, scale: real): (primal: seq<real>)
    requires scale != 0.0
    ensures |primal| == n
  {
    seq(n, i => r.flow(i) as real / scale)
  }

  /** The dual values solveLP stores: each node's potential. */
  function NodePotentials(r: SimplexResult, n: nat): (dual: seq<real>)
    ensures |dual| == n
  {
    seq(n, i => r.potential(i) as real)
  }

  /** The objective solveLP reports: the integer total cost divided by both scalings. */
  function ObjectiveValue(r: SimplexResult, cost: seq<int>, capacityScaling: real, costScaling: real): real
    requires capacityScaling != 0.0 && costScaling != 0.0
  {
    TotalCost(r, cost) as real / capacityScaling / costScaling
  }

  /** What solveLP stores: the optimality flag, the objective value, the primal and the dual values. */
  datatype Outcome = Outcome(success: bool, objValue: real, primal: seq<real>, dual: seq<real>)

  /**
   * solveLP on the backend's arrays: the simplex outcome of the integer
   * network, with the objective and the flows scaled back and the node
   * potentials as duals, for nPrimal columns and nDual rows.
   */
  function SolveOutcome(simplex: NetworkSimplex, sInd: seq<int>, tInd: seq<int>, coeff: seq<real>, mass: seq<real>,
                        colLB: seq<real>, colUB: seq<real>, nPrimal: nat, nDual: nat): (o: Outcome)
    requires |tInd| == |coeff| == |colLB| == |colUB| == |sInd|
    requires MaxCapacity(mass) > 0.0
    ensures |o.primal| == nPrimal && |o.dual| == nDual
  {
    var p, scale := Problem(sInd, tInd, coeff, mass, colLB, colUB), CapacityScaling(mass);
    var r := simplex(p);
    Outcome(r.optimal, ObjectiveValue(r, p.cost, scale, CostScaling(coeff)), ScaledFlows(r, nPrimal, scale), NodePotentials(r, nDual))
  }

  /** Every column array has one entry per column and every row array one per row. */
  predicate Shaped(sInd: seq<int>, tInd: seq<int>, coeff: seq<real>, primal: seq<real>, colLB: seq<real>, colUB: seq<real>,
                   colStatus: seq<Status>, mass: seq<real>, rowStatus: seq<Status>, dual: seq<real>)
  {
    && |tInd| == |sInd| && |coeff| == |sInd| && |primal| == |sInd|
    && |colLB| == |sInd| && |colUB| == |sInd| && |colStatus| == |sInd|
    && |rowStatus| == |mass| && |dual| == |mass|
  }

  class LemonSolver {
    /** The source row, target row and cost of each column. */
    var sInd: seq<int>
    var tInd: seq<int>
    var coeff: seq<real>
    /** The row bounds (supplies), one per row. */
    var mass: seq<real>
    var primal: seq<real>
    var dual: seq<real>
    var colLB: seq<real>
    var colUB: seq<real>
    var colStatus: seq<Status>
    var rowStatus: seq<Status>
    var iCount: int
    var objValue: real
    var ns: int
    var nt: int
    var success: bool
    /** The network simplex solver. */
    const simplex: NetworkSimplex

    /** The column arrays have one entry per column, the row arrays one per row. */
    ghost predicate Valid()
      reads this`sInd, this`tInd, this`coeff, this`primal, this`colLB, this`colUB, this`colStatus
      reads this`mass, this`rowStatus, this`dual
    {
      Shaped(sInd, tInd, coeff, primal, colLB, colUB, colStatus, mass, rowStatus, dual)
    }

    /** A new backend has no columns and no rows, ns = nt = 0 and no successful solve. */
    constructor (solver: NetworkSimplex)
      ensures Valid() && simplex == solver
      ensures sInd == [] && tInd == [] && coeff == [] && primal == [] && colLB == [] && colUB == [] && colStatus == []
      ensures mass == [] && rowStatus == [] && dual == []
      ensures ns == 0 && nt == 0 && !success && iCount == 0 && objValue == 0.0
    {
      simplex := solver;
      sInd, tInd, coeff, primal, colLB, colUB, colStatus := [], [], [], [], [], [], [];
      mass, rowStatus, dual := [], [], [];
      ns, nt, success := 0, 0, false;
      iCount, objValue := 0, 0.0;
    }

    function IsOptimal(): bool
      reads this`success
    {
      success
    }

    function GetObjectiveValue(): real
      reads this`objValue
    {
      objValue
    }

    function GetIterationCount(): int
      reads this`iCount
    {
      iCount
    }

    /** The number of rows is the length of the dual array. */
    function GetNumberOfRows(): int
      reads this`dual
    {
      |dual|
    }

    /** The number of columns is the length of the primal array. */
    function GetNumberOfColumns(): int
      reads this`primal
    {
      |primal|
    }

    function GetColumnPrimal(col: int): real
      requires 0 <= col < |primal|
      reads this`primal
    {
      primal[col]
    }

    function GetRowDual(row: int): real
      requires 0 <= row < |dual|
      reads this`dual
    {
      dual[row]
    }

    function GetRowBounds(i: int): real
      requires 0 <= i < |mass|
      reads this`mass
    {
      mass[i]
    }

    function GetColumnStatus(col: int): Status
      requires 0 <= col < |colStatus|
      reads this`colStatus
    {
      colStatus[col]
    }

    function GetRowStatus(row: int): Status
      requires 0 <= row < |rowStatus|
      reads this`rowStatus
    {
      rowStatus[row]
    }

    /** getColumn: always two entries, the column's source row with value 1 and its target row with value -1. */
    method GetColumn(col: int) returns (count: int, ind: seq<int>, val: seq<real>)
      requires 0 <= col < |sInd| && |tInd| == |sInd|
      ensures count == 2 && |ind| == count && |val| == count
      ensures ind == [sInd[col], tInd[col]] && val == [1.0, -1.0]
    {
      ind := [sInd[col], tInd[col]];
      val := [1.0, -1.0];
      count := 2;
    }

    method SetRowBounds(i: int, m: real)
      requires 0 <= i < |mass|
      modifies this`mass
      ensures mass == old(mass)[i := m]
    {
      mass := mass[i := m];
    }

    /** setColumnBoundsLower sets the lower bound and lifts the upper bound to the largest double. */
    method SetColumnBoundsLower(col: int, lb: real)
      requires 0 <= col < |colLB| && col < |colUB|
      modifies this`colLB, this`colUB
      ensures colLB == old(colLB)[col := lb] && colUB == old(colUB)[col := MaxDouble]
    {
      colLB := colLB[col := lb];
      colUB := colUB[col := MaxDouble];
    }

    method SetColumnBounds(col: int, lb: real, ub: real)
      requires 0 <= col < |colLB| && col < |colUB|
      modifies this`colLB, this`colUB
      ensures colLB == old(colLB)[col := lb] && colUB == old(colUB)[col := ub]
    {
      colLB := colLB[col := lb];
      colUB := colUB[col := ub];
    }

    method SetColumnStatus(col: int, s: Status)
      requires 0 <= col < |colStatus|
      modifies this`colStatus
      ensures colStatus == old(colStatus)[col := s]
    {
      colStatus := colStatus[col := s];
    }

    method SetRowStatus(row: int, s: Status)
      requires 0 <= row < |rowStatus|
      modifies this`rowStatus
      ensures rowStatus == old(rowStatus)[row := s]
    {
      rowStatus := rowStatus[row := s];
    }

    method SetColumnObjective(i: int, cost: real)
      requires 0 <= i < |coeff|
      modifies this`coeff
      ensures coeff == old(coeff)[i := cost]
    {
      coeff := coeff[i := cost];
    }

    method SetColumnCoefficients(col: int, s: int, t: int)
      requires 0 <= col < |sInd| && col < |tInd|
      modifies this`sInd, this`tInd
      ensures sInd == old(sInd)[col := s] && tInd == old(tInd)[col := t]
    {
      tInd := tInd[col := t];
      sInd := sInd[col := s];
    }

    /**
     * addColumns(n): n new columns with no rows (-1, -1), cost 0, primal 0,
     * status LOWER and bounds [0, 1].
     */
    method AddColumns(n: int)
      requires n >= 0
      modifies this`sInd, this`tInd, this`coeff, this`primal, this`colStatus, this`colLB, this`colUB
      ensures sInd == old(sInd) + seq(n, _ => -1) && tInd == old(tInd) + seq(n, _ => -1)
      ensures coeff == old(coeff) + seq(n, _ => 0.0) && primal == old(primal) + seq(n, _ => 0.0)
      ensures colStatus == old(colStatus) + seq(n, _ => LOWER)
      ensures colLB == old(colLB) + seq(n, _ => 0.0) && colUB == old(colUB) + seq(n, _ => 1.0)
      ensures GetNumberOfColumns() == old(GetNumberOfColumns()) + n
    {
      sInd := sInd + seq(n, _ => -1);
      tInd := tInd + seq(n, _ => -1);
      coeff := coeff + seq(n, _ => 0.0);
      primal := primal + seq(n, _ => 0.0);
      colStatus := colStatus + seq(n, _ => LOWER);
      colLB := colLB + seq(n, _ => 0.0);
      colUB := colUB + seq(n, _ => 1.0);
    }

    /** addRows(n): n new rows with bound 0, status BASIC and dual 0. */
    method AddRows(n: int)
      requires n >= 0
      modifies this`mass, this`rowStatus, this`dual
      ensures mass == old(mass) + seq(n, _ => 0.0)
      ensures rowStatus == old(rowStatus) + seq(n, _ => BASIC)
      ensures dual == old(dual) + seq(n, _ => 0.0)
      ensures GetNumberOfRows() == old(GetNumberOfRows()) + n
    {
      mass := mass + seq(n, _ => 0.0);
      rowStatus := rowStatus + seq(n, _ => BASIC);
      dual := dual + seq(n, _ => 0.0);
    }

    /** deleteLP clears every array and resets ns; nt keeps its value. */
    method DeleteLP()
      modifies this`sInd, this`tInd, this`coeff, this`primal, this`colStatus, this`colLB, this`colUB
      modifies this`mass, this`rowStatus, this`dual, this`ns
      ensures Valid() && GetNumberOfColumns() == 0 && GetNumberOfRows() == 0
      ensures sInd == [] && tInd == [] && coeff == [] && primal == [] && colLB == [] && colUB == [] && colStatus == []
      ensures mass == [] && rowStatus == [] && dual == []
      ensures ns == 0
    {
      sInd, tInd, coeff, mass, dual, primal := [], [], [], [], [], [];
      rowStatus, colStatus, colLB, colUB := [], [], [], [];
      ns := 0;
    }

    /** createLP: an empty problem over nSource sources and nTarget targets. */
    method CreateLP(nSource: int, nTarget: int)
      modifies this`sInd, this`tInd, this`coeff, this`primal, this`colStatus, this`colLB, this`colUB
      modifies this`mass, this`rowStatus, this`dual, this`ns, this`nt
      ensures Valid() && GetNumberOfColumns() == 0 && GetNumberOfRows() == 0
      ensures sInd == [] && tInd == [] && coeff == [] && primal == [] && colLB == [] && colUB == [] && colStatus == []
      ensures mass == [] && rowStatus == [] && dual == []
      ensures ns == nSource && nt == nTarget
    {
      DeleteLP();
      ns := nSource;
      nt := nTarget;
    }

    /** setupStandardBasis: every column LOWER and every row BASIC. */
    method SetupStandardBasis()
      requires Valid()
      modifies this`colStatus, this`rowStatus
      ensures colStatus == seq(|old(colStatus)|, _ => LOWER)
      ensures rowStatus == seq(|old(rowStatus)|, _ => BASIC)
      ensures Valid()
    {
      var i := 0;
      while i < GetNumberOfColumns()
        invariant 0 <= i <= |colStatus| == |primal|
        invariant forall j :: 0 <= j < i ==> colStatus[j] == LOWER
        invariant |colStatus| == |old(colStatus)| && rowStatus == old(rowStatus)
      {
        colStatus := colStatus[i := LOWER];
        i := i + 1;
      }
      i := 0;
      while i < GetNumberOfRows()
        invariant 0 <= i <= |rowStatus| == |dual|
        invariant forall j :: 0 <= j < |colStatus| ==> colStatus[j] == LOWER
        invariant forall j :: 0 <= j < i ==> rowStatus[j] == BASIC
        invariant |colStatus| == |old(colStatus)| && |rowStatus| == |old(rowStatus)|
      {
        rowStatus := rowStatus[i := BASIC];
        i := i + 1;
      }
    }

    /** Every arc joins two of the |mass| + 1 nodes of the network. */
    ghost predicate ArcsInGraph()
      reads this`sInd, this`tInd, this`mass
    {
      |tInd| == |sInd| && forall i :: 0 <= i < |sInd| ==> 0 <= sInd[i] <= |mass| && 0 <= tInd[i] <= |mass|
    }

    /**
     * solveLP: solve the integer network built from the arrays; the
     * objective is the integer total cost scaled back, each primal the
     * scaled-back flow of its arc and each dual the potential of its node.
     * The iteration count is always 1.
     */
    method SolveLP()
      requires Valid() && ArcsInGraph() && MaxCapacity(mass) > 0.0
      modifies this`success, this`objValue, this`iCount, this`primal, this`dual
      ensures Valid()
      ensures Outcome(success, objValue, primal, dual)
           == SolveOutcome(simplex, sInd, tInd, coeff, mass, colLB, colUB, |old(primal)|, |old(dual)|)
      ensures iCount == 1
    {
      success, objValue, primal, dual := Solve(simplex, sInd, tInd, coeff, mass, colLB, colUB, |primal|, |dual|);
      iCount := 1;
    }
  }

  /** The body of solveLP on the backend's arrays: build the network, run the simplex, scale the results back. */
  method Solve(simplex: NetworkSimplex, sInd: seq<int>, tInd: seq<int>, coeff: seq<real>, mass: seq<real>,
               colLB: seq<real>, colUB: seq<real>, nPrimal: nat, nDual: nat)
    returns (success: bool, objValue: real, primal: seq<real>, dual: seq<real>)
    requires |tInd| == |coeff| == |colLB| == |colUB| == |sInd|
    requires MaxCapacity(mass) > 0.0
    ensures Outcome(success, objValue, primal, dual) == SolveOutcome(simplex, sInd, tInd, coeff, mass, colLB, colUB, nPrimal, nDual)
    ensures |primal| == nPrimal && |dual| == nDual
  {
    var p, capacityScaling, costScaling := BuildNetwork(sInd, tInd, coeff, mass, colLB, colUB);
    var r := simplex(p);
    success := r.optimal;
    var total := SumCost(r, p.cost);
    objValue := total as real;
    objValue := objValue / capacityScaling;
    objValue := objValue / costScaling;
    primal := Flows(r, nPrimal, capacityScaling);
    dual := Potentials(r, nDual);
  }

  /** The part of solveLP before the simplex call: the scaling factors and the integer network. */
  method BuildNetwork(sInd: seq<int>, tInd: seq<int>, coeff: seq<real>, mass: seq<real>, colLB: seq<real>, colUB: seq<real>)
    returns (p: NetworkProblem, capacityScaling: real, costScaling: real)
    requires |tInd| == |coeff| == |colLB| == |colUB| == |sInd|
    requires MaxCapacity(mass) > 0.0
    ensures p == Problem(sInd, tInd, coeff, mass, colLB, colUB)
    ensures capacityScaling == CapacityScaling(mass) && costScaling == CostScaling(coeff)
  {
    costScaling := MaxCoefficient(coeff);
    if costScaling == 0.0 {
      costScaling := MaxVal as real;
    } else {
      costScaling := MaxVal as real / costScaling;
    }
    var mPositive, mNegative := MassSums(mass);
    var maxCapacity := RealMax(mPositive, -mNegative);
    capacityScaling := MaxVal as real / maxCapacity;
    var supply := IntegerSupplies(mass, capacityScaling);
    var arcs := ArcList(sInd, tInd);
    var lower, capacity, cost := ArcBounds(coeff, colLB, colUB, maxCapacity, capacityScaling, costScaling);
    p := NetworkProblem(|mass| + 1, arcs, supply, lower, capacity, cost);
  }

  /** The first loop of solveLP: the largest objective coefficient, or 0. */
  method MaxCoefficient(coeff: seq<real>) returns (m: real)
    ensures m == MaxCoeff(coeff)
  {
    m := 0.0;
    var i := 0;
    while i < |coeff|
      invariant 0 <= i <= |coeff|
      invariant m == MaxCoeff(coeff[..i])
    {
      assert coeff[..i + 1][..i] == coeff[..i];
      if coeff[i] > m {
        m := coeff[i];
      }
      i := i + 1;
    }
    assert coeff[..i] == coeff;
  }

  /** The second loop of solveLP: the sums of the positive and of the other row bounds. */
  method MassSums(mass: seq<real>) returns (mPositive: real, mNegative: real)
    ensures mPositive == PositiveSum(mass) && mNegative == NegativeSum(mass)
  {
    mPositive, mNegative := 0.0, 0.0;
    var i := 0;
    while i < |mass|
      invariant 0 <= i <= |mass|
      invariant mPositive == PositiveSum(mass[..i]) && mNegative == NegativeSum(mass[..i])
    {
      assert mass[..i + 1][..i] == mass[..i];
      var m := mass[i];
      if m > 0.0 {
        mPositive := mPositive + m;
      } else {
        mNegative := mNegative + m;
      }
      i := i + 1;
    }
    assert mass[..i] == mass;
  }

  /**
   * The supply loop of solveLP: scale and truncate each row bound, track
   * the sums and the first largest and smallest supplies, then balance.
   */
  method IntegerSupplies(mass: seq<real>, capacityScaling: real) returns (supply: seq<int>)
    requires MaxCapacity(mass) > 0.0 && capacityScaling == CapacityScaling(mass)
    ensures supply == Supplies(mass)
  {
    var scaled: seq<int> := [];
    var massPositive, massNegative := 0, 0;
    var maxMass, maxMassID, minMass, minMassID := 0, -1, 0, -1;
    var i := 0;
    while i < |mass|
      invariant 0 <= i <= |mass|
      invariant scaled == ScaledMasses(mass[..i], capacityScaling)
      invariant massPositive + massNegative == IntSum(scaled)
      invariant maxMassID == FirstMax(scaled) && maxMass == (if maxMassID < 0 then 0 else scaled[maxMassID])
      invariant minMassID == FirstMin(scaled) && minMass == (if minMassID < 0 then 0 else scaled[minMassID])
    {
      var m := Trunc(mass[i] * capacityScaling);
      SupplyStep(mass, i, capacityScaling, scaled, m);
      scaled := scaled + [m];
      if m > 0 {
        massPositive := massPositive + m;
      } else {
        massNegative := massNegative + m;
      }
      if m > maxMass {
        maxMass := m;
        maxMassID := i;
      }
      if m < minMass {
        minMass := m;
        minMassID := i;
      }
      i := i + 1;
    }
    assert mass[..i] == mass;
    var massImbalance := massPositive + massNegative;
    supply := scaled + [0];
    BalanceFindsIndex(scaled);
    if massImbalance > 0 {
      supply := supply[maxMassID := maxMass - massImbalance];
    }
    if massImbalance < 0 {
      supply := supply[minMassID := minMass - massImbalance];
    }
    assert supply == Balance(scaled) + [0];
  }

  /** One step of the supply loop: the scaled prefix grows by the next truncated bound. */
  lemma SupplyStep(mass: seq<real>, i: int, s: real, scaled: seq<int>, m: int)
    requires 0 <= i < |mass| && scaled == ScaledMasses(mass[..i], s) && m == Trunc(mass[i] * s)
    ensures scaled + [m] == ScaledMasses(mass[..i + 1], s)
    ensures (scaled + [m])[..i] == scaled
  {
    var next := ScaledMasses(mass[..i + 1], s);
    forall k | 0 <= k < i
      ensures scaled[k] == next[k]
    {
      ScaledAt(mass[..i + 1], s, k);
      ScaledAt(mass[..i], s, k);
      assert mass[..i + 1][k] == mass[..i][k];
    }
    ScaledAt(mass[..i + 1], s, i);
    assert mass[..i + 1][i] == mass[i];
    assert next[i] == m;
  }

  /** The arc loop of solveLP: one arc per column, from its source row to its target row. */
  method ArcList(sInd: seq<int>, tInd: seq<int>) returns (arcs: seq<(int, int)>)
    requires |tInd| == |sInd|
    ensures |arcs| == |sInd| && forall i :: 0 <= i < |sInd| ==> arcs[i] == (sInd[i], tInd[i])
  {
    arcs := [];
    var i := 0;
    while i < |sInd|
      invariant 0 <= i <= |sInd|
      invariant |arcs| == i && forall k :: 0 <= k < i ==> arcs[k] == (sInd[k], tInd[k])
    {
      arcs := arcs + [(sInd[i], tInd[i])];
      i := i + 1;
    }
  }

  /** The arc-map loop of solveLP: the integer lower bound, capacity and cost of each arc. */
  method ArcBounds(coeff: seq<real>, colLB: seq<real>, colUB: seq<real>, maxCapacity: real, capacityScaling: real, costScaling: real)
    returns (lower: seq<int>, capacity: seq<int>, cost: seq<int>)
    requires |colLB| == |coeff| && |colUB| == |coeff|
    ensures |lower| == |capacity| == |cost| == |coeff|
    ensures forall i :: 0 <= i < |coeff| ==> lower[i] == ArcLower(colLB[i], capacityScaling)
    ensures forall i :: 0 <= i < |coeff| ==> capacity[i] == ArcUpper(colUB[i], maxCapacity, capacityScaling)
    ensures forall i :: 0 <= i < |coeff| ==> cost[i] == ArcCost(coeff[i], costScaling)
  {
    lower, capacity, cost := [], [], [];
    var i := 0;
    while i < |coeff|
      invariant 0 <= i <= |coeff|
      invariant |lower| == i && |capacity| == i && |cost| == i
      invariant forall k :: 0 <= k < i ==> lower[k] == ArcLower(colLB[k], capacityScaling)
      invariant forall k :: 0 <= k < i ==> capacity[k] == ArcUpper(colUB[k], maxCapacity, capacityScaling)
      invariant forall k :: 0 <= k < i ==> cost[k] == ArcCost(coeff[k], costScaling)
    {
      var cap: int;
      if colUB[i] > maxCapacity {
        cap := Trunc(capacityScaling * maxCapacity) + 1;
      } else {
        cap := Trunc(capacityScaling * colUB[i]) + 1;
      }
      var lo := Trunc(capacityScaling * colLB[i]) - 1;
      if 0 > lo {
        lo := 0;
      }
      capacity := capacity + [cap];
      lower := lower + [lo];
      cost := cost + [Trunc(costScaling * coeff[i])];
      i := i + 1;
    }
  }

  /** totalCost of the network simplex: the summed flow times cost over the arcs. */
  method SumCost(r: SimplexResult, cost: seq<int>) returns (total: int)
    ensures total == TotalCost(r, cost)
  {
    total := 0;
    var i := 0;
    while i < |cost|
      invariant 0 <= i <= |cost|
      invariant total == TotalCost(r, cost[..i])
    {
      assert cost[..i + 1][..i] == cost[..i];
      total := total + r.flow(i) * cost[i];
      i := i + 1;
    }
    assert cost[..i] == cost;
  }

  /** The primal loop of solveLP: each column's flow scaled back. */
  method Flows(r: SimplexResult, n: nat, capacityScaling: real) returns (primal: seq<real>)
    requires capacityScaling != 0.0
    ensures primal == ScaledFlows(r, n, capacityScaling)
  {
    primal := [];
    var i := 0;
    while i < n
      invariant 0 <= i <= n
      invariant primal == seq(i, k => r.flow(k) as real / capacityScaling)
    {
      primal := primal + [r.flow(i) as real / capacityScaling];
      i := i + 1;
    }
  }

  /** The dual loop of solveLP: each row's node potential. */
  method Potentials(r: SimplexResult, n: nat) returns (dual: seq<real>)
    ensures dual == NodePotentials(r, n)
  {
    dual := [];
    var i := 0;
    while i < n
      invariant 0 <= i <= n
      invariant dual == seq(i, k => r.potential(k) as real)
    {
      dual := dual + [r.potential(i) as real];
      i := i + 1;
    }
  }
}
