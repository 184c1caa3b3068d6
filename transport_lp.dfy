/**
 * TransportLP: the dense transportation LP for a cost matrix C with r rows
 * and c columns. It has one row per source (bound from(i)), one row per
 * target (bound -to(j)) and one column per (i, j) pair, at index i * c + j,
 * joining row i to row r + j with cost C(i, j) and lower bound 0. After the
 * solve the plan holds the pairs whose column carries a positive flow.
 */
module DenseLP {
  import opened LPSolver
  import opened Lemon
  import opened Nodes

  /** Every row of C has c entries. */
  predicate IsMatrix(C: seq<seq<real>>, c: int) {
    forall i :: 0 <= i < |C| ==> |C[i]| == c
  }

  /** The row bounds: from(i) on row i, then -to(j) on row r + j. */
  function DenseRows(from: seq<real>, to: seq<real>): (m: seq<real>)
    ensures |m| == |from| + |to|
  {
    from + seq(|to|, j requires 0 <= j < |to| => -to[j])
  }

  /** The column of pair (i, j) is i * c + j; it lies below r * c and gives back i and j. */
  lemma DenseIndex(i: int, j: int, r: int, c: int)
    requires 0 <= i < r && 0 <= j < c
    ensures 0 <= i * c + j < r * c
    ensures (i * c + j) / c == i && (i * c + j) % c == j
  {
    var k := i * c + j;
    var q, m := k / c, k % c;
    assert k == q * c + m && 0 <= m < c;
    var d := i - q;
    assert d * c == m - j;
    if d > 0 {
      MulAtLeast(d, c);
    } else if d < 0 {
      MulAtLeast(-d, c);
    }
    MulAtLeast(r - i, c);
    assert r * c == i * c + (r - i) * c;
  }

  lemma MulAtLeast(d: int, c: int)
    requires d >= 1 && c > 0
    ensures d * c >= c
  {
  }

  /** Every column below r * c is the column of a pair: (k / c, k % c). */
  lemma DenseCover(k: int, r: nat, c: nat)
    requires 0 <= k < r * c
    ensures c > 0 && 0 <= k / c < r && 0 <= k % c < c && k == (k / c) * c + k % c
  {
    assert c != 0;
    var q := k / c;
    assert k == q * c + k % c;
    if q < 0 {
      MulAtLeast(-q, c);
    }
    if q >= r {
      MulMonotone(q, r, c);
    }
  }

  lemma MulMonotone(a: int, b: int, c: int)
    requires a >= b && c > 0
    ensures a * c >= b * c
  {
    if a > b {
      MulAtLeast(a - b, c);
      assert a * c == b * c + (a - b) * c;
    }
  }

  /** Column k joins source row k / c ... */
  function DenseSources(r: nat, c: nat): (s: seq<int>)
    ensures |s| == r * c
  {
    seq(r * c, k requires 0 <= k < r * c => DenseCover(k, r, c); k / c)
  }

  /** ... to target row r + k % c ... */
  function DenseTargets(r: nat, c: nat): (t: seq<int>)
    ensures |t| == r * c
  {
    seq(r * c, k requires 0 <= k < r * c => DenseCover(k, r, c); r + k % c)
  }

  /** ... with the cost of that pair. */
  function DenseCosts(C: seq<seq<real>>, c: nat): (o: seq<real>)
    requires IsMatrix(C, c)
    ensures |o| == |C| * c
  {
    seq(|C| * c, k requires 0 <= k < |C| * c => DenseCover(k, |C|, c); C[k / c][k % c])
  }

  /** Pair (i, j) gets the column (i, r + j) with cost C(i, j). */
  lemma DenseColumn(C: seq<seq<real>>, c: nat, i: int, j: int)
    requires IsMatrix(C, c) && 0 <= i < |C| && 0 <= j < c
    ensures 0 <= i * c + j < |C| * c
    ensures DenseSources(|C|, c)[i * c + j] == i && DenseTargets(|C|, c)[i * c + j] == |C| + j
    ensures DenseCosts(C, c)[i * c + j] == C[i][j]
  {
    DenseIndex(i, j, |C|, c);
  }

  /** Two pairs never share a column. */
  lemma DenseInjective(i: int, j: int, i': int, j': int, r: nat, c: nat)
    requires 0 <= i < r && 0 <= j < c && 0 <= i' < r && 0 <= j' < c
    requires i * c + j == i' * c + j'
    ensures i == i' && j == j'
  {
    DenseIndex(i, j, r, c);
    DenseIndex(i', j', r, c);
  }

  /** The flow of pair (i, j): the primal of its column. */
  function Flow(primal: seq<real>, r: nat, c: nat, i: int, j: int): real
    requires |primal| == r * c && 0 <= i < r && 0 <= j < c
  {
    DenseIndex(i, j, r, c);
    primal[i * c + j]
  }

  /** plan holds exactly the pairs whose flow is positive, each with its flow. */
  ghost predicate PositivePart(plan: map<(int, int), real>, primal: seq<real>, r: nat, c: nat)
    requires |primal| == r * c
  {
    && (forall p :: p in plan ==> 0 <= p.0 < r && 0 <= p.1 < c)
    && (forall i, j :: 0 <= i < r && 0 <= j < c ==> ((i, j) in plan <==> Flow(primal, r, c, i, j) > 0.0))
    && (forall i, j :: (i, j) in plan && 0 <= i < r && 0 <= j < c ==> plan[(i, j)] == Flow(primal, r, c, i, j))
  }

  /** The row bounds sum to the total supply less the total demand, so the LP is balanced when the two totals agree. */
  lemma DenseRowsSum(from: seq<real>, to: seq<real>)
    ensures RealSum(DenseRows(from, to)) == RealSum(from) - RealSum(to)
  {
    SumConcat(from, seq(|to|, j requires 0 <= j < |to| => -to[j]));
    SumNegated(to);
  }

  lemma {:induction false} SumConcat(a: seq<real>, b: seq<real>)
    ensures RealSum(a + b) == RealSum(a) + RealSum(b)
  {
    if b != [] {
      assert (a + b)[..|a + b| - 1] == a + b[..|b| - 1];
      SumConcat(a, b[..|b| - 1]);
    } else {
      assert a + b == a;
    }
  }

  lemma {:induction false} SumNegated(to: seq<real>)
    ensures RealSum(seq(|to|, j requires 0 <= j < |to| => -to[j])) == -RealSum(to)
  {
    if to != [] {
      var front := to[..|to| - 1];
      SumNegated(front);
      assert seq(|to|, j requires 0 <= j < |to| => -to[j])[..|to| - 1]
          == seq(|front|, j requires 0 <= j < |front| => -front[j]);
    }
  }

  class TransportLP {
    const solver: LemonSolver

    constructor (lps: LemonSolver)
      ensures solver == lps
    {
      solver := lps;
    }

    /**
     * solve: the backend holds the dense LP of C, from and to (r + c rows,
     * r * c columns, every column LOWER and every row BASIC) and its solve
     * outcome; the plan holds each pair whose column has a positive primal.
     */
    method Solve(C: seq<seq<real>>, from: seq<real>, to: seq<real>) returns (plan: map<(int, int), real>)
      requires |from| == |C| && IsMatrix(C, |to|)
      requires MaxCapacity(DenseRows(from, to)) > 0.0
      modifies solver`sInd, solver`tInd, solver`coeff, solver`primal, solver`colStatus, solver`colLB, solver`colUB
      modifies solver`mass, solver`rowStatus, solver`dual, solver`ns, solver`nt
      modifies solver`success, solver`objValue, solver`iCount
      ensures var r, c := |C|, |to|;
        && solver.ns == r && solver.nt == c && solver.mass == DenseRows(from, to)
        && solver.sInd == DenseSources(r, c) && solver.tInd == DenseTargets(r, c) && solver.coeff == DenseCosts(C, c)
        && solver.colLB == seq(r * c, _ => 0.0) && solver.colUB == seq(r * c, _ => MaxDouble)
        && solver.colStatus == seq(r * c, _ => LOWER) && solver.rowStatus == seq(r + c, _ => BASIC)
      ensures Outcome(solver.success, solver.objValue, solver.primal, solver.dual)
           == SolveOutcome(solver.simplex, solver.sInd, solver.tInd, solver.coeff, solver.mass,
                           solver.colLB, solver.colUB, |C| * |to|, |C| + |to|)
      ensures |solver.primal| == |C| * |to| && PositivePart(plan, solver.primal, |C|, |to|)
    {
      var r, c := |C|, |to|;
      BuildDense(solver, C, from, to);
      solver.SolveLP();
      plan := PositivePlan(solver.primal, r, c);
    }
  }

  /** solve up to the call of solveLP: size the backend, then write its rows and columns. */
  method BuildDense(lp: LemonSolver, C: seq<seq<real>>, from: seq<real>, to: seq<real>)
    requires |from| == |C| && IsMatrix(C, |to|)
    modifies lp`sInd, lp`tInd, lp`coeff, lp`primal, lp`colStatus, lp`colLB, lp`colUB
    modifies lp`mass, lp`rowStatus, lp`dual, lp`ns, lp`nt
    ensures var r, c := |C|, |to|;
      && lp.ns == r && lp.nt == c && lp.mass == DenseRows(from, to)
      && lp.sInd == DenseSources(r, c) && lp.tInd == DenseTargets(r, c) && lp.coeff == DenseCosts(C, c)
      && lp.colLB == seq(r * c, _ => 0.0) && lp.colUB == seq(r * c, _ => MaxDouble)
      && lp.colStatus == seq(r * c, _ => LOWER) && lp.rowStatus == seq(r + c, _ => BASIC)
      && |lp.primal| == r * c && |lp.dual| == r + c
    ensures lp.Valid() && lp.ArcsInGraph()
  {
    var r, c := |C|, |to|;
    lp.CreateLP(r, c);
    lp.AddRows(r + c);
    lp.AddColumns(r * c);
    DenseRowBounds(lp, from, to);
    DenseColumns(lp, C, c);
    forall k | 0 <= k < |lp.sInd|
      ensures 0 <= lp.sInd[k] <= |lp.mass| && 0 <= lp.tInd[k] <= |lp.mass|
    {
      DenseCover(k, r, c);
    }
  }

  /** The two row-bound loops of solve. */
  method DenseRowBounds(lp: LemonSolver, from: seq<real>, to: seq<real>)
    requires lp.mass == seq(|from| + |to|, _ => 0.0)
    modifies lp`mass
    ensures lp.mass == DenseRows(from, to)
  {
    var r, c := |from|, |to|;
    var i := 0;
    while i < r
      invariant 0 <= i <= r && |lp.mass| == r + c
      invariant lp.mass[..i] == from[..i] && forall k :: i <= k < r + c ==> lp.mass[k] == 0.0
    {
      lp.SetRowBounds(i, from[i]);
      assert lp.mass[..i + 1] == lp.mass[..i] + [from[i]] && from[..i + 1] == from[..i] + [from[i]];
      i := i + 1;
    }
    i := 0;
    while i < c
      invariant 0 <= i <= c && |lp.mass| == r + c
      invariant lp.mass[..r] == from
      invariant forall j :: 0 <= j < i ==> lp.mass[r + j] == -to[j]
      invariant forall k :: r + i <= k < r + c ==> lp.mass[k] == 0.0
    {
      lp.SetRowBounds(r + i, -to[i]);
      i := i + 1;
    }
    assert lp.mass[..r] == DenseRows(from, to)[..r];
  }

  /** The column loop of solve: column index = i * c + j gets lower bound 0, cost C(i, j) and rows (i, r + j). */
  method DenseColumns(lp: LemonSolver, C: seq<seq<real>>, c: nat)
    requires IsMatrix(C, c) && lp.Valid() && |lp.sInd| == |C| * c
    modifies lp`sInd, lp`tInd, lp`coeff, lp`colLB, lp`colUB
    ensures lp.Valid()
    ensures lp.sInd == DenseSources(|C|, c) && lp.tInd == DenseTargets(|C|, c) && lp.coeff == DenseCosts(C, c)
    ensures lp.colLB == seq(|C| * c, _ => 0.0) && lp.colUB == seq(|C| * c, _ => MaxDouble)
  {
    var r := |C|;
    var index := 0;
    var i := 0;
    while i < r
      invariant 0 <= i <= r && lp.Valid() && |lp.sInd| == r * c
      invariant index == i * c && DenseUpTo(lp, C, c, index)
    {
      var j := 0;
      while j < c
        invariant 0 <= j <= c && lp.Valid() && |lp.sInd| == r * c
        invariant index == i * c + j && DenseUpTo(lp, C, c, index)
      {
        DenseColumnStep(lp, C, c, i, j, index);
        index := index + 1;
        j := j + 1;
      }
      i := i + 1;
    }
    assert DenseUpTo(lp, C, c, r * c);
  }

  /** The first n columns of lp are those of the dense LP of C. */
  ghost predicate DenseUpTo(lp: LemonSolver, C: seq<seq<real>>, c: nat, n: int)
    requires IsMatrix(C, c)
    reads lp`sInd, lp`tInd, lp`coeff, lp`colLB, lp`colUB
  {
    var N := |C| * c;
    && 0 <= n <= N && |lp.sInd| == |lp.tInd| == |lp.coeff| == |lp.colLB| == |lp.colUB| == N
    && lp.sInd[..n] == DenseSources(|C|, c)[..n] && lp.tInd[..n] == DenseTargets(|C|, c)[..n]
    && lp.coeff[..n] == DenseCosts(C, c)[..n]
    && lp.colLB[..n] == seq(N, _ => 0.0)[..n] && lp.colUB[..n] == seq(N, _ => MaxDouble)[..n]
  }

  /** One pass of the inner column loop: setColumnBoundsLower, setColumnObjective and setColumnCoefficients on one index. */
  method DenseColumnStep(lp: LemonSolver, C: seq<seq<real>>, c: nat, i: int, j: int, index: int)
    requires IsMatrix(C, c) && 0 <= i < |C| && 0 <= j < c && index == i * c + j
    requires lp.Valid() && DenseUpTo(lp, C, c, index)
    modifies lp`sInd, lp`tInd, lp`coeff, lp`colLB, lp`colUB
    ensures lp.Valid() && DenseUpTo(lp, C, c, index + 1)
  {
    DenseColumn(C, c, i, j);
    ghost var N := |C| * c;
    lp.SetColumnBoundsLower(index, 0.0);
    lp.SetColumnObjective(index, C[i][j]);
    lp.SetColumnCoefficients(index, i, |C| + j);
    assert lp.sInd[..index + 1] == lp.sInd[..index] + [i];
    assert DenseSources(|C|, c)[..index + 1] == DenseSources(|C|, c)[..index] + [i];
    assert lp.tInd[..index + 1] == lp.tInd[..index] + [|C| + j];
    assert DenseTargets(|C|, c)[..index + 1] == DenseTargets(|C|, c)[..index] + [|C| + j];
    assert lp.coeff[..index + 1] == lp.coeff[..index] + [C[i][j]];
    assert DenseCosts(C, c)[..index + 1] == DenseCosts(C, c)[..index] + [C[i][j]];
    assert lp.colLB[..index + 1] == lp.colLB[..index] + [0.0];
    assert seq(N, _ => 0.0)[..index + 1] == seq(N, _ => 0.0)[..index] + [0.0];
    assert lp.colUB[..index + 1] == lp.colUB[..index] + [MaxDouble];
    assert seq(N, _ => MaxDouble)[..index + 1] == seq(N, _ => MaxDouble)[..index] + [MaxDouble];
  }

  /** The plan loop of solve: every pair whose column has a positive primal, with that value. */
  method PositivePlan(primal: seq<real>, r: nat, c: nat) returns (plan: map<(int, int), real>)
    requires |primal| == r * c
    ensures PositivePart(plan, primal, r, c)
  {
    plan := map[];
    var index := 0;
    var i := 0;
    while i < r
      invariant 0 <= i <= r && index == i * c
      invariant PlanUpTo(plan, primal, r, c, i, 0)
    {
      var j := 0;
      while j < c
        invariant 0 <= j <= c && index == i * c + j
        invariant PlanUpTo(plan, primal, r, c, i, j)
      {
        DenseIndex(i, j, r, c);
        var w := primal[index];
        assert w == Flow(primal, r, c, i, j);
        if w > 0.0 {
          plan := plan[(i, j) := w];
        }
        index := index + 1;
        j := j + 1;
      }
      i := i + 1;
    }
  }

  /** plan is the positive part of the pairs before (i, j) in row-major order. */
  ghost predicate PlanUpTo(plan: map<(int, int), real>, primal: seq<real>, r: nat, c: nat, i: int, j: int)
    requires |primal| == r * c
  {
    && (forall p :: p in plan ==> 0 <= p.0 < r && 0 <= p.1 < c && (p.0 < i || (p.0 == i && p.1 < j)))
    && (forall i', j' :: 0 <= i' < r && 0 <= j' < c && (i' < i || (i' == i && j' < j)) ==>
          ((i', j') in plan <==> Flow(primal, r, c, i', j') > 0.0))
    && (forall i', j' :: (i', j') in plan && 0 <= i' < r && 0 <= j' < c ==> plan[(i', j')] == Flow(primal, r, c, i', j'))
  }
}
