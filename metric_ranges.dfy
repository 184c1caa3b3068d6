/**
 * The work-unit partition that PointSetToPointSetMetric2v4::CreateRanges
 * builds before dispatching the metric evaluation to threads.
 */
module MetricRanges {

  /** A half-open range [start, end) of point identifiers. */
  datatype Range = Range(start: nat, end: nat)

  /** The thread setup forces a single work unit. */
  predicate SingleUnit(nPoints: nat, nWorkUnits: nat, maxThreads: int) {
    nWorkUnits > nPoints || maxThreads <= 1
  }

  /** The number of work units the loop actually uses. */
  function UnitCount(nPoints: nat, nWorkUnits: nat, maxThreads: int): nat {
    if SingleUnit(nPoints, nWorkUnits, maxThreads) || nWorkUnits == 0 then 1 else nWorkUnits
  }

  /** Floor of a / u for naturals, by repeated subtraction. */
  function FloorDiv(a: nat, u: nat): (q: nat)
    requires u > 0
    decreases a
  {
    if a < u then 0 else 1 + FloorDiv(a - u, u)
  }

  /** FloorDiv is the quotient of Euclidean division. */
  lemma {:induction false} FloorDivIsQuotient(a: nat, u: nat)
    requires u > 0
    ensures FloorDiv(a, u) * u <= a < (FloorDiv(a, u) + 1) * u
    decreases a
  {
    if a >= u {
      FloorDivIsQuotient(a - u, u);
      var q := FloorDiv(a - u, u);
      assert (q + 1) * u == q * u + u;
      assert (q + 2) * u == (q + 1) * u + u;
    }
  }

  lemma {:induction false} FloorDivMonotone(a: nat, b: nat, u: nat)
    requires u > 0 && a <= b
    ensures FloorDiv(a, u) <= FloorDiv(b, u)
    decreases a
  {
    if a >= u {
      FloorDivMonotone(a - u, b - u, u);
    }
  }

  lemma {:induction false} FloorDivBounded(a: nat, n: nat, u: nat)
    requires u > 0 && a <= n * u
    ensures FloorDiv(a, u) <= n
    decreases a
  {
    if a >= u {
      assert n >= 1;
      assert (n - 1) * u == n * u - u;
      FloorDivBounded(a - u, n - 1, u);
    }
  }

  /**
   * The identifier boundary between unit p-1 and unit p. The source divides
   * p * nPoints by the unit count in double precision and truncates. For
   * non-negative operands with p * nPoints below 2^53 that is the floor of
   * the exact quotient, which is what is modelled; above 2^53 the rounded
   * quotient can exceed it.
   */
  function Boundary(p: nat, nPoints: nat, units: nat): nat
    requires units > 0
  {
    FloorDiv(p * nPoints, units)
  }

  lemma BoundaryMonotone(p: nat, q: nat, nPoints: nat, units: nat)
    requires units > 0 && p <= q
    ensures Boundary(p, nPoints, units) <= Boundary(q, nPoints, units)
  {
    assert q * nPoints == p * nPoints + (q - p) * nPoints;
    FloorDivMonotone(p * nPoints, q * nPoints, units);
  }

  lemma BoundaryAtMost(p: nat, nPoints: nat, units: nat)
    requires units > 0 && p <= units
    ensures Boundary(p, nPoints, units) <= nPoints
  {
    assert units * nPoints == p * nPoints + (units - p) * nPoints;
    assert nPoints * units == units * nPoints;
    FloorDivBounded(p * nPoints, nPoints, units);
  }

  /** Consecutive ranges that tile [0, n) in order. */
  predicate Tiles(ranges: seq<Range>, n: nat) {
    && |ranges| >= 1
    && ranges[0].start == 0
    && ranges[|ranges| - 1].end == n
    && (forall k :: 0 <= k < |ranges| ==> ranges[k].start <= ranges[k].end)
    && (forall k :: 0 < k < |ranges| ==> ranges[k].start == ranges[k - 1].end)
  }

  /**
   * Splits [0, nPoints) into work-unit ranges: one range when the unit count
   * exceeds the point count or threads are unavailable (or no unit is
   * requested), otherwise one range per unit with interior boundaries
   * floor(p * nPoints / nWorkUnits).
   */
  method CreateRanges(nPoints: nat, nWorkUnits: nat, maxThreads: int) returns (ranges: seq<Range>)
    ensures SingleUnit(nPoints, nWorkUnits, maxThreads) ==> ranges == [Range(0, nPoints)]
    ensures nWorkUnits == 0 ==> ranges == [Range(0, nPoints)]
    ensures |ranges| == UnitCount(nPoints, nWorkUnits, maxThreads)
    ensures Tiles(ranges, nPoints)
    ensures forall k :: 0 <= k < |ranges| - 1 ==> ranges[k].end == Boundary(k + 1, nPoints, |ranges|)
  {
    var units := nWorkUnits;
    if nWorkUnits > nPoints || maxThreads <= 1 {
      units := 1;
    }
    var startRange := 0;
    ranges := [];
    var p := 1;
    while p < units
      invariant 1 <= p && (units == 0 || p <= units)
      invariant |ranges| == p - 1
      invariant units > 0 ==> startRange == Boundary(p - 1, nPoints, units)
      invariant units == 0 ==> ranges == [] && startRange == 0
      invariant ranges != [] ==> ranges[0].start == 0 && ranges[|ranges| - 1].end == startRange
      invariant forall k :: 0 <= k < |ranges| ==> ranges[k].start <= ranges[k].end
      invariant forall k :: 0 < k < |ranges| ==> ranges[k].start == ranges[k - 1].end
      invariant forall k :: 0 <= k < |ranges| ==> ranges[k].end == Boundary(k + 1, nPoints, units)
    {
      var endRange := Boundary(p, nPoints, units);
      BoundaryMonotone(p - 1, p, nPoints, units);
      ranges := ranges + [Range(startRange, endRange)];
      startRange := endRange;
      p := p + 1;
    }
    if units > 0 {
      BoundaryAtMost(p - 1, nPoints, units);
    }
    ranges := ranges + [Range(startRange, nPoints)];
  }

  /** The index of the range holding point x. */
  function RangeOf(ranges: seq<Range>, n: nat, x: nat): (k: nat)
    requires Tiles(ranges, n) && x < n
    ensures k < |ranges|
    decreases |ranges|
  {
    if x >= ranges[|ranges| - 1].start || |ranges| == 1 then |ranges| - 1
    else RangeOf(ranges[..|ranges| - 1], ranges[|ranges| - 1].start, x)
  }

  /** Every point of [0, n) lies in exactly one range of a tiling. */
  lemma {:induction false} TilesPartition(ranges: seq<Range>, n: nat, x: nat)
    requires Tiles(ranges, n) && x < n
    ensures ranges[RangeOf(ranges, n, x)].start <= x < ranges[RangeOf(ranges, n, x)].end
    ensures forall j :: 0 <= j < |ranges| && ranges[j].start <= x < ranges[j].end ==> j == RangeOf(ranges, n, x)
    decreases |ranges|
  {
    var last := |ranges| - 1;
    if |ranges| > 1 {
      OrderedEnds(ranges, n);
    }
    if x >= ranges[last].start || |ranges| == 1 {
    } else {
      var front := ranges[..last];
      assert Tiles(front, ranges[last].start);
      TilesPartition(front, ranges[last].start, x);
    }
  }

  /** In a tiling the ranges are ordered: earlier ranges end before later ones start. */
  lemma {:induction false} OrderedEnds(ranges: seq<Range>, n: nat)
    requires Tiles(ranges, n)
    ensures forall i, j :: 0 <= i < j < |ranges| ==> ranges[i].end <= ranges[j].start
  {
    forall i, j | 0 <= i < j < |ranges|
      ensures ranges[i].end <= ranges[j].start
    {
      var k := i + 1;
      while k < j
        invariant i + 1 <= k <= j
        invariant ranges[i].end <= ranges[k].start
      {
        k := k + 1;
      }
    }
  }
}
