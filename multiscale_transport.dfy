/**
 * MultiscaleTransport: the driver that solves a transport problem between two
 * hierarchies scale by scale. Each hierarchy is a list of levels, coarsest
 * first. The driver
 *  - normalises the masses of both hierarchies bottom-up;
 *  - picks a starting level on each side, either clamped from a requested
 *    number of scales or by matching the sides' mean local radii;
 *  - walks both level lists with independent cursors, calling solveLP once
 *    per pair of levels. A side at its end stays pinned at its finest level,
 *    and each call gets the previous call's solutions.
 *
 * solveLP belongs to the concrete driver type. Here it is a function of its
 * arguments, passed to Solve, together with the function that takes the
 * primary plan out of a result.
 */
module Multiscale {
  import opened Nodes
  import opened Levels

  datatype Option<T> = None | Some(value: T)

  function Abs(x: real): real {
    if x < 0.0 then -x else x
  }

  function Min(a: int, b: int): int {
    if a < b then a else b
  }

  function Max(a: int, b: int): int {
    if a < b then b else a
  }

  /** solveLP(source, target, prevSol, p, lastScale) of the concrete driver. */
  type Step<!S> = (Level, Level, Option<S>, real, bool) -> S

  /** One solveLP call of the scale loop: its arguments and its result. */
  datatype Call<S> = Call(source: Level, target: Level, prev: Option<S>, lastScale: bool, result: S)

  /**
   * The level a side starts at, counted from the coarsest. A requested number
   * of scales outside [0, size-1] means that every level is used.
   */
  function StartLevel(nScales: int, size: int): (s: int)
    requires size > 0
    ensures 0 <= s < size
    ensures 0 <= nScales < size ==> s == size - 1 - nScales
    ensures !(0 <= nScales < size) ==> s == 0
  {
    var n := if nScales < 0 || nScales >= size then size - 1 else nScales;
    size - 1 - n
  }

  // ---------------------------------------------------------------------
  // Mean local radius of a level
  // ---------------------------------------------------------------------

  /** The summed local radius of a list of nodes. */
  function RadiusSum(nodes: seq<TransportNode>): real {
    if nodes == [] then 0.0 else RadiusSum(nodes[..|nodes| - 1]) + nodes[|nodes| - 1].localRadius
  }

  /** The mean local node radius of a non-empty level. */
  function MeanRadius(level: Level): real
    reads level
    requires |level.nodes| > 0
  {
    RadiusSum(level.nodes) / (|level.nodes| as real)
  }

  lemma {:induction false} RadiusSumBounded(nodes: seq<TransportNode>, lo: real, hi: real)
    requires forall i :: 0 <= i < |nodes| ==> lo <= nodes[i].localRadius <= hi
    ensures (|nodes| as real) * lo <= RadiusSum(nodes) <= (|nodes| as real) * hi
  {
    if nodes != [] {
      var front := nodes[..|nodes| - 1];
      assert forall i :: 0 <= i < |front| ==> front[i] == nodes[i];
      RadiusSumBounded(front, lo, hi);
    }
  }

  /** The mean radius lies between the smallest and the largest local radius of the level. */
  lemma MeanRadiusWithin(level: Level, lo: real, hi: real)
    requires |level.nodes| > 0
    requires forall i :: 0 <= i < |level.nodes| ==> lo <= level.nodes[i].localRadius <= hi
    ensures lo <= MeanRadius(level) <= hi
  {
    RadiusSumBounded(level.nodes, lo, hi);
    DivideBounds(RadiusSum(level.nodes), |level.nodes| as real, lo, hi);
  }

  /** Every level of the list has a node. */
  ghost predicate Populated(levels: seq<Level>)
    reads levels
  {
    forall i :: 0 <= i < |levels| ==> |levels[i].nodes| > 0
  }

  /**
   * Call k of a scale loop from levels a and b that makes count calls:
   * it solves level min(a+k, |aLevels|-1) against level
   * min(b+k, |bLevels|-1), so a side at its end stays on its finest level;
   * it is flagged as the last scale exactly when it is the last call; it gets no
   * previous solutions when it is the first and the result of call k-1
   * otherwise; and its result is what step returns for those arguments.
   */
  ghost predicate Scheduled<S>(aLevels: seq<Level>, bLevels: seq<Level>, a: int, b: int, step: Step<S>, p: real,
                               calls: seq<Call<S>>, k: int, count: int)
    requires 0 <= a < |aLevels| && 0 <= b < |bLevels| && 0 <= k < |calls|
  {
    && calls[k].source == aLevels[Min(a + k, |aLevels| - 1)]
    && calls[k].target == bLevels[Min(b + k, |bLevels| - 1)]
    && calls[k].lastScale == (k == count - 1)
    && calls[k].prev == (if k == 0 then None else Some(calls[k - 1].result))
    && calls[k].result == step(calls[k].source, calls[k].target, calls[k].prev, p, calls[k].lastScale)
  }

  /** Appending a call that fits the schedule keeps the earlier calls scheduled. */
  lemma ScheduleExtends<S>(aLevels: seq<Level>, bLevels: seq<Level>, a: int, b: int, step: Step<S>, p: real,
                           calls: seq<Call<S>>, c: Call<S>, count: int)
    requires 0 <= a < |aLevels| && 0 <= b < |bLevels|
    requires forall k :: 0 <= k < |calls| ==> Scheduled(aLevels, bLevels, a, b, step, p, calls, k, count)
    requires Scheduled(aLevels, bLevels, a, b, step, p, calls + [c], |calls|, count)
    ensures forall k :: 0 <= k < |calls| + 1 ==> Scheduled(aLevels, bLevels, a, b, step, p, calls + [c], k, count)
  {
    forall k | 0 <= k < |calls|
      ensures Scheduled(aLevels, bLevels, a, b, step, p, calls + [c], k, count)
    {
      assert (calls + [c])[k] == calls[k];
      assert Scheduled(aLevels, bLevels, a, b, step, p, calls, k, count);
      if 0 < k {
        assert (calls + [c])[k - 1] == calls[k - 1];
      }
    }
  }

  /**
   * The starting level j that matchStartLevel picks on a side, from level
   * start, against the other side's mean radius r. The gap |mean - r| does
   * not grow from start up to j, and j is the finest level or the gap grows
   * at the next level.
   */
  /** Level i is no farther from radius r than the level above it. */
  ghost predicate Closer(levels: seq<Level>, i: int, r: real)
    reads levels
    requires Populated(levels) && 0 < i < |levels|
  {
    Abs(MeanRadius(levels[i]) - r) <= Abs(MeanRadius(levels[i - 1]) - r)
  }

  ghost predicate FirstGrowth(levels: seq<Level>, start: int, j: int, r: real)
    reads levels
    requires Populated(levels)
  {
    && 0 <= start <= j < |levels|
    && (forall i :: start < i <= j ==> Closer(levels, i, r))
    && (j == |levels| - 1 || Abs(MeanRadius(levels[j + 1]) - r) > Abs(MeanRadius(levels[j]) - r))
  }

  // ---------------------------------------------------------------------
  // Masses of a hierarchy, as values
  // ---------------------------------------------------------------------

  /** The mass m records for n; 0 for a node it does not list. */
  function Mass(m: map<TransportNode, real>, n: TransportNode): real {
    if n in m then m[n] else 0.0
  }

  /** The children k records for n; none for a node it does not list. */
  function KidsOf(k: map<TransportNode, seq<TransportNode>>, n: TransportNode): seq<TransportNode> {
    if n in k then k[n] else []
  }

  /** The summed mass of a list of nodes under the masses m, added in list order. */
  function MapSum(nodes: seq<TransportNode>, m: map<TransportNode, real>): real {
    if nodes == [] then 0.0 else MapSum(nodes[..|nodes| - 1], m) + Mass(m, nodes[|nodes| - 1])
  }

  /** No node is listed twice, neither within a level nor on two levels. */
  ghost predicate Distinct(L: seq<seq<TransportNode>>) {
    && (forall j, a, b :: 0 <= j < |L| && 0 <= a < b < |L[j]| ==> L[j][a] != L[j][b])
    && (forall i, j, n :: 0 <= i < j < |L| && n in L[i] ==> n !in L[j])
  }

  /**
   * A hierarchy as values: L lists the nodes of each level, coarsest first,
   * and k records the children of each node. The children of a node lie on
   * the next finer level, and the nodes of the finest level have none.
   */
  ghost predicate Layered(L: seq<seq<TransportNode>>, k: map<TransportNode, seq<TransportNode>>) {
    && Distinct(L)
    && (forall j, n, c :: 0 <= j < |L| - 1 && n in L[j] && c in KidsOf(k, n) ==> c in L[j + 1])
    && (|L| > 0 ==> forall n :: n in L[|L| - 1] ==> KidsOf(k, n) == [])
  }

  /** Two listed nodes at different positions are different nodes. */
  lemma Apart(L: seq<seq<TransportNode>>, i: int, a: int, j: int, b: int)
    requires Distinct(L)
    requires 0 <= i < |L| && 0 <= a < |L[i]| && 0 <= j < |L| && 0 <= b < |L[j]|
    requires i != j || a != b
    ensures L[i][a] != L[j][b]
  {
    if i < j {
      assert L[i][a] in L[i];
    } else if j < i {
      assert L[j][b] in L[j];
    } else if a > b {
      assert L[i][b] != L[i][a];
    }
  }

  /** A node of level i is not a child of a node of level i or finer. */
  lemma NotAKid(L: seq<seq<TransportNode>>, k: map<TransportNode, seq<TransportNode>>, i: int, x: TransportNode, j: int, y: TransportNode)
    requires Layered(L, k)
    requires 0 <= i <= j < |L| && x in L[i] && y in L[j]
    ensures x !in KidsOf(k, y)
  {
    if j < |L| - 1 {
      assert forall c :: c in KidsOf(k, y) ==> c in L[j + 1];
      assert x !in L[j + 1];
    }
  }

  /**
   * The mass the bottom-up pass gives node n, with m the current masses and
   * m0 those before the pass: the summed mass of its children, except that
   * a childless node keeps its own when keepLeaves.
   */
  function PassValue(n: TransportNode, k: map<TransportNode, seq<TransportNode>>, m: map<TransportNode, real>,
                     m0: map<TransportNode, real>, keepLeaves: bool): real
  {
    if keepLeaves && KidsOf(k, n) == [] then Mass(m0, n) else MapSum(KidsOf(k, n), m)
  }

  /** Node n follows the rule of the pass under the masses m. */
  ghost predicate Summed(n: TransportNode, k: map<TransportNode, seq<TransportNode>>, m: map<TransportNode, real>,
                         m0: map<TransportNode, real>, keepLeaves: bool)
  {
    Mass(m, n) == PassValue(n, k, m, m0, keepLeaves)
  }

  /** The nodes of levels from..|L|-1 follow the rule of the pass. */
  ghost predicate SummedFrom(L: seq<seq<TransportNode>>, k: map<TransportNode, seq<TransportNode>>, m: map<TransportNode, real>,
                             m0: map<TransportNode, real>, from: int, keepLeaves: bool)
  {
    forall j, a :: 0 <= j < |L| && from <= j && 0 <= a < |L[j]| ==> Summed(L[j][a], k, m, m0, keepLeaves)
  }

  /** The nodes of levels 0..upTo-1 still have their masses m0. */
  ghost predicate KeptBelow(L: seq<seq<TransportNode>>, m: map<TransportNode, real>, m0: map<TransportNode, real>, upTo: int) {
    forall j, a :: 0 <= j < |L| && j < upTo && 0 <= a < |L[j]| ==> Mass(m, L[j][a]) == Mass(m0, L[j][a])
  }

  /**
   * The pass within level i: the finer levels are done, the coarser ones
   * untouched, and on level i the nodes before position a are done and
   * the rest untouched.
   */
  ghost predicate LevelDone(L: seq<seq<TransportNode>>, k: map<TransportNode, seq<TransportNode>>, m: map<TransportNode, real>,
                            m0: map<TransportNode, real>, i: int, a: int, keepLeaves: bool)
    requires 0 <= i < |L|
  {
    && SummedFrom(L, k, m, m0, i + 1, keepLeaves)
    && KeptBelow(L, m, m0, i)
    && (forall b :: 0 <= b < |L[i]| && b < a ==> Summed(L[i][b], k, m, m0, keepLeaves))
    && (forall b :: 0 <= b < |L[i]| && a <= b ==> Mass(m, L[i][b]) == Mass(m0, L[i][b]))
  }

  /** Changing the mass of a node outside the list leaves the list's sum alone. */
  lemma {:induction false} MapSumUpdate(nodes: seq<TransportNode>, m: map<TransportNode, real>, x: TransportNode, v: real)
    requires x !in nodes
    ensures MapSum(nodes, m[x := v]) == MapSum(nodes, m)
  {
    if nodes != [] {
      var front := nodes[..|nodes| - 1];
      assert forall c :: c in front ==> c in nodes;
      MapSumUpdate(front, m, x, v);
    }
  }

  /**
   * One step of the pass: giving node a of level i its pass value keeps
   * every node already done done and every other node untouched.
   */
  lemma SumStep(L: seq<seq<TransportNode>>, k: map<TransportNode, seq<TransportNode>>, m: map<TransportNode, real>,
                m0: map<TransportNode, real>, i: int, a: int, keepLeaves: bool)
    requires Layered(L, k) && 0 <= i < |L| && 0 <= a < |L[i]|
    requires LevelDone(L, k, m, m0, i, a, keepLeaves)
    ensures LevelDone(L, k, m[L[i][a] := PassValue(L[i][a], k, m, m0, keepLeaves)], m0, i, a + 1, keepLeaves)
  {
    var x := L[i][a];
    var v := PassValue(x, k, m, m0, keepLeaves);
    var m' := m[x := v];
    assert x in L[i];
    forall j, b | 0 <= j < |L| && i + 1 <= j && 0 <= b < |L[j]|
      ensures Summed(L[j][b], k, m', m0, keepLeaves)
    {
      Apart(L, i, a, j, b);
      assert L[j][b] in L[j];
      NotAKid(L, k, i, x, j, L[j][b]);
      MapSumUpdate(KidsOf(k, L[j][b]), m, x, v);
    }
    forall j, b | 0 <= j < |L| && j < i && 0 <= b < |L[j]|
      ensures Mass(m', L[j][b]) == Mass(m0, L[j][b])
    {
      Apart(L, i, a, j, b);
    }
    forall b | 0 <= b < |L[i]| && b < a + 1
      ensures Summed(L[i][b], k, m', m0, keepLeaves)
    {
      assert L[i][b] in L[i];
      NotAKid(L, k, i, x, i, L[i][b]);
      MapSumUpdate(KidsOf(k, L[i][b]), m, x, v);
      if b < a {
        Apart(L, i, a, i, b);
      }
    }
    forall b | 0 <= b < |L[i]| && a + 1 <= b
      ensures Mass(m', L[i][b]) == Mass(m0, L[i][b])
    {
      Apart(L, i, a, i, b);
    }
  }

  lemma {:induction false} MapSumZero(nodes: seq<TransportNode>, m: map<TransportNode, real>)
    requires forall i :: 0 <= i < |nodes| ==> Mass(m, nodes[i]) == 0.0
    ensures MapSum(nodes, m) == 0.0
  {
    if nodes != [] {
      MapSumZero(nodes[..|nodes| - 1], m);
    }
  }

  lemma {:induction false} MapSumPositive(nodes: seq<TransportNode>, m: map<TransportNode, real>)
    requires nodes != [] && forall i :: 0 <= i < |nodes| ==> Mass(m, nodes[i]) > 0.0
    ensures MapSum(nodes, m) > 0.0
  {
    var front := nodes[..|nodes| - 1];
    if front != [] {
      MapSumPositive(front, m);
    }
  }

  /** Dividing each mass of a list by t divides their sum by t. */
  lemma {:induction false} MapSumScaled(nodes: seq<TransportNode>, m1: map<TransportNode, real>, m2: map<TransportNode, real>, t: real)
    requires t != 0.0
    requires forall i :: 0 <= i < |nodes| ==> Mass(m2, nodes[i]) == Mass(m1, nodes[i]) / t
    ensures MapSum(nodes, m2) == MapSum(nodes, m1) / t
  {
    if nodes != [] {
      var front := nodes[..|nodes| - 1];
      assert forall i :: 0 <= i < |front| ==> front[i] == nodes[i];
      MapSumScaled(front, m1, m2, t);
      DivSum(MapSum(front, m1), Mass(m1, nodes[|nodes| - 1]), t);
    }
  }

  lemma DivSum(x: real, y: real, t: real)
    requires t != 0.0
    ensures (x + y) / t == x / t + y / t
  {
    assert (x / t) * t == x;
    assert (y / t) * t == y;
    assert (x / t + y / t) * t == x + y;
  }

  /**
   * As written, the pass gives every node of levels from.. mass 0: the
   * finest nodes are childless, and the sums above them add only zeros.
   */
  lemma {:induction false} AsWrittenZeroFrom(L: seq<seq<TransportNode>>, k: map<TransportNode, seq<TransportNode>>,
                                             m: map<TransportNode, real>, m0: map<TransportNode, real>, from: int)
    requires Layered(L, k) && 0 <= from <= |L| && SummedFrom(L, k, m, m0, from, false)
    ensures forall j, a :: from <= j < |L| && 0 <= a < |L[j]| ==> Mass(m, L[j][a]) == 0.0
    decreases |L| - from
  {
    if from < |L| {
      AsWrittenZeroFrom(L, k, m, m0, from + 1);
      forall a | 0 <= a < |L[from]|
        ensures Mass(m, L[from][a]) == 0.0
      {
        var n := L[from][a];
        assert n in L[from];
        assert Summed(n, k, m, m0, false);
        var kids := KidsOf(k, n);
        forall e | 0 <= e < |kids|
          ensures Mass(m, kids[e]) == 0.0
        {
          assert kids[e] in kids;
          assert kids[e] in L[from + 1];
          var b :| 0 <= b < |L[from + 1]| && L[from + 1][b] == kids[e];
        }
        MapSumZero(kids, m);
      }
    }
  }

  /**
   * With childless nodes set to 0 the whole hierarchy ends with mass 0, so
   * the coarsest level, whose mass the scaling divides by, sums to 0.
   */
  lemma AsWrittenMassesVanish(L: seq<seq<TransportNode>>, k: map<TransportNode, seq<TransportNode>>,
                              m: map<TransportNode, real>, m0: map<TransportNode, real>)
    requires Layered(L, k) && SummedFrom(L, k, m, m0, 0, false)
    ensures forall j, a :: 0 <= j < |L| && 0 <= a < |L[j]| ==> Mass(m, L[j][a]) == 0.0
    ensures |L| > 0 ==> MapSum(L[0], m) == 0.0
  {
    AsWrittenZeroFrom(L, k, m, m0, 0);
    if |L| > 0 {
      MapSumZero(L[0], m);
    }
  }

  /** Every childless node has a positive mass under m. */
  ghost predicate LeavesPositive(L: seq<seq<TransportNode>>, k: map<TransportNode, seq<TransportNode>>, m: map<TransportNode, real>) {
    forall j, a :: 0 <= j < |L| && 0 <= a < |L[j]| && KidsOf(k, L[j][a]) == [] ==> Mass(m, L[j][a]) > 0.0
  }

  /** After the corrected pass over positive leaves, every node of levels from.. has positive mass. */
  lemma {:induction false} PositiveFrom(L: seq<seq<TransportNode>>, k: map<TransportNode, seq<TransportNode>>,
                                        m: map<TransportNode, real>, m0: map<TransportNode, real>, from: int)
    requires Layered(L, k) && 0 <= from <= |L| && SummedFrom(L, k, m, m0, from, true)
    requires LeavesPositive(L, k, m0)
    ensures forall j, a :: from <= j < |L| && 0 <= a < |L[j]| ==> Mass(m, L[j][a]) > 0.0
    decreases |L| - from
  {
    if from < |L| {
      PositiveFrom(L, k, m, m0, from + 1);
      forall a | 0 <= a < |L[from]|
        ensures Mass(m, L[from][a]) > 0.0
      {
        var n := L[from][a];
        assert n in L[from];
        assert Summed(n, k, m, m0, true);
        var kids := KidsOf(k, n);
        if kids != [] {
          forall e | 0 <= e < |kids|
            ensures Mass(m, kids[e]) > 0.0
          {
            assert kids[e] in kids;
            assert kids[e] in L[from + 1];
            var b :| 0 <= b < |L[from + 1]| && L[from + 1][b] == kids[e];
          }
          MapSumPositive(kids, m);
        }
      }
    }
  }

  /**
   * The scaling within level i: the masses of the nodes before level i, and
   * of those before position a on level i, are their masses under m1
   * divided by t; the other nodes keep their masses under m1.
   */
  ghost predicate ScaledUpTo(L: seq<seq<TransportNode>>, m: map<TransportNode, real>, m1: map<TransportNode, real>, t: real, i: int, a: int)
    requires t != 0.0
  {
    forall j, b :: 0 <= j < |L| && 0 <= b < |L[j]| ==>
      Mass(m, L[j][b]) == if j < i || (j == i && b < a) then Mass(m1, L[j][b]) / t else Mass(m1, L[j][b])
  }

  /** Dividing node a of level i by t moves the scaling on by one node. */
  lemma ScaleStep(L: seq<seq<TransportNode>>, m: map<TransportNode, real>, m1: map<TransportNode, real>, t: real, i: int, a: int)
    requires Distinct(L) && t != 0.0 && 0 <= i < |L| && 0 <= a < |L[i]|
    requires ScaledUpTo(L, m, m1, t, i, a)
    ensures ScaledUpTo(L, m[L[i][a] := Mass(m, L[i][a]) / t], m1, t, i, a + 1)
  {
    forall j, b | 0 <= j < |L| && 0 <= b < |L[j]| && (j != i || b != a)
      ensures L[j][b] != L[i][a]
    {
      Apart(L, i, a, j, b);
    }
  }

  /**
   * The state normalize leaves under the masses m, with m0 those before it.
   * Every node with children has their summed mass. Every childless node has
   * its mass under m0 divided by total, where total is 1 without scaling.
   * With scaling, the coarsest level's masses sum to 1.
   */
  ghost predicate Balanced(L: seq<seq<TransportNode>>, k: map<TransportNode, seq<TransportNode>>, m: map<TransportNode, real>,
                           m0: map<TransportNode, real>, scaleMass: bool, total: real)
  {
    && (forall j, a :: 0 <= j < |L| && 0 <= a < |L[j]| && KidsOf(k, L[j][a]) != [] ==>
          Mass(m, L[j][a]) == MapSum(KidsOf(k, L[j][a]), m))
    && (forall j, a :: 0 <= j < |L| && 0 <= a < |L[j]| && KidsOf(k, L[j][a]) == [] ==>
          Mass(m, L[j][a]) * total == Mass(m0, L[j][a]))
    && (!scaleMass ==> total == 1.0)
    && (scaleMass ==> total > 0.0 && |L| > 0 && MapSum(L[0], m) == 1.0)
  }

  /** Without scaling, the corrected pass leaves the hierarchy balanced with total 1. */
  lemma PassBalanced(L: seq<seq<TransportNode>>, k: map<TransportNode, seq<TransportNode>>,
                     m: map<TransportNode, real>, m0: map<TransportNode, real>)
    requires SummedFrom(L, k, m, m0, 0, true)
    ensures Balanced(L, k, m, m0, false, 1.0)
  {
    forall j, a | 0 <= j < |L| && 0 <= a < |L[j]|
      ensures Summed(L[j][a], k, m, m0, true)
    {
    }
  }

  /**
   * Dividing every mass after the corrected pass by the coarsest level's sum
   * t keeps each sum of children, gives each leaf its old mass over t, and
   * makes the coarsest level sum to 1.
   */
  lemma ScaledBalanced(L: seq<seq<TransportNode>>, k: map<TransportNode, seq<TransportNode>>,
                       m1: map<TransportNode, real>, m2: map<TransportNode, real>, m0: map<TransportNode, real>, t: real)
    requires Layered(L, k) && |L| > 0 && t > 0.0
    requires SummedFrom(L, k, m1, m0, 0, true) && t == MapSum(L[0], m1)
    requires ScaledUpTo(L, m2, m1, t, |L|, 0)
    ensures Balanced(L, k, m2, m0, true, t)
  {
    forall j, a | 0 <= j < |L| && 0 <= a < |L[j]| && KidsOf(k, L[j][a]) != []
      ensures Mass(m2, L[j][a]) == MapSum(KidsOf(k, L[j][a]), m2)
    {
      var n := L[j][a];
      assert n in L[j];
      assert Summed(n, k, m1, m0, true);
      var kids := KidsOf(k, n);
      forall e | 0 <= e < |kids|
        ensures Mass(m2, kids[e]) == Mass(m1, kids[e]) / t
      {
        assert kids[e] in kids;
        assert kids[e] in L[j + 1];
        var b :| 0 <= b < |L[j + 1]| && L[j + 1][b] == kids[e];
      }
      MapSumScaled(kids, m1, m2, t);
    }
    forall j, a | 0 <= j < |L| && 0 <= a < |L[j]| && KidsOf(k, L[j][a]) == []
      ensures Mass(m2, L[j][a]) * t == Mass(m0, L[j][a])
    {
      assert Summed(L[j][a], k, m1, m0, true);
    }
    MapSumScaled(L[0], m1, m2, t);
    DivSelf(t);
  }

  lemma DivSelf(t: real)
    requires t != 0.0
    ensures t / t == 1.0
  {
    assert (t / t) * t == 1.0 * t;
  }

  /** The value a loop that assigns, rather than adds, each mass of a list ends with. */
  function LastMass(masses: seq<real>): real {
    if masses == [] then 0.0 else masses[|masses| - 1]
  }

  /** The sum of a list of masses. */
  function Total(masses: seq<real>): real {
    if masses == [] then 0.0 else Total(masses[..|masses| - 1]) + masses[|masses| - 1]
  }

  /** For a single root, the assigned and the summed total agree. */
  lemma SingleRootTotal(m: real)
    ensures LastMass([m]) == Total([m]) == m
  {
    assert [m][..0] == [];
  }

  /**
   * With two roots of masses 1 and 3 the assigned total is 3, not 4, so the
   * coarsest level would sum to 4/3 after the scaling instead of 1.
   */
  lemma AssignedTotalMissesRoots()
    ensures LastMass([1.0, 3.0]) == 3.0
    ensures Total([1.0, 3.0]) == 4.0
    ensures (1.0 / LastMass([1.0, 3.0])) + (3.0 / LastMass([1.0, 3.0])) != 1.0
  {
    assert [1.0, 3.0][..1] == [1.0];
    assert [1.0][..0] == [];
  }

  // ---------------------------------------------------------------------
  // Masses of a hierarchy, on the heap
  // ---------------------------------------------------------------------

  /** Every node of the levels. */
  ghost function AllNodes(levels: seq<Level>): set<TransportNode>
    reads levels
  {
    set i, a | 0 <= i < |levels| && 0 <= a < |levels[i].nodes| :: levels[i].nodes[a]
  }

  /** The node lists of the levels. */
  ghost function LevelNodes(levels: seq<Level>): (L: seq<seq<TransportNode>>)
    reads levels
    ensures |L| == |levels| && forall j :: 0 <= j < |levels| ==> L[j] == levels[j].nodes
  {
    seq(|levels|, j requires 0 <= j < |levels| reads levels => levels[j].nodes)
  }

  /** The children of every node of the levels. */
  ghost function KidsMap(levels: seq<Level>): map<TransportNode, seq<TransportNode>>
    reads levels, AllNodes(levels)`kids
  {
    map n | n in AllNodes(levels) :: n.kids
  }

  /** The mass of every node of the levels. */
  ghost function MassMap(levels: seq<Level>): map<TransportNode, real>
    reads levels, AllNodes(levels)`mass
  {
    map n | n in AllNodes(levels) :: n.mass
  }

  /** The levels of one hierarchy, coarsest first, form a layered hierarchy. */
  ghost predicate Hierarchy(levels: seq<Level>)
    reads levels, AllNodes(levels)`kids
  {
    Layered(LevelNodes(levels), KidsMap(levels))
  }

  /** Every childless node of the levels has positive mass. */
  ghost predicate PositiveLeaves(levels: seq<Level>)
    reads levels, AllNodes(levels)`kids, AllNodes(levels)`mass
  {
    LeavesPositive(LevelNodes(levels), KidsMap(levels), MassMap(levels))
  }

  /** The levels are in the state normalize leaves, with m0 the masses before it. */
  ghost predicate Normalized(levels: seq<Level>, m0: map<TransportNode, real>, scaleMass: bool, total: real)
    reads levels, AllNodes(levels)`kids, AllNodes(levels)`mass
  {
    Balanced(LevelNodes(levels), KidsMap(levels), MassMap(levels), m0, scaleMass, total)
  }

  /** A node of a level is one of the hierarchy's nodes. */
  lemma InAllNodes(levels: seq<Level>, i: int, a: int)
    requires 0 <= i < |levels| && 0 <= a < |levels[i].nodes|
    ensures levels[i].nodes[a] in AllNodes(levels)
  {
  }

  /** The children of node a of level i are nodes of level i + 1, so of the hierarchy. */
  lemma KidsListed(levels: seq<Level>, L: seq<seq<TransportNode>>, k: map<TransportNode, seq<TransportNode>>,
                   m: map<TransportNode, real>, i: int, a: int)
    requires Layered(L, k) && Mirrors(levels, L, k, m)
    requires 0 <= i < |levels| && 0 <= a < |levels[i].nodes|
    ensures levels[i].nodes[a] in AllNodes(levels)
    ensures levels[i].nodes[a].kids == KidsOf(k, levels[i].nodes[a]) && levels[i].nodes[a].mass == Mass(m, levels[i].nodes[a])
    ensures forall c :: c in levels[i].nodes[a].kids ==> c.mass == Mass(m, c)
  {
    var x := levels[i].nodes[a];
    InAllNodes(levels, i, a);
    assert x in L[i];
    forall c | c in x.kids
      ensures c.mass == Mass(m, c)
    {
      assert c in KidsOf(k, x);
      assert i < |L| - 1 && c in L[i + 1];
      var b :| 0 <= b < |levels[i + 1].nodes| && levels[i + 1].nodes[b] == c;
      InAllNodes(levels, i + 1, b);
    }
  }

  /** Two maps with the same keys and the same value at each key are equal. */
  lemma SameMap<V>(x: map<TransportNode, V>, y: map<TransportNode, V>)
    requires x.Keys == y.Keys && forall n :: n in x ==> x[n] == y[n]
    ensures x == y
  {
  }

  /** The summed mass of a list of nodes whose masses are those m records, in list order. */
  method SumMasses(nodes: seq<TransportNode>, ghost m: map<TransportNode, real>) returns (s: real)
    requires forall c :: c in nodes ==> c.mass == Mass(m, c)
    ensures s == MapSum(nodes, m)
  {
    s := 0.0;
    var k := 0;
    while k < |nodes|
      invariant 0 <= k <= |nodes|
      invariant s == MapSum(nodes[..k], m)
    {
      assert nodes[..k + 1][..k] == nodes[..k];
      assert nodes[k] in nodes;
      s := s + nodes[k].mass;
      k := k + 1;
    }
    assert nodes[..k] == nodes;
  }

  /** L, k and m are the node lists, the children and the masses of the levels. */
  ghost predicate Mirrors(levels: seq<Level>, L: seq<seq<TransportNode>>, k: map<TransportNode, seq<TransportNode>>,
                          m: map<TransportNode, real>)
    reads levels, AllNodes(levels)`kids, AllNodes(levels)`mass
  {
    L == LevelNodes(levels) && k == KidsMap(levels) && m == MassMap(levels)
  }

  /** Every node of the node lists L. */
  ghost function Flat(L: seq<seq<TransportNode>>): set<TransportNode>
  {
    set i, a | 0 <= i < |L| && 0 <= a < |L[i]| :: L[i][a]
  }

  /**
   * What Mirrors says, field by field: the levels list L, and every node of L
   * has the children k and the mass m record for it.
   */
  ghost predicate MirrorsEach(levels: seq<Level>, L: seq<seq<TransportNode>>, k: map<TransportNode, seq<TransportNode>>,
                              m: map<TransportNode, real>)
    reads levels, Flat(L)`kids, Flat(L)`mass
  {
    && |L| == |levels| && (forall j :: 0 <= j < |levels| ==> levels[j].nodes == L[j])
    && k.Keys == Flat(L) && m.Keys == Flat(L)
    && (forall n :: n in Flat(L) ==> n.kids == k[n] && n.mass == m[n])
  }

  lemma Unmirror(levels: seq<Level>, L: seq<seq<TransportNode>>, k: map<TransportNode, seq<TransportNode>>,
                 m: map<TransportNode, real>)
    requires Mirrors(levels, L, k, m)
    ensures MirrorsEach(levels, L, k, m)
  {
    FlatNodes(levels, L);
  }

  lemma Remirror(levels: seq<Level>, L: seq<seq<TransportNode>>, k: map<TransportNode, seq<TransportNode>>,
                 m: map<TransportNode, real>)
    requires MirrorsEach(levels, L, k, m)
    ensures Mirrors(levels, L, k, m)
  {
    assert L == LevelNodes(levels);
    FlatNodes(levels, L);
    SameMap(KidsMap(levels), k);
    SameMap(MassMap(levels), m);
  }

  /** The nodes of the levels are the nodes of lists equal to theirs. */
  lemma FlatNodes(levels: seq<Level>, L: seq<seq<TransportNode>>)
    requires L == LevelNodes(levels)
    ensures Flat(L) == AllNodes(levels)
  {
  }

  /** setMass on a node of the hierarchy: only that node's mass changes. */
  method SetNodeMass(levels: seq<Level>, ghost L: seq<seq<TransportNode>>, ghost k: map<TransportNode, seq<TransportNode>>,
                     ghost m: map<TransportNode, real>, x: TransportNode, v: real)
    requires Mirrors(levels, L, k, m) && x in AllNodes(levels)
    modifies x`mass
    ensures Mirrors(levels, L, k, m[x := v])
  {
    x.SetMass(v);
  }

  /**
   * The body of the inner loop of the pass for node a of level i: the summed
   * mass of its children, or, for a childless node when keepLeaves, its own.
   */
  method SumNode(levels: seq<Level>, ghost L: seq<seq<TransportNode>>, ghost k: map<TransportNode, seq<TransportNode>>,
                 ghost m: map<TransportNode, real>, i: int, a: int, keepLeaves: bool, ghost m0: map<TransportNode, real>)
    returns (ghost m': map<TransportNode, real>)
    requires Layered(L, k) && Mirrors(levels, L, k, m)
    requires 0 <= i < |levels| && 0 <= a < |levels[i].nodes|
    requires LevelDone(L, k, m, m0, i, a, keepLeaves)
    modifies AllNodes(levels)`mass
    ensures Mirrors(levels, L, k, m') && LevelDone(L, k, m', m0, i, a + 1, keepLeaves)
  {
    var x := levels[i].nodes[a];
    KidsListed(levels, L, k, m, i, a);
    var s := SumMasses(x.kids, m);
    if keepLeaves && x.kids == [] {
      s := x.mass;
    }
    SetNodeMass(levels, L, k, m, x, s);
    SumStep(L, k, m, m0, i, a, keepLeaves);
    m' := m[x := s];
  }

  /** One level of the bottom-up pass: each node of level i in list order. */
  method SumLevel(levels: seq<Level>, ghost L: seq<seq<TransportNode>>, ghost k: map<TransportNode, seq<TransportNode>>,
                  ghost m: map<TransportNode, real>, i: int, keepLeaves: bool, ghost m0: map<TransportNode, real>)
    returns (ghost m': map<TransportNode, real>)
    requires Layered(L, k) && Mirrors(levels, L, k, m) && 0 <= i < |levels|
    requires SummedFrom(L, k, m, m0, i + 1, keepLeaves) && KeptBelow(L, m, m0, i + 1)
    modifies AllNodes(levels)`mass
    ensures Mirrors(levels, L, k, m')
    ensures SummedFrom(L, k, m', m0, i, keepLeaves) && KeptBelow(L, m', m0, i)
  {
    var nodes := levels[i].nodes;
    m' := m;
    var a := 0;
    while a < |nodes|
      invariant 0 <= a <= |nodes| && Mirrors(levels, L, k, m')
      invariant LevelDone(L, k, m', m0, i, a, keepLeaves)
    {
      m' := SumNode(levels, L, k, m', i, a, keepLeaves, m0);
      a := a + 1;
    }
  }

  /**
   * The bottom-up pass of normalize, finest level first: afterwards every
   * node follows the rule of Summed against its mass m0 before the pass.
   */
  method SumPass(levels: seq<Level>, ghost L: seq<seq<TransportNode>>, ghost k: map<TransportNode, seq<TransportNode>>,
                 ghost m0: map<TransportNode, real>, keepLeaves: bool)
    returns (ghost m: map<TransportNode, real>)
    requires Layered(L, k) && Mirrors(levels, L, k, m0)
    modifies AllNodes(levels)`mass
    ensures Mirrors(levels, L, k, m) && SummedFrom(L, k, m, m0, 0, keepLeaves)
  {
    m := m0;
    var i := |levels|;
    while i > 0
      invariant 0 <= i <= |levels| && Mirrors(levels, L, k, m)
      invariant SummedFrom(L, k, m, m0, i, keepLeaves) && KeptBelow(L, m, m0, i)
    {
      m := SumLevel(levels, L, k, m, i - 1, keepLeaves, m0);
      i := i - 1;
    }
  }

  /** The bottom-up pass as the source writes it, where a childless node gets mass 0. */
  method SumPassAsWritten(levels: seq<Level>)
    requires Hierarchy(levels)
    modifies AllNodes(levels)`mass
    ensures SummedFrom(LevelNodes(levels), KidsMap(levels), MassMap(levels), old(MassMap(levels)), 0, false)
  {
    ghost var L, k, m0 := LevelNodes(levels), KidsMap(levels), MassMap(levels);
    ghost var m := SumPass(levels, L, k, m0, false);
  }

  /** One level of the scaling: each node of level i is divided by total. */
  method ScaleLevel(levels: seq<Level>, ghost L: seq<seq<TransportNode>>, ghost k: map<TransportNode, seq<TransportNode>>,
                    ghost m: map<TransportNode, real>, i: int, total: real, ghost m1: map<TransportNode, real>)
    returns (ghost m': map<TransportNode, real>)
    requires Distinct(L) && Mirrors(levels, L, k, m) && total != 0.0 && 0 <= i < |levels|
    requires ScaledUpTo(L, m, m1, total, i, 0)
    modifies AllNodes(levels)`mass
    ensures Mirrors(levels, L, k, m') && ScaledUpTo(L, m', m1, total, i + 1, 0)
  {
    var nodes := levels[i].nodes;
    m' := m;
    var a := 0;
    while a < |nodes|
      invariant 0 <= a <= |nodes| && Mirrors(levels, L, k, m')
      invariant ScaledUpTo(L, m', m1, total, i, a)
    {
      var x := nodes[a];
      InAllNodes(levels, i, a);
      var v := x.mass / total;
      SetNodeMass(levels, L, k, m', x, v);
      ScaleStep(L, m', m1, total, i, a);
      m' := m'[x := v];
      a := a + 1;
    }
  }

  /** The scaling pass of normalize: every node of every level is divided by total. */
  method ScalePass(levels: seq<Level>, ghost L: seq<seq<TransportNode>>, ghost k: map<TransportNode, seq<TransportNode>>,
                   ghost m1: map<TransportNode, real>, total: real)
    returns (ghost m: map<TransportNode, real>)
    requires Distinct(L) && Mirrors(levels, L, k, m1) && total != 0.0
    modifies AllNodes(levels)`mass
    ensures Mirrors(levels, L, k, m) && ScaledUpTo(L, m, m1, total, |levels|, 0)
  {
    m := m1;
    var i := 0;
    while i < |levels|
      invariant 0 <= i <= |levels| && Mirrors(levels, L, k, m)
      invariant ScaledUpTo(L, m, m1, total, i, 0)
    {
      m := ScaleLevel(levels, L, k, m, i, total, m1);
      i := i + 1;
    }
  }

  /** The total of normalize, summed over the coarsest level's nodes. */
  method RootTotal(levels: seq<Level>, ghost L: seq<seq<TransportNode>>, ghost k: map<TransportNode, seq<TransportNode>>,
                   ghost m: map<TransportNode, real>) returns (total: real)
    requires Mirrors(levels, L, k, m) && |levels| > 0
    ensures Mirrors(levels, L, k, m) && total == MapSum(L[0], m)
  {
    var nodes := levels[0].nodes;
    total := 0.0;
    var e := 0;
    while e < |nodes|
      invariant 0 <= e <= |nodes|
      invariant total == MapSum(nodes[..e], m)
    {
      assert nodes[..e + 1][..e] == nodes[..e];
      InAllNodes(levels, 0, e);
      total := total + nodes[e].mass;
      e := e + 1;
    }
    assert nodes[..e] == nodes;
  }

  /** The mass of the last node of a list: what a loop that assigns, rather than adds, each mass ends with. */
  function LastOf(nodes: seq<TransportNode>, m: map<TransportNode, real>): real {
    if nodes == [] then 0.0 else Mass(m, nodes[|nodes| - 1])
  }

  /** The total of normalize as the source writes it: each root's mass overwrites the previous one. */
  method RootTotalAsWritten(levels: seq<Level>, ghost L: seq<seq<TransportNode>>, ghost k: map<TransportNode, seq<TransportNode>>,
                            ghost m: map<TransportNode, real>) returns (total: real)
    requires Mirrors(levels, L, k, m) && |levels| > 0
    ensures total == LastOf(L[0], m)
  {
    var nodes := levels[0].nodes;
    total := 0.0;
    var e := 0;
    while e < |nodes|
      invariant 0 <= e <= |nodes|
      invariant total == LastOf(nodes[..e], m)
    {
      InAllNodes(levels, 0, e);
      total := nodes[e].mass;
      e := e + 1;
    }
    assert nodes[..e] == nodes;
  }

  /** A sum of non-negative masses is non-negative, and positive exactly when one of them is. */
  lemma {:induction false} MapSumSign(nodes: seq<TransportNode>, m: map<TransportNode, real>)
    requires forall i :: 0 <= i < |nodes| ==> Mass(m, nodes[i]) >= 0.0
    ensures MapSum(nodes, m) >= 0.0
    ensures MapSum(nodes, m) > 0.0 <==> exists i :: 0 <= i < |nodes| && Mass(m, nodes[i]) > 0.0
  {
    if nodes != [] {
      var front := nodes[..|nodes| - 1];
      assert forall i :: 0 <= i < |front| ==> front[i] == nodes[i];
      MapSumSign(front, m);
      if MapSum(front, m) > 0.0 {
        var i :| 0 <= i < |front| && Mass(m, front[i]) > 0.0;
        assert Mass(m, nodes[i]) > 0.0;
      }
    }
  }

  /**
   * For non-negative root masses, the assigned total never exceeds the
   * summed one, and falls short of it exactly when a root other than the
   * last carries mass.
   */
  lemma AssignedTotalShort(nodes: seq<TransportNode>, m: map<TransportNode, real>)
    requires forall i :: 0 <= i < |nodes| ==> Mass(m, nodes[i]) >= 0.0
    ensures LastOf(nodes, m) <= MapSum(nodes, m)
    ensures LastOf(nodes, m) < MapSum(nodes, m) <==> exists i :: 0 <= i < |nodes| - 1 && Mass(m, nodes[i]) > 0.0
  {
    if nodes != [] {
      var front := nodes[..|nodes| - 1];
      assert forall i :: 0 <= i < |front| ==> front[i] == nodes[i];
      MapSumSign(front, m);
      if exists i :: 0 <= i < |nodes| - 1 && Mass(m, nodes[i]) > 0.0 {
        var i :| 0 <= i < |nodes| - 1 && Mass(m, nodes[i]) > 0.0;
        assert Mass(m, front[i]) > 0.0;
      }
    }
  }

  /**
   * The scaling of normalize after the corrected pass: every node is divided
   * by the coarsest level's summed mass.
   */
  method ScaleHierarchy(levels: seq<Level>, ghost L: seq<seq<TransportNode>>, ghost k: map<TransportNode, seq<TransportNode>>,
                        ghost m1: map<TransportNode, real>, ghost m0: map<TransportNode, real>)
    returns (ghost total: real, ghost m2: map<TransportNode, real>)
    requires Layered(L, k) && Mirrors(levels, L, k, m1) && |levels| > 0 && |levels[0].nodes| > 0
    requires SummedFrom(L, k, m1, m0, 0, true) && LeavesPositive(L, k, m0)
    modifies AllNodes(levels)`mass
    ensures Mirrors(levels, L, k, m2) && Balanced(L, k, m2, m0, true, total)
  {
    PositiveFrom(L, k, m1, m0, 0);
    MapSumPositive(L[0], m1);
    var t := RootTotal(levels, L, k, m1);
    m2 := ScalePass(levels, L, k, m1, t);
    ScaledBalanced(L, k, m1, m2, m0, t);
    total := t;
  }

  /** What normalize leaves on one side: the total divided by, the node lists, children and masses. */
  datatype Normalization = Normalization(total: real, L: seq<seq<TransportNode>>, k: map<TransportNode, seq<TransportNode>>,
                                         m: map<TransportNode, real>)

  // ---------------------------------------------------------------------
  // The driver
  // ---------------------------------------------------------------------

  class MultiscaleTransport {
    var rootSource: Level?
    var rootTarget: Level?

    constructor ()
      ensures rootSource == null && rootTarget == null
    {
      rootSource := null;
      rootTarget := null;
    }

    function GetRootSource(): Level?
      reads this
    {
      rootSource
    }

    function GetRootTarget(): Level?
      reads this
    {
      rootTarget
    }

    /** getMeanRadius: the mean local node radius of the level; p is not used. */
    method GetMeanRadius(level: Level, p: real) returns (r: real)
      requires |level.nodes| > 0
      ensures r == MeanRadius(level)
    {
      var radius := 0.0;
      var i := 0;
      while i < |level.nodes|
        invariant 0 <= i <= |level.nodes|
        invariant radius == RadiusSum(level.nodes[..i])
      {
        assert level.nodes[..i + 1][..i] == level.nodes[..i];
        radius := radius + level.nodes[i].localRadius;
        i := i + 1;
      }
      assert level.nodes[..i] == level.nodes;
      r := radius / (|level.nodes| as real);
    }

    /**
     * The search of matchStartLevel on the side it advances: from level
     * start, whose mean radius is own, move finer while the gap to the
     * other side's mean radius does not grow, and never past the finest level.
     */
    method MatchStart(levels: seq<Level>, start: int, own: real, other: real, p: real) returns (j: int)
      requires 0 <= start < |levels| && Populated(levels)
      requires own == MeanRadius(levels[start])
      ensures FirstGrowth(levels, start, j, other)
    {
      var delta := own - other;
      var it := start + 1;
      while it != |levels|
        invariant start < it <= |levels|
        invariant delta == MeanRadius(levels[it - 1]) - other
        invariant forall i :: start < i < it ==> Closer(levels, i, other)
      {
        var r := GetMeanRadius(levels[it], p);
        var tmp := r - other;
        if Abs(tmp) > Abs(delta) {
          assert FirstGrowth(levels, start, it - 1, other);
          it := it - 1;
          break;
        } else {
          delta := tmp;
        }
        it := it + 1;
      }
      if it == |levels| {
        it := it - 1;
      }
      j := it;
    }

    /**
     * The scale loop from levels a of aLevels and b of bLevels. Call k
     * solves level min(a+k, |aLevels|-1) against min(b+k, |bLevels|-1):
     * a side at its end stays on its finest level. There are
     * max(|aLevels|-a, |bLevels|-b) calls, only the last one is flagged as
     * the last scale, the first gets no previous solutions and each later
     * one gets the result of the call before it. The primary plans of the
     * results are returned in call order.
     */
    method Walk<S, P>(aLevels: seq<Level>, bLevels: seq<Level>, a: int, b: int, step: Step<S>, primary: S -> P, p: real)
      returns (solutions: seq<P>, calls: seq<Call<S>>)
      requires 0 <= a < |aLevels| && 0 <= b < |bLevels|
      ensures |calls| == |solutions| == Max(|aLevels| - a, |bLevels| - b)
      ensures forall k :: 0 <= k < |calls| ==> Scheduled(aLevels, bLevels, a, b, step, p, calls, k, |calls|)
      ensures forall k :: 0 <= k < |calls| ==> solutions[k] == primary(calls[k].result)
    {
      var nA, nB := |aLevels|, |bLevels|;
      ghost var n := Max(nA - a, nB - b);
      var itA, itB := a, b;
      var A, B := aLevels[itA], bLevels[itB];
      var prevSol: Option<S> := None;
      solutions, calls := [], [];
      while itA != nA || itB != nB
        invariant |calls| == |solutions| <= n
        invariant itA == Min(a + |calls|, nA) && itB == Min(b + |calls|, nB)
        invariant (itA != nA || itB != nB) <==> |calls| < n
        invariant A == aLevels[Min(a + |calls|, nA - 1)] && B == bLevels[Min(b + |calls|, nB - 1)]
        invariant prevSol == if |calls| == 0 then None else Some(calls[|calls| - 1].result)
        invariant forall k :: 0 <= k < |calls| ==> Scheduled(aLevels, bLevels, a, b, step, p, calls, k, n)
        invariant forall k :: 0 <= k < |calls| ==> solutions[k] == primary(calls[k].result)
        decreases n - |calls|
      {
        var lastScale := false;
        if itA == nA {
          lastScale := itB + 1 == nB;
        } else if itB == nB {
          lastScale := itA + 1 == nA;
        } else {
          lastScale := itA + 1 == nA;
          lastScale := lastScale && itB + 1 == nB;
        }
        var sol := step(A, B, prevSol, p, lastScale);
        var call := Call(A, B, prevSol, lastScale, sol);
        assert Scheduled(aLevels, bLevels, a, b, step, p, calls + [call], |calls|, n);
        ScheduleExtends(aLevels, bLevels, a, b, step, p, calls, call, n);
        calls := calls + [call];
        solutions := solutions + [primary(sol)];
        prevSol := Some(sol);
        if itA != nA {
          itA := itA + 1;
        }
        if itA != nA {
          A := aLevels[itA];
        }
        if itB != nB {
          itB := itB + 1;
        }
        if itB != nB {
          B := bLevels[itB];
        }
      }
    }

    /**
     * normalize, with the leaf case restored and the coarsest level summed:
     * the bottom-up pass gives each node with children their summed mass
     * and leaves the childless nodes theirs; with scaleMass, every node is
     * then divided by the summed mass of the coarsest level.
     */
    method Normalize(levels: seq<Level>, scaleMass: bool)
      returns (ghost total: real, ghost L: seq<seq<TransportNode>>, ghost k: map<TransportNode, seq<TransportNode>>,
               ghost m: map<TransportNode, real>)
      requires Hierarchy(levels) && |levels| > 0
      requires scaleMass ==> PositiveLeaves(levels) && |levels[0].nodes| > 0
      modifies AllNodes(levels)`mass
      ensures Mirrors(levels, L, k, m) && Balanced(L, k, m, old(MassMap(levels)), scaleMass, total)
      ensures L == old(LevelNodes(levels))
    {
      ghost var m0;
      L, k, m0 := LevelNodes(levels), KidsMap(levels), MassMap(levels);
      m := SumPass(levels, L, k, m0, true);
      if scaleMass {
        total, m := ScaleHierarchy(levels, L, k, m, m0);
      } else {
        total := 1.0;
        PassBalanced(L, k, m, m0);
      }
    }

    /**
     * solve: normalise both hierarchies, clamp the requested numbers of
     * scales to start levels (a, b), optionally move the side with the
     * larger mean radius to the level whose radius is closest to the other
     * side's, then run the scale loop from there. The roots are the first
     * levels of the lists.
     */
    method Solve<S, P>(aLevels: seq<Level>, bLevels: seq<Level>, step: Step<S>, primary: S -> P,
                       p: real := 1.0, nScales1: int := -1, nScales2: int := -1,
                       matchStartLevel: bool := false, scaleMass: bool := true)
      returns (solutions: seq<P>, ghost calls: seq<Call<S>>, ghost a: int, ghost b: int,
               ghost A: Normalization, ghost B: Normalization)
      requires |aLevels| > 0 && |bLevels| > 0 && Hierarchy(aLevels) && Hierarchy(bLevels)
      requires AllNodes(aLevels) !! AllNodes(bLevels)
      requires scaleMass ==> PositiveLeaves(aLevels) && PositiveLeaves(bLevels)
      requires scaleMass ==> |aLevels[0].nodes| > 0 && |bLevels[0].nodes| > 0
      requires matchStartLevel ==> Populated(aLevels) && Populated(bLevels)
      modifies this`rootSource, this`rootTarget, AllNodes(aLevels)`mass, AllNodes(bLevels)`mass
      ensures rootSource == aLevels[0] && rootTarget == bLevels[0]
      ensures Mirrors(aLevels, A.L, A.k, A.m) && Balanced(A.L, A.k, A.m, old(MassMap(aLevels)), scaleMass, A.total)
      ensures Mirrors(bLevels, B.L, B.k, B.m) && Balanced(B.L, B.k, B.m, old(MassMap(bLevels)), scaleMass, B.total)
      ensures matchStartLevel ==> Populated(aLevels) && Populated(bLevels)
      ensures var sa, sb := StartLevel(nScales1, |aLevels|), StartLevel(nScales2, |bLevels|);
        && (!matchStartLevel ==> a == sa && b == sb)
        && (matchStartLevel && MeanRadius(aLevels[sa]) - MeanRadius(bLevels[sb]) > 0.0 ==>
              b == sb && FirstGrowth(aLevels, sa, a, MeanRadius(bLevels[sb])))
        && (matchStartLevel && MeanRadius(aLevels[sa]) - MeanRadius(bLevels[sb]) <= 0.0 ==>
              a == sa && FirstGrowth(bLevels, sb, b, MeanRadius(aLevels[sa])))
      ensures 0 <= a < |aLevels| && 0 <= b < |bLevels|
      ensures |calls| == |solutions| == Max(|aLevels| - a, |bLevels| - b)
      ensures forall k :: 0 <= k < |calls| ==> Scheduled(aLevels, bLevels, a, b, step, p, calls, k, |calls|)
      ensures forall k :: 0 <= k < |calls| ==> solutions[k] == primary(calls[k].result)
    {
      var sa, sb;
      sa, sb, A, B := Prepare(aLevels, bLevels, nScales1, nScales2, scaleMass);
      var itA, itB;
      solutions, calls, itA, itB := Run(aLevels, bLevels, sa, sb, matchStartLevel, step, primary, p, A, B);
      a, b := itA, itB;
      Remirror(aLevels, A.L, A.k, A.m);
      Remirror(bLevels, B.L, B.k, B.m);
    }

    /**
     * The start levels of solve: (sa, sb) as clamped, or with
     * matchStartLevel the side with the larger mean radius moved on
     * (the second side on a tie).
     */
    method StartAt(aLevels: seq<Level>, bLevels: seq<Level>, sa: int, sb: int, matchStartLevel: bool, p: real)
      returns (a: int, b: int)
      requires 0 <= sa < |aLevels| && 0 <= sb < |bLevels|
      requires matchStartLevel ==> Populated(aLevels) && Populated(bLevels)
      ensures 0 <= a < |aLevels| && 0 <= b < |bLevels|
      ensures !matchStartLevel ==> a == sa && b == sb
      ensures matchStartLevel && MeanRadius(aLevels[sa]) - MeanRadius(bLevels[sb]) > 0.0 ==>
        b == sb && FirstGrowth(aLevels, sa, a, MeanRadius(bLevels[sb]))
      ensures matchStartLevel && MeanRadius(aLevels[sa]) - MeanRadius(bLevels[sb]) <= 0.0 ==>
        a == sa && FirstGrowth(bLevels, sb, b, MeanRadius(aLevels[sa]))
    {
      a, b := sa, sb;
      if matchStartLevel {
        var rA := GetMeanRadius(aLevels[sa], p);
        var rB := GetMeanRadius(bLevels[sb], p);
        var delta := rA - rB;
        if delta > 0.0 {
          a := MatchStart(aLevels, sa, rA, rB, p);
        } else {
          b := MatchStart(bLevels, sb, rB, rA, p);
        }
      }
    }

    /**
     * The second part of solve: pick the start levels and walk the scales.
     * Neither reads nor writes a mass.
     */
    method Run<S, P>(aLevels: seq<Level>, bLevels: seq<Level>, sa: int, sb: int, matchStartLevel: bool,
                     step: Step<S>, primary: S -> P, p: real, ghost A: Normalization, ghost B: Normalization)
      returns (solutions: seq<P>, ghost calls: seq<Call<S>>, a: int, b: int)
      requires 0 <= sa < |aLevels| && 0 <= sb < |bLevels|
      requires matchStartLevel ==> Populated(aLevels) && Populated(bLevels)
      requires MirrorsEach(aLevels, A.L, A.k, A.m) && MirrorsEach(bLevels, B.L, B.k, B.m)
      ensures MirrorsEach(aLevels, A.L, A.k, A.m) && MirrorsEach(bLevels, B.L, B.k, B.m)
      ensures 0 <= a < |aLevels| && 0 <= b < |bLevels|
      ensures !matchStartLevel ==> a == sa && b == sb
      ensures matchStartLevel && MeanRadius(aLevels[sa]) - MeanRadius(bLevels[sb]) > 0.0 ==>
        b == sb && FirstGrowth(aLevels, sa, a, MeanRadius(bLevels[sb]))
      ensures matchStartLevel && MeanRadius(aLevels[sa]) - MeanRadius(bLevels[sb]) <= 0.0 ==>
        a == sa && FirstGrowth(bLevels, sb, b, MeanRadius(aLevels[sa]))
      ensures |calls| == |solutions| == Max(|aLevels| - a, |bLevels| - b)
      ensures forall k :: 0 <= k < |calls| ==> Scheduled(aLevels, bLevels, a, b, step, p, calls, k, |calls|)
      ensures forall k :: 0 <= k < |calls| ==> solutions[k] == primary(calls[k].result)
    {
      a, b := StartAt(aLevels, bLevels, sa, sb, matchStartLevel, p);
      var c;
      solutions, c := Walk(aLevels, bLevels, a, b, step, primary, p);
      calls := c;
    }

    /** normalize on one hierarchy leaves the node lists, children and masses of a disjoint one as they were. */
    method NormalizeBeside(levels: seq<Level>, other: seq<Level>, scaleMass: bool)
      returns (ghost total: real, ghost L: seq<seq<TransportNode>>, ghost k: map<TransportNode, seq<TransportNode>>,
               ghost m: map<TransportNode, real>)
      requires Hierarchy(levels) && |levels| > 0
      requires scaleMass ==> PositiveLeaves(levels) && |levels[0].nodes| > 0
      requires AllNodes(levels) !! AllNodes(other)
      modifies AllNodes(levels)`mass
      ensures Mirrors(levels, L, k, m) && Balanced(L, k, m, old(MassMap(levels)), scaleMass, total)
      ensures L == old(LevelNodes(levels))
      ensures LevelNodes(other) == old(LevelNodes(other)) && KidsMap(other) == old(KidsMap(other))
      ensures MassMap(other) == old(MassMap(other))
    {
      ghost var Lo, ko, mo := LevelNodes(other), KidsMap(other), MassMap(other);
      total, L, k, m := Normalize(levels, scaleMass);
      assert forall j :: 0 <= j < |other| ==> other[j].nodes == old(other[j].nodes);
      assert LevelNodes(other) == Lo;
      assert AllNodes(other) == old(AllNodes(other));
      assert forall n :: n in AllNodes(other) ==> n.kids == ko[n] && n.mass == mo[n];
      SameMap(KidsMap(other), ko);
      SameMap(MassMap(other), mo);
    }

    /** rootSource and rootTarget become the first levels; no mass changes. */
    method SetRoots(aLevels: seq<Level>, bLevels: seq<Level>, ghost A: Normalization, ghost B: Normalization)
      requires |aLevels| > 0 && |bLevels| > 0
      requires Mirrors(aLevels, A.L, A.k, A.m) && Mirrors(bLevels, B.L, B.k, B.m)
      modifies this`rootSource, this`rootTarget
      ensures rootSource == aLevels[0] && rootTarget == bLevels[0]
      ensures MirrorsEach(aLevels, A.L, A.k, A.m) && MirrorsEach(bLevels, B.L, B.k, B.m)
    {
      Unmirror(aLevels, A.L, A.k, A.m);
      Unmirror(bLevels, B.L, B.k, B.m);
      rootSource := aLevels[0];
      rootTarget := bLevels[0];
    }

    /** The first part of solve: clamp the numbers of scales and normalise both hierarchies. */
    method Prepare(aLevels: seq<Level>, bLevels: seq<Level>, nScales1: int, nScales2: int, scaleMass: bool)
      returns (sa: int, sb: int, ghost A: Normalization, ghost B: Normalization)
      requires |aLevels| > 0 && |bLevels| > 0 && Hierarchy(aLevels) && Hierarchy(bLevels)
      requires AllNodes(aLevels) !! AllNodes(bLevels)
      requires scaleMass ==> PositiveLeaves(aLevels) && PositiveLeaves(bLevels)
      requires scaleMass ==> |aLevels[0].nodes| > 0 && |bLevels[0].nodes| > 0
      modifies this`rootSource, this`rootTarget, AllNodes(aLevels)`mass, AllNodes(bLevels)`mass
      ensures sa == StartLevel(nScales1, |aLevels|) && sb == StartLevel(nScales2, |bLevels|)
      ensures rootSource == aLevels[0] && rootTarget == bLevels[0]
      ensures MirrorsEach(aLevels, A.L, A.k, A.m) && Balanced(A.L, A.k, A.m, old(MassMap(aLevels)), scaleMass, A.total)
      ensures MirrorsEach(bLevels, B.L, B.k, B.m) && Balanced(B.L, B.k, B.m, old(MassMap(bLevels)), scaleMass, B.total)
      ensures A.L == old(LevelNodes(aLevels)) && B.L == old(LevelNodes(bLevels))
    {
      var n1, n2 := nScales1, nScales2;
      if n1 < 0 || n1 >= |aLevels| {
        n1 := |aLevels| - 1;
      }
      if n2 < 0 || n2 >= |bLevels| {
        n2 := |bLevels| - 1;
      }
      ghost var tA, LA, kA, mA := NormalizeBeside(aLevels, bLevels, scaleMass);
      ghost var tB, LB, kB, mB := NormalizeBeside(bLevels, aLevels, scaleMass);
      A, B := Normalization(tA, LA, kA, mA), Normalization(tB, LB, kB, mB);
      SetRoots(aLevels, bLevels, A, B);
      sa := |aLevels| - 1 - n1;
      sb := |bLevels| - 1 - n2;
    }
  }
}
