/**
 * TransportNode: one node of a multiscale hierarchy, with its mass, its
 * potential (the dual value of its LP row), the bounds piMin/piMax on the
 * potentials below it, its children and parent, and a lazily computed
 * transport-cost radius.
 *
 * The geometry of a node belongs to the concrete node type: its transport
 * cost to another node is a function given to the operations that need it,
 * and its node radius and local radius are fixed when the node is built.
 */
module Nodes {

  /** std::numeric_limits<double>::max(), the largest finite double. */
  const MaxDouble: real := 179769313486231570814527423731704356798070567525844996598917476803157260780028538760589558632766878171540458953514382464234321326889464182768467546703537516986049910576551282076245490090389328944075868508455133942304583236903222948165808559332123348274797826204144723168738177180919299881250404026184124858368.0

  /** getTransportCost(other, p) of the concrete node type. */
  type CostFunction = (TransportNode, TransportNode, real) -> real

  class TransportNode {
    /** getID(), getScale(). */
    const id: int
    const scale: int
    /** getNodeRadius() and getLocalNodeRadius() of the concrete node type. */
    const nodeRadius: real
    const localRadius: real

    var piMax: real
    var piMin: real
    var potential: real
    var mass: real
    var kids: seq<TransportNode>
    var parent: TransportNode?
    /** The cached transport-cost radius; negative until first computed. */
    var radius: real

    /** A new node has empty potential bounds, mass -1, no parent and no cached radius. */
    constructor (nodeID: int, sca: int, nodeRad: real, localRad: real)
      ensures id == nodeID && scale == sca && nodeRadius == nodeRad && localRadius == localRad
      ensures piMin == MaxDouble && piMax == -MaxDouble
      ensures mass == -1.0 && parent == null && radius == -1.0 && kids == []
    {
      id := nodeID;
      scale := sca;
      nodeRadius := nodeRad;
      localRadius := localRad;
      piMin := MaxDouble;
      piMax := -MaxDouble;
      mass := -1.0;
      parent := null;
      radius := -1.0;
      kids := [];
      potential := 0.0;
    }

    method SetMass(m: real)
      modifies this`mass
      ensures mass == m
    {
      mass := m;
    }

    /** addChild appends, so getChildren lists the children in insertion order. */
    method AddChild(node: TransportNode)
      modifies this`kids
      ensures kids == old(kids) + [node]
    {
      kids := kids + [node];
    }

    method SetParent(p: TransportNode?)
      modifies this`parent
      ensures parent == p
    {
      parent := p;
    }

    method SetPotential(p: real)
      modifies this`potential
      ensures potential == p
    {
      potential := p;
    }

    /**
     * resetPi sets both bounds exactly; its default arguments restore the
     * empty bounds of a new node.
     */
    method ResetPi(piMi: real := MaxDouble, piMa: real := -MaxDouble)
      modifies this`piMin, this`piMax
      ensures piMin == piMi && piMax == piMa
    {
      piMin := piMi;
      piMax := piMa;
    }

    /** setPiMin lowers the lower bound to pi when pi is smaller. */
    method SetPiMin(pi: real)
      modifies this`piMin
      ensures piMin == if old(piMin) > pi then pi else old(piMin)
      ensures piMin <= old(piMin) && piMin <= pi
    {
      if piMin > pi {
        piMin := pi;
      }
    }

    /** setPiMax raises the upper bound to pi when pi is larger. */
    method SetPiMax(pi: real)
      modifies this`piMax
      ensures piMax == if old(piMax) < pi then pi else old(piMax)
      ensures piMax >= old(piMax) && piMax >= pi
    {
      if piMax < pi {
        piMax := pi;
      }
    }

    /**
     * getTransportCostRadius: the first call caches the largest transport
     * cost to a child (0 when there is none larger); every later call returns
     * the cached value, even when children were added in between.
     */
    method GetTransportCostRadius(cost: CostFunction, p: real) returns (r: real)
      modifies this`radius
      ensures old(radius) >= 0.0 ==> r == old(radius)
      ensures old(radius) < 0.0 ==> r == CostRadius(this, kids, cost, p)
      ensures radius == r
    {
      if radius < 0.0 {
        radius := 0.0;
        var i := 0;
        while i < |kids|
          invariant 0 <= i <= |kids|
          invariant radius == CostRadius(this, kids[..i], cost, p)
        {
          assert kids[..i + 1][..i] == kids[..i];
          var d := cost(this, kids[i], p);
          if d > radius {
            radius := d;
          }
          i := i + 1;
        }
        assert kids[..i] == kids;
      }
      r := radius;
    }

    /**
     * getAverageTransportCost: the mean transport cost over all pairs of a
     * child of this node and a child of other.
     */
    method GetAverageTransportCost(other: TransportNode, cost: CostFunction, p: real) returns (avg: real)
      requires |kids| > 0 && |other.kids| > 0
      ensures avg == PairSum(kids, other.kids, cost, p) / ((|kids| * |other.kids|) as real)
    {
      var sum := 0.0;
      var i := 0;
      while i < |kids|
        invariant 0 <= i <= |kids|
        invariant sum == PairSum(kids[..i], other.kids, cost, p)
      {
        assert kids[..i + 1][..i] == kids[..i];
        var row := RowCost(kids[i], other.kids, cost, p);
        sum := sum + row;
        i := i + 1;
      }
      assert kids[..i] == kids;
      avg := sum / ((|kids| * |other.kids|) as real);
    }
  }

  /** The inner loop of getAverageTransportCost: the summed cost from a to each of bs. */
  method RowCost(a: TransportNode, bs: seq<TransportNode>, cost: CostFunction, p: real) returns (sum: real)
    ensures sum == RowSum(a, bs, cost, p)
  {
    sum := 0.0;
    var j := 0;
    while j < |bs|
      invariant 0 <= j <= |bs|
      invariant sum == RowSum(a, bs[..j], cost, p)
    {
      assert bs[..j + 1][..j] == bs[..j];
      sum := sum + cost(a, bs[j], p);
      j := j + 1;
    }
    assert bs[..j] == bs;
  }

  /** The running maximum of the costs from `from` to each of kids, starting at 0. */
  function CostRadius(from: TransportNode, kids: seq<TransportNode>, cost: CostFunction, p: real): real
  {
    if kids == [] then 0.0
    else
      var r := CostRadius(from, kids[..|kids| - 1], cost, p);
      var d := cost(from, kids[|kids| - 1], p);
      if d > r then d else r
  }

  /** The cost radius is max(0, largest cost to a child). */
  lemma {:induction false} CostRadiusIsMax(from: TransportNode, kids: seq<TransportNode>, cost: CostFunction, p: real)
    ensures CostRadius(from, kids, cost, p) >= 0.0
    ensures forall i :: 0 <= i < |kids| ==> cost(from, kids[i], p) <= CostRadius(from, kids, cost, p)
    ensures CostRadius(from, kids, cost, p) == 0.0
         || exists i :: 0 <= i < |kids| && CostRadius(from, kids, cost, p) == cost(from, kids[i], p)
  {
    if kids != [] {
      var front := kids[..|kids| - 1];
      CostRadiusIsMax(from, front, cost, p);
      forall i | 0 <= i < |kids| - 1
        ensures kids[i] == front[i]
      {
      }
    }
  }

  /** The summed cost from a to each node of bs. */
  function RowSum(a: TransportNode, bs: seq<TransportNode>, cost: CostFunction, p: real): real
  {
    if bs == [] then 0.0 else RowSum(a, bs[..|bs| - 1], cost, p) + cost(a, bs[|bs| - 1], p)
  }

  /** The summed cost over all pairs (fs[i], bs[j]). */
  function PairSum(fs: seq<TransportNode>, bs: seq<TransportNode>, cost: CostFunction, p: real): real
  {
    if fs == [] then 0.0 else PairSum(fs[..|fs| - 1], bs, cost, p) + RowSum(fs[|fs| - 1], bs, cost, p)
  }

  lemma {:induction false} RowSumBounded(a: TransportNode, bs: seq<TransportNode>, cost: CostFunction, p: real, lo: real, hi: real)
    requires forall j :: 0 <= j < |bs| ==> lo <= cost(a, bs[j], p) <= hi
    ensures (|bs| as real) * lo <= RowSum(a, bs, cost, p) <= (|bs| as real) * hi
  {
    if bs != [] {
      var front := bs[..|bs| - 1];
      assert forall j :: 0 <= j < |front| ==> front[j] == bs[j];
      RowSumBounded(a, front, cost, p, lo, hi);
    }
  }

  lemma {:induction false} PairSumBounded(fs: seq<TransportNode>, bs: seq<TransportNode>, cost: CostFunction, p: real, lo: real, hi: real)
    requires forall i, j :: 0 <= i < |fs| && 0 <= j < |bs| ==> lo <= cost(fs[i], bs[j], p) <= hi
    ensures (|fs| as real) * (|bs| as real) * lo <= PairSum(fs, bs, cost, p) <= (|fs| as real) * (|bs| as real) * hi
  {
    if fs != [] {
      var n := |fs| - 1;
      var front := fs[..n];
      var a, b := PairSum(front, bs, cost, p), RowSum(fs[n], bs, cost, p);
      assert (n as real) * (|bs| as real) * lo <= a <= (n as real) * (|bs| as real) * hi by {
        assert forall i :: 0 <= i < |front| ==> front[i] == fs[i];
        PairSumBounded(front, bs, cost, p, lo, hi);
      }
      assert (|bs| as real) * lo <= b <= (|bs| as real) * hi by {
        RowSumBounded(fs[n], bs, cost, p, lo, hi);
      }
      assert PairSum(fs, bs, cost, p) == a + b;
      ProductStep(n as real, |bs| as real, lo, hi, a, b);
      assert (n as real) + 1.0 == |fs| as real;
    }
  }

  /** Adding one more row of m bounded costs to n rows. */
  lemma ProductStep(n: real, m: real, lo: real, hi: real, a: real, b: real)
    requires n * m * lo <= a <= n * m * hi
    requires m * lo <= b <= m * hi
    ensures (n + 1.0) * m * lo <= a + b <= (n + 1.0) * m * hi
  {
    assert (n + 1.0) * m * lo == n * m * lo + m * lo;
    assert (n + 1.0) * m * hi == n * m * hi + m * hi;
  }

  /** Dividing by a positive count keeps a sum's bounds per element. */
  lemma DivideBounds(s: real, n: real, lo: real, hi: real)
    requires n > 0.0 && n * lo <= s <= n * hi
    ensures lo <= s / n <= hi
  {
    var q := s / n;
    assert q * n == s;
  }

  /**
   * The average transport cost lies between the smallest and the largest
   * cost of a child pair; in particular, equal pair costs give that cost.
   */
  lemma AverageWithinPairCosts(fs: seq<TransportNode>, bs: seq<TransportNode>, cost: CostFunction, p: real, lo: real, hi: real)
    requires |fs| > 0 && |bs| > 0
    requires forall i, j :: 0 <= i < |fs| && 0 <= j < |bs| ==> lo <= cost(fs[i], bs[j], p) <= hi
    ensures lo <= PairSum(fs, bs, cost, p) / ((|fs| * |bs|) as real) <= hi
  {
    PairSumBounded(fs, bs, cost, p, lo, hi);
    var nm := (|fs| * |bs|) as real;
    assert nm == (|fs| as real) * (|bs| as real);
    DivideBounds(PairSum(fs, bs, cost, p), nm, lo, hi);
  }
}
