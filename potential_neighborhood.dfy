/**
 * PotentialNeighborhoodStrategy: replace the primary plan by a new plan
 * made of the arcs whose reduced cost may be small, found by a search down
 * the target hierarchy that prunes with potential bounds.
 *
 * A pass sets the node potentials from the duals of the last solve and
 * gives every node above a level the bounds [piMin, piMax] of the
 * potentials below it (potentialBounds). Then, for each source node, a
 * queue search walks the target hierarchy from its roots: a node whose
 * lower bound on the reduced cost is within the threshold is expanded
 * into its children, or, on the target level, recorded as an arc. The
 * search stops after the first source node that leaves more than
 * nExpansionAdd arcs. The new plan holds those arcs and the arcs of the
 * old plan that were BASIC in the last solve (all arcs of the old plan
 * when expandPotential is set); its LP starts from BASIC on the latter and
 * the row basis of the last solve, is solved and stored.
 */
module PotentialNeighborhood {
  import opened Nodes
  import opened Levels
  import opened Plans
  import opened LPSolver
  import opened Lemon
  import opened TransportSolver
  import opened StrategyLP
  import NS = NeighborhoodStrategy
  import RN = RefineNeighborhood

  /** ReducedCostPath: an arc of the search with its reduced cost. */
  datatype ReducedCostPath = ReducedCostPath(path: Path, reducedCost: real)

  /** ReducedCostPath::operator==. */
  function RcEqual(a: ReducedCostPath, b: ReducedCostPath): bool {
    a.reducedCost == b.reducedCost
  }

  /** ReducedCostPath::operator<. */
  function RcLess(a: ReducedCostPath, b: ReducedCostPath): bool {
    a.reducedCost < b.reducedCost
  }

  /** ReducedCostPath::operator>. */
  function RcGreater(a: ReducedCostPath, b: ReducedCostPath): bool {
    a.reducedCost > b.reducedCost
  }

  /**
   * The comparison operators look at the reduced cost alone: two entries
   * for different arcs with the same reduced cost are equal, < is a strict
   * order with > as its converse, and exactly one of <, == and > holds.
   */
  lemma RcOrder(a: ReducedCostPath, b: ReducedCostPath, c: ReducedCostPath)
    ensures RcEqual(a, b) <==> a.reducedCost == b.reducedCost
    ensures RcEqual(a, a.(path := b.path))
    ensures RcGreater(a, b) <==> RcLess(b, a)
    ensures !RcLess(a, a)
    ensures RcLess(a, b) && RcLess(b, c) ==> RcLess(a, c)
    ensures RcLess(a, b) || RcEqual(a, b) || RcGreater(a, b)
    ensures !(RcLess(a, b) && RcEqual(a, b)) && !(RcLess(a, b) && RcGreater(a, b)) && !(RcEqual(a, b) && RcGreater(a, b))
  {
  }

  /** std::min as setPiMin applies it: the second argument when it is smaller. */
  function Min(a: real, b: real): real {
    if a > b then b else a
  }

  // ---------------------------------------------------------------------
  // potentialBounds
  // ---------------------------------------------------------------------

  /** The nodes of a hierarchy: it holds the children of its nodes, one scale further down. */
  ghost predicate Layered(U: set<TransportNode>)
    reads U`kids
  {
    forall n, m :: n in U && m in n.kids ==> m in U && m.scale == n.scale + 1
  }

  /** The bounds of the nodes at scale stop, recorded in L; potentialBounds never changes them. */
  ghost predicate Leaves(U: set<TransportNode>, L: map<TransportNode, (real, real)>, stop: int)
    reads U`piMin, U`piMax
  {
    forall n :: n in U && n.scale == stop ==> n in L && L[n] == (n.piMin, n.piMax)
  }

  /** The nodes of U from scale lo up to, not including, scale hi. */
  ghost function Band(U: set<TransportNode>, lo: int, hi: int): set<TransportNode> {
    set n | n in U && lo <= n.scale < hi
  }

  /**
   * The upper bound potentialBounds gives a node k scales above the stop
   * scale: the recorded piMax of a node on the stop scale; above it, the
   * largest upper bound of its children, starting from resetPi's -MaxDouble.
   */
  ghost function High(n: TransportNode, k: nat, U: set<TransportNode>, L: map<TransportNode, (real, real)>): real
    requires n in U && Layered(U)
    reads U`kids
    decreases k, 0
  {
    if k == 0 then (if n in L then L[n].1 else -MaxDouble) else HighOf(n.kids, k - 1, U, L)
  }

  /** setPiMax applied to the upper bounds of ns in order, after resetPi. */
  ghost function HighOf(ns: seq<TransportNode>, k: nat, U: set<TransportNode>, L: map<TransportNode, (real, real)>): real
    requires (forall m :: m in ns ==> m in U) && Layered(U)
    reads U`kids
    decreases k, 1, |ns|
  {
    if ns == [] then -MaxDouble else Max(HighOf(ns[..|ns| - 1], k, U, L), High(ns[|ns| - 1], k, U, L))
  }

  /** The lower bound: the recorded piMin on the stop scale, the least of the children's above it, from MaxDouble. */
  ghost function Low(n: TransportNode, k: nat, U: set<TransportNode>, L: map<TransportNode, (real, real)>): real
    requires n in U && Layered(U)
    reads U`kids
    decreases k, 0
  {
    if k == 0 then (if n in L then L[n].0 else MaxDouble) else LowOf(n.kids, k - 1, U, L)
  }

  /** setPiMin applied to the lower bounds of ns in order, after resetPi. */
  ghost function LowOf(ns: seq<TransportNode>, k: nat, U: set<TransportNode>, L: map<TransportNode, (real, real)>): real
    requires (forall m :: m in ns ==> m in U) && Layered(U)
    reads U`kids
    decreases k, 1, |ns|
  {
    if ns == [] then MaxDouble else Min(LowOf(ns[..|ns| - 1], k, U, L), Low(ns[|ns| - 1], k, U, L))
  }

  /**
   * potentialBounds(node, currentScale, stopScale): a node on the stop
   * scale is left alone; any other node is reset and, after its children
   * have been given their bounds, takes the largest of their upper bounds
   * and the least of their lower bounds. Only nodes from currentScale to
   * above stopScale change, and of those on currentScale only node.
   */
  method PotentialBounds(node: TransportNode, currentScale: int, stopScale: int,
                         ghost U: set<TransportNode>, ghost L: map<TransportNode, (real, real)>)
    requires node in U && Layered(U) && node.scale == currentScale && currentScale <= stopScale
    requires Leaves(U, L, stopScale)
    modifies Band(U, currentScale, stopScale)`piMin, Band(U, currentScale, stopScale)`piMax
    ensures node.piMax == High(node, stopScale - currentScale, U, L)
    ensures node.piMin == Low(node, stopScale - currentScale, U, L)
    ensures forall n :: n in U && n.scale == currentScale && n != node ==> n.piMin == old(n.piMin) && n.piMax == old(n.piMax)
    ensures forall n :: n in U && n.scale >= stopScale ==> n.piMin == old(n.piMin) && n.piMax == old(n.piMax)
    decreases stopScale - currentScale, 0
  {
    if currentScale == stopScale {
      return;
    }
    node.ResetPi();
    var kids := node.kids;
    BoundAll(kids, currentScale + 1, stopScale, U, L);
    Gather(node, kids, stopScale - currentScale - 1, U, L);
  }

  /**
   * The second loop of potentialBounds: setPiMax and setPiMin with the
   * bounds of each child in turn, after resetPi.
   */
  method Gather(node: TransportNode, kids: seq<TransportNode>, k: nat, ghost U: set<TransportNode>, ghost L: map<TransportNode, (real, real)>)
    requires (forall m :: m in kids ==> m in U) && Layered(U) && node !in kids
    requires forall j :: 0 <= j < |kids| ==> kids[j].piMax == High(kids[j], k, U, L) && kids[j].piMin == Low(kids[j], k, U, L)
    requires node.piMin == MaxDouble && node.piMax == -MaxDouble
    modifies node`piMin, node`piMax
    ensures node.piMax == HighOf(kids, k, U, L) && node.piMin == LowOf(kids, k, U, L)
  {
    var i := 0;
    while i < |kids|
      invariant 0 <= i <= |kids|
      invariant node.piMax == HighOf(kids[..i], k, U, L) && node.piMin == LowOf(kids[..i], k, U, L)
    {
      assert kids[..i + 1][..i] == kids[..i];
      node.SetPiMax(kids[i].piMax);
      node.SetPiMin(kids[i].piMin);
      i := i + 1;
    }
    assert kids[..i] == kids;
  }

  /**
   * potentialBounds on each node of ns in turn, all of scale `scale`: the
   * loops over the hierarchy's roots and over a node's children. Each node
   * of ns ends with the bounds of High and Low.
   */
  method BoundAll(ns: seq<TransportNode>, scale: int, stopScale: int,
                  ghost U: set<TransportNode>, ghost L: map<TransportNode, (real, real)>)
    requires (forall m :: m in ns ==> m in U && m.scale == scale) && Layered(U) && scale <= stopScale
    requires Leaves(U, L, stopScale)
    modifies Band(U, scale, stopScale)`piMin, Band(U, scale, stopScale)`piMax
    ensures forall j :: 0 <= j < |ns| ==>
      ns[j].piMax == High(ns[j], stopScale - scale, U, L) && ns[j].piMin == Low(ns[j], stopScale - scale, U, L)
    ensures Leaves(U, L, stopScale)
    decreases stopScale - scale, 1
  {
    var i := 0;
    while i < |ns|
      invariant 0 <= i <= |ns| && Leaves(U, L, stopScale)
      invariant forall j :: 0 <= j < i ==>
        ns[j].piMax == High(ns[j], stopScale - scale, U, L) && ns[j].piMin == Low(ns[j], stopScale - scale, U, L)
    {
      PotentialBounds(ns[i], scale, stopScale, U, L);
      i := i + 1;
    }
  }

  /** m lies k scales below n, along children. */
  ghost predicate Below(m: TransportNode, n: TransportNode, k: nat, U: set<TransportNode>)
    requires n in U && Layered(U)
    reads U`kids
    decreases k
  {
    if k == 0 then m == n else exists j :: 0 <= j < |n.kids| && Below(m, n.kids[j], k - 1, U)
  }

  /** The bounds of HighOf and LowOf cover those of every node in ns. */
  lemma {:induction false} OfCovers(ns: seq<TransportNode>, j: int, k: nat, U: set<TransportNode>, L: map<TransportNode, (real, real)>)
    requires (forall m :: m in ns ==> m in U) && Layered(U) && 0 <= j < |ns|
    ensures LowOf(ns, k, U, L) <= Low(ns[j], k, U, L) && High(ns[j], k, U, L) <= HighOf(ns, k, U, L)
    decreases |ns|
  {
    if j < |ns| - 1 {
      OfCovers(ns[..|ns| - 1], j, k, U, L);
    }
  }

  /**
   * The bounds nest: the recorded bounds of every node on the stop scale
   * below n lie inside n's bounds. With the bounds setPotentials leaves,
   * piMin = piMax = potential, every potential on the stop scale below n
   * lies in [Low, High] of n.
   */
  lemma {:induction false} Nesting(m: TransportNode, n: TransportNode, k: nat, U: set<TransportNode>, L: map<TransportNode, (real, real)>)
    requires n in U && Layered(U) && Below(m, n, k, U) && m in L
    ensures Low(n, k, U, L) <= L[m].0 && L[m].1 <= High(n, k, U, L)
    decreases k
  {
    if k > 0 {
      var j :| 0 <= j < |n.kids| && Below(m, n.kids[j], k - 1, U);
      Nesting(m, n.kids[j], k - 1, U, L);
      OfCovers(n.kids, j, k - 1, U, L);
    }
  }

  /**
   * The recurrence of the bounds: a node above the stop scale with no
   * children keeps resetPi's empty bounds; otherwise its upper bound is
   * -MaxDouble or the upper bound of one of its children, and its lower
   * bound MaxDouble or the lower bound of one of them.
   */
  lemma {:induction false} OfAttained(ns: seq<TransportNode>, k: nat, U: set<TransportNode>, L: map<TransportNode, (real, real)>)
    requires (forall m :: m in ns ==> m in U) && Layered(U)
    ensures HighOf(ns, k, U, L) == -MaxDouble || exists j :: 0 <= j < |ns| && HighOf(ns, k, U, L) == High(ns[j], k, U, L)
    ensures LowOf(ns, k, U, L) == MaxDouble || exists j :: 0 <= j < |ns| && LowOf(ns, k, U, L) == Low(ns[j], k, U, L)
    decreases |ns|
  {
    if ns != [] {
      var front := ns[..|ns| - 1];
      OfAttained(front, k, U, L);
      if HighOf(ns, k, U, L) == HighOf(front, k, U, L) && HighOf(front, k, U, L) != -MaxDouble {
        var j :| 0 <= j < |front| && HighOf(front, k, U, L) == High(front[j], k, U, L);
        assert ns[j] == front[j];
      }
      if LowOf(ns, k, U, L) == LowOf(front, k, U, L) && LowOf(front, k, U, L) != MaxDouble {
        var j :| 0 <= j < |front| && LowOf(front, k, U, L) == Low(front[j], k, U, L);
        assert ns[j] == front[j];
      }
    }
  }

  // ---------------------------------------------------------------------
  // The search for arcs of small reduced cost
  // ---------------------------------------------------------------------

  /**
   * What a search is given: the roots of the target hierarchy and their
   * scale, the target level's scale, reducedCostThresholdFactor, p, the
   * transport cost of the node type and pow.
   */
  datatype Search = Search(roots: seq<TransportNode>, rootScale: int, tScale: int, threshold: real, p: real,
                           cost: CostFunction, pow: Power)

  /** The roots lie in the hierarchy U, on the root scale, at or above the target scale. */
  ghost predicate Rooted(sc: Search, U: set<TransportNode>)
    reads U`kids
  {
    && Layered(U) && sc.rootScale <= sc.tScale
    && (forall r :: r in sc.roots ==> r in U && r.scale == sc.rootScale)
  }

  /**
   * d of the search for transport cost c: c less the node radius above the
   * target scale, raised to the p-th power when it is positive.
   */
  function Distance(c: real, radius: real, inner: bool, p: real, pow: Power): real {
    var d := if inner then c - radius else c;
    if d > 0.0 then pow(d, p) else d
  }

  /**
   * One step of the search: node `to` taken from the queue with scale s
   * while searching from a source node; parent is the step that queued it,
   * -1 for a root.
   */
  datatype Visit = Visit(to: TransportNode, s: int, parent: int)

  /** The reduced cost bound rc = d - (piMax(from) - piMin(to)) of a step. */
  ghost function StepRc(from: TransportNode, v: Visit, sc: Search): real
    reads from`piMax, v.to`piMin
  {
    Distance(sc.cost(from, v.to, 1.0), v.to.nodeRadius, v.s < sc.tScale, sc.p, sc.pow) - (from.piMax - v.to.piMin)
  }

  /** The pruning test: rc is at most the threshold times cost^p. */
  ghost predicate Kept(from: TransportNode, v: Visit, sc: Search)
    reads from`piMax, v.to`piMin
  {
    StepRc(from, v, sc) <= sc.threshold * sc.pow(sc.cost(from, v.to, 1.0), sc.p)
  }

  /** The entry a kept step on the target scale records: Path(from, to) with cost cost^p, and its rc. */
  ghost function Found(from: TransportNode, v: Visit, sc: Search): ReducedCostPath
    reads from`piMax, v.to`piMin
  {
    ReducedCostPath(NewPath(from, v.to).(cost := sc.pow(sc.cost(from, v.to, 1.0), sc.p)), StepRc(from, v, sc))
  }

  /** Every step of W visits a node of U with its own scale, no deeper than the target scale. */
  ghost predicate InHierarchy(W: seq<Visit>, sc: Search, U: set<TransportNode>) {
    forall i :: 0 <= i < |W| ==> W[i].to in U && W[i].s == W[i].to.scale && W[i].s <= sc.tScale
  }

  /** Step i of W was queued by an earlier kept step, among the first n, as one of its children. */
  ghost predicate Spawned(from: TransportNode, W: seq<Visit>, i: int, n: int, sc: Search, U: set<TransportNode>)
    requires 0 <= i < |W| && InHierarchy(W, sc, U)
    reads from`piMax, U`piMin, U`kids
  {
    var q := W[i].parent;
    && 0 <= q < n && q < i && Kept(from, W[q], sc) && W[q].s < sc.tScale
    && W[i].to in W[q].to.kids && W[i].s == W[q].s + 1
  }

  /** Every child of the node of step i is queued after it, one scale down, with i as its parent. */
  ghost predicate Expanded(W: seq<Visit>, i: int)
    requires 0 <= i < |W|
    reads W[i].to`kids
  {
    forall j :: 0 <= j < |W[i].to.kids| ==> Queues(W, i, W[i].to.kids[j])
  }

  /** kid is queued after step i, one scale below it, with i as its parent. */
  ghost predicate Queues(W: seq<Visit>, i: int, kid: TransportNode)
    requires 0 <= i < |W|
  {
    exists m :: i < m < |W| && W[m] == Visit(kid, W[i].s + 1, i)
  }

  /**
   * The steps W of the search from one source node, of which the first n
   * were taken and the rest are queued: the roots come first; every other
   * step was queued by a kept step above the target scale; and every kept
   * step taken above the target scale has queued all its children.
   */
  ghost predicate Tree(from: TransportNode, W: seq<Visit>, n: int, sc: Search, U: set<TransportNode>)
    reads from`piMax, U`piMin, U`kids
  {
    && 0 <= n <= |W| && |sc.roots| <= |W| && InHierarchy(W, sc, U) && RootsFirst(W, sc)
    && AllSpawned(from, W, n, sc, U) && AllExpanded(from, W, n, sc, U)
  }

  /** The search starts with one step per root, in order. */
  ghost predicate RootsFirst(W: seq<Visit>, sc: Search) {
    forall i :: 0 <= i < |sc.roots| ==> i < |W| && W[i] == Visit(sc.roots[i], sc.rootScale, -1)
  }

  /** Every step after the roots was queued by one of the first n steps. */
  ghost predicate AllSpawned(from: TransportNode, W: seq<Visit>, n: int, sc: Search, U: set<TransportNode>)
    requires InHierarchy(W, sc, U)
    reads from`piMax, U`piMin, U`kids
  {
    forall i :: |sc.roots| <= i < |W| ==> Spawned(from, W, i, n, sc, U)
  }

  /** Every kept step among the first n, above the target scale, queued its node's children. */
  ghost predicate AllExpanded(from: TransportNode, W: seq<Visit>, n: int, sc: Search, U: set<TransportNode>)
    requires InHierarchy(W, sc, U)
    reads from`piMax, U`piMin, U`kids
  {
    forall i :: 0 <= i < n && i < |W| && Kept(from, W[i], sc) && W[i].s < sc.tScale ==> Expanded(W, i)
  }

  /** A finished search from one source node: every queued step was taken. */
  ghost predicate Probed(from: TransportNode, log: seq<Visit>, sc: Search, U: set<TransportNode>)
    reads from`piMax, U`piMin, U`kids
  {
    Tree(from, log, |log|, sc, U)
  }

  /** The entries the steps of log record: one per kept step on the target scale, in order. */
  ghost function Emit(from: TransportNode, log: seq<Visit>, sc: Search, U: set<TransportNode>): seq<ReducedCostPath>
    requires InHierarchy(log, sc, U)
    reads from`piMax, U`piMin
  {
    if log == [] then []
    else
      var v := log[|log| - 1];
      Emit(from, log[..|log| - 1], sc, U) + (if Kept(from, v, sc) && v.s == sc.tScale then [Found(from, v, sc)] else [])
  }

  /** The number of nodes of the hierarchy from n down k scales, n included, counted once per way down. */
  ghost function Size(n: TransportNode, k: nat, U: set<TransportNode>): nat
    requires n in U && Layered(U)
    reads U`kids
    decreases k, 0
  {
    if k == 0 then 1 else 1 + SizeOf(n.kids, k - 1, U)
  }

  /** Size summed over ns. */
  ghost function SizeOf(ns: seq<TransportNode>, k: nat, U: set<TransportNode>): nat
    requires (forall m :: m in ns ==> m in U) && Layered(U)
    reads U`kids
    decreases k, 1, |ns|
  {
    if ns == [] then 0 else Size(ns[0], k, U) + SizeOf(ns[1..], k, U)
  }

  /** What is left to search below the steps W: it falls with every step taken. */
  ghost function Weight(W: seq<Visit>, tScale: int, U: set<TransportNode>): nat
    requires (forall i :: 0 <= i < |W| ==> W[i].to in U && W[i].s <= tScale) && Layered(U)
    reads U`kids
  {
    if W == [] then 0 else Size(W[0].to, tScale - W[0].s, U) + Weight(W[1..], tScale, U)
  }

  lemma {:induction false} WeightAppend(A: seq<Visit>, B: seq<Visit>, tScale: int, U: set<TransportNode>)
    requires (forall i :: 0 <= i < |A| ==> A[i].to in U && A[i].s <= tScale) && Layered(U)
    requires forall i :: 0 <= i < |B| ==> B[i].to in U && B[i].s <= tScale
    ensures Weight(A + B, tScale, U) == Weight(A, tScale, U) + Weight(B, tScale, U)
    decreases |A|
  {
    if A == [] {
      assert A + B == B;
    } else {
      assert (A + B)[0] == A[0] && (A + B)[1..] == A[1..] + B;
      WeightAppend(A[1..], B, tScale, U);
    }
  }

  /** The steps that queue the children ns of step i, at scale s. */
  function Queued(ns: seq<TransportNode>, s: int, i: int): seq<Visit> {
    seq(|ns|, j requires 0 <= j < |ns| => Visit(ns[j], s, i))
  }

  lemma {:induction false} QueuedWeight(ns: seq<TransportNode>, s: int, i: int, tScale: int, U: set<TransportNode>)
    requires (forall m :: m in ns ==> m in U) && Layered(U) && s <= tScale
    ensures Weight(Queued(ns, s, i), tScale, U) == SizeOf(ns, tScale - s, U)
    decreases |ns|
  {
    if ns != [] {
      assert Queued(ns, s, i)[1..] == Queued(ns[1..], s, i);
      QueuedWeight(ns[1..], s, i, tScale, U);
    }
  }

  /** The weight of the steps from n on: the first of them, then the rest. */
  lemma WeightFrom(W: seq<Visit>, n: int, tScale: int, U: set<TransportNode>)
    requires (forall i :: 0 <= i < |W| ==> W[i].to in U && W[i].s <= tScale) && Layered(U) && 0 <= n < |W|
    ensures Weight(W[n..], tScale, U) == Size(W[n].to, tScale - W[n].s, U) + Weight(W[n + 1..], tScale, U)
  {
    assert W[n..][1..] == W[n + 1..];
  }

  /**
   * The search from one source node (the body of the loop over the source
   * nodes): a queue starts with the target roots; each node taken from it
   * gets d, its transport cost less its radius above the target scale and
   * raised to the p-th power when positive, and rc = d - (piMax(from) -
   * piMin(to)). A node that passes rc <= threshold * cost^p is recorded as
   * an arc on the target scale, and has its children queued above it. The
   * steps taken are log: a finished search, whose entries are found.
   */
  method Probe(from: TransportNode, sc: Search, ghost U: set<TransportNode>)
    returns (found: seq<ReducedCostPath>, ghost log: seq<Visit>)
    requires Rooted(sc, U)
    ensures Probed(from, log, sc, U) && found == Emit(from, log, sc, U)
  {
    var queue := sc.roots;
    var scales := seq(|sc.roots|, _ => sc.rootScale);
    ghost var W := Queued(sc.roots, sc.rootScale, -1);
    ghost var n := 0;
    found := [];
    Start(from, sc, scales, U);
    while queue != []
      invariant Tree(from, W, n, sc, U) && Pending(W, n, queue, scales)
      invariant found == Emit(from, W[..n], sc, U)
      decreases Weight(W[n..], sc.tScale, U)
    {
      queue, scales, found, W := Step(from, sc, queue, scales, found, W, n, U);
      n := n + 1;
    }
    assert W[..n] == W;
    log := W;
  }

  /** One pass of the search loop: the node at the head of the queue is taken, as step n of W. */
  method Step(from: TransportNode, sc: Search, queue: seq<TransportNode>, scales: seq<int>, found: seq<ReducedCostPath>,
              ghost W: seq<Visit>, ghost n: int, ghost U: set<TransportNode>)
    returns (queue': seq<TransportNode>, scales': seq<int>, found': seq<ReducedCostPath>, ghost W': seq<Visit>)
    requires Rooted(sc, U) && Tree(from, W, n, sc, U) && Pending(W, n, queue, scales) && queue != []
    requires found == Emit(from, W[..n], sc, U)
    ensures Tree(from, W', n + 1, sc, U) && Pending(W', n + 1, queue', scales')
    ensures found' == Emit(from, W'[..n + 1], sc, U)
    ensures Weight(W'[n + 1..], sc.tScale, U) < Weight(W[n..], sc.tScale, U)
  {
    Head(W, n, queue, scales);
    var nTo := queue[0];
    var s := scales[0];
    queue', scales' := queue[1..], scales[1..];
    var c := sc.cost(from, nTo, 1.0);
    var d := c;
    if s < sc.tScale {
      d := d - nTo.nodeRadius;
    }
    if d > 0.0 {
      d := sc.pow(d, sc.p);
    }
    var delta := from.piMax - nTo.piMin;
    var rc := d - delta;
    assert rc == StepRc(from, W[n], sc);
    var kept := rc <= sc.threshold * sc.pow(c, sc.p);
    assert kept == Kept(from, W[n], sc);
    if kept && s < sc.tScale {
      var kids := nTo.kids;
      var ks := seq(|kids|, _ => s + 1);
      W' := ExpandCase(from, W, n, sc, U, queue', scales', ks);
      queue', scales' := queue' + kids, scales' + ks;
      found' := found;
    } else {
      W' := W;
      QuietCase(from, W, n, sc, U);
      if kept {
        var path := NewPath(from, nTo).(cost := sc.pow(c, sc.p));
        assert ReducedCostPath(path, rc) == Found(from, W[n], sc);
        found' := found + [ReducedCostPath(path, rc)];
      } else {
        found' := found;
      }
    }
  }

  /** Taking a kept step above the target scale: its children join the queue, and no entry is added. */
  lemma ExpandCase(from: TransportNode, W: seq<Visit>, n: int, sc: Search, U: set<TransportNode>,
                   rest: seq<TransportNode>, restScales: seq<int>, ks: seq<int>) returns (W': seq<Visit>)
    requires Tree(from, W, n, sc, U) && Layered(U) && n < |W| && Kept(from, W[n], sc) && W[n].s < sc.tScale
    requires Pending(W, n + 1, rest, restScales)
    requires |ks| == |W[n].to.kids| && forall j :: 0 <= j < |ks| ==> ks[j] == W[n].s + 1
    ensures Tree(from, W', n + 1, sc, U) && Pending(W', n + 1, rest + W[n].to.kids, restScales + ks)
    ensures Emit(from, W'[..n + 1], sc, U) == Emit(from, W[..n], sc, U)
    ensures Weight(W'[n + 1..], sc.tScale, U) < Weight(W[n..], sc.tScale, U)
  {
    EmitStep(from, W, n, sc, U);
    W' := TreeExpand(from, W, n, sc, U);
    PendingGrown(W, n + 1, W[n].to.kids, W[n].s + 1, n, rest, restScales, ks);
  }

  /** Taking any other step: nothing joins the queue, and a kept step on the target scale adds its entry. */
  lemma QuietCase(from: TransportNode, W: seq<Visit>, n: int, sc: Search, U: set<TransportNode>)
    requires Tree(from, W, n, sc, U) && Layered(U) && n < |W| && !(Kept(from, W[n], sc) && W[n].s < sc.tScale)
    ensures Tree(from, W, n + 1, sc, U)
    ensures Weight(W[n + 1..], sc.tScale, U) < Weight(W[n..], sc.tScale, U)
    ensures Kept(from, W[n], sc) ==> Emit(from, W[..n + 1], sc, U) == Emit(from, W[..n], sc, U) + [Found(from, W[n], sc)]
    ensures !Kept(from, W[n], sc) ==> Emit(from, W[..n + 1], sc, U) == Emit(from, W[..n], sc, U)
  {
    EmitStep(from, W, n, sc, U);
    TreeTake(from, W, n, sc, U);
  }

  /** The steps of W from n on are those still queued: their nodes are queue, their scales scales. */
  ghost predicate Pending(W: seq<Visit>, n: int, queue: seq<TransportNode>, scales: seq<int>) {
    0 <= n <= |W| && Tos(W[n..]) == queue && Scales(W[n..]) == scales
  }

  /** The nodes of steps V, in order. */
  ghost function Tos(V: seq<Visit>): seq<TransportNode> {
    seq(|V|, i requires 0 <= i < |V| => V[i].to)
  }

  /** The scales of steps V, in order. */
  ghost function Scales(V: seq<Visit>): seq<int> {
    seq(|V|, i requires 0 <= i < |V| => V[i].s)
  }

  /** A new search: the roots are queued on the root scale and nothing was taken yet. */
  lemma Start(from: TransportNode, sc: Search, scales: seq<int>, U: set<TransportNode>)
    requires Rooted(sc, U)
    requires |scales| == |sc.roots| && forall i :: 0 <= i < |scales| ==> scales[i] == sc.rootScale
    ensures var W := Queued(sc.roots, sc.rootScale, -1);
      && Tree(from, W, 0, sc, U) && Pending(W, 0, sc.roots, scales) && Emit(from, W[..0], sc, U) == []
  {
    var W := Queued(sc.roots, sc.rootScale, -1);
    assert W[0..] == W;
    assert Tos(W) == sc.roots;
    assert Scales(W) == scales;
  }

  /** The head of the queue is step n, and the rest of the queue the steps after it. */
  lemma Head(W: seq<Visit>, n: int, queue: seq<TransportNode>, scales: seq<int>)
    requires Pending(W, n, queue, scales) && queue != []
    ensures n < |W| && W[n].to == queue[0] && W[n].s == scales[0]
    ensures Pending(W, n + 1, queue[1..], scales[1..])
  {
    assert |W[n..]| == |queue|;
    assert W[n..][0] == W[n];
    assert W[n + 1..] == W[n..][1..];
    assert Tos(W[n + 1..]) == queue[1..];
    assert Scales(W[n + 1..]) == scales[1..];
  }

  /** Steps queued after W extend the queue by their nodes and scales. */
  lemma PendingGrown(W: seq<Visit>, m: int, ns: seq<TransportNode>, s: int, i: int,
                     queue: seq<TransportNode>, scales: seq<int>, ks: seq<int>)
    requires Pending(W, m, queue, scales) && |ks| == |ns| && forall j :: 0 <= j < |ks| ==> ks[j] == s
    ensures Pending(W + Queued(ns, s, i), m, queue + ns, scales + ks)
  {
    var W' := W + Queued(ns, s, i);
    assert W'[m..] == W[m..] + Queued(ns, s, i);
    assert Tos(W'[m..]) == queue + ns;
    assert Scales(W'[m..]) == scales + ks;
  }

  /** Taking step n adds its entry, if any, to those of the steps before it. */
  lemma EmitStep(from: TransportNode, W: seq<Visit>, n: int, sc: Search, U: set<TransportNode>)
    requires InHierarchy(W, sc, U) && 0 <= n < |W|
    ensures InHierarchy(W[..n], sc, U) && InHierarchy(W[..n + 1], sc, U)
    ensures Kept(from, W[n], sc) && W[n].s == sc.tScale ==> Emit(from, W[..n + 1], sc, U) == Emit(from, W[..n], sc, U) + [Found(from, W[n], sc)]
    ensures !(Kept(from, W[n], sc) && W[n].s == sc.tScale) ==> Emit(from, W[..n + 1], sc, U) == Emit(from, W[..n], sc, U)
  {
    assert W[..n + 1][..n] == W[..n];
    assert Emit(from, W[..n], sc, U) + [] == Emit(from, W[..n], sc, U);
  }

  /** Taking a step that queues nothing keeps the search a tree and lowers its weight. */
  lemma TreeTake(from: TransportNode, W: seq<Visit>, n: int, sc: Search, U: set<TransportNode>)
    requires Tree(from, W, n, sc, U) && Layered(U) && n < |W| && !(Kept(from, W[n], sc) && W[n].s < sc.tScale)
    ensures Tree(from, W, n + 1, sc, U)
    ensures Weight(W[n + 1..], sc.tScale, U) < Weight(W[n..], sc.tScale, U)
  {
    WeightFrom(W, n, sc.tScale, U);
    SpawnedLater(from, W, n, sc, U);
  }

  /** A step queued by one of the first n steps was queued by one of the first n + 1. */
  lemma SpawnedLater(from: TransportNode, W: seq<Visit>, n: int, sc: Search, U: set<TransportNode>)
    requires InHierarchy(W, sc, U) && AllSpawned(from, W, n, sc, U)
    ensures AllSpawned(from, W, n + 1, sc, U)
  {
    var n1 := n + 1;
    forall i | |sc.roots| <= i < |W|
      ensures Spawned(from, W, i, n1, sc, U)
    {
      assert Spawned(from, W, i, n, sc, U);
    }
  }

  /**
   * Taking a kept step above the target scale queues the children of its
   * node after all other steps: the search stays a tree and its weight falls.
   */
  lemma TreeExpand(from: TransportNode, W: seq<Visit>, n: int, sc: Search, U: set<TransportNode>) returns (W': seq<Visit>)
    requires Tree(from, W, n, sc, U) && Layered(U) && n < |W| && Kept(from, W[n], sc) && W[n].s < sc.tScale
    ensures W' == W + Queued(W[n].to.kids, W[n].s + 1, n)
    ensures forall j :: 0 <= j < |W[n].to.kids| ==> W'[|W| + j] == Visit(W[n].to.kids[j], W[n].s + 1, n)
    ensures Tree(from, W', n + 1, sc, U) && W'[..n + 1] == W[..n + 1]
    ensures Weight(W'[n + 1..], sc.tScale, U) < Weight(W[n..], sc.tScale, U)
  {
    W' := W + Queued(W[n].to.kids, W[n].s + 1, n);
    ExpandWeight(W, n, sc.tScale, U);
    HierarchyGrown(W, n, sc, U);
    SpawnedGrown(from, W, n, sc, U);
    ExpandedGrown(from, W, n, sc, U);
  }

  /** Queueing the children of step n in its place lowers the weight: they lie one scale nearer the target. */
  lemma ExpandWeight(W: seq<Visit>, n: int, tScale: int, U: set<TransportNode>)
    requires (forall i :: 0 <= i < |W| ==> W[i].to in U && W[i].s <= tScale) && Layered(U)
    requires 0 <= n < |W| && W[n].s < tScale
    ensures var W' := W + Queued(W[n].to.kids, W[n].s + 1, n);
      Weight(W'[n + 1..], tScale, U) < Weight(W[n..], tScale, U)
  {
    var kids := W[n].to.kids;
    var K := Queued(kids, W[n].s + 1, n);
    WeightFrom(W, n, tScale, U);
    QueuedWeight(kids, W[n].s + 1, n, tScale, U);
    WeightAppend(W[n + 1..], K, tScale, U);
    assert (W + K)[n + 1..] == W[n + 1..] + K;
  }

  /** The children queued by step n lie in the hierarchy one scale below it. */
  lemma HierarchyGrown(W: seq<Visit>, n: int, sc: Search, U: set<TransportNode>)
    requires InHierarchy(W, sc, U) && Layered(U) && 0 <= n < |W| && W[n].s < sc.tScale
    ensures InHierarchy(W + Queued(W[n].to.kids, W[n].s + 1, n), sc, U)
  {
  }

  /** The children queued by a kept step n above the target scale were spawned by it. */
  lemma SpawnedGrown(from: TransportNode, W: seq<Visit>, n: int, sc: Search, U: set<TransportNode>)
    requires InHierarchy(W, sc, U) && Layered(U) && AllSpawned(from, W, n, sc, U) && |sc.roots| <= |W|
    requires 0 <= n < |W| && Kept(from, W[n], sc) && W[n].s < sc.tScale
    requires InHierarchy(W + Queued(W[n].to.kids, W[n].s + 1, n), sc, U)
    ensures AllSpawned(from, W + Queued(W[n].to.kids, W[n].s + 1, n), n + 1, sc, U)
  {
    var W' := W + Queued(W[n].to.kids, W[n].s + 1, n);
    var n1 := n + 1;
    forall i | |sc.roots| <= i < |W'|
      ensures Spawned(from, W', i, n1, sc, U)
    {
      if i < |W| {
        assert Spawned(from, W, i, n, sc, U);
        assert W'[i] == W[i] && W'[W[i].parent] == W[W[i].parent];
      } else {
        assert W'[n] == W[n];
      }
    }
  }

  /** Step n, kept above the target scale, has queued its children, and the earlier steps keep theirs. */
  lemma ExpandedGrown(from: TransportNode, W: seq<Visit>, n: int, sc: Search, U: set<TransportNode>)
    requires InHierarchy(W, sc, U) && Layered(U) && AllExpanded(from, W, n, sc, U)
    requires 0 <= n < |W| && Kept(from, W[n], sc) && W[n].s < sc.tScale
    requires InHierarchy(W + Queued(W[n].to.kids, W[n].s + 1, n), sc, U)
    ensures AllExpanded(from, W + Queued(W[n].to.kids, W[n].s + 1, n), n + 1, sc, U)
  {
    var K := Queued(W[n].to.kids, W[n].s + 1, n);
    var W' := W + K;
    forall i | 0 <= i < n + 1 && i < |W'| && Kept(from, W'[i], sc) && W'[i].s < sc.tScale
      ensures Expanded(W', i)
    {
      if i < n {
        assert W'[i] == W[i];
        Grown(W, K, i);
      } else {
        assert W'[n] == W[n];
        forall j | 0 <= j < |W'[n].to.kids|
          ensures Queues(W', n, W'[n].to.kids[j])
        {
          assert W'[|W| + j] == Visit(W[n].to.kids[j], W[n].s + 1, n);
        }
      }
    }
  }

  /** Steps appended after W keep the children W has queued. */
  lemma Grown(W: seq<Visit>, K: seq<Visit>, i: int)
    requires 0 <= i < |W| && Expanded(W, i)
    ensures Expanded(W + K, i)
  {
    var W' := W + K;
    assert W'[i] == W[i];
    forall j | 0 <= j < |W'[i].to.kids|
      ensures Queues(W', i, W'[i].to.kids[j])
    {
      assert Queues(W, i, W[i].to.kids[j]);
      var m :| i < m < |W| && W[m] == Visit(W[i].to.kids[j], W[i].s + 1, i);
      assert W'[m] == W[m];
    }
  }

  /** The entries of the searches logs from the first |logs| source nodes, one after the other. */
  ghost function EmitAll(sources: seq<TransportNode>, logs: seq<seq<Visit>>, sc: Search, U: set<TransportNode>): seq<ReducedCostPath>
    requires |logs| <= |sources| && forall j :: 0 <= j < |logs| ==> InHierarchy(logs[j], sc, U)
    reads (set n | n in sources)`piMax, U`piMin
  {
    if logs == [] then []
    else EmitAll(sources, logs[..|logs| - 1], sc, U) + Emit(sources[|logs| - 1], logs[|logs| - 1], sc, U)
  }

  /** rcArcs.size() > nExpansionAdd compares unsigned: nExpansionAdd is taken modulo 2^64, so a negative one wraps. */
  function SizeLimit(nAdd: int): int {
    nAdd % 0x1_0000_0000_0000_0000
  }

  /**
   * The loop over the source nodes: a search from each, its entries
   * appended to rcArcs, stopping after the first source node that leaves
   * more than nExpansionAdd entries. logs are the searches made, from the
   * first |logs| source nodes.
   */
  method Scan(sources: seq<TransportNode>, sc: Search, nAdd: int, ghost U: set<TransportNode>)
    returns (rcArcs: seq<ReducedCostPath>, ghost logs: seq<seq<Visit>>)
    requires Rooted(sc, U)
    ensures Searched(sources, logs, sc, U)
    ensures rcArcs == EmitAll(sources, logs, sc, U)
    ensures |logs| < |sources| ==> |rcArcs| > SizeLimit(nAdd)
    ensures |logs| > 0 ==> |EmitAll(sources, logs[..|logs| - 1], sc, U)| <= SizeLimit(nAdd)
  {
    rcArcs, logs := [], [];
    var i := 0;
    while i < |sources|
      invariant i == |logs| && Searched(sources, logs, sc, U)
      invariant rcArcs == EmitAll(sources, logs, sc, U) && |rcArcs| <= SizeLimit(nAdd)
    {
      var found, log := Probe(sources[i], sc, U);
      SearchedAppend(sources, logs, log, sc, U);
      logs := logs + [log];
      rcArcs := rcArcs + found;
      i := i + 1;
      if |rcArcs| > SizeLimit(nAdd) {
        break;
      }
    }
  }

  /** The searches logs were made from the first |logs| source nodes, each to the end. */
  ghost predicate Searched(sources: seq<TransportNode>, logs: seq<seq<Visit>>, sc: Search, U: set<TransportNode>)
    reads (set n | n in sources)`piMax, U`piMin, U`kids
  {
    |logs| <= |sources| && forall j :: 0 <= j < |logs| ==> InHierarchy(logs[j], sc, U) && Probed(sources[j], logs[j], sc, U)
  }

  /** One more finished search, from the next source node, appends its entries. */
  lemma SearchedAppend(sources: seq<TransportNode>, logs: seq<seq<Visit>>, log: seq<Visit>, sc: Search, U: set<TransportNode>)
    requires Searched(sources, logs, sc, U) && |logs| < |sources| && Probed(sources[|logs|], log, sc, U)
    ensures Searched(sources, logs + [log], sc, U) && (logs + [log])[..|logs|] == logs
    ensures EmitAll(sources, logs + [log], sc, U) == EmitAll(sources, logs, sc, U) + Emit(sources[|logs|], log, sc, U)
  {
    var L := logs + [log];
    assert L[..|logs|] == logs;
    forall j | 0 <= j < |L|
      ensures InHierarchy(L[j], sc, U) && Probed(sources[j], L[j], sc, U)
    {
      if j < |logs| {
        assert L[j] == logs[j];
      }
    }
  }

  // ---------------------------------------------------------------------
  // A pass
  // ---------------------------------------------------------------------

  /**
   * U is the hierarchy above a level: it holds the nodes of the root level
   * on the root's scale, the children of its nodes one scale down, and, on
   * the level's own scale, exactly the level's nodes.
   */
  ghost predicate Hierarchy(root: Level, scale: int, nodes: seq<TransportNode>, U: set<TransportNode>)
    reads root`nodes, U`kids
  {
    && Layered(U) && root.scale <= scale
    && (forall r :: r in root.nodes ==> r in U && r.scale == root.scale)
    && (forall n :: n in nodes ==> n in U && n.scale == scale)
    && (forall n :: n in U && n.scale == scale ==> n in nodes)
  }

  /** Every root ends with the bounds High and Low give it k scales above the level, over the recorded bounds L. */
  ghost predicate RootsBounded(roots: seq<TransportNode>, k: nat, U: set<TransportNode>, L: map<TransportNode, (real, real)>)
    reads U`kids, U`piMin, U`piMax
  {
    && Layered(U) && (forall r :: r in roots ==> r in U)
    && forall j :: 0 <= j < |roots| ==>
         roots[j].piMax == High(roots[j], k, U, L) && roots[j].piMin == Low(roots[j], k, U, L)
  }

  /** L records, for exactly the nodes of a level, the potential of each as both of its bounds. */
  ghost predicate LevelBounds(L: map<TransportNode, (real, real)>, nodes: seq<TransportNode>, PI: NS.PotentialMap) {
    && (forall n :: n in nodes ==> n in L)
    && (forall n :: n in L ==> n in nodes && n in PI && L[n] == (PI[n], PI[n]))
  }

  /** Each of the nodes has its potential as both of its bounds. */
  ghost predicate AtPotential(nodes: seq<TransportNode>, PI: NS.PotentialMap)
    reads (set n | n in nodes)`piMin, (set n | n in nodes)`piMax
  {
    forall n :: n in nodes ==> n in PI && n.piMin == PI[n] && n.piMax == PI[n]
  }

  /** setPotentials: every node of the two levels gets the dual of its row as potential and as both bounds. */
  method Potentials(lp: TransportLPSolver, sol: TransportPlan) returns (ghost PI: NS.PotentialMap)
    requires Holds(lp, sol)
    modifies (set n | n in sol.source.nodes)`potential, (set n | n in sol.source.nodes)`piMin, (set n | n in sol.source.nodes)`piMax
    modifies (set n | n in sol.target.nodes)`potential, (set n | n in sol.target.nodes)`piMin, (set n | n in sol.target.nodes)`piMax
    ensures NS.DualsCover(lp.solver.dual, sol.source.nodes, sol.target.nodes)
    ensures PI == NS.DualPotentials(lp.solver.dual, sol.source.nodes, sol.target.nodes)
    ensures AtPotential(sol.source.nodes, PI) && AtPotential(sol.target.nodes, PI)
  {
    PI := NS.TakePotentials(lp, sol);
  }

  /**
   * The two loops of potentialBounds calls: the target roots down to the
   * target scale, then the source roots down to the source scale, starting
   * from levels whose nodes hold their potentials as bounds.
   */
  method BoundLevels(rootT: Level, tScale: int, ghost T: seq<TransportNode>, ghost UT: set<TransportNode>,
                     rootS: Level, sScale: int, ghost S: seq<TransportNode>, ghost US: set<TransportNode>, ghost PI: NS.PotentialMap)
    returns (ghost LT: map<TransportNode, (real, real)>, ghost LS: map<TransportNode, (real, real)>)
    requires Hierarchy(rootT, tScale, T, UT) && Hierarchy(rootS, sScale, S, US)
    requires AtPotential(T, PI) && AtPotential(S, PI)
    modifies Band(UT, rootT.scale, tScale)`piMin, Band(UT, rootT.scale, tScale)`piMax
    modifies Band(US, rootS.scale, sScale)`piMin, Band(US, rootS.scale, sScale)`piMax
    ensures LevelBounds(LT, T, PI)
    ensures RootsBounded(rootS.nodes, sScale - rootS.scale, US, LS)
    ensures forall n :: n in LS <==> n in S
    ensures UT !! US ==> LevelBounds(LS, S, PI) && RootsBounded(rootT.nodes, tScale - rootT.scale, UT, LT)
    ensures UT !! US ==> AtPotential(S, PI) && AtPotential(T, PI)
  {
    LT := BoundBelow(rootT, tScale, T, UT, PI);
    ghost var apart := UT !! US;
    if apart {
      forall n | n in S
        ensures n !in Band(UT, rootT.scale, tScale)
      {
        assert n in US;
      }
    }
    LS := BoundBelow(rootS, sScale, S, US, PI);
    if apart {
      forall n | n in UT
        ensures n !in Band(US, rootS.scale, sScale)
      {
        assert n !in US;
      }
    }
  }

  /**
   * potentialBounds on every root of a hierarchy, down to the scale of its
   * level: L records the bounds the level's nodes hold, which stay as they
   * are, and every root ends with the bounds High and Low give over L.
   */
  method BoundBelow(root: Level, scale: int, ghost nodes: seq<TransportNode>, ghost U: set<TransportNode>, ghost PI: NS.PotentialMap)
    returns (ghost L: map<TransportNode, (real, real)>)
    requires Hierarchy(root, scale, nodes, U)
    modifies Band(U, root.scale, scale)`piMin, Band(U, root.scale, scale)`piMax
    ensures forall n :: n in L <==> n in nodes
    ensures AtPotential(nodes, PI) ==> LevelBounds(L, nodes, PI) && AtPotential(nodes, PI)
    ensures RootsBounded(root.nodes, scale - root.scale, U, L)
  {
    L := map n | n in U && n.scale == scale :: (n.piMin, n.piMax);
    BoundAll(root.nodes, root.scale, scale, U, L);
  }

  /**
   * An entry passes the search's test: it is the arc from its source node
   * to a node of U on the target scale, with cost cost^p, whose reduced
   * cost bound rc is the one the test was made on, and the test kept it.
   */
  ghost predicate Passes(e: ReducedCostPath, sc: Search, U: set<TransportNode>)
    reads e.path.from`piMax, U`piMin
  {
    var v := Visit(e.path.to, sc.tScale, -1);
    && v.to in U && v.to.scale == sc.tScale
    && Kept(e.path.from, v, sc) && e == Found(e.path.from, v, sc)
  }

  /** Every entry of a search from `from` is for an arc from `from` and passes the test. */
  lemma {:induction false} EmitSound(from: TransportNode, log: seq<Visit>, sc: Search, U: set<TransportNode>)
    requires InHierarchy(log, sc, U)
    ensures forall k :: 0 <= k < |Emit(from, log, sc, U)| ==>
      Emit(from, log, sc, U)[k].path.from == from && Passes(Emit(from, log, sc, U)[k], sc, U)
  {
    if log != [] {
      var front := log[..|log| - 1];
      var v := log[|log| - 1];
      assert InHierarchy(front, sc, U);
      EmitSound(from, front, sc, U);
      if Kept(from, v, sc) && v.s == sc.tScale {
        var w := Visit(v.to, sc.tScale, -1);
        assert StepRc(from, w, sc) == StepRc(from, v, sc);
      }
    }
  }

  /**
   * The step of a finished search that keeps a node on the target scale
   * has its entry among the search's entries: nothing the test keeps on
   * the target scale is dropped.
   */
  lemma {:induction false} EmitHas(from: TransportNode, log: seq<Visit>, i: int, sc: Search, U: set<TransportNode>)
    requires InHierarchy(log, sc, U) && 0 <= i < |log| && Kept(from, log[i], sc) && log[i].s == sc.tScale
    ensures Found(from, log[i], sc) in Emit(from, log, sc, U)
    decreases |log|
  {
    var front := log[..|log| - 1];
    assert InHierarchy(front, sc, U);
    if i < |log| - 1 {
      assert front[i] == log[i];
      EmitHas(from, front, i, sc, U);
    }
  }

  /** Every entry of the scan is for an arc from one of the source nodes searched, and passes the test. */
  lemma {:induction false} EmitAllSound(sources: seq<TransportNode>, logs: seq<seq<Visit>>, sc: Search, U: set<TransportNode>)
    requires |logs| <= |sources| && forall j :: 0 <= j < |logs| ==> InHierarchy(logs[j], sc, U)
    ensures forall k :: 0 <= k < |EmitAll(sources, logs, sc, U)| ==>
      EmitAll(sources, logs, sc, U)[k].path.from in sources[..|logs|] && Passes(EmitAll(sources, logs, sc, U)[k], sc, U)
  {
    if logs != [] {
      var m := |logs| - 1;
      var front := logs[..m];
      assert forall j :: 0 <= j < |front| ==> front[j] == logs[j];
      EmitAllSound(sources, front, sc, U);
      EmitSound(sources[m], logs[m], sc, U);
      var A: seq<ReducedCostPath>, B: seq<ReducedCostPath> := EmitAll(sources, front, sc, U), Emit(sources[m], logs[m], sc, U);
      assert EmitAll(sources, logs, sc, U) == A + B;
      forall k | 0 <= k < |A + B|
        ensures (A + B)[k].path.from in sources[..|logs|]
      {
        if k < |A| {
          assert A[k].path.from in sources[..m];
        } else {
          assert B[k - |A|].path.from == sources[m];
        }
      }
    }
  }

  /** Some entry of rcArcs is for arc a. */
  ghost predicate Listed(rcArcs: seq<ReducedCostPath>, a: Arc) {
    exists k :: 0 <= k < |rcArcs| && rcArcs[k].path.Key() == a
  }

  /** The entries are for arcs from a node of S to a node of T. */
  ghost predicate Between(rcArcs: seq<ReducedCostPath>, S: seq<TransportNode>, T: seq<TransportNode>) {
    forall k :: 0 <= k < |rcArcs| ==> rcArcs[k].path.from in S && rcArcs[k].path.to in T
  }

  /** newSol->addPath on the path of each entry, in order: the plan gains exactly the arcs listed. */
  method Collect(newSol: TransportPlan, rcArcs: seq<ReducedCostPath>)
    requires Fits(newSol) && Between(rcArcs, newSol.source.nodes, newSol.target.nodes)
    modifies newSol`paths, newSol`pathCounter, newSol`toPathCounts, newSol`added
    ensures Fits(newSol)
    ensures forall a :: Has(newSol.paths, a) <==> Has(old(newSol.paths), a) || Listed(rcArcs, a)
  {
    var i := 0;
    while i < |rcArcs|
      invariant 0 <= i <= |rcArcs| && Fits(newSol)
      invariant forall a :: Has(newSol.paths, a) <==> Has(old(newSol.paths), a) || Listed(rcArcs[..i], a)
    {
      var q := rcArcs[i].path;
      NodeAtId(newSol.source.nodes, q.from);
      NodeAtId(newSol.target.nodes, q.to);
      var index := AddToPlan(newSol, q);
      ListedStep(rcArcs, i);
      i := i + 1;
    }
    assert rcArcs[..i] == rcArcs;
  }

  /** One more entry lists one more arc. */
  lemma ListedStep(rcArcs: seq<ReducedCostPath>, i: int)
    requires 0 <= i < |rcArcs|
    ensures forall a :: Listed(rcArcs[..i + 1], a) <==> Listed(rcArcs[..i], a) || a == rcArcs[i].path.Key()
  {
    forall a
      ensures Listed(rcArcs[..i + 1], a) <==> Listed(rcArcs[..i], a) || a == rcArcs[i].path.Key()
    {
      if Listed(rcArcs[..i + 1], a) && a != rcArcs[i].path.Key() {
        var k :| 0 <= k < i + 1 && rcArcs[..i + 1][k].path.Key() == a;
        assert rcArcs[..i][k] == rcArcs[k];
      }
      if Listed(rcArcs[..i], a) {
        var k :| 0 <= k < i && rcArcs[..i][k].path.Key() == a;
        assert rcArcs[..i + 1][k] == rcArcs[k];
      }
      if a == rcArcs[i].path.Key() {
        assert rcArcs[..i + 1][i] == rcArcs[i];
      }
    }
  }

  /** Arc a of the plan P had a BASIC column in the last solve, whose column statuses cs start at offset. */
  ghost predicate WasBasic(P: seq<map<int, Path>>, cs: seq<Status>, offset: int, a: Arc) {
    Has(P, a) && 0 <= offset + Get(P, a).index < |cs| && cs[offset + Get(P, a).index] == BASIC
  }

  /** The arcs of the old plan the new plan takes over: those BASIC in the last solve, or all when expand is set. */
  ghost predicate Carried(P: seq<map<int, Path>>, cs: seq<Status>, offset: int, expand: bool, a: Arc) {
    Has(P, a) && (expand || WasBasic(P, cs, offset, a))
  }

  /** The arcs of the new plan P: those listed in rcArcs and those carried over from the old plan Q. */
  ghost predicate Composed(P: seq<map<int, Path>>, rcArcs: seq<ReducedCostPath>, Q: seq<map<int, Path>>, cs: seq<Status>, offset: int, expand: bool) {
    forall a :: Has(P, a) <==> Listed(rcArcs, a) || Carried(Q, cs, offset, expand, a)
  }

  /**
   * The column statuses col of the count arcs added, from column at on:
   * BASIC exactly for the arcs that were BASIC in the last solve of the old plan Q.
   */
  ghost predicate Placed(col: seq<Status>, at: int, count: int, added: seq<Arc>, Q: seq<map<int, Path>>, cs: seq<Status>, offset: int) {
    && 0 <= at && at + count <= |col| && count <= |added|
    && forall i :: 0 <= i < count ==> (col[at + i] == BASIC <==> WasBasic(Q, cs, offset, added[i]))
  }

  /**
   * The column statuses of the new plan, from a walk over the arcs of the
   * old plan sol: an arc BASIC in the last solve is BASIC in the new plan,
   * added at the end when the new plan lacks it; any other arc is added
   * with LOWER when expand is set, unless the new plan has it already.
   * Column i stays LOWER otherwise, so it is BASIC exactly when the i-th
   * arc of the new plan was BASIC in the last solve.
   */
  method Statuses(lp: TransportLPSolver, sol: TransportPlan, newSol: TransportPlan, expand: bool) returns (colStatus: seq<Status>)
    requires Holds(lp, sol) && Fits(newSol) && newSol != sol
    requires |newSol.paths| == |sol.paths| && |newSol.toPathCounts| == |sol.toPathCounts|
    modifies sol`outer, sol`inner, newSol`paths, newSol`pathCounter, newSol`toPathCounts, newSol`added
    ensures Fits(newSol) && |colStatus| == newSol.pathCounter
    ensures forall i :: 0 <= i < |colStatus| ==> colStatus[i] == BASIC || colStatus[i] == LOWER
    ensures forall i :: 0 <= i < |colStatus| ==>
      (colStatus[i] == BASIC <==> WasBasic(sol.paths, lp.solver.colStatus, lp.pathOffset, newSol.added[i]))
    ensures forall a :: Has(newSol.paths, a) <==> Has(old(newSol.paths), a) || Carried(sol.paths, lp.solver.colStatus, lp.pathOffset, expand, a)
  {
    HeldIndices(lp, sol);
    var n := newSol.GetNumberOfPaths();
    colStatus := seq(n, _ => LOWER);
    ghost var N0 := newSol.paths;
    sol.Begin();
    ghost var D: set<Arc> := {};
    while !sol.IsAtEnd()
      invariant sol.Valid() && sol.Cursor() && Fits(newSol) && |newSol.paths| == |sol.paths|
      invariant DoneUpTo(sol.paths, D, sol.IsAtEnd(), (sol.outer, sol.inner))
      invariant |colStatus| == |newSol.added|
      invariant forall i :: 0 <= i < |colStatus| ==> colStatus[i] == BASIC || colStatus[i] == LOWER
      invariant forall i :: 0 <= i < |colStatus| ==>
        (colStatus[i] == BASIC <==> newSol.added[i] in D && WasBasic(sol.paths, lp.solver.colStatus, lp.pathOffset, newSol.added[i]))
      invariant forall a :: Has(newSol.paths, a) <==> Has(N0, a) || (a in D && Carried(sol.paths, lp.solver.colStatus, lp.pathOffset, expand, a))
      decreases sol.Remaining()
    {
      ghost var c: Arc := (sol.outer, sol.inner);
      colStatus := Carry(lp, sol, newSol, expand, colStatus, D, N0);
      sol.Pass(D);
      D := D + {c};
    }
    InArcSetAll(sol.paths, D);
    forall a | Has(sol.paths, a)
      ensures a in D
    {
      InArcSet(sol.paths, a);
    }
  }

  /** One arc of the walk over the old plan: the arc under sol's cursor is carried over, or not, with its status. */
  method Carry(lp: TransportLPSolver, sol: TransportPlan, newSol: TransportPlan, expand: bool, colStatus: seq<Status>,
               ghost D: set<Arc>, ghost N0: seq<map<int, Path>>) returns (colStatus': seq<Status>)
    requires Holds(lp, sol) && sol.AtArc() && Fits(newSol) && newSol != sol && |newSol.paths| == |sol.paths|
    requires |newSol.toPathCounts| == |sol.toPathCounts|
    requires DoneUpTo(sol.paths, D, false, (sol.outer, sol.inner))
    requires forall a :: Has(sol.paths, a) ==> 0 <= lp.pathOffset + Get(sol.paths, a).index < |lp.solver.primal|
    requires |colStatus| == |newSol.added|
    requires forall i :: 0 <= i < |colStatus| ==> colStatus[i] == BASIC || colStatus[i] == LOWER
    requires forall i :: 0 <= i < |colStatus| ==>
      (colStatus[i] == BASIC <==> newSol.added[i] in D && WasBasic(sol.paths, lp.solver.colStatus, lp.pathOffset, newSol.added[i]))
    requires forall a :: Has(newSol.paths, a) <==> Has(N0, a) || (a in D && Carried(sol.paths, lp.solver.colStatus, lp.pathOffset, expand, a))
    modifies newSol`paths, newSol`pathCounter, newSol`toPathCounts, newSol`added
    ensures Fits(newSol) && |newSol.paths| == |sol.paths| && |colStatus'| == |newSol.added|
    ensures forall i :: 0 <= i < |colStatus'| ==> colStatus'[i] == BASIC || colStatus'[i] == LOWER
    ensures forall i :: 0 <= i < |colStatus'| ==>
      (colStatus'[i] == BASIC <==>
        newSol.added[i] in D + {(sol.outer, sol.inner)} && WasBasic(sol.paths, lp.solver.colStatus, lp.pathOffset, newSol.added[i]))
    ensures forall a :: Has(newSol.paths, a) <==>
      Has(N0, a) || (a in D + {(sol.outer, sol.inner)} && Carried(sol.paths, lp.solver.colStatus, lp.pathOffset, expand, a))
  {
    ghost var c: Arc := (sol.outer, sol.inner);
    ghost var cs, offset, P := lp.solver.colStatus, lp.pathOffset, sol.paths;
    var path := sol.Current();
    assert c !in D;
    var status := lp.GetColumnStatus(path.index);
    assert status == BASIC <==> WasBasic(P, cs, offset, c);
    colStatus' := colStatus;
    if status == BASIC {
      var index := newSol.GetPathIndex(path);
      if index == -1 {
        index := AddToPlan(newSol, path);
        colStatus' := colStatus + [BASIC];
      } else {
        newSol.DenseIndices();
        forall i | 0 <= i < |newSol.added| && newSol.added[i] == c
          ensures i == index
        {
          assert Get(newSol.paths, newSol.added[i]).index == i;
        }
        colStatus' := colStatus[index := BASIC];
      }
    } else if expand {
      var index := AddToPlan(newSol, path);
      if index == |colStatus| {
        colStatus' := colStatus + [LOWER];
      }
    }
  }

  /**
   * The new plan of a pass and its LP: the arcs of rcArcs, then the arcs
   * the old plan carries over with their statuses; the row basis and the
   * time counters of the last solve; createLP, then setupBasis with those
   * statuses. cs and offset are the column statuses and the arc offset of
   * the last solve.
   */
  method Assemble(lp: TransportLPSolver, sol: TransportPlan, rcArcs: seq<ReducedCostPath>, expand: bool)
    returns (newSol: TransportPlan, ghost cs: seq<Status>, ghost offset: int)
    requires Holds(lp, sol) && Weighted(sol.source) && Between(rcArcs, sol.source.nodes, sol.target.nodes)
    modifies lp`pathOffset, lp`sourceMassSupplyDistributionStart, lp`sourceMassSinkDistributionStart
    modifies lp`targetMassSupplyDistributionStart, lp`targetMassSinkDistributionStart
    modifies lp`sourceMassExchangePath, lp`targetMassExchangePath, lp`sourceCirculationPath
    modifies lp`sourceMassSupplyNode, lp`sourceMassSinkNode, lp`targetMassSupplyNode, lp`targetMassSinkNode
    modifies lp.solver`sInd, lp.solver`tInd, lp.solver`coeff, lp.solver`primal, lp.solver`colStatus, lp.solver`colLB, lp.solver`colUB
    modifies lp.solver`mass, lp.solver`rowStatus, lp.solver`dual, lp.solver`ns, lp.solver`nt
    modifies sol`outer, sol`inner
    ensures fresh(newSol) && newSol.source == sol.source && newSol.target == sol.target && newSol.cost == MaxDouble
    ensures cs == old(lp.solver.colStatus) && offset == old(lp.pathOffset) && lp.solver.rowStatus == old(lp.solver.rowStatus)
    ensures Holds(lp, newSol) && Composed(newSol.paths, rcArcs, sol.paths, cs, offset, expand)
    ensures Placed(lp.solver.colStatus, lp.pathOffset, newSol.pathCounter, newSol.added, sol.paths, cs, offset)
  {
    cs, offset := lp.solver.colStatus, lp.pathOffset;
    var colStatus, rowStatus;
    newSol, colStatus, rowStatus := Compose(lp, sol, rcArcs, expand);
    Launch(lp, sol, newSol, colStatus, rowStatus, newSol.added, sol.paths, cs, offset);
  }

  /** createLP for the new plan of sol's levels, then the warm start from the given statuses. */
  method Launch(lp: TransportLPSolver, ghost sol: TransportPlan, newSol: TransportPlan, colStatus: seq<Status>, rowStatus: seq<Status>,
                ghost added: seq<Arc>, ghost Q: seq<map<int, Path>>, ghost cs: seq<Status>, ghost offset: int)
    requires Holds(lp, sol) && Weighted(sol.source) && newSol.source == sol.source && newSol.target == sol.target
    requires Fits(newSol) && |colStatus| == newSol.pathCounter && rowStatus == lp.solver.rowStatus
    requires Placed(colStatus, 0, |colStatus|, added, Q, cs, offset)
    modifies lp`pathOffset, lp`sourceMassSupplyDistributionStart, lp`sourceMassSinkDistributionStart
    modifies lp`targetMassSupplyDistributionStart, lp`targetMassSinkDistributionStart
    modifies lp`sourceMassExchangePath, lp`targetMassExchangePath, lp`sourceCirculationPath
    modifies lp`sourceMassSupplyNode, lp`sourceMassSinkNode, lp`targetMassSupplyNode, lp`targetMassSinkNode
    modifies lp.solver`sInd, lp.solver`tInd, lp.solver`coeff, lp.solver`primal, lp.solver`colStatus, lp.solver`colLB, lp.solver`colUB
    modifies lp.solver`mass, lp.solver`rowStatus, lp.solver`dual, lp.solver`ns, lp.solver`nt
    modifies newSol`outer, newSol`inner
    ensures Holds(lp, newSol) && lp.solver.rowStatus == rowStatus
    ensures 0 <= lp.pathOffset && lp.pathOffset + |colStatus| <= |lp.solver.colStatus|
    ensures Placed(lp.solver.colStatus, lp.pathOffset, |colStatus|, added, Q, cs, offset)
  {
    Create(lp, newSol);
    Warm(lp, newSol, colStatus, rowStatus);
    Shifted(lp.solver.colStatus, colStatus, lp.pathOffset, added, Q, cs, offset);
  }

  /** Statuses placed from column at on keep their placement. */
  lemma Shifted(col: seq<Status>, part: seq<Status>, at: int, added: seq<Arc>, Q: seq<map<int, Path>>, cs: seq<Status>, offset: int)
    requires Placed(part, 0, |part|, added, Q, cs, offset)
    requires 0 <= at && at + |part| <= |col| && forall i :: 0 <= i < |part| ==> col[at + i] == part[i]
    ensures Placed(col, at, |part|, added, Q, cs, offset)
  {
    forall i | 0 <= i < |part|
      ensures col[at + i] == BASIC <==> WasBasic(Q, cs, offset, added[i])
    {
      assert col[at + i] == part[i];
    }
  }

  /**
   * The new plan of a pass before createLP: a new plan for sol's levels
   * takes the arcs of rcArcs, then the arcs carried over from sol with
   * their column statuses; the row statuses of the last solve are read and
   * the time counters copied.
   */
  method Compose(lp: TransportLPSolver, sol: TransportPlan, rcArcs: seq<ReducedCostPath>, expand: bool)
    returns (newSol: TransportPlan, colStatus: seq<Status>, rowStatus: seq<Status>)
    requires Holds(lp, sol) && Between(rcArcs, sol.source.nodes, sol.target.nodes)
    modifies sol`outer, sol`inner
    ensures fresh(newSol) && newSol.source == sol.source && newSol.target == sol.target && newSol.cost == MaxDouble
    ensures Fits(newSol) && |colStatus| == newSol.pathCounter && rowStatus == lp.solver.rowStatus
    ensures newSol.timeRefine == sol.timeRefine && newSol.timeSolve == sol.timeSolve && newSol.timePropagate == sol.timePropagate
    ensures Composed(newSol.paths, rcArcs, sol.paths, lp.solver.colStatus, lp.pathOffset, expand)
    ensures Placed(colStatus, 0, |colStatus|, newSol.added, sol.paths, lp.solver.colStatus, lp.pathOffset)
  {
    newSol := new TransportPlan(sol.source, sol.target);
    Collect(newSol, rcArcs);
    colStatus := Statuses(lp, sol, newSol, expand);
    rowStatus := RN.RowStatuses(lp);
    newSol.timeRefine := sol.timeRefine;
    newSol.timePropagate := sol.timePropagate;
    newSol.timeSolve := sol.timeSolve;
  }

  /**
   * The scan of the source nodes ran to its end or stopped at the first
   * source node after which more than nExpansionAdd entries were found;
   * rcArcs are the entries of the searches it ran, in order.
   */
  ghost predicate Scanned(sources: seq<TransportNode>, logs: seq<seq<Visit>>, rcArcs: seq<ReducedCostPath>, sc: Search,
                          U: set<TransportNode>, nAdd: int)
    reads (set n | n in sources)`piMax, U`piMin, U`kids
  {
    && Searched(sources, logs, sc, U) && rcArcs == EmitAll(sources, logs, sc, U)
    && (|logs| < |sources| ==> |rcArcs| > SizeLimit(nAdd))
    && (|logs| > 0 ==> |EmitAll(sources, logs[..|logs| - 1], sc, U)| <= SizeLimit(nAdd))
  }

  /**
   * The first half of a pass: the potentials and their bounds, then the
   * search from every source node, up to the nExpansionAdd cut-off. The
   * entries found are for arcs from a source node to a target node.
   */
  method Explore(lp: TransportLPSolver, sol: TransportPlan, p: real, pow: Power, cost: CostFunction, threshold: real,
                 nAdd: int, ghost UT: set<TransportNode>, ghost US: set<TransportNode>)
    returns (rcArcs: seq<ReducedCostPath>, ghost sc: Search, ghost logs: seq<seq<Visit>>)
    requires Holds(lp, sol) && sol.source.Chain() && sol.target.Chain()
    requires Hierarchy(sol.target.Root(), sol.target.scale, sol.target.nodes, UT)
    requires Hierarchy(sol.source.Root(), sol.source.scale, sol.source.nodes, US)
    modifies (set n | n in sol.source.nodes)`potential, (set n | n in sol.source.nodes)`piMin, (set n | n in sol.source.nodes)`piMax
    modifies (set n | n in sol.target.nodes)`potential, (set n | n in sol.target.nodes)`piMin, (set n | n in sol.target.nodes)`piMax
    modifies UT`piMin, UT`piMax, US`piMin, US`piMax
    ensures sc == Search(sol.target.Root().nodes, sol.target.Root().scale, sol.target.scale, threshold, p, cost, pow)
    ensures Scanned(sol.source.nodes, logs, rcArcs, sc, UT, nAdd)
    ensures Between(rcArcs, sol.source.nodes, sol.target.nodes)
  {
    sol.source.RootAllocated();
    sol.target.RootAllocated();
    var rootS := sol.source.GetRootLevel();
    var rootT := sol.target.GetRootLevel();
    ghost var PI := Potentials(lp, sol);
    ghost var LT, LS := BoundLevels(rootT, sol.target.scale, sol.target.nodes, UT, rootS, sol.source.scale, sol.source.nodes, US, PI);
    var search := Search(rootT.nodes, rootT.scale, sol.target.scale, threshold, p, cost, pow);
    sc := search;
    rcArcs, logs := Scan(sol.source.nodes, search, nAdd, UT);
    Listing(sol.source.nodes, sol.target.nodes, logs, sc, UT);
  }

  /**
   * The second half of a pass: the new plan and its warm-started LP,
   * prevCost read from it, solveLP and storeLP.
   */
  method Settle(lp: TransportLPSolver, sol: TransportPlan, rcArcs: seq<ReducedCostPath>, expand: bool, p: real, pow: Power)
    returns (newSol: TransportPlan, prevCost: real, ghost built: seq<map<int, Path>>, ghost cs: seq<Status>, ghost offset: int)
    requires Holds(lp, sol) && Weighted(sol.source) && p != 0.0 && Between(rcArcs, sol.source.nodes, sol.target.nodes)
    modifies lp`pathOffset, lp`sourceMassSupplyDistributionStart, lp`sourceMassSinkDistributionStart
    modifies lp`targetMassSupplyDistributionStart, lp`targetMassSinkDistributionStart
    modifies lp`sourceMassExchangePath, lp`targetMassExchangePath, lp`sourceCirculationPath
    modifies lp`sourceMassSupplyNode, lp`sourceMassSinkNode, lp`targetMassSupplyNode, lp`targetMassSinkNode
    modifies lp.solver`sInd, lp.solver`tInd, lp.solver`coeff, lp.solver`primal, lp.solver`colStatus, lp.solver`colLB, lp.solver`colUB
    modifies lp.solver`mass, lp.solver`rowStatus, lp.solver`dual, lp.solver`ns, lp.solver`nt
    modifies lp.solver`success, lp.solver`objValue, lp.solver`iCount
    modifies (set n | n in sol.source.nodes)`potential, (set n | n in sol.target.nodes)`potential
    modifies sol`outer, sol`inner
    ensures fresh(newSol) && newSol.source == sol.source && newSol.target == sol.target
    ensures Holds(lp, newSol) && prevCost == MaxDouble
    ensures cs == old(lp.solver.colStatus) && offset == old(lp.pathOffset)
    ensures Renewed(lp.solver, lp.pathOffset, newSol, p, pow, rcArcs, sol.paths, built, cs, offset, expand)
    ensures lp.solver.rowStatus == old(lp.solver.rowStatus)
    ensures StoredPotentials(lp.solver.dual, sol.source.nodes, sol.target.nodes)
  {
    newSol, cs, offset := Assemble(lp, sol, rcArcs, expand);
    prevCost := newSol.cost;
    StrategyLP.Solve(lp, newSol);
    built := newSol.paths;
    Store(lp, newSol, p, pow);
  }

  /**
   * The plan res after a pass over the plan with arcs prior: the LP was
   * solved, res costs the p-th root of its objective, holds the arcs rcArcs
   * listed and prior carried over (built, before storeLP) with the primal
   * weights of the solve from column at on, and the arcs BASIC in the
   * solve before (statuses cs from column offset on) start the new basis.
   */
  ghost predicate Renewed(s: LemonSolver, at: int, res: TransportPlan, p: real, pow: Power, rcArcs: seq<ReducedCostPath>,
                          prior: seq<map<int, Path>>, built: seq<map<int, Path>>, cs: seq<Status>, offset: int, expand: bool)
    reads s`success, s`objValue, s`primal, s`dual, s`sInd, s`tInd, s`coeff, s`mass, s`colLB, s`colUB, s`colStatus
    reads res`cost, res`paths, res`pathCounter, res`added
  {
    && Solved(s) && p != 0.0 && res.cost == pow(s.objValue, 1.0 / p)
    && StoredFrom(res.paths, built, s.primal, at)
    && Composed(built, rcArcs, prior, cs, offset, expand)
    && Placed(s.colStatus, at, res.pathCounter, res.added, prior, cs, offset)
  }

  /**
   * One pass of solveNeighborhoodLP: the search (Explore), then the new
   * plan, its solve and its storeLP (Settle). prevCost is the MaxDouble the
   * new plan starts with; rcArcs are the entries of the search, prior the
   * arcs of the plan sol the new plan replaces, built the new plan's arcs
   * as solved.
   */
  method Round(lp: TransportLPSolver, sol: TransportPlan, p: real, pow: Power, cost: CostFunction, threshold: real,
               expand: bool, nAdd: int, ghost UT: set<TransportNode>, ghost US: set<TransportNode>)
    returns (newSol: TransportPlan, prevCost: real, rcArcs: seq<ReducedCostPath>, ghost prior: seq<map<int, Path>>,
             ghost built: seq<map<int, Path>>, ghost cs: seq<Status>, ghost offset: int)
    requires Holds(lp, sol) && Weighted(sol.source) && p != 0.0 && sol.source.Chain() && sol.target.Chain()
    requires Hierarchy(sol.target.Root(), sol.target.scale, sol.target.nodes, UT)
    requires Hierarchy(sol.source.Root(), sol.source.scale, sol.source.nodes, US)
    modifies lp`pathOffset, lp`sourceMassSupplyDistributionStart, lp`sourceMassSinkDistributionStart
    modifies lp`targetMassSupplyDistributionStart, lp`targetMassSinkDistributionStart
    modifies lp`sourceMassExchangePath, lp`targetMassExchangePath, lp`sourceCirculationPath
    modifies lp`sourceMassSupplyNode, lp`sourceMassSinkNode, lp`targetMassSupplyNode, lp`targetMassSinkNode
    modifies lp.solver`sInd, lp.solver`tInd, lp.solver`coeff, lp.solver`primal, lp.solver`colStatus, lp.solver`colLB, lp.solver`colUB
    modifies lp.solver`mass, lp.solver`rowStatus, lp.solver`dual, lp.solver`ns, lp.solver`nt
    modifies lp.solver`success, lp.solver`objValue, lp.solver`iCount
    modifies (set n | n in sol.source.nodes)`potential, (set n | n in sol.source.nodes)`piMin, (set n | n in sol.source.nodes)`piMax
    modifies (set n | n in sol.target.nodes)`potential, (set n | n in sol.target.nodes)`piMin, (set n | n in sol.target.nodes)`piMax
    modifies UT`piMin, UT`piMax, US`piMin, US`piMax
    modifies sol`outer, sol`inner
    ensures fresh(newSol) && newSol.source == sol.source && newSol.target == sol.target
    ensures Holds(lp, newSol) && prevCost == MaxDouble && prior == sol.paths
    ensures Renewed(lp.solver, lp.pathOffset, newSol, p, pow, rcArcs, prior, built, cs, offset, expand)
  {
    ghost var sc, logs;
    rcArcs, sc, logs := Explore(lp, sol, p, pow, cost, threshold, nAdd, UT, US);
    prior := sol.paths;
    newSol, prevCost, built, cs, offset := Settle(lp, sol, rcArcs, expand, p, pow);
  }

  /**
   * solveNeighborhoodLP with the stopping test made against the stored
   * cost of the plan each pass started from: passes run while nIterations
   * is not exhausted (a negative count never is; fuel bounds the passes
   * then), and stop after a pass whose solve took no simplex iteration or
   * whose cost improved on lastCost by no more than tol times lastCost.
   * After a pass, res is the new plan: its arcs are those found by the
   * search and those carried over from the plan prior it replaced, with the
   * weights of the last solve.
   */
  method SolveNeighborhoodLP(lp: TransportLPSolver, sol: TransportPlan, p: real, pow: Power, cost: CostFunction, threshold: real,
      expand: bool, nAdd: int, tol: real, nIterations: int, fuel: nat, ghost UT: set<TransportNode>, ghost US: set<TransportNode>)
    returns (res: TransportPlan, ghost passes: nat, ghost lastCost: real, ghost rcArcs: seq<ReducedCostPath>, ghost prior: seq<map<int, Path>>,
             ghost built: seq<map<int, Path>>, ghost cs: seq<Status>, ghost offset: int)
    requires Holds(lp, sol) && Weighted(sol.source) && p != 0.0 && sol.source.Chain() && sol.target.Chain()
    requires Hierarchy(sol.target.Root(), sol.target.scale, sol.target.nodes, UT)
    requires Hierarchy(sol.source.Root(), sol.source.scale, sol.source.nodes, US)
    modifies lp`pathOffset, lp`sourceMassSupplyDistributionStart, lp`sourceMassSinkDistributionStart
    modifies lp`targetMassSupplyDistributionStart, lp`targetMassSinkDistributionStart
    modifies lp`sourceMassExchangePath, lp`targetMassExchangePath, lp`sourceCirculationPath
    modifies lp`sourceMassSupplyNode, lp`sourceMassSinkNode, lp`targetMassSupplyNode, lp`targetMassSinkNode
    modifies lp.solver`sInd, lp.solver`tInd, lp.solver`coeff, lp.solver`primal, lp.solver`colStatus, lp.solver`colLB, lp.solver`colUB
    modifies lp.solver`mass, lp.solver`rowStatus, lp.solver`dual, lp.solver`ns, lp.solver`nt
    modifies lp.solver`success, lp.solver`objValue, lp.solver`iCount
    modifies (set n | n in sol.source.nodes)`potential, (set n | n in sol.source.nodes)`piMin, (set n | n in sol.source.nodes)`piMax
    modifies (set n | n in sol.target.nodes)`potential, (set n | n in sol.target.nodes)`piMin, (set n | n in sol.target.nodes)`piMax
    modifies UT`piMin, UT`piMax, US`piMin, US`piMax
    modifies sol`outer, sol`inner
    ensures res == sol || fresh(res)
    ensures res.source == sol.source && res.target == sol.target && Holds(lp, res)
    ensures passes <= fuel && (nIterations >= 0 ==> passes <= nIterations)
    ensures passes == 0 <==> nIterations == 0 || fuel == 0
    ensures passes == 0 ==> res == sol
    ensures passes > 0 ==> Renewed(lp.solver, lp.pathOffset, res, p, pow, rcArcs, prior, built, cs, offset, expand)
    ensures passes == nIterations || passes == fuel || lp.GetIterationCount() == 0 || NS.Stalled(lastCost, res.cost, tol)
  {
    res := sol;
    var nIter := nIterations;
    var left := fuel;
    passes, rcArcs, prior, built, cs, offset := 0, [], sol.paths, sol.paths, [], 0;
    lastCost := sol.cost;
    sol.source.RootAllocated();
    sol.target.RootAllocated();
    ghost var i :| 0 <= i < |sol.source.nodes| && sol.source.nodes[i].mass != 0.0;
    var stop := false;
    while !stop && nIter != 0 && left > 0
      invariant res == sol || fresh(res)
      invariant res.source == sol.source && res.target == sol.target && Holds(lp, res)
      invariant left == fuel - passes && nIter == nIterations - passes && (nIterations >= 0 ==> nIter >= 0)
      invariant passes == 0 ==> res == sol && !stop
      invariant passes > 0 ==> Renewed(lp.solver, lp.pathOffset, res, p, pow, rcArcs, prior, built, cs, offset, expand)
      invariant stop ==> lp.GetIterationCount() == 0 || NS.Stalled(lastCost, res.cost, tol)
      decreases left
    {
      nIter, left := nIter - 1, left - 1;
      assert Weighted(res.source) by { assert sol.source.nodes[i].mass != 0.0; }
      var before := res.cost;
      lastCost := before;
      var newSol, startCost;
      newSol, startCost, rcArcs, prior, built, cs, offset := Round(lp, res, p, pow, cost, threshold, expand, nAdd, UT, US);
      res := newSol;
      passes := passes + 1;
      stop := lp.GetIterationCount() == 0 || NS.Stalled(before, res.cost, tol);
    }
  }

  /**
   * solveNeighborhoodLP as written: prevCost is read from the new plan
   * before its solve, so the stopping test compares the new cost with the
   * MaxDouble every new plan starts with and stops only for a cost of at
   * least (1 - tol) MaxDouble (AsWrittenStall).
   */
  method SolveNeighborhoodLPAsWritten(lp: TransportLPSolver, sol: TransportPlan, p: real, pow: Power, cost: CostFunction, threshold: real,
      expand: bool, nAdd: int, tol: real, nIterations: int, fuel: nat, ghost UT: set<TransportNode>, ghost US: set<TransportNode>)
    returns (res: TransportPlan, ghost passes: nat, ghost rcArcs: seq<ReducedCostPath>, ghost prior: seq<map<int, Path>>,
             ghost built: seq<map<int, Path>>, ghost cs: seq<Status>, ghost offset: int)
    requires Holds(lp, sol) && Weighted(sol.source) && p != 0.0 && sol.source.Chain() && sol.target.Chain()
    requires Hierarchy(sol.target.Root(), sol.target.scale, sol.target.nodes, UT)
    requires Hierarchy(sol.source.Root(), sol.source.scale, sol.source.nodes, US)
    modifies lp`pathOffset, lp`sourceMassSupplyDistributionStart, lp`sourceMassSinkDistributionStart
    modifies lp`targetMassSupplyDistributionStart, lp`targetMassSinkDistributionStart
    modifies lp`sourceMassExchangePath, lp`targetMassExchangePath, lp`sourceCirculationPath
    modifies lp`sourceMassSupplyNode, lp`sourceMassSinkNode, lp`targetMassSupplyNode, lp`targetMassSinkNode
    modifies lp.solver`sInd, lp.solver`tInd, lp.solver`coeff, lp.solver`primal, lp.solver`colStatus, lp.solver`colLB, lp.solver`colUB
    modifies lp.solver`mass, lp.solver`rowStatus, lp.solver`dual, lp.solver`ns, lp.solver`nt
    modifies lp.solver`success, lp.solver`objValue, lp.solver`iCount
    modifies (set n | n in sol.source.nodes)`potential, (set n | n in sol.source.nodes)`piMin, (set n | n in sol.source.nodes)`piMax
    modifies (set n | n in sol.target.nodes)`potential, (set n | n in sol.target.nodes)`piMin, (set n | n in sol.target.nodes)`piMax
    modifies UT`piMin, UT`piMax, US`piMin, US`piMax
    modifies sol`outer, sol`inner
    ensures res == sol || fresh(res)
    ensures res.source == sol.source && res.target == sol.target && Holds(lp, res)
    ensures passes <= fuel && (nIterations >= 0 ==> passes <= nIterations)
    ensures passes == 0 <==> nIterations == 0 || fuel == 0
    ensures passes == 0 ==> res == sol
    ensures passes > 0 ==> Renewed(lp.solver, lp.pathOffset, res, p, pow, rcArcs, prior, built, cs, offset, expand)
    ensures passes == nIterations || passes == fuel || lp.GetIterationCount() == 0 || NS.Stalled(MaxDouble, res.cost, tol)
  {
    res := sol;
    var nIter := nIterations;
    var left := fuel;
    passes, rcArcs, prior, built, cs, offset := 0, [], sol.paths, sol.paths, [], 0;
    sol.source.RootAllocated();
    sol.target.RootAllocated();
    ghost var i :| 0 <= i < |sol.source.nodes| && sol.source.nodes[i].mass != 0.0;
    var stop := false;
    while !stop && nIter != 0 && left > 0
      invariant res == sol || fresh(res)
      invariant res.source == sol.source && res.target == sol.target && Holds(lp, res)
      invariant left == fuel - passes && nIter == nIterations - passes && (nIterations >= 0 ==> nIter >= 0)
      invariant passes == 0 ==> res == sol && !stop
      invariant passes > 0 ==> Renewed(lp.solver, lp.pathOffset, res, p, pow, rcArcs, prior, built, cs, offset, expand)
      invariant stop ==> lp.GetIterationCount() == 0 || NS.Stalled(MaxDouble, res.cost, tol)
      decreases left
    {
      nIter, left := nIter - 1, left - 1;
      assert Weighted(res.source) by { assert sol.source.nodes[i].mass != 0.0; }
      var newSol, prevCost;
      newSol, prevCost, rcArcs, prior, built, cs, offset := Round(lp, res, p, pow, cost, threshold, expand, nAdd, UT, US);
      res := newSol;
      passes := passes + 1;
      stop := lp.GetIterationCount() == 0 || NS.Stalled(prevCost, res.cost, tol);
    }
  }

  /**
   * The stopping test against MaxDouble holds exactly for costs of at least
   * (1 - tol) MaxDouble; with tol = 0.01, a pass that leaves the cost at 100
   * stops the corrected loop but not the loop as written.
   */
  lemma AsWrittenStall(c: real, tol: real)
    ensures NS.Stalled(MaxDouble, c, tol) <==> c >= (1.0 - tol) * MaxDouble
    ensures NS.Stalled(100.0, 100.0, 0.01) && !NS.Stalled(MaxDouble, 100.0, 0.01)
  {
  }

  /** The entries of a scan over the source nodes are for arcs from a source node to a target node. */
  lemma Listing(S: seq<TransportNode>, T: seq<TransportNode>, logs: seq<seq<Visit>>, sc: Search, U: set<TransportNode>)
    requires |logs| <= |S| && forall j :: 0 <= j < |logs| ==> InHierarchy(logs[j], sc, U)
    requires forall n :: n in U && n.scale == sc.tScale ==> n in T
    ensures Between(EmitAll(S, logs, sc, U), S, T)
  {
    EmitAllSound(S, logs, sc, U);
  }
}
