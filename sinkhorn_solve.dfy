/**
 * What the two Sinkhorn solvers (SinkhornPropagationStrategy and
 * MultiscaleSinkhornTransport) share: the child pairs that replace a coarse
 * arc, the mass vectors mu and nu indexed by node id, the kernel K and the
 * cost-weighted kernel U built from triplets over the arcs of the new
 * plan, the warm start that splits each coarse left scaling evenly among
 * the node's children, and the transport plan of the solve written back
 * into the arcs.
 *
 * The Sinkhorn iterations of SparseSinkhornTransport are an oracle: a
 * function from the problem it is handed (masses, matrices, tolerance,
 * iteration count, optional initial left scaling) to what the solver
 * reports afterwards (its plan's stored entries, its left scaling and the
 * first of its distances). exp is a parameter.
 */
module SinkhornSolve {
  import opened Nodes
  import opened Levels
  import opened Plans
  import opened TransportSolver
  import opened StrategyLP
  import opened NeighborhoodPropagation
  import ME = MaxEntropyPropagation
  import M = Multiscale

  /** Eigen::Triplet: the row, column and value of one sparse entry. */
  datatype Triplet = Triplet(row: int, col: int, value: real)

  /** A sparse matrix by its stored entries. */
  type Sparse = map<Arc, real>

  /**
   * What SparseSinkhornTransport::transport is given: the source masses mu,
   * the target masses nu, the kernel K, the matrix U, the tolerance, the
   * number of iterations, and the left scaling it was initialised with, if
   * any.
   */
  datatype Problem = Problem(mu: seq<real>, nu: seq<real>, kernel: Sparse, costs: Sparse, tolerance: real, iterations: int,
                             init: M.Option<seq<real>>)

  /** What the solver reports after the solve: getTransportPlan, getLeftScaling and getDistances()(0). */
  datatype Transport = Transport(plan: Sparse, leftScaling: seq<real>, distance: real)

  /** The Sinkhorn iterations, left as an oracle. */
  type Sinkhorn = Problem -> Transport

  /** The exponential function. */
  type Exp = real -> real

  /** SparseMatrix::coeff: the stored entry, 0 for an entry not stored. */
  function Coeff(m: Sparse, a: Arc): real {
    if a in m then m[a] else 0.0
  }

  // ---------------------------------------------------------------------
  // Child pairs
  // ---------------------------------------------------------------------

  /** The paths of f2 with the first n nodes of tk, in order: Path(f2, t2) with its transport cost and no weight. */
  function PairRow(f2: TransportNode, tk: seq<TransportNode>, n: nat, cost: CostFunction, p: real): seq<Path>
    requires n <= |tk|
  {
    if n == 0 then [] else PairRow(f2, tk, n - 1, cost, p) + [PairPath(f2, tk[n - 1], cost, p)]
  }

  /** The paths of every pair of one of the first m nodes of fk with a node of tk, source-major. */
  function Pairs(fk: seq<TransportNode>, m: nat, tk: seq<TransportNode>, cost: CostFunction, p: real): seq<Path>
    requires m <= |fk|
  {
    if m == 0 then [] else Pairs(fk, m - 1, tk, cost, p) + PairRow(fk[m - 1], tk, |tk|, cost, p)
  }

  /** The paths the child loops add for a coarse path q: every child of its source with every child of its target. */
  function ChildPairs(q: Path, KS: Kids, KT: Kids, cost: CostFunction, p: real): seq<Path> {
    var fk, tk := KidsOf(KS, q.from), KidsOf(KT, q.to);
    Pairs(fk, |fk|, tk, cost, p)
  }

  /** The arcs between one of the first m nodes of fk and a node of tk. */
  ghost function PairKeys(fk: seq<TransportNode>, m: nat, tk: seq<TransportNode>): set<Arc>
    requires m <= |fk|
  {
    set x, y | 0 <= x < m && 0 <= y < |tk| :: (fk[x].id, tk[y].id)
  }

  /** The arcs between a child of q's source and a child of q's target. */
  ghost function ChildKeys(q: Path, KS: Kids, KT: Kids): set<Arc> {
    var fk, tk := KidsOf(KS, q.from), KidsOf(KT, q.to);
    PairKeys(fk, |fk|, tk)
  }

  /** Each path of E has no weight and the transport cost of its own endpoints. */
  ghost predicate Fresh(E: seq<Path>, cost: CostFunction, p: real) {
    forall j :: 0 <= j < |E| ==> E[j].w == 0.0 && E[j].cost == cost(E[j].from, E[j].to, p)
  }

  /** Each path of E runs from a node of id below ns to a node of id below nt. */
  ghost predicate Between(E: seq<Path>, ns: int, nt: int) {
    forall j :: 0 <= j < |E| ==> 0 <= E[j].from.id < ns && 0 <= E[j].to.id < nt
  }

  /** The keys of a concatenation are those of its parts. */
  lemma KeysAppend(A: seq<Path>, B: seq<Path>)
    ensures KeysOf(A + B) == KeysOf(A) + KeysOf(B)
  {
    forall a | a in KeysOf(A + B)
      ensures a in KeysOf(A) + KeysOf(B)
    {
      var e :| e in A + B && e.Key() == a;
    }
  }

  /** A row of child pairs joins f2 to each of the first n nodes of tk, each path fresh. */
  lemma {:induction false} PairRowIs(f2: TransportNode, tk: seq<TransportNode>, n: nat, cost: CostFunction, p: real, ns: int, nt: int)
    requires n <= |tk|
    ensures KeysOf(PairRow(f2, tk, n, cost, p)) == set y | 0 <= y < n :: (f2.id, tk[y].id)
    ensures Fresh(PairRow(f2, tk, n, cost, p), cost, p)
    ensures 0 <= f2.id < ns && IdsBelow(tk, nt) ==> Between(PairRow(f2, tk, n, cost, p), ns, nt)
  {
    if n > 0 {
      PairRowIs(f2, tk, n - 1, cost, p, ns, nt);
      var q := PairPath(f2, tk[n - 1], cost, p);
      KeysAppend(PairRow(f2, tk, n - 1, cost, p), [q]);
      assert KeysOf([q]) == {q.Key()};
      assert (set y | 0 <= y < n :: (f2.id, tk[y].id)) == (set y | 0 <= y < n - 1 :: (f2.id, tk[y].id)) + {(f2.id, tk[n - 1].id)};
    }
  }

  /** The child pairs of the first m nodes of fk are exactly their arcs to tk, each path fresh. */
  lemma {:induction false} PairsAre(fk: seq<TransportNode>, m: nat, tk: seq<TransportNode>, cost: CostFunction, p: real, ns: int, nt: int)
    requires m <= |fk|
    ensures KeysOf(Pairs(fk, m, tk, cost, p)) == PairKeys(fk, m, tk)
    ensures Fresh(Pairs(fk, m, tk, cost, p), cost, p)
    ensures IdsBelow(fk, ns) && IdsBelow(tk, nt) ==> Between(Pairs(fk, m, tk, cost, p), ns, nt)
  {
    if m > 0 {
      PairsAre(fk, m - 1, tk, cost, p, ns, nt);
      var f2 := fk[m - 1];
      PairRowIs(f2, tk, |tk|, cost, p, ns, nt);
      KeysAppend(Pairs(fk, m - 1, tk, cost, p), PairRow(f2, tk, |tk|, cost, p));
      forall a | a in PairKeys(fk, m, tk)
        ensures a in PairKeys(fk, m - 1, tk) + (set y | 0 <= y < |tk| :: (f2.id, tk[y].id))
      {
        var x, y :| 0 <= x < m && 0 <= y < |tk| && a == (fk[x].id, tk[y].id);
        if x < m - 1 {
          assert a in PairKeys(fk, m - 1, tk);
        }
      }
    }
  }

  /** The rows addPath leaves, the counter and the list of added arcs in sol are R0 (counter c0) with the paths of E added. */
  ghost predicate Added(sol: TransportPlan, R0: seq<map<int, Path>>, c0: int, E: seq<Path>)
    reads sol`paths, sol`toPathCounts, sol`pathCounter, sol`added, sol.source`nodes, sol.target`nodes
  {
    Fits(sol) && (sol.paths, sol.pathCounter) == ME.InsertAll(R0, c0, E)
  }

  /** addPath of one path whose ends are nodes of sol's levels. */
  method AddOne(sol: TransportPlan, q: Path, ghost R0: seq<map<int, Path>>, ghost c0: int, ghost E: seq<Path>)
    requires Added(sol, R0, c0, E) && 0 <= q.from.id < |sol.paths| && 0 <= q.to.id < |sol.toPathCounts|
    modifies sol`paths, sol`pathCounter, sol`toPathCounts, sol`added
    ensures Added(sol, R0, c0, E + [q])
  {
    ghost var P, added, c := sol.paths, sol.added, sol.pathCounter;
    var index := AddToPlan(sol, q);
    ME.PlanStepIsInsert(sol.paths, P, sol.added, added, sol.pathCounter, c, q, index);
    ME.InsertAllSnoc(R0, c0, E, q);
  }

  /** The inner child loop: for each node t2 of tk, Path(f2, t2) with its transport cost. */
  method AddPairRow(sol: TransportPlan, f2: TransportNode, tk: seq<TransportNode>, p: real, cost: CostFunction,
                    ghost R0: seq<map<int, Path>>, ghost c0: int, ghost E: seq<Path>)
    requires Added(sol, R0, c0, E) && 0 <= f2.id < |sol.paths| && IdsBelow(tk, |sol.toPathCounts|)
    modifies sol`paths, sol`pathCounter, sol`toPathCounts, sol`added
    ensures Added(sol, R0, c0, E + PairRow(f2, tk, |tk|, cost, p))
    ensures |sol.paths| == old(|sol.paths|) && |sol.toPathCounts| == old(|sol.toPathCounts|)
  {
    assert E + PairRow(f2, tk, 0, cost, p) == E;
    var j := 0;
    while j < |tk|
      invariant 0 <= j <= |tk| && Added(sol, R0, c0, E + PairRow(f2, tk, j, cost, p))
      invariant |sol.paths| == old(|sol.paths|) && |sol.toPathCounts| == old(|sol.toPathCounts|)
    {
      var t2 := tk[j];
      var path := NewPath(f2, t2);
      path := path.(cost := cost(f2, t2, p));
      ghost var row := PairRow(f2, tk, j, cost, p);
      assert E + row + [path] == E + (row + [path]);
      AddOne(sol, path, R0, c0, E + row);
      j := j + 1;
    }
  }

  /** The child loops: for each node f2 of fk and t2 of tk, Path(f2, t2) with its transport cost. */
  method AddPairs(sol: TransportPlan, fk: seq<TransportNode>, tk: seq<TransportNode>, p: real, cost: CostFunction,
                  ghost R0: seq<map<int, Path>>, ghost c0: int, ghost E: seq<Path>)
    requires Added(sol, R0, c0, E) && IdsBelow(fk, |sol.paths|) && IdsBelow(tk, |sol.toPathCounts|)
    modifies sol`paths, sol`pathCounter, sol`toPathCounts, sol`added
    ensures Added(sol, R0, c0, E + Pairs(fk, |fk|, tk, cost, p))
    ensures |sol.paths| == old(|sol.paths|) && |sol.toPathCounts| == old(|sol.toPathCounts|)
  {
    assert E + Pairs(fk, 0, tk, cost, p) == E;
    var i := 0;
    while i < |fk|
      invariant 0 <= i <= |fk| && Added(sol, R0, c0, E + Pairs(fk, i, tk, cost, p))
      invariant |sol.paths| == old(|sol.paths|) && |sol.toPathCounts| == old(|sol.toPathCounts|)
    {
      var f2 := fk[i];
      AddPairRow(sol, f2, tk, p, cost, R0, c0, E + Pairs(fk, i, tk, cost, p));
      Associate(E, Pairs(fk, i, tk, cost, p), PairRow(f2, tk, |tk|, cost, p));
      i := i + 1;
    }
  }

  /** The child loops for a coarse path q whose ends list their children in KS and KT. */
  method AddChildPairs(sol: TransportPlan, q: Path, p: real, cost: CostFunction, ghost KS: Kids, ghost KT: Kids,
                       ghost R0: seq<map<int, Path>>, ghost c0: int, ghost E: seq<Path>)
    requires Added(sol, R0, c0, E) && KidsOn(KS, KT, sol) && q.from in KS && q.to in KT
    modifies sol`paths, sol`pathCounter, sol`toPathCounts, sol`added
    ensures Added(sol, R0, c0, E + ChildPairs(q, KS, KT, cost, p)) && KidsOn(KS, KT, sol)
  {
    var fk, tk := q.from.kids, q.to.kids;
    assert fk == KidsOf(KS, q.from) && tk == KidsOf(KT, q.to);
    AddPairs(sol, fk, tk, p, cost, R0, c0, E);
  }

  /** Each stored path has the transport cost of its own endpoints. */
  ghost predicate Costed(ps: seq<map<int, Path>>, cost: CostFunction, p: real) {
    forall a :: Has(ps, a) ==> Get(ps, a).cost == cost(Get(ps, a).from, Get(ps, a).to, p)
  }

  /** addPath of fresh paths into costed rows keeps them costed, and every arc the inserts create has weight 0. */
  lemma {:induction false} InsertAllCosted(ps: seq<map<int, Path>>, c: int, E: seq<Path>, cost: CostFunction, p: real)
    requires Costed(ps, cost, p) && Fresh(E, cost, p)
    ensures Costed(ME.InsertAll(ps, c, E).0, cost, p)
    decreases |E|
  {
    if E != [] {
      var n := |E| - 1;
      assert Fresh(E[..n], cost, p);
      InsertAllCosted(ps, c, E[..n], cost, p);
      var r := ME.InsertAll(ps, c, E[..n]);
      var q := E[n];
      var I := ME.Insert(r.0, r.1, q).0;
      forall a | Has(I, a)
        ensures Get(I, a).cost == cost(Get(I, a).from, Get(I, a).to, p)
      {
        if a.0 != q.from.id || a.1 != q.to.id || !(0 <= q.from.id < |r.0|) || q.to.id in r.0[q.from.id] {
          assert Has(r.0, a);
        }
      }
    }
  }

  /** The arcs of rows without arcs grown by the paths of E are exactly the keys of E. */
  lemma GrownArcs(n: nat, E: seq<Path>, cost: CostFunction, p: real, nt: int)
    requires Between(E, n, nt) && Fresh(E, cost, p)
    ensures forall a :: Has(ME.InsertAll(EmptyRows(n), 0, E).0, a) <==> a in KeysOf(E)
    ensures Costed(ME.InsertAll(EmptyRows(n), 0, E).0, cost, p)
  {
    forall a
      ensures Has(ME.InsertAll(EmptyRows(n), 0, E).0, a) <==> a in KeysOf(E)
    {
      ME.InsertAllHas(EmptyRows(n), 0, E, a);
      if a in KeysOf(E) {
        var e :| e in E && e.Key() == a;
        var j :| 0 <= j < |E| && E[j] == e;
      }
    }
    InsertAllCosted(EmptyRows(n), 0, E, cost, p);
  }

  // ---------------------------------------------------------------------
  // mu and nu
  // ---------------------------------------------------------------------

  /** The mass vector of a level: entry id holds the mass of the node with that id. */
  method FillMasses(nodes: seq<TransportNode>) returns (mu: array<real>)
    requires IdsArePositions(nodes)
    ensures fresh(mu) && mu[..] == Masses(nodes)
  {
    mu := new real[|nodes|];
    var i := 0;
    while i < |nodes|
      invariant 0 <= i <= |nodes|
      invariant forall j :: 0 <= j < i ==> mu[j] == nodes[j].mass
    {
      var id := nodes[i].id;
      mu[id] := nodes[i].mass;
      i := i + 1;
    }
  }

  // ---------------------------------------------------------------------
  // The kernel matrices
  // ---------------------------------------------------------------------

  /** SparseMatrix::setFromTriplets: the entries of the triplets, duplicates summed. */
  function FromTriplets(ts: seq<Triplet>): Sparse {
    if ts == [] then map[]
    else
      var m := FromTriplets(ts[..|ts| - 1]);
      var t := ts[|ts| - 1];
      m[(t.row, t.col) := Coeff(m, (t.row, t.col)) + t.value]
  }

  /** The position of triplet t. */
  function At(t: Triplet): Arc {
    (t.row, t.col)
  }

  /** Triplets at distinct positions give a matrix that stores each one's value at its position, and nothing else. */
  lemma {:induction false} DistinctTriplets(ts: seq<Triplet>)
    requires forall j, l :: 0 <= j < l < |ts| ==> At(ts[j]) != At(ts[l])
    ensures forall j :: 0 <= j < |ts| ==> At(ts[j]) in FromTriplets(ts) && FromTriplets(ts)[At(ts[j])] == ts[j].value
    ensures forall a :: a in FromTriplets(ts) ==> exists j :: 0 <= j < |ts| && At(ts[j]) == a
  {
    if ts != [] {
      var n := |ts| - 1;
      DistinctTriplets(ts[..n]);
      var m := FromTriplets(ts[..n]);
      assert At(ts[n]) !in m;
      forall a | a in FromTriplets(ts)
        ensures exists j :: 0 <= j < |ts| && At(ts[j]) == a
      {
        if a != At(ts[n]) {
          var j :| 0 <= j < n && At(ts[..n][j]) == a;
          assert At(ts[j]) == a;
        }
      }
    }
  }

  /** exp(-lambda d), the kernel value of transport cost d. */
  function Decay(d: real, lambda: real, exp: Exp): real {
    exp(-lambda * d)
  }

  /** The K entry of an arc of transport cost d: exp(-lambda d). */
  function KernelEntry(a: Arc, d: real, lambda: real, exp: Exp): Triplet {
    Triplet(a.0, a.1, Decay(d, lambda, exp))
  }

  /** The U entry of an arc of transport cost d: d exp(-lambda d). */
  function CostEntry(a: Arc, d: real, lambda: real, exp: Exp): Triplet {
    Triplet(a.0, a.1, d * Decay(d, lambda, exp))
  }

  /**
   * The triplet loop: walking the new plan's arcs in increasing order, one
   * K entry and one U entry per arc, at the arc's row and column.
   */
  method Kernels(sol: TransportPlan, lambda: real, exp: Exp) returns (KList: seq<Triplet>, UList: seq<Triplet>, ghost order: seq<Arc>)
    requires sol.Valid()
    modifies sol`outer, sol`inner
    ensures Increasing(order) && (forall a :: a in order <==> Has(sol.paths, a))
    ensures Triplets(sol.paths, order, KList, UList, lambda, exp)
  {
    ghost var P := sol.paths;
    ghost var D: set<Arc> := {};
    KList, UList, order := [], [], [];
    sol.Begin();
    while !sol.IsAtEnd()
      invariant ME.Walking(sol, P, D, order) && Triplets(P, order, KList, UList, lambda, exp)
      decreases sol.Remaining()
    {
      var path := sol.Current();
      ghost var c: Arc := (sol.outer, sol.inner);
      assert Has(P, c) && path == Get(P, c) && path.Key() == c;
      var d := path.cost;
      var e := Decay(d, lambda, exp);
      var i := path.from.id;
      var j := path.to.id;
      TripletsSnoc(P, order, KList, UList, lambda, exp, c, d, e);
      KList := KList + [Triplet(i, j, e)];
      UList := UList + [Triplet(i, j, d * e)];
      D, order := ME.Advance(sol, P, D, order);
    }
    InArcSetAll(P, D);
    forall a
      ensures a in order <==> Has(P, a)
    {
      InArcSet(P, a);
    }
  }

  /** The triplet lists hold one K entry and one U entry for each arc of order, in order. */
  ghost predicate Triplets(P: seq<map<int, Path>>, order: seq<Arc>, KList: seq<Triplet>, UList: seq<Triplet>, lambda: real, exp: Exp) {
    && |KList| == |order| && |UList| == |order|
    && (forall j :: 0 <= j < |order| ==> Has(P, order[j]))
    && (forall j :: 0 <= j < |order| ==> KList[j] == KernelEntry(order[j], Get(P, order[j]).cost, lambda, exp))
    && (forall j :: 0 <= j < |order| ==> UList[j] == CostEntry(order[j], Get(P, order[j]).cost, lambda, exp))
  }

  /** The entries of one more arc c of cost d, with e its exp(-lambda d), extend the lists. */
  lemma TripletsSnoc(P: seq<map<int, Path>>, order: seq<Arc>, KList: seq<Triplet>, UList: seq<Triplet>, lambda: real, exp: Exp,
                     c: Arc, d: real, e: real)
    requires Triplets(P, order, KList, UList, lambda, exp) && Has(P, c) && d == Get(P, c).cost && e == Decay(d, lambda, exp)
    ensures Triplets(P, order + [c], KList + [Triplet(c.0, c.1, e)], UList + [Triplet(c.0, c.1, d * e)], lambda, exp)
  {
    var o, K, U := order + [c], KList + [Triplet(c.0, c.1, e)], UList + [Triplet(c.0, c.1, d * e)];
    assert o[|order|] == c;
    assert K[|order|] == KernelEntry(c, Get(P, c).cost, lambda, exp);
    assert U[|order|] == CostEntry(c, Get(P, c).cost, lambda, exp);
    forall j | 0 <= j < |order|
      ensures o[j] == order[j] && K[j] == KList[j] && U[j] == UList[j]
    {
    }
  }

  /** K holds exp(-lambda d) at every arc of P of transport cost d, and nothing else. */
  ghost predicate KernelOf(K: Sparse, P: seq<map<int, Path>>, lambda: real, exp: Exp) {
    (forall a :: a in K <==> Has(P, a)) && forall a :: Has(P, a) ==> K[a] == Decay(Get(P, a).cost, lambda, exp)
  }

  /** U holds d exp(-lambda d) at every arc of P of transport cost d, and nothing else: the costs times K, entry by entry. */
  ghost predicate CostsOf(U: Sparse, P: seq<map<int, Path>>, lambda: real, exp: Exp) {
    (forall a :: a in U <==> Has(P, a)) && forall a :: Has(P, a) ==> U[a] == Get(P, a).cost * Decay(Get(P, a).cost, lambda, exp)
  }

  /** Triplets at the arcs of an increasing walk over every arc of P, one per arc, give a matrix stored exactly at the arcs of P. */
  lemma OnePerArc(P: seq<map<int, Path>>, order: seq<Arc>, ts: seq<Triplet>)
    requires Increasing(order) && (forall a :: a in order <==> Has(P, a))
    requires |ts| == |order| && forall j :: 0 <= j < |order| ==> At(ts[j]) == order[j]
    ensures forall a :: a in FromTriplets(ts) <==> Has(P, a)
    ensures forall j :: 0 <= j < |order| ==> FromTriplets(ts)[order[j]] == ts[j].value
  {
    DistinctTriplets(ts);
    forall a | Has(P, a)
      ensures a in FromTriplets(ts)
    {
      assert a in order;
      var j :| 0 <= j < |order| && order[j] == a;
    }
  }

  /**
   * The triplets of the loop, one per arc of an increasing walk over every
   * arc of P, build K and U with one entry per arc: no two triplets meet,
   * so setFromTriplets sums nothing.
   */
  lemma KernelMatrices(P: seq<map<int, Path>>, order: seq<Arc>, KList: seq<Triplet>, UList: seq<Triplet>, lambda: real, exp: Exp)
    requires Increasing(order) && (forall a :: a in order <==> Has(P, a))
    requires Triplets(P, order, KList, UList, lambda, exp)
    ensures KernelOf(FromTriplets(KList), P, lambda, exp) && CostsOf(FromTriplets(UList), P, lambda, exp)
  {
    OnePerArc(P, order, KList);
    OnePerArc(P, order, UList);
    forall a | Has(P, a)
      ensures FromTriplets(KList)[a] == Decay(Get(P, a).cost, lambda, exp)
      ensures FromTriplets(UList)[a] == Get(P, a).cost * Decay(Get(P, a).cost, lambda, exp)
    {
      assert a in order;
      var j :| 0 <= j < |order| && order[j] == a;
      assert FromTriplets(KList)[order[j]] == KList[j].value;
      assert FromTriplets(UList)[order[j]] == UList[j].value;
    }
  }

  // ---------------------------------------------------------------------
  // Warm start
  // ---------------------------------------------------------------------

  /** Up numbers the children K lists for the nodes of N: each child's id maps to the position of the node listing it. */
  ghost predicate Partition(N: seq<TransportNode>, K: Kids, Up: map<int, int>) {
    forall j, c :: 0 <= j < |N| && c in KidsOf(K, N[j]) ==> c.id in Up && Up[c.id] == j
  }

  /** In v, every child of the j-th node of N has that node's scaling divided by its number of children. */
  ghost predicate Split(v: seq<real>, N: seq<TransportNode>, scaling: seq<real>, K: Kids) {
    forall j, c :: 0 <= j < |N| && j < |scaling| && c in KidsOf(K, N[j]) ==>
      0 <= c.id < |v| && v[c.id] == scaling[j] / (|KidsOf(K, N[j])| as real)
  }

  /**
   * The warm start over the coarse source nodes N with left scaling
   * `scaling`: each child of node j gets scaling(j) divided by the number
   * of children of j. The vector is handed to the solver after each
   * coarse node, so the solver is initialised exactly when there is one.
   * Entries of fine nodes no coarse node lists are never written (the
   * source leaves them uninitialised).
   */
  method WarmStart(N: seq<TransportNode>, scaling: seq<real>, n: int, ghost K: Kids, ghost Up: map<int, int>) returns (init: M.Option<seq<real>>)
    requires IdsArePositions(N) && |N| <= |scaling| && 0 <= n
    requires Mirrors(K) && (forall j :: 0 <= j < |N| ==> N[j] in K) && KidsBelow(K, n) && Partition(N, K, Up)
    ensures init.None? <==> |N| == 0
    ensures init.Some? ==> |init.value| == n && Split(init.value, N, scaling, K)
  {
    var ls := new real[n];
    init := M.None;
    var i := 0;
    while i < |N|
      invariant 0 <= i <= |N| && (init.None? <==> i == 0) && (init.Some? ==> init.value == ls[..])
      invariant forall j, c :: 0 <= j < i && c in KidsOf(K, N[j]) ==> ls[c.id] == scaling[j] / (|KidsOf(K, N[j])| as real)
    {
      var kids := N[i].kids;
      assert kids == KidsOf(K, N[i]);
      var index := N[i].id;
      // without children the source divides by zero, but then writes nothing
      var s := if |kids| == 0 then 0.0 else scaling[index] / (|kids| as real);
      SplitInto(ls, kids, s);
      forall j, c | 0 <= j <= i && c in KidsOf(K, N[j])
        ensures ls[c.id] == scaling[j] / (|KidsOf(K, N[j])| as real)
      {
        if j < i {
          assert Up[c.id] == j;
          assert forall k :: k in kids ==> Up[k.id] == i;
        }
      }
      init := M.Some(ls[..]);
      i := i + 1;
    }
  }

  /** The inner warm-start loop: entry id of each of kids becomes s; no other entry changes. */
  method SplitInto(ls: array<real>, kids: seq<TransportNode>, s: real)
    requires IdsBelow(kids, ls.Length)
    modifies ls
    ensures forall c :: c in kids ==> ls[c.id] == s
    ensures forall x :: 0 <= x < ls.Length && (forall c :: c in kids ==> c.id != x) ==> ls[x] == old(ls[x])
  {
    var k := 0;
    while k < |kids|
      invariant 0 <= k <= |kids|
      invariant forall j :: 0 <= j < k ==> ls[kids[j].id] == s
      invariant forall x :: 0 <= x < ls.Length && (forall j :: 0 <= j < k ==> kids[j].id != x) ==> ls[x] == old(ls[x])
    {
      var node := kids[k];
      ls[node.id] := s;
      k := k + 1;
    }
    forall c | c in kids
      ensures ls[c.id] == s
    {
      var j :| 0 <= j < |kids| && kids[j] == c;
    }
  }

  /** The entries of v at the ids of the first m nodes of kids, added up. */
  function SumAt(v: seq<real>, kids: seq<TransportNode>, m: nat): real
    requires m <= |kids| && IdsBelow(kids, |v|)
  {
    if m == 0 then 0.0 else SumAt(v, kids, m - 1) + v[kids[m - 1].id]
  }

  /** m equal entries x add up to m x. */
  lemma {:induction false} SumOfEqual(v: seq<real>, kids: seq<TransportNode>, m: nat, x: real)
    requires m <= |kids| && IdsBelow(kids, |v|) && forall j :: 0 <= j < |kids| ==> v[kids[j].id] == x
    ensures SumAt(v, kids, m) == (m as real) * x
  {
    if m > 0 {
      SumOfEqual(v, kids, m - 1, x);
    }
  }

  /** The warm start conserves each coarse scaling: children given x / k each, k of them, add up to x. */
  lemma SplitConserves(v: seq<real>, kids: seq<TransportNode>, x: real)
    requires IdsBelow(kids, |v|) && |kids| > 0 && forall c :: c in kids ==> v[c.id] == x / (|kids| as real)
    ensures SumAt(v, kids, |kids|) == x
  {
    forall i | 0 <= i < |kids|
      ensures v[kids[i].id] == x / (|kids| as real)
    {
      assert kids[i] in kids;
    }
    SumOfEqual(v, kids, |kids|, x / (|kids| as real));
    Evenly(|kids| as real, x);
  }

  /** k equal parts of x make x again. */
  lemma Evenly(k: real, x: real)
    requires k != 0.0
    ensures k * (x / k) == x
  {
  }

  // ---------------------------------------------------------------------
  // Storing the solution
  // ---------------------------------------------------------------------

  /** Rows Q store the arcs of P; those in D carry the plan's coefficient at their key as weight, the others are as in P. */
  ghost predicate Coefficients(Q: seq<map<int, Path>>, P: seq<map<int, Path>>, D: set<Arc>, plan: Sparse) {
    && |Q| == |P|
    && (forall a :: Has(Q, a) <==> Has(P, a))
    && (forall a :: Has(P, a) ==> Get(Q, a) == if a in D then Get(P, a).(w := Coeff(plan, a)) else Get(P, a))
  }

  /** Writing the coefficient of the current arc c extends the written arcs to D + {c}. */
  lemma CoefficientStep(Q: seq<map<int, Path>>, Q': seq<map<int, Path>>, P: seq<map<int, Path>>, D: set<Arc>, plan: Sparse, c: Arc, w: real)
    requires Coefficients(Q, P, D, plan) && Has(Q, c) && DoneUpTo(Q, D, false, c)
    requires Q' == Q[c.0 := Q[c.0][c.1 := Get(Q, c).(w := w)]] && w == Coeff(plan, c)
    ensures Coefficients(Q', P, D + {c}, plan) && DoneUpTo(Q', D, false, c)
  {
    assert forall b :: Has(Q', b) <==> Has(Q, b);
  }

  /** The loop over the solved plan: every arc takes the plan's coefficient at its row and column as weight. */
  method StorePlan(sol: TransportPlan, plan: Sparse)
    requires sol.Valid()
    modifies sol`paths, sol`outer, sol`inner
    ensures sol.Valid() && (old(sol.Dense()) ==> sol.Dense())
    ensures Coefficients(sol.paths, old(sol.paths), ArcSet(old(sol.paths)), plan)
  {
    ghost var P := sol.paths;
    ghost var dense := sol.Dense();
    ghost var D: set<Arc> := {};
    sol.Begin();
    while !sol.IsAtEnd()
      invariant sol.Valid() && sol.Cursor() && (dense ==> sol.Dense())
      invariant Coefficients(sol.paths, P, D, plan)
      invariant DoneUpTo(sol.paths, D, sol.IsAtEnd(), (sol.outer, sol.inner))
      decreases sol.Remaining()
    {
      var path := sol.Current();
      ghost var c: Arc := (sol.outer, sol.inner);
      ghost var Q := sol.paths;
      var i := path.from.id;
      var j := path.to.id;
      var w := Coeff(plan, (i, j));
      sol.SetCurrentWeight(w);
      CoefficientStep(Q, sol.paths, P, D, plan, c, w);
      sol.Pass(D);
      D := D + {c};
    }
    InArcSetAll(sol.paths, D);
    SameArcs(sol.paths, P);
  }

  /** The matrices the solve is handed: K and U built from the triplets of the plan's arcs, and the two mass vectors. */
  method Prepare(sol: TransportPlan, lambda: real, exp: Exp) returns (mu: seq<real>, nu: seq<real>, K: Sparse, U: Sparse)
    requires Fits(sol)
    modifies sol`outer, sol`inner
    ensures mu == Masses(sol.source.nodes) && nu == Masses(sol.target.nodes)
    ensures KernelOf(K, sol.paths, lambda, exp) && CostsOf(U, sol.paths, lambda, exp)
  {
    var muA := FillMasses(sol.source.nodes);
    var nuA := FillMasses(sol.target.nodes);
    mu, nu := muA[..], nuA[..];
    var KList, UList, order := Kernels(sol, lambda, exp);
    K := FromTriplets(KList);
    U := FromTriplets(UList);
    KernelMatrices(sol.paths, order, KList, UList, lambda, exp);
  }

  /**
   * The solve and what is stored of it: every arc's weight becomes the
   * coefficient of the solver's plan at its row and column, the plan keeps
   * the solver's left scaling, and its cost is the solver's distance.
   */
  method Finish(sol: TransportPlan, problem: Problem, sinkhorn: Sinkhorn)
    requires sol.Valid()
    modifies sol`paths, sol`outer, sol`inner, sol`leftScaling, sol`cost
    ensures sol.Valid() && (old(sol.Dense()) ==> sol.Dense())
    ensures Coefficients(sol.paths, old(sol.paths), ArcSet(old(sol.paths)), sinkhorn(problem).plan)
    ensures sol.leftScaling == sinkhorn(problem).leftScaling && sol.cost == sinkhorn(problem).distance
  {
    var result := sinkhorn(problem);
    StorePlan(sol, result.plan);
    sol.leftScaling := result.leftScaling;
    sol.cost := result.distance;
  }
}
