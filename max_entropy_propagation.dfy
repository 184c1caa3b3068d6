/**
 * MaxEntropyPropagationStrategy: the fine plan is not solved for but
 * spread from the coarse primary plan. Every coarse arc is replaced by all
 * pairs of a child of its source and a child of its target; each pair
 * gets the transport cost of its endpoints and a share of the coarse
 * arc's weight proportional to the product of the children's masses (the
 * maximum entropy coupling of the two child sets). The plan's cost is the
 * weighted sum of the child arcs' costs, and every child inherits its
 * parent's potential.
 *
 * As written, the weight of a child pair reads the weight of the pair's
 * own new path, which is 0, and not the coarse arc's weight: `Split`
 * keeps both readings (see AsWrittenDropsFlow).
 *
 * Children and masses are read through value maps KS, KT (children of
 * coarse source and target nodes) and M (masses of fine nodes) that agree
 * with the nodes' fields.
 */
module MaxEntropyPropagation {
  import opened Nodes
  import opened Levels
  import opened Plans
  import opened TransportSolver
  import opened StrategyLP
  import opened NeighborhoodPropagation

  type Masses = map<TransportNode, real>

  /** The mass M gives n, 0 when it has none. */
  function MassOf(M: Masses, n: TransportNode): real {
    if n in M then M[n] else 0.0
  }

  /** M holds the mass of each of its nodes. */
  ghost predicate MassesOn(M: Masses)
    reads M.Keys`mass
  {
    forall n :: n in M ==> n.mass == M[n]
  }

  /** Every node of ns has a mass in M. */
  predicate Weighed(ns: seq<TransportNode>, M: Masses) {
    forall j :: 0 <= j < |ns| ==> ns[j] in M
  }

  /** Every child listed in K has a mass in M. */
  ghost predicate KidsWeighed(K: Kids, M: Masses) {
    forall n :: n in K ==> Weighed(K[n], M)
  }

  /** The sum of the masses of the first n nodes of ns. */
  function TotalMass(ns: seq<TransportNode>, n: nat, M: Masses): real
    requires n <= |ns|
  {
    if n == 0 then 0.0 else TotalMass(ns, n - 1, M) + MassOf(M, ns[n - 1])
  }

  /** The inner loop of sumw: x times the mass of each of the first n nodes of tk, in order. */
  function RowMass(x: real, tk: seq<TransportNode>, n: nat, M: Masses): real
    requires n <= |tk|
  {
    if n == 0 then 0.0 else RowMass(x, tk, n - 1, M) + x * MassOf(M, tk[n - 1])
  }

  /** sumw over the first m children of fk: the products of their masses with those of tk. */
  function SumW(fk: seq<TransportNode>, m: nat, tk: seq<TransportNode>, M: Masses): real
    requires m <= |fk|
  {
    if m == 0 then 0.0 else SumW(fk, m - 1, tk, M) + RowMass(MassOf(M, fk[m - 1]), tk, |tk|, M)
  }

  /** A row of sumw is x times the total mass of the row's targets. */
  lemma {:induction false} RowMassIsProduct(x: real, tk: seq<TransportNode>, n: nat, M: Masses)
    requires n <= |tk|
    ensures RowMass(x, tk, n, M) == x * TotalMass(tk, n, M)
  {
    if n > 0 {
      RowMassIsProduct(x, tk, n - 1, M);
    }
  }

  /** The normaliser sumw is the total mass of the source children times that of the target children. */
  lemma {:induction false} SumWIsProduct(fk: seq<TransportNode>, m: nat, tk: seq<TransportNode>, M: Masses)
    requires m <= |fk|
    ensures SumW(fk, m, tk, M) == TotalMass(fk, m, M) * TotalMass(tk, |tk|, M)
  {
    if m > 0 {
      SumWIsProduct(fk, m - 1, tk, M);
      RowMassIsProduct(MassOf(M, fk[m - 1]), tk, |tk|, M);
    }
  }

  /**
   * Which weight a child pair's share is taken of: Proportional takes the
   * coarse arc's weight; AsWritten takes the weight of the pair's own new
   * path, Path(f2, t2), which the declaration inside the loop shadows the
   * coarse path with.
   */
  datatype Split = Proportional | AsWritten

  /**
   * The path added for children f2 and t2 of a coarse arc of weight w:
   * the transport cost of f2 and t2 and the share m(f2) m(t2) w / sumw of
   * the weight (0 when sumw is 0).
   */
  function Child(split: Split, f2: TransportNode, t2: TransportNode, w: real, sumw: real, M: Masses, cost: CostFunction, p: real): Path {
    var path := NewPath(f2, t2).(cost := cost(f2, t2, p));
    var carried := if split == Proportional then w else path.w;
    path.(w := Share(MassOf(M, f2) * MassOf(M, t2), carried, sumw))
  }

  /** The share x w / sumw, written x (w / sumw); 0 when sumw is 0. */
  function Share(x: real, w: real, sumw: real): real {
    if sumw == 0.0 then 0.0 else x * (w / sumw)
  }

  /** The source's order of evaluation, x w / sumw, gives the same share. */
  lemma ShareForm(x: real, w: real, sumw: real)
    requires sumw != 0.0
    ensures x * w / sumw == Share(x, w, sumw)
  {
  }

  /** The child paths of f2 with the first n children of tk, in order. */
  function BlockRow(split: Split, f2: TransportNode, tk: seq<TransportNode>, n: nat, w: real, sumw: real, M: Masses,
                    cost: CostFunction, p: real): seq<Path>
    requires n <= |tk|
  {
    if n == 0 then [] else BlockRow(split, f2, tk, n - 1, w, sumw, M, cost, p) + [Child(split, f2, tk[n - 1], w, sumw, M, cost, p)]
  }

  /** The child paths of the first m children of fk with the children tk, source-major. */
  function Block(split: Split, fk: seq<TransportNode>, m: nat, tk: seq<TransportNode>, w: real, sumw: real, M: Masses,
                 cost: CostFunction, p: real): seq<Path>
    requires m <= |fk|
  {
    if m == 0 then [] else Block(split, fk, m - 1, tk, w, sumw, M, cost, p) + BlockRow(split, fk[m - 1], tk, |tk|, w, sumw, M, cost, p)
  }

  /** The child paths one coarse path q is replaced by. */
  function PathBlock(split: Split, q: Path, KS: Kids, KT: Kids, M: Masses, cost: CostFunction, p: real): seq<Path> {
    var fk, tk := KidsOf(KS, q.from), KidsOf(KT, q.to);
    Block(split, fk, |fk|, tk, q.w, SumW(fk, |fk|, tk, M), M, cost, p)
  }

  /** The child paths of the coarse arcs of P in the order given. */
  ghost function Queue(split: Split, P: seq<map<int, Path>>, order: seq<Arc>, KS: Kids, KT: Kids, M: Masses, cost: CostFunction, p: real): seq<Path>
    decreases |order|
  {
    if order == [] then []
    else
      var a := order[|order| - 1];
      Queue(split, P, order[..|order| - 1], KS, KT, M, cost, p) + (if Has(P, a) then PathBlock(split, Get(P, a), KS, KT, M, cost, p) else [])
  }

  /** The sum of the weights of the paths of E. */
  function TotalWeight(E: seq<Path>): real {
    if E == [] then 0.0 else TotalWeight(E[..|E| - 1]) + E[|E| - 1].w
  }

  /** The cost the loop accumulates over the paths of E: the sum of weight times cost. */
  function WeightedCost(E: seq<Path>): real {
    if E == [] then 0.0 else WeightedCost(E[..|E| - 1]) + E[|E| - 1].w * E[|E| - 1].cost
  }

  /** The sum of the weights of the arcs of P in the order given. */
  ghost function CoarseWeight(P: seq<map<int, Path>>, order: seq<Arc>): real
    decreases |order|
  {
    if order == [] then 0.0
    else
      var a := order[|order| - 1];
      CoarseWeight(P, order[..|order| - 1]) + (if Has(P, a) then Get(P, a).w else 0.0)
  }

  /** Weights add up over a concatenation. */
  lemma {:induction false} TotalWeightAppend(a: seq<Path>, b: seq<Path>)
    ensures TotalWeight(a + b) == TotalWeight(a) + TotalWeight(b)
    decreases |b|
  {
    if b == [] {
      assert a + b == a;
    } else {
      var n := |b| - 1;
      assert (a + b)[..|a + b| - 1] == a + b[..n];
      assert (a + b)[|a + b| - 1] == b[n];
      TotalWeightAppend(a, b[..n]);
    }
  }

  /** The weights of E + [c]. */
  lemma TotalWeightSnoc(E: seq<Path>, c: Path)
    ensures TotalWeight(E + [c]) == TotalWeight(E) + c.w
  {
    assert (E + [c])[..|E|] == E;
  }

  /** The shares m(f2) m(t2) k of a row of child pairs, summed in order. */
  function RowShares(x: real, tk: seq<TransportNode>, n: nat, M: Masses, k: real): real
    requires n <= |tk|
  {
    if n == 0 then 0.0 else RowShares(x, tk, n - 1, M, k) + x * MassOf(M, tk[n - 1]) * k
  }

  /** The shares of the rows of the first m source children, summed in order. */
  function BlockShares(fk: seq<TransportNode>, m: nat, tk: seq<TransportNode>, M: Masses, k: real): real
    requires m <= |fk|
  {
    if m == 0 then 0.0 else BlockShares(fk, m - 1, tk, M, k) + RowShares(MassOf(M, fk[m - 1]), tk, |tk|, M, k)
  }

  /** The weights of a row of proportional child paths are the row's shares of w / sumw. */
  lemma {:induction false} RowSpread(f2: TransportNode, tk: seq<TransportNode>, n: nat, w: real, sumw: real, M: Masses,
                                     cost: CostFunction, p: real)
    requires n <= |tk| && sumw != 0.0
    ensures TotalWeight(BlockRow(Proportional, f2, tk, n, w, sumw, M, cost, p)) == RowShares(MassOf(M, f2), tk, n, M, w / sumw)
  {
    if n > 0 {
      RowSpread(f2, tk, n - 1, w, sumw, M, cost, p);
      TotalWeightSnoc(BlockRow(Proportional, f2, tk, n - 1, w, sumw, M, cost, p), Child(Proportional, f2, tk[n - 1], w, sumw, M, cost, p));
    }
  }

  /** The weights of the proportional child paths of m source children are their shares of w / sumw. */
  lemma {:induction false} BlockSpread(fk: seq<TransportNode>, m: nat, tk: seq<TransportNode>, w: real, sumw: real, M: Masses,
                                       cost: CostFunction, p: real)
    requires m <= |fk| && sumw != 0.0
    ensures TotalWeight(Block(Proportional, fk, m, tk, w, sumw, M, cost, p)) == BlockShares(fk, m, tk, M, w / sumw)
  {
    if m > 0 {
      BlockSpread(fk, m - 1, tk, w, sumw, M, cost, p);
      RowSpread(fk[m - 1], tk, |tk|, w, sumw, M, cost, p);
      TotalWeightAppend(Block(Proportional, fk, m - 1, tk, w, sumw, M, cost, p), BlockRow(Proportional, fk[m - 1], tk, |tk|, w, sumw, M, cost, p));
    }
  }

  /** A row's shares of k are its part of sumw times k. */
  lemma {:induction false} RowSharesScale(x: real, tk: seq<TransportNode>, n: nat, M: Masses, k: real)
    requires n <= |tk|
    ensures RowShares(x, tk, n, M, k) == RowMass(x, tk, n, M) * k
  {
    if n > 0 {
      RowSharesScale(x, tk, n - 1, M, k);
      Distribute(RowMass(x, tk, n - 1, M), x * MassOf(M, tk[n - 1]), k);
    }
  }

  /** The shares of k of m source children are their part of sumw times k. */
  lemma {:induction false} BlockSharesScale(fk: seq<TransportNode>, m: nat, tk: seq<TransportNode>, M: Masses, k: real)
    requires m <= |fk|
    ensures BlockShares(fk, m, tk, M, k) == SumW(fk, m, tk, M) * k
  {
    if m > 0 {
      BlockSharesScale(fk, m - 1, tk, M, k);
      RowSharesScale(MassOf(M, fk[m - 1]), tk, |tk|, M, k);
      Distribute(SumW(fk, m - 1, tk, M), RowMass(MassOf(M, fk[m - 1]), tk, |tk|, M), k);
    }
  }

  /** (a + b) k = a k + b k. */
  lemma Distribute(a: real, b: real, k: real)
    ensures (a + b) * k == a * k + b * k
  {
  }

  /** sumw (w / sumw) = w. */
  lemma Cancel(s: real, w: real)
    requires s != 0.0
    ensures s * (w / s) == w
  {
  }

  /**
   * Propagation keeps the mass a coarse arc moves: when its children carry
   * mass (sumw is not 0), the weights of its child paths add up to its own
   * weight.
   */
  lemma BlockConserves(q: Path, KS: Kids, KT: Kids, M: Masses, cost: CostFunction, p: real)
    requires SumW(KidsOf(KS, q.from), |KidsOf(KS, q.from)|, KidsOf(KT, q.to), M) != 0.0
    ensures TotalWeight(PathBlock(Proportional, q, KS, KT, M, cost, p)) == q.w
  {
    var fk, tk := KidsOf(KS, q.from), KidsOf(KT, q.to);
    var s := SumW(fk, |fk|, tk, M);
    BlockSpread(fk, |fk|, tk, q.w, s, M, cost, p);
    BlockSharesScale(fk, |fk|, tk, M, q.w / s);
    Cancel(s, q.w);
  }

  /** The children of an arc of P carry mass. */
  ghost predicate Carried(P: seq<map<int, Path>>, KS: Kids, KT: Kids, M: Masses) {
    forall a :: Has(P, a) ==>
      SumW(KidsOf(KS, Get(P, a).from), |KidsOf(KS, Get(P, a).from)|, KidsOf(KT, Get(P, a).to), M) != 0.0
  }

  /** The fine plan moves what the coarse plan moved: the child paths' weights add up to the coarse arcs' weights. */
  lemma {:induction false} QueueConserves(P: seq<map<int, Path>>, order: seq<Arc>, KS: Kids, KT: Kids, M: Masses, cost: CostFunction, p: real)
    requires Carried(P, KS, KT, M)
    ensures TotalWeight(Queue(Proportional, P, order, KS, KT, M, cost, p)) == CoarseWeight(P, order)
    decreases |order|
  {
    if order != [] {
      var a := order[|order| - 1];
      var front := order[..|order| - 1];
      QueueConserves(P, front, KS, KT, M, cost, p);
      var block := if Has(P, a) then PathBlock(Proportional, Get(P, a), KS, KT, M, cost, p) else [];
      TotalWeightAppend(Queue(Proportional, P, front, KS, KT, M, cost, p), block);
      if Has(P, a) {
        BlockConserves(Get(P, a), KS, KT, M, cost, p);
      }
    }
  }

  /** Every as-written child path has weight 0. */
  lemma {:induction false} AsWrittenRowZero(f2: TransportNode, tk: seq<TransportNode>, n: nat, w: real, sumw: real, M: Masses, cost: CostFunction, p: real)
    requires n <= |tk|
    ensures TotalWeight(BlockRow(AsWritten, f2, tk, n, w, sumw, M, cost, p)) == 0.0
  {
    if n > 0 {
      var c := Child(AsWritten, f2, tk[n - 1], w, sumw, M, cost, p);
      AsWrittenRowZero(f2, tk, n - 1, w, sumw, M, cost, p);
      TotalWeightAppend(BlockRow(AsWritten, f2, tk, n - 1, w, sumw, M, cost, p), [c]);
      assert [c][..0] == [];
    }
  }

  /** The as-written child paths of m source children weigh nothing together. */
  lemma {:induction false} AsWrittenBlockZero(fk: seq<TransportNode>, m: nat, tk: seq<TransportNode>, w: real, sumw: real, M: Masses, cost: CostFunction, p: real)
    requires m <= |fk|
    ensures TotalWeight(Block(AsWritten, fk, m, tk, w, sumw, M, cost, p)) == 0.0
  {
    if m > 0 {
      AsWrittenBlockZero(fk, m - 1, tk, w, sumw, M, cost, p);
      AsWrittenRowZero(fk[m - 1], tk, |tk|, w, sumw, M, cost, p);
      TotalWeightAppend(Block(AsWritten, fk, m - 1, tk, w, sumw, M, cost, p), BlockRow(AsWritten, fk[m - 1], tk, |tk|, w, sumw, M, cost, p));
    }
  }

  /**
   * As written, the flow is lost: a coarse arc that moves mass (w > 0) is
   * replaced by child paths of total weight 0.
   */
  lemma AsWrittenDropsFlow(q: Path, KS: Kids, KT: Kids, M: Masses, cost: CostFunction, p: real)
    requires q.w > 0.0
    ensures TotalWeight(PathBlock(AsWritten, q, KS, KT, M, cost, p)) == 0.0 != q.w
  {
    var fk, tk := KidsOf(KS, q.from), KidsOf(KT, q.to);
    AsWrittenBlockZero(fk, |fk|, tk, q.w, SumW(fk, |fk|, tk, M), M, cost, p);
  }

  /** addPath on rows ps with counter c, as a value: a new arc gets index c, a present one the larger weight. */
  function Insert(ps: seq<map<int, Path>>, c: int, q: Path): (seq<map<int, Path>>, int) {
    var f, t := q.from.id, q.to.id;
    if !(0 <= f < |ps|) then (ps, c)
    else if t in ps[f] then (ps[f := ps[f][t := ps[f][t].(w := Max(ps[f][t].w, q.w))]], c)
    else (ps[f := ps[f][t := q.(index := c)]], c + 1)
  }

  /** addPath for each path of E in turn. */
  function InsertAll(ps: seq<map<int, Path>>, c: int, E: seq<Path>): (seq<map<int, Path>>, int) {
    if E == [] then (ps, c)
    else
      var r := InsertAll(ps, c, E[..|E| - 1]);
      Insert(r.0, r.1, E[|E| - 1])
  }

  /** The rows addPath leaves are the value Insert computes. */
  lemma PlanStepIsInsert(Q: seq<map<int, Path>>, P: seq<map<int, Path>>, added': seq<Arc>, added: seq<Arc>, c': int, c: int, q: Path, index: int)
    requires PlanStep(Q, P, added', added, c', c, q, index) && |Q| == |P| && 0 <= q.from.id < |P|
    ensures (Q, c') == Insert(P, c, q)
  {
    var I := Insert(P, c, q).0;
    var key := q.Key();
    assert Has(P, key) <==> key.1 in P[key.0];
    assert |I| == |P|;
    assert Has(I, key) && Get(I, key) == Get(Q, key);
    forall i | 0 <= i < |Q|
      ensures Q[i] == I[i]
    {
      forall k | k in Q[i]
        ensures k in I[i] && Q[i][k] == I[i][k]
      {
        assert Has(Q, (i, k));
      }
      forall k | k in I[i]
        ensures k in Q[i]
      {
        if (i, k) != key {
          assert k in P[i];
          assert Has(P, (i, k));
        }
      }
    }
    assert Q == I;
  }

  /** The arcs the inserts leave are those of ps and those of E. */
  lemma {:induction false} InsertAllHas(ps: seq<map<int, Path>>, c: int, E: seq<Path>, a: Arc)
    requires forall j :: 0 <= j < |E| ==> 0 <= E[j].from.id < |ps|
    ensures |InsertAll(ps, c, E).0| == |ps|
    ensures Has(InsertAll(ps, c, E).0, a) <==> Has(ps, a) || exists j :: 0 <= j < |E| && E[j].Key() == a
    decreases |E|
  {
    if E != [] {
      var n := |E| - 1;
      InsertAllHas(ps, c, E[..n], a);
      if exists j :: 0 <= j < n && E[..n][j].Key() == a {
        var j :| 0 <= j < n && E[..n][j].Key() == a;
        assert E[j].Key() == a;
      }
      if exists j :: 0 <= j < |E| && E[j].Key() == a {
        var j :| 0 <= j < |E| && E[j].Key() == a;
        if j < n {
          assert E[..n][j].Key() == a;
        }
      }
    }
  }

  /** Inserting one more path extends the fold. */
  lemma InsertAllSnoc(ps: seq<map<int, Path>>, c: int, E: seq<Path>, q: Path)
    ensures InsertAll(ps, c, E + [q]) == Insert(InsertAll(ps, c, E).0, InsertAll(ps, c, E).1, q)
  {
    assert (E + [q])[..|E|] == E;
  }

  /** The cost accumulated over E + [q]. */
  lemma WeightedCostSnoc(E: seq<Path>, q: Path)
    ensures WeightedCost(E + [q]) == WeightedCost(E) + q.w * q.cost
  {
    assert (E + [q])[..|E|] == E;
  }

  /** The new plan so far: it fits its levels, and it is the rows R0 (counter c0) with the paths of E added and their cost summed. */
  ghost predicate Spread(sol: TransportPlan, R0: seq<map<int, Path>>, c0: int, E: seq<Path>)
    reads sol`paths, sol`toPathCounts, sol`pathCounter, sol`added, sol`cost, sol.source`nodes, sol.target`nodes
  {
    Fits(sol) && (sol.paths, sol.pathCounter) == InsertAll(R0, c0, E) && sol.cost == WeightedCost(E)
  }

  /** One child pair: addPath, then the weighted cost added to the plan's cost. */
  method AddChild(sol: TransportPlan, q: Path, ghost R0: seq<map<int, Path>>, ghost c0: int, ghost E: seq<Path>)
    requires Spread(sol, R0, c0, E) && 0 <= q.from.id < |sol.paths| && 0 <= q.to.id < |sol.toPathCounts|
    modifies sol`paths, sol`pathCounter, sol`toPathCounts, sol`added, sol`cost
    ensures Spread(sol, R0, c0, E + [q])
  {
    ghost var P, added, c := sol.paths, sol.added, sol.pathCounter;
    var index := AddToPlan(sol, q);
    PlanStepIsInsert(sol.paths, P, sol.added, added, sol.pathCounter, c, q, index);
    InsertAllSnoc(R0, c0, E, q);
    WeightedCostSnoc(E, q);
    sol.cost := sol.cost + q.w * q.cost;
  }

  /**
   * sumw: the products of the masses of every child in fk with every child
   * in tk, added up in order.
   */
  method SumMasses(fk: seq<TransportNode>, tk: seq<TransportNode>, ghost M: Masses) returns (sumw: real)
    requires MassesOn(M) && Weighed(fk, M) && Weighed(tk, M)
    ensures sumw == SumW(fk, |fk|, tk, M)
  {
    sumw := 0.0;
    var i := 0;
    while i < |fk|
      invariant 0 <= i <= |fk| && sumw == SumW(fk, i, tk, M)
    {
      var f2 := fk[i];
      ghost var front := sumw;
      var j := 0;
      while j < |tk|
        invariant 0 <= j <= |tk| && sumw == front + RowMass(MassOf(M, f2), tk, j, M)
      {
        var t2 := tk[j];
        sumw := sumw + f2.mass * t2.mass;
        j := j + 1;
      }
      i := i + 1;
    }
  }

  /**
   * The inner adding loop for one source child f2 of a coarse arc of weight
   * w: for every child t2 in tk, the path of f2 and t2 with its cost and its
   * share of w.
   */
  method AddRow(sol: TransportPlan, f2: TransportNode, tk: seq<TransportNode>, w: real, sumw: real, p: real, cost: CostFunction,
                ghost M: Masses, ghost R0: seq<map<int, Path>>, ghost c0: int, ghost E: seq<Path>)
    requires Spread(sol, R0, c0, E) && MassesOn(M) && f2 in M && Weighed(tk, M)
    requires 0 <= f2.id < |sol.paths| && IdsBelow(tk, |sol.toPathCounts|)
    modifies sol`paths, sol`pathCounter, sol`toPathCounts, sol`added, sol`cost
    ensures Spread(sol, R0, c0, E + BlockRow(Proportional, f2, tk, |tk|, w, sumw, M, cost, p))
    ensures |sol.paths| == old(|sol.paths|) && |sol.toPathCounts| == old(|sol.toPathCounts|)
  {
    assert E + BlockRow(Proportional, f2, tk, 0, w, sumw, M, cost, p) == E;
    var j := 0;
    while j < |tk|
      invariant 0 <= j <= |tk| && Spread(sol, R0, c0, E + BlockRow(Proportional, f2, tk, j, w, sumw, M, cost, p))
      invariant |sol.paths| == old(|sol.paths|) && |sol.toPathCounts| == old(|sol.toPathCounts|)
    {
      var t2 := tk[j];
      var path := NewPath(f2, t2);
      path := path.(cost := cost(f2, t2, p));
      // a sumw of 0 makes the source divide 0 by 0; the model gives such pairs weight 0
      path := path.(w := if sumw == 0.0 then 0.0 else f2.mass * t2.mass * w / sumw);
      if sumw != 0.0 {
        ShareForm(f2.mass * t2.mass, w, sumw);
      }
      assert path == Child(Proportional, f2, t2, w, sumw, M, cost, p);
      ghost var row := BlockRow(Proportional, f2, tk, j, w, sumw, M, cost, p);
      assert E + row + [path] == E + (row + [path]);
      AddChild(sol, path, R0, c0, E + row);
      j := j + 1;
    }
  }

  /**
   * The adding loops for one coarse arc of weight w: for every child f2 in
   * fk and t2 in tk, the path of f2 and t2 with its cost and its share of w.
   */
  method AddBlock(sol: TransportPlan, fk: seq<TransportNode>, tk: seq<TransportNode>, w: real, sumw: real, p: real, cost: CostFunction,
                  ghost M: Masses, ghost R0: seq<map<int, Path>>, ghost c0: int, ghost E: seq<Path>)
    requires Spread(sol, R0, c0, E) && MassesOn(M) && Weighed(fk, M) && Weighed(tk, M)
    requires IdsBelow(fk, |sol.paths|) && IdsBelow(tk, |sol.toPathCounts|)
    modifies sol`paths, sol`pathCounter, sol`toPathCounts, sol`added, sol`cost
    ensures Spread(sol, R0, c0, E + Block(Proportional, fk, |fk|, tk, w, sumw, M, cost, p))
    ensures |sol.paths| == old(|sol.paths|) && |sol.toPathCounts| == old(|sol.toPathCounts|)
  {
    assert E + Block(Proportional, fk, 0, tk, w, sumw, M, cost, p) == E;
    var i := 0;
    while i < |fk|
      invariant 0 <= i <= |fk| && Spread(sol, R0, c0, E + Block(Proportional, fk, i, tk, w, sumw, M, cost, p))
      invariant |sol.paths| == old(|sol.paths|) && |sol.toPathCounts| == old(|sol.toPathCounts|)
    {
      var f2 := fk[i];
      ghost var front := E + Block(Proportional, fk, i, tk, w, sumw, M, cost, p);
      AddRow(sol, f2, tk, w, sumw, p, cost, M, R0, c0, front);
      Associate(E, Block(Proportional, fk, i, tk, w, sumw, M, cost, p), BlockRow(Proportional, f2, tk, |tk|, w, sumw, M, cost, p));
      i := i + 1;
    }
  }

  /** Each coarse arc of P runs between nodes whose children KS and KT list. */
  ghost predicate Listed(P: seq<map<int, Path>>, KS: Kids, KT: Kids) {
    forall a :: Has(P, a) ==> Get(P, a).from in KS && Get(P, a).to in KT
  }

  /** The children lists and masses the spreading reads agree with the nodes and fit the new plan sol. */
  ghost predicate Families(KS: Kids, KT: Kids, M: Masses, sol: TransportPlan)
    reads KS.Keys`kids, KT.Keys`kids, M.Keys`mass, sol`paths, sol`toPathCounts
  {
    KidsOn(KS, KT, sol) && KidsWeighed(KS, M) && KidsWeighed(KT, M) && MassesOn(M)
  }

  /**
   * Part way through the walk over the rows P of prev: the arcs passed are
   * D, listed in increasing order, all before the cursor.
   */
  ghost predicate Walking(prev: TransportPlan, P: seq<map<int, Path>>, D: set<Arc>, order: seq<Arc>)
    reads prev
  {
    && prev.Valid() && prev.Cursor() && prev.paths == P
    && DoneUpTo(P, D, prev.IsAtEnd(), (prev.outer, prev.inner))
    && (forall a :: a in order <==> a in D)
    && Increasing(order) && (prev.AtArc() ==> AllBefore(order, (prev.outer, prev.inner)))
  }

  /** One coarse arc of the walk: sumw, the child paths with their shares, then the cursor moves on. */
  method SpreadStep(prev: TransportPlan, sol: TransportPlan, p: real, cost: CostFunction, ghost KS: Kids, ghost KT: Kids, ghost M: Masses,
                    ghost P: seq<map<int, Path>>, ghost D: set<Arc>, ghost order: seq<Arc>, ghost R0: seq<map<int, Path>>,
                    ghost c0: int)
    returns (ghost D': set<Arc>, ghost order': seq<Arc>)
    requires Walking(prev, P, D, order) && !prev.IsAtEnd() && prev != sol
    requires Spread(sol, R0, c0, Queue(Proportional, P, order, KS, KT, M, cost, p))
    requires Families(KS, KT, M, sol) && Listed(P, KS, KT)
    modifies prev`outer, prev`inner, sol`paths, sol`pathCounter, sol`toPathCounts, sol`added, sol`cost
    ensures Walking(prev, P, D', order') && Spread(sol, R0, c0, Queue(Proportional, P, order', KS, KT, M, cost, p))
    ensures Families(KS, KT, M, sol) && prev.Remaining() < old(prev.Remaining())
  {
    var path := prev.Current();
    ghost var c: Arc := (prev.outer, prev.inner);
    assert Has(P, c) && Get(P, c) == path;
    QueueSnoc(P, order, c, KS, KT, M, cost, p);
    SpreadArc(path, sol, p, cost, KS, KT, M, R0, c0, Queue(Proportional, P, order, KS, KT, M, cost, p));
    assert Walking(prev, P, D, order);
    D', order' := Advance(prev, P, D, order);
  }

  /** The queue of order + [c], for an arc c of P, ends with c's block. */
  lemma QueueSnoc(P: seq<map<int, Path>>, order: seq<Arc>, c: Arc, KS: Kids, KT: Kids, M: Masses, cost: CostFunction, p: real)
    requires Has(P, c)
    ensures Queue(Proportional, P, order + [c], KS, KT, M, cost, p)
         == Queue(Proportional, P, order, KS, KT, M, cost, p) + PathBlock(Proportional, Get(P, c), KS, KT, M, cost, p)
  {
    assert (order + [c])[..|order|] == order;
  }

  /** pathIteratorNext at the end of a walk step: the arc under the cursor joins those passed. */
  method Advance(prev: TransportPlan, ghost P: seq<map<int, Path>>, ghost D: set<Arc>, ghost order: seq<Arc>)
    returns (ghost D': set<Arc>, ghost order': seq<Arc>)
    requires Walking(prev, P, D, order) && !prev.IsAtEnd()
    modifies prev`outer, prev`inner
    ensures Walking(prev, P, D', order') && prev.Remaining() < old(prev.Remaining())
    ensures order' == order + [(old(prev.outer), old(prev.inner))]
  {
    ghost var c: Arc := (prev.outer, prev.inner);
    prev.Next();
    Extend(order, c, prev.AtArc(), (prev.outer, prev.inner));
    order' := order + [c];
    DoneStep(P, D, c, prev.IsAtEnd(), (prev.outer, prev.inner));
    D' := D + {c};
  }

  /** The body of the walk for one coarse path: sumw, then the child paths with their shares of its weight. */
  method SpreadArc(path: Path, sol: TransportPlan, p: real, cost: CostFunction, ghost KS: Kids, ghost KT: Kids, ghost M: Masses,
                   ghost R0: seq<map<int, Path>>, ghost c0: int, ghost E: seq<Path>)
    requires Spread(sol, R0, c0, E) && Families(KS, KT, M, sol) && path.from in KS && path.to in KT
    modifies sol`paths, sol`pathCounter, sol`toPathCounts, sol`added, sol`cost
    ensures Spread(sol, R0, c0, E + PathBlock(Proportional, path, KS, KT, M, cost, p)) && Families(KS, KT, M, sol)
  {
    var fk, tk := path.from.kids, path.to.kids;
    assert fk == KidsOf(KS, path.from) && tk == KidsOf(KT, path.to);
    var sumw := SumMasses(fk, tk, M);
    AddBlock(sol, fk, tk, path.w, sumw, p, cost, M, R0, c0, E);
  }

  /**
   * The walk over prev: every coarse arc in increasing order, each replaced
   * by its child paths in the new plan sol, whose cost sums their weighted
   * costs.
   */
  method SpreadAll(prev: TransportPlan, sol: TransportPlan, p: real, cost: CostFunction, ghost KS: Kids, ghost KT: Kids, ghost M: Masses)
    returns (ghost order: seq<Arc>)
    requires prev.Valid() && prev != sol && Fits(sol) && sol.cost == 0.0
    requires Families(KS, KT, M, sol) && Listed(prev.paths, KS, KT)
    modifies prev`outer, prev`inner, sol`paths, sol`pathCounter, sol`toPathCounts, sol`added, sol`cost
    ensures Increasing(order) && (forall a :: a in order <==> Has(prev.paths, a))
    ensures Spread(sol, old(sol.paths), old(sol.pathCounter), Queue(Proportional, prev.paths, order, KS, KT, M, cost, p))
  {
    ghost var P, R0, c0 := prev.paths, sol.paths, sol.pathCounter;
    ghost var D: set<Arc> := {};
    order := [];
    prev.Begin();
    while !prev.IsAtEnd()
      invariant Walking(prev, P, D, order) && Spread(sol, R0, c0, Queue(Proportional, P, order, KS, KT, M, cost, p))
      invariant Families(KS, KT, M, sol)
      decreases prev.Remaining()
    {
      D, order := SpreadStep(prev, sol, p, cost, KS, KT, M, P, D, order, R0, c0);
    }
    InArcSetAll(P, D);
    forall a
      ensures a in order <==> Has(P, a)
    {
      InArcSet(P, a);
    }
  }

  /**
   * The children K lists for the nodes of N form a forest below N: Up maps
   * each child to the position in N of the node that lists it, and the
   * children sit at another scale than the nodes of N, which all have
   * scale sc.
   */
  ghost predicate Forest(N: seq<TransportNode>, sc: int, K: Kids, Up: map<TransportNode, int>) {
    && (forall j :: 0 <= j < |N| ==> N[j].scale == sc)
    && (forall j, c :: 0 <= j < |N| && c in KidsOf(K, N[j]) ==> c in Up && Up[c] == j && c.scale != sc)
  }

  /** Up has no keys other than the children K lists for the nodes of N. */
  ghost predicate Onto(N: seq<TransportNode>, K: Kids, Up: map<TransportNode, int>) {
    forall c :: c in Up ==> 0 <= Up[c] < |N| && c in KidsOf(K, N[Up[c]])
  }

  /**
   * One of the potential loops: every child of a node of nodes gets the
   * node's potential; nothing outside Up's keys changes.
   */
  method InheritPotentials(nodes: seq<TransportNode>, ghost sc: int, ghost K: Kids, ghost Up: map<TransportNode, int>)
    requires Mirrors(K) && (forall j :: 0 <= j < |nodes| ==> nodes[j] in K) && Forest(nodes, sc, K, Up)
    modifies Up.Keys`potential
    ensures forall j, c :: 0 <= j < |nodes| && c in KidsOf(K, nodes[j]) ==> c.potential == old(nodes[j].potential)
  {
    var i := 0;
    while i < |nodes|
      invariant 0 <= i <= |nodes|
      invariant forall j, c :: 0 <= j < i && c in KidsOf(K, nodes[j]) ==> c.potential == old(nodes[j].potential)
      invariant forall j :: 0 <= j < |nodes| ==> nodes[j].potential == old(nodes[j].potential)
    {
      var node := nodes[i];
      assert node.kids == KidsOf(K, node);
      label before:
      SetAll(node.kids, node.potential);
      forall j, c | 0 <= j <= i && c in KidsOf(K, nodes[j])
        ensures c.potential == old(nodes[j].potential)
      {
        if j < i {
          assert Up[c] == j && c !in node.kids;
          assert c.potential == old@before(c.potential);
        }
      }
      i := i + 1;
    }
  }

  /** The inner potential loop: each of kids gets potential pi. */
  method SetAll(kids: seq<TransportNode>, pi: real)
    modifies (set c | c in kids)`potential
    ensures forall c :: c in kids ==> c.potential == pi
  {
    var k := 0;
    while k < |kids|
      invariant 0 <= k <= |kids|
      invariant forall c :: c in kids[..k] ==> c.potential == pi
    {
      kids[k].SetPotential(pi);
      assert kids[..k + 1] == kids[..k] + [kids[k]];
      k := k + 1;
    }
    assert kids[..k] == kids;
  }

  /**
   * The potential loops may run: KS lists the children of the nodes of N,
   * which form a forest with parent map Up, and Up has no other keys.
   */
  ghost predicate Inherits(N: seq<TransportNode>, sc: int, K: Kids, Up: map<TransportNode, int>)
    reads K.Keys`kids
  {
    Mirrors(K) && (forall j :: 0 <= j < |N| ==> N[j] in K) && Forest(N, sc, K, Up) && Onto(N, K, Up)
  }

  /**
   * propagate: a new plan over the fine levels source and target, spread
   * from the coarse primary plan of pSol (its arcs walked in increasing
   * order); its cost is the weighted sum of the child paths' costs. Then
   * every child of a coarse source node, and then of a coarse target node,
   * inherits its parent's potential.
   */
  method Propagate(source: Level, target: Level, pSol: TransportPlanSolutions, p: real, cost: CostFunction,
                   ghost KS: Kids, ghost KT: Kids, ghost M: Masses, ghost UpS: map<TransportNode, int>, ghost UpT: map<TransportNode, int>)
    returns (sols: TransportPlanSolutions, ghost order: seq<Arc>)
    requires IdsArePositions(source.nodes) && IdsArePositions(target.nodes) && pSol.sol.Valid()
    requires Mirrors(KS) && Mirrors(KT) && KidsBelow(KS, |source.nodes|) && KidsBelow(KT, |target.nodes|)
    requires KidsWeighed(KS, M) && KidsWeighed(KT, M) && MassesOn(M) && Listed(pSol.sol.paths, KS, KT)
    requires Inherits(pSol.sol.source.nodes, pSol.sol.source.scale, KS, UpS)
    requires Inherits(pSol.sol.target.nodes, pSol.sol.target.scale, KT, UpT)
    requires UpS.Keys !! UpT.Keys && (forall j :: 0 <= j < |pSol.sol.target.nodes| ==> pSol.sol.target.nodes[j] !in UpS)
    modifies pSol.sol`outer, pSol.sol`inner, UpS.Keys`potential, UpT.Keys`potential
    ensures fresh(sols) && fresh(sols.sol) && sols.alternatives == [] && sols.sol.source == source && sols.sol.target == target
    ensures Increasing(order) && (forall a :: a in order <==> Has(pSol.sol.paths, a))
    ensures Spread(sols.sol, EmptyRows(|source.nodes|), 0, Queue(Proportional, pSol.sol.paths, order, KS, KT, M, cost, p))
    ensures forall c :: c in UpS ==> c.potential == old(pSol.sol.source.nodes[UpS[c]].potential)
    ensures forall c :: c in UpT ==> c.potential == old(pSol.sol.target.nodes[UpT[c]].potential)
  {
    sols, order := SpreadNew(source, target, pSol.sol, p, cost, KS, KT, M);
    var prev := pSol.sol;
    PotentialsBoth(prev.source.nodes, prev.target.nodes, prev.source.scale, prev.target.scale, KS, KT, UpS, UpT);
  }

  /** The spreading half of propagate: the new plan, its cost reset to 0, and the walk over prev. */
  method SpreadNew(source: Level, target: Level, prev: TransportPlan, p: real, cost: CostFunction, ghost KS: Kids, ghost KT: Kids, ghost M: Masses)
    returns (sols: TransportPlanSolutions, ghost order: seq<Arc>)
    requires IdsArePositions(source.nodes) && IdsArePositions(target.nodes) && prev.Valid()
    requires Mirrors(KS) && Mirrors(KT) && KidsBelow(KS, |source.nodes|) && KidsBelow(KT, |target.nodes|)
    requires KidsWeighed(KS, M) && KidsWeighed(KT, M) && MassesOn(M) && Listed(prev.paths, KS, KT)
    modifies prev`outer, prev`inner
    ensures fresh(sols) && fresh(sols.sol) && sols.alternatives == [] && sols.sol.source == source && sols.sol.target == target
    ensures Increasing(order) && (forall a :: a in order <==> Has(prev.paths, a))
    ensures Spread(sols.sol, EmptyRows(|source.nodes|), 0, Queue(Proportional, prev.paths, order, KS, KT, M, cost, p))
  {
    sols := new TransportPlanSolutions(source, target);
    var sol := sols.sol;
    sol.cost := 0.0;
    assert sol.paths == EmptyRows(|source.nodes|);
    order := SpreadAll(prev, sol, p, cost, KS, KT, M);
  }

  /** Both potential loops: the children of the source nodes S, then those of the target nodes T. */
  method PotentialsBoth(S: seq<TransportNode>, T: seq<TransportNode>, scS: int, scT: int, ghost KS: Kids, ghost KT: Kids,
                        ghost UpS: map<TransportNode, int>, ghost UpT: map<TransportNode, int>)
    requires Inherits(S, scS, KS, UpS) && Inherits(T, scT, KT, UpT)
    requires UpS.Keys !! UpT.Keys && (forall j :: 0 <= j < |T| ==> T[j] !in UpS)
    modifies UpS.Keys`potential, UpT.Keys`potential
    ensures forall c :: c in UpS ==> c.potential == old(S[UpS[c]].potential)
    ensures forall c :: c in UpT ==> c.potential == old(T[UpT[c]].potential)
  {
    Inherit(S, scS, KS, UpS);
    Inherit(T, scT, KT, UpT);
  }

  /** One potential loop over a parent map with no other keys: every key of Up gets its parent's potential. */
  method Inherit(nodes: seq<TransportNode>, ghost sc: int, ghost K: Kids, ghost Up: map<TransportNode, int>)
    requires Inherits(nodes, sc, K, Up)
    modifies Up.Keys`potential
    ensures forall c :: c in Up ==> c.potential == old(nodes[Up[c]].potential)
  {
    InheritPotentials(nodes, sc, K, Up);
    forall c | c in Up ensures c.potential == old(nodes[Up[c]].potential) {
      assert c in KidsOf(K, nodes[Up[c]]);
    }
  }
}
