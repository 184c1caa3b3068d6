/**
 * NeighborhoodPropagationStrategy: the plan at a finer scale is built from
 * the plan of the coarser scale. Without a coarser plan every pair of nodes
 * is an arc. Otherwise a first LP is solved over every pair of children of
 * the coarse arcs that moved mass, and then the children of the arcs of
 * all coarse solutions (primary and alternatives), expanded to the nodes
 * within the expansion factor times the local node radius, are added as
 * new LP columns before the LP is solved again and stored.
 *
 * Children are read through maps KS and KT from each coarse source and
 * target node to its children, which must agree with the nodes' own lists
 * (`Mirrors`).
 */
module NeighborhoodPropagation {
  import opened Nodes
  import opened Levels
  import opened Plans
  import opened LPSolver
  import opened TransportSolver
  import opened StrategyLP

  type Kids = map<TransportNode, seq<TransportNode>>

  /** The children of n, none when n has no entry. */
  function KidsOf(K: Kids, n: TransportNode): seq<TransportNode> {
    if n in K then K[n] else []
  }

  /** K lists each of its nodes' children. */
  ghost predicate Mirrors(K: Kids)
    reads K.Keys`kids
  {
    forall n :: n in K ==> n.kids == K[n]
  }

  /** Every child listed in K has an id below n. */
  ghost predicate KidsBelow(K: Kids, n: int) {
    forall m :: m in K ==> IdsBelow(K[m], n)
  }

  /** KS and KT list the children of their nodes, which are nodes of sol's source and target levels. */
  ghost predicate KidsOn(KS: Kids, KT: Kids, sol: TransportPlan)
    reads KS.Keys`kids, KT.Keys`kids, sol`paths, sol`toPathCounts
  {
    Mirrors(KS) && Mirrors(KT) && KidsBelow(KS, |sol.paths|) && KidsBelow(KT, |sol.toPathCounts|)
  }

  /** The path addAllCombinations queues for f2 and t2: no index, the transport cost, no weight. */
  function Queued(f2: TransportNode, t2: TransportNode, cost: CostFunction, p: real): Path {
    Path(f2, t2, -1, cost(f2, t2, p), 0.0)
  }

  /** addAllCombinations for one source child: the first n targets of tk not yet joined to f2 in ps, in order. */
  ghost function RowCombinations(f2: TransportNode, tk: seq<TransportNode>, n: nat, ps: seq<map<int, Path>>, cost: CostFunction, p: real): seq<Path>
    requires n <= |tk|
  {
    if n == 0 then []
    else
      var t2 := tk[n - 1];
      RowCombinations(f2, tk, n - 1, ps, cost, p) + (if Has(ps, (f2.id, t2.id)) then [] else [Queued(f2, t2, cost, p)])
  }

  /** addAllCombinations(fk, tk) over the first m sources: every pair not yet an arc of ps, source-major. */
  ghost function Combinations(fk: seq<TransportNode>, m: nat, tk: seq<TransportNode>, ps: seq<map<int, Path>>, cost: CostFunction, p: real): seq<Path>
    requires m <= |fk|
  {
    if m == 0 then []
    else Combinations(fk, m - 1, tk, ps, cost, p) + RowCombinations(fk[m - 1], tk, |tk|, ps, cost, p)
  }

  /** All combinations of the children fk and tk. */
  ghost function AllCombinations(fk: seq<TransportNode>, tk: seq<TransportNode>, ps: seq<map<int, Path>>, cost: CostFunction, p: real): seq<Path> {
    Combinations(fk, |fk|, tk, ps, cost, p)
  }

  /** The combinations of the children of f with those of each of the first n nodes of T in turn. */
  ghost function Strip(f: TransportNode, T: seq<TransportNode>, n: nat, KS: Kids, KT: Kids, ps: seq<map<int, Path>>, cost: CostFunction, p: real): seq<Path>
    requires n <= |T|
  {
    if n == 0 then []
    else Strip(f, T, n - 1, KS, KT, ps, cost, p) + AllCombinations(KidsOf(KS, f), KidsOf(KT, T[n - 1]), ps, cost, p)
  }

  /** The combinations of the children of every pair of the first m nodes of F with the nodes of T, source-major. */
  ghost function Rectangle(F: seq<TransportNode>, m: nat, T: seq<TransportNode>, KS: Kids, KT: Kids, ps: seq<map<int, Path>>, cost: CostFunction, p: real): seq<Path>
    requires m <= |F|
  {
    if m == 0 then []
    else Rectangle(F, m - 1, T, KS, KT, ps, cost, p) + Strip(F[m - 1], T, |T|, KS, KT, ps, cost, p)
  }

  /** getNeighborhood(n, rFactor * n's local radius) of the level whose neighbourhood is nb. */
  function Ball(nb: Neighborhood, n: TransportNode, rFactor: real): seq<TransportNode> {
    nb(n, n.localRadius * rFactor)
  }

  /** The source and target nodes whose children a coarse path expands to. */
  function Expansion(q: Path, rFactor: real, nbS: Neighborhood, nbT: Neighborhood): (seq<TransportNode>, seq<TransportNode>) {
    if rFactor > 0.0 then (Ball(nbS, q.from, rFactor), Ball(nbT, q.to, rFactor))
    else ([q.from], [q.to])
  }

  /**
   * What ballNeighborhood queues for one coarse path: nothing when it moved
   * no mass; otherwise the children pairs of its endpoints or, with a
   * positive factor, of every pair of their neighbourhoods.
   */
  ghost function PathBlock(q: Path, rFactor: real, nbS: Neighborhood, nbT: Neighborhood, KS: Kids, KT: Kids, ps: seq<map<int, Path>>, cost: CostFunction, p: real): seq<Path> {
    if q.w == 0.0 then []
    else if rFactor > 0.0 then
      var e := Expansion(q, rFactor, nbS, nbT);
      Rectangle(e.0, |e.0|, e.1, KS, KT, ps, cost, p)
    else AllCombinations(KidsOf(KS, q.from), KidsOf(KT, q.to), ps, cost, p)
  }

  /** What ballNeighborhood queues for the coarse arcs in the order given. */
  ghost function Queue(P: seq<map<int, Path>>, order: seq<Arc>, rFactor: real, nbS: Neighborhood, nbT: Neighborhood, KS: Kids, KT: Kids,
                       ps: seq<map<int, Path>>, cost: CostFunction, p: real): seq<Path>
    decreases |order|
  {
    if order == [] then []
    else
      var a := order[|order| - 1];
      Queue(P, order[..|order| - 1], rFactor, nbS, nbT, KS, KT, ps, cost, p)
        + (if Has(P, a) then PathBlock(Get(P, a), rFactor, nbS, nbT, KS, KT, ps, cost, p) else [])
  }

  /** The arcs in strictly increasing order. */
  predicate Increasing(order: seq<Arc>) {
    forall j, l :: 0 <= j < l < |order| ==> Before(order[j], order[l])
  }

  /** Every arc of order comes before pos. */
  predicate AllBefore(order: seq<Arc>, pos: Arc) {
    forall j :: 0 <= j < |order| ==> Before(order[j], pos)
  }

  /** An increasing order stays increasing when an arc after all of its arcs is appended. */
  lemma Extend(order: seq<Arc>, c: Arc, more: bool, pos: Arc)
    requires Increasing(order) && AllBefore(order, c)
    requires more ==> Before(c, pos)
    ensures Increasing(order + [c]) && (more ==> AllBefore(order + [c], pos))
  {
  }

  /** Every node of ns has an id below n. */
  predicate IdsBelow(ns: seq<TransportNode>, n: int) {
    forall j :: 0 <= j < |ns| ==> 0 <= ns[j].id < n
  }

  /**
   * addAllCombinations(fKids, tKids, sol, p, toAdd): appends to toAdd every
   * pair of a child in fKids and a child in tKids that is not yet an arc of
   * sol, with its transport cost.
   */
  method AddAllCombinations(fKids: seq<TransportNode>, tKids: seq<TransportNode>, sol: TransportPlan, p: real, cost: CostFunction,
                            toAdd: seq<Path>) returns (r: seq<Path>)
    requires IdsBelow(fKids, |sol.paths|)
    ensures r == toAdd + AllCombinations(fKids, tKids, sol.paths, cost, p)
  {
    r := toAdd;
    var i := 0;
    while i < |fKids|
      invariant 0 <= i <= |fKids|
      invariant r == toAdd + Combinations(fKids, i, tKids, sol.paths, cost, p)
    {
      var f2 := fKids[i];
      Associate(toAdd, Combinations(fKids, i, tKids, sol.paths, cost, p), RowCombinations(f2, tKids, |tKids|, sol.paths, cost, p));
      var j := 0;
      ghost var front := r;
      while j < |tKids|
        invariant 0 <= j <= |tKids|
        invariant r == front + RowCombinations(f2, tKids, j, sol.paths, cost, p)
      {
        var t2 := tKids[j];
        InArcSet(sol.paths, (f2.id, t2.id));
        if !sol.HasPath(f2.id, t2.id) {
          Associate(front, RowCombinations(f2, tKids, j, sol.paths, cost, p), [Queued(f2, t2, cost, p)]);
          r := r + [Queued(f2, t2, cost, p)];
        }
        j := j + 1;
      }
      i := i + 1;
    }
  }

  /** Every node of ns has an entry in K. */
  predicate Within(ns: seq<TransportNode>, K: Kids) {
    forall j :: 0 <= j < |ns| ==> ns[j] in K
  }

  /** The nodes every arc of P expands to have entries in K. */
  ghost predicate ExpandsIn(P: seq<map<int, Path>>, rFactor: real, nbS: Neighborhood, nbT: Neighborhood, KS: Kids, KT: Kids) {
    forall a :: Has(P, a) ==> Within(Expansion(Get(P, a), rFactor, nbS, nbT).0, KS) && Within(Expansion(Get(P, a), rFactor, nbS, nbT).1, KT)
  }

  /**
   * The neighbourhood loops of ballNeighborhood: for each node of F and
   * each node of T, addAllCombinations of their children.
   */
  method AddNeighborCombinations(F: seq<TransportNode>, T: seq<TransportNode>, sol: TransportPlan, p: real, cost: CostFunction,
                                 ghost KS: Kids, ghost KT: Kids, toAdd: seq<Path>) returns (r: seq<Path>)
    requires KidsOn(KS, KT, sol) && Within(F, KS) && Within(T, KT)
    ensures r == toAdd + Rectangle(F, |F|, T, KS, KT, sol.paths, cost, p)
  {
    r := toAdd;
    var i := 0;
    while i < |F|
      invariant 0 <= i <= |F|
      invariant r == toAdd + Rectangle(F, i, T, KS, KT, sol.paths, cost, p)
    {
      Associate(toAdd, Rectangle(F, i, T, KS, KT, sol.paths, cost, p), Strip(F[i], T, |T|, KS, KT, sol.paths, cost, p));
      r := AddStrip(F[i], T, sol, p, cost, KS, KT, r);
      i := i + 1;
    }
  }

  /** Concatenation is associative. */
  lemma Associate(a: seq<Path>, b: seq<Path>, c: seq<Path>)
    ensures a + b + c == a + (b + c)
  {
  }

  /** The inner neighbourhood loop: the children of f with those of each node of T. */
  method AddStrip(f: TransportNode, T: seq<TransportNode>, sol: TransportPlan, p: real, cost: CostFunction,
                  ghost KS: Kids, ghost KT: Kids, toAdd: seq<Path>) returns (r: seq<Path>)
    requires KidsOn(KS, KT, sol) && f in KS && Within(T, KT)
    ensures r == toAdd + Strip(f, T, |T|, KS, KT, sol.paths, cost, p)
  {
    KidsIdsBelow(KS, f, |sol.paths|);
    var fk := f.kids;
    r := toAdd;
    var j := 0;
    while j < |T|
      invariant 0 <= j <= |T|
      invariant r == toAdd + Strip(f, T, j, KS, KT, sol.paths, cost, p)
    {
      var t := T[j];
      var tk := t.kids;
      assert t in KT && tk == KidsOf(KT, t);
      Associate(toAdd, Strip(f, T, j, KS, KT, sol.paths, cost, p), AllCombinations(fk, tk, sol.paths, cost, p));
      r := AddAllCombinations(fk, tk, sol, p, cost, r);
      j := j + 1;
    }
  }

  /** A node with an entry in a mirroring K has its children's ids below n when K's are. */
  lemma KidsIdsBelow(K: Kids, f: TransportNode, n: int)
    requires Mirrors(K) && KidsBelow(K, n) && f in K
    ensures f.kids == KidsOf(K, f) && IdsBelow(f.kids, n)
  {
  }

  /**
   * ballNeighborhood's walk over coarse plan rows P, against the new plan's
   * rows ps: it met P's arcs in increasing order, and toAdd holds their
   * blocks (expanded by rFactor) in that order.
   */
  ghost predicate Walk(P: seq<map<int, Path>>, order: seq<Arc>, toAdd: seq<Path>, rFactor: real, nbS: Neighborhood, nbT: Neighborhood,
                       KS: Kids, KT: Kids, ps: seq<map<int, Path>>, cost: CostFunction, p: real) {
    && Increasing(order) && (forall a :: a in order <==> Has(P, a))
    && toAdd == Queue(P, order, rFactor, nbS, nbT, KS, KT, ps, cost, p)
  }

  /**
   * Part way through ballNeighborhood's walk over the rows P of prev: the
   * arcs passed are D, listed in increasing order, all before the cursor,
   * and toAdd is what their blocks queue.
   */
  ghost predicate Walked(prev: TransportPlan, P: seq<map<int, Path>>, D: set<Arc>, order: seq<Arc>, toAdd: seq<Path>, rFactor: real,
                         KS: Kids, KT: Kids, ps: seq<map<int, Path>>, cost: CostFunction, p: real)
    reads prev
  {
    && prev.Valid() && prev.Cursor() && prev.paths == P
    && DoneUpTo(P, D, prev.IsAtEnd(), (prev.outer, prev.inner))
    && (forall a :: a in order <==> a in D)
    && Increasing(order) && (prev.AtArc() ==> AllBefore(order, (prev.outer, prev.inner)))
    && toAdd == Queue(P, order, rFactor, prev.source.neighborhood, prev.target.neighborhood, KS, KT, ps, cost, p)
  }

  /**
   * The cursor walk of ballNeighborhood over prevSol: every arc in
   * increasing order, queueing the block of each arc that moved mass.
   */
  method Collect(prev: TransportPlan, sol: TransportPlan, rFactor: real, p: real, cost: CostFunction, ghost KS: Kids, ghost KT: Kids)
    returns (toAdd: seq<Path>, ghost order: seq<Arc>)
    requires prev.Valid() && KidsOn(KS, KT, sol)
    requires ExpandsIn(prev.paths, rFactor, prev.source.neighborhood, prev.target.neighborhood, KS, KT)
    modifies prev`outer, prev`inner
    ensures Walk(prev.paths, order, toAdd, rFactor, prev.source.neighborhood, prev.target.neighborhood, KS, KT, sol.paths, cost, p)
    ensures InLevels(toAdd, |sol.paths|, |sol.toPathCounts|)
  {
    ghost var P := prev.paths;
    ghost var D: set<Arc> := {};
    toAdd, order := [], [];
    prev.Begin();
    while !prev.IsAtEnd()
      invariant Walked(prev, P, D, order, toAdd, rFactor, KS, KT, sol.paths, cost, p)
      decreases prev.Remaining()
    {
      toAdd, D, order := CollectStep(prev, sol, rFactor, p, cost, KS, KT, P, D, order, toAdd);
    }
    InArcSetAll(P, D);
    forall a
      ensures a in order <==> Has(P, a)
    {
      InArcSet(P, a);
    }
    QueueInLevels(P, order, rFactor, prev.source.neighborhood, prev.target.neighborhood, KS, KT, sol.paths, cost, p, |sol.paths|, |sol.toPathCounts|);
  }

  /** One arc of ballNeighborhood's walk: queue its block and move the cursor on. */
  method CollectStep(prev: TransportPlan, sol: TransportPlan, rFactor: real, p: real, cost: CostFunction, ghost KS: Kids, ghost KT: Kids,
                     ghost P: seq<map<int, Path>>, ghost D: set<Arc>, ghost order: seq<Arc>, toAdd: seq<Path>)
    returns (toAdd': seq<Path>, ghost D': set<Arc>, ghost order': seq<Arc>)
    requires Walked(prev, P, D, order, toAdd, rFactor, KS, KT, sol.paths, cost, p) && !prev.IsAtEnd() && KidsOn(KS, KT, sol)
    requires ExpandsIn(P, rFactor, prev.source.neighborhood, prev.target.neighborhood, KS, KT)
    modifies prev`outer, prev`inner
    ensures Walked(prev, P, D', order', toAdd', rFactor, KS, KT, sol.paths, cost, p)
    ensures prev.Remaining() < old(prev.Remaining())
  {
    var path := prev.Current();
    ghost var c: Arc := (prev.outer, prev.inner);
    assert Has(P, c) && Get(P, c) == path;
    toAdd' := CollectOne(path, prev.source, prev.target, sol, rFactor, p, cost, KS, KT, toAdd);
    assert (order + [c])[..|order|] == order;
    prev.Next();
    Extend(order, c, prev.AtArc(), (prev.outer, prev.inner));
    order' := order + [c];
    DoneStep(P, D, c, prev.IsAtEnd(), (prev.outer, prev.inner));
    D' := D + {c};
  }

  /** The body of ballNeighborhood's walk for one coarse path. */
  method CollectOne(path: Path, source: Level, target: Level, sol: TransportPlan, rFactor: real, p: real, cost: CostFunction,
                    ghost KS: Kids, ghost KT: Kids, toAdd: seq<Path>) returns (r: seq<Path>)
    requires KidsOn(KS, KT, sol)
    requires Within(Expansion(path, rFactor, source.neighborhood, target.neighborhood).0, KS)
    requires Within(Expansion(path, rFactor, source.neighborhood, target.neighborhood).1, KT)
    ensures r == toAdd + PathBlock(path, rFactor, source.neighborhood, target.neighborhood, KS, KT, sol.paths, cost, p)
  {
    r := toAdd;
    if path.w != 0.0 {
      var f1, t1 := path.from, path.to;
      if rFactor > 0.0 {
        // the neighbourhoods within rFactor times each endpoint's local radius
        var e := Expansion(path, rFactor, source.neighborhood, target.neighborhood);
        r := AddNeighborCombinations(e.0, e.1, sol, p, cost, KS, KT, r);
      } else {
        assert Expansion(path, rFactor, source.neighborhood, target.neighborhood) == ([f1], [t1]);
        assert f1 in [f1] && t1 in [t1];
        KidsIdsBelow(KS, f1, |sol.paths|);
        r := AddAllCombinations(f1.kids, t1.kids, sol, p, cost, r);
      }
    }
  }

  /** Both parts of a concatenation lie on the levels exactly when it does. */
  lemma InLevelsAppend(a: seq<Path>, b: seq<Path>, ns: int, nt: int)
    requires InLevels(a, ns, nt) && InLevels(b, ns, nt)
    ensures InLevels(a + b, ns, nt)
  {
    forall j | 0 <= j < |a + b|
      ensures 0 <= (a + b)[j].from.id < ns && 0 <= (a + b)[j].to.id < nt && (a + b)[j].w == 0.0
    {
      if j >= |a| {
        assert (a + b)[j] == b[j - |a|];
      }
    }
  }

  /** The queued combinations of f2 join it to nodes of tk. */
  lemma {:induction false} RowInLevels(f2: TransportNode, tk: seq<TransportNode>, n: nat, ps: seq<map<int, Path>>, cost: CostFunction, p: real, ns: int, nt: int)
    requires n <= |tk| && 0 <= f2.id < ns && IdsBelow(tk, nt)
    ensures InLevels(RowCombinations(f2, tk, n, ps, cost, p), ns, nt)
  {
    if n > 0 {
      RowInLevels(f2, tk, n - 1, ps, cost, p, ns, nt);
      InLevelsAppend(RowCombinations(f2, tk, n - 1, ps, cost, p),
        if Has(ps, (f2.id, tk[n - 1].id)) then [] else [Queued(f2, tk[n - 1], cost, p)], ns, nt);
    }
  }

  /** Every queued combination of fk x tk joins a node of fk to a node of tk. */
  lemma {:induction false} CombinationsInLevels(fk: seq<TransportNode>, m: nat, tk: seq<TransportNode>, ps: seq<map<int, Path>>, cost: CostFunction, p: real, ns: int, nt: int)
    requires m <= |fk| && IdsBelow(fk, ns) && IdsBelow(tk, nt)
    ensures InLevels(Combinations(fk, m, tk, ps, cost, p), ns, nt)
  {
    if m > 0 {
      CombinationsInLevels(fk, m - 1, tk, ps, cost, p, ns, nt);
      RowInLevels(fk[m - 1], tk, |tk|, ps, cost, p, ns, nt);
      InLevelsAppend(Combinations(fk, m - 1, tk, ps, cost, p), RowCombinations(fk[m - 1], tk, |tk|, ps, cost, p), ns, nt);
    }
  }

  /** The children listed for a node in K have ids below n when all of K's do. */
  lemma KidsOfBelow(K: Kids, m: TransportNode, n: int)
    requires KidsBelow(K, n)
    ensures IdsBelow(KidsOf(K, m), n)
  {
  }

  /** A strip queues children of KS's nodes with children of KT's nodes. */
  lemma {:induction false} StripInLevels(f: TransportNode, T: seq<TransportNode>, n: nat, KS: Kids, KT: Kids, ps: seq<map<int, Path>>, cost: CostFunction, p: real, ns: int, nt: int)
    requires n <= |T| && KidsBelow(KS, ns) && KidsBelow(KT, nt)
    ensures InLevels(Strip(f, T, n, KS, KT, ps, cost, p), ns, nt)
  {
    if n > 0 {
      StripInLevels(f, T, n - 1, KS, KT, ps, cost, p, ns, nt);
      KidsOfBelow(KS, f, ns);
      KidsOfBelow(KT, T[n - 1], nt);
      var fk := KidsOf(KS, f);
      CombinationsInLevels(fk, |fk|, KidsOf(KT, T[n - 1]), ps, cost, p, ns, nt);
      InLevelsAppend(Strip(f, T, n - 1, KS, KT, ps, cost, p), AllCombinations(fk, KidsOf(KT, T[n - 1]), ps, cost, p), ns, nt);
    }
  }

  /** A rectangle queues children of KS's nodes with children of KT's nodes. */
  lemma {:induction false} RectangleInLevels(F: seq<TransportNode>, m: nat, T: seq<TransportNode>, KS: Kids, KT: Kids, ps: seq<map<int, Path>>, cost: CostFunction, p: real, ns: int, nt: int)
    requires m <= |F| && KidsBelow(KS, ns) && KidsBelow(KT, nt)
    ensures InLevels(Rectangle(F, m, T, KS, KT, ps, cost, p), ns, nt)
  {
    if m > 0 {
      RectangleInLevels(F, m - 1, T, KS, KT, ps, cost, p, ns, nt);
      StripInLevels(F[m - 1], T, |T|, KS, KT, ps, cost, p, ns, nt);
      InLevelsAppend(Rectangle(F, m - 1, T, KS, KT, ps, cost, p), Strip(F[m - 1], T, |T|, KS, KT, ps, cost, p), ns, nt);
    }
  }

  /**
   * Everything ballNeighborhood queues joins a child of a coarse source node
   * to a child of a coarse target node, so it lies on the finer levels.
   */
  lemma {:induction false} QueueInLevels(P: seq<map<int, Path>>, order: seq<Arc>, rFactor: real, nbS: Neighborhood, nbT: Neighborhood,
                                         KS: Kids, KT: Kids, ps: seq<map<int, Path>>, cost: CostFunction, p: real, ns: int, nt: int)
    requires KidsBelow(KS, ns) && KidsBelow(KT, nt)
    ensures InLevels(Queue(P, order, rFactor, nbS, nbT, KS, KT, ps, cost, p), ns, nt)
    decreases |order|
  {
    if order != [] {
      var a := order[|order| - 1];
      QueueInLevels(P, order[..|order| - 1], rFactor, nbS, nbT, KS, KT, ps, cost, p, ns, nt);
      var B: seq<Path> := [];
      if Has(P, a) {
        var q := Get(P, a);
        B := PathBlock(q, rFactor, nbS, nbT, KS, KT, ps, cost, p);
        if q.w == 0.0 {
        } else if rFactor > 0.0 {
          var e := Expansion(q, rFactor, nbS, nbT);
          RectangleInLevels(e.0, |e.0|, e.1, KS, KT, ps, cost, p, ns, nt);
        } else {
          KidsOfBelow(KS, q.from, ns);
          KidsOfBelow(KT, q.to, nt);
          CombinationsInLevels(KidsOf(KS, q.from), |KidsOf(KS, q.from)|, KidsOf(KT, q.to), ps, cost, p, ns, nt);
        }
      }
      InLevelsAppend(Queue(P, order[..|order| - 1], rFactor, nbS, nbT, KS, KT, ps, cost, p), B, ns, nt);
    }
  }

  /** The arcs of the paths of E. */
  ghost function KeysOf(E: seq<Path>): set<Arc> {
    set e | e in E :: e.Key()
  }

  /** The arcs of the paths of E, in order. */
  function KeySeq(E: seq<Path>): (r: seq<Arc>)
    ensures |r| == |E|
  {
    seq(|E|, j requires 0 <= j < |E| => E[j].Key())
  }

  /** The columns the strategy gives the paths of E, in order. */
  function ArcEntries(ns: int, E: seq<Path>): (r: seq<(Column, Status)>)
    ensures |r| == |E|
  {
    seq(|E|, j requires 0 <= j < |E| => ArcEntry(ns, E[j]))
  }

  /**
   * The entries of toAdd that bring a new arc into a plan with rows P: the
   * first entry for each arc that P does not have, in order.
   */
  ghost function NewEntries(toAdd: seq<Path>, P: seq<map<int, Path>>): seq<Path>
    decreases |toAdd|
  {
    if toAdd == [] then []
    else
      var E := NewEntries(toAdd[..|toAdd| - 1], P);
      var q := toAdd[|toAdd| - 1];
      E + (if Has(P, q.Key()) || q.Key() in KeysOf(E) then [] else [q])
  }

  /** Every path of toAdd is still unweighted and joins a source id below ns to a target id below nt. */
  predicate InLevels(toAdd: seq<Path>, ns: int, nt: int) {
    forall j :: 0 <= j < |toAdd| ==> 0 <= toAdd[j].from.id < ns && 0 <= toAdd[j].to.id < nt && toAdd[j].w == 0.0
  }

  /**
   * Plan rows Q are P with the new entries E added from index c on: the
   * arcs of P and of E, the paths of P unchanged, and the j-th new entry at
   * index c + j.
   */
  ghost predicate Grown(Q: seq<map<int, Path>>, P: seq<map<int, Path>>, E: seq<Path>, c: int) {
    && (forall a :: Has(Q, a) <==> Has(P, a) || a in KeysOf(E))
    && (forall a :: Has(P, a) ==> Get(Q, a) == Get(P, a))
    && (forall j :: 0 <= j < |E| ==> Has(Q, E[j].Key()) && Get(Q, E[j].Key()) == E[j].(index := c + j))
  }

  /** The path of a new arc extends Grown by one entry. */
  lemma GrownStep(Q': seq<map<int, Path>>, Q: seq<map<int, Path>>, P: seq<map<int, Path>>, E: seq<Path>, c: int, q: Path)
    requires Grown(Q, P, E, c) && !Has(Q, q.Key())
    requires Has(Q', q.Key()) && OthersKept(Q', Q, q.Key()) && Get(Q', q.Key()) == q.(index := c + |E|)
    ensures Grown(Q', P, E + [q], c)
  {
    assert KeysOf(E + [q]) == KeysOf(E) + {q.Key()};
    forall j | 0 <= j < |E|
      ensures E[j].Key() != q.Key()
    {
      assert E[j] in E;
    }
  }

  /** The arcs of toAdd are those of its new entries and those already in P; the new entries' arcs are distinct and not in P. */
  lemma {:induction false} NewEntriesCover(toAdd: seq<Path>, P: seq<map<int, Path>>)
    ensures forall a :: a in KeysOf(toAdd) ==> Has(P, a) || a in KeysOf(NewEntries(toAdd, P))
    ensures KeysOf(NewEntries(toAdd, P)) <= KeysOf(toAdd)
    ensures forall e :: e in NewEntries(toAdd, P) ==> !Has(P, e.Key())
    ensures |NewEntries(toAdd, P)| <= |toAdd|
    decreases |toAdd|
  {
    if toAdd != [] {
      var pre := toAdd[..|toAdd| - 1];
      NewEntriesCover(pre, P);
      assert toAdd == pre + [toAdd[|toAdd| - 1]];
      assert KeysOf(toAdd) == KeysOf(pre) + {toAdd[|toAdd| - 1].Key()};
    }
  }

  /**
   * sol.addPath(q) for an arc sol does not have yet, with one column added
   * for it and filled; an arc sol has already changes nothing.
   */
  method AddIfNew(lp: TransportLPSolver, sol: TransportPlan, q: Path)
    requires Holds(lp, sol) && 0 <= q.from.id < |sol.paths| && 0 <= q.to.id < |sol.toPathCounts|
    modifies sol`paths, sol`pathCounter, sol`toPathCounts, sol`added
    modifies lp.solver`sInd, lp.solver`tInd, lp.solver`coeff, lp.solver`primal, lp.solver`colStatus, lp.solver`colLB, lp.solver`colUB
    ensures Holds(lp, sol)
    ensures Has(old(sol.paths), q.Key()) ==>
      sol.paths == old(sol.paths) && sol.added == old(sol.added) && sol.pathCounter == old(sol.pathCounter)
      && lp.solver.sInd == old(lp.solver.sInd) && EntriesAre(lp.solver, old(Entries(lp.solver)))
    ensures !Has(old(sol.paths), q.Key()) ==>
      && Has(sol.paths, q.Key()) && OthersKept(sol.paths, old(sol.paths), q.Key())
      && Get(sol.paths, q.Key()) == q.(index := old(sol.pathCounter))
      && sol.added == old(sol.added) + [q.Key()] && sol.pathCounter == old(sol.pathCounter) + 1
      && EntriesAre(lp.solver, old(Entries(lp.solver)) + [ArcEntry(|sol.source.nodes|, q)])
  {
    InArcSet(sol.paths, q.Key());
    if !sol.HasPath(q.from.id, q.to.id) {
      ghost var X := Entries(lp.solver);
      Widen(lp, sol, 1);
      ghost var Y := Entries(lp.solver);
      assert |Y| == |X| + 1 && forall k :: 0 <= k < |X| ==> Y[k] == X[k];
      var index := AddAndFill(lp, sol, q, 1);
      FilledLast(lp.solver, X, Y, lp.pathOffset + index, ArcEntry(|sol.source.nodes|, q));
    }
  }

  /** One more entry of toAdd adds its path to the new entries exactly when its arc is neither in P nor among them. */
  lemma NewEntriesNext(toAdd: seq<Path>, i: int, P: seq<map<int, Path>>)
    requires 0 <= i < |toAdd|
    ensures var E := NewEntries(toAdd[..i], P);
      NewEntries(toAdd[..i + 1], P) == E + (if Has(P, toAdd[i].Key()) || toAdd[i].Key() in KeysOf(E) then [] else [toAdd[i]])
  {
    assert toAdd[..i + 1][..i] == toAdd[..i];
  }

  /** Appending one path appends its arc and its column. */
  lemma Snoc(ns: int, E: seq<Path>, q: Path, A: seq<Arc>, X: seq<(Column, Status)>)
    ensures A + KeySeq(E + [q]) == A + KeySeq(E) + [q.Key()]
    ensures X + ArcEntries(ns, E + [q]) == X + ArcEntries(ns, E) + [ArcEntry(ns, q)]
  {
    assert KeySeq(E + [q]) == KeySeq(E) + [q.Key()];
    assert ArcEntries(ns, E + [q]) == ArcEntries(ns, E) + [ArcEntry(ns, q)];
  }

  /**
   * Part way through the add phase: the LP holds sol, whose rows are P
   * grown by the new entries E, whose creation order is A and then E's
   * arcs, and whose columns are X and then E's columns.
   */
  ghost predicate SoFar(lp: TransportLPSolver, sol: TransportPlan, P: seq<map<int, Path>>, A: seq<Arc>, c: int,
                        X: seq<(Column, Status)>, ns: int, E: seq<Path>)
    reads lp`pathOffset, lp.solver`sInd, lp.solver`tInd, lp.solver`coeff, lp.solver`primal
    reads lp.solver`colLB, lp.solver`colUB, lp.solver`colStatus, lp.solver`mass, lp.solver`rowStatus, lp.solver`dual
    reads sol`paths, sol`toPathCounts, sol`pathCounter, sol`added, sol.source`nodes, sol.target`nodes
  {
    && Holds(lp, sol) && |sol.source.nodes| == ns
    && Grown(sol.paths, P, E, c)
    && sol.pathCounter == c + |E| && sol.added == A + KeySeq(E)
    && EntriesAre(lp.solver, X + ArcEntries(ns, E))
  }

  /** One entry of the corrected add phase. */
  method AddQueuedStep(lp: TransportLPSolver, sol: TransportPlan, q: Path, ghost P: seq<map<int, Path>>, ghost A: seq<Arc>,
                       ghost c: int, ghost X: seq<(Column, Status)>, ghost ns: int, ghost E: seq<Path>) returns (ghost E': seq<Path>)
    requires SoFar(lp, sol, P, A, c, X, ns, E) && 0 <= q.from.id < |sol.paths| && 0 <= q.to.id < |sol.toPathCounts|
    modifies sol`paths, sol`pathCounter, sol`toPathCounts, sol`added
    modifies lp.solver`sInd, lp.solver`tInd, lp.solver`coeff, lp.solver`primal, lp.solver`colStatus, lp.solver`colLB, lp.solver`colUB
    ensures E' == E + (if Has(P, q.Key()) || q.Key() in KeysOf(E) then [] else [q])
    ensures SoFar(lp, sol, P, A, c, X, ns, E')
  {
    ghost var Q := sol.paths;
    EntriesAreValues(lp.solver, X + ArcEntries(ns, E));
    AddIfNew(lp, sol, q);
    if !Has(Q, q.Key()) {
      GrownStep(sol.paths, Q, P, E, c, q);
      Snoc(ns, E, q, A, X);
      E' := E + [q];
    } else {
      E' := E;
    }
  }

  /**
   * The add phase of ballNeighborhood with each arc added once: for each
   * queued path whose arc sol lacks, addPath and one new column filled for
   * it. Afterwards sol has the arcs it had and one per new entry, in order,
   * and the LP holds it.
   */
  method AddQueued(lp: TransportLPSolver, sol: TransportPlan, toAdd: seq<Path>)
    requires Holds(lp, sol) && InLevels(toAdd, |sol.paths|, |sol.toPathCounts|)
    modifies sol`paths, sol`pathCounter, sol`toPathCounts, sol`added
    modifies lp.solver`sInd, lp.solver`tInd, lp.solver`coeff, lp.solver`primal, lp.solver`colStatus, lp.solver`colLB, lp.solver`colUB
    ensures Holds(lp, sol)
    ensures Grown(sol.paths, old(sol.paths), NewEntries(toAdd, old(sol.paths)), old(sol.pathCounter))
    ensures sol.added == old(sol.added) + KeySeq(NewEntries(toAdd, old(sol.paths)))
    ensures EntriesAre(lp.solver, old(Entries(lp.solver)) + ArcEntries(|sol.source.nodes|, NewEntries(toAdd, old(sol.paths))))
  {
    ghost var P, A, c, X := sol.paths, sol.added, sol.pathCounter, Entries(lp.solver);
    ghost var ns := |sol.source.nodes|;
    ghost var E: seq<Path> := [];
    EntriesAreValues(lp.solver, X);
    assert A + KeySeq([]) == A && X + ArcEntries(ns, []) == X;
    var i := 0;
    while i < |toAdd|
      invariant 0 <= i <= |toAdd| && E == NewEntries(toAdd[..i], P)
      invariant SoFar(lp, sol, P, A, c, X, ns, E)
    {
      assert 0 <= toAdd[i].from.id < |sol.source.nodes| && 0 <= toAdd[i].to.id < |sol.target.nodes|;
      NewEntriesNext(toAdd, i, P);
      E := AddQueuedStep(lp, sol, toAdd[i], P, A, c, X, ns, E);
      i := i + 1;
    }
    assert toAdd[..i] == toAdd;
  }

  /**
   * Part way through ballNeighborhood's add phase as written: the LP is
   * pending with one unfilled column for each of the first i entries that
   * was not new, and sol has the arcs of P and of the new entries E.
   */
  ghost predicate WrittenSoFar(lp: TransportLPSolver, sol: TransportPlan, P: seq<map<int, Path>>, n: int, E: seq<Path>)
    reads lp`pathOffset, lp.solver`sInd, lp.solver`tInd, lp.solver`coeff, lp.solver`primal
    reads lp.solver`colLB, lp.solver`colUB, lp.solver`colStatus, lp.solver`mass, lp.solver`rowStatus, lp.solver`dual
    reads sol`paths, sol`toPathCounts, sol`pathCounter, sol`added, sol.source`nodes, sol.target`nodes
  {
    && Pending(lp, sol, n - |E|)
    && forall a :: Has(sol.paths, a) <==> Has(P, a) || a in KeysOf(E)
  }

  /** One entry of the add phase as written: addPath, then the column of the returned index is filled. */
  method AddWrittenStep(lp: TransportLPSolver, sol: TransportPlan, q: Path, ghost P: seq<map<int, Path>>, ghost n: int,
                        ghost E: seq<Path>) returns (ghost E': seq<Path>)
    requires WrittenSoFar(lp, sol, P, n, E) && |E| < n && 0 <= q.from.id < |sol.paths| && 0 <= q.to.id < |sol.toPathCounts|
    modifies sol`paths, sol`pathCounter, sol`toPathCounts, sol`added
    modifies lp.solver`coeff, lp.solver`colLB, lp.solver`colUB, lp.solver`colStatus, lp.solver`sInd, lp.solver`tInd
    ensures E' == E + (if Has(P, q.Key()) || q.Key() in KeysOf(E) then [] else [q])
    ensures WrittenSoFar(lp, sol, P, n, E')
  {
    ghost var present := Has(sol.paths, q.Key());
    var index := AddAndFill(lp, sol, q, n - |E|);
    E' := if present then E else E + [q];
    assert KeysOf(E + [q]) == KeysOf(E) + {q.Key()};
  }

  /**
   * The add phase of ballNeighborhood as written: addColumns(toAdd.size())
   * first, then addPath and the fill for every queued path. A path whose
   * arc is already in sol refills that arc's column, so one appended column
   * per such path stays unfilled.
   */
  method AddQueuedAsWritten(lp: TransportLPSolver, sol: TransportPlan, toAdd: seq<Path>)
    requires Holds(lp, sol) && InLevels(toAdd, |sol.paths|, |sol.toPathCounts|)
    modifies sol`paths, sol`pathCounter, sol`toPathCounts, sol`added
    modifies lp.solver`sInd, lp.solver`tInd, lp.solver`coeff, lp.solver`primal, lp.solver`colStatus, lp.solver`colLB, lp.solver`colUB
    ensures Pending(lp, sol, |toAdd| - |NewEntries(toAdd, old(sol.paths))|)
    ensures forall a :: Has(sol.paths, a) <==> Has(old(sol.paths), a) || a in KeysOf(toAdd)
  {
    ghost var P := sol.paths;
    ghost var E: seq<Path> := [];
    Widen(lp, sol, |toAdd|);
    var i := 0;
    while i < |toAdd|
      invariant 0 <= i <= |toAdd| && E == NewEntries(toAdd[..i], P) && |E| <= i
      invariant WrittenSoFar(lp, sol, P, |toAdd|, E)
    {
      assert 0 <= toAdd[i].from.id < |sol.source.nodes| && 0 <= toAdd[i].to.id < |sol.target.nodes|;
      NewEntriesNext(toAdd, i, P);
      E := AddWrittenStep(lp, sol, toAdd[i], P, |toAdd|, E);
      i := i + 1;
    }
    assert toAdd[..i] == toAdd;
    NewEntriesCover(toAdd, P);
  }

  /** With two entries for one arc, the new entries are fewer than the entries. */
  lemma {:induction false} RepeatShortens(toAdd: seq<Path>, P: seq<map<int, Path>>, i: int, j: int)
    requires 0 <= i < j < |toAdd| && toAdd[i].Key() == toAdd[j].Key()
    ensures |NewEntries(toAdd, P)| < |toAdd|
    decreases |toAdd|
  {
    var pre := toAdd[..|toAdd| - 1];
    NewEntriesCover(pre, P);
    if j < |toAdd| - 1 {
      RepeatShortens(pre, P, i, j);
    } else {
      assert toAdd[i] == pre[i] && toAdd[i] in pre;
    }
  }

  /**
   * Two queued paths for one arc leave a column of the as-written add
   * phase with no end rows, so the graph solveLP builds from the columns
   * has an arc without end nodes.
   */
  lemma RepeatLeavesUnfilled(lp: TransportLPSolver, sol: TransportPlan, toAdd: seq<Path>, P: seq<map<int, Path>>, i: int, j: int)
    requires 0 <= i < j < |toAdd| && toAdd[i].Key() == toAdd[j].Key()
    requires Pending(lp, sol, |toAdd| - |NewEntries(toAdd, P)|)
    ensures !lp.solver.ArcsInGraph()
  {
    RepeatShortens(toAdd, P, i, j);
    PendingInGraph(lp, sol, |toAdd| - |NewEntries(toAdd, P)|);
  }

  /**
   * ballNeighborhood queues a path twice when the blocks of two coarse arcs
   * share a path, as they do when their expanded neighbourhoods overlap.
   */
  lemma SharedBlockRepeats(P: seq<map<int, Path>>, a: Arc, b: Arc, rFactor: real, nbS: Neighborhood, nbT: Neighborhood, KS: Kids, KT: Kids,
                           ps: seq<map<int, Path>>, cost: CostFunction, p: real, e: Path) returns (i: int, j: int)
    requires Has(P, a) && Has(P, b)
    requires e in PathBlock(Get(P, a), rFactor, nbS, nbT, KS, KT, ps, cost, p) && e in PathBlock(Get(P, b), rFactor, nbS, nbT, KS, KT, ps, cost, p)
    ensures var Q := Queue(P, [a, b], rFactor, nbS, nbT, KS, KT, ps, cost, p);
      0 <= i < j < |Q| && Q[i] == e && Q[j] == e
  {
    var A := PathBlock(Get(P, a), rFactor, nbS, nbT, KS, KT, ps, cost, p);
    var B := PathBlock(Get(P, b), rFactor, nbS, nbT, KS, KT, ps, cost, p);
    assert [a, b][..1] == [a] && [a][..0] == [];
    assert Queue(P, [a], rFactor, nbS, nbT, KS, KT, ps, cost, p) == A;
    assert Queue(P, [a, b], rFactor, nbS, nbT, KS, KT, ps, cost, p) == A + B;
    i :| 0 <= i < |A| && A[i] == e;
    var k :| 0 <= k < |B| && B[k] == e;
    j := |A| + k;
  }

  /**
   * Every node of nodes has an entry in K and, with a positive factor, so
   * has every node of its neighbourhood within the factor times its local
   * radius.
   */
  ghost predicate Covers(nodes: seq<TransportNode>, nb: Neighborhood, rFactor: real, K: Kids) {
    && Within(nodes, K)
    && (rFactor > 0.0 ==> forall i :: 0 <= i < |nodes| ==> Within(Ball(nb, nodes[i], rFactor), K))
  }

  /** A plan on covered levels expands inside the child maps. */
  lemma CoveredExpands(P: seq<map<int, Path>>, S: seq<TransportNode>, T: seq<TransportNode>, rFactor: real,
                       nbS: Neighborhood, nbT: Neighborhood, KS: Kids, KT: Kids)
    requires EndsIn(P, S, T) && Covers(S, nbS, rFactor, KS) && Covers(T, nbT, rFactor, KT)
    ensures ExpandsIn(P, rFactor, nbS, nbT, KS, KT)
  {
    forall a | Has(P, a)
      ensures Within(Expansion(Get(P, a), rFactor, nbS, nbT).0, KS) && Within(Expansion(Get(P, a), rFactor, nbS, nbT).1, KT)
    {
      var q := Get(P, a);
      assert q.from == S[a.0] && q.to == T[a.1];
      if rFactor > 0.0 {
        assert Within(Ball(nbS, S[a.0], rFactor), KS) && Within(Ball(nbT, T[a.1], rFactor), KT);
      } else {
        assert S[a.0] in KS && T[a.1] in KT;
        assert Expansion(q, rFactor, nbS, nbT) == ([S[a.0]], [T[a.1]]);
      }
    }
  }

  /** Part way through the add phase of the first pass: sol fits its levels and its rows are P grown by E from index c on. */
  ghost predicate PlainSoFar(sol: TransportPlan, P: seq<map<int, Path>>, c: int, E: seq<Path>)
    reads sol`paths, sol`toPathCounts, sol`pathCounter, sol`added, sol.source`nodes, sol.target`nodes
  {
    Fits(sol) && Grown(sol.paths, P, E, c) && sol.pathCounter == c + |E| && forall e :: e in E ==> e.w == 0.0
  }

  /** One entry of the first pass's add phase: addPath alone. */
  method AddPlainStep(sol: TransportPlan, q: Path, ghost P: seq<map<int, Path>>, ghost c: int, ghost E: seq<Path>) returns (ghost E': seq<Path>)
    requires PlainSoFar(sol, P, c, E) && (forall a :: !Has(P, a))
    requires 0 <= q.from.id < |sol.paths| && 0 <= q.to.id < |sol.toPathCounts| && q.w == 0.0
    modifies sol`paths, sol`pathCounter, sol`toPathCounts, sol`added
    ensures E' == E + (if Has(P, q.Key()) || q.Key() in KeysOf(E) then [] else [q])
    ensures PlainSoFar(sol, P, c, E')
  {
    ghost var Q := sol.paths;
    var _ := AddToPlan(sol, q);
    if !Has(Q, q.Key()) {
      GrownStep(sol.paths, Q, P, E, c, q);
      E' := E + [q];
    } else {
      var j :| 0 <= j < |E| && E[j].Key() == q.Key();
      assert E[j] in E;
      assert Get(sol.paths, q.Key()) == Get(Q, q.Key());
      E' := E;
    }
  }

  /**
   * The add phase of ballNeighborhood without columns, as the first pass
   * runs it on the new empty plan: addPath for every queued path. The plan
   * gets the new entries' arcs, numbered in order.
   */
  method AddPlain(sol: TransportPlan, toAdd: seq<Path>)
    requires Fits(sol) && (forall a :: !Has(sol.paths, a)) && InLevels(toAdd, |sol.paths|, |sol.toPathCounts|)
    modifies sol`paths, sol`pathCounter, sol`toPathCounts, sol`added
    ensures Fits(sol)
    ensures Grown(sol.paths, old(sol.paths), NewEntries(toAdd, old(sol.paths)), old(sol.pathCounter))
    ensures sol.pathCounter == old(sol.pathCounter) + |NewEntries(toAdd, old(sol.paths))|
  {
    ghost var P, c := sol.paths, sol.pathCounter;
    ghost var E: seq<Path> := [];
    var i := 0;
    while i < |toAdd|
      invariant 0 <= i <= |toAdd| && E == NewEntries(toAdd[..i], P)
      invariant PlainSoFar(sol, P, c, E)
    {
      assert 0 <= toAdd[i].from.id < |sol.source.nodes| && 0 <= toAdd[i].to.id < |sol.target.nodes| && toAdd[i].w == 0.0;
      NewEntriesNext(toAdd, i, P);
      E := AddPlainStep(sol, toAdd[i], P, c, E);
      i := i + 1;
    }
    assert toAdd[..i] == toAdd;
  }

  /** The path the all-pairs branch adds for source node s and target node t: Path(s, t) with its transport cost. */
  function PairPath(s: TransportNode, t: TransportNode, cost: CostFunction, p: real): Path {
    NewPath(s, t).(cost := cost(s, t, p))
  }

  /**
   * The arcs of ps are the pairs of the first i source rows and of the first
   * k targets of row i, the pair at row f and column t with index f * nt + t.
   */
  ghost predicate PairsUpTo(ps: seq<map<int, Path>>, S: seq<TransportNode>, T: seq<TransportNode>, i: int, k: int, cost: CostFunction, p: real) {
    && (forall a :: Has(ps, a) <==> 0 <= a.0 && 0 <= a.1 < |T| && (a.0 < i || (a.0 == i && a.1 < k)))
    && (forall a :: Has(ps, a) ==> a.0 < |S| && Get(ps, a) == PairPath(S[a.0], T[a.1], cost, p).(index := a.0 * |T| + a.1))
  }

  /** The all-pairs loops so far: sol fits levels S and T and holds the pairs before (i, k), counted in order. */
  ghost predicate PairsSoFar(sol: TransportPlan, S: seq<TransportNode>, T: seq<TransportNode>, i: int, k: int, cost: CostFunction, p: real)
    reads sol`paths, sol`toPathCounts, sol`pathCounter, sol`added, sol.source`nodes, sol.target`nodes
  {
    && Fits(sol) && sol.source.nodes == S && sol.target.nodes == T && 0 <= i <= |S| && 0 <= k <= |T|
    && PairsUpTo(sol.paths, S, T, i, k, cost, p) && sol.pathCounter == i * |T| + k
  }

  /** One pair of the all-pairs loops. */
  method PairStep(sol: TransportPlan, S: seq<TransportNode>, T: seq<TransportNode>, i: int, k: int, cost: CostFunction, p: real)
    requires PairsSoFar(sol, S, T, i, k, cost, p) && i < |S| && k < |T|
    modifies sol`paths, sol`pathCounter, sol`toPathCounts, sol`added
    ensures PairsSoFar(sol, S, T, i, k + 1, cost, p)
  {
    var q := PairPath(S[i], T[k], cost, p);
    assert q.Key() == (i, k);
    var _ := AddToPlan(sol, q);
  }

  /** A completed row starts the next one. */
  lemma RowDone(ps: seq<map<int, Path>>, S: seq<TransportNode>, T: seq<TransportNode>, i: int, cost: CostFunction, p: real)
    requires 0 <= i && PairsUpTo(ps, S, T, i, |T|, cost, p)
    ensures PairsUpTo(ps, S, T, i + 1, 0, cost, p) && (i + 1) * |T| + 0 == i * |T| + |T|
  {
  }

  /**
   * The branch of propagate without a coarser solution: every pair of a
   * source node and a target node, source-major, each with its transport
   * cost and with index source id * number of targets + target id.
   */
  method AddAllPairs(sol: TransportPlan, p: real, cost: CostFunction)
    requires Fits(sol) && sol.pathCounter == 0 && forall a :: !Has(sol.paths, a)
    modifies sol`paths, sol`pathCounter, sol`toPathCounts, sol`added
    ensures Fits(sol) && PairsUpTo(sol.paths, sol.source.nodes, sol.target.nodes, |sol.source.nodes|, 0, cost, p)
  {
    var S, T := sol.source.nodes, sol.target.nodes;
    var i := 0;
    while i < |S|
      invariant PairsSoFar(sol, S, T, i, 0, cost, p)
    {
      var k := 0;
      while k < |T|
        invariant PairsSoFar(sol, S, T, i, k, cost, p)
      {
        PairStep(sol, S, T, i, k, cost, p);
        k := k + 1;
      }
      RowDone(sol.paths, S, T, i, cost, p);
      i := i + 1;
    }
  }

  /** The rows of a plan without arcs over n source nodes. */
  function EmptyRows(n: nat): (r: seq<map<int, Path>>)
    ensures |r| == n && forall a :: !Has(r, a)
  {
    seq(n, _ => map[])
  }

  /** The arcs a grown plan has are those it had and those queued. */
  lemma GrownCovers(Q: seq<map<int, Path>>, P: seq<map<int, Path>>, toAdd: seq<Path>, c: int)
    requires Grown(Q, P, NewEntries(toAdd, P), c)
    ensures forall a :: Has(Q, a) <==> Has(P, a) || a in KeysOf(toAdd)
  {
    NewEntriesCover(toAdd, P);
  }

  /**
   * One pass of ballNeighborhood over coarse plan rows P took the new plan
   * from rows E to rows R: the walk queued toAdd against E, and R is E
   * grown by the queue's new entries, numbered from c on.
   */
  ghost predicate Pass(P: seq<map<int, Path>>, order: seq<Arc>, toAdd: seq<Path>, rFactor: real, nbS: Neighborhood, nbT: Neighborhood,
                       KS: Kids, KT: Kids, E: seq<map<int, Path>>, R: seq<map<int, Path>>, c: int, cost: CostFunction, p: real) {
    Walk(P, order, toAdd, rFactor, nbS, nbT, KS, KT, E, cost, p) && Grown(R, E, NewEntries(toAdd, E), c)
  }

  /**
   * The first pass of propagate on the new empty plan sol: ballNeighborhood
   * without columns over the coarse primary plan prim (every pair of
   * children of the endpoints of each arc that moved mass), then createLP
   * and solveLP.
   */
  method FirstPass(lp: TransportLPSolver, sol: TransportPlan, prim: TransportPlan, p: real, cost: CostFunction, ghost KS: Kids, ghost KT: Kids)
    returns (ghost toAdd: seq<Path>, ghost order: seq<Arc>)
    requires Fits(sol) && Weighted(sol.source) && sol.pathCounter == 0 && (forall a :: !Has(sol.paths, a))
    requires prim.Valid() && prim != sol && KidsOn(KS, KT, sol)
    requires ExpandsIn(prim.paths, 0.0, prim.source.neighborhood, prim.target.neighborhood, KS, KT)
    modifies prim`outer, prim`inner, sol`paths, sol`pathCounter, sol`toPathCounts, sol`added, sol`outer, sol`inner
    modifies lp, lp.solver
    ensures Pass(prim.paths, order, toAdd, 0.0, prim.source.neighborhood, prim.target.neighborhood, KS, KT, old(sol.paths), sol.paths, 0, cost, p)
    ensures sol.pathCounter == |NewEntries(toAdd, old(sol.paths))|
    ensures Holds(lp, sol) && Solved(lp.solver) && KidsOn(KS, KT, sol)
  {
    toAdd, order := FirstQueue(sol, prim, p, cost, KS, KT);
    CreateSolve(lp, sol);
  }

  /** The queue of the first pass over prim, added to the new empty plan sol without columns. */
  method FirstQueue(sol: TransportPlan, prim: TransportPlan, p: real, cost: CostFunction, ghost KS: Kids, ghost KT: Kids)
    returns (ghost toAdd: seq<Path>, ghost order: seq<Arc>)
    requires Fits(sol) && sol.pathCounter == 0 && (forall a :: !Has(sol.paths, a))
    requires prim.Valid() && prim != sol && KidsOn(KS, KT, sol)
    requires ExpandsIn(prim.paths, 0.0, prim.source.neighborhood, prim.target.neighborhood, KS, KT)
    modifies prim`outer, prim`inner, sol`paths, sol`pathCounter, sol`toPathCounts, sol`added
    ensures Pass(prim.paths, order, toAdd, 0.0, prim.source.neighborhood, prim.target.neighborhood, KS, KT, old(sol.paths), sol.paths, 0, cost, p)
    ensures sol.pathCounter == |NewEntries(toAdd, old(sol.paths))|
    ensures Fits(sol) && KidsOn(KS, KT, sol)
  {
    var queued;
    queued, order := Collect(prim, sol, 0.0, p, cost, KS, KT);
    toAdd := queued;
    AddPlain(sol, queued);
  }

  /**
   * The walk of the second pass: ballNeighborhood's queue over the
   * combined plan C of the coarse solutions, expanded by the factor.
   */
  method CombinedQueue(sol: TransportPlan, pSol: TransportPlanSolutions, rFactor: real, p: real, cost: CostFunction,
                       ghost KS: Kids, ghost KT: Kids, ghost rows: seq<seq<map<int, Path>>>)
    returns (toAdd: seq<Path>, ghost C: seq<map<int, Path>>, ghost order: seq<Arc>)
    requires KidsOn(KS, KT, sol) && pSol.sol.Valid()
    requires forall j :: 0 <= j < |pSol.alternatives| ==>
      pSol.alternatives[j].Valid() && |pSol.alternatives[j].paths| == |pSol.sol.paths| && |pSol.alternatives[j].toPathCounts| == |pSol.sol.toPathCounts|
    requires rows == pSol.Rows() && AllEndIn(rows, pSol.sol.source.nodes, pSol.sol.target.nodes)
    requires Covers(pSol.sol.source.nodes, pSol.sol.source.neighborhood, rFactor, KS)
    requires Covers(pSol.sol.target.nodes, pSol.sol.target.neighborhood, rFactor, KT)
    modifies pSol.alternatives`outer, pSol.alternatives`inner
    ensures CombinesAll(C, rows)
    ensures Walk(C, order, toAdd, rFactor, pSol.sol.source.neighborhood, pSol.sol.target.neighborhood, KS, KT, sol.paths, cost, p)
    ensures InLevels(toAdd, |sol.paths|, |sol.toPathCounts|)
  {
    var tmp := pSol.GetCombinedPaths();
    C := tmp.paths;
    CoveredExpands(C, pSol.sol.source.nodes, pSol.sol.target.nodes, rFactor, tmp.source.neighborhood, tmp.target.neighborhood, KS, KT);
    toAdd, order := Collect(tmp, sol, rFactor, p, cost, KS, KT);
  }

  /**
   * The second pass of propagate: the combined queue added with columns,
   * then solveLP again.
   */
  method SecondPass(lp: TransportLPSolver, sol: TransportPlan, pSol: TransportPlanSolutions, rFactor: real, p: real, cost: CostFunction,
                    ghost KS: Kids, ghost KT: Kids, ghost rows: seq<seq<map<int, Path>>>)
    returns (ghost C: seq<map<int, Path>>, ghost toAdd: seq<Path>, ghost order: seq<Arc>)
    requires Holds(lp, sol) && KidsOn(KS, KT, sol)
    requires pSol.sol.Valid()
    requires forall j :: 0 <= j < |pSol.alternatives| ==>
      pSol.alternatives[j].Valid() && |pSol.alternatives[j].paths| == |pSol.sol.paths| && |pSol.alternatives[j].toPathCounts| == |pSol.sol.toPathCounts|
    requires rows == pSol.Rows() && AllEndIn(rows, pSol.sol.source.nodes, pSol.sol.target.nodes)
    requires Covers(pSol.sol.source.nodes, pSol.sol.source.neighborhood, rFactor, KS)
    requires Covers(pSol.sol.target.nodes, pSol.sol.target.neighborhood, rFactor, KT)
    modifies pSol.alternatives`outer, pSol.alternatives`inner
    modifies sol`paths, sol`pathCounter, sol`toPathCounts, sol`added
    modifies lp, lp.solver
    ensures CombinesAll(C, rows)
    ensures Pass(C, order, toAdd, rFactor, pSol.sol.source.neighborhood, pSol.sol.target.neighborhood, KS, KT,
                 old(sol.paths), sol.paths, old(sol.pathCounter), cost, p)
    ensures Holds(lp, sol) && Solved(lp.solver)
  {
    ghost var P, c := sol.paths, sol.pathCounter;
    var queued;
    queued, C, order := CombinedQueue(sol, pSol, rFactor, p, cost, KS, KT, rows);
    toAdd := queued;
    AddQueued(lp, sol, queued);
    ghost var Q := sol.paths;
    assert Grown(Q, P, NewEntries(toAdd, P), c);
    Solve(lp, sol);
    assert sol.paths == Q;
  }

  /** createLP, solveLP and storeLP on a plan that fits its levels. */
  method CreateSolveStore(lp: TransportLPSolver, sol: TransportPlan, p: real, pow: Power)
    requires Fits(sol) && Weighted(sol.source) && p != 0.0
    modifies lp`pathOffset, lp`sourceMassSupplyDistributionStart, lp`sourceMassSinkDistributionStart
    modifies lp`targetMassSupplyDistributionStart, lp`targetMassSinkDistributionStart
    modifies lp`sourceMassExchangePath, lp`targetMassExchangePath, lp`sourceCirculationPath
    modifies lp`sourceMassSupplyNode, lp`sourceMassSinkNode, lp`targetMassSupplyNode, lp`targetMassSinkNode
    modifies lp.solver`sInd, lp.solver`tInd, lp.solver`coeff, lp.solver`primal, lp.solver`colStatus, lp.solver`colLB, lp.solver`colUB
    modifies lp.solver`mass, lp.solver`rowStatus, lp.solver`dual, lp.solver`ns, lp.solver`nt
    modifies lp.solver`success, lp.solver`objValue, lp.solver`iCount
    modifies sol`cost, sol`paths, sol`outer, sol`inner, (set n | n in sol.source.nodes)`potential, (set n | n in sol.target.nodes)`potential
    ensures Holds(lp, sol) && Solved(lp.solver)
    ensures StoredFrom(sol.paths, old(sol.paths), lp.solver.primal, lp.pathOffset)
    ensures sol.cost == pow(lp.solver.objValue, 1.0 / p)
    ensures StoredPotentials(lp.solver.dual, sol.source.nodes, sol.target.nodes)
  {
    Create(lp, sol);
    Solve(lp, sol);
    Store(lp, sol, p, pow);
  }

  /**
   * propagate without a coarser solution: a new plan over every pair of
   * source and target nodes, solved and stored. Q is the plan before
   * storeLP.
   */
  method PropagateAll(lp: TransportLPSolver, source: Level, target: Level, p: real, pow: Power, cost: CostFunction)
    returns (sols: TransportPlanSolutions, ghost Q: seq<map<int, Path>>)
    requires IdsArePositions(source.nodes) && IdsArePositions(target.nodes) && Weighted(source) && p != 0.0
    modifies lp`pathOffset, lp`sourceMassSupplyDistributionStart, lp`sourceMassSinkDistributionStart
    modifies lp`targetMassSupplyDistributionStart, lp`targetMassSinkDistributionStart
    modifies lp`sourceMassExchangePath, lp`targetMassExchangePath, lp`sourceCirculationPath
    modifies lp`sourceMassSupplyNode, lp`sourceMassSinkNode, lp`targetMassSupplyNode, lp`targetMassSinkNode
    modifies lp.solver`sInd, lp.solver`tInd, lp.solver`coeff, lp.solver`primal, lp.solver`colStatus, lp.solver`colLB, lp.solver`colUB
    modifies lp.solver`mass, lp.solver`rowStatus, lp.solver`dual, lp.solver`ns, lp.solver`nt
    modifies lp.solver`success, lp.solver`objValue, lp.solver`iCount
    modifies (set n | n in source.nodes)`potential, (set n | n in target.nodes)`potential
    ensures fresh(sols) && fresh(sols.sol) && sols.alternatives == [] && sols.sol.source == source && sols.sol.target == target
    ensures PairsUpTo(Q, source.nodes, target.nodes, |source.nodes|, 0, cost, p)
    ensures Holds(lp, sols.sol) && Solved(lp.solver)
    ensures StoredFrom(sols.sol.paths, Q, lp.solver.primal, lp.pathOffset)
    ensures sols.sol.cost == pow(lp.solver.objValue, 1.0 / p)
    ensures StoredPotentials(lp.solver.dual, source.nodes, target.nodes)
  {
    sols := new TransportPlanSolutions(source, target);
    var sol := sols.sol;
    AddAllPairs(sol, p, cost);
    Q := sol.paths;
    CreateSolveStore(lp, sol, p, pow);
  }

  /**
   * Both passes of propagate on the new empty plan sol, which is none of
   * pSol's plans: R1 is sol after the first pass, C the combined plan.
   */
  method Passes(lp: TransportLPSolver, sol: TransportPlan, pSol: TransportPlanSolutions, rFactor: real, p: real, cost: CostFunction,
                ghost KS: Kids, ghost KT: Kids, ghost rows: seq<seq<map<int, Path>>>)
    returns (ghost toAdd1: seq<Path>, ghost order1: seq<Arc>, ghost R1: seq<map<int, Path>>,
             ghost C: seq<map<int, Path>>, ghost toAdd2: seq<Path>, ghost order2: seq<Arc>)
    requires Fits(sol) && Weighted(sol.source) && sol.pathCounter == 0 && (forall a :: !Has(sol.paths, a)) && KidsOn(KS, KT, sol)
    requires sol != pSol.sol && forall j :: 0 <= j < |pSol.alternatives| ==> pSol.alternatives[j] != sol
    requires pSol.sol.Valid()
    requires forall j :: 0 <= j < |pSol.alternatives| ==>
      pSol.alternatives[j].Valid() && |pSol.alternatives[j].paths| == |pSol.sol.paths| && |pSol.alternatives[j].toPathCounts| == |pSol.sol.toPathCounts|
    requires rows == pSol.Rows() && AllEndIn(rows, pSol.sol.source.nodes, pSol.sol.target.nodes)
    requires Covers(pSol.sol.source.nodes, pSol.sol.source.neighborhood, rFactor, KS)
    requires Covers(pSol.sol.target.nodes, pSol.sol.target.neighborhood, rFactor, KT)
    modifies pSol.sol`outer, pSol.sol`inner
    modifies pSol.alternatives`outer, pSol.alternatives`inner
    modifies sol`paths, sol`pathCounter, sol`toPathCounts, sol`added, sol`outer, sol`inner
    modifies lp, lp.solver
    ensures Pass(old(pSol.sol.paths), order1, toAdd1, 0.0, pSol.sol.source.neighborhood, pSol.sol.target.neighborhood, KS, KT,
                 old(sol.paths), R1, 0, cost, p)
    ensures CombinesAll(C, rows)
    ensures Pass(C, order2, toAdd2, rFactor, pSol.sol.source.neighborhood, pSol.sol.target.neighborhood, KS, KT,
                 R1, sol.paths, |NewEntries(toAdd1, old(sol.paths))|, cost, p)
    ensures Holds(lp, sol) && Solved(lp.solver)
  {
    assert pSol.Rows()[0] == pSol.sol.paths;
    assert Covers(pSol.sol.source.nodes, pSol.sol.source.neighborhood, 0.0, KS) && Covers(pSol.sol.target.nodes, pSol.sol.target.neighborhood, 0.0, KT);
    CoveredExpands(pSol.sol.paths, pSol.sol.source.nodes, pSol.sol.target.nodes, 0.0, pSol.sol.source.neighborhood, pSol.sol.target.neighborhood, KS, KT);
    ghost var S, T := pSol.sol.source.nodes, pSol.sol.target.nodes;
    pSol.RowsAt();
    toAdd1, order1 := FirstPass(lp, sol, pSol.sol, p, cost, KS, KT);
    R1 := sol.paths;
    assert pSol.sol.source.nodes == S && pSol.sol.target.nodes == T;
    pSol.RowsUnchanged(rows);
    C, toAdd2, order2 := SecondPass(lp, sol, pSol, rFactor, p, cost, KS, KT, rows);
  }

  /** A new holder over the fine levels whose primary plan has had both passes of propagate. */
  method NewPasses(lp: TransportLPSolver, source: Level, target: Level, pSol: TransportPlanSolutions, rFactor: real, p: real,
                   cost: CostFunction, ghost KS: Kids, ghost KT: Kids, ghost rows: seq<seq<map<int, Path>>>)
    returns (sols: TransportPlanSolutions, ghost toAdd1: seq<Path>, ghost order1: seq<Arc>, ghost R1: seq<map<int, Path>>,
             ghost C: seq<map<int, Path>>, ghost toAdd2: seq<Path>, ghost order2: seq<Arc>)
    requires IdsArePositions(source.nodes) && IdsArePositions(target.nodes) && Weighted(source)
    requires Mirrors(KS) && Mirrors(KT) && KidsBelow(KS, |source.nodes|) && KidsBelow(KT, |target.nodes|)
    requires pSol.sol.Valid()
    requires forall j :: 0 <= j < |pSol.alternatives| ==>
      pSol.alternatives[j].Valid() && |pSol.alternatives[j].paths| == |pSol.sol.paths| && |pSol.alternatives[j].toPathCounts| == |pSol.sol.toPathCounts|
    requires rows == pSol.Rows() && AllEndIn(rows, pSol.sol.source.nodes, pSol.sol.target.nodes)
    requires Covers(pSol.sol.source.nodes, pSol.sol.source.neighborhood, rFactor, KS)
    requires Covers(pSol.sol.target.nodes, pSol.sol.target.neighborhood, rFactor, KT)
    modifies pSol.sol`outer, pSol.sol`inner
    modifies pSol.alternatives`outer, pSol.alternatives`inner
    modifies lp, lp.solver
    ensures fresh(sols) && fresh(sols.sol) && sols.alternatives == [] && sols.sol.source == source && sols.sol.target == target
    ensures Pass(old(pSol.sol.paths), order1, toAdd1, 0.0, pSol.sol.source.neighborhood, pSol.sol.target.neighborhood, KS, KT,
                 EmptyRows(|source.nodes|), R1, 0, cost, p)
    ensures CombinesAll(C, rows)
    ensures Pass(C, order2, toAdd2, rFactor, pSol.sol.source.neighborhood, pSol.sol.target.neighborhood, KS, KT,
                 R1, sols.sol.paths, |NewEntries(toAdd1, EmptyRows(|source.nodes|))|, cost, p)
    ensures Holds(lp, sols.sol) && Solved(lp.solver)
  {
    pSol.RowsAt();
    sols := new TransportPlanSolutions(source, target);
    var sol := sols.sol;
    pSol.RowsUnchanged(rows);
    assert sol.paths == EmptyRows(|source.nodes|);
    toAdd1, order1, R1, C, toAdd2, order2 := Passes(lp, sol, pSol, rFactor, p, cost, KS, KT, rows);
  }

  /**
   * propagate from the coarser solutions pSol, after computeAlternateSolutions:
   * a new plan over the fine levels; its first pass over the coarse primary
   * plan; its second pass over the combined plan C with expansion factor
   * rFactor; storeLP after the second solve. toAdd1 and toAdd2 are the two
   * queues, walking the coarse arcs in orders order1 and order2. R1 is the
   * plan after the first pass and Q the plan before storeLP; its arcs are
   * exactly the queued ones.
   */
  method PropagateFrom(lp: TransportLPSolver, source: Level, target: Level, pSol: TransportPlanSolutions, rFactor: real, p: real,
                       pow: Power, cost: CostFunction, ghost KS: Kids, ghost KT: Kids)
    returns (sols: TransportPlanSolutions, ghost toAdd1: seq<Path>, ghost order1: seq<Arc>, ghost R1: seq<map<int, Path>>,
             ghost C: seq<map<int, Path>>, ghost toAdd2: seq<Path>, ghost order2: seq<Arc>, ghost Q: seq<map<int, Path>>)
    requires IdsArePositions(source.nodes) && IdsArePositions(target.nodes) && Weighted(source) && p != 0.0
    requires Mirrors(KS) && Mirrors(KT) && KidsBelow(KS, |source.nodes|) && KidsBelow(KT, |target.nodes|)
    requires pSol.sol.Valid()
    requires forall j :: 0 <= j < |pSol.alternatives| ==>
      pSol.alternatives[j].Valid() && |pSol.alternatives[j].paths| == |pSol.sol.paths| && |pSol.alternatives[j].toPathCounts| == |pSol.sol.toPathCounts|
    requires AllEndIn(pSol.Rows(), pSol.sol.source.nodes, pSol.sol.target.nodes)
    requires Covers(pSol.sol.source.nodes, pSol.sol.source.neighborhood, rFactor, KS)
    requires Covers(pSol.sol.target.nodes, pSol.sol.target.neighborhood, rFactor, KT)
    modifies pSol.sol`outer, pSol.sol`inner
    modifies pSol.alternatives`outer, pSol.alternatives`inner
    modifies lp, lp.solver
    modifies (set n | n in source.nodes)`potential, (set n | n in target.nodes)`potential
    ensures fresh(sols) && fresh(sols.sol) && sols.alternatives == [] && sols.sol.source == source && sols.sol.target == target
    ensures Pass(old(pSol.sol.paths), order1, toAdd1, 0.0, pSol.sol.source.neighborhood, pSol.sol.target.neighborhood, KS, KT,
                 EmptyRows(|source.nodes|), R1, 0, cost, p)
    ensures CombinesAll(C, old(pSol.Rows()))
    ensures Pass(C, order2, toAdd2, rFactor, pSol.sol.source.neighborhood, pSol.sol.target.neighborhood, KS, KT,
                 R1, Q, |NewEntries(toAdd1, EmptyRows(|source.nodes|))|, cost, p)
    ensures forall a :: Has(Q, a) <==> a in KeysOf(toAdd1) || a in KeysOf(toAdd2)
    ensures Holds(lp, sols.sol) && Solved(lp.solver)
    ensures StoredFrom(sols.sol.paths, Q, lp.solver.primal, lp.pathOffset)
    ensures sols.sol.cost == pow(lp.solver.objValue, 1.0 / p)
    ensures StoredPotentials(lp.solver.dual, source.nodes, target.nodes)
  {
    ghost var rows := pSol.Rows();
    sols, toAdd1, order1, R1, C, toAdd2, order2 := NewPasses(lp, source, target, pSol, rFactor, p, cost, KS, KT, rows);
    Q := sols.sol.paths;
    GrownCovers(R1, EmptyRows(|source.nodes|), toAdd1, 0);
    GrownCovers(Q, R1, toAdd2, |NewEntries(toAdd1, EmptyRows(|source.nodes|))|);
    Store(lp, sols.sol, p, pow);
  }
}
