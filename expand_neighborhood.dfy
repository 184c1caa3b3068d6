/**
 * ExpandNeighborhoodStrategy: grow the primary plan by the arcs near the
 * arcs that carry mass whose reduced cost under the current potentials is
 * not positive, adding them to the LP a batch at a time and re-solving.
 *
 * A pass sets the node potentials from the duals of the last solve,
 * collects the candidate arcs (getNeighborhodArcs), moves them into the
 * plan in batches of at most nExpansionAdd, re-solving after each batch
 * until they run out or the objective stops improving, and stores the
 * solution. Passes repeat until one finds no candidate or
 * nRefinementIterations passes have run.
 */
module ExpandNeighborhood {
  import opened Nodes
  import opened Levels
  import opened Plans
  import opened LPSolver
  import opened Lemon
  import opened TransportSolver
  import opened StrategyLP
  import opened NeighborhoodStrategy
  import NP = NeighborhoodPropagation

  /**
   * The innermost body of getNeighborhodArcs: the pair f2, t2 is recorded
   * in N, with its transport cost, when its arc is in neither sol nor N and
   * its reduced cost is not positive.
   */
  method TryPair(N: TransportPlan, sol: TransportPlan, f2: TransportNode, t2: TransportNode, p: real, cost: CostFunction,
                 ghost PI: PotentialMap)
    requires Beside(N, sol) && N != sol && 0 <= f2.id < |sol.paths| && 0 <= t2.id < |sol.toPathCounts|
    requires Recorded(PI) && f2 in PI && t2 in PI
    modifies N`paths, N`pathCounter, N`toPathCounts, N`added
    ensures Beside(N, sol) && Keeps(N.paths, old(N.paths))
    ensures Admitted(sol.paths, PI, f2, t2, cost, p) ==> Has(N.paths, (f2.id, t2.id))
    ensures NewDrawn(N.paths, old(N.paths), [f2], [t2], sol.paths, PI, cost, p)
  {
    InArcSet(sol.paths, (f2.id, t2.id));
    InArcSet(N.paths, (f2.id, t2.id));
    if !sol.HasPath(f2.id, t2.id) && !N.HasPath(f2.id, t2.id) {
      var q := NP.PairPath(f2, t2, cost, p);
      var rc := q.cost - q.from.potential + q.to.potential;
      if rc <= 0.0 {
        var _ := N.AddPath(q);
      }
    }
  }

  /**
   * The loop over the target neighbours of one source neighbour f: every
   * admitted pair of f with a node of T is in N afterwards.
   */
  method SearchRow(f: TransportNode, F: seq<TransportNode>, T: seq<TransportNode>, N: TransportPlan, sol: TransportPlan, p: real,
                   cost: CostFunction, ghost PI: PotentialMap)
    requires Fits(sol) && Beside(N, sol) && N != sol && f in F && Inside(F, sol.source.nodes) && Inside(T, sol.target.nodes)
    requires Recorded(PI) && Priced(PI, sol.source.nodes) && Priced(PI, sol.target.nodes)
    modifies N`paths, N`pathCounter, N`toPathCounts, N`added
    ensures Beside(N, sol) && Keeps(N.paths, old(N.paths))
    ensures forall l :: 0 <= l < |T| && Admitted(sol.paths, PI, f, T[l], cost, p) ==> Has(N.paths, (f.id, T[l].id))
    ensures NewDrawn(N.paths, old(N.paths), F, T, sol.paths, PI, cost, p)
  {
    ghost var N0 := N.paths;
    NodeAtId(sol.source.nodes, f);
    var k := 0;
    while k < |T|
      invariant 0 <= k <= |T|
      invariant Beside(N, sol) && Keeps(N.paths, N0) && NewDrawn(N.paths, N0, F, T, sol.paths, PI, cost, p)
      invariant forall l :: 0 <= l < k && Admitted(sol.paths, PI, f, T[l], cost, p) ==> Has(N.paths, (f.id, T[l].id))
    {
      ghost var Q := N.paths;
      NodeAtId(sol.target.nodes, T[k]);
      TryPair(N, sol, f, T[k], p, cost, PI);
      DrawnWiden(N.paths, Q, f, T[k], F, T, sol.paths, PI, cost, p);
      DrawnTrans(N.paths, Q, N0, F, T, sol.paths, PI, cost, p);
      k := k + 1;
    }
  }

  /**
   * The two loops over the source and target neighbourhoods F and T of one
   * seed arc: every admitted pair of F x T is in N afterwards.
   */
  method SearchPairs(F: seq<TransportNode>, T: seq<TransportNode>, N: TransportPlan, sol: TransportPlan, p: real,
                     cost: CostFunction, ghost PI: PotentialMap)
    requires Fits(sol) && Beside(N, sol) && N != sol && Inside(F, sol.source.nodes) && Inside(T, sol.target.nodes)
    requires Recorded(PI) && Priced(PI, sol.source.nodes) && Priced(PI, sol.target.nodes)
    modifies N`paths, N`pathCounter, N`toPathCounts, N`added
    ensures Beside(N, sol) && Keeps(N.paths, old(N.paths))
    ensures forall f2, t2 :: f2 in F && t2 in T && Admitted(sol.paths, PI, f2, t2, cost, p) ==> Has(N.paths, (f2.id, t2.id))
    ensures NewDrawn(N.paths, old(N.paths), F, T, sol.paths, PI, cost, p)
  {
    ghost var N0 := N.paths;
    var i := 0;
    while i < |F|
      invariant 0 <= i <= |F|
      invariant Beside(N, sol) && Keeps(N.paths, N0) && NewDrawn(N.paths, N0, F, T, sol.paths, PI, cost, p)
      invariant forall j, l :: 0 <= j < i && 0 <= l < |T| && Admitted(sol.paths, PI, F[j], T[l], cost, p) ==> Has(N.paths, (F[j].id, T[l].id))
    {
      ghost var Q := N.paths;
      SearchRow(F[i], F, T, N, sol, p, cost, PI);
      DrawnTrans(N.paths, Q, N0, F, T, sol.paths, PI, cost, p);
      i := i + 1;
    }
    forall f2, t2 | f2 in F && t2 in T && Admitted(sol.paths, PI, f2, t2, cost, p)
      ensures Has(N.paths, (f2.id, t2.id))
    {
      var j :| 0 <= j < |F| && F[j] == f2;
      var l :| 0 <= l < |T| && T[l] == t2;
    }
  }

  /** Part way through getNeighborhodArcs' walk over the rows E of expand: the passed arcs are D, the seeds among them have balls in B, and N holds what their balls admit. */
  ghost predicate Searching(expand: TransportPlan, E: seq<map<int, Path>>, D: set<Arc>, B: Balls, N: TransportPlan, sol: TransportPlan,
                            PI: PotentialMap, cost: CostFunction, p: real)
    reads expand, N`paths, N`toPathCounts, N`pathCounter, N`added, sol`paths, sol`toPathCounts
  {
    && expand.Valid() && expand.Cursor() && expand.paths == E
    && DoneUpTo(E, D, expand.IsAtEnd(), (expand.outer, expand.inner))
    && (forall a :: a in B <==> a in D && Has(E, a) && Get(E, a).w > 0.0)
    && Beside(N, sol) && Covered(N.paths, B, sol.paths, PI, cost, p) && Sound(N.paths, B, sol.paths, PI, cost, p)
  }

  /** The arcs drawn from the balls (F, T) of a new seed a are drawn around the seeds of B[a := (F, T)]. */
  lemma SeedSound(Q: seq<map<int, Path>>, P: seq<map<int, Path>>, B: Balls, a: Arc, F: seq<TransportNode>, T: seq<TransportNode>,
                  X: seq<map<int, Path>>, PI: PotentialMap, cost: CostFunction, p: real)
    requires Sound(P, B, X, PI, cost, p) && Keeps(Q, P) && NewDrawn(Q, P, F, T, X, PI, cost, p) && a !in B
    ensures Sound(Q, B[a := (F, T)], X, PI, cost, p)
  {
    var B' := B[a := (F, T)];
    forall k | Has(Q, k)
      ensures Get(Q, k).Key() == k && Drawn(Get(Q, k), B', X, PI, cost, p)
    {
      var q := Get(Q, k);
      if Has(P, k) {
        assert Drawn(Get(P, k), B, X, PI, cost, p);
        var a' :| a' in B && q.from in B[a'].0 && q.to in B[a'].1;
        assert a' in B' && B'[a'] == B[a'];
      } else {
        assert a in B' && q.from in B'[a].0 && q.to in B'[a].1;
      }
    }
  }

  /**
   * The body of getNeighborhodArcs' walk for the arc `path` at key c: an
   * arc with positive weight is a seed, and the neighbourhoods of its
   * endpoints within SearchRadius are searched.
   */
  method SearchSeed(path: Path, ghost c: Arc, sol: TransportPlan, N: TransportPlan, p: real, rFactor: real, cost: CostFunction,
                    ghost PI: PotentialMap, ghost B: Balls, ghost balls: (seq<TransportNode>, seq<TransportNode>))
    returns (ghost B': Balls)
    requires balls == Reach(path, rFactor, sol.source.neighborhood, sol.target.neighborhood)
    requires Fits(sol) && Beside(N, sol) && N != sol && c !in B
    requires Covered(N.paths, B, sol.paths, PI, cost, p) && Sound(N.paths, B, sol.paths, PI, cost, p)
    requires path.from in sol.source.nodes && path.to in sol.target.nodes
    requires Closed(sol.source.neighborhood, sol.source.nodes) && Closed(sol.target.neighborhood, sol.target.nodes)
    requires Recorded(PI) && Priced(PI, sol.source.nodes) && Priced(PI, sol.target.nodes)
    modifies N`paths, N`pathCounter, N`toPathCounts, N`added
    ensures Beside(N, sol) && Covered(N.paths, B', sol.paths, PI, cost, p) && Sound(N.paths, B', sol.paths, PI, cost, p)
    ensures path.w > 0.0 ==> B' == B[c := balls]
    ensures path.w <= 0.0 ==> B' == B
  {
    B' := B;
    if path.w > 0.0 {
      var r := Reach(path, rFactor, sol.source.neighborhood, sol.target.neighborhood);
      ghost var P := N.paths;
      SearchPairs(r.0, r.1, N, sol, p, cost, PI);
      SeedCovered(N.paths, P, B, c, r.0, r.1, sol.paths, PI, cost, p);
      SeedSound(N.paths, P, B, c, r.0, r.1, sol.paths, PI, cost, p);
      B' := B[c := r];
    }
  }

  /** One arc of getNeighborhodArcs' walk: search around it when it is a seed, then move the cursor on. */
  method SearchStep(expand: TransportPlan, sol: TransportPlan, N: TransportPlan, p: real, rFactor: real, cost: CostFunction,
                    ghost PI: PotentialMap, ghost E: seq<map<int, Path>>, ghost R: Balls, ghost D: set<Arc>, ghost B: Balls, ghost c: Arc)
    returns (ghost D': set<Arc>, ghost B': Balls)
    requires Searching(expand, E, D, B, N, sol, PI, cost, p) && !expand.IsAtEnd()
    requires Fits(sol) && N != sol && N != expand && expand != sol && EndsIn(E, sol.source.nodes, sol.target.nodes)
    requires Closed(sol.source.neighborhood, sol.source.nodes) && Closed(sol.target.neighborhood, sol.target.nodes)
    requires Recorded(PI) && Priced(PI, sol.source.nodes) && Priced(PI, sol.target.nodes)
    requires c == (expand.outer, expand.inner) && c in R && Has(E, c) && Within(B, R)
    requires R[c] == Reach(Get(E, c), rFactor, sol.source.neighborhood, sol.target.neighborhood)
    modifies expand`outer, expand`inner, N`paths, N`pathCounter, N`toPathCounts, N`added
    ensures Searching(expand, E, D', B', N, sol, PI, cost, p)
    ensures Within(B', R)
    ensures expand.Remaining() < old(expand.Remaining())
  {
    var path := expand.Current();
    assert Get(E, c) == path && c !in D;
    B' := SeedWithin(path, c, sol, N, p, rFactor, cost, PI, B, R);
    expand.Pass(D);
    D' := D + {c};
  }

  /** SearchSeed with the balls R gives the arc c: the seeds stay within R. */
  method SeedWithin(path: Path, ghost c: Arc, sol: TransportPlan, N: TransportPlan, p: real, rFactor: real, cost: CostFunction,
                    ghost PI: PotentialMap, ghost B: Balls, ghost R: Balls)
    returns (ghost B': Balls)
    requires c in R && Within(B, R) && R[c] == Reach(path, rFactor, sol.source.neighborhood, sol.target.neighborhood)
    requires Fits(sol) && Beside(N, sol) && N != sol && c !in B
    requires Covered(N.paths, B, sol.paths, PI, cost, p) && Sound(N.paths, B, sol.paths, PI, cost, p)
    requires path.from in sol.source.nodes && path.to in sol.target.nodes
    requires Closed(sol.source.neighborhood, sol.source.nodes) && Closed(sol.target.neighborhood, sol.target.nodes)
    requires Recorded(PI) && Priced(PI, sol.source.nodes) && Priced(PI, sol.target.nodes)
    modifies N`paths, N`pathCounter, N`toPathCounts, N`added
    ensures Beside(N, sol) && Covered(N.paths, B', sol.paths, PI, cost, p) && Sound(N.paths, B', sol.paths, PI, cost, p)
    ensures path.w > 0.0 ==> B' == B[c := R[c]]
    ensures path.w <= 0.0 ==> B' == B
    ensures Within(B', R)
  {
    B' := SearchSeed(path, c, sol, N, p, rFactor, cost, PI, B, R[c]);
    if path.w > 0.0 {
      WithinSet(B, R, c);
    }
  }

  /** getNeighborhodArcs' walk over expand, from its first arc to its end. */
  method Walk(expand: TransportPlan, sol: TransportPlan, N: TransportPlan, p: real, rFactor: real, cost: CostFunction,
              ghost PI: PotentialMap, ghost E: seq<map<int, Path>>, ghost R: Balls)
    returns (ghost D: set<Arc>, ghost B: Balls)
    requires Searching(expand, E, {}, map[], N, sol, PI, cost, p)
    requires Fits(sol) && N != sol && N != expand && expand != sol && EndsIn(E, sol.source.nodes, sol.target.nodes)
    requires Closed(sol.source.neighborhood, sol.source.nodes) && Closed(sol.target.neighborhood, sol.target.nodes)
    requires Recorded(PI) && Priced(PI, sol.source.nodes) && Priced(PI, sol.target.nodes)
    requires Reaches(E, R, rFactor, sol) && forall a :: Has(E, a) ==> a in R
    modifies expand`outer, expand`inner, N`paths, N`pathCounter, N`toPathCounts, N`added
    ensures Searching(expand, E, D, B, N, sol, PI, cost, p) && expand.IsAtEnd() && Within(B, R)
  {
    D := {};
    B := map[];
    while !expand.IsAtEnd()
      invariant Searching(expand, E, D, B, N, sol, PI, cost, p)
      invariant Within(B, R)
      decreases expand.Remaining()
    {
      ghost var c: Arc := (expand.outer, expand.inner);
      InArcSet(E, c);
      assert R[c] == old(Reach(Get(E, c), rFactor, sol.source.neighborhood, sol.target.neighborhood));
      D, B := SearchStep(expand, sol, N, p, rFactor, cost, PI, E, R, D, B, c);
    }
  }

  /**
   * getNeighborhodArcs: the walk over expand. Afterwards the seeds are the
   * arcs of expand with positive weight, each searched with the balls
   * Reach gives it; every admitted pair in a seed's balls is an arc of N,
   * and every arc of N is such a pair, recorded with its transport cost.
   */
  method GetNeighborhoodArcs(sol: TransportPlan, expand: TransportPlan, N: TransportPlan, p: real, rFactor: real, cost: CostFunction,
                             ghost PI: PotentialMap)
    returns (ghost B: Balls)
    requires Fits(sol) && expand.Valid() && EndsIn(expand.paths, sol.source.nodes, sol.target.nodes)
    requires expand.source == sol.source && expand.target == sol.target
    requires Closed(sol.source.neighborhood, sol.source.nodes) && Closed(sol.target.neighborhood, sol.target.nodes)
    requires N != sol && N != expand && expand != sol && Beside(N, sol) && forall b :: !Has(N.paths, b)
    requires Recorded(PI) && Priced(PI, sol.source.nodes) && Priced(PI, sol.target.nodes)
    modifies expand`outer, expand`inner, N`paths, N`pathCounter, N`toPathCounts, N`added
    ensures Beside(N, sol)
    ensures forall a :: a in B <==> Has(expand.paths, a) && Get(expand.paths, a).w > 0.0
    ensures expand.paths == old(expand.paths)
    ensures forall a :: a in B ==> B[a] == old(Reach(Get(expand.paths, a), rFactor, expand.source.neighborhood, expand.target.neighborhood))
    ensures Covered(N.paths, B, sol.paths, PI, cost, p) && Sound(N.paths, B, sol.paths, PI, cost, p)
  {
    ghost var E := expand.paths;
    ghost var R := ReachAll(E, rFactor, sol.source.neighborhood, sol.target.neighborhood);
    expand.Begin();
    ghost var D;
    D, B := Walk(expand, sol, N, p, rFactor, cost, PI, E, R);
    InArcSetAll(E, D);
    forall a | Has(E, a)
      ensures a in D
    {
      InArcSet(E, a);
    }
  }

  /** A sequence without repeats has as many distinct elements as entries. */
  lemma {:induction false} DistinctCount(s: seq<Arc>)
    requires forall i, j :: 0 <= i < j < |s| ==> s[i] != s[j]
    ensures |set x | x in s| == |s|
  {
    if s != [] {
      var t := s[..|s| - 1];
      DistinctCount(t);
      assert (set x | x in s) == (set x | x in t) + {s[|s| - 1]};
    }
  }

  /** getNumberOfPaths of a dense plan counts its arcs. */
  lemma DenseCount(ps: seq<map<int, Path>>, counts: seq<int>, counter: int, added: seq<Arc>)
    requires DenseRows(ps, counts, counter, added)
    ensures |ArcSet(ps)| == counter
  {
    forall i, j | 0 <= i < j < |added|
      ensures added[i] != added[j]
    {
      assert Get(ps, added[i]).index == i && Get(ps, added[j]).index == j;
    }
    DistinctCount(added);
    forall a | a in ArcSet(ps)
      ensures a in added
    {
      InArcSet(ps, a);
      assert added[Get(ps, a).index] == a;
    }
    forall a | a in added
      ensures a in ArcSet(ps)
    {
      InArcSet(ps, a);
    }
    assert ArcSet(ps) == set x | x in added;
  }

  /**
   * The rows Q of the candidate plan are its rows N0 less the moved paths
   * E, which were its least arcs, taken in order.
   */
  ghost predicate Drained(Q: seq<map<int, Path>>, N0: seq<map<int, Path>>, E: seq<Path>) {
    && (forall a :: Has(Q, a) <==> Has(N0, a) && a !in NP.KeysOf(E))
    && (forall a :: Has(Q, a) ==> Get(Q, a) == Get(N0, a))
    && (forall j :: 0 <= j < |E| ==> Has(N0, E[j].Key()) && E[j] == Get(N0, E[j].Key()))
    && (forall i, j :: 0 <= i < j < |E| ==> Before(E[i].Key(), E[j].Key()))
    && (forall j, a :: 0 <= j < |E| && Has(Q, a) ==> Before(E[j].Key(), a))
  }

  /**
   * The candidate plan N beside sol while its arcs are moved: its cursor is
   * at or before all its arcs, none of which sol has, and its counter
   * counts them.
   */
  ghost predicate Queued(N: TransportPlan, sol: TransportPlan)
    reads N, sol`paths, sol`toPathCounts
  {
    && N.Valid() && N.Cursor() && |N.paths| == |sol.paths| && |N.toPathCounts| == |sol.toPathCounts|
    && (forall b :: Has(N.paths, b) ==> !Before(b, (N.outer, N.inner)) && !Has(sol.paths, b))
    && N.pathCounter == |ArcSet(N.paths)|
  }

  /** With the cursor at the end, a queued plan has no arc left. */
  lemma QueuedEmpty(N: TransportPlan, sol: TransportPlan)
    requires Queued(N, sol) && N.IsAtEnd()
    ensures forall b :: !Has(N.paths, b)
    ensures N.pathCounter == 0
  {
    forall b | Has(N.paths, b)
      ensures false
    {
      assert Before(b, (N.outer, N.inner));
    }
    forall b | b in ArcSet(N.paths)
      ensures false
    {
      InArcSet(N.paths, b);
    }
    assert ArcSet(N.paths) == {};
  }

  /** Erasing the least arc cur of Q moves its path to the end of E and leaves the arcs after cur. */
  lemma DrainStep(Q: seq<map<int, Path>>, Q': seq<map<int, Path>>, N0: seq<map<int, Path>>, E: seq<Path>, cur: Arc, atEnd: bool, pos: Arc)
    requires Drained(Q, N0, E) && Has(Q, cur) && Get(Q, cur).Key() == cur
    requires forall b :: Has(Q, b) ==> !Before(b, cur)
    requires Q' == Q[cur.0 := Q[cur.0] - {cur.1}]
    requires atEnd <==> forall b :: Has(Q', b) ==> !Before(cur, b)
    requires !atEnd ==> forall b :: Has(Q', b) && Before(cur, b) ==> !Before(b, pos)
    ensures Drained(Q', N0, E + [Get(Q, cur)])
    ensures forall b :: Has(Q', b) ==> !atEnd && !Before(b, pos)
    ensures ArcSet(Q') == ArcSet(Q) - {cur} && cur in ArcSet(Q)
  {
    var q := Get(Q, cur);
    var E' := E + [q];
    assert NP.KeysOf(E') == NP.KeysOf(E) + {cur};
    forall b | Has(Q', b)
      ensures Before(cur, b)
    {
      assert b != cur && !Before(b, cur);
    }
    forall j | 0 <= j < |E|
      ensures Before(E[j].Key(), cur)
    {
    }
    forall a | a in ArcSet(Q')
      ensures a in ArcSet(Q) && a != cur
    {
      InArcSet(Q', a);
      InArcSet(Q, a);
    }
    forall a | a in ArcSet(Q) && a != cur
      ensures a in ArcSet(Q')
    {
      InArcSet(Q', a);
      InArcSet(Q, a);
    }
    InArcSet(Q, cur);
  }

  /** Columns kept but column |Y|, which is now e, extend a prefix Y by e. */
  lemma PrefixStep(s: LemonSolver, Y: seq<(Column, Status)>, Z: seq<(Column, Status)>, e: (Column, Status))
    requires |Y| < |Z| && (forall k :: 0 <= k < |Y| ==> Z[k] == Y[k])
    requires EntriesKept(s, |Y|, Z) && EntryAt(s, |Y|) == e
    ensures Prefix(s, Y + [e])
  {
  }

  /**
   * Part way through addColumns, on the LP side: n columns were appended
   * and the moved paths E went into sol (rows P, creation order A, counter
   * c) in order, filling the first |E| of them after the columns X of sol.
   */
  ghost predicate Filled(lp: TransportLPSolver, sol: TransportPlan, P: seq<map<int, Path>>, A: seq<Arc>, c: int,
                         X: seq<(Column, Status)>, ns: int, E: seq<Path>, n: int)
    reads lp`pathOffset, lp.solver`sInd, lp.solver`tInd, lp.solver`coeff, lp.solver`primal
    reads lp.solver`colLB, lp.solver`colUB, lp.solver`colStatus, lp.solver`mass, lp.solver`rowStatus, lp.solver`dual
    reads sol`paths, sol`toPathCounts, sol`pathCounter, sol`added, sol.source`nodes, sol.target`nodes
  {
    && |E| <= n && Pending(lp, sol, n - |E|) && |sol.source.nodes| == ns
    && NP.Grown(sol.paths, P, E, c) && sol.pathCounter == c + |E| && sol.added == A + NP.KeySeq(E)
    && |X| == lp.pathOffset + c && Prefix(lp.solver, X + NP.ArcEntries(ns, E))
  }

  /** The LP side of one turn of addColumns: sol.addPath(path) for an arc sol lacks, and its column filled. */
  method MoveIn(lp: TransportLPSolver, sol: TransportPlan, path: Path, ghost P: seq<map<int, Path>>, ghost A: seq<Arc>, ghost c: int,
                ghost X: seq<(Column, Status)>, ghost ns: int, ghost E: seq<Path>, ghost n: int)
    requires Filled(lp, sol, P, A, c, X, ns, E, n) && |E| < n && !Has(sol.paths, path.Key())
    requires 0 <= path.from.id < |sol.paths| && 0 <= path.to.id < |sol.toPathCounts|
    modifies sol`paths, sol`pathCounter, sol`toPathCounts, sol`added
    modifies lp.solver`coeff, lp.solver`colLB, lp.solver`colUB, lp.solver`colStatus, lp.solver`sInd, lp.solver`tInd
    ensures Filled(lp, sol, P, A, c, X, ns, E + [path], n)
    ensures forall b :: Has(sol.paths, b) ==> Has(old(sol.paths), b) || b == path.Key()
  {
    ghost var Q := sol.paths;
    ghost var Z := Entries(lp.solver);
    ghost var Y := X + NP.ArcEntries(ns, E);
    var index := AddAndFill(lp, sol, path, n - |E|);
    NP.GrownStep(sol.paths, Q, P, E, c, path);
    NP.Snoc(ns, E, path, A, X);
    PrefixStep(lp.solver, Y, Z, ArcEntry(ns, path));
  }

  /** Part way through addColumns: the LP side is Filled, and N lost the moved paths E and as many from its counter. */
  ghost predicate Moving(lp: TransportLPSolver, sol: TransportPlan, N: TransportPlan, P: seq<map<int, Path>>, A: seq<Arc>, c: int,
                         X: seq<(Column, Status)>, ns: int, E: seq<Path>, N0: seq<map<int, Path>>, pc0: int, n: int)
    reads lp`pathOffset, lp.solver`sInd, lp.solver`tInd, lp.solver`coeff, lp.solver`primal
    reads lp.solver`colLB, lp.solver`colUB, lp.solver`colStatus, lp.solver`mass, lp.solver`rowStatus, lp.solver`dual
    reads sol`paths, sol`toPathCounts, sol`pathCounter, sol`added, sol.source`nodes, sol.target`nodes, N
  {
    && Filled(lp, sol, P, A, c, X, ns, E, n)
    && Queued(N, sol) && Drained(N.paths, N0, E) && N.pathCounter == pc0 - |E|
  }

  /** One turn of addColumns' loop: the current arc of N goes into sol and its column, and is erased from N. */
  method MoveStep(lp: TransportLPSolver, sol: TransportPlan, N: TransportPlan, maxToAdd: int, ghost P: seq<map<int, Path>>,
                  ghost A: seq<Arc>, ghost c: int, ghost X: seq<(Column, Status)>, ghost ns: int, ghost E: seq<Path>,
                  ghost N0: seq<map<int, Path>>, ghost pc0: int, ghost n: int)
    returns (ghost E': seq<Path>)
    requires N != sol && Moving(lp, sol, N, P, A, c, X, ns, E, N0, pc0, n)
    requires !N.IsAtEnd() && |E| < maxToAdd && n == (if pc0 < maxToAdd then pc0 else maxToAdd)
    modifies sol`paths, sol`pathCounter, sol`toPathCounts, sol`added
    modifies lp.solver`coeff, lp.solver`colLB, lp.solver`colUB, lp.solver`colStatus, lp.solver`sInd, lp.solver`tInd
    modifies N`outer, N`inner, N`paths, N`pathCounter
    ensures Moving(lp, sol, N, P, A, c, X, ns, E', N0, pc0, n) && |E'| == |E| + 1
  {
    var path := N.Current();
    ghost var cur: Arc := (N.outer, N.inner);
    ghost var NQ := N.paths;
    InArcSet(NQ, cur);
    assert path.Key() == cur && !Has(sol.paths, cur);
    assert |E| < n;
    MoveIn(lp, sol, path, P, A, c, X, ns, E, n);
    N.Next(true);
    DrainStep(NQ, N.paths, N0, E, cur, N.IsAtEnd(), (N.outer, N.inner));
    E' := E + [path];
  }

  /**
   * addColumns: as many columns as the smaller of N's counter and maxToAdd
   * are appended, then N's arcs are moved from its cursor on, in order,
   * into sol and those columns until N runs out or maxToAdd arcs have
   * moved; each moved arc is erased from N. Returns how many moved.
   */
  method AddColumns(lp: TransportLPSolver, sol: TransportPlan, N: TransportPlan, maxToAdd: int) returns (nAdded: int, ghost E: seq<Path>)
    requires N != sol && Holds(lp, sol) && Queued(N, sol) && maxToAdd >= 0
    modifies sol`paths, sol`pathCounter, sol`toPathCounts, sol`added
    modifies lp.solver`sInd, lp.solver`tInd, lp.solver`coeff, lp.solver`primal, lp.solver`colStatus, lp.solver`colLB, lp.solver`colUB
    modifies N`outer, N`inner, N`paths, N`pathCounter
    ensures nAdded == |E| && nAdded == (if old(N.pathCounter) < maxToAdd then old(N.pathCounter) else maxToAdd)
    ensures Holds(lp, sol) && Queued(N, sol)
    ensures Drained(N.paths, old(N.paths), E) && N.pathCounter == old(N.pathCounter) - nAdded
    ensures NP.Grown(sol.paths, old(sol.paths), E, old(sol.pathCounter)) && sol.added == old(sol.added) + NP.KeySeq(E)
    ensures EntriesAre(lp.solver, old(Entries(lp.solver)) + NP.ArcEntries(|sol.source.nodes|, E))
  {
    ghost var P, A, c := sol.paths, sol.added, sol.pathCounter;
    ghost var X := Entries(lp.solver);
    ghost var ns := |sol.source.nodes|;
    ghost var N0, pc0 := N.paths, N.pathCounter;
    var nToAdd := if N.GetNumberOfPaths() < maxToAdd then N.GetNumberOfPaths() else maxToAdd;
    Widen(lp, sol, nToAdd);
    nAdded := 0;
    E := [];
    assert A + NP.KeySeq([]) == A && X + NP.ArcEntries(ns, []) == X && NP.KeysOf([]) == {};
    while !N.IsAtEnd() && nAdded < maxToAdd
      invariant nAdded == |E| && Moving(lp, sol, N, P, A, c, X, ns, E, N0, pc0, nToAdd)
      decreases nToAdd - nAdded
    {
      E := MoveStep(lp, sol, N, maxToAdd, P, A, c, X, ns, E, N0, pc0, nToAdd);
      nAdded := nAdded + 1;
    }
    if N.IsAtEnd() {
      QueuedEmpty(N, sol);
    }
  }

  /** Draining E1 and then E2 drains E1 + E2. */
  lemma DrainedTrans(Q2: seq<map<int, Path>>, Q1: seq<map<int, Path>>, N0: seq<map<int, Path>>, E1: seq<Path>, E2: seq<Path>)
    requires Drained(Q1, N0, E1) && Drained(Q2, Q1, E2)
    ensures Drained(Q2, N0, E1 + E2)
  {
    assert NP.KeysOf(E1 + E2) == NP.KeysOf(E1) + NP.KeysOf(E2);
  }

  /** Growing by E1 from counter c and then by E2 grows by E1 + E2. */
  lemma GrownTrans(R: seq<map<int, Path>>, Q: seq<map<int, Path>>, P: seq<map<int, Path>>, E1: seq<Path>, E2: seq<Path>, c: int)
    requires NP.Grown(Q, P, E1, c) && NP.Grown(R, Q, E2, c + |E1|)
    ensures NP.Grown(R, P, E1 + E2, c)
  {
    assert NP.KeysOf(E1 + E2) == NP.KeysOf(E1) + NP.KeysOf(E2);
  }

  /**
   * The state inside a pass: the LP holds sol, N is queued beside it, and
   * the arcs E have moved, in order, from N (whose rows were N0 and counter
   * pc0) into sol (whose rows were P, its creation order A, its counter c).
   */
  ghost predicate Improving(lp: TransportLPSolver, sol: TransportPlan, N: TransportPlan,
                            N0: seq<map<int, Path>>, pc0: int, P: seq<map<int, Path>>, A: seq<Arc>, c: int, E: seq<Path>)
    reads lp`pathOffset, lp.solver, sol`paths, sol`toPathCounts, sol`pathCounter, sol`added, sol.source`nodes, sol.target`nodes, N
  {
    Holds(lp, sol) && Moved(sol, N, N0, pc0, P, A, c, E)
  }

  /** The plan side of Improving. */
  ghost predicate Moved(sol: TransportPlan, N: TransportPlan,
                        N0: seq<map<int, Path>>, pc0: int, P: seq<map<int, Path>>, A: seq<Arc>, c: int, E: seq<Path>)
    reads sol`paths, sol`toPathCounts, sol`pathCounter, sol`added, N
  {
    && Queued(N, sol)
    && Drained(N.paths, N0, E) && N.pathCounter == pc0 - |E|
    && NP.Grown(sol.paths, P, E, c) && sol.added == A + NP.KeySeq(E) && sol.pathCounter == c + |E|
  }

  /** A batch that addColumns moved extends the arcs moved so far. */
  lemma MovedMore(sol: TransportPlan, N: TransportPlan, N0: seq<map<int, Path>>, pc0: int, P: seq<map<int, Path>>, A: seq<Arc>, c: int,
                  E: seq<Path>, N1: seq<map<int, Path>>, pc1: int, P1: seq<map<int, Path>>, A1: seq<Arc>, c1: int, E1: seq<Path>)
    requires Drained(N1, N0, E) && pc1 == pc0 - |E|
    requires NP.Grown(P1, P, E, c) && A1 == A + NP.KeySeq(E) && c1 == c + |E|
    requires Queued(N, sol) && Drained(N.paths, N1, E1) && N.pathCounter == pc1 - |E1|
    requires NP.Grown(sol.paths, P1, E1, c1) && sol.added == A1 + NP.KeySeq(E1) && sol.pathCounter == c1 + |E1|
    ensures Moved(sol, N, N0, pc0, P, A, c, E + E1)
  {
    DrainedTrans(N.paths, N1, N0, E, E1);
    GrownTrans(sol.paths, P1, P, E, E1, c);
    assert NP.KeySeq(E + E1) == NP.KeySeq(E) + NP.KeySeq(E1);
  }

  /** solveLP, then the plan's cost becomes the objective value. */
  method Resolve(lp: TransportLPSolver, sol: TransportPlan)
    requires Holds(lp, sol)
    modifies lp.solver`success, lp.solver`objValue, lp.solver`iCount, lp.solver`primal, lp.solver`dual, sol`cost
    ensures Holds(lp, sol) && Solved(lp.solver) && sol.cost == lp.solver.objValue
  {
    StrategyLP.Solve(lp, sol);
    sol.cost := lp.GetObjectiveValue();
  }

  /** One batch of the inner loop: addColumns, solveLP, and the objective becomes the cost. */
  method Batch(lp: TransportLPSolver, sol: TransportPlan, N: TransportPlan, maxToAdd: int,
               ghost N0: seq<map<int, Path>>, ghost pc0: int, ghost P: seq<map<int, Path>>, ghost A: seq<Arc>, ghost c: int, ghost E: seq<Path>)
    returns (ghost E': seq<Path>)
    requires N != sol && maxToAdd >= 1 && Improving(lp, sol, N, N0, pc0, P, A, c, E) && !N.IsAtEnd()
    modifies sol`paths, sol`pathCounter, sol`toPathCounts, sol`added, sol`cost
    modifies lp.solver`sInd, lp.solver`tInd, lp.solver`coeff, lp.solver`primal, lp.solver`colStatus, lp.solver`colLB, lp.solver`colUB
    modifies lp.solver`success, lp.solver`objValue, lp.solver`iCount, lp.solver`dual
    modifies N`outer, N`inner, N`paths, N`pathCounter
    ensures Improving(lp, sol, N, N0, pc0, P, A, c, E') && |E'| > |E| && Solved(lp.solver) && sol.cost == lp.solver.objValue
  {
    InArcSet(N.paths, (N.outer, N.inner));
    ghost var N1, pc1, P1, A1, c1 := N.paths, N.pathCounter, sol.paths, sol.added, sol.pathCounter;
    var nAdded, E1 := AddColumns(lp, sol, N, maxToAdd);
    MovedMore(sol, N, N0, pc0, P, A, c, E, N1, pc1, P1, A1, c1, E1);
    E' := E + E1;
    Resolve(lp, sol);
  }

  /**
   * The inner loop of a pass: while N has arcs left, remember the cost,
   * move a batch of at most maxToAdd arcs into sol and the LP, re-solve and
   * take the objective as the cost; stop early once the cost has dropped
   * by no more than tol times the remembered cost.
   */
  method Improve(lp: TransportLPSolver, sol: TransportPlan, N: TransportPlan, maxToAdd: int, tol: real, prevCost0: real)
    returns (prevCost: real, ghost E: seq<Path>)
    requires N != sol && Holds(lp, sol) && Queued(N, sol) && maxToAdd >= 1
    modifies sol`paths, sol`pathCounter, sol`toPathCounts, sol`added, sol`cost
    modifies lp.solver`sInd, lp.solver`tInd, lp.solver`coeff, lp.solver`primal, lp.solver`colStatus, lp.solver`colLB, lp.solver`colUB
    modifies lp.solver`success, lp.solver`objValue, lp.solver`iCount, lp.solver`dual
    modifies N`outer, N`inner, N`paths, N`pathCounter
    ensures Improving(lp, sol, N, old(N.paths), old(N.pathCounter), old(sol.paths), old(sol.added), old(sol.pathCounter), E)
    ensures old(N.IsAtEnd()) ==> E == [] && prevCost == prevCost0 && lp.solver.dual == old(lp.solver.dual) && sol.cost == old(sol.cost)
    ensures !old(N.IsAtEnd()) ==> |E| > 0 && Solved(lp.solver) && sol.cost == lp.solver.objValue
    ensures !old(N.IsAtEnd()) ==> N.IsAtEnd() || Stalled(prevCost, sol.cost, tol)
  {
    ghost var N0, pc0 := N.paths, N.pathCounter;
    ghost var P, A, c := sol.paths, sol.added, sol.pathCounter;
    E := [];
    prevCost := prevCost0;
    assert A + NP.KeySeq([]) == A && NP.KeysOf([]) == {};
    while !N.IsAtEnd()
      invariant Improving(lp, sol, N, N0, pc0, P, A, c, E)
      invariant E == [] ==> prevCost == prevCost0 && lp.solver.dual == old(lp.solver.dual) && sol.cost == old(sol.cost)
      invariant E != [] ==> Solved(lp.solver) && sol.cost == lp.solver.objValue
      decreases pc0 - |E|
    {
      prevCost := sol.cost;
      E := Batch(lp, sol, N, maxToAdd, N0, pc0, P, A, c, E);
      if Stalled(prevCost, sol.cost, tol) {
        break;
      }
    }
  }

  /**
   * No pair around a seed of B is left out with a reduced cost that is not
   * positive: each is an arc of the rows X or prices above zero under PI.
   */
  ghost predicate Settled(X: seq<map<int, Path>>, B: Balls, PI: PotentialMap, cost: CostFunction, p: real) {
    forall a, f2, t2 :: a in B && f2 in B[a].0 && t2 in B[a].1 ==> Has(X, (f2.id, t2.id)) || !Reduces(PI, f2, t2, cost, p)
  }

  /** A search that finds nothing leaves the plan settled around its seeds. */
  lemma NothingFound(N: seq<map<int, Path>>, B: Balls, X: seq<map<int, Path>>, PI: PotentialMap, cost: CostFunction, p: real)
    requires Covered(N, B, X, PI, cost, p) && forall b :: !Has(N, b)
    ensures Settled(X, B, PI, cost, p)
  {
  }

  /** Settled survives adding arcs. */
  lemma SettledKept(Y: seq<map<int, Path>>, X: seq<map<int, Path>>, B: Balls, PI: PotentialMap, cost: CostFunction, p: real)
    requires Settled(X, B, PI, cost, p) && forall b :: Has(X, b) ==> Has(Y, b)
    ensures Settled(Y, B, PI, cost, p)
  {
  }

  /** The pairs of the ns by nt grid that the rows ps lack. */
  ghost function Unused(ps: seq<map<int, Path>>, ns: int, nt: int): set<Arc> {
    set i, k | 0 <= i < ns && 0 <= k < nt && !Has(ps, (i, k)) :: (i, k)
  }

  /** A new arc inside the grid shrinks the unused pairs. */
  lemma UnusedShrinks(Q: seq<map<int, Path>>, P: seq<map<int, Path>>, ns: int, nt: int, a: Arc)
    requires (forall b :: Has(P, b) ==> Has(Q, b)) && Has(Q, a) && !Has(P, a) && 0 <= a.0 < ns && 0 <= a.1 < nt
    ensures Unused(Q, ns, nt) < Unused(P, ns, nt)
  {
    assert a in Unused(P, ns, nt);
  }

  /** Rows with the same arcs leave the same pairs unused. */
  lemma UnusedSame(Q: seq<map<int, Path>>, P: seq<map<int, Path>>, ns: int, nt: int)
    requires forall b :: Has(P, b) <==> Has(Q, b)
    ensures Unused(Q, ns, nt) == Unused(P, ns, nt)
  {
  }

  /**
   * The plan just built by the search, with its cursor from Begin, is
   * queued beside sol; its cursor is at the end exactly when its counter
   * is zero.
   */
  lemma Queue(N: TransportPlan, sol: TransportPlan, B: Balls, PI: PotentialMap, cost: CostFunction, p: real)
    requires Beside(N, sol) && Sound(N.paths, B, sol.paths, PI, cost, p) && N.Cursor()
    requires N.IsAtEnd() <==> forall b :: !Has(N.paths, b)
    requires N.AtArc() ==> forall b :: Has(N.paths, b) ==> !Before(b, (N.outer, N.inner))
    ensures Queued(N, sol) && (N.IsAtEnd() <==> N.pathCounter == 0)
  {
    DenseCount(N.paths, N.toPathCounts, N.pathCounter, N.added);
    if N.IsAtEnd() {
      assert ArcSet(N.paths) == {};
    } else {
      InArcSet(N.paths, (N.outer, N.inner));
    }
  }

  /**
   * The start of a pass: setPotentials from the duals of the last solve,
   * then getNeighborhodArcs into a new plan over the same levels.
   */
  method Prepare(lp: TransportLPSolver, sol: TransportPlan, expand: TransportPlan, p: real, rFactor: real, cost: CostFunction)
    returns (N: TransportPlan, ghost B: Balls, ghost PI: PotentialMap)
    requires Holds(lp, sol) && expand != sol && expand.Valid() && EndsIn(expand.paths, sol.source.nodes, sol.target.nodes)
    requires expand.source == sol.source && expand.target == sol.target
    requires Closed(sol.source.neighborhood, sol.source.nodes) && Closed(sol.target.neighborhood, sol.target.nodes)
    modifies (set n | n in sol.source.nodes)`potential, (set n | n in sol.source.nodes)`piMin, (set n | n in sol.source.nodes)`piMax
    modifies (set n | n in sol.target.nodes)`potential, (set n | n in sol.target.nodes)`piMin, (set n | n in sol.target.nodes)`piMax
    modifies expand`outer, expand`inner
    ensures fresh(N) && Beside(N, sol)
    ensures DualsCover(lp.solver.dual, sol.source.nodes, sol.target.nodes)
    ensures PI == DualPotentials(lp.solver.dual, sol.source.nodes, sol.target.nodes)
    ensures forall a :: a in B <==> Has(expand.paths, a) && Get(expand.paths, a).w > 0.0
    ensures expand.paths == old(expand.paths)
    ensures forall a :: a in B ==> B[a] == old(Reach(Get(expand.paths, a), rFactor, expand.source.neighborhood, expand.target.neighborhood))
    ensures Covered(N.paths, B, sol.paths, PI, cost, p) && Sound(N.paths, B, sol.paths, PI, cost, p)
  {
    PI := TakePotentials(lp, sol);
    N := new TransportPlan(sol.source, sol.target);
    B := GetNeighborhoodArcs(sol, expand, N, p, rFactor, cost, PI);
  }

  /** Growing rows X by E and storing the solution into them gives rows Z with the arcs of X and of E. */
  lemma StoredGrowth(Z: seq<map<int, Path>>, Y: seq<map<int, Path>>, X: seq<map<int, Path>>, E: seq<Path>, c: int,
                     primal: seq<real>, offset: int)
    requires NP.Grown(Y, X, E, c) && StoredFrom(Z, Y, primal, offset)
    ensures forall b :: Has(Z, b) <==> Has(X, b) || b in NP.KeysOf(E)
  {
  }

  /**
   * A pass that moved at least one arc out of a queue N0 that shares no
   * arc with X leaves fewer grid pairs unused.
   */
  lemma Grew(Z: seq<map<int, Path>>, Y: seq<map<int, Path>>, X: seq<map<int, Path>>, Q: seq<map<int, Path>>, N0: seq<map<int, Path>>,
             E: seq<Path>, c: int, primal: seq<real>, offset: int, nt: int)
    requires NP.Grown(Y, X, E, c) && StoredFrom(Z, Y, primal, offset) && WellKeyed(Z, nt)
    requires |E| > 0 && Drained(Q, N0, E) && forall b :: Has(N0, b) ==> !Has(X, b)
    ensures Unused(Z, |Z|, nt) < Unused(X, |Z|, nt)
  {
    StoredGrowth(Z, Y, X, E, c, primal, offset);
    var a := E[0].Key();
    assert a in NP.KeysOf(E);
    UnusedShrinks(Z, X, |Z|, nt, a);
  }

  /**
   * A pass whose search found nothing moved no arc: the stored rows have
   * the arcs of X, and the seeds are settled.
   */
  lemma Stayed(Z: seq<map<int, Path>>, Y: seq<map<int, Path>>, X: seq<map<int, Path>>, N0: seq<map<int, Path>>, c: int,
               primal: seq<real>, offset: int, nt: int, B: Balls, PI: PotentialMap, cost: CostFunction, p: real)
    requires NP.Grown(Y, X, [], c) && StoredFrom(Z, Y, primal, offset)
    requires Covered(N0, B, X, PI, cost, p) && forall b :: !Has(N0, b)
    ensures Unused(Z, |Z|, nt) == Unused(X, |Z|, nt) && Settled(Z, B, PI, cost, p)
  {
    StoredGrowth(Z, Y, X, [], c, primal, offset);
    assert NP.KeysOf([]) == {};
    NothingFound(N0, B, X, PI, cost, p);
    SettledKept(Z, X, B, PI, cost, p);
    UnusedSame(Z, X, |Z|, nt);
  }

  /**
   * The search part of a pass: Prepare, getNumberOfPaths as outerAdded,
   * and pathIteratorBegin on the candidates.
   */
  method Search(lp: TransportLPSolver, sol: TransportPlan, expand: TransportPlan, p: real, rFactor: real, cost: CostFunction)
    returns (N: TransportPlan, outerAdded: int, ghost B: Balls, ghost PI: PotentialMap)
    requires Holds(lp, sol) && expand != sol && expand.Valid() && EndsIn(expand.paths, sol.source.nodes, sol.target.nodes)
    requires expand.source == sol.source && expand.target == sol.target
    requires Closed(sol.source.neighborhood, sol.source.nodes) && Closed(sol.target.neighborhood, sol.target.nodes)
    modifies (set n | n in sol.source.nodes)`potential, (set n | n in sol.source.nodes)`piMin, (set n | n in sol.source.nodes)`piMax
    modifies (set n | n in sol.target.nodes)`potential, (set n | n in sol.target.nodes)`piMin, (set n | n in sol.target.nodes)`piMax
    modifies expand`outer, expand`inner
    ensures fresh(N) && Queued(N, sol) && outerAdded == N.pathCounter && (N.IsAtEnd() <==> outerAdded == 0)
    ensures DualsCover(lp.solver.dual, sol.source.nodes, sol.target.nodes)
    ensures PI == DualPotentials(lp.solver.dual, sol.source.nodes, sol.target.nodes)
    ensures forall a :: a in B <==> Has(expand.paths, a) && Get(expand.paths, a).w > 0.0
    ensures expand.paths == old(expand.paths)
    ensures forall a :: a in B ==> B[a] == old(Reach(Get(expand.paths, a), rFactor, expand.source.neighborhood, expand.target.neighborhood))
    ensures Covered(N.paths, B, sol.paths, PI, cost, p)
  {
    N, B, PI := Prepare(lp, sol, expand, p, rFactor, cost);
    outerAdded := N.GetNumberOfPaths();
    N.Begin();
    Queue(N, sol, B, PI, cost, p);
  }

  /**
   * The rest of a pass after the search: the inner loop over the
   * candidates N, then storeLP. If N had candidates, sol gains a new arc;
   * if not, sol keeps its arcs and the duals, and the seeds are settled.
   */
  method Finish(lp: TransportLPSolver, sol: TransportPlan, N: TransportPlan, p: real, pow: Power, tol: real, maxToAdd: int,
                prevCost0: real, ghost B: Balls, ghost PI: PotentialMap, ghost cost: CostFunction)
    returns (prevCost: real)
    requires N != sol && Holds(lp, sol) && p != 0.0 && maxToAdd >= 1
    requires Queued(N, sol) && Covered(N.paths, B, sol.paths, PI, cost, p)
    modifies sol`paths, sol`pathCounter, sol`toPathCounts, sol`added, sol`cost, sol`outer, sol`inner
    modifies lp.solver`sInd, lp.solver`tInd, lp.solver`coeff, lp.solver`primal, lp.solver`colStatus, lp.solver`colLB, lp.solver`colUB
    modifies lp.solver`success, lp.solver`objValue, lp.solver`iCount, lp.solver`dual
    modifies (set n | n in sol.source.nodes)`potential, (set n | n in sol.target.nodes)`potential
    modifies N`outer, N`inner, N`paths, N`pathCounter
    ensures Holds(lp, sol) && sol.cost == pow(lp.solver.objValue, 1.0 / p)
    ensures forall a :: Has(old(sol.paths), a) ==> Has(sol.paths, a)
    ensures !old(N.IsAtEnd()) ==> Unused(sol.paths, |sol.paths|, |sol.toPathCounts|) < Unused(old(sol.paths), |sol.paths|, |sol.toPathCounts|)
    ensures old(N.IsAtEnd()) ==> Unused(sol.paths, |sol.paths|, |sol.toPathCounts|) == Unused(old(sol.paths), |sol.paths|, |sol.toPathCounts|)
    ensures old(N.IsAtEnd()) ==> lp.solver.dual == old(lp.solver.dual) && Settled(sol.paths, B, PI, cost, p)
    ensures StoredPotentials(lp.solver.dual, sol.source.nodes, sol.target.nodes)
  {
    ghost var X, N0, c := sol.paths, N.paths, sol.pathCounter;
    ghost var E;
    prevCost, E := Improve(lp, sol, N, maxToAdd, tol, prevCost0);
    ghost var Y := sol.paths;
    Store(lp, sol, p, pow);
    StoredGrowth(sol.paths, Y, X, E, c, lp.solver.primal, lp.pathOffset);
    if |E| > 0 {
      Grew(sol.paths, Y, X, N.paths, N0, E, c, lp.solver.primal, lp.pathOffset, |sol.toPathCounts|);
    } else {
      QueuedEmpty(N, sol);
      Stayed(sol.paths, Y, X, N0, c, lp.solver.primal, lp.pathOffset, |sol.toPathCounts|, B, PI, cost, p);
    }
  }

  /**
   * One pass of solveNeighborhoodLP: setPotentials and the search, the
   * inner loop over the candidates found, then storeLP. outerAdded is the
   * number of candidates. A pass that finds some adds at least one new arc
   * to sol; a pass that finds none leaves sol's arcs as they were, and
   * every pair around a seed is then an arc of sol or prices above zero.
   */
  method Pass(lp: TransportLPSolver, sol: TransportPlan, expand: TransportPlan, p: real, pow: Power, cost: CostFunction,
              rFactor: real, tol: real, maxToAdd: int, prevCost0: real, ghost R: Balls)
    returns (outerAdded: int, prevCost: real, ghost B: Balls, ghost PI: PotentialMap)
    requires Holds(lp, sol) && p != 0.0 && maxToAdd >= 1
    requires expand != sol && expand.Valid() && EndsIn(expand.paths, sol.source.nodes, sol.target.nodes)
    requires Reaches(expand.paths, R, rFactor, sol) && forall a :: Has(expand.paths, a) ==> a in R
    requires expand.source == sol.source && expand.target == sol.target
    requires Closed(sol.source.neighborhood, sol.source.nodes) && Closed(sol.target.neighborhood, sol.target.nodes)
    modifies sol`paths, sol`pathCounter, sol`toPathCounts, sol`added, sol`cost, sol`outer, sol`inner
    modifies lp.solver`sInd, lp.solver`tInd, lp.solver`coeff, lp.solver`primal, lp.solver`colStatus, lp.solver`colLB, lp.solver`colUB
    modifies lp.solver`success, lp.solver`objValue, lp.solver`iCount, lp.solver`dual
    modifies (set n | n in sol.source.nodes)`potential, (set n | n in sol.source.nodes)`piMin, (set n | n in sol.source.nodes)`piMax
    modifies (set n | n in sol.target.nodes)`potential, (set n | n in sol.target.nodes)`piMin, (set n | n in sol.target.nodes)`piMax
    modifies expand`outer, expand`inner
    ensures Holds(lp, sol) && sol.cost == pow(lp.solver.objValue, 1.0 / p)
    ensures expand.paths == old(expand.paths)
    ensures forall a :: Has(old(sol.paths), a) ==> Has(sol.paths, a)
    ensures outerAdded >= 0
    ensures outerAdded > 0 ==> Unused(sol.paths, |sol.source.nodes|, |sol.target.nodes|) < Unused(old(sol.paths), |sol.source.nodes|, |sol.target.nodes|)
    ensures outerAdded == 0 ==> Unused(sol.paths, |sol.source.nodes|, |sol.target.nodes|) == Unused(old(sol.paths), |sol.source.nodes|, |sol.target.nodes|)
    ensures outerAdded == 0 ==> DualsCover(lp.solver.dual, sol.source.nodes, sol.target.nodes)
    ensures outerAdded == 0 ==> PI == DualPotentials(lp.solver.dual, sol.source.nodes, sol.target.nodes)
    ensures outerAdded == 0 ==> forall a :: a in B <==> Has(expand.paths, a) && Get(expand.paths, a).w > 0.0
    ensures outerAdded == 0 ==> Within(B, R)
    ensures outerAdded == 0 ==> Settled(sol.paths, B, PI, cost, p)
  {
    var N;
    N, outerAdded, B, PI := Search(lp, sol, expand, p, rFactor, cost);
    assert Within(B, R);
    prevCost := Finish(lp, sol, N, p, pow, tol, maxToAdd, prevCost0, B, PI, cost);
  }

  /**
   * solveNeighborhoodLP: passes run while the last one found candidates
   * and fewer than nIterations have run (without bound when nIterations is
   * negative). Every pass keeps the arcs sol had and the pass count is
   * bounded as the source bounds it; when the loop ends because a pass
   * found nothing, the duals of the last solve settle every pair around
   * the positive-weight arcs of expand, which stay as they were. With
   * maxToAdd at least one each pass that finds candidates adds a new arc,
   * so the passes end even without a bound.
   */
  method SolveNeighborhoodLP(lp: TransportLPSolver, sol: TransportPlan, expand: TransportPlan, p: real, pow: Power, cost: CostFunction,
                             rFactor: real, tol: real, nIterations: int, maxToAdd: int)
    returns (ghost converged: bool, ghost passes: nat, ghost B: Balls, ghost PI: PotentialMap)
    requires Holds(lp, sol) && p != 0.0 && maxToAdd >= 1
    requires expand != sol && expand.Valid() && EndsIn(expand.paths, sol.source.nodes, sol.target.nodes)
    requires expand.source == sol.source && expand.target == sol.target
    requires Closed(sol.source.neighborhood, sol.source.nodes) && Closed(sol.target.neighborhood, sol.target.nodes)
    modifies sol`paths, sol`pathCounter, sol`toPathCounts, sol`added, sol`cost, sol`outer, sol`inner
    modifies lp.solver`sInd, lp.solver`tInd, lp.solver`coeff, lp.solver`primal, lp.solver`colStatus, lp.solver`colLB, lp.solver`colUB
    modifies lp.solver`success, lp.solver`objValue, lp.solver`iCount, lp.solver`dual
    modifies (set n | n in sol.source.nodes)`potential, (set n | n in sol.source.nodes)`piMin, (set n | n in sol.source.nodes)`piMax
    modifies (set n | n in sol.target.nodes)`potential, (set n | n in sol.target.nodes)`piMin, (set n | n in sol.target.nodes)`piMax
    modifies expand`outer, expand`inner
    ensures Holds(lp, sol) && expand.paths == old(expand.paths)
    ensures forall a :: Has(old(sol.paths), a) ==> Has(sol.paths, a)
    ensures passes == 0 ==> sol.paths == old(sol.paths) && sol.cost == old(sol.cost)
    ensures passes > 0 ==> sol.cost == pow(lp.solver.objValue, 1.0 / p)
    ensures nIterations >= 0 ==> passes <= nIterations && (converged || passes == nIterations)
    ensures nIterations < 0 ==> converged
    ensures converged ==> passes > 0 && DualsCover(lp.solver.dual, sol.source.nodes, sol.target.nodes)
    ensures converged ==> PI == DualPotentials(lp.solver.dual, sol.source.nodes, sol.target.nodes)
    ensures converged ==> forall a :: a in B <==> Has(expand.paths, a) && Get(expand.paths, a).w > 0.0
    ensures converged ==> forall a :: a in B ==> B[a] == old(Reach(Get(expand.paths, a), rFactor, expand.source.neighborhood, expand.target.neighborhood))
    ensures converged ==> Settled(sol.paths, B, PI, cost, p)
  {
    var outerAdded := 1;
    var nIter := nIterations;
    var prevCost := 0.0;
    converged, passes, B, PI := false, 0, map[], map[];
    ghost var ns, nt := |sol.source.nodes|, |sol.target.nodes|;
    ghost var R := ReachAll(expand.paths, rFactor, sol.source.neighborhood, sol.target.neighborhood);
    while outerAdded != 0 && nIter != 0
      invariant Holds(lp, sol) && expand.paths == old(expand.paths)
      invariant forall a :: Has(old(sol.paths), a) ==> Has(sol.paths, a)
      invariant passes == 0 ==> sol.paths == old(sol.paths) && sol.cost == old(sol.cost)
      invariant passes > 0 ==> sol.cost == pow(lp.solver.objValue, 1.0 / p)
      invariant nIter == nIterations - passes && (nIterations >= 0 ==> nIter >= 0)
      invariant outerAdded >= 0 && (converged <==> outerAdded == 0)
      invariant converged ==> passes > 0 && DualsCover(lp.solver.dual, sol.source.nodes, sol.target.nodes)
      invariant converged ==> PI == DualPotentials(lp.solver.dual, sol.source.nodes, sol.target.nodes)
      invariant converged ==> forall a :: a in B <==> Has(expand.paths, a) && Get(expand.paths, a).w > 0.0
      invariant converged ==> Within(B, R)
      invariant converged ==> Settled(sol.paths, B, PI, cost, p)
      decreases Unused(sol.paths, ns, nt), outerAdded
    {
      nIter := nIter - 1;
      outerAdded, prevCost, B, PI := Pass(lp, sol, expand, p, pow, cost, rFactor, tol, maxToAdd, prevCost, R);
      passes := passes + 1;
      converged := outerAdded == 0;
    }
  }
}
