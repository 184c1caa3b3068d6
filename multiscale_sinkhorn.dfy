/**
 * MultiscaleSinkhornTransport: the multiscale driver's solveLP step for the
 * Sinkhorn solver. Without previous solutions every pair of the two levels
 * is a candidate; otherwise each coarse node keeps, on either side, the
 * heaviest few of its coarse arcs that moved enough mass in a bounded
 * priority queue, and the candidates are the child pairs of the kept arcs.
 * The entropic problem over the candidates goes to the Sinkhorn solver,
 * warm-started from the coarse left scaling, and its plan, left scaling and
 * distance are stored in the new plan.
 */
module MultiscaleSinkhorn {
  import opened Nodes
  import opened Levels
  import opened Plans
  import opened TransportSolver
  import opened StrategyLP
  import opened NeighborhoodPropagation
  import opened SinkhornSolve
  import SP = SinkhornPropagation
  import ME = MaxEntropyPropagation
  import M = Multiscale
  import opened SinkhornQueues

  /** SinkhornParameters: the solver's settings, public fields with defaults. */
  class SinkhornParameters {
    var lambda: real
    var tolerance: real
    var threshold: real
    var iterations: int
    var maxPathsPerNode: int

    /** The defaults are lambda 50, 100 iterations, tolerance 1e-5, threshold 0 and at most 10 paths per node. */
    constructor ()
      ensures lambda == 50.0 && iterations == 100 && tolerance == 0.00001 && threshold == 0.0 && maxPathsPerNode == 10
    {
      lambda := 50.0;
      iterations := 100;
      tolerance := 0.00001;
      threshold := 0.0;
      maxPathsPerNode := 10;
    }
  }

  /** One coarse arc of the walk: pushed on both its queues when eligible, then the cursor moves on. */
  method QueueStep(prev: TransportPlan, threshold: real, max: int, mpFrom: Queues, mpTo: Queues,
                   ghost CM: ME.Masses, ghost P: seq<map<int, Path>>, ghost D: set<Arc>, ghost order: seq<Arc>)
    returns (mpFrom': Queues, mpTo': Queues, ghost D': set<Arc>, ghost order': seq<Arc>)
    requires InQueues(prev, P, D, order, mpFrom, mpTo, threshold, CM, max) && !prev.IsAtEnd()
    requires ME.MassesOn(CM) && SP.Ended(P, CM)
    modifies prev`outer, prev`inner
    ensures InQueues(prev, P, D', order', mpFrom', mpTo', threshold, CM, max)
    ensures prev.Remaining() < old(prev.Remaining())
  {
    var path := prev.Current();
    ghost var c: Arc := (prev.outer, prev.inner);
    assert Has(P, c) && Get(P, c) == path;
    mpFrom', mpTo' := Push(path, threshold, max, mpFrom, mpTo, CM);
    SortedStep(mpFrom, P, order, c, true, threshold, CM, max);
    SortedStep(mpTo, P, order, c, false, threshold, CM, max);
    D', order' := ME.Advance(prev, P, D, order);
  }

  /** An arc that moved more than threshold times the smaller mass of its ends goes on the queues of both its ends. */
  method Push(path: Path, threshold: real, max: int, mpFrom: Queues, mpTo: Queues, ghost CM: ME.Masses)
    returns (mpFrom': Queues, mpTo': Queues)
    requires ME.MassesOn(CM) && path.from in CM && path.to in CM
    ensures mpFrom' == Enqueue(mpFrom, path, true, threshold, CM, max) && mpTo' == Enqueue(mpTo, path, false, threshold, CM, max)
  {
    var minw := SP.MinMass(path.from.mass, path.to.mass);
    assert minw == SP.MinMass(ME.MassOf(CM, path.from), ME.MassOf(CM, path.to));
    mpFrom', mpTo' := mpFrom, mpTo;
    if path.w > minw * threshold {
      mpFrom' := mpFrom[path.from := Pushed(QueueOf(mpFrom, path.from), path, max)];
      mpTo' := mpTo[path.to := Pushed(QueueOf(mpTo, path.to), path, max)];
    }
  }

  /**
   * The walk over prev: every coarse arc in increasing order, each eligible
   * one pushed on the queue of its source in mpFrom and of its target in
   * mpTo.
   */
  method QueueAll(prev: TransportPlan, threshold: real, max: int, ghost CM: ME.Masses)
    returns (mpFrom: Queues, mpTo: Queues, ghost order: seq<Arc>)
    requires prev.Valid() && ME.MassesOn(CM) && SP.Ended(prev.paths, CM)
    modifies prev`outer, prev`inner
    ensures Increasing(order) && (forall a :: a in order <==> Has(prev.paths, a))
    ensures Sorted(mpFrom, prev.paths, order, true, threshold, CM, max) && Sorted(mpTo, prev.paths, order, false, threshold, CM, max)
  {
    ghost var P := prev.paths;
    ghost var D: set<Arc> := {};
    order := [];
    mpFrom, mpTo := map[], map[];
    prev.Begin();
    while !prev.IsAtEnd()
      invariant InQueues(prev, P, D, order, mpFrom, mpTo, threshold, CM, max)
      decreases prev.Remaining()
    {
      mpFrom, mpTo, D, order := QueueStep(prev, threshold, max, mpFrom, mpTo, CM, P, D, order);
    }
    QueuedAll(prev, P, D, order, mpFrom, mpTo, threshold, CM, max);
  }

  /** At the end of the walk the order lists every coarse arc. */
  lemma QueuedAll(prev: TransportPlan, P: seq<map<int, Path>>, D: set<Arc>, order: seq<Arc>, mpFrom: Queues, mpTo: Queues,
                  threshold: real, CM: ME.Masses, max: int)
    requires InQueues(prev, P, D, order, mpFrom, mpTo, threshold, CM, max) && prev.IsAtEnd()
    ensures forall a :: a in order <==> Has(P, a)
  {
    InArcSetAll(P, D);
    forall a
      ensures a in order <==> Has(P, a)
    {
      InArcSet(P, a);
    }
  }

  // ---------------------------------------------------------------------
  // Draining the queues
  // ---------------------------------------------------------------------

  /** The child pairs of the coarse arcs S, arc after arc. */
  function Spawn(S: seq<Path>, KS: Kids, KT: Kids, cost: CostFunction, p: real): seq<Path> {
    if S == [] then [] else Spawn(S[..|S| - 1], KS, KT, cost, p) + ChildPairs(S[|S| - 1], KS, KT, cost, p)
  }

  /** The child pairs of S are fresh paths between children. */
  lemma {:induction false} SpawnFresh(S: seq<Path>, KS: Kids, KT: Kids, cost: CostFunction, p: real, ns: int, nt: int)
    requires KidsBelow(KS, ns) && KidsBelow(KT, nt)
    ensures Fresh(Spawn(S, KS, KT, cost, p), cost, p) && Between(Spawn(S, KS, KT, cost, p), ns, nt)
  {
    if S != [] {
      var n := |S| - 1;
      SpawnFresh(S[..n], KS, KT, cost, p, ns, nt);
      var fk, tk := KidsOf(KS, S[n].from), KidsOf(KT, S[n].to);
      PairsAre(fk, |fk|, tk, cost, p, ns, nt);
    }
  }

  /** Appending one arc appends its child pairs. */
  lemma SpawnSnoc(S: seq<Path>, q: Path, KS: Kids, KT: Kids, cost: CostFunction, p: real)
    ensures Spawn(S + [q], KS, KT, cost, p) == Spawn(S, KS, KT, cost, p) + ChildPairs(q, KS, KT, cost, p)
  {
    assert (S + [q])[..|S|] == S;
  }

  /** The arcs of the child pairs of S are the child arcs of its arcs. */
  lemma {:induction false} SpawnKeys(S: seq<Path>, KS: Kids, KT: Kids, cost: CostFunction, p: real)
    ensures forall a :: a in KeysOf(Spawn(S, KS, KT, cost, p)) <==> exists q :: q in S && a in ChildKeys(q, KS, KT)
  {
    if S != [] {
      var n := |S| - 1;
      var front, last := S[..n], S[n];
      assert S == front + [last];
      SpawnKeys(front, KS, KT, cost, p);
      var fk, tk := KidsOf(KS, last.from), KidsOf(KT, last.to);
      PairsAre(fk, |fk|, tk, cost, p, 0, 0);
      var E, B := Spawn(front, KS, KT, cost, p), ChildPairs(last, KS, KT, cost, p);
      KeysAppend(E, B);
      forall a
        ensures a in KeysOf(E + B) <==> exists q :: q in S && a in ChildKeys(q, KS, KT)
      {
        if a in KeysOf(E) {
          var q :| q in front && a in ChildKeys(q, KS, KT);
          assert q in S;
        } else if a in KeysOf(B) {
          assert last in S;
        } else {
          forall q | q in S
            ensures a !in ChildKeys(q, KS, KT)
          {
            if q != last {
              assert q in front;
            }
          }
        }
      }
    }
  }

  /** The coarse arcs left in Q run between nodes whose children KS and KT list. */
  ghost predicate Parents(Q: seq<Path>, KS: Kids, KT: Kids) {
    forall q :: q in Q ==> q.from in KS && q.to in KT
  }

  /** The drain of one queue so far: the entries out popped, their child pairs added after those of E. */
  ghost predicate Draining(sol: TransportPlan, Q: seq<Path>, q: seq<Path>, out: seq<Path>, KS: Kids, KT: Kids, cost: CostFunction, p: real,
                           R0: seq<map<int, Path>>, c0: int, E: seq<Path>)
    reads sol`paths, sol`toPathCounts, sol`pathCounter, sol`added, sol.source`nodes, sol.target`nodes, KS.Keys`kids, KT.Keys`kids
  {
    && Popped(Q) == out + Popped(q) && Parents(q, KS, KT)
    && Added(sol, R0, c0, E + Spawn(out, KS, KT, cost, p)) && KidsOn(KS, KT, sol)
  }

  /** Taking the top entry out of q leaves the rest of the pop order. */
  lemma PopOrder(q: seq<Path>, t: nat)
    requires q != [] && t == Top(q)
    ensures Popped(q) == [q[t]] + Popped(Remove(q, t))
    ensures forall x :: x in Remove(q, t) ==> x in q
  {
    forall x | x in Remove(q, t)
      ensures x in q
    {
      assert x in multiset(Remove(q, t));
    }
  }

  /** top() and pop() of a queue of coarse arcs, and the child pairs of the popped arc added to sol. */
  method Pop(sol: TransportPlan, q: seq<Path>, p: real, cost: CostFunction, ghost KS: Kids, ghost KT: Kids,
             ghost R0: seq<map<int, Path>>, ghost c0: int, ghost E: seq<Path>)
    returns (q': seq<Path>, ghost path: Path)
    requires Added(sol, R0, c0, E) && KidsOn(KS, KT, sol) && Parents(q, KS, KT) && q != []
    modifies sol`paths, sol`pathCounter, sol`toPathCounts, sol`added
    ensures Added(sol, R0, c0, E + ChildPairs(path, KS, KT, cost, p)) && KidsOn(KS, KT, sol)
    ensures path == q[Top(q)] && q' == Remove(q, Top(q))
  {
    var t := Top(q);
    var top := q[t];
    q' := Remove(q, t);
    path := top;
    AddChildPairs(sol, top, p, cost, KS, KT, R0, c0, E);
  }

  /** Moving the head of the rest onto the popped prefix. */
  lemma Shift(A: seq<Path>, out: seq<Path>, B: seq<Path>, x: Path, C: seq<Path>)
    requires A == out + B && B == [x] + C
    ensures A == (out + [x]) + C
  {
  }

  /** One top and pop of the drain, with the child pairs of the popped arc. */
  method DrainStep(sol: TransportPlan, q: seq<Path>, p: real, cost: CostFunction, ghost Q: seq<Path>, ghost out: seq<Path>,
                   ghost KS: Kids, ghost KT: Kids, ghost R0: seq<map<int, Path>>, ghost c0: int, ghost E: seq<Path>)
    returns (q': seq<Path>, ghost out': seq<Path>)
    requires Draining(sol, Q, q, out, KS, KT, cost, p, R0, c0, E) && q != []
    modifies sol`paths, sol`pathCounter, sol`toPathCounts, sol`added
    ensures Draining(sol, Q, q', out', KS, KT, cost, p, R0, c0, E) && |q'| < |q|
  {
    ghost var S := Spawn(out, KS, KT, cost, p);
    ghost var path;
    q', path := Pop(sol, q, p, cost, KS, KT, R0, c0, E + S);
    PopOrder(q, Top(q));
    out' := out + [path];
    SpawnSnoc(out, path, KS, KT, cost, p);
    Associate(E, S, ChildPairs(path, KS, KT, cost, p));
    Shift(Popped(Q), out, Popped(q), path, Popped(q'));
  }

  /** while(!q.empty()): top, pop, and all child pairs of the popped arc, lightest arc first. */
  method DrainQueue(sol: TransportPlan, Q: seq<Path>, p: real, cost: CostFunction, ghost KS: Kids, ghost KT: Kids,
                    ghost R0: seq<map<int, Path>>, ghost c0: int, ghost E: seq<Path>)
    requires Added(sol, R0, c0, E) && KidsOn(KS, KT, sol) && Parents(Q, KS, KT)
    modifies sol`paths, sol`pathCounter, sol`toPathCounts, sol`added
    ensures Added(sol, R0, c0, E + Spawn(Popped(Q), KS, KT, cost, p)) && KidsOn(KS, KT, sol)
  {
    var q := Q;
    ghost var out: seq<Path> := [];
    assert E + [] == E;
    while q != []
      invariant Draining(sol, Q, q, out, KS, KT, cost, p, R0, c0, E)
      decreases |q|
    {
      q, out := DrainStep(sol, q, p, cost, Q, out, KS, KT, R0, c0, E);
    }
    assert out + [] == out;
  }

  /** The child pairs of a concatenation are those of its parts, in order. */
  lemma {:induction false} SpawnAppend(A: seq<Path>, B: seq<Path>, KS: Kids, KT: Kids, cost: CostFunction, p: real)
    ensures Spawn(A + B, KS, KT, cost, p) == Spawn(A, KS, KT, cost, p) + Spawn(B, KS, KT, cost, p)
    decreases |B|
  {
    if B == [] {
      assert A + B == A;
    } else {
      var n := |B| - 1;
      var B0, x := B[..n], B[n];
      var AB0 := A + B0;
      assert A + B == AB0 + [x];
      assert B == B0 + [x];
      SpawnAppend(A, B0, KS, KT, cost, p);
      SpawnSnoc(AB0, x, KS, KT, cost, p);
      SpawnSnoc(B0, x, KS, KT, cost, p);
      Associate(Spawn(A, KS, KT, cost, p), Spawn(B0, KS, KT, cost, p), ChildPairs(x, KS, KT, cost, p));
    }
  }

  /** The entries popped so far are exactly those of the queues of the nodes no longer in keys. */
  ghost predicate Drained(mp: Queues, keys: set<TransportNode>, Out: seq<Path>) {
    && keys <= mp.Keys
    && (forall q :: q in Out ==> exists n :: n in mp && n !in keys && q in mp[n])
    && (forall n, q :: n in mp && n !in keys && q in mp[n] ==> q in Out)
  }

  /** Draining the queue of one more node adds its entries to those popped. */
  lemma DrainedStep(mp: Queues, keys: set<TransportNode>, Out: seq<Path>, n: TransportNode)
    requires Drained(mp, keys, Out) && n in keys
    ensures Drained(mp, keys - {n}, Out + Popped(mp[n]))
  {
    forall q | q in Out + Popped(mp[n])
      ensures exists m :: m in mp && m !in keys - {n} && q in mp[m]
    {
      if q in Popped(mp[n]) {
        assert q in multiset(Popped(mp[n]));
        assert q in mp[n];
      }
    }
    forall m, q | m in mp && m !in keys - {n} && q in mp[m]
      ensures q in Out + Popped(mp[n])
    {
      if m == n {
        assert q in multiset(mp[n]);
        assert q in multiset(Popped(mp[n]));
      }
    }
  }

  /** Every queue of mp holds coarse arcs between nodes whose children KS and KT list. */
  ghost predicate AllParents(mp: Queues, KS: Kids, KT: Kids) {
    forall n :: n in mp ==> Parents(mp[n], KS, KT)
  }

  /** The queue of one more node of mp drained into sol. */
  method DrainNext(sol: TransportPlan, mp: Queues, keys: set<TransportNode>, p: real, cost: CostFunction, ghost Out: seq<Path>,
                   ghost KS: Kids, ghost KT: Kids, ghost R0: seq<map<int, Path>>, ghost c0: int, ghost E: seq<Path>)
    returns (keys': set<TransportNode>, ghost Out': seq<Path>)
    requires Drained(mp, keys, Out) && keys != {} && AllParents(mp, KS, KT)
    requires Added(sol, R0, c0, E + Spawn(Out, KS, KT, cost, p)) && KidsOn(KS, KT, sol)
    modifies sol`paths, sol`pathCounter, sol`toPathCounts, sol`added
    ensures Drained(mp, keys', Out') && |keys'| < |keys|
    ensures Added(sol, R0, c0, E + Spawn(Out', KS, KT, cost, p)) && KidsOn(KS, KT, sol)
  {
    var n :| n in keys;
    ghost var S := Spawn(Out, KS, KT, cost, p);
    DrainQueue(sol, mp[n], p, cost, KS, KT, R0, c0, E + S);
    SpawnAppend(Out, Popped(mp[n]), KS, KT, cost, p);
    Associate(E, S, Spawn(Popped(mp[n]), KS, KT, cost, p));
    DrainedStep(mp, keys, Out, n);
    Out' := Out + Popped(mp[n]);
    keys' := keys - {n};
  }

  /** for(mit = mp.begin(); mit != mp.end(); ++mit): every queue of mp drained into sol. */
  method DrainAll(sol: TransportPlan, mp: Queues, p: real, cost: CostFunction, ghost KS: Kids, ghost KT: Kids,
                  ghost R0: seq<map<int, Path>>, ghost c0: int, ghost E: seq<Path>)
    returns (ghost Out: seq<Path>)
    requires Added(sol, R0, c0, E) && KidsOn(KS, KT, sol) && AllParents(mp, KS, KT)
    modifies sol`paths, sol`pathCounter, sol`toPathCounts, sol`added
    ensures Added(sol, R0, c0, E + Spawn(Out, KS, KT, cost, p)) && KidsOn(KS, KT, sol)
    ensures forall q :: q in Out <==> exists n :: n in mp && q in mp[n]
  {
    var keys := mp.Keys;
    Out := [];
    assert E + [] == E;
    while keys != {}
      invariant Drained(mp, keys, Out)
      invariant Added(sol, R0, c0, E + Spawn(Out, KS, KT, cost, p)) && KidsOn(KS, KT, sol)
      decreases |keys|
    {
      keys, Out := DrainNext(sol, mp, keys, p, cost, Out, KS, KT, R0, c0, E);
    }
  }

  // ---------------------------------------------------------------------
  // The support of the new plan
  // ---------------------------------------------------------------------

  /** The queues hold arcs of P, whose ends have children listed in KS and KT. */
  lemma QueuedParents(mp: Queues, P: seq<map<int, Path>>, order: seq<Arc>, from: bool, threshold: real, CM: ME.Masses, max: int,
                      KS: Kids, KT: Kids)
    requires Sorted(mp, P, order, from, threshold, CM, max) && ME.Listed(P, KS, KT)
    ensures AllParents(mp, KS, KT)
  {
    forall n, q | n in mp && q in mp[n]
      ensures q.from in KS && q.to in KT
    {
      assert QueueOf(mp, n) == mp[n];
      assert Retained(P, order, threshold, CM, max, q);
      RetainedAre(P, order, threshold, CM, max, q);
    }
  }

  /** The entries popped from the queues of one side are those the side keeps for the nodes of CM. */
  lemma OnSide(mp: Queues, Out: seq<Path>, P: seq<map<int, Path>>, order: seq<Arc>, from: bool, threshold: real, CM: ME.Masses, max: int)
    requires Sorted(mp, P, order, from, threshold, CM, max)
    requires forall q :: q in Out <==> exists n :: n in mp && q in mp[n]
    ensures forall q :: q in Out <==> exists n :: n in CM && q in Fill(Entered(P, order, from, n, threshold, CM), max)
  {
    forall q
      ensures q in Out <==> exists n :: n in CM && q in Fill(Entered(P, order, from, n, threshold, CM), max)
    {
      if q in Out {
        var n :| n in mp && q in mp[n];
        assert QueueOf(mp, n) == mp[n];
      }
      if exists n :: n in CM && q in Fill(Entered(P, order, from, n, threshold, CM), max) {
        var n :| n in CM && q in Fill(Entered(P, order, from, n, threshold, CM), max);
        assert q in QueueOf(mp, n);
      }
    }
  }

  /** Fresh paths between children stay so when two runs of them are joined. */
  lemma FreshJoin(A: seq<Path>, B: seq<Path>, cost: CostFunction, p: real, ns: int, nt: int)
    requires Fresh(A, cost, p) && Between(A, ns, nt) && Fresh(B, cost, p) && Between(B, ns, nt)
    ensures Fresh(A + B, cost, p) && Between(A + B, ns, nt)
  {
    forall j | 0 <= j < |A + B|
      ensures (A + B)[j] == if j < |A| then A[j] else B[j - |A|]
    {
    }
  }

  /** A coarse arc is retained exactly when one of the two drains popped it. */
  lemma RetainedEither(mpFrom: Queues, mpTo: Queues, O1: seq<Path>, O2: seq<Path>, P: seq<map<int, Path>>, order: seq<Arc>,
                       threshold: real, CM: ME.Masses, max: int)
    requires Sorted(mpFrom, P, order, true, threshold, CM, max) && Sorted(mpTo, P, order, false, threshold, CM, max)
    requires forall q :: q in O1 <==> exists n :: n in mpFrom && q in mpFrom[n]
    requires forall q :: q in O2 <==> exists n :: n in mpTo && q in mpTo[n]
    ensures forall q :: Retained(P, order, threshold, CM, max, q) <==> q in O1 || q in O2
  {
    OnSide(mpFrom, O1, P, order, true, threshold, CM, max);
    OnSide(mpTo, O2, P, order, false, threshold, CM, max);
  }

  /** The arcs of the child pairs of two runs of coarse arcs are the child arcs of an arc of either. */
  lemma SpawnKeysJoin(O1: seq<Path>, O2: seq<Path>, KS: Kids, KT: Kids, cost: CostFunction, p: real)
    ensures forall a :: a in KeysOf(Spawn(O1, KS, KT, cost, p) + Spawn(O2, KS, KT, cost, p)) <==>
      exists q :: (q in O1 || q in O2) && a in ChildKeys(q, KS, KT)
  {
    KeysAppend(Spawn(O1, KS, KT, cost, p), Spawn(O2, KS, KT, cost, p));
    SpawnKeys(O1, KS, KT, cost, p);
    SpawnKeys(O2, KS, KT, cost, p);
  }

  /**
   * The support the two drains give a plan grown from empty rows: exactly
   * the child pairs of the retained coarse arcs, each with the transport
   * cost of its own ends.
   */
  lemma TopKSupport(mpFrom: Queues, mpTo: Queues, O1: seq<Path>, O2: seq<Path>, P: seq<map<int, Path>>, order: seq<Arc>,
                    threshold: real, CM: ME.Masses, max: int, KS: Kids, KT: Kids, cost: CostFunction, p: real, ns: nat, nt: int)
    requires Sorted(mpFrom, P, order, true, threshold, CM, max) && Sorted(mpTo, P, order, false, threshold, CM, max)
    requires forall q :: q in O1 <==> exists n :: n in mpFrom && q in mpFrom[n]
    requires forall q :: q in O2 <==> exists n :: n in mpTo && q in mpTo[n]
    requires KidsBelow(KS, ns) && KidsBelow(KT, nt)
    ensures forall a :: Has(ME.InsertAll(EmptyRows(ns), 0, Spawn(O1, KS, KT, cost, p) + Spawn(O2, KS, KT, cost, p)).0, a) <==>
      exists q :: Retained(P, order, threshold, CM, max, q) && a in ChildKeys(q, KS, KT)
    ensures Costed(ME.InsertAll(EmptyRows(ns), 0, Spawn(O1, KS, KT, cost, p) + Spawn(O2, KS, KT, cost, p)).0, cost, p)
  {
    var A, B := Spawn(O1, KS, KT, cost, p), Spawn(O2, KS, KT, cost, p);
    SpawnFresh(O1, KS, KT, cost, p, ns, nt);
    SpawnFresh(O2, KS, KT, cost, p, ns, nt);
    FreshJoin(A, B, cost, p, ns, nt);
    GrownArcs(ns, A + B, cost, p, nt);
    SpawnKeysJoin(O1, O2, KS, KT, cost, p);
    RetainedEither(mpFrom, mpTo, O1, O2, P, order, threshold, CM, max);
  }

  /**
   * The top-k branch of solveLP: the walk over prev's arcs into the
   * bounded queues, then the drain of every queue of mpFrom and of mpTo,
   * each popped coarse arc adding all of its child pairs to sol.
   */
  method CoarseSupport(sol: TransportPlan, prev: TransportPlan, threshold: real, max: int, p: real, cost: CostFunction,
                       ghost KS: Kids, ghost KT: Kids, ghost CM: ME.Masses)
    returns (ghost order: seq<Arc>)
    requires prev.Valid() && prev != sol && Fits(sol) && KidsOn(KS, KT, sol) && sol.pathCounter == 0
    requires sol.paths == EmptyRows(|sol.source.nodes|)
    requires ME.Listed(prev.paths, KS, KT) && ME.MassesOn(CM) && SP.Ended(prev.paths, CM)
    modifies prev`outer, prev`inner, sol`paths, sol`pathCounter, sol`toPathCounts, sol`added
    ensures Fits(sol) && Increasing(order) && (forall a :: a in order <==> Has(prev.paths, a))
    ensures forall a :: Has(sol.paths, a) <==> exists q :: Retained(prev.paths, order, threshold, CM, max, q) && a in ChildKeys(q, KS, KT)
    ensures Costed(sol.paths, cost, p)
  {
    ghost var P, R0 := prev.paths, sol.paths;
    var mpFrom, mpTo;
    mpFrom, mpTo, order := QueueAll(prev, threshold, max, CM);
    QueuedParents(mpFrom, P, order, true, threshold, CM, max, KS, KT);
    QueuedParents(mpTo, P, order, false, threshold, CM, max, KS, KT);
    assert Added(sol, R0, 0, []);
    ghost var O1 := DrainAll(sol, mpFrom, p, cost, KS, KT, R0, 0, []);
    ghost var A := [] + Spawn(O1, KS, KT, cost, p);
    ghost var O2 := DrainAll(sol, mpTo, p, cost, KS, KT, R0, 0, A);
    assert A + Spawn(O2, KS, KT, cost, p) == Spawn(O1, KS, KT, cost, p) + Spawn(O2, KS, KT, cost, p);
    TopKSupport(mpFrom, mpTo, O1, O2, P, order, threshold, CM, max, KS, KT, cost, p, |R0|, |sol.toPathCounts|);
  }

  // ---------------------------------------------------------------------
  // Which support solveLP builds
  // ---------------------------------------------------------------------

  /** The ways solveLP can go: all pairs, the top-k child pairs, or a dereference of a null holder. */
  datatype Branch = AllPairs | TopK | NullDereference

  /**
   * solveLP as written reads the primary plan of prevSols before testing
   * it, and a holder's primary plan is never null: without a previous
   * holder the call dereferences null, and the all-pairs branch is never
   * taken.
   */
  function AsWrittenBranch<S>(prevSols: M.Option<S>): (b: Branch)
    ensures b != AllPairs
    ensures b == NullDereference <==> prevSols.None?
  {
    match prevSols
    case None => NullDereference
    case Some(_) => TopK
  }

  /** The evident intent: all pairs without a previous holder, the top-k child pairs with one. */
  function BranchOf<S>(prevSols: M.Option<S>): (b: Branch)
    ensures b != NullDereference
    ensures b == AllPairs <==> prevSols.None?
  {
    if prevSols.None? then AllPairs else TopK
  }

  /**
   * The multiscale driver's first call passes no previous holder: as written
   * that call dereferences null, where the intended branch adds all pairs;
   * the two readings agree on every later call.
   */
  lemma FirstScaleDereferencesNull<S>(aLevels: seq<Level>, bLevels: seq<Level>, a: int, b: int, step: M.Step<S>, p: real,
                                      calls: seq<M.Call<S>>, k: int)
    requires 0 <= a < |aLevels| && 0 <= b < |bLevels| && 0 <= k < |calls|
    requires M.Scheduled(aLevels, bLevels, a, b, step, p, calls, k, |calls|)
    ensures k == 0 ==> AsWrittenBranch(calls[k].prev) == NullDereference && BranchOf(calls[k].prev) == AllPairs
    ensures k > 0 ==> AsWrittenBranch(calls[k].prev) == BranchOf(calls[k].prev) == TopK
  {
  }

  // ---------------------------------------------------------------------
  // The transport class
  // ---------------------------------------------------------------------

  /** The warm start may read prev: its source ids are positions within its scaling, and KS partitions their children with Up. */
  ghost predicate Warmable(prev: TransportPlan, KS: Kids, Up: map<int, int>)
    reads prev`leftScaling, prev.source`nodes, KS.Keys`kids
  {
    var N := prev.source.nodes;
    && IdsArePositions(N) && |N| <= |prev.leftScaling|
    && Mirrors(KS) && (forall j :: 0 <= j < |N| ==> N[j] in KS) && Partition(N, KS, Up)
  }

  /** What solveLP may read of the previous plan: its arcs list their ends' children and masses, and it can warm-start. */
  ghost predicate Coarse(prev: TransportPlan, KS: Kids, KT: Kids, CM: ME.Masses, Up: map<int, int>)
    reads prev`paths, prev`toPathCounts, prev`leftScaling, prev.source`nodes, KS.Keys`kids, CM.Keys`mass
  {
    prev.Valid() && ME.Listed(prev.paths, KS, KT) && ME.MassesOn(CM) && SP.Ended(prev.paths, CM) && Warmable(prev, KS, Up)
  }

  /** MultiscaleSinkhornTransport: the driver's solveLP over Sinkhorn, with a copy of the parameters it was built with. */
  class MultiscaleSinkhornTransport {
    const lambda: real
    const tolerance: real
    const threshold: real
    const iterations: int
    const maxPathsPerNode: int

    /** The configuration is copied from params. */
    constructor (params: SinkhornParameters)
      ensures lambda == params.lambda && tolerance == params.tolerance && threshold == params.threshold
      ensures iterations == params.iterations && maxPathsPerNode == params.maxPathsPerNode
    {
      lambda, tolerance, threshold := params.lambda, params.tolerance, params.threshold;
      iterations, maxPathsPerNode := params.iterations, params.maxPathsPerNode;
    }

    /**
     * solveLP, with the null test on the holder prevSols itself: a new plan
     * over source and target whose arcs are all pairs without a previous
     * holder, and otherwise the child pairs of the coarse arcs its primary
     * plan's queues retain (rows); then the Sinkhorn problem over them,
     * warm-started from the coarse left scaling when there is a previous
     * holder, and the solver's plan, left scaling and distance stored.
     */
    method SolveLP(source: Level, target: Level, prevSols: M.Option<TransportPlanSolutions>, p: real, lastScale: bool,
                   cost: CostFunction, exp: Exp, sinkhorn: Sinkhorn, ghost KS: Kids, ghost KT: Kids, ghost CM: ME.Masses,
                   ghost Up: map<int, int>)
      returns (sols: TransportPlanSolutions, ghost order: seq<Arc>, ghost rows: seq<map<int, Path>>, ghost problem: Problem)
      requires IdsArePositions(source.nodes) && IdsArePositions(target.nodes)
      requires Mirrors(KS) && Mirrors(KT) && KidsBelow(KS, |source.nodes|) && KidsBelow(KT, |target.nodes|)
      requires prevSols.Some? ==> Coarse(prevSols.value.sol, KS, KT, CM, Up)
      modifies (if prevSols.Some? then {prevSols.value.sol} else {})`outer, (if prevSols.Some? then {prevSols.value.sol} else {})`inner
      ensures fresh(sols) && fresh(sols.sol) && sols.alternatives == [] && sols.sol.source == source && sols.sol.target == target
      ensures prevSols.None? ==> PairsUpTo(rows, source.nodes, target.nodes, |source.nodes|, 0, cost, p)
      ensures prevSols.Some? ==> var P := old(prevSols.value.sol.paths);
        && Increasing(order) && (forall a :: a in order <==> Has(P, a))
        && (forall a :: Has(rows, a) <==> exists q :: Retained(P, order, threshold, CM, maxPathsPerNode, q) && a in ChildKeys(q, KS, KT))
        && Costed(rows, cost, p)
      ensures SP.Posed(problem, source, target, rows, lambda, tolerance, iterations, exp)
      ensures prevSols.None? ==> problem.init.None?
      ensures prevSols.Some? ==> SP.WarmStarted(problem, prevSols.value.sol, |source.nodes|, KS)
      ensures SP.Kept(sols.sol, rows, sinkhorn(problem))
    {
      sols := new TransportPlanSolutions(source, target);
      var sol := sols.sol;
      sol.cost := 0.0;
      assert sol.paths == EmptyRows(|source.nodes|);
      order := [];
      if prevSols.None? {
        AddAllPairs(sol, p, cost);
      } else {
        order := CoarseSupport(sol, prevSols.value.sol, threshold, maxPathsPerNode, p, cost, KS, KT, CM);
      }
      rows := sol.paths;
      problem := SolveFrom(sol, prevSols, KS, Up, exp, sinkhorn);
    }

    /** The solving half of solveLP: mu, nu, K and U, the warm start when there is a previous holder, the solve, and the stored result. */
    method SolveFrom(sol: TransportPlan, prevSols: M.Option<TransportPlanSolutions>, ghost KS: Kids, ghost Up: map<int, int>,
                     exp: Exp, sinkhorn: Sinkhorn)
      returns (ghost problem: Problem)
      requires Fits(sol) && KidsBelow(KS, |sol.source.nodes|)
      requires prevSols.Some? ==> Warmable(prevSols.value.sol, KS, Up) && prevSols.value.sol != sol
      modifies sol`paths, sol`outer, sol`inner, sol`leftScaling, sol`cost
      ensures SP.Posed(problem, sol.source, sol.target, old(sol.paths), lambda, tolerance, iterations, exp)
      ensures prevSols.None? ==> problem.init.None?
      ensures prevSols.Some? ==> SP.WarmStarted(problem, prevSols.value.sol, |sol.source.nodes|, KS)
      ensures SP.Kept(sol, old(sol.paths), sinkhorn(problem))
    {
      var mu, nu, K, U := Prepare(sol, lambda, exp);
      var init: M.Option<seq<real>> := M.None;
      if prevSols.Some? {
        var prev := prevSols.value.sol;
        init := WarmStart(prev.source.nodes, prev.leftScaling, |sol.source.nodes|, KS, Up);
      }
      var prob := Problem(mu, nu, K, U, tolerance, iterations, init);
      problem := prob;
      Finish(sol, prob, sinkhorn);
    }
  }
}
