/**
 * The bounded per-node priority queues of MultiscaleSinkhornTransport:
 * entries ordered as std::pair(-w, path), a push followed by a pop of the
 * top once the queue holds more than its bound, and the queues that a walk
 * over a coarse plan fills for each node on the source side (mpFrom) and on
 * the target side (mpTo).
 */
module SinkhornQueues {
  import opened Nodes
  import opened Plans
  import SP = SinkhornPropagation
  import ME = MaxEntropyPropagation

  /**
   * The order of the queue entries std::pair(-w, path): by -w, ties broken
   * by Path::operator<. The queue is a max-heap, so its top is the entry of
   * least weight.
   */
  predicate Below(x: Path, y: Path) {
    -x.w < -y.w || (!(-y.w < -x.w) && PathLess(x, y))
  }

  /** Below is a strict weak order: an entry below x is above nothing that is not below it. */
  lemma BelowThrough(e: Path, r: Path, x: Path)
    requires !Below(e, r) && Below(e, x)
    ensures Below(r, x)
  {
  }

  /** The position priority_queue::top reads: an entry no other entry is above. */
  function Top(Q: seq<Path>): (i: nat)
    requires |Q| > 0
    ensures i < |Q| && forall j :: 0 <= j < |Q| ==> !Below(Q[i], Q[j])
  {
    if |Q| == 1 then 0
    else
      var i := Top(Q[..|Q| - 1]);
      if Below(Q[i], Q[|Q| - 1]) then |Q| - 1 else i
  }

  /** Q without its entry at position i. */
  function Remove(Q: seq<Path>, i: nat): (r: seq<Path>)
    requires i < |Q|
    ensures |r| == |Q| - 1 && multiset(r) + multiset{Q[i]} == multiset(Q)
  {
    assert Q == Q[..i] + [Q[i]] + Q[i + 1..];
    Q[..i] + Q[i + 1..]
  }

  /**
   * The test size() > maxPathsPerNode: the size is unsigned and the bound
   * an int converted to it, so a negative bound never overflows.
   */
  predicate Overflows(size: nat, max: int) {
    max >= 0 && size > max
  }

  /** push, then pop when the queue has overflowed. */
  function Pushed(Q: seq<Path>, x: Path, max: int): seq<Path> {
    var R := Q + [x];
    if Overflows(|R|, max) then Remove(R, Top(R)) else R
  }

  /** The entry the pop after a push evicts, if any. */
  function Evicted(Q: seq<Path>, x: Path, max: int): seq<Path> {
    var R := Q + [x];
    if Overflows(|R|, max) then [R[Top(R)]] else []
  }

  /**
   * Queue Q after the pushes S, of which X were evicted: together they are S,
   * Q holds at most max entries and exactly max once something was evicted,
   * and no evicted entry is below a kept one.
   */
  ghost predicate Bounded(Q: seq<Path>, X: seq<Path>, S: seq<Path>, max: int) {
    && multiset(Q) + multiset(X) == multiset(S)
    && (max >= 0 ==> |Q| <= max)
    && (X != [] ==> max >= 0 && |Q| == max)
    && (forall r, e :: r in Q && e in X ==> !Below(e, r))
  }

  /** A push with its pop keeps a queue bounded. */
  lemma PushKeeps(Q: seq<Path>, X: seq<Path>, S: seq<Path>, x: Path, max: int)
    requires Bounded(Q, X, S, max)
    ensures Bounded(Pushed(Q, x, max), X + Evicted(Q, x, max), S + [x], max)
  {
    var R := Q + [x];
    if Overflows(|R|, max) {
      var t := Top(R);
      EvictionOrdered(Q, X, x, t);
      Counted(Q, X, S, x, Remove(R, t), [R[t]]);
    } else {
      Counted(Q, X, S, x, R, []);
    }
  }

  /** Moving entries between a queue and its evicted list keeps them together equal to the pushes. */
  lemma Counted(Q: seq<Path>, X: seq<Path>, S: seq<Path>, x: Path, K: seq<Path>, Y: seq<Path>)
    requires multiset(Q) + multiset(X) == multiset(S)
    requires multiset(K) + multiset(Y) == multiset(Q + [x])
    ensures multiset(K) + multiset(X + Y) == multiset(S + [x])
  {
    assert multiset(X + Y) == multiset(X) + multiset(Y);
    assert multiset(Q + [x]) == multiset(Q) + multiset{x};
    assert multiset(S + [x]) == multiset(S) + multiset{x};
    forall z
      ensures (multiset(K) + multiset(X + Y))[z] == multiset(S + [x])[z]
    {
      assert (multiset(K) + multiset(Y))[z] == multiset(K)[z] + multiset(Y)[z];
    }
  }

  /**
   * When a push overflows and the top t of the grown queue is evicted, no
   * evicted entry is below a kept one.
   */
  lemma EvictionOrdered(Q: seq<Path>, X: seq<Path>, x: Path, t: nat)
    requires forall r, e :: r in Q && e in X ==> !Below(e, r)
    requires t == Top(Q + [x])
    ensures forall r, e :: r in Remove(Q + [x], t) && e in X + [(Q + [x])[t]] ==> !Below(e, r)
  {
    var R := Q + [x];
    var K := Remove(R, t);
    if t == |Q| {
      assert K == Q;
    } else {
      forall e | e in X && Below(e, x)
        ensures false
      {
        assert R[t] == Q[t] && R[|Q|] == x;
        BelowThrough(e, Q[t], x);
      }
    }
    forall r, e | r in K && e in X + [R[t]]
      ensures !Below(e, r)
    {
      assert r in multiset(K);
      assert r in multiset(R);
      var j :| 0 <= j < |R| && R[j] == r;
    }
  }

  /**
   * What the queues keep: with a negative bound every pushed entry,
   * otherwise min(pushes, max) of them, each at least as heavy as every
   * evicted entry.
   */
  lemma Heaviest(Q: seq<Path>, X: seq<Path>, S: seq<Path>, max: int)
    requires Bounded(Q, X, S, max)
    ensures max < 0 ==> multiset(Q) == multiset(S)
    ensures max >= 0 ==> |Q| == (if |S| < max then |S| else max)
    ensures forall r, e :: r in Q && e in X ==> r.w >= e.w
    ensures forall r :: r in Q ==> r in S
  {
    assert |multiset(Q)| + |multiset(X)| == |multiset(S)|;
    forall r | r in Q
      ensures r in S
    {
      assert r in multiset(Q);
      assert r in multiset(S);
    }
  }

  /** The queue after the pushes of S into an empty queue. */
  function Fill(S: seq<Path>, max: int): seq<Path> {
    if S == [] then [] else Pushed(Fill(S[..|S| - 1], max), S[|S| - 1], max)
  }

  /** The entries evicted while filling. */
  function Spilled(S: seq<Path>, max: int): seq<Path> {
    if S == [] then [] else Spilled(S[..|S| - 1], max) + Evicted(Fill(S[..|S| - 1], max), S[|S| - 1], max)
  }

  /** Filling a queue from empty keeps it bounded. */
  lemma {:induction false} Fills(S: seq<Path>, max: int)
    ensures Bounded(Fill(S, max), Spilled(S, max), S, max)
  {
    if S != [] {
      var n := |S| - 1;
      Fills(S[..n], max);
      PushKeeps(Fill(S[..n], max), Spilled(S[..n], max), S[..n], S[n], max);
      assert S[..n] + [S[n]] == S;
    }
  }

  /** The per-node queues mpFrom and mpTo, keyed by coarse node. */
  type Queues = map<TransportNode, seq<Path>>

  /** The queue std::map::operator[] finds for n: empty when n has none yet. */
  function QueueOf(mp: Queues, n: TransportNode): seq<Path> {
    if n in mp then mp[n] else []
  }

  /** A coarse arc enters the queues when it moved more than threshold times the smaller of its end masses. */
  predicate Eligible(q: Path, threshold: real, CM: ME.Masses) {
    q.w > SP.MinMass(ME.MassOf(CM, q.from), ME.MassOf(CM, q.to)) * threshold
  }

  /** The end of q whose queue it enters: its source for mpFrom, its target for mpTo. */
  function End(q: Path, from: bool): TransportNode {
    if from then q.from else q.to
  }

  /** The entries the arcs of order push into the queue of n on one side, in order. */
  ghost function Entered(P: seq<map<int, Path>>, order: seq<Arc>, from: bool, n: TransportNode, threshold: real, CM: ME.Masses): seq<Path>
    decreases |order|
  {
    if order == [] then []
    else
      var a := order[|order| - 1];
      Entered(P, order[..|order| - 1], from, n, threshold, CM)
        + (if Has(P, a) && Eligible(Get(P, a), threshold, CM) && End(Get(P, a), from) == n then [Get(P, a)] else [])
  }

  /**
   * Every queue on one side is what filling it with its node's entries
   * gives; the nodes are those of CM, which holds the ends of every arc.
   */
  ghost predicate Sorted(mp: Queues, P: seq<map<int, Path>>, order: seq<Arc>, from: bool, threshold: real, CM: ME.Masses, max: int) {
    mp.Keys <= CM.Keys && forall n :: n in CM ==> QueueOf(mp, n) == Fill(Entered(P, order, from, n, threshold, CM), max)
  }

  /** The queues after arc c: its entry pushed on its end's queue when it is eligible. */
  function Enqueue(mp: Queues, q: Path, from: bool, threshold: real, CM: ME.Masses, max: int): Queues {
    if Eligible(q, threshold, CM) then mp[End(q, from) := Pushed(QueueOf(mp, End(q, from)), q, max)] else mp
  }

  /** One more arc of the walk keeps the queues sorted. */
  lemma SortedStep(mp: Queues, P: seq<map<int, Path>>, order: seq<Arc>, c: Arc, from: bool, threshold: real, CM: ME.Masses, max: int)
    requires Sorted(mp, P, order, from, threshold, CM, max) && Has(P, c) && Get(P, c).from in CM && Get(P, c).to in CM
    ensures Sorted(Enqueue(mp, Get(P, c), from, threshold, CM, max), P, order + [c], from, threshold, CM, max)
  {
    forall n | n in CM
      ensures QueueOf(Enqueue(mp, Get(P, c), from, threshold, CM, max), n) == Fill(Entered(P, order + [c], from, n, threshold, CM), max)
    {
      QueueStepAt(mp, P, order, c, from, n, threshold, CM, max);
    }
  }

  /** The queue of one node n after arc c. */
  lemma QueueStepAt(mp: Queues, P: seq<map<int, Path>>, order: seq<Arc>, c: Arc, from: bool, n: TransportNode, threshold: real,
                    CM: ME.Masses, max: int)
    requires QueueOf(mp, n) == Fill(Entered(P, order, from, n, threshold, CM), max) && Has(P, c)
    ensures QueueOf(Enqueue(mp, Get(P, c), from, threshold, CM, max), n) == Fill(Entered(P, order + [c], from, n, threshold, CM), max)
  {
    var q := Get(P, c);
    var S := Entered(P, order, from, n, threshold, CM);
    EnteredSnoc(P, order, c, from, n, threshold, CM);
    if Eligible(q, threshold, CM) && End(q, from) == n {
      assert (S + [q])[..|S|] == S && (S + [q])[|S|] == q;
      assert Fill(S + [q], max) == Pushed(Fill(S, max), q, max);
    } else {
      assert S + [] == S;
    }
  }

  /** The entries of order + [c]: those of order, then c's own when it is eligible and ends at n. */
  lemma EnteredSnoc(P: seq<map<int, Path>>, order: seq<Arc>, c: Arc, from: bool, n: TransportNode, threshold: real, CM: ME.Masses)
    requires Has(P, c)
    ensures Entered(P, order + [c], from, n, threshold, CM)
         == Entered(P, order, from, n, threshold, CM)
            + (if Eligible(Get(P, c), threshold, CM) && End(Get(P, c), from) == n then [Get(P, c)] else [])
  {
    assert (order + [c])[..|order|] == order;
  }

  /** The entries of the queue of n are the eligible arcs of order that end at n. */
  lemma {:induction false} EnteredHolds(P: seq<map<int, Path>>, order: seq<Arc>, from: bool, n: TransportNode, threshold: real, CM: ME.Masses)
    ensures forall q :: q in Entered(P, order, from, n, threshold, CM) <==>
      exists a :: a in order && Has(P, a) && Get(P, a) == q && Eligible(q, threshold, CM) && End(q, from) == n
    decreases |order|
  {
    if order != [] {
      var front, c := order[..|order| - 1], order[|order| - 1];
      assert order == front + [c];
      EnteredHolds(P, front, from, n, threshold, CM);
      forall q
        ensures q in Entered(P, order, from, n, threshold, CM) <==>
          exists a :: a in order && Has(P, a) && Get(P, a) == q && Eligible(q, threshold, CM) && End(q, from) == n
      {
        if exists a :: a in order && Has(P, a) && Get(P, a) == q && Eligible(q, threshold, CM) && End(q, from) == n {
          var a :| a in order && Has(P, a) && Get(P, a) == q && Eligible(q, threshold, CM) && End(q, from) == n;
          if a != c {
            assert a in front;
          }
        }
      }
    }
  }

  /** An arc some node kept on either side after the walk over order. */
  ghost predicate Retained(P: seq<map<int, Path>>, order: seq<Arc>, threshold: real, CM: ME.Masses, max: int, q: Path) {
    exists n :: n in CM && (q in Fill(Entered(P, order, true, n, threshold, CM), max) || q in Fill(Entered(P, order, false, n, threshold, CM), max))
  }

  /**
   * What the queues keep: an arc of P that moved more than threshold times
   * the smaller end mass, among the heaviest max (all when max is negative)
   * of those entering the queue of its source or of its target.
   */
  lemma RetainedAre(P: seq<map<int, Path>>, order: seq<Arc>, threshold: real, CM: ME.Masses, max: int, q: Path)
    requires Retained(P, order, threshold, CM, max, q)
    ensures exists a :: a in order && Has(P, a) && Get(P, a) == q
    ensures Eligible(q, threshold, CM)
  {
    var n :| n in CM && (q in Fill(Entered(P, order, true, n, threshold, CM), max) || q in Fill(Entered(P, order, false, n, threshold, CM), max));
    var from := q in Fill(Entered(P, order, true, n, threshold, CM), max);
    var S := Entered(P, order, from, n, threshold, CM);
    Fills(S, max);
    Heaviest(Fill(S, max), Spilled(S, max), S, max);
    EnteredHolds(P, order, from, n, threshold, CM);
  }

  /** Part way through the walk: the cursor, and both sides' queues sorted for the arcs passed. */
  ghost predicate InQueues(prev: TransportPlan, P: seq<map<int, Path>>, D: set<Arc>, order: seq<Arc>, mpFrom: Queues, mpTo: Queues,
                         threshold: real, CM: ME.Masses, max: int)
    reads prev
  {
    ME.Walking(prev, P, D, order) && Sorted(mpFrom, P, order, true, threshold, CM, max) && Sorted(mpTo, P, order, false, threshold, CM, max)
  }

  /** The entries of Q in the order that repeated top and pop take them out. */
  function Popped(Q: seq<Path>): (r: seq<Path>)
    ensures multiset(r) == multiset(Q)
    decreases |Q|
  {
    if Q == [] then []
    else
      var t := Top(Q);
      [Q[t]] + Popped(Remove(Q, t))
  }

  /** The entry popped first is below none of those popped after it. */
  lemma TopFirst(Q: seq<Path>, x: Path)
    requires Q != [] && x in Popped(Remove(Q, Top(Q)))
    ensures !Below(Q[Top(Q)], x)
  {
    var rest := Remove(Q, Top(Q));
    assert x in multiset(Popped(rest));
    assert x in multiset(Q);
  }

  /** Draining pops the entries lightest first: no entry popped earlier is below a later one. */
  lemma {:induction false} PoppedLightestFirst(Q: seq<Path>)
    ensures forall i, j :: 0 <= i < j < |Popped(Q)| ==> !Below(Popped(Q)[i], Popped(Q)[j])
    decreases |Q|
  {
    if Q != [] {
      var t := Top(Q);
      var tail := Popped(Remove(Q, t));
      PoppedLightestFirst(Remove(Q, t));
      var r := Popped(Q);
      assert r == [Q[t]] + tail;
      forall i, j | 0 <= i < j < |r|
        ensures !Below(r[i], r[j])
      {
        assert r[j] == tail[j - 1];
        if i == 0 {
          TopFirst(Q, tail[j - 1]);
        } else {
          assert r[i] == tail[i - 1];
        }
      }
    }
  }
}
