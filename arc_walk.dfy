/**
 * What the strategies that revise an LP in place share: a cursor walk over
 * the arcs of a plan that rewrites the LP column of each arc it meets (the
 * column of arc index j is pathOffset + j), leaving every other column as
 * it was.
 */
module ArcWalk {
  import opened Nodes
  import opened Plans

  /**
   * Column k is the LP column of an arc of D: added lists the arcs of a
   * plan in creation order, so the arc of path index j is added[j] and its
   * column is offset + j.
   */
  ghost predicate Owned(added: seq<Arc>, D: set<Arc>, offset: int, k: int) {
    offset <= k < offset + |added| && added[k - offset] in D
  }

  /** V agrees with V0 at every position that is not the column of an arc of D. */
  ghost predicate KeptOutside(V: seq<real>, V0: seq<real>, added: seq<Arc>, D: set<Arc>, offset: int) {
    |V| == |V0| && forall k :: 0 <= k < |V0| && !Owned(added, D, offset, k) ==> V[k] == V0[k]
  }

  /** Part way through a cursor walk over the rows P of sol: the arcs passed are D, all before the cursor. */
  ghost predicate Visiting(sol: TransportPlan, P: seq<map<int, Path>>, D: set<Arc>)
    reads sol
  {
    && sol.Valid() && sol.Cursor() && sol.paths == P
    && DoneUpTo(P, D, sol.IsAtEnd(), (sol.outer, sol.inner))
  }

  /**
   * In a dense plan arcs have distinct indices, so the column of an arc
   * not yet passed is not the column of a passed arc, and it is a column of
   * the passed arcs once the arc is passed.
   */
  lemma ColumnsStep(P: seq<map<int, Path>>, counts: seq<int>, counter: int, added: seq<Arc>, D: set<Arc>, c: Arc, offset: int)
    requires DenseRows(P, counts, counter, added) && Has(P, c) && c !in D
    ensures forall a :: a in D && Has(P, a) ==> Get(P, a).index != Get(P, c).index
    ensures Owned(added, D + {c}, offset, offset + Get(P, c).index)
  {
    forall a | a in D && Has(P, a)
      ensures Get(P, a).index != Get(P, c).index
    {
      assert added[Get(P, a).index] == a && added[Get(P, c).index] == c;
    }
  }

  /** Writing position k, a column of the grown set of arcs, keeps V outside it. */
  lemma KeptStep(V: seq<real>, V0: seq<real>, added: seq<Arc>, D: set<Arc>, c: Arc, offset: int, k: int, v: real)
    requires KeptOutside(V, V0, added, D, offset) && 0 <= k < |V| && Owned(added, D + {c}, offset, k)
    ensures KeptOutside(V[k := v], V0, added, D + {c}, offset)
  {
  }

  /**
   * How a walk rewrites the value v (a bound or the objective) of the column of arc q. CapLower and
   * CapUpper(i, uniform) are the capping walk of round i of
   * IteratedCapacityPropagationStrategy: an arc with flow w > 0 gets the
   * lower bound 0 and the upper bound w * (0.9 + 0.05 u), where u is the
   * draw uniform(i, arc), and an arc without flow keeps both. LiftLower and
   * LiftUpper are setColumnBoundsLower(index, 0): the lower bound 0 and the
   * upper bound MaxDouble. Perturb(i, normal, p, root, pow) is the
   * objective of round i of RandomizedNeighborhoodPropagationStrategy: the
   * arc's own cost plus its perturbation, whatever the column held before.
   */
  datatype BoundRule = CapLower | CapUpper(i: int, uniform: (int, Arc) -> real) | LiftLower | LiftUpper
                     | Perturb(i: int, normal: (int, Arc) -> real, p: real, root: real, pow: (real, real) -> real)

  /**
   * The perturbation range of arc q for exponent p (root = 1/p):
   * (dist + r)^p - (dist - r)^p, where dist = cost^(1/p) is the distance of
   * the arc's endpoints and r the sum of their node radii.
   */
  function PerturbRange(q: Path, p: real, root: real, pow: (real, real) -> real): real {
    var r := q.from.nodeRadius + q.to.nodeRadius;
    var dist := pow(q.cost, root);
    pow(dist + r, p) - pow(dist - r, p)
  }

  /** The new value of the column of arc q, whose value was v. */
  function NewBound(rule: BoundRule, q: Path, v: real): real {
    match rule
    case CapLower => if q.w > 0.0 then 0.0 else v
    case CapUpper(i, uniform) => if q.w > 0.0 then q.w * (0.9 + 0.05 * uniform(i, q.Key())) else v
    case LiftLower => 0.0
    case LiftUpper => MaxDouble
    case Perturb(i, normal, p, root, pow) => q.cost + normal(i, q.Key()) * PerturbRange(q, p, root, pow) / 5.0
  }

  /**
   * V is V0 with the column of every arc a of D rewritten from its old
   * value v to f(path of a, v), and every other position as it was.
   */
  ghost predicate Rewritten(V: seq<real>, V0: seq<real>, P: seq<map<int, Path>>, added: seq<Arc>, D: set<Arc>, offset: int,
                            f: BoundRule) {
    && KeptOutside(V, V0, added, D, offset)
    && forall a :: a in D && Has(P, a) ==>
         0 <= offset + Get(P, a).index < |V0| && V[offset + Get(P, a).index] == NewBound(f, Get(P, a), V0[offset + Get(P, a).index])
  }

  /** The column of a passed arc a holds its rewritten value. */
  lemma RewrittenAt(V: seq<real>, V0: seq<real>, P: seq<map<int, Path>>, added: seq<Arc>, D: set<Arc>, offset: int, f: BoundRule, a: Arc)
    requires Rewritten(V, V0, P, added, D, offset, f) && a in D && Has(P, a)
    ensures 0 <= offset + Get(P, a).index < |V0| == |V|
    ensures V[offset + Get(P, a).index] == NewBound(f, Get(P, a), V0[offset + Get(P, a).index])
  {
  }

  /** Rewriting the column of arc c, not passed yet, extends the rewrite to D + {c}. */
  lemma RewriteStep(V: seq<real>, V0: seq<real>, P: seq<map<int, Path>>, counts: seq<int>, counter: int, added: seq<Arc>,
                    D: set<Arc>, c: Arc, offset: int, f: BoundRule, col: int)
    requires Rewritten(V, V0, P, added, D, offset, f)
    requires DenseRows(P, counts, counter, added) && Has(P, c) && c !in D
    requires col == offset + Get(P, c).index && 0 <= col < |V|
    ensures Rewritten(V[col := NewBound(f, Get(P, c), V[col])], V0, P, added, D + {c}, offset, f)
  {
    ColumnsStep(P, counts, counter, added, D, c, offset);
    KeptStep(V, V0, added, D, c, offset, col, NewBound(f, Get(P, c), V[col]));
  }

  /** A rewrite that leaves the value at column col as it is changes nothing. */
  lemma RewriteKeeps(V: seq<real>, col: int, v: real)
    requires 0 <= col < |V| && v == V[col]
    ensures V[col := v] == V
  {
  }

  /** The end nodes of the arcs of rows P. */
  ghost function Ends(P: seq<map<int, Path>>): set<TransportNode> {
    (set a | a in ArcSet(P) && Has(P, a) :: Get(P, a).from) + (set a | a in ArcSet(P) && Has(P, a) :: Get(P, a).to)
  }

  /** For every arc of P, the masses of its source node and of its target node. */
  ghost function EndMasses(P: seq<map<int, Path>>): map<Arc, (real, real)>
    reads Ends(P)`mass
  {
    map a | a in ArcSet(P) && Has(P, a) :: (Get(P, a).from.mass, Get(P, a).to.mass)
  }
}
