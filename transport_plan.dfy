/**
 * TransportPlan: a sparse set of arcs between the nodes of a source level and
 * a target level, stored as one std::map from target id to Path per source
 * id, with a running path counter, per-target inbound counts and a cursor
 * that walks (and may erase) the arcs in (source id, target id) order.
 *
 * TransportPlanSolutions: a primary plan together with alternative plans,
 * and the plan holding all of their arcs.
 */
module Plans {
  import opened Nodes
  import opened Levels
  import opened OrderedKeys

  /** The key of an arc: (source node id, target node id). */
  type Arc = (int, int)

  /** The strict lexicographic order on arc keys. */
  predicate Before(a: Arc, b: Arc) {
    a.0 < b.0 || (a.0 == b.0 && a.1 < b.1)
  }

  /** TransportPlan::Path: its endpoints, its column index, its cost and its weight. */
  datatype Path = Path(from: TransportNode, to: TransportNode, index: int, cost: real, w: real)
  {
    function Key(): Arc {
      (from.id, to.id)
    }
  }

  /** Path(f, t): index -1, cost -1 and weight 0. */
  function NewPath(f: TransportNode, t: TransportNode): Path {
    Path(f, t, -1, -1.0, 0.0)
  }

  /** std::max as the source uses it: the first argument unless it is smaller. */
  function Max(a: real, b: real): real {
    if a < b then b else a
  }

  /** Path::operator<. */
  function PathLess(p: Path, q: Path): bool {
    if p.from.id < q.from.id then true
    else if p.from.id > q.from.id then false
    else p.to.id < q.to.id
  }

  /** Path::operator>. */
  function PathGreater(p: Path, q: Path): bool {
    if p.from.id > q.from.id then true
    else if p.from.id < q.from.id then false
    else p.to.id > q.to.id
  }

  /** Path::operator==. */
  function PathEqual(p: Path, q: Path): bool {
    p.from.id == q.from.id && p.to.id == q.to.id
  }

  /**
   * The comparison operators of Path order arcs by their keys: < is the
   * lexicographic order, > its converse, and exactly one of <, == and > holds.
   */
  lemma PathOrder(p: Path, q: Path)
    ensures PathLess(p, q) <==> Before(p.Key(), q.Key())
    ensures PathGreater(p, q) <==> PathLess(q, p)
    ensures PathEqual(p, q) <==> p.Key() == q.Key()
    ensures PathLess(p, q) || PathEqual(p, q) || PathGreater(p, q)
    ensures !(PathLess(p, q) && PathEqual(p, q)) && !(PathLess(p, q) && PathGreater(p, q)) && !(PathEqual(p, q) && PathGreater(p, q))
  {
  }

  /** The arc a is stored in the rows ps. */
  ghost predicate Has(ps: seq<map<int, Path>>, a: Arc) {
    0 <= a.0 < |ps| && a.1 in ps[a.0]
  }

  /** The path stored for arc a. */
  ghost function Get(ps: seq<map<int, Path>>, a: Arc): Path
    requires Has(ps, a)
  {
    ps[a.0][a.1]
  }

  /** The set of arcs stored in ps. */
  ghost function ArcSet(ps: seq<map<int, Path>>): set<Arc> {
    set i, k | 0 <= i < |ps| && k in ps[i] :: (i, k)
  }

  lemma InArcSet(ps: seq<map<int, Path>>, a: Arc)
    ensures a in ArcSet(ps) <==> Has(ps, a)
  {
    if Has(ps, a) {
      var i, k := a.0, a.1;
      assert 0 <= i < |ps| && k in ps[i];
      assert (i, k) in ArcSet(ps);
    }
  }

  /** Rows storing the same arcs have the same arc set. */
  lemma SameArcs(ps: seq<map<int, Path>>, qs: seq<map<int, Path>>)
    requires forall a :: Has(ps, a) <==> Has(qs, a)
    ensures ArcSet(ps) == ArcSet(qs)
  {
    forall a
      ensures a in ArcSet(ps) <==> a in ArcSet(qs)
    {
      InArcSet(ps, a);
      InArcSet(qs, a);
    }
  }

  /** The indices of the arcs stored in ps. */
  ghost function Indices(ps: seq<map<int, Path>>): set<int> {
    set a | a in ArcSet(ps) && Has(ps, a) :: Get(ps, a).index
  }

  /** The arcs of ps that are not before position pos. */
  ghost function Rest(ps: seq<map<int, Path>>, pos: Arc): set<Arc> {
    set a | a in ArcSet(ps) && !Before(a, pos)
  }

  /**
   * Every stored path sits under its own key and ends at a target below nt.
   */
  ghost predicate WellKeyed(ps: seq<map<int, Path>>, nt: int) {
    forall a :: Has(ps, a) ==> Get(ps, a).Key() == a && 0 <= a.1 < nt
  }

  /**
   * The rows as addPath alone builds them: the arcs are exactly the added
   * ones, arc j of the creation order has index j, the counter is the
   * number of arcs, and each inbound count is the number of arcs into its
   * target.
   */
  ghost predicate DenseRows(ps: seq<map<int, Path>>, counts: seq<int>, counter: int, added: seq<Arc>) {
    && WellKeyed(ps, |counts|)
    && |added| == counter
    && (forall j :: 0 <= j < |added| ==> Has(ps, added[j]) && Get(ps, added[j]).index == j)
    && (forall a :: Has(ps, a) ==> 0 <= Get(ps, a).index < |added| && added[Get(ps, a).index] == a)
    && (forall t :: 0 <= t < |counts| ==> counts[t] == CountInto(added, t))
  }

  /** The number of arcs of s that end at target t. */
  function CountInto(s: seq<Arc>, t: int): nat {
    if s == [] then 0 else CountInto(s[..|s| - 1], t) + (if s[|s| - 1].1 == t then 1 else 0)
  }

  /** The sources of the arcs of s that end at target t. */
  function SourcesInto(s: seq<Arc>, t: int): set<int> {
    set j | 0 <= j < |s| && s[j].1 == t :: s[j].0
  }

  /** In a sequence without repeated arcs, the arcs into t have distinct sources. */
  lemma {:induction false} CountIntoSources(s: seq<Arc>, t: int)
    requires forall j, l :: 0 <= j < l < |s| ==> s[j] != s[l]
    ensures CountInto(s, t) == |SourcesInto(s, t)|
  {
    if s != [] {
      var n := |s| - 1;
      var front := s[..n];
      CountIntoSources(front, t);
      if s[n].1 == t {
        forall j | 0 <= j < n && front[j].1 == t
          ensures front[j].0 != s[n].0
        {
          assert s[j] != s[n] && s[j] == front[j];
        }
        assert s[n].0 !in SourcesInto(front, t);
        assert SourcesInto(s, t) == SourcesInto(front, t) + {s[n].0};
      } else {
        assert SourcesInto(s, t) == SourcesInto(front, t);
      }
    }
  }

  class TransportPlan {
    const source: Level
    const target: Level
    /** paths[i][k]: the arc from source node i to target node k. */
    var paths: seq<map<int, Path>>
    /** toPathCounts[k]: the number of arcs added into target node k. */
    var toPathCounts: seq<int>
    var pathCounter: int
    /** The cursor: the source row and, inside it, the target key. */
    var outer: int
    var inner: int
    var cost: real
    var optimizationStatus: int
    /** The clock() accumulators. */
    var timeSolve: int
    var timePropagate: int
    var timeRefine: int
    /** The Sinkhorn left scaling vector, one entry per source node. */
    var leftScaling: seq<real>
    /** The arcs in the order addPath created them. */
    ghost var added: seq<Arc>

    ghost predicate Valid()
      reads this`paths, this`toPathCounts
    {
      WellKeyed(paths, |toPathCounts|)
    }

    ghost predicate Dense()
      reads this`paths, this`toPathCounts, this`pathCounter, this`added
    {
      DenseRows(paths, toPathCounts, pathCounter, added)
    }

    /** The state the constructor leaves for levels s and t. */
    ghost predicate IsNew(s: Level, t: Level)
      reads this, s, t
    {
      && source == s && target == t
      && |paths| == |s.nodes| && (forall i :: 0 <= i < |paths| ==> paths[i] == map[])
      && |toPathCounts| == |t.nodes| && (forall k :: 0 <= k < |toPathCounts| ==> toPathCounts[k] == 0)
      && pathCounter == 0 && cost == MaxDouble && optimizationStatus == -1
      && timeSolve == 0 && timePropagate == 0 && timeRefine == 0 && leftScaling == []
      && added == [] && Valid() && Dense()
    }

    constructor (s: Level, t: Level)
      ensures IsNew(s, t)
    {
      source := s;
      target := t;
      paths := seq(|s.nodes|, _ => map[]);
      toPathCounts := seq(|t.nodes|, _ => 0);
      timeSolve := 0;
      timeRefine := 0;
      timePropagate := 0;
      cost := MaxDouble;
      optimizationStatus := -1;
      pathCounter := 0;
      leftScaling := [];
      outer := |s.nodes|;
      inner := 0;
      added := [];
    }

    /** hasPath(from, to). */
    function HasPath(from: int, to: int): (b: bool)
      reads this
      requires 0 <= from < |paths|
      ensures b <==> (from, to) in ArcSet(paths)
    {
      InArcSet(paths, (from, to));
      to in paths[from]
    }

    /** getNumberOfPaths: the path counter, which in a dense plan counts the arcs added. */
    function GetNumberOfPaths(): (n: int)
      reads this
      ensures Dense() ==> n == |added|
    {
      pathCounter
    }

    /** getPath(from, to) on an arc that is present. */
    function GetPath(from: int, to: int): (path: Path)
      reads this
      requires Valid() && Has(paths, (from, to))
      ensures path.Key() == (from, to)
    {
      paths[from][to]
    }

    /** getNumberOfToPaths(from): the number of arcs leaving from. */
    function GetNumberOfToPaths(from: int): (n: int)
      reads this
      requires 0 <= from < |paths|
      ensures n == |set t | t in paths[from] && Has(paths, (from, t))|
    {
      assert (set t | t in paths[from] && Has(paths, (from, t))) == paths[from].Keys;
      |paths[from]|
    }

    /** getNumberOfFromPaths(to). */
    function GetNumberOfFromPaths(to: int): int
      reads this
      requires 0 <= to < |toPathCounts|
    {
      toPathCounts[to]
    }

    /** In a dense plan, the inbound count of t is the number of arcs into t. */
    lemma FromPathsCount(t: int)
      requires Dense() && 0 <= t < |toPathCounts|
      ensures toPathCounts[t] == |set f | 0 <= f < |paths| && Has(paths, (f, t))|
    {
      forall j, l | 0 <= j < l < |added|
        ensures added[j] != added[l]
      {
        assert Get(paths, added[j]).index == j && Get(paths, added[l]).index == l;
      }
      CountIntoSources(added, t);
      var into := set f | 0 <= f < |paths| && Has(paths, (f, t));
      forall f | f in into
        ensures f in SourcesInto(added, t)
      {
        var j := Get(paths, (f, t)).index;
        assert added[j] == (f, t);
      }
      forall f | f in SourcesInto(added, t)
        ensures f in into
      {
        var j :| 0 <= j < |added| && added[j].1 == t && added[j].0 == f;
        assert Has(paths, added[j]);
      }
      assert into == SourcesInto(added, t);
    }

    /**
     * In a dense plan the arc indices are distinct and are exactly
     * 0 .. getNumberOfPaths()-1.
     */
    lemma DenseIndices()
      requires Dense()
      ensures forall a :: Has(paths, a) ==> 0 <= Get(paths, a).index < pathCounter
      ensures forall a, b :: Has(paths, a) && Has(paths, b) && Get(paths, a).index == Get(paths, b).index ==> a == b
      ensures forall j :: j in Indices(paths) <==> 0 <= j < pathCounter
    {
      forall j | 0 <= j < pathCounter
        ensures j in Indices(paths)
      {
        var a := added[j];
        InArcSet(paths, a);
        assert Has(paths, a) && Get(paths, a).index == j;
      }
      forall a | a in ArcSet(paths) ensures Has(paths, a) {
        InArcSet(paths, a);
      }
      forall j | j in Indices(paths)
        ensures 0 <= j < pathCounter
      {
        var a :| a in ArcSet(paths) && Has(paths, a) && Get(paths, a).index == j;
      }
      forall a, b | Has(paths, a) && Has(paths, b) && Get(paths, a).index == Get(paths, b).index
        ensures a == b
      {
        assert added[Get(paths, a).index] == a && added[Get(paths, b).index] == b;
      }
    }

    /**
     * addPath: an absent arc is stored with index = pathCounter, which then
     * grows by one, as does the inbound count of its target; a present arc
     * keeps everything but its weight, which becomes the larger of the two,
     * and its index is returned.
     */
    method AddPath(p: Path) returns (index: int)
      requires Valid() && 0 <= p.from.id < |paths| && 0 <= p.to.id < |toPathCounts|
      modifies this`paths, this`pathCounter, this`toPathCounts, this`added
      ensures Valid() && |paths| == |old(paths)| && |toPathCounts| == |old(toPathCounts)|
      ensures Has(paths, p.Key())
      ensures forall b :: b != p.Key() ==> (Has(paths, b) <==> Has(old(paths), b))
      ensures forall b :: b != p.Key() && Has(paths, b) ==> Get(paths, b) == Get(old(paths), b)
      ensures Has(old(paths), p.Key()) ==>
        && Get(paths, p.Key()) == Get(old(paths), p.Key()).(w := Max(Get(old(paths), p.Key()).w, p.w))
        && index == Get(old(paths), p.Key()).index
        && pathCounter == old(pathCounter) && toPathCounts == old(toPathCounts)
      ensures !Has(old(paths), p.Key()) ==>
        && Get(paths, p.Key()) == p.(index := old(pathCounter))
        && index == old(pathCounter) && pathCounter == old(pathCounter) + 1
        && toPathCounts == old(toPathCounts)[p.to.id := old(toPathCounts)[p.to.id] + 1]
      ensures old(Dense()) ==> Dense()
    {
      var f, t := p.from.id, p.to.id;
      ghost var ps: seq<map<int, Path>> := paths;
      if t !in paths[f] {
        AddNewKeeps(paths, toPathCounts, pathCounter, added, p);
        index := pathCounter;
        pathCounter := pathCounter + 1;
        paths := paths[f := paths[f][t := p.(index := index)]];
        toPathCounts := toPathCounts[t := toPathCounts[t] + 1];
        added := added + [(f, t)];
      } else {
        var path := paths[f][t];
        UpdateKeeps(paths, toPathCounts, pathCounter, added, f, t, path.(w := Max(path.w, p.w)));
        paths := paths[f := paths[f][t := path.(w := Max(path.w, p.w))]];
        index := path.index;
      }
    }

    /**
     * getPathIndex: the index of a present arc and -1 for an absent one; in a
     * dense plan -1 means exactly that the arc is absent.
     */
    function GetPathIndex(p: Path): (r: int)
      reads this
      requires Valid() && 0 <= p.from.id < |paths|
      ensures !Has(paths, p.Key()) ==> r == -1
      ensures Has(paths, p.Key()) ==> r == Get(paths, p.Key()).index
      ensures Dense() ==> (r == -1 <==> !Has(paths, p.Key()))
    {
      if p.to.id in paths[p.from.id] then paths[p.from.id][p.to.id].index else -1
    }

    /** pathIteratorIsAtEnd. */
    function IsAtEnd(): bool
      reads this
    {
      outer == |paths|
    }

    /** The cursor rests on an arc. */
    ghost predicate AtArc()
      reads this
    {
      Has(paths, (outer, inner))
    }

    /** The cursor is on an arc or at the end. */
    ghost predicate Cursor()
      reads this
    {
      IsAtEnd() || AtArc()
    }

    /** The arcs the cursor has not passed yet. */
    ghost function Remaining(): set<Arc>
      reads this
    {
      Rest(paths, (outer, inner))
    }

    /** pathIteratorCurrent. */
    function Current(): (path: Path)
      reads this
      requires AtArc()
      ensures Valid() ==> path.Key() == (outer, inner)
    {
      paths[outer][inner]
    }

    /** pathIteratorBegin: the cursor goes to the least arc, or to the end when there is none. */
    method Begin()
      modifies this`outer, this`inner
      ensures Cursor()
      ensures IsAtEnd() <==> forall b :: !Has(paths, b)
      ensures AtArc() ==> forall b :: Has(paths, b) ==> !Before(b, (outer, inner))
    {
      outer := 0;
      while outer < |paths| && paths[outer].Keys == {}
        invariant 0 <= outer <= |paths|
        invariant forall i :: 0 <= i < outer ==> paths[i].Keys == {}
      {
        outer := outer + 1;
      }
      if outer < |paths| {
        HasMin(paths[outer].Keys);
        var k :| IsMin(k, paths[outer].Keys);
        inner := k;
        assert Has(paths, (outer, inner));
      }
      forall b | Has(paths, b)
        ensures outer < |paths| && !Before(b, (outer, inner))
      {
        assert b.1 in paths[b.0].Keys;
      }
    }

    /**
     * pathIteratorNext(erase): optionally erase the current arc (the path
     * counter drops by one, the inbound counts stay), then move to the least
     * arc after the old position, or to the end when there is none.
     */
    method Next(erase: bool := false)
      requires Valid() && AtArc()
      modifies this`outer, this`inner, (if erase then {this} else {})`paths, (if erase then {this} else {})`pathCounter
      ensures Valid() && Cursor() && |paths| == |old(paths)|
      ensures erase ==> paths == old(paths)[old(outer) := old(paths)[old(outer)] - {old(inner)}]
      ensures erase ==> pathCounter == old(pathCounter) - 1
      ensures !erase ==> paths == old(paths) && pathCounter == old(pathCounter)
      ensures IsAtEnd() <==> forall b :: Has(paths, b) ==> !Before((old(outer), old(inner)), b)
      ensures AtArc() ==> Before((old(outer), old(inner)), (outer, inner))
      ensures AtArc() ==> forall b :: Has(paths, b) && Before((old(outer), old(inner)), b) ==> !Before(b, (outer, inner))
      ensures Remaining() < old(Remaining())
    {
      ghost var was: Arc := (outer, inner);
      ghost var ps: seq<map<int, Path>> := paths;
      if erase {
        paths := paths[outer := paths[outer] - {inner}];
        pathCounter := pathCounter - 1;
      }
      ghost var qs: seq<map<int, Path>> := paths;
      EraseKeeps(ps, was, qs, |toPathCounts|);
      var later := set j | j in paths[outer].Keys && j > inner;
      if later != {} {
        HasMin(later);
        var k :| IsMin(k, later);
        forall j | j in paths[outer] && j > inner
          ensures k <= j
        {
          assert j in later;
        }
        inner := k;
        NextInRow(qs, was, k);
        assert Has(paths, (outer, inner)) && Before(was, (outer, inner));
      } else {
        forall j | j in paths[outer]
          ensures j <= inner
        {
          assert j in paths[outer].Keys;
          assert j !in later;
        }
        var row := outer + 1;
        while row < |paths| && paths[row].Keys == {}
          invariant was.0 < row <= |paths|
          invariant forall i :: was.0 < i < row ==> paths[i].Keys == {}
        {
          row := row + 1;
        }
        NextRow(qs, was, row);
        outer := row;
        if outer < |paths| {
          HasMin(paths[outer].Keys);
          var k :| IsMin(k, paths[outer].Keys);
          inner := k;
          RowStart(qs, row, k);
          assert Has(paths, (outer, inner)) && Before(was, (outer, inner));
        }
      }
      RestShrinks(ps, qs, was, (outer, inner));
    }

    /** pathIteratorNext on a walk that has passed the arcs D: afterwards it has passed D and the arc it was on. */
    method Pass(ghost D: set<Arc>)
      requires Valid() && AtArc() && DoneUpTo(paths, D, false, (outer, inner))
      modifies this`outer, this`inner
      ensures Valid() && Cursor() && paths == old(paths)
      ensures DoneUpTo(paths, D + {(old(outer), old(inner))}, IsAtEnd(), (outer, inner))
      ensures Remaining() < old(Remaining())
    {
      ghost var c: Arc := (outer, inner);
      Next();
      DoneStep(paths, D, c, IsAtEnd(), (outer, inner));
    }

    /** Writing through pathIteratorCurrent(): the current arc gets weight w. */
    method SetCurrentWeight(w: real)
      requires Valid() && AtArc()
      modifies this`paths
      ensures paths == old(paths)[outer := old(paths)[outer][inner := old(Current()).(w := w)]]
      ensures Valid() && (old(Dense()) ==> Dense())
      ensures AtArc() && Remaining() == old(Remaining())
    {
      var q := paths[outer][inner].(w := w);
      UpdateKeeps(paths, toPathCounts, pathCounter, added, outer, inner, q);
      ghost var ps := paths;
      paths := paths[outer := paths[outer][inner := q]];
      SameArcs(ps, paths);
    }

    /**
     * createCopy: a new plan over the same levels with the same arcs,
     * counter, inbound counts and time counters; its cost is the
     * constructor's maximum.
     */
    method CreateCopy() returns (res: TransportPlan)
      requires Valid()
      ensures fresh(res) && res.source == source && res.target == target
      ensures res.paths == paths && res.pathCounter == pathCounter && res.toPathCounts == toPathCounts && res.added == added
      ensures res.timePropagate == timePropagate && res.timeSolve == timeSolve && res.timeRefine == timeRefine
      ensures res.cost == MaxDouble && res.optimizationStatus == -1 && res.leftScaling == []
      ensures res.Valid() && (Dense() ==> res.Dense())
    {
      res := new TransportPlan(source, target);
      res.timePropagate := timePropagate;
      res.timeSolve := timeSolve;
      res.timeRefine := timeRefine;
      res.paths := paths;
      res.pathCounter := pathCounter;
      res.toPathCounts := toPathCounts;
      res.added := added;
    }
  }

  /** Arc a is stored in at least one of the plans whose rows are listed. */
  ghost predicate InSome(rows: seq<seq<map<int, Path>>>, a: Arc) {
    exists j :: 0 <= j < |rows| && Has(rows[j], a)
  }

  /**
   * The weight addPath leaves on arc a after the plans' arcs are added in
   * order: the first weight met, then the larger of it and each later one.
   */
  ghost function MaxWeight(rows: seq<seq<map<int, Path>>>, a: Arc): real
    requires InSome(rows, a)
  {
    var n := |rows| - 1;
    if !InSome(rows[..n], a) then Get(rows[n], a).w
    else if !Has(rows[n], a) then MaxWeight(rows[..n], a)
    else Max(MaxWeight(rows[..n], a), Get(rows[n], a).w)
  }

  /** The combined weight is the largest weight any of the plans gives the arc. */
  lemma {:induction false} MaxWeightIsMax(rows: seq<seq<map<int, Path>>>, a: Arc)
    requires InSome(rows, a)
    ensures forall j :: 0 <= j < |rows| && Has(rows[j], a) ==> Get(rows[j], a).w <= MaxWeight(rows, a)
    ensures exists j :: 0 <= j < |rows| && Has(rows[j], a) && Get(rows[j], a).w == MaxWeight(rows, a)
  {
    var n := |rows| - 1;
    var front := rows[..n];
    if InSome(front, a) {
      MaxWeightIsMax(front, a);
      var j :| 0 <= j < |front| && Has(front[j], a) && Get(front[j], a).w == MaxWeight(front, a);
      assert rows[j] == front[j];
      forall i | 0 <= i < |rows| && Has(rows[i], a)
        ensures Get(rows[i], a).w <= MaxWeight(rows, a)
      {
        if i < n {
          assert rows[i] == front[i];
        }
      }
    } else {
      forall i | 0 <= i < n
        ensures !Has(rows[i], a)
      {
        assert rows[i] == front[i];
      }
    }
  }

  /**
   * rs is what adding the arcs of rows[0], ..., rows[n - 1] in order gives:
   * their arcs, each with its combined weight, the arcs of rows[0] keeping
   * everything else.
   */
  ghost predicate Combines(rs: seq<map<int, Path>>, rows: seq<seq<map<int, Path>>>, n: nat)
    requires 0 < n <= |rows|
  {
    && (forall b :: Has(rs, b) <==> InSome(rows[..n], b))
    && (forall b :: Has(rs, b) ==> Get(rs, b).w == MaxWeight(rows[..n], b))
    && (forall b :: Has(rows[0], b) ==> Has(rs, b) && Get(rs, b) == Get(rows[0], b).(w := MaxWeight(rows[..n], b)))
  }

  /** rs is the combination of all of rows. */
  ghost predicate CombinesAll(rs: seq<map<int, Path>>, rows: seq<seq<map<int, Path>>>) {
    0 < |rows| && Combines(rs, rows, |rows|)
  }

  /** A copy of the first plan is the combination of it alone. */
  lemma CombineStart(rows: seq<seq<map<int, Path>>>)
    requires |rows| > 0
    ensures Combines(rows[0], rows, 1)
  {
    var first := rows[..1];
    assert first[0] == rows[0] && first[..0] == [];
    forall b | Has(rows[0], b)
      ensures InSome(first, b) && MaxWeight(first, b) == Get(rows[0], b).w
    {
      assert Has(first[0], b);
    }
    forall b | InSome(first, b)
      ensures Has(rows[0], b)
    {
    }
  }

  /**
   * rs holds the arcs of R and the arcs D of P added to them by addPath: an
   * arc of R keeps its path, with the larger weight when it is in D; an
   * arc new to R carries everything it has in P but its index.
   */
  ghost predicate MergedInto(rs: seq<map<int, Path>>, R: seq<map<int, Path>>, P: seq<map<int, Path>>, D: set<Arc>) {
    && (forall b :: b in D ==> Has(P, b))
    && (forall b :: Has(rs, b) <==> Has(R, b) || b in D)
    && (forall b :: Has(R, b) && b in D ==> Has(rs, b) && Get(rs, b) == Get(R, b).(w := Max(Get(R, b).w, Get(P, b).w)))
    && (forall b :: Has(R, b) && b !in D ==> Has(rs, b) && Get(rs, b) == Get(R, b))
    && (forall b :: !Has(R, b) && b in D ==> Has(rs, b) && Get(rs, b) == Get(P, b).(index := Get(rs, b).index))
  }

  /** Every arc of ps joins the source node and the target node at its key's positions of S and T. */
  ghost predicate EndsIn(ps: seq<map<int, Path>>, S: seq<TransportNode>, T: seq<TransportNode>) {
    forall a :: Has(ps, a) ==> 0 <= a.0 < |S| && 0 <= a.1 < |T| && Get(ps, a).from == S[a.0] && Get(ps, a).to == T[a.1]
  }

  /** Every plan of rows joins nodes of S and T at its keys' positions. */
  ghost predicate AllEndIn(rows: seq<seq<map<int, Path>>>, S: seq<TransportNode>, T: seq<TransportNode>) {
    forall j :: 0 <= j < |rows| ==> EndsIn(rows[j], S, T)
  }

  /** Merging keeps every arc on the nodes its key names. */
  lemma MergedEnds(rs: seq<map<int, Path>>, R: seq<map<int, Path>>, P: seq<map<int, Path>>, D: set<Arc>, S: seq<TransportNode>, T: seq<TransportNode>)
    requires MergedInto(rs, R, P, D) && EndsIn(R, S, T) && EndsIn(P, S, T)
    ensures EndsIn(rs, S, T)
  {
  }

  /** The arc rows of each plan of alts, in order. */
  ghost function PathsOf(alts: seq<TransportPlan>): (r: seq<seq<map<int, Path>>>)
    reads alts`paths
    ensures |r| == |alts|
  {
    if alts == [] then [] else PathsOf(alts[..|alts| - 1]) + [alts[|alts| - 1].paths]
  }

  /** The j-th row of PathsOf(alts) is the arc rows of alts[j]. */
  lemma {:induction false} PathsOfAt(alts: seq<TransportPlan>)
    ensures forall j :: 0 <= j < |alts| ==> PathsOf(alts)[j] == alts[j].paths
  {
    if alts != [] {
      PathsOfAt(alts[..|alts| - 1]);
    }
  }

  class TransportPlanSolutions {
    var sol: TransportPlan
    var alternatives: seq<TransportPlan>

    /** The rows of the primary plan followed by those of each alternative, in order. */
    ghost function Rows(): seq<seq<map<int, Path>>>
      reads this, sol`paths, alternatives`paths
    {
      [sol.paths] + PathsOf(alternatives)
    }

    /** A new holder has a new empty primary plan over s and t and no alternatives. */
    constructor (s: Level, t: Level)
      ensures fresh(sol) && sol.IsNew(s, t) && alternatives == []
    {
      sol := new TransportPlan(s, t);
      alternatives := [];
    }

    method SetPrimarySolution(primary: TransportPlan)
      modifies this`sol
      ensures sol == primary
    {
      sol := primary;
    }

    /** addAlternativeSolution appends to the list of alternatives. */
    method AddAlternativeSolution(a: TransportPlan)
      modifies this`alternatives
      ensures alternatives == old(alternatives) + [a]
    {
      alternatives := alternatives + [a];
    }

    /**
     * getCombinedPaths: a new plan holding exactly the arcs of the primary
     * plan and of the alternatives, each weighted with the largest weight a
     * plan gives it; primary arcs keep their index and cost, and no plan's
     * arcs change (only the alternatives' cursors move).
     */
    method GetCombinedPaths() returns (res: TransportPlan)
      requires sol.Valid()
      requires forall j :: 0 <= j < |alternatives| ==>
        alternatives[j].Valid() && |alternatives[j].paths| == |sol.paths| && |alternatives[j].toPathCounts| == |sol.toPathCounts|
      modifies alternatives`outer, alternatives`inner
      ensures fresh(res) && res.Valid() && res.source == sol.source && res.target == sol.target
      ensures Rows() == old(Rows()) && CombinesAll(res.paths, Rows())
      ensures AllEndIn(Rows(), sol.source.nodes, sol.target.nodes) ==> EndsIn(res.paths, sol.source.nodes, sol.target.nodes)
      ensures sol.Dense() ==> res.Dense()
    {
      ghost var rows := Rows();
      RowsAt();
      res := sol.CreateCopy();
      CombineStart(rows);
      AddAlternatives(res, alternatives, rows, sol.source.nodes, sol.target.nodes);
      RowsUnchanged(rows);
    }

    /** The rows are still rows when no plan's arcs have changed. */
    lemma RowsUnchanged(rows: seq<seq<map<int, Path>>>)
      requires |rows| == |alternatives| + 1 && sol.paths == rows[0]
      requires forall j :: 0 <= j < |alternatives| ==> alternatives[j].paths == rows[j + 1]
      ensures Rows() == rows
    {
      PathsOfAt(alternatives);
    }

    /** Row 0 is the primary plan's and row j + 1 that of the j-th alternative. */
    lemma RowsAt()
      ensures |Rows()| == |alternatives| + 1 && Rows()[0] == sol.paths
      ensures forall j :: 0 <= j < |alternatives| ==> Rows()[j + 1] == alternatives[j].paths
    {
      PathsOfAt(alternatives);
    }
  }

  /**
   * Merging the arcs of rows[n] into the combination of the rows before it
   * gives the combination of rows[..n + 1].
   */
  lemma CombineStep(rows: seq<seq<map<int, Path>>>, n: nat, R: seq<map<int, Path>>, rs: seq<map<int, Path>>)
    requires 0 < n < |rows|
    requires Combines(R, rows, n)
    requires MergedInto(rs, R, rows[n], ArcSet(rows[n]))
    ensures Combines(rs, rows, n + 1)
  {
    var next := rows[..n + 1];
    assert next[..n] == rows[..n];
    assert next[n] == rows[n];
    forall b
      ensures Has(rs, b) <==> InSome(next, b)
      ensures Has(rs, b) ==> Get(rs, b).w == MaxWeight(next, b)
    {
      InArcSet(rows[n], b);
      if !InSome(rows[..n], b) {
        forall j | 0 <= j < n
          ensures !Has(next[j], b)
        {
          assert next[j] == rows[..n][j];
        }
      }
      if InSome(rows[..n], b) {
        var j :| 0 <= j < n && Has(rows[..n][j], b);
        assert Has(next[j], b);
      }
      if Has(rows[n], b) {
        assert Has(next[n], b);
      }
    }
    forall b | Has(rows[0], b)
      ensures Has(rs, b) && Get(rs, b) == Get(rows[0], b).(w := MaxWeight(next, b))
    {
      InArcSet(rows[n], b);
      assert Has(next[0], b);
    }
  }

  /** The loop of getCombinedPaths: merge the arcs of each alternative in turn into res. */
  method AddAlternatives(res: TransportPlan, alts: seq<TransportPlan>, ghost rows: seq<seq<map<int, Path>>>,
                         ghost S: seq<TransportNode>, ghost T: seq<TransportNode>)
    requires |rows| == |alts| + 1 && Combines(res.paths, rows, 1) && res.Valid() && res.paths == rows[0]
    requires forall j :: 0 <= j < |alts| ==> alts[j] != res && alts[j].Valid() && alts[j].paths == rows[j + 1]
    requires forall j :: 0 <= j < |alts| ==> |alts[j].paths| <= |res.paths| && |alts[j].toPathCounts| <= |res.toPathCounts|
    modifies res`paths, res`pathCounter, res`toPathCounts, res`added
    modifies alts`outer, alts`inner
    ensures res.Valid() && |res.paths| == |old(res.paths)| && |res.toPathCounts| == |old(res.toPathCounts)|
    ensures Combines(res.paths, rows, |rows|)
    ensures AllEndIn(rows, S, T) ==> EndsIn(res.paths, S, T)
    ensures old(res.Dense()) ==> res.Dense()
  {
    ghost var dense := res.Dense();
    ghost var ends := AllEndIn(rows, S, T);
    ghost var np, nc := |res.paths|, |res.toPathCounts|;
    var i := 0;
    while i < |alts|
      invariant 0 <= i <= |alts|
      invariant res.Valid() && |res.paths| == np && |res.toPathCounts| == nc
      invariant Combines(res.paths, rows, i + 1)
      invariant ends ==> EndsIn(res.paths, S, T)
      invariant dense ==> res.Dense()
    {
      var a := alts[i];
      assert a != res && a.Valid() && a.paths == rows[i + 1];
      assert |a.paths| <= np && |a.toPathCounts| <= nc;
      assert ends ==> EndsIn(a.paths, S, T);
      AddAlternative(res, a, rows, i + 1, S, T);
      i := i + 1;
    }
  }

  /** One round of getCombinedPaths: adding the arcs of the n-th plan extends the combination. */
  method AddAlternative(res: TransportPlan, a: TransportPlan, ghost rows: seq<seq<map<int, Path>>>, ghost n: nat,
                        ghost S: seq<TransportNode>, ghost T: seq<TransportNode>)
    requires 0 < n < |rows| && a.paths == rows[n] && Combines(res.paths, rows, n)
    requires res != a && res.Valid() && a.Valid()
    requires |a.paths| <= |res.paths| && |a.toPathCounts| <= |res.toPathCounts|
    modifies res`paths, res`pathCounter, res`toPathCounts, res`added, a`outer, a`inner
    ensures res.Valid() && |res.paths| == |old(res.paths)| && |res.toPathCounts| == |old(res.toPathCounts)|
    ensures Combines(res.paths, rows, n + 1)
    ensures EndsIn(old(res.paths), S, T) && EndsIn(a.paths, S, T) ==> EndsIn(res.paths, S, T)
    ensures old(res.Dense()) ==> res.Dense()
  {
    ghost var R: seq<map<int, Path>> := res.paths;
    AddAll(res, a);
    CombineStep(rows, n, R, res.paths);
    if EndsIn(R, S, T) && EndsIn(a.paths, S, T) {
      MergedEnds(res.paths, R, a.paths, ArcSet(a.paths), S, T);
    }
  }

  /**
   * The inner loop of getCombinedPaths: walk a's cursor over all its arcs
   * and add each to res.
   */
  method AddAll(res: TransportPlan, a: TransportPlan)
    requires res != a && res.Valid() && a.Valid()
    requires |a.paths| <= |res.paths| && |a.toPathCounts| <= |res.toPathCounts|
    modifies res`paths, res`pathCounter, res`toPathCounts, res`added, a`outer, a`inner
    ensures res.Valid() && |res.paths| == |old(res.paths)| && |res.toPathCounts| == |old(res.toPathCounts)|
    ensures MergedInto(res.paths, old(res.paths), a.paths, ArcSet(a.paths))
    ensures old(res.Dense()) ==> res.Dense()
  {
    ghost var R: seq<map<int, Path>> := res.paths;
    ghost var P: seq<map<int, Path>> := a.paths;
    ghost var dense := res.Dense();
    ghost var D: set<Arc> := {};
    a.Begin();
    while !a.IsAtEnd()
      invariant a.Valid() && a.Cursor()
      invariant res.Valid() && |res.paths| == |R| && |res.toPathCounts| == |old(res.toPathCounts)|
      invariant DoneUpTo(P, D, a.IsAtEnd(), (a.outer, a.inner))
      invariant MergedInto(res.paths, R, P, D)
      invariant dense ==> res.Dense()
      decreases a.Remaining()
    {
      var path := a.Current();
      ghost var c: Arc := (a.outer, a.inner);
      ghost var rs: seq<map<int, Path>> := res.paths;
      var _ := res.AddPath(path);
      a.Next();
      DoneStep(P, D, c, a.IsAtEnd(), (a.outer, a.inner));
      MergeStep(res.paths, rs, R, P, D, c);
      D := D + {c};
    }
    InArcSetAll(P, D);
  }

  /** D holds exactly the arcs of P the cursor has passed, at position pos or at the end. */
  ghost predicate DoneUpTo(P: seq<map<int, Path>>, D: set<Arc>, atEnd: bool, pos: Arc) {
    forall b :: b in D <==> Has(P, b) && (atEnd || Before(b, pos))
  }

  /** Passing arc c moves it into the passed arcs, and nothing else. */
  lemma DoneStep(P: seq<map<int, Path>>, D: set<Arc>, c: Arc, atEnd: bool, pos: Arc)
    requires Has(P, c) && DoneUpTo(P, D, false, c)
    requires atEnd <==> forall b :: Has(P, b) ==> !Before(c, b)
    requires !atEnd ==> Before(c, pos) && forall b :: Has(P, b) && Before(c, b) ==> !Before(b, pos)
    ensures DoneUpTo(P, D + {c}, atEnd, pos)
  {
  }

  /** Adding arc c of P to the merge of D gives the merge of D + {c}. */
  lemma MergeStep(rs': seq<map<int, Path>>, rs: seq<map<int, Path>>, R: seq<map<int, Path>>, P: seq<map<int, Path>>, D: set<Arc>, c: Arc)
    requires MergedInto(rs, R, P, D) && Has(P, c) && c !in D
    requires Has(rs', c)
    requires forall b :: b != c ==> (Has(rs', b) <==> Has(rs, b))
    requires forall b :: b != c && Has(rs', b) ==> Get(rs', b) == Get(rs, b)
    requires Has(rs, c) ==> Get(rs', c) == Get(rs, c).(w := Max(Get(rs, c).w, Get(P, c).w))
    requires !Has(rs, c) ==> Get(rs', c) == Get(P, c).(index := Get(rs', c).index)
    ensures MergedInto(rs', R, P, D + {c})
  {
  }

  /** The arcs passed by a cursor at the end are the arc set. */
  lemma InArcSetAll(ps: seq<map<int, Path>>, D: set<Arc>)
    requires DoneUpTo(ps, D, true, (0, 0))
    ensures D == ArcSet(ps)
  {
    forall b | b in ArcSet(ps)
      ensures b in D
    {
      InArcSet(ps, b);
    }
    forall b | b in D
      ensures b in ArcSet(ps)
    {
      InArcSet(ps, b);
    }
  }

  /** Erasing arc c, or nothing, keeps every other arc as it was. */
  lemma EraseKeeps(ps: seq<map<int, Path>>, c: Arc, qs: seq<map<int, Path>>, nt: int)
    requires 0 <= c.0 < |ps|
    requires qs == ps || qs == ps[c.0 := ps[c.0] - {c.1}]
    ensures |qs| == |ps|
    ensures forall b :: Has(qs, b) ==> Has(ps, b) && Get(qs, b) == Get(ps, b)
    ensures WellKeyed(ps, nt) ==> WellKeyed(qs, nt)
  {
  }

  /** The least key after c.1 in row c.0 is the next arc after c. */
  lemma NextInRow(qs: seq<map<int, Path>>, c: Arc, k: int)
    requires 0 <= c.0 < |qs| && k in qs[c.0] && k > c.1
    requires forall j :: j in qs[c.0] && j > c.1 ==> k <= j
    ensures forall b :: Has(qs, b) && Before(c, b) ==> !Before(b, (c.0, k))
  {
  }

  /**
   * When row c.0 has no key after c.1 and the rows up to row are empty,
   * every arc after c lies in row `row` or later.
   */
  lemma NextRow(qs: seq<map<int, Path>>, c: Arc, row: int)
    requires 0 <= c.0 < row <= |qs|
    requires forall j :: j in qs[c.0] ==> j <= c.1
    requires forall i :: c.0 < i < row ==> qs[i].Keys == {}
    ensures forall b :: Has(qs, b) && Before(c, b) ==> row <= b.0
  {
    forall b | Has(qs, b) && Before(c, b)
      ensures row <= b.0
    {
      assert b.1 in qs[b.0].Keys;
    }
  }

  /** The least key of row `row` starts it. */
  lemma RowStart(qs: seq<map<int, Path>>, row: int, k: int)
    requires 0 <= row < |qs| && IsMin(k, qs[row].Keys)
    ensures Has(qs, (row, k))
    ensures forall b :: Has(qs, b) && row <= b.0 ==> !Before(b, (row, k))
  {
    forall b | Has(qs, b) && row <= b.0
      ensures !Before(b, (row, k))
    {
      assert b.1 in qs[b.0].Keys;
    }
  }

  /** Moving past c, on rows that lost at most arcs, strictly shrinks what remains. */
  lemma RestShrinks(ps: seq<map<int, Path>>, qs: seq<map<int, Path>>, c: Arc, pos: Arc)
    requires Has(ps, c) && Before(c, pos)
    requires forall b :: Has(qs, b) ==> Has(ps, b)
    ensures Rest(qs, pos) < Rest(ps, c)
  {
    forall a | a in Rest(qs, pos)
      ensures a in Rest(ps, c)
    {
      InArcSet(qs, a);
      InArcSet(ps, a);
    }
    InArcSet(ps, c);
    assert c in Rest(ps, c);
    assert c !in Rest(qs, pos);
  }

  /**
   * Storing a new arc with the next index keeps the rows well keyed, and
   * dense when they were.
   */
  lemma AddNewKeeps(ps: seq<map<int, Path>>, counts: seq<int>, counter: int, added: seq<Arc>, p: Path)
    requires WellKeyed(ps, |counts|)
    requires 0 <= p.from.id < |ps| && 0 <= p.to.id < |counts| && !Has(ps, p.Key())
    ensures WellKeyed(ps[p.from.id := ps[p.from.id][p.to.id := p.(index := counter)]], |counts|)
    ensures DenseRows(ps, counts, counter, added) ==>
      DenseRows(ps[p.from.id := ps[p.from.id][p.to.id := p.(index := counter)]],
                counts[p.to.id := counts[p.to.id] + 1], counter + 1, added + [p.Key()])
  {
    var f, t := p.from.id, p.to.id;
    var q := p.(index := counter);
    var qs := ps[f := ps[f][t := q]];
    RowInsert(ps, f, t, q);
    forall b | Has(qs, b)
      ensures Get(qs, b).Key() == b && 0 <= b.1 < |counts|
    {
      if b != (f, t) {
        assert Has(ps, b);
      }
    }
    if DenseRows(ps, counts, counter, added) {
      var added' := added + [(f, t)];
      var counts' := counts[t := counts[t] + 1];
      assert added'[..|added'| - 1] == added;
      forall u | 0 <= u < |counts'|
        ensures counts'[u] == CountInto(added', u)
      {
        assert CountInto(added', u) == CountInto(added, u) + (if u == t then 1 else 0);
      }
      forall j | 0 <= j < |added'|
        ensures Has(qs, added'[j]) && Get(qs, added'[j]).index == j
      {
        if j < |added| {
          assert added'[j] == added[j];
          assert added[j] != (f, t);
        }
      }
    }
  }

  /**
   * Storing a path that differs from the stored one in its weight alone
   * keeps the rows well keyed, and dense when they were.
   */
  lemma UpdateKeeps(ps: seq<map<int, Path>>, counts: seq<int>, counter: int, added: seq<Arc>, f: int, t: int, q: Path)
    requires WellKeyed(ps, |counts|) && Has(ps, (f, t)) && q == Get(ps, (f, t)).(w := q.w)
    ensures WellKeyed(ps[f := ps[f][t := q]], |counts|)
    ensures DenseRows(ps, counts, counter, added) ==> DenseRows(ps[f := ps[f][t := q]], counts, counter, added)
  {
    var qs := ps[f := ps[f][t := q]];
    RowInsert(ps, f, t, q);
    forall b | Has(qs, b)
      ensures Has(ps, b) && Get(qs, b).Key() == Get(ps, b).Key() && Get(qs, b).index == Get(ps, b).index
    {
    }
  }

  /** Storing path q under arc (f, t) changes that arc alone. */
  lemma RowInsert(ps: seq<map<int, Path>>, f: int, t: int, q: Path)
    requires 0 <= f < |ps|
    ensures forall b :: Has(ps[f := ps[f][t := q]], b) <==> Has(ps, b) || b == (f, t)
    ensures forall b :: b != (f, t) && Has(ps, b) ==> Get(ps[f := ps[f][t := q]], b) == Get(ps, b)
    ensures Get(ps[f := ps[f][t := q]], (f, t)) == q
  {
  }
}
