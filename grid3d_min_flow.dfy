/**
 * Grid3dMinFlow: the min-cost flow between two mass tensors X1 and X2 on a
 * 3-d grid. Each cell where X1 and X2 are not both zero is a node; its
 * supply is the difference of the two masses (each scaled by its total when
 * scaleMass holds). Cells with a negative difference are targets, the others
 * sources. Every node has an arc to each node among its 26 grid neighbours,
 * costing the offset length (plus lambda times the mass difference when
 * lambda > 0). After the solve the plan holds the arcs with positive flow.
 *
 * A tensor is a function from cells to masses; sqrt is a parameter.
 */
module Grid3d {
  import opened LPSolver
  import opened Lemon
  import opened Nodes
  import DenseLP

  datatype Cell = Cell(i: int, j: int, k: int)

  /** The dimensions of X1 (which X2 shares) and the two tensors. */
  datatype Grid = Grid(d0: nat, d1: nat, d2: nat, X1: Cell -> real, X2: Cell -> real)

  predicate InGrid(g: Grid, c: Cell) {
    0 <= c.i < g.d0 && 0 <= c.j < g.d1 && 0 <= c.k < g.d2
  }

  /** Row-major order: i, then j, then k. */
  predicate Lex(a: Cell, b: Cell) {
    a.i < b.i || (a.i == b.i && (a.j < b.j || (a.j == b.j && a.k < b.k)))
  }

  predicate Increasing(s: seq<Cell>) {
    forall a, b :: 0 <= a < b < |s| ==> Lex(s[a], s[b])
  }

  /** The cells (i, j, 0), ..., (i, j, d2 - 1). */
  function Line(i: int, j: int, d2: nat): (s: seq<Cell>)
    ensures |s| == d2
  {
    seq(d2, k requires 0 <= k < d2 => Cell(i, j, k))
  }

  /** The first j lines of plane i. */
  function Lines(i: int, j: nat, d2: nat): seq<Cell> {
    if j == 0 then [] else Lines(i, j - 1, d2) + Line(i, j - 1, d2)
  }

  /** The first i planes. */
  function Planes(i: nat, d1: nat, d2: nat): seq<Cell> {
    if i == 0 then [] else Planes(i - 1, d1, d2) + Lines(i - 1, d1, d2)
  }

  /** The cells in the order of the triple loops of solve. */
  function Scan(g: Grid): seq<Cell> {
    Planes(g.d0, g.d1, g.d2)
  }

  lemma IncreasingJoin(s: seq<Cell>, a: seq<Cell>, b: seq<Cell>)
    requires s == a + b && Increasing(a) && Increasing(b)
    requires forall x, y :: x in a && y in b ==> Lex(x, y)
    ensures Increasing(s)
  {
    AppendIncreasing(a, b);
  }

  lemma AppendIncreasing(a: seq<Cell>, b: seq<Cell>)
    requires Increasing(a) && Increasing(b)
    requires forall x, y :: x in a && y in b ==> Lex(x, y)
    ensures Increasing(a + b)
  {
    forall p, q | 0 <= p < q < |a + b|
      ensures Lex((a + b)[p], (a + b)[q])
    {
      if q < |a| {
        assert (a + b)[p] == a[p] && (a + b)[q] == a[q];
      } else if p >= |a| {
        assert (a + b)[p] == b[p - |a|] && (a + b)[q] == b[q - |a|];
      } else {
        assert (a + b)[p] in a && (a + b)[q] in b;
      }
    }
  }

  lemma {:induction false} LinesMembers(i: int, j: nat, d2: nat)
    ensures forall c :: c in Lines(i, j, d2) <==> c.i == i && 0 <= c.j < j && 0 <= c.k < d2
  {
    if j > 0 {
      LinesMembers(i, j - 1, d2);
      var b := Line(i, j - 1, d2);
      forall c: Cell | c.i == i && c.j == j - 1 && 0 <= c.k < d2
        ensures c in b
      {
        assert b[c.k] == c;
      }
    }
  }

  lemma {:induction false} LinesIncreasing(i: int, j: nat, d2: nat)
    ensures Increasing(Lines(i, j, d2))
  {
    if j > 0 {
      LinesIncreasing(i, j - 1, d2);
      LinesMembers(i, j - 1, d2);
      AppendIncreasing(Lines(i, j - 1, d2), Line(i, j - 1, d2));
    }
  }

  lemma {:induction false} PlanesMembers(i: nat, d1: nat, d2: nat)
    ensures forall c :: c in Planes(i, d1, d2) <==> 0 <= c.i < i && 0 <= c.j < d1 && 0 <= c.k < d2
  {
    if i > 0 {
      PlanesMembers(i - 1, d1, d2);
      LinesMembers(i - 1, d1, d2);
    }
  }

  lemma {:induction false} PlanesIncreasing(i: nat, d1: nat, d2: nat)
    ensures Increasing(Planes(i, d1, d2))
  {
    if i > 0 {
      PlanesIncreasing(i - 1, d1, d2);
      LinesIncreasing(i - 1, d1, d2);
      PlanesBefore(i, d1, d2);
      AppendIncreasing(Planes(i - 1, d1, d2), Lines(i - 1, d1, d2));
    }
  }

  /** The cells of the first i - 1 planes all come before those of plane i - 1. */
  lemma PlanesBefore(i: nat, d1: nat, d2: nat)
    requires i > 0
    ensures forall x, y :: x in Planes(i - 1, d1, d2) && y in Lines(i - 1, d1, d2) ==> Lex(x, y)
  {
    PlanesMembers(i - 1, d1, d2);
    LinesMembers(i - 1, d1, d2);
    forall x, y | x in Planes(i - 1, d1, d2) && y in Lines(i - 1, d1, d2)
      ensures Lex(x, y)
    {
      assert x.i < i - 1 && y.i == i - 1;
    }
  }

  lemma {:induction false} LinesSize(i: int, j: nat, d2: nat)
    ensures |Lines(i, j, d2)| == j * d2
  {
    if j > 0 {
      LinesSize(i, j - 1, d2);
      assert |Lines(i, j, d2)| == (j - 1) * d2 + d2;
    }
  }

  lemma {:induction false} PlanesSize(i: nat, d1: nat, d2: nat)
    ensures |Planes(i, d1, d2)| == i * (d1 * d2)
  {
    if i > 0 {
      PlanesSize(i - 1, d1, d2);
      LinesSize(i - 1, d1, d2);
      assert |Planes(i, d1, d2)| == (i - 1) * (d1 * d2) + d1 * d2;
    }
  }

  /** The scan visits every cell of the grid once, in row-major order: d0 * d1 * d2 cells. */
  lemma ScanFacts(g: Grid)
    ensures |Scan(g)| == g.d0 * (g.d1 * g.d2) && Increasing(Scan(g))
    ensures forall c :: c in Scan(g) <==> InGrid(g, c)
  {
    PlanesMembers(g.d0, g.d1, g.d2);
    PlanesIncreasing(g.d0, g.d1, g.d2);
    PlanesSize(g.d0, g.d1, g.d2);
  }

  /** The sum of X over the cells cs; over the scan, X.sum(). */
  function Total(X: Cell -> real, cs: seq<Cell>): real {
    if cs == [] then 0.0 else Total(X, cs[..|cs| - 1]) + X(cs[|cs| - 1])
  }

  /** With scaleMass the two totals divide the masses, so neither may be zero. */
  predicate Scalable(g: Grid, scaleMass: bool) {
    scaleMass ==> Total(g.X1, Scan(g)) != 0.0 && Total(g.X2, Scan(g)) != 0.0
  }

  /** The supply of a cell: v1 / sum1 - v2 / sum2 with scaleMass, v1 - v2 otherwise. */
  function Diff(g: Grid, scaleMass: bool, c: Cell): real
    requires Scalable(g, scaleMass)
  {
    if scaleMass then g.X1(c) / Total(g.X1, Scan(g)) - g.X2(c) / Total(g.X2, Scan(g)) else g.X1(c) - g.X2(c)
  }

  /** A cell is a node unless both masses are zero. */
  predicate Active(g: Grid, c: Cell) {
    !(g.X1(c) == 0.0 && g.X2(c) == 0.0)
  }

  predicate IsSource(g: Grid, scaleMass: bool, c: Cell)
    requires Scalable(g, scaleMass)
  {
    Active(g, c) && Diff(g, scaleMass, c) >= 0.0
  }

  predicate IsTarget(g: Grid, scaleMass: bool, c: Cell)
    requires Scalable(g, scaleMass)
  {
    Active(g, c) && Diff(g, scaleMass, c) < 0.0
  }

  /** The source cells among cs, in order. */
  function Sources(g: Grid, scaleMass: bool, cs: seq<Cell>): (r: seq<Cell>)
    requires Scalable(g, scaleMass)
    ensures |r| <= |cs|
  {
    if cs == [] then []
    else Sources(g, scaleMass, cs[..|cs| - 1]) + (if IsSource(g, scaleMass, cs[|cs| - 1]) then [cs[|cs| - 1]] else [])
  }

  /** The target cells among cs, in order. */
  function Targets(g: Grid, scaleMass: bool, cs: seq<Cell>): (r: seq<Cell>)
    requires Scalable(g, scaleMass)
    ensures |r| <= |cs|
  {
    if cs == [] then []
    else Targets(g, scaleMass, cs[..|cs| - 1]) + (if IsTarget(g, scaleMass, cs[|cs| - 1]) then [cs[|cs| - 1]] else [])
  }

  /** The supplies of the cells cs. */
  function Diffs(g: Grid, scaleMass: bool, cs: seq<Cell>): (r: seq<real>)
    requires Scalable(g, scaleMass)
    ensures |r| == |cs|
  {
    seq(|cs|, n requires 0 <= n < |cs| => Diff(g, scaleMass, cs[n]))
  }

  /** Sources(cs) lists, in the order of cs, exactly the source cells of cs; likewise Targets. */
  lemma {:induction false} FilterFacts(g: Grid, scaleMass: bool, cs: seq<Cell>)
    requires Scalable(g, scaleMass)
    ensures forall c :: c in Sources(g, scaleMass, cs) <==> c in cs && IsSource(g, scaleMass, c)
    ensures forall c :: c in Targets(g, scaleMass, cs) <==> c in cs && IsTarget(g, scaleMass, c)
    ensures Increasing(cs) ==> Increasing(Sources(g, scaleMass, cs)) && Increasing(Targets(g, scaleMass, cs))
  {
    if cs != [] {
      var front, last := cs[..|cs| - 1], cs[|cs| - 1];
      FilterFacts(g, scaleMass, front);
      assert cs == front + [last];
      if Increasing(cs) {
        assert forall x :: x in front ==> Lex(x, last) by {
          forall x | x in front
            ensures Lex(x, last)
          {
            var p :| 0 <= p < |front| && front[p] == x;
            assert cs[p] == x;
          }
        }
        assert Increasing(front) by {
          forall p, q | 0 <= p < q < |front|
            ensures Lex(front[p], front[q])
          {
            assert front[p] == cs[p] && front[q] == cs[q];
          }
        }
        var sl: seq<Cell> := if IsSource(g, scaleMass, last) then [last] else [];
        var tl: seq<Cell> := if IsTarget(g, scaleMass, last) then [last] else [];
        AppendIncreasing(Sources(g, scaleMass, front), sl);
        AppendIncreasing(Targets(g, scaleMass, front), tl);
      }
    }
  }

  /** No cell is both a source and a target. */
  lemma SourceNotTarget(g: Grid, scaleMass: bool, cs: seq<Cell>)
    requires Scalable(g, scaleMass)
    ensures forall c :: c in Sources(g, scaleMass, cs) ==> c !in Targets(g, scaleMass, cs)
  {
    FilterFacts(g, scaleMass, cs);
  }

  /** Increasing sequences never repeat a cell. */
  lemma IncreasingDistinct(s: seq<Cell>, a: int, b: int)
    requires Increasing(s) && 0 <= a < |s| && 0 <= b < |s| && s[a] == s[b]
    ensures a == b
  {
  }

  /** The local lists of solve's classification loop and the id tensor (a map over the cells visited). */
  datatype Classes = Classes(sCells: seq<Cell>, sMass: seq<real>, tCells: seq<Cell>, tMass: seq<real>, nId: map<Cell, int>)

  /** The lists and the id map after the cells visited. */
  ghost predicate ClassifiedUpTo(g: Grid, scaleMass: bool, visited: seq<Cell>, st: Classes)
    requires Scalable(g, scaleMass)
  {
    && st.sCells == Sources(g, scaleMass, visited) && st.sMass == Diffs(g, scaleMass, st.sCells)
    && st.tCells == Targets(g, scaleMass, visited) && st.tMass == Diffs(g, scaleMass, st.tCells)
    && (forall c :: c in st.nId <==> c in visited)
    && (forall c :: c in st.nId ==> st.nId[c] == -1)
  }

  /**
   * The classification loop of solve, over the scan: every cell gets id -1,
   * the sources and the targets are listed in scan order with their supplies.
   */
  method Classify(g: Grid, scaleMass: bool, sum1: real, sum2: real) returns (st: Classes)
    requires sum1 == Total(g.X1, Scan(g)) && sum2 == Total(g.X2, Scan(g)) && Scalable(g, scaleMass)
    ensures st.sCells == Sources(g, scaleMass, Scan(g)) && st.sMass == Diffs(g, scaleMass, st.sCells)
    ensures st.tCells == Targets(g, scaleMass, Scan(g)) && st.tMass == Diffs(g, scaleMass, st.tCells)
    ensures forall c :: c in st.nId <==> InGrid(g, c)
    ensures forall c :: c in st.nId ==> st.nId[c] == -1
  {
    st := Classes([], [], [], [], map[]);
    var i := 0;
    while i < g.d0
      invariant 0 <= i <= g.d0 && ClassifiedUpTo(g, scaleMass, Planes(i, g.d1, g.d2), st)
    {
      st := ClassifyPlane(g, scaleMass, sum1, sum2, i, Planes(i, g.d1, g.d2), st);
      i := i + 1;
    }
    ScanFacts(g);
  }

  /** The middle loop of the classification: the lines of plane i. */
  method ClassifyPlane(g: Grid, scaleMass: bool, sum1: real, sum2: real, i: int, ghost visited: seq<Cell>, st0: Classes)
    returns (st: Classes)
    requires sum1 == Total(g.X1, Scan(g)) && sum2 == Total(g.X2, Scan(g)) && Scalable(g, scaleMass)
    requires ClassifiedUpTo(g, scaleMass, visited, st0)
    ensures ClassifiedUpTo(g, scaleMass, visited + Lines(i, g.d1, g.d2), st)
  {
    st := st0;
    var j := 0;
    assert visited + Lines(i, 0, g.d2) == visited;
    while j < g.d1
      invariant 0 <= j <= g.d1 && ClassifiedUpTo(g, scaleMass, visited + Lines(i, j, g.d2), st)
    {
      st := ClassifyLine(g, scaleMass, sum1, sum2, i, j, visited + Lines(i, j, g.d2), st);
      assert visited + Lines(i, j + 1, g.d2) == visited + Lines(i, j, g.d2) + Line(i, j, g.d2);
      j := j + 1;
    }
  }

  /** The innermost loop of the classification: the cells (i, j, 0), ..., (i, j, d2 - 1). */
  method ClassifyLine(g: Grid, scaleMass: bool, sum1: real, sum2: real, i: int, j: int, ghost visited: seq<Cell>, st0: Classes)
    returns (st: Classes)
    requires sum1 == Total(g.X1, Scan(g)) && sum2 == Total(g.X2, Scan(g)) && Scalable(g, scaleMass)
    requires ClassifiedUpTo(g, scaleMass, visited, st0)
    ensures ClassifiedUpTo(g, scaleMass, visited + Line(i, j, g.d2), st)
  {
    st := st0;
    var k := 0;
    assert visited + Line(i, j, g.d2)[..0] == visited;
    while k < g.d2
      invariant 0 <= k <= g.d2 && ClassifiedUpTo(g, scaleMass, visited + Line(i, j, g.d2)[..k], st)
    {
      var c := Cell(i, j, k);
      st := ClassifyCell(g, scaleMass, sum1, sum2, visited + Line(i, j, g.d2)[..k], st, c);
      assert visited + Line(i, j, g.d2)[..k + 1] == visited + Line(i, j, g.d2)[..k] + [c];
      k := k + 1;
    }
    assert Line(i, j, g.d2)[..g.d2] == Line(i, j, g.d2);
  }

  /** One cell of the classification loop: it gets id -1 and, when it is a node, joins the sources or the targets. */
  method ClassifyCell(g: Grid, scaleMass: bool, sum1: real, sum2: real, ghost visited: seq<Cell>, st0: Classes, c: Cell)
    returns (st: Classes)
    requires sum1 == Total(g.X1, Scan(g)) && sum2 == Total(g.X2, Scan(g)) && Scalable(g, scaleMass)
    requires ClassifiedUpTo(g, scaleMass, visited, st0)
    ensures ClassifiedUpTo(g, scaleMass, visited + [c], st)
  {
    ClassifyStep(g, scaleMass, visited, st0, c);
    st := st0.(nId := st0.nId[c := -1]);
    var v1, v2 := g.X1(c), g.X2(c);
    if !(v1 == 0.0 && v2 == 0.0) {
      var diff := 0.0;
      if scaleMass {
        diff := v1 / sum1 - v2 / sum2;
      } else {
        diff := v1 - v2;
      }
      if diff < 0.0 {
        st := st.(tMass := st.tMass + [diff], tCells := st.tCells + [c]);
      } else {
        st := st.(sMass := st.sMass + [diff], sCells := st.sCells + [c]);
      }
    }
  }

  /** Visiting one more cell extends each list by the cell when it belongs there. */
  lemma ClassifyStep(g: Grid, scaleMass: bool, visited: seq<Cell>, st: Classes, c: Cell)
    requires Scalable(g, scaleMass)
    requires ClassifiedUpTo(g, scaleMass, visited, st)
    ensures var v := visited + [c];
      && Sources(g, scaleMass, v) == st.sCells + (if IsSource(g, scaleMass, c) then [c] else [])
      && Targets(g, scaleMass, v) == st.tCells + (if IsTarget(g, scaleMass, c) then [c] else [])
      && Diffs(g, scaleMass, st.sCells + [c]) == st.sMass + [Diff(g, scaleMass, c)]
      && Diffs(g, scaleMass, st.tCells + [c]) == st.tMass + [Diff(g, scaleMass, c)]
  {
    assert (visited + [c])[..|visited|] == visited;
  }

  /** The id loops of solve: source n gets id n and target n gets id nSources + n; id2spatial lists them in id order. */
  method AssignIds(sCells: seq<Cell>, tCells: seq<Cell>, nId0: map<Cell, int>) returns (nId: map<Cell, int>, id2spatial: seq<Cell>)
    requires Increasing(sCells) && Increasing(tCells) && forall c :: c in sCells ==> c !in tCells
    requires forall c :: c in sCells || c in tCells ==> c in nId0
    ensures id2spatial == sCells + tCells && nId.Keys == nId0.Keys
    ensures forall n :: 0 <= n < |sCells| ==> sCells[n] in nId && nId[sCells[n]] == n
    ensures forall n :: 0 <= n < |tCells| ==> tCells[n] in nId && nId[tCells[n]] == |sCells| + n
    ensures forall c :: c in nId0 && c !in sCells && c !in tCells ==> nId[c] == nId0[c]
  {
    var nId1, ids1 := NumberCells(sCells, 0, nId0, []);
    nId, id2spatial := NumberCells(tCells, |sCells|, nId1, ids1);
    assert forall n :: 0 <= n < |sCells| ==> sCells[n] !in tCells;
  }

  /** One id loop: cells[n] gets id offset + n and is appended to id2spatial. */
  method NumberCells(cells: seq<Cell>, offset: int, nId0: map<Cell, int>, ids0: seq<Cell>) returns (nId: map<Cell, int>, ids: seq<Cell>)
    requires Increasing(cells) && forall c :: c in cells ==> c in nId0
    ensures ids == ids0 + cells && nId.Keys == nId0.Keys
    ensures forall n :: 0 <= n < |cells| ==> nId[cells[n]] == offset + n
    ensures forall c :: c in nId0 && c !in cells ==> nId[c] == nId0[c]
  {
    nId, ids := nId0, ids0;
    var n := 0;
    while n < |cells|
      invariant 0 <= n <= |cells| && ids == ids0 + cells[..n] && nId.Keys == nId0.Keys
      invariant forall m :: 0 <= m < n ==> nId[cells[m]] == offset + m
      invariant forall c :: c in nId0 && c !in cells[..n] ==> nId[c] == nId0[c]
    {
      var c := cells[n];
      forall m | 0 <= m < n
        ensures cells[m] != c
      {
        if cells[m] == c {
          IncreasingDistinct(cells, m, n);
        }
      }
      ids := ids + [c];
      nId := nId[c := n + offset];
      assert cells[..n + 1] == cells[..n] + [c];
      n := n + 1;
    }
    assert cells[..n] == cells;
  }

  /** The ids after classification and assignment: a node's id leads back to its cell, and a cell that is no node keeps -1. */
  ghost predicate Numbered(g: Grid, scaleMass: bool, nId: map<Cell, int>, id2spatial: seq<Cell>)
    requires Scalable(g, scaleMass)
  {
    && (forall c :: c in nId <==> InGrid(g, c))
    && (forall c :: InGrid(g, c) && !Active(g, c) ==> nId[c] == -1)
    && (forall c :: InGrid(g, c) && Active(g, c) ==> 0 <= nId[c] < |id2spatial| && id2spatial[nId[c]] == c)
    && (forall n :: 0 <= n < |id2spatial| ==> id2spatial[n] in nId && nId[id2spatial[n]] == n)
    && (forall n :: 0 <= n < |id2spatial| ==> InGrid(g, id2spatial[n]) && Active(g, id2spatial[n]))
  }

  /** nId and id2spatial are what the id loops make of the classification's lists and its all -1 map nId0. */
  ghost predicate Assigned(g: Grid, scaleMass: bool, nId0: map<Cell, int>, nId: map<Cell, int>, id2spatial: seq<Cell>)
    requires Scalable(g, scaleMass)
  {
    var sCells, tCells := Sources(g, scaleMass, Scan(g)), Targets(g, scaleMass, Scan(g));
    && (forall c :: c in nId0 <==> InGrid(g, c))
    && (forall c :: c in nId0 ==> nId0[c] == -1)
    && id2spatial == sCells + tCells && nId.Keys == nId0.Keys
    && (forall n :: 0 <= n < |sCells| ==> sCells[n] in nId && nId[sCells[n]] == n)
    && (forall n :: 0 <= n < |tCells| ==> tCells[n] in nId && nId[tCells[n]] == |sCells| + n)
    && (forall c :: c in nId0 && c !in sCells && c !in tCells ==> nId[c] == nId0[c])
  }

  /** Classification then id assignment number the nodes: id2spatial inverts nId on the nodes, the rest keep -1. */
  lemma NumberedIds(g: Grid, scaleMass: bool, nId0: map<Cell, int>, nId: map<Cell, int>, id2spatial: seq<Cell>)
    requires Scalable(g, scaleMass) && Assigned(g, scaleMass, nId0, nId, id2spatial)
    ensures Numbered(g, scaleMass, nId, id2spatial)
  {
    NodesNumbered(g, scaleMass, nId0, nId, id2spatial);
    IdsNumbered(g, scaleMass, nId0, nId, id2spatial);
    ScanFacts(g);
    FilterFacts(g, scaleMass, Scan(g));
  }

  lemma NodesNumbered(g: Grid, scaleMass: bool, nId0: map<Cell, int>, nId: map<Cell, int>, id2spatial: seq<Cell>)
    requires Scalable(g, scaleMass) && Assigned(g, scaleMass, nId0, nId, id2spatial)
    ensures forall c :: InGrid(g, c) && Active(g, c) ==> c in nId && 0 <= nId[c] < |id2spatial| && id2spatial[nId[c]] == c
  {
    var sCells, tCells := Sources(g, scaleMass, Scan(g)), Targets(g, scaleMass, Scan(g));
    ScanFacts(g);
    FilterFacts(g, scaleMass, Scan(g));
    forall c | InGrid(g, c) && Active(g, c)
      ensures c in nId && 0 <= nId[c] < |id2spatial| && id2spatial[nId[c]] == c
    {
      if IsSource(g, scaleMass, c) {
        var n :| 0 <= n < |sCells| && sCells[n] == c;
        assert id2spatial[n] == c;
      } else {
        assert c in tCells;
        var n :| 0 <= n < |tCells| && tCells[n] == c;
        assert id2spatial[|sCells| + n] == c;
      }
    }
  }

  lemma IdsNumbered(g: Grid, scaleMass: bool, nId0: map<Cell, int>, nId: map<Cell, int>, id2spatial: seq<Cell>)
    requires Scalable(g, scaleMass) && Assigned(g, scaleMass, nId0, nId, id2spatial)
    ensures forall n :: 0 <= n < |id2spatial| ==> id2spatial[n] in nId && nId[id2spatial[n]] == n
    ensures forall n :: 0 <= n < |id2spatial| ==> InGrid(g, id2spatial[n]) && Active(g, id2spatial[n])
  {
    var sCells, tCells := Sources(g, scaleMass, Scan(g)), Targets(g, scaleMass, Scan(g));
    ScanFacts(g);
    FilterFacts(g, scaleMass, Scan(g));
    forall n | 0 <= n < |id2spatial|
      ensures id2spatial[n] in nId && nId[id2spatial[n]] == n
      ensures InGrid(g, id2spatial[n]) && Active(g, id2spatial[n])
    {
      if n < |sCells| {
        assert id2spatial[n] == sCells[n] && sCells[n] in sCells;
      } else {
        assert id2spatial[n] == tCells[n - |sCells|] && tCells[n - |sCells|] in tCells;
      }
    }
  }

  /** One arc of the flow graph: two node ids and a cost. */
  datatype GridArc = GridArc(from: int, to: int, cost: real)

  function Abs(x: real): real {
    if x < 0.0 then -x else x
  }

  /** The arc from c to its neighbour m: sqrt(ii^2 + jj^2 + kk^2), plus lambda |X1(c) - X2(m)| when lambda > 0. */
  function ArcTo(g: Grid, nId: map<Cell, int>, sqrt: real -> real, lambda: real, c: Cell, m: Cell): GridArc
    requires c in nId && m in nId
  {
    var ii, jj, kk := m.i - c.i, m.j - c.j, m.k - c.k;
    var length := sqrt((ii * ii + jj * jj + kk * kk) as real);
    GridArc(nId[c], nId[m], if lambda > 0.0 then length + lambda * Abs(g.X1(c) - g.X2(m)) else length)
  }

  /** Every cell of the grid has an id (possibly -1). */
  ghost predicate Covers(g: Grid, nId: map<Cell, int>) {
    forall c :: InGrid(g, c) ==> c in nId
  }

  /** m is a cell with a node id. */
  predicate HasId(nId: map<Cell, int>, m: Cell) {
    m in nId && nId[m] != -1
  }

  /** The neighbours c + (ii, jj, kk) for kk = -1, ..., kmax - 1 that are in the grid, other than c and with an id. */
  function NeighboursK(g: Grid, nId: map<Cell, int>, c: Cell, ii: int, jj: int, kmax: int): seq<Cell>
    decreases kmax + 1
  {
    if kmax <= -1 then []
    else
      var m := Cell(c.i + ii, c.j + jj, c.k + kmax - 1);
      NeighboursK(g, nId, c, ii, jj, kmax - 1)
      + (if !InGrid(g, m) || m == c || !HasId(nId, m) then [] else [m])
  }

  /** The same for jj = -1, ..., jmax - 1 (skipping rows outside the grid). */
  function NeighboursJ(g: Grid, nId: map<Cell, int>, c: Cell, ii: int, jmax: int): seq<Cell>
    decreases jmax + 1
  {
    if jmax <= -1 then []
    else
      var j := c.j + jmax - 1;
      NeighboursJ(g, nId, c, ii, jmax - 1) + (if j < 0 || j == g.d1 then [] else NeighboursK(g, nId, c, ii, jmax - 1, 2))
  }

  /** The same for ii = -1, ..., imax - 1. */
  function NeighboursI(g: Grid, nId: map<Cell, int>, c: Cell, imax: int): seq<Cell>
    decreases imax + 1
  {
    if imax <= -1 then []
    else
      var i := c.i + imax - 1;
      NeighboursI(g, nId, c, imax - 1) + (if i < 0 || i == g.d0 then [] else NeighboursJ(g, nId, c, imax - 1, 2))
  }

  /** The arcs from c to the cells ms, in order. */
  function ArcsTo(g: Grid, nId: map<Cell, int>, sqrt: real -> real, lambda: real, c: Cell, ms: seq<Cell>): (r: seq<GridArc>)
    requires c in nId && forall m :: m in ms ==> m in nId
    ensures |r| == |ms|
  {
    seq(|ms|, t requires 0 <= t < |ms| => ArcTo(g, nId, sqrt, lambda, c, ms[t]))
  }

  /** The arcs of one cell: none for a cell without an id, else one to each neighbour in offset order. */
  function CellArcs(g: Grid, nId: map<Cell, int>, sqrt: real -> real, lambda: real, c: Cell): seq<GridArc> {
    var ms := NeighboursI(g, nId, c, 2);
    NeighboursFacts(g, nId, c);
    if !HasId(nId, c) then [] else ArcsTo(g, nId, sqrt, lambda, c, ms)
  }

  /** m is one of the 26 cells around c. */
  predicate Adjacent(c: Cell, m: Cell) {
    m != c && -1 <= m.i - c.i <= 1 && -1 <= m.j - c.j <= 1 && -1 <= m.k - c.k <= 1
  }

  lemma {:induction false} NeighboursKMembers(g: Grid, nId: map<Cell, int>, c: Cell, ii: int, jj: int, kmax: int)
    ensures forall m :: m in NeighboursK(g, nId, c, ii, jj, kmax) <==>
      InGrid(g, m) && m != c && HasId(nId, m) && m.i == c.i + ii && m.j == c.j + jj && -1 <= m.k - c.k < kmax
  {
    if kmax > -1 {
      NeighboursKMembers(g, nId, c, ii, jj, kmax - 1);
      var m0 := Cell(c.i + ii, c.j + jj, c.k + kmax - 1);
      forall m: Cell | m.i == c.i + ii && m.j == c.j + jj && m.k == c.k + kmax - 1
        ensures m == m0
      {
      }
    }
  }

  lemma {:induction false} NeighboursKIncreasing(g: Grid, nId: map<Cell, int>, c: Cell, ii: int, jj: int, kmax: int)
    ensures Increasing(NeighboursK(g, nId, c, ii, jj, kmax))
  {
    if kmax > -1 {
      var prev := NeighboursK(g, nId, c, ii, jj, kmax - 1);
      NeighboursKIncreasing(g, nId, c, ii, jj, kmax - 1);
      NeighboursKMembers(g, nId, c, ii, jj, kmax - 1);
      var m0 := Cell(c.i + ii, c.j + jj, c.k + kmax - 1);
      var tail: seq<Cell> := if !InGrid(g, m0) || m0 == c || !HasId(nId, m0) then [] else [m0];
      AppendIncreasing(prev, tail);
    }
  }

  lemma {:induction false} NeighboursJMembers(g: Grid, nId: map<Cell, int>, c: Cell, ii: int, jmax: int)
    ensures forall m :: m in NeighboursJ(g, nId, c, ii, jmax) <==>
      InGrid(g, m) && m != c && HasId(nId, m) && m.i == c.i + ii && -1 <= m.j - c.j < jmax && -1 <= m.k - c.k <= 1
  {
    if jmax > -1 {
      NeighboursJMembers(g, nId, c, ii, jmax - 1);
      NeighboursKMembers(g, nId, c, ii, jmax - 1, 2);
    }
  }

  lemma {:induction false} NeighboursJIncreasing(g: Grid, nId: map<Cell, int>, c: Cell, ii: int, jmax: int)
    ensures Increasing(NeighboursJ(g, nId, c, ii, jmax))
  {
    if jmax > -1 {
      NeighboursJIncreasing(g, nId, c, ii, jmax - 1);
      NeighboursJStep(g, nId, c, ii, jmax);
    }
  }

  /** Appending row c.j + jmax - 1 to an increasing listing keeps it increasing. */
  lemma NeighboursJStep(g: Grid, nId: map<Cell, int>, c: Cell, ii: int, jmax: int)
    requires jmax > -1 && Increasing(NeighboursJ(g, nId, c, ii, jmax - 1))
    ensures Increasing(NeighboursJ(g, nId, c, ii, jmax))
  {
    var j := c.j + jmax - 1;
    var prev := NeighboursJ(g, nId, c, ii, jmax - 1);
    if j < 0 || j == g.d1 {
      NeighboursJUnfold(g, nId, c, ii, jmax, []);
      IncreasingJoin(NeighboursJ(g, nId, c, ii, jmax), prev, []);
    } else {
      var tail := NeighboursK(g, nId, c, ii, jmax - 1, 2);
      NeighboursJUnfold(g, nId, c, ii, jmax, tail);
      NeighboursKIncreasing(g, nId, c, ii, jmax - 1, 2);
      NeighboursJBefore(g, nId, c, ii, jmax);
      IncreasingJoin(NeighboursJ(g, nId, c, ii, jmax), prev, tail);
    }
  }

  /** One step of NeighboursJ: the listing for jmax - 1 followed by row c.j + jmax - 1 when it is in the grid. */
  lemma NeighboursJUnfold(g: Grid, nId: map<Cell, int>, c: Cell, ii: int, jmax: int, tail: seq<Cell>)
    requires jmax > -1
    requires tail == if c.j + jmax - 1 < 0 || c.j + jmax - 1 == g.d1 then [] else NeighboursK(g, nId, c, ii, jmax - 1, 2)
    ensures NeighboursJ(g, nId, c, ii, jmax) == NeighboursJ(g, nId, c, ii, jmax - 1) + tail
  {
  }

  /** The cells listed for row offsets below jmax - 1 all come before row c.j + jmax - 1. */
  lemma NeighboursJBefore(g: Grid, nId: map<Cell, int>, c: Cell, ii: int, jmax: int)
    requires jmax > -1
    ensures forall x, y :: x in NeighboursJ(g, nId, c, ii, jmax - 1) && y in NeighboursK(g, nId, c, ii, jmax - 1, 2) ==> Lex(x, y)
  {
    NeighboursJMembers(g, nId, c, ii, jmax - 1);
    NeighboursKMembers(g, nId, c, ii, jmax - 1, 2);
  }

  lemma {:induction false} NeighboursIMembers(g: Grid, nId: map<Cell, int>, c: Cell, imax: int)
    ensures forall m :: m in NeighboursI(g, nId, c, imax) <==>
      InGrid(g, m) && m != c && HasId(nId, m) && -1 <= m.i - c.i < imax && -1 <= m.j - c.j <= 1 && -1 <= m.k - c.k <= 1
  {
    if imax > -1 {
      NeighboursIMembers(g, nId, c, imax - 1);
      NeighboursJMembers(g, nId, c, imax - 1, 2);
    }
  }

  lemma {:induction false} NeighboursIIncreasing(g: Grid, nId: map<Cell, int>, c: Cell, imax: int)
    ensures Increasing(NeighboursI(g, nId, c, imax))
  {
    if imax > -1 {
      NeighboursIIncreasing(g, nId, c, imax - 1);
      NeighboursIStep(g, nId, c, imax);
    }
  }

  /** Appending plane c.i + imax - 1 to an increasing listing keeps it increasing. */
  lemma NeighboursIStep(g: Grid, nId: map<Cell, int>, c: Cell, imax: int)
    requires imax > -1 && Increasing(NeighboursI(g, nId, c, imax - 1))
    ensures Increasing(NeighboursI(g, nId, c, imax))
  {
    var i := c.i + imax - 1;
    var prev := NeighboursI(g, nId, c, imax - 1);
    if i < 0 || i == g.d0 {
      NeighboursIUnfold(g, nId, c, imax, []);
      IncreasingJoin(NeighboursI(g, nId, c, imax), prev, []);
    } else {
      var tail := NeighboursJ(g, nId, c, imax - 1, 2);
      NeighboursIUnfold(g, nId, c, imax, tail);
      NeighboursJIncreasing(g, nId, c, imax - 1, 2);
      NeighboursIBefore(g, nId, c, imax);
      IncreasingJoin(NeighboursI(g, nId, c, imax), prev, tail);
    }
  }

  /** One step of NeighboursI: the listing for imax - 1 followed by plane c.i + imax - 1 when it is in the grid. */
  lemma NeighboursIUnfold(g: Grid, nId: map<Cell, int>, c: Cell, imax: int, tail: seq<Cell>)
    requires imax > -1
    requires tail == if c.i + imax - 1 < 0 || c.i + imax - 1 == g.d0 then [] else NeighboursJ(g, nId, c, imax - 1, 2)
    ensures NeighboursI(g, nId, c, imax) == NeighboursI(g, nId, c, imax - 1) + tail
  {
  }

  /** The cells listed for offsets below imax - 1 all come before plane c.i + imax - 1. */
  lemma NeighboursIBefore(g: Grid, nId: map<Cell, int>, c: Cell, imax: int)
    requires imax > -1
    ensures forall x, y :: x in NeighboursI(g, nId, c, imax - 1) && y in NeighboursJ(g, nId, c, imax - 1, 2) ==> Lex(x, y)
  {
    NeighboursIMembers(g, nId, c, imax - 1);
    NeighboursJMembers(g, nId, c, imax - 1, 2);
  }

  lemma {:induction false} NeighboursKSize(g: Grid, nId: map<Cell, int>, c: Cell, ii: int, jj: int, kmax: int)
    requires -1 <= kmax <= 2
    ensures |NeighboursK(g, nId, c, ii, jj, kmax)| <= kmax + 1 - (if ii == 0 && jj == 0 && kmax >= 1 then 1 else 0)
  {
    if kmax > -1 {
      NeighboursKSize(g, nId, c, ii, jj, kmax - 1);
      var m := Cell(c.i + ii, c.j + jj, c.k + kmax - 1);
      if ii == 0 && jj == 0 && kmax == 1 {
        assert m == c;
      }
    }
  }

  lemma {:induction false} NeighboursJSize(g: Grid, nId: map<Cell, int>, c: Cell, ii: int, jmax: int)
    requires -1 <= jmax <= 2
    ensures |NeighboursJ(g, nId, c, ii, jmax)| <= 3 * (jmax + 1) - (if ii == 0 && jmax >= 1 then 1 else 0)
  {
    if jmax > -1 {
      NeighboursJSize(g, nId, c, ii, jmax - 1);
      NeighboursKSize(g, nId, c, ii, jmax - 1, 2);
      var tail := if c.j + jmax - 1 < 0 || c.j + jmax - 1 == g.d1 then [] else NeighboursK(g, nId, c, ii, jmax - 1, 2);
      assert NeighboursJ(g, nId, c, ii, jmax) == NeighboursJ(g, nId, c, ii, jmax - 1) + tail;
    }
  }

  lemma {:induction false} NeighboursISize(g: Grid, nId: map<Cell, int>, c: Cell, imax: int)
    requires -1 <= imax <= 2
    ensures |NeighboursI(g, nId, c, imax)| <= 9 * (imax + 1) - (if imax >= 1 then 1 else 0)
  {
    if imax > -1 {
      NeighboursISize(g, nId, c, imax - 1);
      NeighboursJSize(g, nId, c, imax - 1, 2);
      var tail := if c.i + imax - 1 < 0 || c.i + imax - 1 == g.d0 then [] else NeighboursJ(g, nId, c, imax - 1, 2);
      assert NeighboursI(g, nId, c, imax) == NeighboursI(g, nId, c, imax - 1) + tail;
    }
  }

  /**
   * The neighbours of c are exactly the cells of the grid around c that have
   * an id, each once and in row-major order: at most 26 of them.
   */
  lemma NeighboursFacts(g: Grid, nId: map<Cell, int>, c: Cell)
    ensures forall m :: m in NeighboursI(g, nId, c, 2) <==> InGrid(g, m) && Adjacent(c, m) && HasId(nId, m)
    ensures Increasing(NeighboursI(g, nId, c, 2)) && |NeighboursI(g, nId, c, 2)| <= 26
  {
    NeighboursIMembers(g, nId, c, 2);
    NeighboursIIncreasing(g, nId, c, 2);
    NeighboursISize(g, nId, c, 2);
  }

  /**
   * The arcs of a node go to every node around it in the grid and nowhere
   * else, one arc per neighbour, so there are at most 26.
   */
  lemma CellArcsFacts(g: Grid, nId: map<Cell, int>, sqrt: real -> real, lambda: real, c: Cell)
    ensures |CellArcs(g, nId, sqrt, lambda, c)| <= 26
    ensures !HasId(nId, c) ==> CellArcs(g, nId, sqrt, lambda, c) == []
    ensures HasId(nId, c) ==> forall m :: InGrid(g, m) && Adjacent(c, m) && HasId(nId, m) ==>
      ArcTo(g, nId, sqrt, lambda, c, m) in CellArcs(g, nId, sqrt, lambda, c)
    ensures forall a :: a in CellArcs(g, nId, sqrt, lambda, c) ==>
      exists m :: InGrid(g, m) && Adjacent(c, m) && HasId(nId, m) && a == ArcTo(g, nId, sqrt, lambda, c, m)
  {
    var ms := NeighboursI(g, nId, c, 2);
    NeighboursFacts(g, nId, c);
    if HasId(nId, c) {
      var arcs := ArcsTo(g, nId, sqrt, lambda, c, ms);
      forall m | InGrid(g, m) && Adjacent(c, m) && HasId(nId, m)
        ensures ArcTo(g, nId, sqrt, lambda, c, m) in arcs
      {
        var t :| 0 <= t < |ms| && ms[t] == m;
        assert arcs[t] == ArcTo(g, nId, sqrt, lambda, c, m);
      }
      forall a | a in arcs
        ensures exists m :: InGrid(g, m) && Adjacent(c, m) && HasId(nId, m) && a == ArcTo(g, nId, sqrt, lambda, c, m)
      {
        var t :| 0 <= t < |arcs| && arcs[t] == a;
        assert ms[t] in ms;
      }
    }
  }

  /** The arcs of the cells cs, cell after cell. */
  function AllArcs(g: Grid, nId: map<Cell, int>, sqrt: real -> real, lambda: real, cs: seq<Cell>): seq<GridArc> {
    if cs == [] then [] else AllArcs(g, nId, sqrt, lambda, cs[..|cs| - 1]) + CellArcs(g, nId, sqrt, lambda, cs[|cs| - 1])
  }

  /** At most 26 arcs per cell, so the 27 slots per cell that solve reserves always suffice. */
  lemma {:induction false} AllArcsBound(g: Grid, nId: map<Cell, int>, sqrt: real -> real, lambda: real, cs: seq<Cell>)
    ensures |AllArcs(g, nId, sqrt, lambda, cs)| <= 26 * |cs|
  {
    if cs != [] {
      AllArcsBound(g, nId, sqrt, lambda, cs[..|cs| - 1]);
      CellArcsFacts(g, nId, sqrt, lambda, cs[|cs| - 1]);
    }
  }

  lemma Associative<T>(a: seq<T>, b: seq<T>, c: seq<T>)
    ensures (a + b) + c == a + (b + c)
  {
  }

  lemma AllArcsStep(g: Grid, nId: map<Cell, int>, sqrt: real -> real, lambda: real, cs: seq<Cell>, c: Cell)
    ensures AllArcs(g, nId, sqrt, lambda, cs + [c]) == AllArcs(g, nId, sqrt, lambda, cs) + CellArcs(g, nId, sqrt, lambda, c)
  {
    assert (cs + [c])[..|cs|] == cs;
  }

  lemma {:induction false} AllArcsAppend(g: Grid, nId: map<Cell, int>, sqrt: real -> real, lambda: real, a: seq<Cell>, b: seq<Cell>)
    ensures AllArcs(g, nId, sqrt, lambda, a + b) == AllArcs(g, nId, sqrt, lambda, a) + AllArcs(g, nId, sqrt, lambda, b)
  {
    if b == [] {
      assert a + b == a;
    } else {
      var front, last := b[..|b| - 1], b[|b| - 1];
      assert b == front + [last];
      assert a + b == (a + front) + [last];
      AllArcsAppend(g, nId, sqrt, lambda, a, front);
      AllArcsStep(g, nId, sqrt, lambda, a + front, last);
      AllArcsStep(g, nId, sqrt, lambda, front, last);
      var A, F, L := AllArcs(g, nId, sqrt, lambda, a), AllArcs(g, nId, sqrt, lambda, front), CellArcs(g, nId, sqrt, lambda, last);
      Associative(A, F, L);
    }
  }

  /** The arc loops of solve over the scan: the arcs of each cell in turn. */
  method BuildArcs(g: Grid, nId: map<Cell, int>, sqrt: real -> real, lambda: real) returns (arcs: seq<GridArc>)
    requires Covers(g, nId)
    ensures arcs == AllArcs(g, nId, sqrt, lambda, Scan(g))
  {
    arcs := [];
    var i := 0;
    while i < g.d0
      invariant 0 <= i <= g.d0 && arcs == AllArcs(g, nId, sqrt, lambda, Planes(i, g.d1, g.d2))
    {
      var more := PlaneArcs(g, nId, sqrt, lambda, i);
      AllArcsAppend(g, nId, sqrt, lambda, Planes(i, g.d1, g.d2), Lines(i, g.d1, g.d2));
      arcs := arcs + more;
      i := i + 1;
      assert arcs == AllArcs(g, nId, sqrt, lambda, Planes(i, g.d1, g.d2));
    }
  }

  /** The arcs of the cells of plane i. */
  method PlaneArcs(g: Grid, nId: map<Cell, int>, sqrt: real -> real, lambda: real, i: int) returns (arcs: seq<GridArc>)
    requires Covers(g, nId) && 0 <= i < g.d0
    ensures arcs == AllArcs(g, nId, sqrt, lambda, Lines(i, g.d1, g.d2))
  {
    arcs := [];
    var j := 0;
    while j < g.d1
      invariant 0 <= j <= g.d1 && arcs == AllArcs(g, nId, sqrt, lambda, Lines(i, j, g.d2))
    {
      var more := LineArcs(g, nId, sqrt, lambda, i, j);
      AllArcsAppend(g, nId, sqrt, lambda, Lines(i, j, g.d2), Line(i, j, g.d2));
      arcs := arcs + more;
      j := j + 1;
      assert arcs == AllArcs(g, nId, sqrt, lambda, Lines(i, j, g.d2));
    }
  }

  /** The arcs of the cells (i, j, 0), ..., (i, j, d2 - 1). */
  method LineArcs(g: Grid, nId: map<Cell, int>, sqrt: real -> real, lambda: real, i: int, j: int) returns (arcs: seq<GridArc>)
    requires Covers(g, nId) && 0 <= i < g.d0 && 0 <= j < g.d1
    ensures arcs == AllArcs(g, nId, sqrt, lambda, Line(i, j, g.d2))
  {
    arcs := [];
    var k := 0;
    assert Line(i, j, g.d2)[..0] == [];
    while k < g.d2
      invariant 0 <= k <= g.d2 && arcs == AllArcs(g, nId, sqrt, lambda, Line(i, j, g.d2)[..k])
    {
      var c := Cell(i, j, k);
      var more := NeighbourArcs(g, nId, sqrt, lambda, c);
      AllArcsStep(g, nId, sqrt, lambda, Line(i, j, g.d2)[..k], c);
      assert Line(i, j, g.d2)[..k + 1] == Line(i, j, g.d2)[..k] + [c];
      arcs := arcs + more;
      k := k + 1;
    }
    assert Line(i, j, g.d2)[..g.d2] == Line(i, j, g.d2);
  }

  /** The arcs the kk loop adds for kk = -1, ..., kmax - 1: none for offsets outside the grid, for c itself, or when either end has no id. */
  function OffsetArcsK(g: Grid, nId: map<Cell, int>, sqrt: real -> real, lambda: real, c: Cell, ii: int, jj: int, kmax: int): seq<GridArc>
    decreases kmax + 1
  {
    if kmax <= -1 then []
    else
      var m := Cell(c.i + ii, c.j + jj, c.k + kmax - 1);
      OffsetArcsK(g, nId, sqrt, lambda, c, ii, jj, kmax - 1)
      + (if !InGrid(g, m) || m == c || !HasId(nId, c) || !HasId(nId, m) then [] else [ArcTo(g, nId, sqrt, lambda, c, m)])
  }

  /** The arcs the jj loop adds for jj = -1, ..., jmax - 1. */
  function OffsetArcsJ(g: Grid, nId: map<Cell, int>, sqrt: real -> real, lambda: real, c: Cell, ii: int, jmax: int): seq<GridArc>
    decreases jmax + 1
  {
    if jmax <= -1 then []
    else
      var j := c.j + jmax - 1;
      OffsetArcsJ(g, nId, sqrt, lambda, c, ii, jmax - 1)
      + (if j < 0 || j == g.d1 then [] else OffsetArcsK(g, nId, sqrt, lambda, c, ii, jmax - 1, 2))
  }

  /** The arcs the ii loop adds for ii = -1, ..., imax - 1. */
  function OffsetArcsI(g: Grid, nId: map<Cell, int>, sqrt: real -> real, lambda: real, c: Cell, imax: int): seq<GridArc>
    decreases imax + 1
  {
    if imax <= -1 then []
    else
      var i := c.i + imax - 1;
      OffsetArcsI(g, nId, sqrt, lambda, c, imax - 1)
      + (if i < 0 || i == g.d0 then [] else OffsetArcsJ(g, nId, sqrt, lambda, c, imax - 1, 2))
  }

  lemma ArcsToAppend(g: Grid, nId: map<Cell, int>, sqrt: real -> real, lambda: real, c: Cell, a: seq<Cell>, b: seq<Cell>)
    requires c in nId && (forall m :: m in a ==> m in nId) && (forall m :: m in b ==> m in nId)
    ensures ArcsTo(g, nId, sqrt, lambda, c, a + b) == ArcsTo(g, nId, sqrt, lambda, c, a) + ArcsTo(g, nId, sqrt, lambda, c, b)
  {
    assert forall t :: 0 <= t < |a + b| ==> ArcsTo(g, nId, sqrt, lambda, c, a + b)[t] == (ArcsTo(g, nId, sqrt, lambda, c, a) + ArcsTo(g, nId, sqrt, lambda, c, b))[t];
  }

  lemma {:induction false} OffsetArcsKMatch(g: Grid, nId: map<Cell, int>, sqrt: real -> real, lambda: real, c: Cell, ii: int, jj: int, kmax: int)
    ensures !HasId(nId, c) ==> OffsetArcsK(g, nId, sqrt, lambda, c, ii, jj, kmax) == []
    ensures HasId(nId, c) ==>
      && (forall m :: m in NeighboursK(g, nId, c, ii, jj, kmax) ==> m in nId)
      && OffsetArcsK(g, nId, sqrt, lambda, c, ii, jj, kmax) == ArcsTo(g, nId, sqrt, lambda, c, NeighboursK(g, nId, c, ii, jj, kmax))
    decreases kmax + 1
  {
    NeighboursKMembers(g, nId, c, ii, jj, kmax);
    if kmax > -1 {
      OffsetArcsKMatch(g, nId, sqrt, lambda, c, ii, jj, kmax - 1);
      if HasId(nId, c) {
        NeighboursKMembers(g, nId, c, ii, jj, kmax - 1);
        var m := Cell(c.i + ii, c.j + jj, c.k + kmax - 1);
        var tail: seq<Cell> := if !InGrid(g, m) || m == c || !HasId(nId, m) then [] else [m];
        ArcsToAppend(g, nId, sqrt, lambda, c, NeighboursK(g, nId, c, ii, jj, kmax - 1), tail);
      }
    }
  }

  lemma {:induction false} OffsetArcsJMatch(g: Grid, nId: map<Cell, int>, sqrt: real -> real, lambda: real, c: Cell, ii: int, jmax: int)
    ensures !HasId(nId, c) ==> OffsetArcsJ(g, nId, sqrt, lambda, c, ii, jmax) == []
    ensures HasId(nId, c) ==>
      && (forall m :: m in NeighboursJ(g, nId, c, ii, jmax) ==> m in nId)
      && OffsetArcsJ(g, nId, sqrt, lambda, c, ii, jmax) == ArcsTo(g, nId, sqrt, lambda, c, NeighboursJ(g, nId, c, ii, jmax))
    decreases jmax + 1
  {
    NeighboursJMembers(g, nId, c, ii, jmax);
    if jmax > -1 {
      OffsetArcsJMatch(g, nId, sqrt, lambda, c, ii, jmax - 1);
      OffsetArcsKMatch(g, nId, sqrt, lambda, c, ii, jmax - 1, 2);
      if HasId(nId, c) {
        NeighboursJMembers(g, nId, c, ii, jmax - 1);
        NeighboursKMembers(g, nId, c, ii, jmax - 1, 2);
        var j := c.j + jmax - 1;
        var tail := if j < 0 || j == g.d1 then [] else NeighboursK(g, nId, c, ii, jmax - 1, 2);
        ArcsToAppend(g, nId, sqrt, lambda, c, NeighboursJ(g, nId, c, ii, jmax - 1), tail);
      }
    }
  }

  lemma {:induction false} OffsetArcsIMatch(g: Grid, nId: map<Cell, int>, sqrt: real -> real, lambda: real, c: Cell, imax: int)
    ensures !HasId(nId, c) ==> OffsetArcsI(g, nId, sqrt, lambda, c, imax) == []
    ensures HasId(nId, c) ==>
      && (forall m :: m in NeighboursI(g, nId, c, imax) ==> m in nId)
      && OffsetArcsI(g, nId, sqrt, lambda, c, imax) == ArcsTo(g, nId, sqrt, lambda, c, NeighboursI(g, nId, c, imax))
    decreases imax + 1
  {
    NeighboursIMembers(g, nId, c, imax);
    if imax > -1 {
      OffsetArcsIMatch(g, nId, sqrt, lambda, c, imax - 1);
      OffsetArcsJMatch(g, nId, sqrt, lambda, c, imax - 1, 2);
      if HasId(nId, c) {
        NeighboursIMembers(g, nId, c, imax - 1);
        NeighboursJMembers(g, nId, c, imax - 1, 2);
        var i := c.i + imax - 1;
        var tail := if i < 0 || i == g.d0 then [] else NeighboursJ(g, nId, c, imax - 1, 2);
        ArcsToAppend(g, nId, sqrt, lambda, c, NeighboursI(g, nId, c, imax - 1), tail);
      }
    }
  }

  /** One pass of the ii loop extends the arcs by the next OffsetArcsI piece. */
  lemma OffsetArcsIStep(g: Grid, nId: map<Cell, int>, sqrt: real -> real, lambda: real, c: Cell, ii: int,
                        before: seq<GridArc>, after: seq<GridArc>)
    requires ii >= -1 && before == OffsetArcsI(g, nId, sqrt, lambda, c, ii)
    requires after == if c.i + ii < 0 || c.i + ii == g.d0 then before else before + OffsetArcsJ(g, nId, sqrt, lambda, c, ii, 2)
    ensures after == OffsetArcsI(g, nId, sqrt, lambda, c, ii + 1)
  {
    if c.i + ii < 0 || c.i + ii == g.d0 {
      assert before + [] == before;
    }
  }

  /** One pass of the jj loop extends the arcs by the next OffsetArcsJ piece. */
  lemma OffsetArcsJStep(g: Grid, nId: map<Cell, int>, sqrt: real -> real, lambda: real, c: Cell, ii: int, jj: int,
                        arcs0: seq<GridArc>, before: seq<GridArc>, after: seq<GridArc>)
    requires jj >= -1 && before == arcs0 + OffsetArcsJ(g, nId, sqrt, lambda, c, ii, jj)
    requires after == if c.j + jj < 0 || c.j + jj == g.d1 then before else before + OffsetArcsK(g, nId, sqrt, lambda, c, ii, jj, 2)
    ensures after == arcs0 + OffsetArcsJ(g, nId, sqrt, lambda, c, ii, jj + 1)
  {
    var done := OffsetArcsJ(g, nId, sqrt, lambda, c, ii, jj);
    if c.j + jj < 0 || c.j + jj == g.d1 {
      assert done + [] == done;
    } else {
      assert arcs0 + done + OffsetArcsK(g, nId, sqrt, lambda, c, ii, jj, 2) == arcs0 + (done + OffsetArcsK(g, nId, sqrt, lambda, c, ii, jj, 2));
    }
  }

  /** The arc loop for one cell: the three offset loops, skipping offsets outside the grid, c itself and cells without an id. */
  method NeighbourArcs(g: Grid, nId: map<Cell, int>, sqrt: real -> real, lambda: real, c: Cell) returns (arcs: seq<GridArc>)
    requires Covers(g, nId) && InGrid(g, c)
    ensures arcs == CellArcs(g, nId, sqrt, lambda, c)
  {
    arcs := [];
    var ii := -1;
    while ii < 2
      invariant -1 <= ii <= 2
      invariant arcs == OffsetArcsI(g, nId, sqrt, lambda, c, ii)
    {
      var iii := c.i + ii;
      ghost var before := arcs;
      if !(iii < 0 || iii == g.d0) {
        arcs := ArcsJ(g, nId, sqrt, lambda, c, ii, arcs);
      }
      OffsetArcsIStep(g, nId, sqrt, lambda, c, ii, before, arcs);
      assert arcs == OffsetArcsI(g, nId, sqrt, lambda, c, ii + 1);
      ii := ii + 1;
      assert arcs == OffsetArcsI(g, nId, sqrt, lambda, c, ii);
    }
    OffsetArcsIMatch(g, nId, sqrt, lambda, c, 2);
  }

  /** The loop over jj for one ii. */
  method ArcsJ(g: Grid, nId: map<Cell, int>, sqrt: real -> real, lambda: real, c: Cell, ii: int, arcs0: seq<GridArc>)
    returns (arcs: seq<GridArc>)
    requires Covers(g, nId) && InGrid(g, c) && 0 <= c.i + ii < g.d0
    ensures arcs == arcs0 + OffsetArcsJ(g, nId, sqrt, lambda, c, ii, 2)
  {
    arcs := arcs0;
    var jj := -1;
    while jj < 2
      invariant -1 <= jj <= 2 && arcs == arcs0 + OffsetArcsJ(g, nId, sqrt, lambda, c, ii, jj)
    {
      var jjj := c.j + jj;
      ghost var before := arcs;
      if !(jjj < 0 || jjj == g.d1) {
        arcs := ArcsK(g, nId, sqrt, lambda, c, ii, jj, arcs);
      }
      OffsetArcsJStep(g, nId, sqrt, lambda, c, ii, jj, arcs0, before, arcs);
      jj := jj + 1;
    }
  }

  /** The loop over kk for one ii and jj. */
  method ArcsK(g: Grid, nId: map<Cell, int>, sqrt: real -> real, lambda: real, c: Cell, ii: int, jj: int, arcs0: seq<GridArc>)
    returns (arcs: seq<GridArc>)
    requires Covers(g, nId) && InGrid(g, c) && 0 <= c.i + ii < g.d0 && 0 <= c.j + jj < g.d1
    ensures arcs == arcs0 + OffsetArcsK(g, nId, sqrt, lambda, c, ii, jj, 2)
  {
    arcs := arcs0;
    var iii, jjj := c.i + ii, c.j + jj;
    var kk := -1;
    while kk < 2
      invariant -1 <= kk <= 2 && arcs == arcs0 + OffsetArcsK(g, nId, sqrt, lambda, c, ii, jj, kk)
    {
      var kkk := c.k + kk;
      var m := Cell(iii, jjj, kkk);
      ghost var piece: seq<GridArc> := [];
      if !(kkk < 0 || kkk == g.d2) && !(iii == c.i && jjj == c.j && kkk == c.k) {
        var id1, id2 := nId[c], nId[m];
        if !(id1 == -1 || id2 == -1) {
          piece := [ArcTo(g, nId, sqrt, lambda, c, m)];
          arcs := arcs + [ArcTo(g, nId, sqrt, lambda, c, m)];
        }
      }
      assert OffsetArcsK(g, nId, sqrt, lambda, c, ii, jj, kk + 1) == OffsetArcsK(g, nId, sqrt, lambda, c, ii, jj, kk) + piece;
      assert arcs == arcs0 + (OffsetArcsK(g, nId, sqrt, lambda, c, ii, jj, kk) + piece);
      kk := kk + 1;
    }
  }

  /** The id pair an arc's flow is filed under in the plan. */
  function Key(a: GridArc): (int, int) {
    (a.from, a.to)
  }

  /** No two arcs join the same pair of nodes. */
  predicate DistinctKeys(arcs: seq<GridArc>) {
    forall p, q :: 0 <= p < q < |arcs| ==> Key(arcs[p]) != Key(arcs[q])
  }

  /** Distinct cells with ids have distinct ids. */
  ghost predicate Injective(nId: map<Cell, int>) {
    forall m1, m2 :: HasId(nId, m1) && HasId(nId, m2) && nId[m1] == nId[m2] ==> m1 == m2
  }

  /** The numbering of solve gives every node its own id in [0, nSources + nTargets). */
  lemma NumberedInjective(g: Grid, scaleMass: bool, nId: map<Cell, int>, id2spatial: seq<Cell>)
    requires Scalable(g, scaleMass) && Numbered(g, scaleMass, nId, id2spatial)
    ensures Injective(nId)
    ensures forall m :: HasId(nId, m) ==> 0 <= nId[m] < |id2spatial|
  {
    forall m | HasId(nId, m)
      ensures Active(g, m) && 0 <= nId[m] < |id2spatial| && id2spatial[nId[m]] == m
    {
    }
  }

  /** Numbered determines the id map: two maps that both number the same id2spatial are equal. */
  lemma NumberedUnique(g: Grid, scaleMass: bool, nId1: map<Cell, int>, nId2: map<Cell, int>, id2spatial: seq<Cell>)
    requires Scalable(g, scaleMass)
    requires Numbered(g, scaleMass, nId1, id2spatial) && Numbered(g, scaleMass, nId2, id2spatial)
    ensures nId1 == nId2
  {
    forall c | c in nId1
      ensures nId1[c] == nId2[c]
    {
      if Active(g, c) {
        var n := nId1[c];
        assert id2spatial[n] == c;
      }
    }
  }

  /** Every arc of a cell leaves that cell's id and enters the id of a node; they go to distinct ids. */
  lemma CellArcsDistinct(g: Grid, nId: map<Cell, int>, sqrt: real -> real, lambda: real, c: Cell)
    requires Injective(nId)
    ensures DistinctKeys(CellArcs(g, nId, sqrt, lambda, c))
    ensures forall a :: a in CellArcs(g, nId, sqrt, lambda, c) ==>
      HasId(nId, c) && a.from == nId[c] && exists m :: HasId(nId, m) && a.to == nId[m]
  {
    var ms := NeighboursI(g, nId, c, 2);
    NeighboursFacts(g, nId, c);
    CellArcsFacts(g, nId, sqrt, lambda, c);
    if HasId(nId, c) {
      var arcs := ArcsTo(g, nId, sqrt, lambda, c, ms);
      forall p, q | 0 <= p < q < |arcs|
        ensures Key(arcs[p]) != Key(arcs[q])
      {
        assert Lex(ms[p], ms[q]) && ms[p] in ms && ms[q] in ms;
      }
    }
  }

  /** Each arc among the arcs of cs leaves the id of one of the cells of cs. */
  lemma {:induction false} AllArcsFrom(g: Grid, nId: map<Cell, int>, sqrt: real -> real, lambda: real, cs: seq<Cell>)
    requires Injective(nId)
    ensures forall a :: a in AllArcs(g, nId, sqrt, lambda, cs) ==>
      exists n :: 0 <= n < |cs| && HasId(nId, cs[n]) && a.from == nId[cs[n]]
  {
    if cs != [] {
      var front, last := cs[..|cs| - 1], cs[|cs| - 1];
      AllArcsFrom(g, nId, sqrt, lambda, front);
      CellArcsDistinct(g, nId, sqrt, lambda, last);
      forall a | a in AllArcs(g, nId, sqrt, lambda, cs)
        ensures exists n :: 0 <= n < |cs| && HasId(nId, cs[n]) && a.from == nId[cs[n]]
      {
        if a in AllArcs(g, nId, sqrt, lambda, front) {
          var n :| 0 <= n < |front| && HasId(nId, front[n]) && a.from == nId[front[n]];
          assert cs[n] == front[n];
        } else {
          assert cs[|cs| - 1] == last;
        }
      }
    }
  }

  /** Two key-distinct runs of arcs with no key in common join into a key-distinct run. */
  lemma DistinctConcat(A: seq<GridArc>, L: seq<GridArc>)
    requires DistinctKeys(A) && DistinctKeys(L)
    requires forall x, y :: x in A && y in L ==> Key(x) != Key(y)
    ensures DistinctKeys(A + L)
  {
    forall p, q | 0 <= p < q < |A + L|
      ensures Key((A + L)[p]) != Key((A + L)[q])
    {
      if q < |A| {
        assert (A + L)[p] == A[p] && (A + L)[q] == A[q];
      } else if p >= |A| {
        assert (A + L)[p] == L[p - |A|] && (A + L)[q] == L[q - |A|];
      } else {
        assert (A + L)[p] == A[p] && A[p] in A;
        assert (A + L)[q] == L[q - |A|] && L[q - |A|] in L;
      }
    }
  }

  lemma IncreasingPrefix(cs: seq<Cell>)
    requires Increasing(cs) && cs != []
    ensures Increasing(cs[..|cs| - 1])
  {
    var front := cs[..|cs| - 1];
    forall p, q | 0 <= p < q < |front|
      ensures Lex(front[p], front[q])
    {
      assert front[p] == cs[p] && front[q] == cs[q];
    }
  }

  /** Over cells visited once, no pair of nodes gets two arcs, so the plan files each flow under its own key. */
  lemma {:induction false} AllArcsDistinct(g: Grid, nId: map<Cell, int>, sqrt: real -> real, lambda: real, cs: seq<Cell>)
    requires Injective(nId) && Increasing(cs)
    ensures DistinctKeys(AllArcs(g, nId, sqrt, lambda, cs))
  {
    if cs != [] {
      var front, last := cs[..|cs| - 1], cs[|cs| - 1];
      IncreasingPrefix(cs);
      AllArcsDistinct(g, nId, sqrt, lambda, front);
      AllArcsFrom(g, nId, sqrt, lambda, front);
      CellArcsDistinct(g, nId, sqrt, lambda, last);
      var A, L := AllArcs(g, nId, sqrt, lambda, front), CellArcs(g, nId, sqrt, lambda, last);
      forall x, y | x in A && y in L
        ensures Key(x) != Key(y)
      {
        var n :| 0 <= n < |front| && HasId(nId, front[n]) && x.from == nId[front[n]];
        assert Lex(cs[n], cs[|cs| - 1]) && cs[n] == front[n];
      }
      DistinctConcat(A, L);
    }
  }

  /** Every arc end is a node id in [0, n). */
  predicate ArcsWithin(arcs: seq<GridArc>, n: int) {
    forall a :: a in arcs ==> 0 <= a.from < n && 0 <= a.to < n
  }

  /** All arc ends are node ids when every id lies in [0, n). */
  lemma {:induction false} AllArcsInRange(g: Grid, nId: map<Cell, int>, sqrt: real -> real, lambda: real, cs: seq<Cell>, n: int)
    requires Injective(nId)
    requires forall m :: HasId(nId, m) ==> 0 <= nId[m] < n
    ensures ArcsWithin(AllArcs(g, nId, sqrt, lambda, cs), n)
  {
    if cs != [] {
      var front, last := cs[..|cs| - 1], cs[|cs| - 1];
      AllArcsInRange(g, nId, sqrt, lambda, front, n);
      CellArcsDistinct(g, nId, sqrt, lambda, last);
      var L := CellArcs(g, nId, sqrt, lambda, last);
      assert ArcsWithin(L, n) by {
        forall a | a in L
          ensures 0 <= a.from < n && 0 <= a.to < n
        {
          var m :| HasId(nId, m) && a.to == nId[m];
        }
      }
    }
  }

  /** The LP rows: the source supplies, then the (negative) target supplies. */
  function GridRows(g: Grid, scaleMass: bool): seq<real>
    requires Scalable(g, scaleMass)
  {
    Diffs(g, scaleMass, Sources(g, scaleMass, Scan(g))) + Diffs(g, scaleMass, Targets(g, scaleMass, Scan(g)))
  }

  /** The sum of the supplies of the cells cs. */
  function DiffTotal(g: Grid, scaleMass: bool, cs: seq<Cell>): real
    requires Scalable(g, scaleMass)
  {
    if cs == [] then 0.0 else DiffTotal(g, scaleMass, cs[..|cs| - 1]) + Diff(g, scaleMass, cs[|cs| - 1])
  }

  lemma DiffsStep(g: Grid, scaleMass: bool, cs: seq<Cell>, c: Cell)
    requires Scalable(g, scaleMass)
    ensures RealSum(Diffs(g, scaleMass, cs + [c])) == RealSum(Diffs(g, scaleMass, cs)) + Diff(g, scaleMass, c)
  {
    assert Diffs(g, scaleMass, cs + [c])[..|cs|] == Diffs(g, scaleMass, cs);
  }

  /** A cell that is no node has supply zero, so the sources and targets together carry all the supply of cs. */
  lemma {:induction false} SplitSupply(g: Grid, scaleMass: bool, cs: seq<Cell>)
    requires Scalable(g, scaleMass)
    ensures RealSum(Diffs(g, scaleMass, Sources(g, scaleMass, cs))) + RealSum(Diffs(g, scaleMass, Targets(g, scaleMass, cs)))
         == DiffTotal(g, scaleMass, cs)
  {
    if cs != [] {
      var front, last := cs[..|cs| - 1], cs[|cs| - 1];
      SplitSupply(g, scaleMass, front);
      if IsSource(g, scaleMass, last) {
        assert Sources(g, scaleMass, cs) == Sources(g, scaleMass, front) + [last];
        assert !IsTarget(g, scaleMass, last);
        assert Targets(g, scaleMass, cs) == Targets(g, scaleMass, front);
        DiffsStep(g, scaleMass, Sources(g, scaleMass, front), last);
      } else if IsTarget(g, scaleMass, last) {
        assert Sources(g, scaleMass, cs) == Sources(g, scaleMass, front);
        assert Targets(g, scaleMass, cs) == Targets(g, scaleMass, front) + [last];
        DiffsStep(g, scaleMass, Targets(g, scaleMass, front), last);
      } else {
        assert Sources(g, scaleMass, cs) == Sources(g, scaleMass, front);
        assert Targets(g, scaleMass, cs) == Targets(g, scaleMass, front);
        assert g.X1(last) == 0.0 && g.X2(last) == 0.0;
      }
    }
  }

  /** The total supply of cs: its X1 mass minus its X2 mass, each divided by its grid total under scaleMass. */
  lemma {:induction false} DiffTotalValue(g: Grid, scaleMass: bool, cs: seq<Cell>)
    requires Scalable(g, scaleMass)
    ensures scaleMass ==> DiffTotal(g, scaleMass, cs) == Total(g.X1, cs) / Total(g.X1, Scan(g)) - Total(g.X2, cs) / Total(g.X2, Scan(g))
    ensures !scaleMass ==> DiffTotal(g, scaleMass, cs) == Total(g.X1, cs) - Total(g.X2, cs)
  {
    if cs != [] {
      var front, last := cs[..|cs| - 1], cs[|cs| - 1];
      DiffTotalValue(g, scaleMass, front);
      if scaleMass {
        var s1, s2 := Total(g.X1, Scan(g)), Total(g.X2, Scan(g));
        DivideSum(Total(g.X1, front), g.X1(last), s1);
        DivideSum(Total(g.X2, front), g.X2(last), s2);
      }
    }
  }

  lemma DivideSum(a: real, b: real, s: real)
    requires s != 0.0
    ensures (a + b) / s == a / s + b / s
  {
  }

  /**
   * With scaleMass both tensors are normalised, so the supplies sum to zero
   * and the network is balanced; without it they sum to X1.sum() - X2.sum().
   */
  lemma GridRowsBalance(g: Grid, scaleMass: bool)
    requires Scalable(g, scaleMass)
    ensures scaleMass ==> RealSum(GridRows(g, scaleMass)) == 0.0
    ensures !scaleMass ==> RealSum(GridRows(g, scaleMass)) == Total(g.X1, Scan(g)) - Total(g.X2, Scan(g))
  {
    var cs := Scan(g);
    DenseLP.SumConcat(Diffs(g, scaleMass, Sources(g, scaleMass, cs)), Diffs(g, scaleMass, Targets(g, scaleMass, cs)));
    SplitSupply(g, scaleMass, cs);
    DiffTotalValue(g, scaleMass, cs);
    if scaleMass {
      SelfDivide(Total(g.X1, cs));
      SelfDivide(Total(g.X2, cs));
    }
  }

  lemma SelfDivide(s: real)
    requires s != 0.0
    ensures s / s == 1.0
  {
  }

  /** The LP column arrays of an arc list: row of the tail, row of the head, cost. */
  function ArcFroms(arcs: seq<GridArc>): (r: seq<int>)
    ensures |r| == |arcs|
  {
    seq(|arcs|, t requires 0 <= t < |arcs| => arcs[t].from)
  }

  function ArcTos(arcs: seq<GridArc>): (r: seq<int>)
    ensures |r| == |arcs|
  {
    seq(|arcs|, t requires 0 <= t < |arcs| => arcs[t].to)
  }

  function ArcCosts(arcs: seq<GridArc>): (r: seq<real>)
    ensures |r| == |arcs|
  {
    seq(|arcs|, t requires 0 <= t < |arcs| => arcs[t].cost)
  }

  /** The two row-bound loops of solve: source supplies first, then the target supplies at offset nSources. */
  method GridRowBounds(lp: LemonSolver, sMass: seq<real>, tMass: seq<real>)
    requires lp.mass == seq(|sMass| + |tMass|, _ => 0.0)
    modifies lp`mass
    ensures lp.mass == sMass + tMass
  {
    var r, c := |sMass|, |tMass|;
    var i := 0;
    while i < r
      invariant 0 <= i <= r && |lp.mass| == r + c
      invariant forall k :: 0 <= k < i ==> lp.mass[k] == sMass[k]
      invariant forall k :: i <= k < r + c ==> lp.mass[k] == 0.0
    {
      lp.SetRowBounds(i, sMass[i]);
      i := i + 1;
    }
    i := 0;
    while i < c
      invariant 0 <= i <= c && |lp.mass| == r + c
      invariant forall k :: 0 <= k < r ==> lp.mass[k] == sMass[k]
      invariant forall k :: 0 <= k < i ==> lp.mass[r + k] == tMass[k]
      invariant forall k :: r + i <= k < r + c ==> lp.mass[k] == 0.0
    {
      lp.SetRowBounds(i + r, tMass[i]);
      i := i + 1;
    }
    assert forall k :: 0 <= k < r + c ==> lp.mass[k] == (sMass + tMass)[k];
  }

  /** The column loop of solve: column i gets lower bound 0, the cost of arc i and rows (asInd[i], atInd[i]). */
  method GridColumns(lp: LemonSolver, arcs: seq<GridArc>)
    requires lp.Valid() && |lp.sInd| == |arcs|
    modifies lp`sInd, lp`tInd, lp`coeff, lp`colLB, lp`colUB
    ensures lp.Valid()
    ensures lp.sInd == ArcFroms(arcs) && lp.tInd == ArcTos(arcs) && lp.coeff == ArcCosts(arcs)
    ensures lp.colLB == seq(|arcs|, _ => 0.0) && lp.colUB == seq(|arcs|, _ => MaxDouble)
  {
    var n := |arcs|;
    var i := 0;
    while i < n
      invariant 0 <= i <= n && lp.Valid() && |lp.sInd| == n
      invariant forall t :: 0 <= t < i ==> lp.sInd[t] == arcs[t].from && lp.tInd[t] == arcs[t].to
      invariant forall t :: 0 <= t < i ==> lp.coeff[t] == arcs[t].cost
      invariant forall t :: 0 <= t < i ==> lp.colLB[t] == 0.0 && lp.colUB[t] == MaxDouble
    {
      lp.SetColumnBoundsLower(i, 0.0);
      lp.SetColumnObjective(i, arcs[i].cost);
      lp.SetColumnCoefficients(i, arcs[i].from, arcs[i].to);
      i := i + 1;
    }
    assert lp.sInd == ArcFroms(arcs) && lp.tInd == ArcTos(arcs) && lp.coeff == ArcCosts(arcs);
    assert lp.colLB == seq(n, _ => 0.0) && lp.colUB == seq(n, _ => MaxDouble);
  }

  /** createLP, addRows, the row bounds, addColumns and the column loop of solve. */
  method BuildGridLP(lp: LemonSolver, sMass: seq<real>, tMass: seq<real>, arcs: seq<GridArc>)
    requires ArcsWithin(arcs, |sMass| + |tMass|)
    modifies lp`sInd, lp`tInd, lp`coeff, lp`primal, lp`colStatus, lp`colLB, lp`colUB
    modifies lp`mass, lp`rowStatus, lp`dual, lp`ns, lp`nt
    ensures var n, m := |arcs|, |sMass| + |tMass|;
      && lp.ns == |sMass| && lp.nt == |tMass| && lp.mass == sMass + tMass
      && lp.sInd == ArcFroms(arcs) && lp.tInd == ArcTos(arcs) && lp.coeff == ArcCosts(arcs)
      && lp.colLB == seq(n, _ => 0.0) && lp.colUB == seq(n, _ => MaxDouble)
      && lp.colStatus == seq(n, _ => LOWER) && lp.rowStatus == seq(m, _ => BASIC)
      && |lp.primal| == n && |lp.dual| == m
    ensures lp.Valid() && lp.ArcsInGraph()
  {
    lp.CreateLP(|sMass|, |tMass|);
    lp.AddRows(|sMass| + |tMass|);
    GridRowBounds(lp, sMass, tMass);
    lp.AddColumns(|arcs|);
    GridColumns(lp, arcs);
    forall t | 0 <= t < |lp.sInd|
      ensures 0 <= lp.sInd[t] <= |lp.mass| && 0 <= lp.tInd[t] <= |lp.mass|
    {
      assert arcs[t] in arcs;
    }
  }

  /** The plan: each arc with positive flow, filed under (asInd, atInd); a later arc overwrites an earlier key. */
  function PlanOf(arcs: seq<GridArc>, primal: seq<real>): map<(int, int), real>
    requires |arcs| <= |primal|
  {
    if arcs == [] then map[]
    else
      var n := |arcs| - 1;
      var rest := PlanOf(arcs[..n], primal);
      if primal[n] > 0.0 then rest[Key(arcs[n]) := primal[n]] else rest
  }

  /** The plan holds exactly the keys of the arcs with positive flow, each with a positive weight. */
  lemma {:induction false} PlanKeys(arcs: seq<GridArc>, primal: seq<real>)
    requires |arcs| <= |primal|
    ensures forall key :: key in PlanOf(arcs, primal) <==> exists t :: 0 <= t < |arcs| && primal[t] > 0.0 && Key(arcs[t]) == key
    ensures forall key :: key in PlanOf(arcs, primal) ==> PlanOf(arcs, primal)[key] > 0.0
  {
    if arcs != [] {
      var n := |arcs| - 1;
      PlanKeys(arcs[..n], primal);
      forall key | key in PlanOf(arcs[..n], primal)
        ensures exists t :: 0 <= t < |arcs| && primal[t] > 0.0 && Key(arcs[t]) == key
      {
        var t :| 0 <= t < n && primal[t] > 0.0 && Key(arcs[..n][t]) == key;
        assert arcs[..n][t] == arcs[t];
      }
      forall t | 0 <= t < n && primal[t] > 0.0
        ensures Key(arcs[t]) in PlanOf(arcs, primal)
      {
        assert arcs[..n][t] == arcs[t];
      }
    }
  }

  /** When no two arcs share a key, each arc with positive flow keeps its own flow in the plan. */
  lemma {:induction false} PlanValues(arcs: seq<GridArc>, primal: seq<real>)
    requires |arcs| <= |primal| && DistinctKeys(arcs)
    ensures forall t :: 0 <= t < |arcs| && primal[t] > 0.0 ==>
      Key(arcs[t]) in PlanOf(arcs, primal) && PlanOf(arcs, primal)[Key(arcs[t])] == primal[t]
  {
    if arcs != [] {
      var n := |arcs| - 1;
      var front := arcs[..n];
      assert DistinctKeys(front) by {
        forall p, q | 0 <= p < q < |front|
          ensures Key(front[p]) != Key(front[q])
        {
          assert front[p] == arcs[p] && front[q] == arcs[q];
        }
      }
      PlanValues(front, primal);
      var rest := PlanOf(front, primal);
      forall t | 0 <= t < n && primal[t] > 0.0
        ensures Key(arcs[t]) in PlanOf(arcs, primal) && PlanOf(arcs, primal)[Key(arcs[t])] == primal[t]
      {
        assert front[t] == arcs[t];
        assert Key(arcs[t]) in rest && rest[Key(arcs[t])] == primal[t];
        assert Key(arcs[t]) != Key(arcs[n]);
      }
    }
  }

  /** The plan loop of solve: read each column's primal and keep it when it is positive. */
  method ArcPlan(lp: LemonSolver, arcs: seq<GridArc>) returns (plan: map<(int, int), real>)
    requires |arcs| <= |lp.primal|
    ensures plan == PlanOf(arcs, lp.primal)
  {
    plan := map[];
    var i := 0;
    while i < |arcs|
      invariant 0 <= i <= |arcs| && plan == PlanOf(arcs[..i], lp.primal)
    {
      var w := lp.GetColumnPrimal(i);
      assert arcs[..i + 1][..i] == arcs[..i];
      if w > 0.0 {
        plan := plan[(arcs[i].from, arcs[i].to) := w];
      }
      i := i + 1;
    }
    assert arcs[..|arcs|] == arcs;
  }

  /**
   * The solver object: cost is set to -1 by the constructor and never
   * changed by solve; id2spatial is the node-to-cell table of the last solve.
   */
  class Grid3dMinFlow {
    var cost: real
    var id2spatial: seq<Cell>

    constructor ()
      ensures cost == -1.0 && id2spatial == []
    {
      cost := -1.0;
      id2spatial := [];
    }

    function GetCost(): real
      reads this`cost
    {
      cost
    }

    function GetId2Spatial(): seq<Cell>
      reads this`id2spatial
    {
      id2spatial
    }

    /**
     * solve: classify the cells, number the nodes, connect each node to its
     * neighbouring nodes, build and solve the min-cost flow network and keep
     * the arcs with positive flow. nId is the id tensor that solve builds.
     */
    method Solve(g: Grid, solver: LemonSolver, sqrt: real -> real, lambda: real := 0.0, scaleMass: bool := true)
      returns (plan: map<(int, int), real>, ghost nId: map<Cell, int>)
      requires Scalable(g, scaleMass) && MaxCapacity(GridRows(g, scaleMass)) > 0.0
      modifies this`id2spatial
      modifies solver`sInd, solver`tInd, solver`coeff, solver`primal, solver`colStatus, solver`colLB, solver`colUB
      modifies solver`mass, solver`rowStatus, solver`dual, solver`ns, solver`nt
      modifies solver`success, solver`objValue, solver`iCount
      ensures id2spatial == Sources(g, scaleMass, Scan(g)) + Targets(g, scaleMass, Scan(g))
      ensures Numbered(g, scaleMass, nId, id2spatial)
      ensures var arcs := AllArcs(g, nId, sqrt, lambda, Scan(g));
        && solver.ns == |Sources(g, scaleMass, Scan(g))| && solver.nt == |Targets(g, scaleMass, Scan(g))|
        && solver.mass == GridRows(g, scaleMass)
        && solver.sInd == ArcFroms(arcs) && solver.tInd == ArcTos(arcs) && solver.coeff == ArcCosts(arcs)
        && solver.colLB == seq(|arcs|, _ => 0.0) && solver.colUB == seq(|arcs|, _ => MaxDouble)
        && Outcome(solver.success, solver.objValue, solver.primal, solver.dual)
           == SolveOutcome(solver.simplex, solver.sInd, solver.tInd, solver.coeff, solver.mass,
                           solver.colLB, solver.colUB, |arcs|, |id2spatial|)
        && DistinctKeys(arcs) && ArcsWithin(arcs, |id2spatial|) && |arcs| <= 26 * |Scan(g)|
        && plan == PlanOf(arcs, solver.primal)
    {
      var sMass, tMass, ids, cells, arcs := Network(g, sqrt, lambda, scaleMass);
      id2spatial := cells;
      nId := ids;
      BuildGridLP(solver, sMass, tMass, arcs);
      solver.SolveLP();
      plan := ArcPlan(solver, arcs);
    }
  }

  /**
   * solve up to createLP: the sums, the classification, the ids and the arcs.
   * The supplies are the LP rows, the ids number the nodes, and the arcs
   * join distinct pairs of node ids, at most 26 per cell.
   */
  method Network(g: Grid, sqrt: real -> real, lambda: real, scaleMass: bool)
    returns (sMass: seq<real>, tMass: seq<real>, nId: map<Cell, int>, id2spatial: seq<Cell>, arcs: seq<GridArc>)
    requires Scalable(g, scaleMass)
    ensures id2spatial == Sources(g, scaleMass, Scan(g)) + Targets(g, scaleMass, Scan(g))
    ensures |sMass| == |Sources(g, scaleMass, Scan(g))| && |tMass| == |Targets(g, scaleMass, Scan(g))|
    ensures sMass + tMass == GridRows(g, scaleMass)
    ensures Numbered(g, scaleMass, nId, id2spatial)
    ensures arcs == AllArcs(g, nId, sqrt, lambda, Scan(g))
    ensures DistinctKeys(arcs) && ArcsWithin(arcs, |id2spatial|) && |arcs| <= 26 * |Scan(g)|
  {
    var sum1, sum2 := Total(g.X1, Scan(g)), Total(g.X2, Scan(g));
    var st := Classify(g, scaleMass, sum1, sum2);
    ScanFacts(g);
    FilterFacts(g, scaleMass, Scan(g));
    SourceNotTarget(g, scaleMass, Scan(g));
    sMass, tMass := st.sMass, st.tMass;
    nId, id2spatial := AssignIds(st.sCells, st.tCells, st.nId);
    NumberedIds(g, scaleMass, st.nId, nId, id2spatial);
    NumberedInjective(g, scaleMass, nId, id2spatial);
    arcs := BuildArcs(g, nId, sqrt, lambda);
    AllArcsDistinct(g, nId, sqrt, lambda, Scan(g));
    AllArcsInRange(g, nId, sqrt, lambda, Scan(g), |id2spatial|);
    AllArcsBound(g, nId, sqrt, lambda, Scan(g));
  }

  /**
   * What solve promises about its plan: the keys are exactly the (tail id, head id)
   * pairs of the arcs with positive flow, and each such pair maps to its arc's flow.
   */
  lemma SolvePlan(g: Grid, nId: map<Cell, int>, sqrt: real -> real, lambda: real, primal: seq<real>, plan: map<(int, int), real>)
    requires var arcs := AllArcs(g, nId, sqrt, lambda, Scan(g));
      |arcs| <= |primal| && DistinctKeys(arcs) && plan == PlanOf(arcs, primal)
    ensures var arcs := AllArcs(g, nId, sqrt, lambda, Scan(g));
      && (forall key :: key in plan <==> exists t :: 0 <= t < |arcs| && primal[t] > 0.0 && Key(arcs[t]) == key)
      && (forall t :: 0 <= t < |arcs| && primal[t] > 0.0 ==> Key(arcs[t]) in plan && plan[Key(arcs[t])] == primal[t])
  {
    var arcs := AllArcs(g, nId, sqrt, lambda, Scan(g));
    PlanKeys(arcs, primal);
    PlanValues(arcs, primal);
  }
}
