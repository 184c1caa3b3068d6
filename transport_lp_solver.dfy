/**
 * TransportLPSolver: the LP a transport plan is solved as.
 *
 * Rows are the source nodes, then the target nodes, then four auxiliary
 * nodes that supply or absorb mass: source mass supply, source mass sink,
 * target mass supply and target mass sink. Columns come in eight groups one
 * after the other: four distribution blocks that join each node to an
 * auxiliary node, two exchange columns, one circulation column and one
 * column per arc of the plan. Every column accessor of the class adds the
 * offset of the arc columns to the arc index it is given.
 *
 * The LP backend is the Lemon backend.
 */
module TransportSolver {
  import opened Nodes
  import opened Levels
  import opened Plans
  import opened LPSolver
  import opened Lemon

  /** How the LP treats a difference between the source and the target mass. */
  datatype TransportType =
    | BALANCED
    | UNBALANCED_ADD
    | UNBALANCED_SUBTRACT
    | UNBALANCED_SOURCE
    | UNBALANCED_FREE
    | UNBALANCED_FREE_SOURCE

  /** pow(x, y) of the floating-point library, given by the caller. */
  type Power = (real, real) -> real

  /** The share of a node's mass a distribution column may carry. */
  const DistributionShare: real := 0.99999

  /** The rows and columns createLP lays out for ns source nodes, nt target nodes and numPaths arcs. */
  datatype Layout = Layout(ns: nat, nt: nat, numPaths: nat)
  {
    function SourceRow(id: int): int { id }
    function TargetRow(id: int): int { ns + id }
    function SourceMassSupplyNode(): int { ns + nt }
    function SourceMassSinkNode(): int { ns + nt + 1 }
    function TargetMassSupplyNode(): int { ns + nt + 2 }
    function TargetMassSinkNode(): int { ns + nt + 3 }
    function NumRows(): int { ns + nt + 4 }

    function SourceMassSupplyDistributionStart(): int { 0 }
    function SourceMassSinkDistributionStart(): int { ns }
    function TargetMassSupplyDistributionStart(): int { 2 * ns }
    function TargetMassSinkDistributionStart(): int { 2 * ns + nt }
    function SourceMassExchangePath(): int { 2 * ns + 2 * nt }
    function TargetMassExchangePath(): int { 2 * ns + 2 * nt + 1 }
    function SourceCirculationPath(): int { 2 * ns + 2 * nt + 2 }
    function PathOffset(): int { 2 * ns + 2 * nt + 3 }
    function NumColumns(): int { numPaths + PathOffset() }
  }

  /** What a column of the LP stands for. */
  datatype ColumnKind =
    | SourceSupplyDistribution(id: int)
    | SourceSinkDistribution(id: int)
    | TargetSupplyDistribution(id: int)
    | TargetSinkDistribution(id: int)
    | SourceExchange
    | TargetExchange
    | SourceCirculation
    | PathColumn(index: int)

  /** The node id or arc index of c lies in its block. */
  predicate KindIn(L: Layout, c: ColumnKind) {
    match c
    case SourceSupplyDistribution(id) => 0 <= id < L.ns
    case SourceSinkDistribution(id) => 0 <= id < L.ns
    case TargetSupplyDistribution(id) => 0 <= id < L.nt
    case TargetSinkDistribution(id) => 0 <= id < L.nt
    case PathColumn(j) => 0 <= j < L.numPaths
    case _ => true
  }

  /** The column index createLP gives to c. */
  function ColumnIndex(L: Layout, c: ColumnKind): int {
    match c
    case SourceSupplyDistribution(id) => L.SourceMassSupplyDistributionStart() + id
    case SourceSinkDistribution(id) => L.SourceMassSinkDistributionStart() + id
    case TargetSupplyDistribution(id) => L.TargetMassSupplyDistributionStart() + id
    case TargetSinkDistribution(id) => L.TargetMassSinkDistributionStart() + id
    case SourceExchange => L.SourceMassExchangePath()
    case TargetExchange => L.TargetMassExchangePath()
    case SourceCirculation => L.SourceCirculationPath()
    case PathColumn(j) => L.PathOffset() + j
  }

  /** The kind of column k. */
  function KindOf(L: Layout, k: int): ColumnKind
    requires 0 <= k < L.NumColumns()
  {
    if k < L.SourceMassSinkDistributionStart() then SourceSupplyDistribution(k)
    else if k < L.TargetMassSupplyDistributionStart() then SourceSinkDistribution(k - L.ns)
    else if k < L.TargetMassSinkDistributionStart() then TargetSupplyDistribution(k - 2 * L.ns)
    else if k < L.SourceMassExchangePath() then TargetSinkDistribution(k - 2 * L.ns - L.nt)
    else if k == L.SourceMassExchangePath() then SourceExchange
    else if k == L.TargetMassExchangePath() then TargetExchange
    else if k == L.SourceCirculationPath() then SourceCirculation
    else PathColumn(k - L.PathOffset())
  }

  /**
   * The blocks partition the columns: every column index belongs to exactly
   * one kind, and every kind in range has exactly one column index below
   * the column count.
   */
  lemma ColumnLayout(L: Layout, k: int, c: ColumnKind)
    requires 0 <= k < L.NumColumns() && KindIn(L, c)
    ensures KindIn(L, KindOf(L, k)) && ColumnIndex(L, KindOf(L, k)) == k
    ensures 0 <= ColumnIndex(L, c) < L.NumColumns() && KindOf(L, ColumnIndex(L, c)) == c
  {
  }

  /** The bounds of the auxiliary rows and the upper bounds of the exchange and circulation columns. */
  datatype Unbalanced = Unbalanced(
    sourceSupply: real,
    sourceSink: real,
    targetSupply: real,
    targetSink: real,
    exchangeUpper: real,
    circulationUpper: real)

  /** The mass difference |S - T|. */
  function MassDelta(S: real, T: real): real {
    if S >= T then S - T else T - S
  }

  /**
   * The unbalanced-mass table of createLP for source mass S and target mass
   * T: where the difference enters or leaves, and how much the exchange and
   * circulation columns may carry.
   */
  function MassTable(tt: TransportType, S: real, T: real): Unbalanced {
    var delta := MassDelta(S, T);
    var none := Unbalanced(0.0, 0.0, 0.0, 0.0, 0.0, 0.0);
    match tt
    case BALANCED => none
    case UNBALANCED_ADD =>
      if S > T then none.(targetSink := -delta) else none.(sourceSupply := delta)
    case UNBALANCED_SUBTRACT =>
      if S > T then none.(sourceSink := -delta) else none.(targetSupply := delta)
    case UNBALANCED_SOURCE =>
      if S > T then none.(sourceSink := -delta) else none.(sourceSupply := delta)
    case UNBALANCED_FREE =>
      var total := RealMax(S, T);
      Unbalanced(total, -S, T, -total, total, 0.0)
    case UNBALANCED_FREE_SOURCE =>
      (if S > T then none.(sourceSink := -delta) else none.(sourceSupply := delta)).(circulationUpper := S)
  }

  /**
   * The auxiliary rows always hold T - S in total, except under BALANCED,
   * where they hold nothing.
   */
  lemma MassTableTotal(tt: TransportType, S: real, T: real)
    ensures var u := MassTable(tt, S, T);
      u.sourceSupply + u.sourceSink + u.targetSupply + u.targetSink == if tt == BALANCED then 0.0 else T - S
  {
  }

  /**
   * For non-negative masses the supply rows get non-negative bounds, the
   * sink rows non-positive ones and the columns non-negative upper bounds;
   * exchange is open only under UNBALANCED_FREE and circulation only under
   * UNBALANCED_FREE_SOURCE.
   */
  lemma MassTableSigns(tt: TransportType, S: real, T: real)
    requires S >= 0.0 && T >= 0.0
    ensures var u := MassTable(tt, S, T);
      && u.sourceSupply >= 0.0 && u.targetSupply >= 0.0
      && u.sourceSink <= 0.0 && u.targetSink <= 0.0
      && u.exchangeUpper >= 0.0 && u.circulationUpper >= 0.0
      && (u.exchangeUpper != 0.0 ==> tt == UNBALANCED_FREE)
      && (u.circulationUpper != 0.0 ==> tt == UNBALANCED_FREE_SOURCE)
  {
  }

  /** The masses of the nodes, in order. */
  ghost function Masses(nodes: seq<TransportNode>): (r: seq<real>)
    reads nodes
    ensures |r| == |nodes|
  {
    seq(|nodes|, i reads nodes requires 0 <= i < |nodes| => nodes[i].mass)
  }

  /** Node j of a level whose ids are its positions has id j and mass Masses(nodes)[j]. */
  lemma NodeAt(nodes: seq<TransportNode>)
    requires IdsArePositions(nodes)
    ensures forall j :: 0 <= j < |nodes| ==> nodes[j].id == j && nodes[j].mass == Masses(nodes)[j]
  {
  }

  /** The node ids of a level are the node positions. */
  predicate IdsArePositions(nodes: seq<TransportNode>) {
    forall i :: 0 <= i < |nodes| ==> nodes[i].id == i
  }

  /** Each entry negated. */
  function Negated(m: seq<real>): (r: seq<real>)
    ensures |r| == |m|
  {
    seq(|m|, i requires 0 <= i < |m| => -m[i])
  }

  /** The row bounds createLP sets: each source mass, each target mass negated, then the auxiliary rows. */
  function RowBounds(src: seq<real>, tgt: seq<real>, u: Unbalanced): (r: seq<real>)
    ensures |r| == |src| + |tgt| + 4
  {
    src + Negated(tgt) + [u.sourceSupply, u.sourceSink, u.targetSupply, u.targetSink]
  }

  lemma RowBoundAt(src: seq<real>, tgt: seq<real>, u: Unbalanced, r: int)
    requires 0 <= r < |src| + |tgt| + 4
    ensures var L := Layout(|src|, |tgt|, 0);
      RowBounds(src, tgt, u)[r] ==
        if r < |src| then src[r]
        else if r < |src| + |tgt| then -tgt[r - |src|]
        else if r == L.SourceMassSupplyNode() then u.sourceSupply
        else if r == L.SourceMassSinkNode() then u.sourceSink
        else if r == L.TargetMassSupplyNode() then u.targetSupply
        else u.targetSink
  {
  }

  lemma {:induction false} RealSumAppend(a: seq<real>, b: seq<real>)
    ensures RealSum(a + b) == RealSum(a) + RealSum(b)
  {
    if b != [] {
      var front := b[..|b| - 1];
      assert (a + b)[..|a + b| - 1] == a + front;
      assert (a + b)[|a + b| - 1] == b[|b| - 1];
      RealSumAppend(a, front);
      assert RealSum(b) == RealSum(front) + b[|b| - 1];
    } else {
      assert a + b == a;
    }
  }

  lemma {:induction false} RealSumNegated(m: seq<real>)
    ensures RealSum(Negated(m)) == -RealSum(m)
  {
    if m != [] {
      var front := m[..|m| - 1];
      assert Negated(m)[..|m| - 1] == Negated(front);
      RealSumNegated(front);
    }
  }

  /**
   * The row bounds of createLP balance: they sum to 0 under every
   * unbalanced transport type and to S - T under BALANCED.
   */
  lemma RowBoundsTotal(tt: TransportType, src: seq<real>, tgt: seq<real>)
    ensures var S, T := RealSum(src), RealSum(tgt);
      RealSum(RowBounds(src, tgt, MassTable(tt, S, T))) == if tt == BALANCED then S - T else 0.0
  {
    var S, T := RealSum(src), RealSum(tgt);
    var u := MassTable(tt, S, T);
    var aux := [u.sourceSupply, u.sourceSink, u.targetSupply, u.targetSink];
    RealSumAppend(src + Negated(tgt), aux);
    RealSumAppend(src, Negated(tgt));
    RealSumNegated(tgt);
    var a1, a2, a3 := [u.sourceSupply], [u.sourceSupply, u.sourceSink], [u.sourceSupply, u.sourceSink, u.targetSupply];
    assert a1[..0] == [] && a2[..1] == a1 && a3[..2] == a2 && aux[..3] == a3;
    assert RealSum(a1) == u.sourceSupply;
    assert RealSum(a2) == u.sourceSupply + u.sourceSink;
    assert RealSum(a3) == u.sourceSupply + u.sourceSink + u.targetSupply;
    MassTableTotal(tt, S, T);
  }

  /** A column: its two rows (coefficients 1 and -1), its bounds and its cost. */
  datatype Column = Column(s: int, t: int, lb: real, ub: real, cost: real)

  /** The column createLP writes for a kind other than an arc. */
  function FixedColumn(L: Layout, src: seq<real>, tgt: seq<real>, u: Unbalanced, massDeltaCost: real, c: ColumnKind): Column
    requires |src| == L.ns && |tgt| == L.nt && KindIn(L, c) && !c.PathColumn?
  {
    match c
    case SourceSupplyDistribution(id) =>
      Column(L.SourceMassSupplyNode(), L.SourceRow(id), 0.0, DistributionShare * src[id], massDeltaCost)
    case SourceSinkDistribution(id) =>
      Column(L.SourceRow(id), L.SourceMassSinkNode(), 0.0, DistributionShare * src[id], massDeltaCost)
    case TargetSupplyDistribution(id) =>
      Column(L.TargetMassSupplyNode(), L.TargetRow(id), 0.0, DistributionShare * tgt[id], massDeltaCost)
    case TargetSinkDistribution(id) =>
      Column(L.TargetRow(id), L.TargetMassSinkNode(), 0.0, DistributionShare * tgt[id], massDeltaCost)
    case SourceExchange =>
      Column(L.SourceMassSupplyNode(), L.TargetMassSinkNode(), 0.0, u.exchangeUpper, 0.0)
    case TargetExchange =>
      Column(L.TargetMassSupplyNode(), L.SourceMassSinkNode(), 0.0, u.exchangeUpper, 0.0)
    case SourceCirculation =>
      Column(L.SourceMassSinkNode(), L.SourceMassSupplyNode(), 0.0, u.circulationUpper, 0.0)
  }

  /** The column createLP writes for an arc: source row to target row, lower bound 0 and no upper bound, the arc's cost. */
  function ArcColumn(L: Layout, p: Path): Column {
    Column(L.SourceRow(p.from.id), L.TargetRow(p.to.id), 0.0, MaxDouble, p.cost)
  }

  /** Every column other than an arc's joins two different rows of the LP. */
  lemma FixedColumnEnds(L: Layout, src: seq<real>, tgt: seq<real>, u: Unbalanced, massDeltaCost: real, c: ColumnKind)
    requires |src| == L.ns && |tgt| == L.nt && KindIn(L, c) && !c.PathColumn?
    ensures var col := FixedColumn(L, src, tgt, u, massDeltaCost, c);
      0 <= col.s < L.NumRows() && 0 <= col.t < L.NumRows() && col.s != col.t
  {
  }

  /** The column of an arc between nodes of the two levels joins two different rows of the LP. */
  lemma ArcColumnEnds(L: Layout, p: Path)
    requires 0 <= p.from.id < L.ns && 0 <= p.to.id < L.nt
    ensures var col := ArcColumn(L, p);
      0 <= col.s < L.NumRows() && 0 <= col.t < L.NumRows() && col.s != col.t
  {
  }

  /** The columns held in the backend's five column arrays, in order. */
  function ColumnsOf(sInd: seq<int>, tInd: seq<int>, colLB: seq<real>, colUB: seq<real>, coeff: seq<real>): (r: seq<Column>)
    requires |tInd| == |sInd| && |colLB| == |sInd| && |colUB| == |sInd| && |coeff| == |sInd|
    ensures |r| == |sInd|
  {
    seq(|sInd|, k requires 0 <= k < |sInd| => Column(sInd[k], tInd[k], colLB[k], colUB[k], coeff[k]))
  }

  /** The columns of backend lp. */
  ghost function Columns(lp: LemonSolver): (r: seq<Column>)
    reads lp`sInd, lp`tInd, lp`colLB, lp`colUB, lp`coeff
    requires |lp.tInd| == |lp.sInd| && |lp.colLB| == |lp.sInd| && |lp.colUB| == |lp.sInd| && |lp.coeff| == |lp.sInd|
    ensures |r| == |lp.sInd|
  {
    ColumnsOf(lp.sInd, lp.tInd, lp.colLB, lp.colUB, lp.coeff)
  }

  /** Every arc of the creation order is stored. */
  ghost predicate Stored(ps: seq<map<int, Path>>, added: seq<Arc>) {
    forall j :: 0 <= j < |added| ==> Has(ps, added[j])
  }

  /** The columns of the layout other than the arcs', in column order. */
  function FixedColumns(L: Layout, src: seq<real>, tgt: seq<real>, u: Unbalanced, massDeltaCost: real): (r: seq<Column>)
    requires |src| == L.ns && |tgt| == L.nt
    ensures |r| == L.PathOffset()
  {
    seq(L.PathOffset(), k requires 0 <= k < L.PathOffset() => FixedColumn(L, src, tgt, u, massDeltaCost, KindOf(L, k)))
  }

  /** C with the entries of F at a, ..., a + i - 1 and at b, ..., b + i - 1. */
  function Overlay(C: seq<Column>, F: seq<Column>, a: int, b: int, i: int): (r: seq<Column>)
    requires 0 <= a && 0 <= b && 0 <= i && a + i <= |F| && b + i <= |F| && |F| <= |C|
    ensures |r| == |C|
  {
    seq(|C|, k requires 0 <= k < |C| => if a <= k < a + i || b <= k < b + i then F[k] else C[k])
  }

  /** One more entry of each block, written in either order. */
  lemma OverlayStep(C: seq<Column>, F: seq<Column>, a: int, b: int, i: int)
    requires 0 <= a && 0 <= b && 0 <= i && a + i < |F| && b + i < |F| && |F| <= |C|
    ensures Overlay(C, F, a, b, i + 1) == Overlay(C, F, a, b, i)[a + i := F[a + i]][b + i := F[b + i]]
    ensures Overlay(C, F, a, b, i + 1) == Overlay(C, F, a, b, i)[b + i := F[b + i]][a + i := F[a + i]]
  {
  }

  /** C with the entries of F at lo, ..., hi - 1. */
  function Block(C: seq<Column>, F: seq<Column>, lo: int, hi: int): (r: seq<Column>)
    requires 0 <= lo <= hi <= |F| <= |C|
    ensures |r| == |C|
  {
    seq(|C|, k requires 0 <= k < |C| => if lo <= k < hi then F[k] else C[k])
  }

  /** Two interleaved blocks of n entries, side by side, are one block of 2n entries. */
  lemma OverlayBlock(C: seq<Column>, F: seq<Column>, a: int, n: int)
    requires 0 <= a && 0 <= n && a + 2 * n <= |F| <= |C|
    ensures Overlay(C, F, a, a + n, n) == Block(C, F, a, a + 2 * n)
  {
  }

  /** The two distribution blocks of each level and the exchange and circulation block cover the fixed columns. */
  lemma FixedBlocks(C: seq<Column>, F: seq<Column>, L: Layout)
    requires |F| == L.PathOffset() <= |C|
    ensures Block(Block(Block(C, F, L.SourceMassExchangePath(), L.PathOffset()), F, 0, 2 * L.ns),
                  F, 2 * L.ns, L.SourceMassExchangePath())[..L.PathOffset()] == F
  {
  }

  /** M with the entries of V at rows lo, ..., hi - 1. */
  function RowBlock(M: seq<real>, V: seq<real>, lo: int, hi: int): (r: seq<real>)
    requires 0 <= lo <= hi <= |V| == |M|
    ensures |r| == |M|
  {
    seq(|M|, k requires 0 <= k < |M| => if lo <= k < hi then V[k] else M[k])
  }

  lemma RowBlockStep(M: seq<real>, V: seq<real>, lo: int, hi: int)
    requires 0 <= lo <= hi < |V| == |M|
    ensures RowBlock(M, V, lo, hi + 1) == RowBlock(M, V, lo, hi)[hi := V[hi]]
  {
  }

  /** The source rows, the target rows and the auxiliary rows cover all rows. */
  lemma RowBlocks(M: seq<real>, V: seq<real>, L: Layout)
    requires |M| == |V| == L.NumRows()
    ensures RowBlock(RowBlock(RowBlock(M, V, L.ns + L.nt, L.NumRows()), V, 0, L.ns), V, L.ns, L.ns + L.nt) == V
  {
  }

  /** The two distribution columns of source id. */
  lemma SourceColumns(L: Layout, src: seq<real>, tgt: seq<real>, u: Unbalanced, massDeltaCost: real, id: int)
    requires |src| == L.ns && |tgt| == L.nt && 0 <= id < L.ns
    ensures var F := FixedColumns(L, src, tgt, u, massDeltaCost);
      && F[id] == Column(L.ns + L.nt, id, 0.0, DistributionShare * src[id], massDeltaCost)
      && F[L.ns + id] == Column(id, L.ns + L.nt + 1, 0.0, DistributionShare * src[id], massDeltaCost)
  {
  }

  /** The two distribution columns of target id. */
  lemma TargetColumns(L: Layout, src: seq<real>, tgt: seq<real>, u: Unbalanced, massDeltaCost: real, id: int)
    requires |src| == L.ns && |tgt| == L.nt && 0 <= id < L.nt
    ensures var F := FixedColumns(L, src, tgt, u, massDeltaCost);
      && F[2 * L.ns + L.nt + id] == Column(L.ns + id, L.ns + L.nt + 3, 0.0, DistributionShare * tgt[id], massDeltaCost)
      && F[2 * L.ns + id] == Column(L.ns + L.nt + 2, L.ns + id, 0.0, DistributionShare * tgt[id], massDeltaCost)
  {
  }

  /** The arc columns, one per arc of ps in creation order added. */
  ghost function ArcColumns(L: Layout, ps: seq<map<int, Path>>, added: seq<Arc>): (r: seq<Column>)
    requires Stored(ps, added)
    ensures |r| == |added|
  {
    seq(|added|, j requires 0 <= j < |added| => ArcColumn(L, Get(ps, added[j])))
  }

  /**
   * The columns createLP builds for masses src and tgt, table u, mass cost
   * massDeltaCost and the arcs of ps in creation order added: the fixed
   * columns of the layout, then one column per arc.
   */
  ghost function LPColumns(L: Layout, src: seq<real>, tgt: seq<real>, u: Unbalanced, massDeltaCost: real,
                           ps: seq<map<int, Path>>, added: seq<Arc>): (r: seq<Column>)
    requires |src| == L.ns && |tgt| == L.nt && |added| == L.numPaths && Stored(ps, added)
    ensures |r| == L.NumColumns()
  {
    FixedColumns(L, src, tgt, u, massDeltaCost) + ArcColumns(L, ps, added)
  }

  /** Column k of LPColumns: a fixed column below the arc offset, the column of arc k - offset from it on. */
  lemma LPColumnAt(L: Layout, src: seq<real>, tgt: seq<real>, u: Unbalanced, massDeltaCost: real,
                   ps: seq<map<int, Path>>, added: seq<Arc>, k: int)
    requires |src| == L.ns && |tgt| == L.nt && |added| == L.numPaths && Stored(ps, added)
    requires 0 <= k < L.NumColumns()
    ensures LPColumns(L, src, tgt, u, massDeltaCost, ps, added)[k] ==
      if k < L.PathOffset() then FixedColumn(L, src, tgt, u, massDeltaCost, KindOf(L, k))
      else ArcColumn(L, Get(ps, added[k - L.PathOffset()]))
  {
  }

  /**
   * Every column of the LP of a well-keyed plan joins two different rows:
   * the network the backend builds from it has every arc inside its graph.
   */
  lemma LPColumnsInGraph(L: Layout, src: seq<real>, tgt: seq<real>, u: Unbalanced, massDeltaCost: real,
                         ps: seq<map<int, Path>>, added: seq<Arc>)
    requires |src| == L.ns && |tgt| == L.nt && |added| == L.numPaths && Stored(ps, added)
    requires |ps| == L.ns && WellKeyed(ps, L.nt)
    ensures var cs := LPColumns(L, src, tgt, u, massDeltaCost, ps, added);
      forall k :: 0 <= k < |cs| ==> 0 <= cs[k].s < L.NumRows() && 0 <= cs[k].t < L.NumRows() && cs[k].s != cs[k].t
  {
    var cs := LPColumns(L, src, tgt, u, massDeltaCost, ps, added);
    forall k | 0 <= k < |cs|
      ensures 0 <= cs[k].s < L.NumRows() && 0 <= cs[k].t < L.NumRows() && cs[k].s != cs[k].t
    {
      if k < L.PathOffset() {
        ColumnLayout(L, k, KindOf(L, k));
        FixedColumnEnds(L, src, tgt, u, massDeltaCost, KindOf(L, k));
      } else {
        ArcColumnEnds(L, Get(ps, added[k - L.PathOffset()]));
      }
    }
  }

  /** The backend has m rows and n columns. */
  ghost predicate Sized(lp: LemonSolver, m: int, n: int)
    reads lp`sInd, lp`tInd, lp`coeff, lp`primal, lp`colLB, lp`colUB, lp`colStatus, lp`mass, lp`rowStatus, lp`dual
  {
    lp.Valid() && |lp.mass| == m && |lp.sInd| == n
  }

  /** A new LP's solution and basis: every column at 0 and LOWER, every row with dual 0 and BASIC. */
  ghost predicate StartBasis(lp: LemonSolver)
    reads lp`primal, lp`colStatus, lp`dual, lp`rowStatus
  {
    && (forall k :: 0 <= k < |lp.primal| ==> lp.primal[k] == 0.0)
    && (forall k :: 0 <= k < |lp.colStatus| ==> lp.colStatus[k] == LOWER)
    && (forall r :: 0 <= r < |lp.dual| ==> lp.dual[r] == 0.0)
    && (forall r :: 0 <= r < |lp.rowStatus| ==> lp.rowStatus[r] == BASIC)
  }

  /**
   * The statuses s after the statuses cs are written to positions offset,
   * offset + 1, ...: those positions hold cs and every other keeps its status.
   */
  function PlaceStatuses(s: seq<Status>, cs: seq<Status>, offset: int): (r: seq<Status>)
    requires 0 <= offset && offset + |cs| <= |s|
    ensures |r| == |s|
    ensures forall i :: 0 <= i < |cs| ==> r[offset + i] == cs[i]
    ensures forall k :: 0 <= k < |s| && !(offset <= k < offset + |cs|) ==> r[k] == s[k]
  {
    s[..offset] + cs + s[offset + |cs|..]
  }

  /**
   * setupBasis as written places arc column i's status on backend column i,
   * not on pathOffset + i where getColumnStatus(i) reads it: with two LOWER
   * columns, pathOffset 1 and the arc statuses [BASIC], arc column 0 still
   * reads LOWER, where writing from the offset makes it read BASIC.
   */
  lemma BasisMissesArcColumns()
    ensures var s, cs := [LOWER, LOWER], [BASIC];
      && (cs + s[|cs|..])[1 + 0] == LOWER
      && PlaceStatuses(s, cs, 1)[1 + 0] == BASIC
  {
  }

  /** The sum of the masses of nodes. */
  method NodeMassSum(nodes: seq<TransportNode>) returns (s: real)
    ensures s == RealSum(Masses(nodes))
  {
    ghost var m := Masses(nodes);
    s := 0.0;
    var i := 0;
    while i < |nodes|
      invariant 0 <= i <= |nodes|
      invariant s == RealSum(m[..i])
    {
      assert m[..i + 1][..i] == m[..i];
      s := s + nodes[i].mass;
      i := i + 1;
    }
    assert m[..i] == m;
  }

  class TransportLPSolver {
    /** The column of arc 0. */
    var pathOffset: int
    var sourceMassSupplyDistributionStart: int
    var sourceMassSinkDistributionStart: int
    var targetMassSupplyDistributionStart: int
    var targetMassSinkDistributionStart: int
    var sourceMassExchangePath: int
    var targetMassExchangePath: int
    var sourceCirculationPath: int
    var sourceMassSupplyNode: int
    var sourceMassSinkNode: int
    var targetMassSupplyNode: int
    var targetMassSinkNode: int

    const transportType: TransportType
    const massDeltaCost: real
    /** Kept by the constructor; no bound uses it. */
    const lambda: real
    const solver: LemonSolver
    var lastScale: bool

    /** The index fields hold layout L. */
    ghost predicate LaidOut(L: Layout)
      reads this
    {
      && pathOffset == L.PathOffset()
      && sourceMassSupplyDistributionStart == L.SourceMassSupplyDistributionStart()
      && sourceMassSinkDistributionStart == L.SourceMassSinkDistributionStart()
      && targetMassSupplyDistributionStart == L.TargetMassSupplyDistributionStart()
      && targetMassSinkDistributionStart == L.TargetMassSinkDistributionStart()
      && sourceMassExchangePath == L.SourceMassExchangePath()
      && targetMassExchangePath == L.TargetMassExchangePath()
      && sourceCirculationPath == L.SourceCirculationPath()
      && sourceMassSupplyNode == L.SourceMassSupplyNode()
      && sourceMassSinkNode == L.SourceMassSinkNode()
      && targetMassSupplyNode == L.TargetMassSupplyNode()
      && targetMassSinkNode == L.TargetMassSinkNode()
    }

    /** A new LP layer over lpSolver; its index fields are 0 until createLP. */
    constructor (lpSolver: LemonSolver, tt: TransportType, massCost: real := 0.0, l: real := 0.0)
      ensures solver == lpSolver && transportType == tt && massDeltaCost == massCost && lambda == l
      ensures !lastScale && pathOffset == 0
    {
      solver := lpSolver;
      transportType := tt;
      massDeltaCost := massCost;
      lambda := l;
      lastScale := false;
      pathOffset := 0;
      sourceMassSupplyDistributionStart, sourceMassSinkDistributionStart := 0, 0;
      targetMassSupplyDistributionStart, targetMassSinkDistributionStart := 0, 0;
      sourceMassExchangePath, targetMassExchangePath, sourceCirculationPath := 0, 0, 0;
      sourceMassSupplyNode, sourceMassSinkNode, targetMassSupplyNode, targetMassSinkNode := 0, 0, 0, 0;
    }

    method SetLastScale(last: bool)
      modifies this`lastScale
      ensures lastScale == last
    {
      lastScale := last;
    }

    /**
     * createLP: the backend holds exactly the LP of plan sol. Its rows carry
     * the node masses (targets negated) and the unbalanced-mass table; its
     * columns follow the layout, each arc of index j in column pathOffset + j;
     * every primal and dual is 0, every column LOWER and every row BASIC.
     */
    method CreateLP(sol: TransportPlan)
      requires sol.Valid() && sol.Dense()
      requires |sol.paths| == |sol.source.nodes| && |sol.toPathCounts| == |sol.target.nodes|
      requires IdsArePositions(sol.source.nodes) && IdsArePositions(sol.target.nodes)
      modifies this`pathOffset, this`sourceMassSupplyDistributionStart, this`sourceMassSinkDistributionStart
      modifies this`targetMassSupplyDistributionStart, this`targetMassSinkDistributionStart
      modifies this`sourceMassExchangePath, this`targetMassExchangePath, this`sourceCirculationPath
      modifies this`sourceMassSupplyNode, this`sourceMassSinkNode, this`targetMassSupplyNode, this`targetMassSinkNode
      modifies solver`sInd, solver`tInd, solver`coeff, solver`primal, solver`colStatus, solver`colLB, solver`colUB
      modifies solver`mass, solver`rowStatus, solver`dual, solver`ns, solver`nt
      modifies sol`outer, sol`inner
      ensures unchanged(sol`paths, sol`toPathCounts, sol`pathCounter, sol`added)
      ensures var L := Layout(|sol.source.nodes|, |sol.target.nodes|, |sol.added|);
        var src, tgt := old(Masses(sol.source.nodes)), old(Masses(sol.target.nodes));
        var u := MassTable(transportType, RealSum(src), RealSum(tgt));
        && LaidOut(L)
        && Sized(solver, L.NumRows(), L.NumColumns())
        && solver.mass == RowBounds(src, tgt, u)
        && Stored(sol.paths, sol.added)
        && Columns(solver) == LPColumns(L, src, tgt, u, massDeltaCost, sol.paths, sol.added)
        && solver.ns == L.ns + 3 && solver.nt == L.nt + 3
      ensures StartBasis(solver) && solver.ArcsInGraph()
    {
      ghost var src, tgt := Masses(sol.source.nodes), Masses(sol.target.nodes);
      var ns := |sol.source.nodes|;
      var nt := |sol.target.nodes|;
      var massSource := NodeMassSum(sol.source.nodes);
      var massTarget := NodeMassSum(sol.target.nodes);
      assert massSource == RealSum(src) && massTarget == RealSum(tgt);
      ghost var L := Layout(ns, nt, |sol.added|);
      var u := MassTable(transportType, massSource, massTarget);
      BuildLP(this, sol, L, u, src, tgt);
    }

    /** The row and column indices createLP assigns for ns sources and nt targets. */
    method SetLayout(ns: int, nt: int, ghost L: Layout)
      requires L.ns == ns && L.nt == nt
      modifies this`pathOffset, this`sourceMassSupplyDistributionStart, this`sourceMassSinkDistributionStart
      modifies this`targetMassSupplyDistributionStart, this`targetMassSinkDistributionStart
      modifies this`sourceMassExchangePath, this`targetMassExchangePath, this`sourceCirculationPath
      modifies this`sourceMassSupplyNode, this`sourceMassSinkNode, this`targetMassSupplyNode, this`targetMassSinkNode
      ensures LaidOut(L)
    {
      sourceMassSupplyNode := ns + nt + 0;
      sourceMassSinkNode := ns + nt + 1;
      targetMassSupplyNode := ns + nt + 2;
      targetMassSinkNode := ns + nt + 3;
      sourceMassSupplyDistributionStart := 0;
      sourceMassSinkDistributionStart := ns;
      targetMassSupplyDistributionStart := 2 * ns;
      targetMassSinkDistributionStart := 2 * ns + nt;
      var distributionEnd := targetMassSupplyDistributionStart + 2 * nt;
      sourceMassExchangePath := distributionEnd;
      targetMassExchangePath := distributionEnd + 1;
      sourceCirculationPath := distributionEnd + 2;
      pathOffset := distributionEnd + 3;
    }

    /**
     * storeLP: the plan's cost becomes the p-th root of the objective; every
     * arc of index j gets the primal of column pathOffset + j as its weight;
     * each target node gets the dual of row ns + id as its potential and
     * each other source node the dual of row id.
     */
    method StoreLP(sol: TransportPlan, p: real, pow: Power)
      requires p != 0.0 && sol.Valid()
      requires forall a :: Has(sol.paths, a) ==> 0 <= pathOffset + Get(sol.paths, a).index < |solver.primal|
      requires forall n :: n in sol.source.nodes ==> 0 <= n.id < |solver.dual|
      requires forall n :: n in sol.target.nodes ==> 0 <= |sol.source.nodes| + n.id < |solver.dual|
      modifies sol`cost, sol`paths, sol`outer, sol`inner
      modifies (set n | n in sol.source.nodes)`potential, (set n | n in sol.target.nodes)`potential
      ensures sol.cost == pow(solver.objValue, 1.0 / p)
      ensures sol.Valid() && |sol.paths| == |old(sol.paths)| && (old(sol.Dense()) ==> sol.Dense())
      ensures forall a :: Has(sol.paths, a) <==> Has(old(sol.paths), a)
      ensures forall a :: Has(old(sol.paths), a) ==>
        Get(sol.paths, a) == Get(old(sol.paths), a).(w := solver.primal[pathOffset + Get(old(sol.paths), a).index])
      ensures forall n :: n in sol.target.nodes ==> n.potential == solver.dual[|sol.source.nodes| + n.id]
      ensures forall n :: n in sol.source.nodes && n !in sol.target.nodes ==> n.potential == solver.dual[n.id]
    {
      sol.cost := pow(GetObjectiveValue(), 1.0 / p);
      ghost var P := sol.paths;
      StoreWeights(this, sol);
      forall a | Has(P, a)
        ensures a in ArcSet(P)
      {
        InArcSet(P, a);
      }
      var offset := |sol.source.nodes|;
      StorePotentials(solver, sol.source.nodes, sol.target.nodes, offset, false);
    }

    /**
     * setPotentials: as the potential part of storeLP, and each node's pi
     * bounds are both set to its potential.
     */
    method SetPotentials(sourceNodes: seq<TransportNode>, targetNodes: seq<TransportNode>)
      requires forall n :: n in sourceNodes ==> 0 <= n.id < |solver.dual|
      requires forall n :: n in targetNodes ==> 0 <= |sourceNodes| + n.id < |solver.dual|
      modifies (set n | n in sourceNodes)`potential, (set n | n in sourceNodes)`piMin, (set n | n in sourceNodes)`piMax
      modifies (set n | n in targetNodes)`potential, (set n | n in targetNodes)`piMin, (set n | n in targetNodes)`piMax
      ensures forall n :: n in targetNodes ==>
        var pi := solver.dual[|sourceNodes| + n.id]; n.potential == pi && n.piMin == pi && n.piMax == pi
      ensures forall n :: n in sourceNodes && n !in targetNodes ==>
        var pi := solver.dual[n.id]; n.potential == pi && n.piMin == pi && n.piMax == pi
    {
      StorePotentials(solver, sourceNodes, targetNodes, |sourceNodes|, true);
    }

    /** setupBasis: the given statuses go to columns and rows 0, 1, ..., with no arc offset. */
    method SetupBasis(colStatus: seq<Status>, rowStatus: seq<Status>)
      requires |colStatus| <= |solver.colStatus| && |rowStatus| <= |solver.rowStatus|
      modifies solver`colStatus, solver`rowStatus
      ensures solver.colStatus == colStatus + old(solver.colStatus)[|colStatus|..]
      ensures solver.rowStatus == rowStatus + old(solver.rowStatus)[|rowStatus|..]
    {
      var i := 0;
      while i < |colStatus|
        invariant 0 <= i <= |colStatus|
        invariant solver.colStatus == colStatus[..i] + old(solver.colStatus)[i..]
        invariant solver.rowStatus == old(solver.rowStatus)
      {
        solver.SetColumnStatus(i, colStatus[i]);
        assert colStatus[..i + 1] == colStatus[..i] + [colStatus[i]];
        i := i + 1;
      }
      i := 0;
      while i < |rowStatus|
        invariant 0 <= i <= |rowStatus|
        invariant solver.colStatus == colStatus + old(solver.colStatus)[|colStatus|..]
        invariant solver.rowStatus == rowStatus[..i] + old(solver.rowStatus)[i..]
      {
        solver.SetRowStatus(i, rowStatus[i]);
        assert rowStatus[..i + 1] == rowStatus[..i] + [rowStatus[i]];
        i := i + 1;
      }
      assert colStatus[..|colStatus|] == colStatus;
      assert rowStatus[..|rowStatus|] == rowStatus;
    }

    /**
     * setupBasis with arc column i addressed as backend column
     * pathOffset + i, the column every other arc accessor addresses:
     * reading the basis back with getColumnStatus gives the statuses set.
     */
    method SetupArcBasis(colStatus: seq<Status>, rowStatus: seq<Status>)
      requires 0 <= pathOffset && pathOffset + |colStatus| <= |solver.colStatus| && |rowStatus| <= |solver.rowStatus|
      modifies solver`colStatus, solver`rowStatus
      ensures solver.colStatus == PlaceStatuses(old(solver.colStatus), colStatus, pathOffset)
      ensures solver.rowStatus == PlaceStatuses(old(solver.rowStatus), rowStatus, 0)
      ensures forall i :: 0 <= i < |colStatus| ==> GetColumnStatus(i) == colStatus[i]
    {
      var i := 0;
      while i < |colStatus|
        invariant 0 <= i <= |colStatus|
        invariant solver.colStatus == PlaceStatuses(old(solver.colStatus), colStatus[..i], pathOffset)
        invariant solver.rowStatus == old(solver.rowStatus)
      {
        SetColumnStatus(i, colStatus[i]);
        assert colStatus[..i + 1] == colStatus[..i] + [colStatus[i]];
        i := i + 1;
      }
      i := 0;
      while i < |rowStatus|
        invariant 0 <= i <= |rowStatus|
        invariant solver.colStatus == PlaceStatuses(old(solver.colStatus), colStatus, pathOffset)
        invariant solver.rowStatus == PlaceStatuses(old(solver.rowStatus), rowStatus[..i], 0)
      {
        SetRowStatus(i, rowStatus[i]);
        assert rowStatus[..i + 1] == rowStatus[..i] + [rowStatus[i]];
        i := i + 1;
      }
      assert colStatus[..|colStatus|] == colStatus;
      assert rowStatus[..|rowStatus|] == rowStatus;
    }

    /** The accessors below address arc column col as backend column pathOffset + col. */
    method SetColumnBoundsLower(col: int, lb: real)
      requires 0 <= pathOffset + col < |solver.colLB| && pathOffset + col < |solver.colUB|
      modifies solver`colLB, solver`colUB
      ensures solver.colLB == old(solver.colLB)[pathOffset + col := lb]
      ensures solver.colUB == old(solver.colUB)[pathOffset + col := MaxDouble]
    {
      solver.SetColumnBoundsLower(pathOffset + col, lb);
    }

    method SetColumnBounds(col: int, lb: real, ub: real)
      requires 0 <= pathOffset + col < |solver.colLB| && pathOffset + col < |solver.colUB|
      modifies solver`colLB, solver`colUB
      ensures solver.colLB == old(solver.colLB)[pathOffset + col := lb]
      ensures solver.colUB == old(solver.colUB)[pathOffset + col := ub]
    {
      solver.SetColumnBounds(pathOffset + col, lb, ub);
    }

    method SetColumnObjective(col: int, cost: real)
      requires 0 <= pathOffset + col < |solver.coeff|
      modifies solver`coeff
      ensures solver.coeff == old(solver.coeff)[pathOffset + col := cost]
    {
      solver.SetColumnObjective(pathOffset + col, cost);
    }

    method SetColumnCoefficients(col: int, s: int, t: int)
      requires 0 <= pathOffset + col < |solver.sInd| && pathOffset + col < |solver.tInd|
      modifies solver`sInd, solver`tInd
      ensures solver.sInd == old(solver.sInd)[pathOffset + col := s]
      ensures solver.tInd == old(solver.tInd)[pathOffset + col := t]
    {
      solver.SetColumnCoefficients(pathOffset + col, s, t);
    }

    function GetColumnPrimal(col: int): real
      requires 0 <= pathOffset + col < |solver.primal|
      reads this, solver
    {
      solver.GetColumnPrimal(pathOffset + col)
    }

    function GetColumnStatus(col: int): Status
      requires 0 <= pathOffset + col < |solver.colStatus|
      reads this, solver
    {
      solver.GetColumnStatus(pathOffset + col)
    }

    method SetColumnStatus(col: int, s: Status)
      requires 0 <= pathOffset + col < |solver.colStatus|
      modifies solver`colStatus
      ensures solver.colStatus == old(solver.colStatus)[pathOffset + col := s]
    {
      solver.SetColumnStatus(pathOffset + col, s);
    }

    method GetColumn(col: int) returns (count: int, ind: seq<int>, val: seq<real>)
      requires 0 <= pathOffset + col < |solver.sInd| && |solver.tInd| == |solver.sInd|
      ensures count == 2 && ind == [solver.sInd[pathOffset + col], solver.tInd[pathOffset + col]] && val == [1.0, -1.0]
    {
      count, ind, val := solver.GetColumn(pathOffset + col);
    }

    /** addColumns(n) is the backend's: n new columns after all others. */
    method AddColumns(n: int)
      requires n >= 0
      modifies solver`sInd, solver`tInd, solver`coeff, solver`primal, solver`colStatus, solver`colLB, solver`colUB
      ensures solver.sInd == old(solver.sInd) + seq(n, _ => -1) && solver.tInd == old(solver.tInd) + seq(n, _ => -1)
      ensures solver.coeff == old(solver.coeff) + seq(n, _ => 0.0) && solver.primal == old(solver.primal) + seq(n, _ => 0.0)
      ensures solver.colStatus == old(solver.colStatus) + seq(n, _ => LOWER)
      ensures solver.colLB == old(solver.colLB) + seq(n, _ => 0.0) && solver.colUB == old(solver.colUB) + seq(n, _ => 1.0)
    {
      solver.AddColumns(n);
    }

    /** The row accessors address backend rows directly. */
    function GetRowStatus(row: int): Status
      requires 0 <= row < |solver.rowStatus|
      reads solver
    {
      solver.GetRowStatus(row)
    }

    method SetRowStatus(row: int, s: Status)
      requires 0 <= row < |solver.rowStatus|
      modifies solver`rowStatus
      ensures solver.rowStatus == old(solver.rowStatus)[row := s]
    {
      solver.SetRowStatus(row, s);
    }

    function GetRowDual(row: int): real
      requires 0 <= row < |solver.dual|
      reads solver
    {
      solver.GetRowDual(row)
    }

    /** solveLP is the backend's. */
    method SolveLP()
      requires solver.Valid() && solver.ArcsInGraph() && MaxCapacity(solver.mass) > 0.0
      modifies solver`success, solver`objValue, solver`iCount, solver`primal, solver`dual
      ensures solver.Valid() && solver.iCount == 1
      ensures Outcome(solver.success, solver.objValue, solver.primal, solver.dual)
           == SolveOutcome(solver.simplex, solver.sInd, solver.tInd, solver.coeff, solver.mass, solver.colLB, solver.colUB,
                           |old(solver.primal)|, |old(solver.dual)|)
    {
      solver.SolveLP();
    }

    function IsOptimal(): bool
      reads solver
    {
      solver.IsOptimal()
    }

    function GetNumberOfRows(): int
      reads solver
    {
      solver.GetNumberOfRows()
    }

    function GetNumberOfColumns(): int
      reads solver
    {
      solver.GetNumberOfColumns()
    }

    function GetObjectiveValue(): real
      reads solver
    {
      solver.GetObjectiveValue()
    }

    function GetIterationCount(): int
      reads solver
    {
      solver.GetIterationCount()
    }

    method SetupStandardBasis()
      requires solver.Valid()
      modifies solver`colStatus, solver`rowStatus
      ensures solver.colStatus == seq(|old(solver.colStatus)|, _ => LOWER)
      ensures solver.rowStatus == seq(|old(solver.rowStatus)|, _ => BASIC)
      ensures solver.Valid()
    {
      solver.SetupStandardBasis();
    }
  }


  /**
   * The backend calls that size the LP of createLP: a new problem for
   * ns + 3 sources and nt + 3 targets, ns + nt + 4 rows and nColumns columns.
   */
  method SizeLP(lp: LemonSolver, ns: int, nt: int, nColumns: int)
    requires ns >= 0 && nt >= 0 && nColumns >= 0
    modifies lp`sInd, lp`tInd, lp`coeff, lp`primal, lp`colStatus, lp`colLB, lp`colUB
    modifies lp`mass, lp`rowStatus, lp`dual, lp`ns, lp`nt
    ensures Sized(lp, ns + nt + 4, nColumns) && lp.ns == ns + 3 && lp.nt == nt + 3
    ensures StartBasis(lp) && forall r :: 0 <= r < ns + nt + 4 ==> lp.mass[r] == 0.0
  {
    lp.CreateLP(ns + 3, nt + 3);
    lp.AddRows(ns + nt + 4);
    lp.AddColumns(nColumns);
  }

  /** setColumnBounds, setColumnObjective and setColumnCoefficients on column k: column k becomes c. */
  method SetColumn(lp: LemonSolver, k: int, c: Column)
    requires lp.Valid() && 0 <= k < |lp.sInd|
    modifies lp`sInd, lp`tInd, lp`coeff, lp`colLB, lp`colUB
    ensures lp.Valid() && Columns(lp) == old(Columns(lp))[k := c]
  {
    lp.SetColumnBounds(k, c.lb, c.ub);
    lp.SetColumnObjective(k, c.cost);
    lp.SetColumnCoefficients(k, c.s, c.t);
  }

  /** A distribution column: setColumnBoundsLower first, then the three calls of SetColumn. */
  method SetDistributionColumn(lp: LemonSolver, k: int, c: Column)
    requires lp.Valid() && 0 <= k < |lp.sInd|
    modifies lp`sInd, lp`tInd, lp`coeff, lp`colLB, lp`colUB
    ensures lp.Valid() && Columns(lp) == old(Columns(lp))[k := c]
  {
    ghost var before := Columns(lp);
    lp.SetColumnBoundsLower(k, c.lb);
    assert Columns(lp) == before[k := Column(lp.sInd[k], lp.tInd[k], c.lb, MaxDouble, lp.coeff[k])];
    SetColumn(lp, k, c);
  }

  /** createLP once the masses are summed: size the backend, assign the layout, then fill its rows and columns. */
  method BuildLP(tls: TransportLPSolver, sol: TransportPlan, ghost L: Layout, u: Unbalanced, ghost src: seq<real>, ghost tgt: seq<real>)
    requires sol.Valid() && sol.Dense() && L == Layout(|sol.source.nodes|, |sol.target.nodes|, |sol.added|)
    requires |sol.paths| == L.ns && |sol.toPathCounts| == L.nt
    requires IdsArePositions(sol.source.nodes) && IdsArePositions(sol.target.nodes)
    requires src == Masses(sol.source.nodes) && tgt == Masses(sol.target.nodes)
    modifies tls`pathOffset, tls`sourceMassSupplyDistributionStart, tls`sourceMassSinkDistributionStart
    modifies tls`targetMassSupplyDistributionStart, tls`targetMassSinkDistributionStart
    modifies tls`sourceMassExchangePath, tls`targetMassExchangePath, tls`sourceCirculationPath
    modifies tls`sourceMassSupplyNode, tls`sourceMassSinkNode, tls`targetMassSupplyNode, tls`targetMassSinkNode
    modifies tls.solver`sInd, tls.solver`tInd, tls.solver`coeff, tls.solver`primal, tls.solver`colStatus, tls.solver`colLB, tls.solver`colUB
    modifies tls.solver`mass, tls.solver`rowStatus, tls.solver`dual, tls.solver`ns, tls.solver`nt
    modifies sol`outer, sol`inner
    ensures tls.LaidOut(L) && Sized(tls.solver, L.NumRows(), L.NumColumns())
    ensures tls.solver.mass == RowBounds(src, tgt, u) && Stored(sol.paths, sol.added)
    ensures Columns(tls.solver) == LPColumns(L, src, tgt, u, tls.massDeltaCost, sol.paths, sol.added)
    ensures tls.solver.ns == L.ns + 3 && tls.solver.nt == L.nt + 3
    ensures StartBasis(tls.solver) && tls.solver.ArcsInGraph()
  {
    var ns, nt := |sol.source.nodes|, |sol.target.nodes|;
    SizeLP(tls.solver, ns, nt, sol.GetNumberOfPaths() + 2 * ns + 2 * nt + 3);
    tls.SetLayout(ns, nt, L);
    FillLP(tls, sol, L, u, src, tgt);
  }

  /**
   * The setter calls of createLP after the backend is sized: the auxiliary
   * rows and columns, the distribution blocks of the sources and of the
   * targets, and the arc columns.
   */
  method FillLP(tls: TransportLPSolver, sol: TransportPlan, ghost L: Layout, u: Unbalanced, ghost src: seq<real>, ghost tgt: seq<real>)
    requires sol.Valid() && sol.Dense() && L == Layout(|sol.source.nodes|, |sol.target.nodes|, |sol.added|)
    requires |sol.paths| == L.ns && |sol.toPathCounts| == L.nt
    requires IdsArePositions(sol.source.nodes) && IdsArePositions(sol.target.nodes)
    requires src == Masses(sol.source.nodes) && tgt == Masses(sol.target.nodes)
    requires tls.LaidOut(L) && Sized(tls.solver, L.NumRows(), L.NumColumns())
    modifies tls.solver`sInd, tls.solver`tInd, tls.solver`coeff, tls.solver`colLB, tls.solver`colUB, tls.solver`mass
    modifies sol`outer, sol`inner
    ensures Sized(tls.solver, L.NumRows(), L.NumColumns()) && Stored(sol.paths, sol.added)
    ensures tls.solver.mass == RowBounds(src, tgt, u)
    ensures Columns(tls.solver) == LPColumns(L, src, tgt, u, tls.massDeltaCost, sol.paths, sol.added)
    ensures tls.solver.ArcsInGraph()
  {
    var lp := tls.solver;
    ghost var M0, C0 := lp.mass, Columns(lp);
    ghost var R, F := RowBounds(src, tgt, u), FixedColumns(L, src, tgt, u, tls.massDeltaCost);
    NodeAt(sol.source.nodes);
    NodeAt(sol.target.nodes);
    SetAuxiliary(tls, L, src, tgt, u);
    SourceDistribution(tls, L, sol.source.nodes, src, tgt, u);
    var offset := |sol.source.nodes|;
    TargetDistribution(tls, L, sol.target.nodes, offset, src, tgt, u);
    RowBlocks(M0, R, L);
    FixedBlocks(C0, F, L);
    assert Indexed(sol.paths, sol.added);
    FillArcColumns(tls, sol, L);
    ghost var want := LPColumns(L, src, tgt, u, tls.massDeltaCost, sol.paths, sol.added);
    assert Columns(lp) == want;
    LPColumnsInGraph(L, src, tgt, u, tls.massDeltaCost, sol.paths, sol.added);
    forall k | 0 <= k < |lp.sInd|
      ensures 0 <= lp.sInd[k] <= |lp.mass| && 0 <= lp.tInd[k] <= |lp.mass|
    {
      assert lp.sInd[k] == want[k].s && lp.tInd[k] == want[k].t;
    }
  }

  /** Three entries of F starting at e are three updates. */
  lemma AuxBlock(C: seq<Column>, F: seq<Column>, e: int)
    requires 0 <= e && e + 3 == |F| <= |C|
    ensures Block(C, F, e, e + 3) == C[e := F[e]][e + 1 := F[e + 1]][e + 2 := F[e + 2]]
  {
  }

  /** The exchange and circulation columns are the last three of the fixed columns. */
  lemma AuxColumnsAt(L: Layout, src: seq<real>, tgt: seq<real>, u: Unbalanced, massDeltaCost: real)
    requires |src| == L.ns && |tgt| == L.nt
    ensures var F, e := FixedColumns(L, src, tgt, u, massDeltaCost), L.SourceMassExchangePath();
      && F[e] == Column(L.SourceMassSupplyNode(), L.TargetMassSinkNode(), 0.0, u.exchangeUpper, 0.0)
      && F[e + 1] == Column(L.TargetMassSupplyNode(), L.SourceMassSinkNode(), 0.0, u.exchangeUpper, 0.0)
      && F[e + 2] == Column(L.SourceMassSinkNode(), L.SourceMassSupplyNode(), 0.0, u.circulationUpper, 0.0)
  {
  }

  /** The auxiliary row bounds, then the exchange and circulation columns. */
  method SetAuxiliary(tls: TransportLPSolver, ghost L: Layout, ghost src: seq<real>, ghost tgt: seq<real>, u: Unbalanced)
    requires tls.LaidOut(L) && Sized(tls.solver, L.NumRows(), L.NumColumns()) && |src| == L.ns && |tgt| == L.nt
    modifies tls.solver`sInd, tls.solver`tInd, tls.solver`coeff, tls.solver`colLB, tls.solver`colUB, tls.solver`mass
    ensures Sized(tls.solver, L.NumRows(), L.NumColumns())
    ensures tls.solver.mass == RowBlock(old(tls.solver.mass), RowBounds(src, tgt, u), L.ns + L.nt, L.NumRows())
    ensures Columns(tls.solver) ==
      Block(old(Columns(tls.solver)), FixedColumns(L, src, tgt, u, tls.massDeltaCost), L.SourceMassExchangePath(), L.PathOffset())
  {
    AuxRows(tls, L, src, tgt, u);
    AuxColumns(tls, L, src, tgt, u);
  }

  /** The bounds of the four auxiliary rows. */
  method AuxRows(tls: TransportLPSolver, ghost L: Layout, ghost src: seq<real>, ghost tgt: seq<real>, u: Unbalanced)
    requires tls.LaidOut(L) && Sized(tls.solver, L.NumRows(), L.NumColumns()) && |src| == L.ns && |tgt| == L.nt
    modifies tls.solver`mass
    ensures Sized(tls.solver, L.NumRows(), L.NumColumns())
    ensures tls.solver.mass == RowBlock(old(tls.solver.mass), RowBounds(src, tgt, u), L.ns + L.nt, L.NumRows())
  {
    var lp := tls.solver;
    lp.SetRowBounds(tls.sourceMassSupplyNode, u.sourceSupply);
    lp.SetRowBounds(tls.sourceMassSinkNode, u.sourceSink);
    lp.SetRowBounds(tls.targetMassSupplyNode, u.targetSupply);
    lp.SetRowBounds(tls.targetMassSinkNode, u.targetSink);
    forall r | L.ns + L.nt <= r < L.NumRows()
      ensures lp.mass[r] == RowBounds(src, tgt, u)[r]
    {
      RowBoundAt(src, tgt, u, r);
    }
  }

  /** The two exchange columns and the circulation column. */
  method AuxColumns(tls: TransportLPSolver, ghost L: Layout, ghost src: seq<real>, ghost tgt: seq<real>, u: Unbalanced)
    requires tls.LaidOut(L) && Sized(tls.solver, L.NumRows(), L.NumColumns()) && |src| == L.ns && |tgt| == L.nt
    modifies tls.solver`sInd, tls.solver`tInd, tls.solver`coeff, tls.solver`colLB, tls.solver`colUB
    ensures Sized(tls.solver, L.NumRows(), L.NumColumns())
    ensures Columns(tls.solver) ==
      Block(old(Columns(tls.solver)), FixedColumns(L, src, tgt, u, tls.massDeltaCost), L.SourceMassExchangePath(), L.PathOffset())
  {
    var lp := tls.solver;
    AuxBlock(Columns(lp), FixedColumns(L, src, tgt, u, tls.massDeltaCost), L.SourceMassExchangePath());
    AuxColumnsAt(L, src, tgt, u, tls.massDeltaCost);
    SetColumn(lp, tls.sourceMassExchangePath,
              Column(tls.sourceMassSupplyNode, tls.targetMassSinkNode, 0.0, u.exchangeUpper, 0.0));
    SetColumn(lp, tls.targetMassExchangePath,
              Column(tls.targetMassSupplyNode, tls.sourceMassSinkNode, 0.0, u.exchangeUpper, 0.0));
    SetColumn(lp, tls.sourceCirculationPath,
              Column(tls.sourceMassSinkNode, tls.sourceMassSupplyNode, 0.0, u.circulationUpper, 0.0));
  }

  /** The source loop of createLP: row id gets the node's mass, columns id and ns + id its two distribution columns. */
  method SourceDistribution(tls: TransportLPSolver, ghost L: Layout, nodes: seq<TransportNode>, ghost src: seq<real>, ghost tgt: seq<real>, ghost u: Unbalanced)
    requires tls.LaidOut(L) && Sized(tls.solver, L.NumRows(), L.NumColumns())
    requires |nodes| == L.ns && |src| == L.ns && |tgt| == L.nt
    requires forall j :: 0 <= j < |nodes| ==> nodes[j].id == j && nodes[j].mass == src[j]
    modifies tls.solver`sInd, tls.solver`tInd, tls.solver`coeff, tls.solver`colLB, tls.solver`colUB, tls.solver`mass
    ensures Sized(tls.solver, L.NumRows(), L.NumColumns())
    ensures tls.solver.mass == RowBlock(old(tls.solver.mass), RowBounds(src, tgt, u), 0, L.ns)
    ensures Columns(tls.solver) == Block(old(Columns(tls.solver)), FixedColumns(L, src, tgt, u, tls.massDeltaCost), 0, 2 * L.ns)
  {
    var lp := tls.solver;
    ghost var M0, C0 := lp.mass, Columns(lp);
    var i := 0;
    while i < |nodes|
      invariant 0 <= i <= |nodes|
      invariant Sized(lp, L.NumRows(), L.NumColumns())
      invariant lp.mass == RowBlock(M0, RowBounds(src, tgt, u), 0, i)
      invariant Columns(lp) == Overlay(C0, FixedColumns(L, src, tgt, u, tls.massDeltaCost), 0, L.ns, i)
    {
      SourceNode(tls, nodes[i], L, src, tgt, u, M0, C0, i);
      i := i + 1;
    }
    OverlayBlock(C0, FixedColumns(L, src, tgt, u, tls.massDeltaCost), 0, L.ns);
  }

  /**
   * The body of the source loop of createLP for node n, the i-th: row i
   * gets the mass, and its two distribution columns are written.
   */
  method SourceNode(tls: TransportLPSolver, n: TransportNode, ghost L: Layout,
                    ghost src: seq<real>, ghost tgt: seq<real>, ghost u: Unbalanced, ghost M0: seq<real>, ghost C0: seq<Column>, ghost i: int)
    requires tls.LaidOut(L) && Sized(tls.solver, L.NumRows(), L.NumColumns())
    requires |src| == L.ns && |tgt| == L.nt && 0 <= i < L.ns && n.id == i && n.mass == src[i]
    requires |M0| == L.NumRows() && |C0| == L.NumColumns()
    requires tls.solver.mass == RowBlock(M0, RowBounds(src, tgt, u), 0, i)
    requires Columns(tls.solver) == Overlay(C0, FixedColumns(L, src, tgt, u, tls.massDeltaCost), 0, L.ns, i)
    modifies tls.solver`sInd, tls.solver`tInd, tls.solver`coeff, tls.solver`colLB, tls.solver`colUB, tls.solver`mass
    ensures Sized(tls.solver, L.NumRows(), L.NumColumns())
    ensures tls.solver.mass == RowBlock(M0, RowBounds(src, tgt, u), 0, i + 1)
    ensures Columns(tls.solver) == Overlay(C0, FixedColumns(L, src, tgt, u, tls.massDeltaCost), 0, L.ns, i + 1)
  {
    RowBlockStep(M0, RowBounds(src, tgt, u), 0, i);
    RowBoundAt(src, tgt, u, i);
    var lp := tls.solver;
    var w := n.mass;
    lp.SetRowBounds(n.id, w);
    SourceNodeColumns(tls, n, L, src, tgt, u, C0, i);
  }

  /** The two distribution columns of source node n, which carries index i. */
  method SourceNodeColumns(tls: TransportLPSolver, n: TransportNode, ghost L: Layout,
                           ghost src: seq<real>, ghost tgt: seq<real>, ghost u: Unbalanced, ghost C0: seq<Column>, ghost i: int)
    requires tls.LaidOut(L) && Sized(tls.solver, L.NumRows(), L.NumColumns())
    requires |src| == L.ns && |tgt| == L.nt && 0 <= i < L.ns && n.id == i && n.mass == src[i] && |C0| == L.NumColumns()
    requires Columns(tls.solver) == Overlay(C0, FixedColumns(L, src, tgt, u, tls.massDeltaCost), 0, L.ns, i)
    modifies tls.solver`sInd, tls.solver`tInd, tls.solver`coeff, tls.solver`colLB, tls.solver`colUB
    ensures Sized(tls.solver, L.NumRows(), L.NumColumns())
    ensures Columns(tls.solver) == Overlay(C0, FixedColumns(L, src, tgt, u, tls.massDeltaCost), 0, L.ns, i + 1)
  {
    OverlayStep(C0, FixedColumns(L, src, tgt, u, tls.massDeltaCost), 0, L.ns, i);
    SourceColumns(L, src, tgt, u, tls.massDeltaCost, i);
    var lp := tls.solver;
    var w := n.mass;
    var lower := 0.0;
    var upper := w;
    var pid := tls.sourceMassSupplyDistributionStart + n.id;
    SetDistributionColumn(lp, pid, Column(tls.sourceMassSupplyNode, n.id, lower, DistributionShare * upper, tls.massDeltaCost));
    pid := tls.sourceMassSinkDistributionStart + n.id;
    SetDistributionColumn(lp, pid, Column(n.id, tls.sourceMassSinkNode, lower, DistributionShare * upper, tls.massDeltaCost));
  }

  /** The target loop of createLP: row ns + id gets the negated mass, columns 2ns + nt + id and 2ns + id its distribution columns. */
  method TargetDistribution(tls: TransportLPSolver, ghost L: Layout, nodes: seq<TransportNode>, offset: int,
                            ghost src: seq<real>, ghost tgt: seq<real>, ghost u: Unbalanced)
    requires tls.LaidOut(L) && Sized(tls.solver, L.NumRows(), L.NumColumns()) && offset == L.ns
    requires |nodes| == L.nt && |tgt| == L.nt && |src| == L.ns
    requires forall j :: 0 <= j < |nodes| ==> nodes[j].id == j && nodes[j].mass == tgt[j]
    modifies tls.solver`sInd, tls.solver`tInd, tls.solver`coeff, tls.solver`colLB, tls.solver`colUB, tls.solver`mass
    ensures Sized(tls.solver, L.NumRows(), L.NumColumns())
    ensures tls.solver.mass == RowBlock(old(tls.solver.mass), RowBounds(src, tgt, u), L.ns, L.ns + L.nt)
    ensures Columns(tls.solver) ==
      Block(old(Columns(tls.solver)), FixedColumns(L, src, tgt, u, tls.massDeltaCost), 2 * L.ns, L.SourceMassExchangePath())
  {
    var lp := tls.solver;
    ghost var M0, C0 := lp.mass, Columns(lp);
    var i := 0;
    while i < |nodes|
      invariant 0 <= i <= |nodes|
      invariant Sized(lp, L.NumRows(), L.NumColumns())
      invariant lp.mass == RowBlock(M0, RowBounds(src, tgt, u), L.ns, L.ns + i)
      invariant Columns(lp) == Overlay(C0, FixedColumns(L, src, tgt, u, tls.massDeltaCost), 2 * L.ns, 2 * L.ns + L.nt, i)
    {
      TargetNode(tls, nodes[i], offset, L, src, tgt, u, M0, C0, i);
      i := i + 1;
    }
    OverlayBlock(C0, FixedColumns(L, src, tgt, u, tls.massDeltaCost), 2 * L.ns, L.nt);
  }

  /**
   * The body of the target loop of createLP for node n, the i-th: row
   * offset + i gets the negated mass, and its two distribution columns are
   * written.
   */
  method TargetNode(tls: TransportLPSolver, n: TransportNode, offset: int, ghost L: Layout,
                    ghost src: seq<real>, ghost tgt: seq<real>, ghost u: Unbalanced, ghost M0: seq<real>, ghost C0: seq<Column>, ghost i: int)
    requires tls.LaidOut(L) && Sized(tls.solver, L.NumRows(), L.NumColumns()) && offset == L.ns
    requires |src| == L.ns && |tgt| == L.nt && 0 <= i < L.nt && n.id == i && n.mass == tgt[i]
    requires |M0| == L.NumRows() && |C0| == L.NumColumns()
    requires tls.solver.mass == RowBlock(M0, RowBounds(src, tgt, u), L.ns, L.ns + i)
    requires Columns(tls.solver) == Overlay(C0, FixedColumns(L, src, tgt, u, tls.massDeltaCost), 2 * L.ns, 2 * L.ns + L.nt, i)
    modifies tls.solver`sInd, tls.solver`tInd, tls.solver`coeff, tls.solver`colLB, tls.solver`colUB, tls.solver`mass
    ensures Sized(tls.solver, L.NumRows(), L.NumColumns())
    ensures tls.solver.mass == RowBlock(M0, RowBounds(src, tgt, u), L.ns, L.ns + (i + 1))
    ensures Columns(tls.solver) == Overlay(C0, FixedColumns(L, src, tgt, u, tls.massDeltaCost), 2 * L.ns, 2 * L.ns + L.nt, i + 1)
  {
    RowBlockStep(M0, RowBounds(src, tgt, u), L.ns, L.ns + i);
    RowBoundAt(src, tgt, u, L.ns + i);
    var lp := tls.solver;
    var w := n.mass;
    lp.SetRowBounds(offset + n.id, -w);
    TargetNodeColumns(tls, n, offset, L, src, tgt, u, C0, i);
  }

  /** The two distribution columns of target node n, which carries index i. */
  method TargetNodeColumns(tls: TransportLPSolver, n: TransportNode, offset: int, ghost L: Layout,
                           ghost src: seq<real>, ghost tgt: seq<real>, ghost u: Unbalanced, ghost C0: seq<Column>, ghost i: int)
    requires tls.LaidOut(L) && Sized(tls.solver, L.NumRows(), L.NumColumns()) && offset == L.ns
    requires |src| == L.ns && |tgt| == L.nt && 0 <= i < L.nt && n.id == i && n.mass == tgt[i] && |C0| == L.NumColumns()
    requires Columns(tls.solver) == Overlay(C0, FixedColumns(L, src, tgt, u, tls.massDeltaCost), 2 * L.ns, 2 * L.ns + L.nt, i)
    modifies tls.solver`sInd, tls.solver`tInd, tls.solver`coeff, tls.solver`colLB, tls.solver`colUB
    ensures Sized(tls.solver, L.NumRows(), L.NumColumns())
    ensures Columns(tls.solver) == Overlay(C0, FixedColumns(L, src, tgt, u, tls.massDeltaCost), 2 * L.ns, 2 * L.ns + L.nt, i + 1)
  {
    ghost var F := FixedColumns(L, src, tgt, u, tls.massDeltaCost);
    ghost var a, b := 2 * L.ns + i, 2 * L.ns + L.nt + i;
    ghost var before := Columns(tls.solver);
    OverlayStep(C0, F, 2 * L.ns, 2 * L.ns + L.nt, i);
    TargetColumns(L, src, tgt, u, tls.massDeltaCost, i);
    var lp := tls.solver;
    var w := n.mass;
    var lower := 0.0;
    var upper := w;
    var pid := tls.targetMassSinkDistributionStart + n.id;
    var sink := Column(offset + n.id, tls.targetMassSinkNode, lower, DistributionShare * upper, tls.massDeltaCost);
    assert pid == b && sink == F[b];
    SetDistributionColumn(lp, pid, sink);
    pid := tls.targetMassSupplyDistributionStart + n.id;
    var supply := Column(tls.targetMassSupplyNode, offset + n.id, lower, DistributionShare * upper, tls.massDeltaCost);
    assert pid == a && supply == F[a];
    SetDistributionColumn(lp, pid, supply);
    assert Columns(lp) == before[b := F[b]][a := F[a]];
  }

  /** The three calls of the arc loop of createLP, through the offset accessors: arc column col becomes c. */
  method SetArcColumn(tls: TransportLPSolver, col: int, c: Column, ghost k: int)
    requires tls.solver.Valid() && k == tls.pathOffset + col && 0 <= k < |tls.solver.sInd| && c.lb == 0.0 && c.ub == MaxDouble
    modifies tls.solver`sInd, tls.solver`tInd, tls.solver`coeff, tls.solver`colLB, tls.solver`colUB
    ensures tls.solver.Valid() && Columns(tls.solver) == old(Columns(tls.solver))[k := c]
  {
    tls.SetColumnBoundsLower(col, 0.0);
    tls.SetColumnObjective(col, c.cost);
    tls.SetColumnCoefficients(col, c.s, c.t);
  }

  /** Arc j of A is stored in P with index j, and every arc of P is one of A, at its index. */
  ghost predicate Indexed(P: seq<map<int, Path>>, A: seq<Arc>) {
    && (forall j :: 0 <= j < |A| ==> Has(P, A[j]) && Get(P, A[j]).index == j)
    && (forall a :: Has(P, a) ==> 0 <= Get(P, a).index < |A| && A[Get(P, a).index] == a)
  }

  /** C with the arc column of each arc of D at its place after the fixed columns. */
  ghost function ArcOverlay(C: seq<Column>, L: Layout, P: seq<map<int, Path>>, A: seq<Arc>, D: set<Arc>): (r: seq<Column>)
    requires Stored(P, A) && L.PathOffset() + |A| <= |C| && 0 <= L.PathOffset()
    ensures |r| == |C|
  {
    seq(|C|, k requires 0 <= k < |C| =>
      if L.PathOffset() <= k < L.PathOffset() + |A| && A[k - L.PathOffset()] in D
      then ArcColumn(L, Get(P, A[k - L.PathOffset()])) else C[k])
  }

  /** Writing the column of arc c, the j-th one added, overlays one more arc. */
  lemma ArcOverlayStep(C: seq<Column>, L: Layout, P: seq<map<int, Path>>, A: seq<Arc>, D: set<Arc>, c: Arc)
    requires Indexed(P, A) && L.PathOffset() + |A| <= |C| && 0 <= L.PathOffset() && Has(P, c)
    ensures 0 <= Get(P, c).index < |A|
    ensures ArcOverlay(C, L, P, A, D + {c}) == ArcOverlay(C, L, P, A, D)[L.PathOffset() + Get(P, c).index := ArcColumn(L, Get(P, c))]
  {
    forall l | 0 <= l < |A| && l != Get(P, c).index
      ensures A[l] != c
    {
      assert Get(P, A[l]).index == l;
    }
  }

  /** Once every arc of P is overlaid, the columns after the fixed ones are the arc columns. */
  lemma ArcOverlayAll(C: seq<Column>, L: Layout, P: seq<map<int, Path>>, A: seq<Arc>, D: set<Arc>)
    requires Indexed(P, A) && L.PathOffset() + |A| == |C| && 0 <= L.PathOffset() && D == ArcSet(P)
    ensures ArcOverlay(C, L, P, A, D) == C[..L.PathOffset()] + ArcColumns(L, P, A)
  {
    forall j | 0 <= j < |A|
      ensures A[j] in D
    {
      InArcSet(P, A[j]);
    }
  }

  /** The arc loop of createLP: walk sol's cursor and write each arc's column. */
  method FillArcColumns(tls: TransportLPSolver, sol: TransportPlan, ghost L: Layout)
    requires tls.LaidOut(L) && Sized(tls.solver, L.NumRows(), L.NumColumns())
    requires sol.Valid() && Indexed(sol.paths, sol.added) && L.numPaths == |sol.added| && L.ns == |sol.source.nodes|
    modifies tls.solver`sInd, tls.solver`tInd, tls.solver`coeff, tls.solver`colLB, tls.solver`colUB
    modifies sol`outer, sol`inner
    ensures Sized(tls.solver, L.NumRows(), L.NumColumns()) && sol.paths == old(sol.paths) && sol.added == old(sol.added)
    ensures Columns(tls.solver) == old(Columns(tls.solver))[..L.PathOffset()] + ArcColumns(L, sol.paths, sol.added)
  {
    var lp := tls.solver;
    var offset := |sol.source.nodes|;
    ghost var P, A := sol.paths, sol.added;
    ghost var C0 := Columns(lp);
    ghost var D: set<Arc> := {};
    sol.Begin();
    while !sol.IsAtEnd()
      invariant sol.Valid() && sol.Cursor() && sol.paths == P && sol.added == A
      invariant Sized(lp, L.NumRows(), L.NumColumns())
      invariant DoneUpTo(P, D, sol.IsAtEnd(), (sol.outer, sol.inner))
      invariant Columns(lp) == ArcOverlay(C0, L, P, A, D)
      decreases sol.Remaining()
    {
      var path := sol.Current();
      ghost var c: Arc := (sol.outer, sol.inner);
      ArcOverlayStep(C0, L, P, A, D, c);
      var column := Column(path.from.id, offset + path.to.id, 0.0, MaxDouble, path.cost);
      assert column == ArcColumn(L, Get(P, c));
      SetArcColumn(tls, path.index, column, L.PathOffset() + Get(P, c).index);
      sol.Pass(D);
      D := D + {c};
    }
    InArcSetAll(P, D);
    ArcOverlayAll(C0, L, P, A, D);
  }

  /**
   * Rows Q store the arcs of P; those in D carry the primal of their column
   * (offset plus their index) as weight, the others are as in P.
   */
  ghost predicate Reweighted(Q: seq<map<int, Path>>, P: seq<map<int, Path>>, D: set<Arc>, primal: seq<real>, offset: int) {
    && |Q| == |P|
    && (forall a :: Has(Q, a) <==> Has(P, a))
    && (forall a :: Has(P, a) ==> 0 <= offset + Get(P, a).index < |primal|)
    && (forall a :: Has(P, a) ==>
          Get(Q, a) == if a in D then Get(P, a).(w := primal[offset + Get(P, a).index]) else Get(P, a))
  }

  /** Reweighting the current arc c reweights D + {c}, and keeps the arcs the walk has passed. */
  lemma ReweightStep(Q: seq<map<int, Path>>, Q': seq<map<int, Path>>, P: seq<map<int, Path>>, D: set<Arc>,
                     primal: seq<real>, offset: int, c: Arc, w: real)
    requires Reweighted(Q, P, D, primal, offset) && Has(Q, c) && DoneUpTo(Q, D, false, c)
    requires Q' == Q[c.0 := Q[c.0][c.1 := Get(Q, c).(w := w)]] && w == primal[offset + Get(Q, c).index]
    ensures Reweighted(Q', P, D + {c}, primal, offset) && DoneUpTo(Q', D, false, c)
  {
    assert forall b :: Has(Q', b) <==> Has(Q, b);
  }

  /** The weight loop of storeLP: every arc takes the primal of its column as weight. */
  method StoreWeights(tls: TransportLPSolver, sol: TransportPlan)
    requires sol.Valid()
    requires forall a :: Has(sol.paths, a) ==> 0 <= tls.pathOffset + Get(sol.paths, a).index < |tls.solver.primal|
    modifies sol`paths, sol`outer, sol`inner
    ensures sol.Valid() && (old(sol.Dense()) ==> sol.Dense())
    ensures Reweighted(sol.paths, old(sol.paths), ArcSet(old(sol.paths)), tls.solver.primal, tls.pathOffset)
  {
    ghost var P := sol.paths;
    ghost var dense := sol.Dense();
    ghost var D: set<Arc> := {};
    sol.Begin();
    while !sol.IsAtEnd()
      invariant sol.Valid() && sol.Cursor() && (dense ==> sol.Dense())
      invariant Reweighted(sol.paths, P, D, tls.solver.primal, tls.pathOffset)
      invariant DoneUpTo(sol.paths, D, sol.IsAtEnd(), (sol.outer, sol.inner))
      decreases sol.Remaining()
    {
      var path := sol.Current();
      ghost var c: Arc := (sol.outer, sol.inner);
      ghost var Q := sol.paths;
      var w := tls.GetColumnPrimal(path.index);
      sol.SetCurrentWeight(w);
      ReweightStep(Q, sol.paths, P, D, tls.solver.primal, tls.pathOffset, c, w);
      sol.Pass(D);
      D := D + {c};
    }
    InArcSetAll(sol.paths, D);
    SameArcs(sol.paths, P);
  }

  /**
   * The potential loops of storeLP and setPotentials: each source node takes
   * the dual of row id, then each target node the dual of row offset + id;
   * with reset, both pi bounds are set to it too.
   */
  method StorePotentials(lp: LemonSolver, sourceNodes: seq<TransportNode>, targetNodes: seq<TransportNode>, offset: int, reset: bool)
    requires forall n :: n in sourceNodes ==> 0 <= n.id < |lp.dual|
    requires forall n :: n in targetNodes ==> 0 <= offset + n.id < |lp.dual|
    modifies (set n | n in sourceNodes)`potential, (set n | n in targetNodes)`potential
    modifies (set n | reset && n in sourceNodes)`piMin, (set n | reset && n in sourceNodes)`piMax
    modifies (set n | reset && n in targetNodes)`piMin, (set n | reset && n in targetNodes)`piMax
    ensures forall n :: n in targetNodes ==>
      var pi := lp.dual[offset + n.id]; n.potential == pi && (reset ==> n.piMin == pi && n.piMax == pi)
    ensures forall n :: n in sourceNodes && n !in targetNodes ==>
      var pi := lp.dual[n.id]; n.potential == pi && (reset ==> n.piMin == pi && n.piMax == pi)
  {
    var i := 0;
    while i < |sourceNodes|
      invariant 0 <= i <= |sourceNodes|
      invariant forall j :: 0 <= j < i ==>
        var pi := lp.dual[sourceNodes[j].id];
        sourceNodes[j].potential == pi && (reset ==> sourceNodes[j].piMin == pi && sourceNodes[j].piMax == pi)
    {
      var node := sourceNodes[i];
      var pi := lp.GetRowDual(node.id);
      node.SetPotential(pi);
      if reset {
        node.ResetPi(pi, pi);
      }
      i := i + 1;
    }
    i := 0;
    while i < |targetNodes|
      invariant 0 <= i <= |targetNodes|
      invariant forall j :: 0 <= j < i ==>
        var pi := lp.dual[offset + targetNodes[j].id];
        targetNodes[j].potential == pi && (reset ==> targetNodes[j].piMin == pi && targetNodes[j].piMax == pi)
      invariant forall n :: n in sourceNodes && n !in targetNodes ==>
        var pi := lp.dual[n.id]; n.potential == pi && (reset ==> n.piMin == pi && n.piMax == pi)
    {
      var node := targetNodes[i];
      var pi := lp.GetRowDual(offset + node.id);
      node.SetPotential(pi);
      if reset {
        node.ResetPi(pi, pi);
      }
      i := i + 1;
    }
  }
}
