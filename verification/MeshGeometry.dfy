/**
 Where the layout puts things. A placer's effect is a list of placements in the
 order they are written; the geometry is proved about these lists, for whatever
 is being placed. Coordinates are exact.
 */
module MeshGeometry {
  import opened Basics
  import opened Sequences

  const NODE_W := 190.0
  const NODE_H := 82.0
  const CELL_W := 262.0
  const CELL_H := 162.0
  const BAND_GAP := 168.0
  const CLUSTER_PAD := 40.0

  function Wide(cells: int): real { cells as real * 262.0 }
  function Down(cells: int): real { cells as real * 162.0 }

  datatype Point = Point(x: real, y: real)
  datatype Placed<T> = Placed(item: T, at: Point)

  /** The node boxes with these corners have no point in common. */
  ghost predicate Apart(p: Point, q: Point) {
    || p.x + NODE_W < q.x || q.x + NODE_W < p.x
    || p.y + NODE_H < q.y || q.y + NODE_H < p.y
  }

  ghost predicate AllApart<T>(l: seq<Placed<T>>) {
    forall i, j :: 0 <= i < j < |l| ==> Apart(l[i].at, l[j].at)
  }

  /** Every box lies strictly right of `left` and strictly left of `right`. */
  ghost predicate Between<T>(left: real, l: seq<Placed<T>>, right: real) {
    forall p :: p in l ==> left < p.at.x && p.at.x + NODE_W < right
  }

  /** Every box starts at `top` or below and ends above `bottom`. */
  ghost predicate Stacked<T>(top: real, l: seq<Placed<T>>, bottom: real) {
    forall p :: p in l ==> top <= p.at.y && p.at.y + NODE_H < bottom
  }

  lemma BesideApart<T>(a: seq<Placed<T>>, b: seq<Placed<T>>, left: real, mid: real, right: real)
    requires AllApart(a) && AllApart(b) && Between(left, a, mid) && Between(mid, b, right) && left <= mid <= right
    ensures AllApart(a + b) && Between(left, a + b, right)
  {
    forall i, j | 0 <= i < j < |a + b| ensures Apart((a + b)[i].at, (a + b)[j].at) {
      if i < |a| <= j { assert a[i] in a && b[j - |a|] in b; }
    }
  }

  lemma BelowApart<T>(a: seq<Placed<T>>, b: seq<Placed<T>>, top: real, mid: real, mid': real, bottom: real)
    requires AllApart(a) && AllApart(b) && Stacked(top, a, mid) && Stacked(mid', b, bottom)
    requires top <= mid <= mid' <= bottom
    ensures AllApart(a + b) && Stacked(top, a + b, bottom)
    ensures AllApart(b + a) && Stacked(top, b + a, bottom)
  {
    forall i, j | 0 <= i < j < |a + b| ensures Apart((a + b)[i].at, (a + b)[j].at) {
      if i < |a| <= j { assert a[i] in a && b[j - |a|] in b; }
    }
    forall i, j | 0 <= i < j < |b + a| ensures Apart((b + a)[i].at, (b + a)[j].at) {
      if i < |b| <= j { assert b[i] in b && a[j - |b|] in a; }
    }
  }

  /* ---------------- grids ---------------- */

  function GridRows(n: nat, cols: nat): nat requires cols > 0 { (n + cols - 1) / cols }

  function InRow(n: nat, row: nat, cols: nat): int requires cols > 0 {
    if row == GridRows(n, cols) - 1 then n - row * cols else cols
  }

  function GridPoint(n: nat, i: nat, centerX: real, topY: real, cols: nat): Point
    requires cols > 0
  {
    Point(centerX - Wide(InRow(n, i / cols, cols)) / 2.0 + Wide(i % cols), topY + Down(i / cols))
  }

  /** A grid of at most `columns` columns (at least one), each row centred. */
  function Grid<T>(items: seq<T>, centerX: real, topY: real, columns: nat): (r: seq<Placed<T>>)
    ensures |r| == |items|
    ensures forall i :: 0 <= i < |items| ==> r[i].item == items[i]
  {
    seq(|items|, i requires 0 <= i < |items| => Placed(items[i], GridPoint(|items|, i, centerX, topY, Max(1, columns))))
  }

  function GridBottom(n: nat, topY: real, columns: nat): real {
    if n == 0 then topY else topY + Down(GridRows(n, Max(1, columns)))
  }

  lemma RowFacts(n: nat, i: nat, cols: nat)
    requires cols > 0 && i < n
    ensures i / cols < GridRows(n, cols)
    ensures 0 <= i % cols < InRow(n, i / cols, cols) <= cols
  {
    var row, rows := i / cols, GridRows(n, cols);
    assert i == row * cols + i % cols;
    assert rows * cols <= n + cols - 1 < rows * cols + cols;
    assert row * cols <= i < rows * cols;
    if row < rows - 1 { } else { assert row * cols == rows * cols - cols; }
  }

  lemma GridPairApart(n: nat, i: nat, j: nat, centerX: real, topY: real, cols: nat)
    requires cols > 0 && i < j < n
    ensures Apart(GridPoint(n, i, centerX, topY, cols), GridPoint(n, j, centerX, topY, cols))
  {
    hide InRow, GridRows;
    CellOrder(i, j, cols);
    var p, q := GridPoint(n, i, centerX, topY, cols), GridPoint(n, j, centerX, topY, cols);
    if i / cols == j / cols {
      assert q.x - p.x == Wide(j % cols) - Wide(i % cols) >= CELL_W;
    } else {
      assert q.y - p.y == Down(j / cols) - Down(i / cols) >= CELL_H;
    }
  }

  lemma {:induction false} MulStep(a: nat, b: nat, c: nat)
    ensures a > b ==> a * c >= b * c + c
  {
    if a > b {
      assert a * c == (a - 1) * c + c;
      MulStep(a - 1, b, c);
    }
  }

  /** Cells are numbered row by row. */
  lemma CellOrder(i: nat, j: nat, cols: nat)
    requires cols > 0 && i < j
    ensures i / cols < j / cols || (i / cols == j / cols && i % cols < j % cols)
  {
    var a, b := i / cols, j / cols;
    assert i == a * cols + i % cols && j == b * cols + j % cols;
    MulStep(a, b, cols);
  }

  lemma GridBounds(n: nat, i: nat, centerX: real, topY: real, cols: nat)
    requires cols > 0 && i < n
    ensures
      var p := GridPoint(n, i, centerX, topY, cols);
      && centerX - Wide(cols) / 2.0 <= p.x && p.x + CELL_W <= centerX + Wide(cols) / 2.0
      && topY <= p.y && p.y + CELL_H <= topY + Down(GridRows(n, cols))
  {
    RowFacts(n, i, cols);
  }

  /** The nodes of a grid are apart, inside the columns and rows it is given. */
  lemma GridLaidOut<T>(items: seq<T>, centerX: real, topY: real, columns: nat)
    ensures
      var g := Grid(items, centerX, topY, columns);
      && AllApart(g)
      && Stacked(topY, g, GridBottom(|items|, topY, columns))
      && Between(centerX - Wide(Max(1, columns)) / 2.0 - 1.0, g, centerX + Wide(Max(1, columns)) / 2.0)
      && topY <= GridBottom(|items|, topY, columns)
  {
    var g, cols := Grid(items, centerX, topY, columns), Max(1, columns);
    hide GridPoint, GridRows;
    forall i, j | 0 <= i < j < |g| ensures Apart(g[i].at, g[j].at) {
      GridPairApart(|items|, i, j, centerX, topY, cols);
    }
    forall p | p in g
      ensures topY <= p.at.y && p.at.y + NODE_H < GridBottom(|items|, topY, columns)
      ensures centerX - Wide(cols) / 2.0 - 1.0 < p.at.x && p.at.x + NODE_W < centerX + Wide(cols) / 2.0
    {
      var i :| 0 <= i < |g| && g[i] == p;
      GridBounds(|items|, i, centerX, topY, cols);
    }
  }

  /* ---------------- bands of clusters ---------------- */

  datatype Cluster<T> = Cluster(router: T, members: seq<T>)

  /** How many satellite columns a cluster gets, and how many clusters a band row holds. */
  datatype BandShape = BandShape(columns: nat -> nat, perRow: nat)

  function ClusterWidth(columns: nat): real { Wide(Max(1, columns)) + CLUSTER_PAD }

  function WidthOf<T>(shape: BandShape, c: Cluster<T>): real { ClusterWidth(shape.columns(|c.members|)) }

  /** A router with its satellites below it. */
  function Column<T>(c: Cluster<T>, centerX: real, topY: real, columns: nat): seq<Placed<T>> {
    [Placed(c.router, Point(centerX - NODE_W / 2.0, topY))] + Grid(c.members, centerX, topY + CELL_H, columns)
  }

  function ColumnBottom<T>(c: Cluster<T>, topY: real, columns: nat): real {
    GridBottom(|c.members|, topY + CELL_H, columns)
  }

  lemma ColumnLaidOut<T>(c: Cluster<T>, centerX: real, topY: real, columns: nat)
    ensures
      var l, w := Column(c, centerX, topY, columns), ClusterWidth(columns);
      && AllApart(l)
      && Stacked(topY, l, ColumnBottom(c, topY, columns))
      && Between(centerX - w / 2.0, l, centerX + w / 2.0)
      && topY + CELL_H <= ColumnBottom(c, topY, columns)
  {
    hide GridBottom, Grid, AllApart, Apart;
    GridLaidOut(c.members, centerX, topY + CELL_H, columns);
    var router, grid := [Placed(c.router, Point(centerX - NODE_W / 2.0, topY))], Grid(c.members, centerX, topY + CELL_H, columns);
    SingleApart(router[0]);
    BelowApart(router, grid, topY, topY + CELL_H, topY + CELL_H, ColumnBottom(c, topY, columns));
  }

  lemma SingleApart<T>(p: Placed<T>)
    ensures AllApart([p])
  {
  }

  predicate Indexes(row: seq<nat>, n: nat) { forall i :: 0 <= i < |row| ==> row[i] < n }

  /** The clusters of a row, by index, each in a strip as wide as it needs. */
  function RowWidth<T>(shape: BandShape, clusters: seq<Cluster<T>>, row: seq<nat>): (w: real)
    requires Indexes(row, |clusters|)
    ensures w >= 0.0
  {
    if row == [] then 0.0
    else RowWidth(shape, clusters, row[..|row| - 1]) + WidthOf(shape, clusters[row[|row| - 1]])
  }

  function Row<T>(shape: BandShape, clusters: seq<Cluster<T>>, row: seq<nat>, left: real, topY: real): seq<Placed<T>>
    requires Indexes(row, |clusters|)
  {
    if row == [] then []
    else
      var before, c := row[..|row| - 1], clusters[row[|row| - 1]];
      Row(shape, clusters, before, left, topY) +
      Column(c, left + RowWidth(shape, clusters, before) + WidthOf(shape, c) / 2.0, topY, shape.columns(|c.members|))
  }

  function RowBottom<T>(shape: BandShape, clusters: seq<Cluster<T>>, row: seq<nat>, topY: real): real
    requires Indexes(row, |clusters|)
  {
    if row == [] then topY
    else
      var c := clusters[row[|row| - 1]];
      MaxReal(RowBottom(shape, clusters, row[..|row| - 1], topY), ColumnBottom(c, topY, shape.columns(|c.members|)))
  }

  function MaxReal(a: real, b: real): real { if a < b then b else a }
  function MinReal(a: real, b: real): real { if a < b then a else b }

  lemma StackedWider<T>(top: real, l: seq<Placed<T>>, bottom: real, bottom': real)
    requires Stacked(top, l, bottom) && bottom <= bottom'
    ensures Stacked(top, l, bottom')
  {
  }

  lemma StackedBoth<T>(top: real, a: seq<Placed<T>>, b: seq<Placed<T>>, bottom: real)
    requires Stacked(top, a, bottom) && Stacked(top, b, bottom)
    ensures Stacked(top, a + b, bottom)
  {
  }

  lemma {:induction false} RowLaidOut<T>(
    shape: BandShape, clusters: seq<Cluster<T>>, row: seq<nat>, left: real, topY: real)
    requires Indexes(row, |clusters|)
    ensures
      var l := Row(shape, clusters, row, left, topY);
      && AllApart(l)
      && Stacked(topY, l, RowBottom(shape, clusters, row, topY))
      && Between(left, l, left + RowWidth(shape, clusters, row))
      && topY <= RowBottom(shape, clusters, row, topY)
  {
    hide AllApart, Stacked, Between, Column, ColumnBottom, ClusterWidth;
    if row == [] {
      NothingLaidOut<T>(left, topY);
    } else {
      var before, c := row[..|row| - 1], clusters[row[|row| - 1]];
      var mid := left + RowWidth(shape, clusters, before);
      var cols := shape.columns(|c.members|);
      var bottom := RowBottom(shape, clusters, row, topY);
      RowLaidOut(shape, clusters, before, left, topY);
      ColumnLaidOut(c, mid + WidthOf(shape, c) / 2.0, topY, cols);
      var a, b := Row(shape, clusters, before, left, topY), Column(c, mid + WidthOf(shape, c) / 2.0, topY, cols);
      WidthPositive(cols);
      BesideApart(a, b, left, mid, mid + WidthOf(shape, c));
      StackedWider(topY, a, RowBottom(shape, clusters, before, topY), bottom);
      StackedWider(topY, b, ColumnBottom(c, topY, cols), bottom);
      StackedBoth(topY, a, b, bottom);
    }
  }

  lemma WidthPositive(columns: nat)
    ensures ClusterWidth(columns) > 0.0
  {
  }

  lemma NothingLaidOut<T>(left: real, topY: real)
    ensures AllApart<T>([]) && Stacked<T>(topY, [], topY) && Between<T>(left, [], left)
  {
  }

  /* ---------------- the hierarchy ---------------- */

  /** The clusters of row `r`: left to right, or right to left in every other row. */
  function RowIndices(n: nat, perRow: nat, r: nat): (row: seq<nat>)
    requires r * perRow < n
    ensures Indexes(row, n)
  {
    var start := r * perRow;
    var end := Min(start + perRow, n);
    seq(end - start, j requires 0 <= j < end - start => if r % 2 == 1 then end - 1 - j else start + j)
  }

  function BandRows(n: nat, perRow: nat): (rows: seq<seq<nat>>)
    requires perRow > 0
    ensures AllIndexes(rows, n)
  {
    RowStarts(n, perRow);
    seq(GridRows(n, perRow), r requires 0 <= r < GridRows(n, perRow) => RowIndices(n, perRow, r))
  }

  lemma RowStarts(n: nat, perRow: nat)
    requires perRow > 0
    ensures forall r :: 0 <= r < GridRows(n, perRow) ==> r * perRow < n
  {
    forall r | 0 <= r < GridRows(n, perRow) ensures r * perRow < n {
      MulStep(GridRows(n, perRow), r, perRow);
      assert GridRows(n, perRow) * perRow <= n + perRow - 1;
    }
  }

  predicate AllIndexes(rows: seq<seq<nat>>, n: nat) { forall r :: 0 <= r < |rows| ==> Indexes(rows[r], n) }

  function BandTop<T>(shape: BandShape, clusters: seq<Cluster<T>>, rows: seq<seq<nat>>, topY: real): real
    requires AllIndexes(rows, |clusters|)
  {
    if rows == [] then topY
    else
      RowBottom(shape, clusters, rows[|rows| - 1], BandTop(shape, clusters, rows[..|rows| - 1], topY)) + BAND_GAP / 2.0
  }

  /** One centred row under another. */
  function Bands<T>(shape: BandShape, clusters: seq<Cluster<T>>, rows: seq<seq<nat>>, topY: real): seq<Placed<T>>
    requires AllIndexes(rows, |clusters|)
  {
    if rows == [] then []
    else
      var above, row := rows[..|rows| - 1], rows[|rows| - 1];
      Bands(shape, clusters, above, topY) +
      Row(shape, clusters, row, -RowWidth(shape, clusters, row) / 2.0, BandTop(shape, clusters, above, topY))
  }

  lemma {:induction false} BandsLaidOut<T>(
    shape: BandShape, clusters: seq<Cluster<T>>, rows: seq<seq<nat>>, topY: real)
    requires AllIndexes(rows, |clusters|)
    ensures
      var l := Bands(shape, clusters, rows, topY);
      && AllApart(l)
      && Stacked(topY, l, BandTop(shape, clusters, rows, topY))
      && topY <= BandTop(shape, clusters, rows, topY)
  {
    hide AllApart, Stacked, Between, Row, RowBottom, RowWidth;
    if rows == [] {
      NothingLaidOut<T>(0.0, topY);
    } else {
      var above, row := rows[..|rows| - 1], rows[|rows| - 1];
      var left, mid := -RowWidth(shape, clusters, row) / 2.0, BandTop(shape, clusters, above, topY);
      BandsLaidOut(shape, clusters, above, topY);
      RowLaidOut(shape, clusters, row, left, mid);
      BelowApart(Bands(shape, clusters, above, topY), Row(shape, clusters, row, left, mid),
                 topY, mid, mid, RowBottom(shape, clusters, row, mid));
      StackedWider(topY, Bands(shape, clusters, rows, topY), RowBottom(shape, clusters, row, mid),
                   BandTop(shape, clusters, rows, topY));
    }
  }

  /** The least whole number whose square reaches `n`: what rounding a square root up gives. */
  function CeilSqrt(n: nat): (c: nat)
    ensures c * c >= n && (c > 0 ==> (c - 1) * (c - 1) < n)
  {
    CeilSqrtFrom(n, 0)
  }

  function CeilSqrtFrom(n: nat, c: nat): (r: nat)
    requires c > 0 ==> (c - 1) * (c - 1) < n
    ensures r * r >= n && (r > 0 ==> (r - 1) * (r - 1) < n)
    decreases n - c * c
  {
    if c * c >= n then c else CeilSqrtFrom(n, c + 1)
  }

  const FIRST_BAND := NODE_H + BAND_GAP

  /** What the hierarchy is drawn from: groups already in drawing order. */
  datatype Groups<T> =
    Groups(coordinators: seq<T>, clusters: seq<Cluster<T>>, unassigned: seq<T>, limited: seq<T>)

  function RowsOf<T>(shape: BandShape, g: Groups<T>): (rows: seq<seq<nat>>)
    ensures AllIndexes(rows, |g.clusters|)
  {
    BandRows(|g.clusters|, Max(1, shape.perRow))
  }

  function RouterBands<T>(shape: BandShape, g: Groups<T>): seq<Placed<T>> {
    Bands(shape, g.clusters, RowsOf(shape, g), FIRST_BAND)
  }

  function GroupCols(n: nat): nat { Max(2, CeilSqrt(n)) }

  /** The groups without router evidence, one block under the other. */
  function Rest<T>(g: Groups<T>, topY: real, cols: nat): seq<Placed<T>> {
    Grid(g.unassigned, 0.0, topY, cols) +
    Grid(g.limited, 0.0, LimitedTop(g, topY, cols), GroupCols(|g.limited|))
  }

  function LimitedTop<T>(g: Groups<T>, topY: real, cols: nat): real {
    if g.unassigned == [] then topY else GridBottom(|g.unassigned|, topY, cols) + BAND_GAP / 2.0
  }

  function RestBottom<T>(g: Groups<T>, topY: real, cols: nat): real {
    GridBottom(|g.limited|, LimitedTop(g, topY, cols), GroupCols(|g.limited|))
  }

  function GroupTop<T>(shape: BandShape, g: Groups<T>): real {
    BandTop(shape, g.clusters, RowsOf(shape, g), FIRST_BAND) + BAND_GAP
  }

  /** Coordinator row, router bands, then the rest; `coordinatorX` centres the coordinator row. */
  function Hierarchy<T>(shape: BandShape, g: Groups<T>, coordinatorX: real): seq<Placed<T>> {
    RouterBands(shape, g) +
    Grid(g.coordinators, coordinatorX, 0.0, Max(1, |g.coordinators|)) +
    Rest(g, GroupTop(shape, g), GroupCols(|g.unassigned| + 1))
  }

  lemma OneRow<T>(items: seq<T>, centerX: real, topY: real)
    ensures
      var g := Grid(items, centerX, topY, Max(1, |items|));
      AllApart(g) && Stacked(topY, g, topY + CELL_H)
  {
    hide AllApart, Grid;
    GridLaidOut(items, centerX, topY, Max(1, |items|));
    if items != [] { OneRowCount(|items|); }
  }

  lemma OneRowCount(n: nat)
    requires n > 0
    ensures GridRows(n, n) == 1
  {
    assert n + n - 1 == 1 * n + (n - 1);
  }

  lemma RestLaidOut<T>(g: Groups<T>, topY: real, cols: nat)
    ensures
      var l := Rest(g, topY, cols);
      AllApart(l) && Stacked(topY, l, RestBottom(g, topY, cols)) && topY <= RestBottom(g, topY, cols)
  {
    hide AllApart, Stacked, Between, GridBottom, Grid, GroupCols;
    var mid := LimitedTop(g, topY, cols);
    GridLaidOut(g.unassigned, 0.0, topY, cols);
    GridLaidOut(g.limited, 0.0, mid, GroupCols(|g.limited|));
    EmptyBottom(topY, cols);
    BelowApart(Grid(g.unassigned, 0.0, topY, cols), Grid(g.limited, 0.0, mid, GroupCols(|g.limited|)),
               topY, GridBottom(|g.unassigned|, topY, cols), mid, RestBottom(g, topY, cols));
  }

  lemma EmptyBottom(topY: real, cols: nat)
    ensures GridBottom(0, topY, cols) == topY
  {
  }

  /** However many devices there are and wherever the coordinator row is centred, no two boxes of a hierarchy overlap. */
  lemma HierarchyApart<T>(shape: BandShape, g: Groups<T>, coordinatorX: real)
    ensures AllApart(Hierarchy(shape, g, coordinatorX))
    ensures forall p :: p in Hierarchy(shape, g, coordinatorX) ==> p.at.y >= 0.0
  {
    hide AllApart, Between, Bands, BandTop, Grid, Rest, RestBottom, GroupCols, RowsOf;
    var rows := RowsOf(shape, g);
    var end := BandTop(shape, g.clusters, rows, FIRST_BAND);
    var bands, row := RouterBands(shape, g), Grid(g.coordinators, coordinatorX, 0.0, Max(1, |g.coordinators|));
    var cols, top := GroupCols(|g.unassigned| + 1), GroupTop(shape, g);
    BandsLaidOut(shape, g.clusters, rows, FIRST_BAND);
    OneRow(g.coordinators, coordinatorX, 0.0);
    BelowApart(row, bands, 0.0, CELL_H, FIRST_BAND, end);
    RestLaidOut(g, top, cols);
    BelowApart(bands + row, Rest(g, top, cols), 0.0, end, top, RestBottom(g, top, cols));
  }

  /* ---------------- the attention band ---------------- */

  function AttentionCols(n: nat): nat { Min(n, 6) }

  function AttentionTop(n: nat): real
    requires n > 0
  {
    -Down(GridRows(n, AttentionCols(n))) - BAND_GAP
  }

  /** The flagged devices, above everything else. */
  function Attention<T>(issues: seq<T>): seq<Placed<T>> {
    if issues == [] then [] else Grid(issues, 0.0, AttentionTop(|issues|), AttentionCols(|issues|))
  }

  /** Moving flagged devices up leaves every two boxes apart. */
  lemma AttentionApart<T>(shape: BandShape, g: Groups<T>, coordinatorX: real, issues: seq<T>)
    ensures AllApart(Hierarchy(shape, g, coordinatorX) + Attention(issues))
  {
    hide AllApart, Hierarchy, Grid;
    var l := Hierarchy(shape, g, coordinatorX);
    HierarchyApart(shape, g, coordinatorX);
    if issues == [] {
      assert l + Attention(issues) == l;
    } else {
      var n := |issues|;
      GridLaidOut(issues, 0.0, AttentionTop(n), AttentionCols(n));
      HasBottom(l, 0.0);
      var bottom :| Stacked(0.0, l, bottom) && 0.0 <= bottom;
      BelowApart(Attention(issues), l, AttentionTop(n), -BAND_GAP, 0.0, bottom);
    }
  }

  lemma {:induction false} HasBottom<T>(l: seq<Placed<T>>, topY: real)
    requires forall p :: p in l ==> p.at.y >= topY
    ensures exists bottom :: Stacked(topY, l, bottom) && topY <= bottom
  {
    if l == [] {
      assert Stacked(topY, l, topY);
    } else {
      var init, last := l[..|l| - 1], l[|l| - 1];
      assert l == init + [last];
      HasBottom(init, topY);
      var bottom :| Stacked(topY, init, bottom) && topY <= bottom;
      assert Stacked(topY, l, MaxReal(bottom, last.at.y + NODE_H + 1.0));
    }
  }
}
