/**
 The cluster layout gives every router a cell of fixed height and width, so it
 keeps boxes apart exactly as long as clusters stay within what a cell holds.
 */
module MeshClusterMode {
  import opened Basics
  import opened Sequences
  import opened MeshGeometry

  const SPAN := 4.0 * CELL_W
  function Tall(rows: int): real { rows as real * 810.0 }

  function PerRow(n: nat): (r: nat) ensures r > 0 { Max(1, CeilSqrt(n)) }

  function RowCount(n: nat, perRow: nat, row: nat): int { Min(perRow, n - row * perRow) }

  /** The column of the `i`th cluster; every other row runs right to left. */
  function ColumnOf(n: nat, perRow: nat, i: nat): int
    requires perRow > 0
  {
    if i / perRow % 2 == 1 then RowCount(n, perRow, i / perRow) - 1 - i % perRow else i % perRow
  }

  function CenterX(n: nat, perRow: nat, i: nat): real
    requires perRow > 0
  {
    (ColumnOf(n, perRow, i) as real - (RowCount(n, perRow, i / perRow) - 1) as real / 2.0) * SPAN
  }

  function CenterY(perRow: nat, i: nat): real
    requires perRow > 0
  {
    FIRST_BAND + Tall(i / perRow)
  }

  /** The router and satellites of the `i`th of `n` clusters. */
  function Cell<T>(n: nat, c: Cluster<T>, i: nat): seq<Placed<T>> {
    Column(c, CenterX(n, PerRow(n), i), CenterY(PerRow(n), i), 2)
  }

  /** The first `k` clusters. */
  function Cells<T>(clusters: seq<Cluster<T>>, k: nat): seq<Placed<T>>
    requires k <= |clusters|
  {
    if k == 0 then [] else Cells(clusters, k - 1) + Cell(|clusters|, clusters[k - 1], k - 1)
  }

  function CellsBottom(n: nat): real { FIRST_BAND + Tall(GridRows(n, PerRow(n))) + BAND_GAP }

  function ClusterMode<T>(g: Groups<T>): seq<Placed<T>> {
    Grid(g.coordinators, 0.0, 0.0, Max(1, |g.coordinators|)) +
    Cells(g.clusters, |g.clusters|) +
    Rest(g, CellsBottom(|g.clusters|), GroupCols(|g.unassigned|))
  }

  /** No cluster has more than `most` members. */
  predicate Within<T>(clusters: seq<Cluster<T>>, most: nat) {
    forall i :: 0 <= i < |clusters| ==> |clusters[i].members| <= most
  }

  lemma CellLaidOut<T>(n: nat, c: Cluster<T>, i: nat)
    requires |c.members| <= 8
    ensures
      var l, x, y := Cell(n, c, i), CenterX(n, PerRow(n), i), CenterY(PerRow(n), i);
      AllApart(l) && Between(x - SPAN / 2.0, l, x + SPAN / 2.0) && Stacked(y, l, y + Tall(1))
  {
    hide AllApart, Grid, CenterX, CenterY, PerRow, Column;
    var l, x, y := Cell(n, c, i), CenterX(n, PerRow(n), i), CenterY(PerRow(n), i);
    ColumnLaidOut(c, x, y, 2);
    RowsWithinBudget(|c.members|);
    StackedWider(y, l, ColumnBottom(c, y, 2), y + Tall(1));
  }

  lemma RowsWithinBudget(m: nat)
    requires m <= 8
    ensures GridRows(m, 2) <= 4
  {
  }

  /** Two cells of a row differ in column, and two others in row. */
  lemma CellsDiffer(n: nat, perRow: nat, i: nat, j: nat)
    requires perRow > 0 && i < j
    ensures
      || CenterY(perRow, j) - CenterY(perRow, i) >= Tall(1)
      || CenterX(n, perRow, j) - CenterX(n, perRow, i) >= SPAN
      || CenterX(n, perRow, i) - CenterX(n, perRow, j) >= SPAN
  {
    CellOrder(i, j, perRow);
    if i / perRow == j / perRow {
      Spread(ColumnOf(n, perRow, i), ColumnOf(n, perRow, j), (RowCount(n, perRow, i / perRow) - 1) as real / 2.0);
    }
  }

  lemma Spread(a: int, b: int, shift: real)
    ensures b > a ==> (b as real - shift) * SPAN - (a as real - shift) * SPAN >= SPAN
    ensures a > b ==> (a as real - shift) * SPAN - (b as real - shift) * SPAN >= SPAN
  {
  }

  lemma CellPairApart<T>(n: nat, c: Cluster<T>, d: Cluster<T>, i: nat, j: nat, p: Placed<T>, q: Placed<T>)
    requires |c.members| <= 8 && |d.members| <= 8 && i < j
    requires p in Cell(n, c, i) && q in Cell(n, d, j)
    ensures Apart(p.at, q.at)
  {
    hide Cell, CenterX, CenterY, PerRow;
    CellLaidOut(n, c, i);
    CellLaidOut(n, d, j);
    PerRowPositive(n);
    CellsDiffer(n, PerRow(n), i, j);
  }

  lemma PerRowPositive(n: nat)
    ensures PerRow(n) > 0
  {
  }

  lemma {:induction false} CellsMember<T>(clusters: seq<Cluster<T>>, k: nat, p: Placed<T>)
    requires k <= |clusters|
    ensures p in Cells(clusters, k) <==> exists i :: 0 <= i < k && p in Cell(|clusters|, clusters[i], i)
  {
    hide Cell;
    if k > 0 { CellsMember(clusters, k - 1, p); }
  }

  lemma {:induction false} CellsApart<T>(clusters: seq<Cluster<T>>, k: nat)
    requires k <= |clusters| && Within(clusters, 8)
    ensures AllApart(Cells(clusters, k))
  {
    hide Cell, Apart;
    if k > 0 {
      var n := |clusters|;
      var a: seq<Placed<T>>, b: seq<Placed<T>> := Cells(clusters, k - 1), Cell(n, clusters[k - 1], k - 1);
      CellsApart(clusters, k - 1);
      CellLaidOut(n, clusters[k - 1], k - 1);
      forall i, j | 0 <= i < j < |a + b| ensures Apart((a + b)[i].at, (a + b)[j].at) {
        if i < |a| <= j {
          assert a[i] in a && b[j - |a|] in b;
          CellsMember(clusters, k - 1, a[i]);
          var h :| 0 <= h < k - 1 && a[i] in Cell(n, clusters[h], h);
          CellPairApart(n, clusters[h], clusters[k - 1], h, k - 1, a[i], b[j - |a|]);
        }
      }
    }
  }

  lemma CellAboveBottom<T>(n: nat, c: Cluster<T>, i: nat, p: Placed<T>)
    requires i < n && |c.members| <= 8 && p in Cell(n, c, i)
    ensures FIRST_BAND <= p.at.y && p.at.y + NODE_H < CellsBottom(n)
  {
    hide Cell, CenterX, PerRow;
    CellLaidOut(n, c, i);
    RowFacts(n, i, PerRow(n));
  }

  lemma CellsStacked<T>(clusters: seq<Cluster<T>>)
    requires Within(clusters, 8)
    ensures Stacked(FIRST_BAND, Cells(clusters, |clusters|), CellsBottom(|clusters|))
  {
    hide Cell, Cells, CellsBottom;
    var n := |clusters|;
    forall p | p in Cells(clusters, n)
      ensures FIRST_BAND <= p.at.y && p.at.y + NODE_H < CellsBottom(n)
    {
      CellsMember(clusters, n, p);
      var i :| 0 <= i < n && p in Cell(n, clusters[i], i);
      CellAboveBottom(n, clusters[i], i, p);
    }
  }

  /** With at most eight members per router, no two boxes of the cluster layout overlap. */
  lemma ClusterModeApart<T>(g: Groups<T>)
    requires Within(g.clusters, 8)
    ensures AllApart(ClusterMode(g))
  {
    hide AllApart, Grid, Cells, CellsBottom, Rest, RestBottom, GroupCols;
    var n := |g.clusters|;
    var row, cells := Grid(g.coordinators, 0.0, 0.0, Max(1, |g.coordinators|)), Cells(g.clusters, n);
    var cols := GroupCols(|g.unassigned|);
    OneRow(g.coordinators, 0.0, 0.0);
    CellsApart(g.clusters, n);
    CellsStacked(g.clusters);
    BottomBelow(n);
    BelowApart(row, cells, 0.0, CELL_H, FIRST_BAND, CellsBottom(n));
    RestLaidOut(g, CellsBottom(n), cols);
    BelowApart(row + cells, Rest(g, CellsBottom(n), cols), 0.0, CellsBottom(n), CellsBottom(n),
               RestBottom(g, CellsBottom(n), cols));
  }

  lemma BottomBelow(n: nat)
    ensures FIRST_BAND <= CellsBottom(n)
  {
  }
}
