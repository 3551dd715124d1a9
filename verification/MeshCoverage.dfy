/**
 Which items the placement lists place: exactly those of the groups they are
 drawn from, in every layout.
 */
module MeshCoverage {
  import opened Basics
  import opened Sequences
  import opened MeshGeometry
  import opened MeshClusterMode

  ghost predicate Shows<T>(l: seq<Placed<T>>, x: T) { exists p :: p in l && p.item == x }

  ghost predicate InCluster<T>(c: Cluster<T>, x: T) { x == c.router || x in c.members }

  ghost predicate InClusters<T>(clusters: seq<Cluster<T>>, x: T) {
    exists k :: 0 <= k < |clusters| && InCluster(clusters[k], x)
  }

  ghost predicate InGroups<T>(g: Groups<T>, x: T) {
    x in g.coordinators || InClusters(g.clusters, x) || x in g.unassigned || x in g.limited
  }

  lemma ShowsBoth<T>(a: seq<Placed<T>>, b: seq<Placed<T>>, x: T)
    ensures Shows(a + b, x) <==> Shows(a, x) || Shows(b, x)
  {
    if Shows(a, x) { var p :| p in a && p.item == x; assert p in a + b; }
    if Shows(b, x) { var p :| p in b && p.item == x; assert p in a + b; }
  }

  lemma ShowsGrid<T>(items: seq<T>, centerX: real, topY: real, columns: nat, x: T)
    ensures Shows(Grid(items, centerX, topY, columns), x) <==> x in items
  {
    var g := Grid(items, centerX, topY, columns);
    if x in items {
      var i :| 0 <= i < |items| && items[i] == x;
      assert g[i] in g;
    }
  }

  lemma ShowsColumn<T>(c: Cluster<T>, centerX: real, topY: real, columns: nat, x: T)
    ensures Shows(Column(c, centerX, topY, columns), x) <==> InCluster(c, x)
  {
    hide Grid;
    var router, grid := [Placed(c.router, Point(centerX - NODE_W / 2.0, topY))], Grid(c.members, centerX, topY + CELL_H, columns);
    ShowsGrid(c.members, centerX, topY + CELL_H, columns, x);
    ShowsBoth(router, grid, x);
    assert router[0] in router;
  }

  lemma {:induction false} ShowsRow<T>(
    shape: BandShape, clusters: seq<Cluster<T>>, row: seq<nat>, left: real, topY: real, x: T)
    requires Indexes(row, |clusters|)
    ensures Shows(Row(shape, clusters, row, left, topY), x) <==>
            exists j :: 0 <= j < |row| && InCluster(clusters[row[j]], x)
  {
    hide Column, Shows, InCluster;
    if row == [] {
      ShowsNothing(x);
    } else {
      var before, c := row[..|row| - 1], clusters[row[|row| - 1]];
      var center := left + RowWidth(shape, clusters, before) + WidthOf(shape, c) / 2.0;
      ShowsRow(shape, clusters, before, left, topY, x);
      ShowsColumn(c, center, topY, shape.columns(|c.members|), x);
      ShowsBoth(Row(shape, clusters, before, left, topY), Column(c, center, topY, shape.columns(|c.members|)), x);
      forall j | 0 <= j < |before| ensures before[j] == row[j] {}
    }
  }

  lemma ShowsNothing<T>(x: T)
    ensures !Shows([], x)
  {
  }

  lemma {:induction false} ShowsBands<T>(
    shape: BandShape, clusters: seq<Cluster<T>>, rows: seq<seq<nat>>, topY: real, x: T)
    requires AllIndexes(rows, |clusters|)
    ensures Shows(Bands(shape, clusters, rows, topY), x) <==>
            exists r, j :: 0 <= r < |rows| && 0 <= j < |rows[r]| && InCluster(clusters[rows[r][j]], x)
  {
    hide Row, RowWidth, BandTop, Shows, InCluster;
    if rows == [] {
      ShowsNothing(x);
    } else {
      var above, row := rows[..|rows| - 1], rows[|rows| - 1];
      var left, mid := -RowWidth(shape, clusters, row) / 2.0, BandTop(shape, clusters, above, topY);
      ShowsBands(shape, clusters, above, topY, x);
      ShowsRow(shape, clusters, row, left, mid, x);
      ShowsBoth(Bands(shape, clusters, above, topY), Row(shape, clusters, row, left, mid), x);
      forall r | 0 <= r < |above| ensures above[r] == rows[r] {}
      if j :| 0 <= j < |row| && InCluster(clusters[row[j]], x) {
        assert rows[|rows| - 1][j] == row[j];
      }
    }
  }

  /** The rows, serpentine or not, hold every cluster. */
  lemma RowsCover(n: nat, perRow: nat, k: nat) returns (r: nat, j: nat)
    requires perRow > 0 && k < n
    ensures r < |BandRows(n, perRow)| && j < |BandRows(n, perRow)[r]| && BandRows(n, perRow)[r][j] == k
    ensures r == k / perRow && j == if r % 2 == 1 then |BandRows(n, perRow)[r]| - 1 - k % perRow else k % perRow
  {
    r := k / perRow;
    RowFacts(n, k, perRow);
    RowStarts(n, perRow);
    assert k == r * perRow + k % perRow;
    var row := RowIndices(n, perRow, r);
    j := if r % 2 == 1 then |row| - 1 - k % perRow else k % perRow;
  }

  lemma ShowsRouterBands<T>(shape: BandShape, g: Groups<T>, x: T)
    ensures Shows(RouterBands(shape, g), x) <==> InClusters(g.clusters, x)
  {
    hide Bands, BandRows, Shows, InCluster;
    var rows := RowsOf(shape, g);
    ShowsBands(shape, g.clusters, rows, FIRST_BAND, x);
    if k :| 0 <= k < |g.clusters| && InCluster(g.clusters[k], x) {
      var r, j := RowsCover(|g.clusters|, Max(1, shape.perRow), k);
      assert InCluster(g.clusters[rows[r][j]], x);
    }
  }

  lemma ShowsRest<T>(g: Groups<T>, topY: real, cols: nat, x: T)
    ensures Shows(Rest(g, topY, cols), x) <==> x in g.unassigned || x in g.limited
  {
    hide Grid, Shows;
    var mid, limitedCols := LimitedTop(g, topY, cols), GroupCols(|g.limited|);
    ShowsGrid(g.unassigned, 0.0, topY, cols, x);
    ShowsGrid(g.limited, 0.0, mid, limitedCols, x);
    ShowsBoth(Grid(g.unassigned, 0.0, topY, cols), Grid(g.limited, 0.0, mid, limitedCols), x);
  }

  /** The hierarchy places what its groups hold, and nothing else. */
  lemma ShowsHierarchy<T>(shape: BandShape, g: Groups<T>, coordinatorX: real, x: T)
    ensures Shows(Hierarchy(shape, g, coordinatorX), x) <==> InGroups(g, x)
  {
    hide Grid, Shows, RouterBands, Rest, GroupTop, GroupCols;
    var bands, row := RouterBands(shape, g), Grid(g.coordinators, coordinatorX, 0.0, Max(1, |g.coordinators|));
    var rest := Rest(g, GroupTop(shape, g), GroupCols(|g.unassigned| + 1));
    ShowsRouterBands(shape, g, x);
    ShowsGrid(g.coordinators, coordinatorX, 0.0, Max(1, |g.coordinators|), x);
    ShowsRest(g, GroupTop(shape, g), GroupCols(|g.unassigned| + 1), x);
    ShowsBoth(bands, row, x);
    ShowsBoth(bands + row, rest, x);
  }

  lemma {:induction false} ShowsCells<T>(clusters: seq<Cluster<T>>, k: nat, x: T)
    requires k <= |clusters|
    ensures Shows(Cells(clusters, k), x) <==> exists i :: 0 <= i < k && InCluster(clusters[i], x)
  {
    hide Shows, InCluster, Column, CenterX, CenterY;
    if k == 0 {
      ShowsNothing(x);
    } else {
      var n := |clusters|;
      ShowsCells(clusters, k - 1, x);
      ShowsColumn(clusters[k - 1], CenterX(n, PerRow(n), k - 1), CenterY(PerRow(n), k - 1), 2, x);
      ShowsBoth(Cells(clusters, k - 1), Cell(n, clusters[k - 1], k - 1), x);
    }
  }

  /** So does the cluster layout. */
  lemma ShowsClusterMode<T>(g: Groups<T>, x: T)
    ensures Shows(ClusterMode(g), x) <==> InGroups(g, x)
  {
    hide Grid, Shows, Cells, Rest, CellsBottom, GroupCols;
    var n := |g.clusters|;
    var row, cells := Grid(g.coordinators, 0.0, 0.0, Max(1, |g.coordinators|)), Cells(g.clusters, n);
    var rest := Rest(g, CellsBottom(n), GroupCols(|g.unassigned|));
    ShowsGrid(g.coordinators, 0.0, 0.0, Max(1, |g.coordinators|), x);
    ShowsCells(g.clusters, n, x);
    ShowsRest(g, CellsBottom(n), GroupCols(|g.unassigned|), x);
    ShowsBoth(row, cells, x);
    ShowsBoth(row + cells, rest, x);
  }
}
