/**
 Which cluster layouts overlap. A cell holds eight members; what a larger cluster
 lets hang below its cell meets exactly the router straight below it.
 */
module MeshCellOverlap {
  import opened Basics
  import opened Sequences
  import opened MeshTypes
  import opened MeshGeometry
  import opened MeshClusterMode
  import opened MeshOrdering
  import opened MeshLayout

  /** The `j`th cluster stands in the next row at the same place as the `i`th. */
  predicate StraightBelow(n: nat, i: nat, j: nat) {
    var perRow := PerRow(n);
    i < j < n && j / perRow == i / perRow + 1 && CenterX(n, perRow, i) == CenterX(n, perRow, j)
  }

  /** Nobody has more than eight members above another router. */
  ghost predicate Roomy<T>(clusters: seq<Cluster<T>>) {
    forall i, j :: 0 <= i < |clusters| && 0 <= j < |clusters| && StraightBelow(|clusters|, i, j) ==>
      |clusters[i].members| <= 8
  }

  /* ---------------- cells ---------------- */

  /** Whatever its size, a cluster stays within 452 units of width, and starts at its own top. */
  lemma CellBounds<T>(n: nat, c: Cluster<T>, i: nat, p: Placed<T>)
    requires p in Cell(n, c, i)
    ensures
      var x, y := CenterX(n, PerRow(n), i), CenterY(PerRow(n), i);
      x - CELL_W <= p.at.x <= x && y <= p.at.y
  {
    hide GridPoint, CenterX, CenterY, PerRow;
    var x, y := CenterX(n, PerRow(n), i), CenterY(PerRow(n), i);
    if p != Placed(c.router, Point(x - NODE_W / 2.0, y)) {
      var k :| 0 <= k < |c.members| && Grid(c.members, x, y + CELL_H, 2)[k] == p;
      var cols := Max(1, 2);
      assert p.at == GridPoint(|c.members|, k, x, y + CELL_H, cols);
      GridBounds(|c.members|, k, x, y + CELL_H, cols);
      assert cols == 2 && Wide(2) / 2.0 == CELL_W;
    }
  }

  lemma AnyCellApart<T>(n: nat, c: Cluster<T>, i: nat)
    ensures AllApart(Cell(n, c, i))
  {
    hide AllApart, Column;
    ColumnLaidOut(c, CenterX(n, PerRow(n), i), CenterY(PerRow(n), i), 2);
  }

  /** Twice the place of a cluster in its row, counted from the middle. */
  function Place(n: nat, perRow: nat, i: nat): int
    requires perRow > 0
  {
    2 * ColumnOf(n, perRow, i) - RowCount(n, perRow, i / perRow) + 1
  }

  lemma CenterIsPlace(n: nat, perRow: nat, i: nat)
    requires perRow > 0
    ensures CenterX(n, perRow, i) == Place(n, perRow, i) as real * 524.0
  {
    hide ColumnOf, RowCount;
    var a, b := ColumnOf(n, perRow, i), RowCount(n, perRow, i / perRow);
    assert (2 * a - b + 1) as real == 2.0 * a as real - b as real + 1.0;
    assert (b - 1) as real == b as real - 1.0;
    assert SPAN == 1048.0;
  }

  lemma PlacesFar(a: int, b: int)
    ensures a > b ==> a as real * 524.0 - b as real * 524.0 >= 524.0
  {
    if a > b { assert a as real - b as real == (a - b) as real >= 1.0; }
  }

  /** Centres that differ do so by at least half a cell. */
  lemma CentersFar(n: nat, i: nat, j: nat)
    ensures
      var x, x' := CenterX(n, PerRow(n), i), CenterX(n, PerRow(n), j);
      x == x' || x - x' >= 524.0 || x' - x >= 524.0
  {
    hide CenterX, Place, PerRow;
    PerRowPositive(n);
    CenterIsPlace(n, PerRow(n), i);
    CenterIsPlace(n, PerRow(n), j);
    var a, b := Place(n, PerRow(n), i), Place(n, PerRow(n), j);
    PlacesFar(a, b);
    PlacesFar(b, a);
  }

  lemma SameCenterOtherRow(n: nat, i: nat, j: nat)
    requires i < j && CenterX(n, PerRow(n), i) == CenterX(n, PerRow(n), j)
    ensures i / PerRow(n) < j / PerRow(n)
  {
    hide PerRow;
    PerRowPositive(n);
    CellsDiffer(n, PerRow(n), i, j);
    CellOrder(i, j, PerRow(n));
  }

  lemma RowFull(n: nat, perRow: nat, row: nat, j: nat)
    requires perRow > 0 && row < j / perRow && j < n
    ensures RowCount(n, perRow, row) == perRow && (row + 1) * perRow <= j
  {
    MulLe(row + 1, j / perRow, perRow);
    assert j / perRow * perRow <= j;
  }

  lemma MulLe(a: nat, b: nat, c: nat)
    requires a <= b
    ensures a * c <= b * c
  {
    if a < b { MulStep(b, a, c); }
  }

  lemma DivMod(row: nat, pos: nat, perRow: nat)
    requires pos < perRow
    ensures (row * perRow + pos) / perRow == row && (row * perRow + pos) % perRow == pos
  {
    var i := row * perRow + pos;
    assert i == i / perRow * perRow + i % perRow;
    if i / perRow < row { MulStep(row, i / perRow, perRow); }
    if i / perRow > row { MulStep(i / perRow, row, perRow); }
  }

  /** Rows run in turn left to right and right to left, so the mirrored position stands straight below. */
  lemma Mirrored(n: nat, perRow: nat, i: nat, h: nat)
    requires perRow > 0 && h / perRow == i / perRow + 1 && h % perRow == perRow - 1 - i % perRow
    requires RowCount(n, perRow, i / perRow) == perRow && RowCount(n, perRow, h / perRow) == perRow
    ensures CenterX(n, perRow, h) == CenterX(n, perRow, i)
  {
    hide RowCount;
    assert ColumnOf(n, perRow, h) == ColumnOf(n, perRow, i);
  }

  lemma MirrorIndex(perRow: nat, i: nat) returns (h: nat)
    requires perRow > 0
    ensures h / perRow == i / perRow + 1 && h % perRow == perRow - 1 - i % perRow
    ensures i < h < (i / perRow + 2) * perRow
  {
    var row, pos := i / perRow, i % perRow;
    h := (row + 1) * perRow + (perRow - 1 - pos);
    DivMod(row + 1, perRow - 1 - pos, perRow);
    assert (row + 2) * perRow == (row + 1) * perRow + perRow;
    assert i == row * perRow + pos && (row + 1) * perRow == row * perRow + perRow;
  }

  /** Two rows down or more means that the row between has a router straight below too. */
  lemma OneBetween(n: nat, i: nat, j: nat)
    requires i < j < n && i / PerRow(n) + 2 <= j / PerRow(n)
    ensures exists h :: StraightBelow(n, i, h)
  {
    hide PerRow, CenterX, RowCount;
    PerRowPositive(n);
    var perRow := PerRow(n);
    RowFull(n, perRow, i / perRow, j);
    RowFull(n, perRow, i / perRow + 1, j);
    var h := MirrorIndex(perRow, i);
    Mirrored(n, perRow, i, h);
    assert StraightBelow(n, i, h);
  }

  /** In a roomy layout any two cells keep apart, whatever hangs below the last row. */
  lemma RoomyPairApart<T>(clusters: seq<Cluster<T>>, i: nat, j: nat, p: Placed<T>, q: Placed<T>)
    requires Roomy(clusters) && i < j < |clusters|
    requires p in Cell(|clusters|, clusters[i], i) && q in Cell(|clusters|, clusters[j], j)
    ensures Apart(p.at, q.at)
  {
    hide Cell, CenterX, PerRow, StraightBelow;
    var n := |clusters|;
    CellBounds(n, clusters[i], i, p);
    CellBounds(n, clusters[j], j, q);
    CentersFar(n, i, j);
    PerRowPositive(n);
    if CenterX(n, PerRow(n), i) == CenterX(n, PerRow(n), j) {
      SameCenterOtherRow(n, i, j);
      if i / PerRow(n) + 1 == j / PerRow(n) {
        assert StraightBelow(n, i, j) by { Below(n, i, j); }
      } else {
        OneBetween(n, i, j);
        var h :| StraightBelow(n, i, h);
        BelowInside(n, i, h);
      }
      CellLaidOut(n, clusters[i], i);
    }
  }

  lemma Below(n: nat, i: nat, j: nat)
    requires i < j < n && j / PerRow(n) == i / PerRow(n) + 1 && CenterX(n, PerRow(n), i) == CenterX(n, PerRow(n), j)
    ensures StraightBelow(n, i, j)
  {
  }

  lemma BelowInside(n: nat, i: nat, h: nat)
    requires StraightBelow(n, i, h)
    ensures h < n
  {
  }

  lemma {:induction false} RoomyCellsApart<T>(clusters: seq<Cluster<T>>, k: nat)
    requires k <= |clusters| && Roomy(clusters)
    ensures AllApart(Cells(clusters, k))
  {
    hide Cell, Apart, Roomy;
    if k > 0 {
      var n := |clusters|;
      var a: seq<Placed<T>>, b: seq<Placed<T>> := Cells(clusters, k - 1), Cell(n, clusters[k - 1], k - 1);
      RoomyCellsApart(clusters, k - 1);
      AnyCellApart(n, clusters[k - 1], k - 1);
      forall i, j | 0 <= i < j < |a + b| ensures Apart((a + b)[i].at, (a + b)[j].at) {
        if i < |a| <= j {
          assert a[i] in a && b[j - |a|] in b;
          CellsMember(clusters, k - 1, a[i]);
          var h :| 0 <= h < k - 1 && a[i] in Cell(n, clusters[h], h);
          RoomyPairApart(clusters, h, k - 1, a[i], b[j - |a|]);
        }
      }
    }
  }

  /** The ninth member hangs at the height of the router straight below, and its box meets that router's. */
  lemma NinthMeetsBelow<T>(n: nat, c: Cluster<T>, d: Cluster<T>, i: nat, j: nat)
    requires StraightBelow(n, i, j) && |c.members| >= 9
    ensures !Apart(Cell(n, c, i)[9].at, Cell(n, d, j)[0].at)
  {
    hide CenterX, PerRow;
    var x, y := CenterX(n, PerRow(n), i), CenterY(PerRow(n), i);
    assert Cell(n, c, i)[9] == Placed(c.members[8], GridPoint(|c.members|, 8, x, y + CELL_H, 2));
    assert Cell(n, d, j)[0] == Placed(d.router, Point(x - NODE_W / 2.0, CenterY(PerRow(n), j)));
    assert 1 <= InRow(|c.members|, 4, 2) <= 2;
  }

  lemma ApartParts<T>(a: seq<Placed<T>>, b: seq<Placed<T>>)
    requires AllApart(a + b)
    ensures AllApart(a) && AllApart(b) && forall p, q :: p in a && q in b ==> Apart(p.at, q.at)
  {
    forall i, j | 0 <= i < j < |a| ensures Apart(a[i].at, a[j].at) {
      assert (a + b)[i] == a[i] && (a + b)[j] == a[j];
    }
    forall i, j | 0 <= i < j < |b| ensures Apart(b[i].at, b[j].at) {
      assert (a + b)[|a| + i] == b[i] && (a + b)[|a| + j] == b[j];
    }
    forall p, q | p in a && q in b ensures Apart(p.at, q.at) {
      var i, j :| 0 <= i < |a| && a[i] == p && 0 <= j < |b| && b[j] == q;
      assert (a + b)[i] == p && (a + b)[|a| + j] == q;
    }
  }

  lemma {:induction false} CellInside<T>(clusters: seq<Cluster<T>>, k: nat, i: nat, j: nat, p: Placed<T>, q: Placed<T>)
    requires i < j < k <= |clusters| && AllApart(Cells(clusters, k))
    requires p in Cell(|clusters|, clusters[i], i) && q in Cell(|clusters|, clusters[j], j)
    ensures Apart(p.at, q.at)
  {
    hide Cell, AllApart, Apart;
    ApartParts(Cells(clusters, k - 1), Cell(|clusters|, clusters[k - 1], k - 1));
    if j == k - 1 {
      CellsMember(clusters, k - 1, p);
    } else {
      CellInside(clusters, k - 1, i, j, p, q);
    }
  }

  /** The cells of a layout keep apart exactly if it is roomy. */
  lemma CellsApartExactly<T>(clusters: seq<Cluster<T>>)
    ensures AllApart(Cells(clusters, |clusters|)) <==> Roomy(clusters)
  {
    hide Cell, AllApart, Apart, StraightBelow;
    var n := |clusters|;
    if Roomy(clusters) { RoomyCellsApart(clusters, n); }
    if AllApart(Cells(clusters, n)) {
      forall i, j | 0 <= i < n && 0 <= j < n && StraightBelow(n, i, j) ensures |clusters[i].members| <= 8 {
        if |clusters[i].members| >= 9 {
          BelowLater(n, i, j);
          NinthMeetsBelow(n, clusters[i], clusters[j], i, j);
          CellSize(n, clusters[i], i);
          CellSize(n, clusters[j], j);
          CellInside(clusters, n, i, j, Cell(n, clusters[i], i)[9], Cell(n, clusters[j], j)[0]);
        }
      }
    }
  }

  lemma BelowLater(n: nat, i: nat, j: nat)
    requires StraightBelow(n, i, j)
    ensures i < j
  {
  }

  lemma CellSize<T>(n: nat, c: Cluster<T>, i: nat)
    ensures |Cell(n, c, i)| == |c.members| + 1
  {
  }

  /* ---------------- the whole cluster layout ---------------- */

  /** Overlapping cells spoil the layout; with nothing below the clusters, nothing else does. */
  lemma ClusterModeExactly<T>(g: Groups<T>)
    ensures AllApart(ClusterMode(g)) ==> Roomy(g.clusters)
    ensures g.unassigned == [] && g.limited == [] ==> (AllApart(ClusterMode(g)) <==> Roomy(g.clusters))
  {
    hide Grid, Cell, Cells, AllApart, Apart, CellsBottom, GroupCols, Rest, Roomy;
    var n := |g.clusters|;
    var row, cells := Grid(g.coordinators, 0.0, 0.0, Max(1, |g.coordinators|)), Cells(g.clusters, n);
    var rest := Rest(g, CellsBottom(n), GroupCols(|g.unassigned|));
    CellsApartExactly(g.clusters);
    if AllApart(ClusterMode(g)) {
      ApartParts(row + cells, rest);
      ApartParts(row, cells);
    }
    if g.unassigned == [] && g.limited == [] && Roomy(g.clusters) {
      NoRest(g, CellsBottom(n), GroupCols(0));
      OneRow(g.coordinators, 0.0, 0.0);
      forall p, q | p in row && q in cells ensures Apart(p.at, q.at) { RowAboveCells(g.clusters, row, p, q); }
      JoinApart(row, cells);
      assert row + cells + rest == row + cells;
    }
  }

  lemma NoRest<T>(g: Groups<T>, topY: real, cols: nat)
    requires g.unassigned == [] && g.limited == []
    ensures Rest(g, topY, cols) == []
  {
  }

  lemma JoinApart<T>(a: seq<Placed<T>>, b: seq<Placed<T>>)
    requires AllApart(a) && AllApart(b) && forall p, q :: p in a && q in b ==> Apart(p.at, q.at)
    ensures AllApart(a + b)
  {
    forall i, j | 0 <= i < j < |a + b| ensures Apart((a + b)[i].at, (a + b)[j].at) {
      if i < |a| <= j { assert a[i] in a && b[j - |a|] in b; }
    }
  }

  lemma RowAboveCells<T>(clusters: seq<Cluster<T>>, row: seq<Placed<T>>, p: Placed<T>, q: Placed<T>)
    requires Stacked(0.0, row, CELL_H) && p in row && q in Cells(clusters, |clusters|)
    ensures Apart(p.at, q.at)
  {
    hide Cell, Cells, CenterX, PerRow;
    var n := |clusters|;
    CellsMember(clusters, n, q);
    var i :| 0 <= i < n && q in Cell(n, clusters[i], i);
    CellBounds(n, clusters[i], i, q);
  }

  /** Nobody has more than ten members for each row of cells from its own to the last. */
  ghost predicate Short<T>(clusters: seq<Cluster<T>>) {
    var n, perRow := |clusters|, PerRow(|clusters|);
    forall i :: 0 <= i < n ==> |clusters[i].members| <= 10 * (GridRows(n, perRow) - i / perRow)
  }

  /** How far down a cluster hangs, in units: five rows of satellites fill a cell and the gap below it takes no more. */
  lemma HangsAbove(row: int, left: int, satelliteRows: int)
    requires satelliteRows <= 5 * left
    ensures Tall(row) + CELL_H + Down(satelliteRows) - CELL_H + NODE_H < Tall(row + left) + BAND_GAP
  {
    assert Down(satelliteRows) <= Down(5 * left);
    assert Down(5 * left) == Tall(left);
    assert Tall(row + left) == Tall(row) + Tall(left);
  }

  lemma ShortCellAbove<T>(n: nat, c: Cluster<T>, i: nat, p: Placed<T>)
    requires i < n && p in Cell(n, c, i)
    requires |c.members| <= 10 * (GridRows(n, PerRow(n)) - i / PerRow(n))
    ensures FIRST_BAND <= p.at.y && p.at.y + NODE_H < CellsBottom(n)
  {
    hide GridPoint, CenterX, PerRow;
    PerRowPositive(n);
    CellBounds(n, c, i, p);
    var x, row := CenterX(n, PerRow(n), i), i / PerRow(n);
    var y, left := CenterY(PerRow(n), i), GridRows(n, PerRow(n)) - row;
    RowFacts(n, i, PerRow(n));
    if p == Placed(c.router, Point(x - NODE_W / 2.0, y)) {
      HangsAbove(row, left, 0);
    } else {
      var k :| 0 <= k < |c.members| && Grid(c.members, x, y + CELL_H, 2)[k] == p;
      var cols := Max(1, 2);
      assert p.at == GridPoint(|c.members|, k, x, y + CELL_H, cols) && cols == 2;
      GridBounds(|c.members|, k, x, y + CELL_H, cols);
      HangsAbove(row, left, GridRows(|c.members|, 2));
    }
  }

  /**
   Whatever stands below the clusters: no boxes overlap if the layout is roomy and no cluster hangs below the
   last row of cells by more than the gap.
   */
  lemma ClusterModeClear<T>(g: Groups<T>)
    requires Roomy(g.clusters) && Short(g.clusters)
    ensures AllApart(ClusterMode(g))
  {
    hide AllApart, Grid, Cell, Cells, CellsBottom, Rest, RestBottom, GroupCols, Roomy, PerRow;
    var n := |g.clusters|;
    var row, cells := Grid(g.coordinators, 0.0, 0.0, Max(1, |g.coordinators|)), Cells(g.clusters, n);
    var cols := GroupCols(|g.unassigned|);
    OneRow(g.coordinators, 0.0, 0.0);
    RoomyCellsApart(g.clusters, n);
    forall p | p in cells ensures FIRST_BAND <= p.at.y && p.at.y + NODE_H < CellsBottom(n) {
      CellsMember(g.clusters, n, p);
      var i :| 0 <= i < n && p in Cell(n, g.clusters[i], i);
      ShortCellAbove(n, g.clusters[i], i, p);
    }
    BottomBelow(n);
    BelowApart(row, cells, 0.0, CELL_H, FIRST_BAND, CellsBottom(n));
    RestLaidOut(g, CellsBottom(n), cols);
    BelowApart(row + cells, Rest(g, CellsBottom(n), cols), 0.0, CellsBottom(n), CellsBottom(n),
               RestBottom(g, CellsBottom(n), cols));
  }

  /**
   The cluster layout of these devices and edges: if no two boxes overlap, nobody with a ninth member
   stands above another router; where every device belongs to a router, that is exactly the condition, and
   elsewhere it is enough together with clusters that do not hang far below the last row.
   */
  lemma ClusterLayoutExactly(rank: string -> int, devices: seq<Device>, edges: seq<Edge>)
    requires UniqueIds(devices)
    ensures
      var g := GroupsOf(rank, devices, edges);
      var written := Placements(rank, devices, edges, Clusters);
      && (AllApart(written) ==> Roomy(g.clusters))
      && (g.unassigned == [] && g.limited == [] ==>
            && (AllApart(written) <==> Roomy(g.clusters))
            && (Roomy(g.clusters) ==> NoOverlap(Layout(rank, devices, edges, Clusters))))
      && (Roomy(g.clusters) && Short(g.clusters) ==> NoOverlap(Layout(rank, devices, edges, Clusters)))
  {
    hide GroupsOf, ClusterMode, AllApart, Roomy, Short, Layout, NoOverlap, Apply, UniqueIds;
    ClusterModeExactly(GroupsOf(rank, devices, edges));
    EveryDevicePlaced(rank, devices, edges, Clusters);
    var g := GroupsOf(rank, devices, edges);
    if Roomy(g.clusters) && Short(g.clusters) { ClusterModeClear(g); }
    if AllApart(Placements(rank, devices, edges, Clusters)) { ApplyApart(Placements(rank, devices, edges, Clusters)); }
  }

  /* ---------------- the budget ---------------- */

  /** Four routers, of which the first has nine members. */
  function Crowded(): Groups<string> {
    Groups([], [Cluster("r1", ["1", "2", "3", "4", "5", "6", "7", "8", "9"]), Cluster("r2", []), Cluster("r3", []),
                Cluster("r4", [])], [], [])
  }

  lemma PerRowOfFour()
    ensures PerRow(4) == 2
  {
    assert CeilSqrtFrom(4, 2) == 2;
    assert CeilSqrtFrom(4, 1) == 2;
  }

  /** The fourth router stands straight below the first, whose ninth member meets it. */
  lemma NineMembersOverlap()
    ensures Within(Crowded().clusters, 9) && !AllApart(ClusterMode(Crowded()))
  {
    hide AllApart, ClusterMode;
    PerRowOfFour();
    assert StraightBelow(4, 0, 3);
    ClusterModeExactly(Crowded());
  }

  /** A bound on cluster sizes keeps every cluster layout clear exactly when it is at most eight. */
  lemma EightIsTheBudget(most: nat)
    ensures (forall g: Groups<string> | Within(g.clusters, most) :: AllApart(ClusterMode(g))) <==> most <= 8
  {
    if most <= 8 {
      forall g: Groups<string> | Within(g.clusters, most) ensures AllApart(ClusterMode(g)) { ClusterModeApart(g); }
    } else {
      NineMembersOverlap();
      assert Within(Crowded().clusters, most);
    }
  }
}
