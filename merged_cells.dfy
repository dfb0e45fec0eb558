/**
 * The merged-region densifier: a merged block of a sheet keeps its value only
 * in its top-left (anchor) cell, and processMergedCells copies that value into
 * every other cell of the block that exists in the ragged grid.
 */
module MergedCells {
  import opened Cells

  /** CellRangeAddress: 0-based, inclusive bounds. */
  datatype Region = Region(firstRow: nat, lastRow: nat, firstCol: nat, lastCol: nat)

  predicate InRegion(g: Region, r: int, c: int) {
    g.firstRow <= r <= g.lastRow && g.firstCol <= c <= g.lastCol
  }

  /** Two regions share no cell. */
  predicate Disjoint(a: Region, b: Region) {
    a.lastRow < b.firstRow || b.lastRow < a.firstRow || a.lastCol < b.firstCol || b.lastCol < a.firstCol
  }

  predicate PairwiseDisjoint(regions: seq<Region>) {
    forall i, j :: 0 <= i < j < |regions| ==> Disjoint(regions[i], regions[j])
  }

  /** Same number of rows, and each row the same length. */
  predicate SameShape(a: Grid, b: Grid) {
    |a| == |b| && forall r :: 0 <= r < |a| ==> |a[r]| == |b[r]|
  }

  /** The source reads every region's anchor unguarded, so each must lie in the grid. */
  predicate AnchorsInside(g: Grid, regions: seq<Region>) {
    forall k :: 0 <= k < |regions| ==> HasCell(g, regions[k].firstRow, regions[k].firstCol)
  }

  /** The grid after one region's loops: every existing cell of the region holds the anchor's value. */
  function ApplyRegion(g: Grid, region: Region): (h: Grid)
    requires HasCell(g, region.firstRow, region.firstCol)
    ensures SameShape(g, h)
  {
    var v := g[region.firstRow][region.firstCol];
    seq(|g|, r requires 0 <= r < |g| =>
      seq(|g[r]|, c requires 0 <= c < |g[r]| => if InRegion(region, r, c) then v else g[r][c]))
  }

  /** The regions are handled one after the other, in the order the sheet lists them. */
  function Densify(g: Grid, regions: seq<Region>): (h: Grid)
    requires AnchorsInside(g, regions)
    ensures SameShape(g, h)
    decreases |regions|
  {
    if regions == [] then g
    else Densify(ApplyRegion(g, regions[0]), regions[1..])
  }

  /**
   * With pairwise disjoint regions, every existing cell of a region ends up
   * equal to that region's anchor as it was before densifying, and every cell
   * outside all regions is unchanged.
   */
  lemma DensifyDisjoint(g: Grid, regions: seq<Region>)
    requires AnchorsInside(g, regions) && PairwiseDisjoint(regions)
    ensures forall k, r, c :: 0 <= k < |regions| && HasCell(g, r, c) && InRegion(regions[k], r, c) ==>
      Densify(g, regions)[r][c] == g[regions[k].firstRow][regions[k].firstCol]
    ensures forall r, c :: HasCell(g, r, c) && (forall k :: 0 <= k < |regions| ==> !InRegion(regions[k], r, c)) ==>
      Densify(g, regions)[r][c] == g[r][c]
  {
    forall k, r, c | 0 <= k < |regions| && HasCell(g, r, c) && InRegion(regions[k], r, c)
      ensures Densify(g, regions)[r][c] == g[regions[k].firstRow][regions[k].firstCol]
    {
      DensifyInside(g, regions, k, r, c);
    }
    forall r, c | HasCell(g, r, c) && (forall k :: 0 <= k < |regions| ==> !InRegion(regions[k], r, c))
      ensures Densify(g, regions)[r][c] == g[r][c]
    {
      DensifyOutside(g, regions, r, c);
    }
  }

  /** A cell of a region takes the value its anchor had before densifying. */
  lemma {:induction false} DensifyInside(g: Grid, regions: seq<Region>, k: nat, r: nat, c: nat)
    requires AnchorsInside(g, regions) && PairwiseDisjoint(regions)
    requires k < |regions| && HasCell(g, r, c) && InRegion(regions[k], r, c)
    ensures Densify(g, regions)[r][c] == g[regions[k].firstRow][regions[k].firstCol]
    decreases |regions|
  {
    var g1 := ApplyRegion(g, regions[0]);
    var rest := regions[1..];
    AnchorsInsideTail(g, regions);
    DisjointTail(regions);
    if k == 0 {
      forall j | 0 <= j < |rest| ensures !InRegion(rest[j], r, c) {
        assert rest[j] == regions[j + 1];
      }
      DensifyOutside(g1, rest, r, c);
    } else {
      assert rest[k - 1] == regions[k];
      DensifyInside(g1, rest, k - 1, r, c);
      assert InRegion(regions[k], regions[k].firstRow, regions[k].firstCol);
      assert !InRegion(regions[0], regions[k].firstRow, regions[k].firstCol);
    }
  }

  /** A cell outside every region keeps its value. */
  lemma {:induction false} DensifyOutside(g: Grid, regions: seq<Region>, r: nat, c: nat)
    requires AnchorsInside(g, regions) && HasCell(g, r, c)
    requires forall k :: 0 <= k < |regions| ==> !InRegion(regions[k], r, c)
    ensures Densify(g, regions)[r][c] == g[r][c]
    decreases |regions|
  {
    if regions != [] {
      var rest := regions[1..];
      AnchorsInsideTail(g, regions);
      assert !InRegion(regions[0], r, c);
      forall j | 0 <= j < |rest| ensures !InRegion(rest[j], r, c) {
        assert rest[j] == regions[j + 1];
      }
      DensifyOutside(ApplyRegion(g, regions[0]), rest, r, c);
    }
  }

  /** After the first region, the remaining anchors still lie in the grid. */
  lemma AnchorsInsideTail(g: Grid, regions: seq<Region>)
    requires regions != [] && AnchorsInside(g, regions)
    ensures AnchorsInside(ApplyRegion(g, regions[0]), regions[1..])
  {
    var rest := regions[1..];
    forall k | 0 <= k < |rest| ensures HasCell(ApplyRegion(g, regions[0]), rest[k].firstRow, rest[k].firstCol) {
      assert rest[k] == regions[k + 1];
    }
  }

  lemma DisjointTail(regions: seq<Region>)
    requires regions != [] && PairwiseDisjoint(regions)
    ensures PairwiseDisjoint(regions[1..])
    ensures forall j :: 1 <= j < |regions| ==> Disjoint(regions[0], regions[j])
  {
    var rest := regions[1..];
    forall i, j | 0 <= i < j < |rest| ensures Disjoint(rest[i], rest[j]) {
      assert rest[i] == regions[i + 1] && rest[j] == regions[j + 1];
    }
  }

  /** Densifying never adds or removes a row or changes a row's length. */
  lemma DensifyKeepsShape(g: Grid, regions: seq<Region>)
    requires AnchorsInside(g, regions)
    ensures |Densify(g, regions)| == |g|
    ensures forall r :: 0 <= r < |g| ==> |Densify(g, regions)[r]| == |g[r]|
  {
  }

  /** With pairwise disjoint regions, densifying a densified grid changes nothing. */
  lemma DensifyIdempotent(g: Grid, regions: seq<Region>)
    requires AnchorsInside(g, regions) && PairwiseDisjoint(regions)
    ensures AnchorsInside(Densify(g, regions), regions)
    ensures Densify(Densify(g, regions), regions) == Densify(g, regions)
  {
    var d := Densify(g, regions);
    DensifyDisjoint(g, regions);
    DensifyDisjoint(d, regions);
    var e := Densify(d, regions);
    forall k | 0 <= k < |regions| && regions[k].firstRow <= regions[k].lastRow && regions[k].firstCol <= regions[k].lastCol
      ensures d[regions[k].firstRow][regions[k].firstCol] == g[regions[k].firstRow][regions[k].firstCol]
    {
      assert InRegion(regions[k], regions[k].firstRow, regions[k].firstCol);
    }
    forall r | 0 <= r < |d| ensures e[r] == d[r] {
      forall c | 0 <= c < |d[r]| ensures e[r][c] == d[r][c] {
        assert HasCell(d, r, c) && HasCell(g, r, c);
        forall k | 0 <= k < |regions| && InRegion(regions[k], r, c)
          ensures e[r][c] == d[r][c]
        {
          assert InRegion(regions[k], regions[k].firstRow, regions[k].firstCol);
        }
      }
    }
  }

  /** One sheet's rows, updated in place by the densifier. */
  class SheetGrid {
    var data: Grid

    constructor (rows: Grid)
      ensures data == rows
    {
      data := rows;
    }

    /**
     * processMergedCells: for each region, copy the anchor's value into every
     * other cell of the region that lies inside the grid; cells outside the
     * grid are skipped silently.
     */
    method ProcessMergedCells(mergedRegions: seq<Region>)
      requires AnchorsInside(data, mergedRegions)
      modifies this
      ensures data == Densify(old(data), mergedRegions)
    {
      ghost var start := data;
      var k := 0;
      while k < |mergedRegions|
        invariant 0 <= k <= |mergedRegions|
        invariant SameShape(start, data)
        invariant AnchorsInside(data, mergedRegions[k..])
        invariant Densify(data, mergedRegions[k..]) == Densify(start, mergedRegions)
      {
        var region := mergedRegions[k];
        assert HasCell(data, region.firstRow, region.firstCol) by {
          assert mergedRegions[k..][0] == region;
        }
        FillRegion(region);
        assert mergedRegions[k..][1..] == mergedRegions[k + 1..];
        k := k + 1;
      }
    }

    /** The body of the region loop: the row and column loops over one region. */
    method FillRegion(region: Region)
      requires HasCell(data, region.firstRow, region.firstCol)
      modifies this
      ensures data == ApplyRegion(old(data), region)
    {
      ghost var before := data;
      var value := data[region.firstRow][region.firstCol];
      var row := region.firstRow;
      while row <= region.lastRow
        invariant region.firstRow <= row
        invariant SameShape(before, data)
        invariant forall r, c :: HasCell(before, r, c) ==>
          data[r][c] == if InRegion(region, r, c) && r < row then value else before[r][c]
      {
        var col := region.firstCol;
        while col <= region.lastCol
          invariant region.firstCol <= col
          invariant SameShape(before, data)
          invariant forall r, c :: HasCell(before, r, c) ==>
            data[r][c] == if InRegion(region, r, c) && (r < row || (r == row && c < col)) then value else before[r][c]
        {
          if row != region.firstRow || col != region.firstCol {
            if row < |data| && col < |data[row]| {
              data := data[row := data[row][col := value]];
            }
          }
          col := col + 1;
        }
        row := row + 1;
      }
      assert data == ApplyRegion(before, region) by {
        var h := ApplyRegion(before, region);
        forall r | 0 <= r < |data| ensures data[r] == h[r] {
        }
      }
    }
  }

  /** The three densified sheets a conversion works from (ExcelSheetData). */
  datatype SheetData = SheetData(voltageHarmonic: Grid, currentHarmonic: Grid, power: Grid)

  /**
   * parseExcelFromStream after the sheets are read: each of the three sheets
   * is densified with its own merged regions before it is stored.
   */
  method ParseSheets(voltage: Grid, voltageRegions: seq<Region>,
                     current: Grid, currentRegions: seq<Region>,
                     power: Grid, powerRegions: seq<Region>) returns (data: SheetData)
    requires AnchorsInside(voltage, voltageRegions)
    requires AnchorsInside(current, currentRegions)
    requires AnchorsInside(power, powerRegions)
    ensures data.voltageHarmonic == Densify(voltage, voltageRegions)
    ensures data.currentHarmonic == Densify(current, currentRegions)
    ensures data.power == Densify(power, powerRegions)
  {
    var v := new SheetGrid(voltage);
    v.ProcessMergedCells(voltageRegions);
    var c := new SheetGrid(current);
    c.ProcessMergedCells(currentRegions);
    var p := new SheetGrid(power);
    p.ProcessMergedCells(powerRegions);
    data := SheetData(v.data, c.data, p.data);
  }
}
