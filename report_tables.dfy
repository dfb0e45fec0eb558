/**
 * The four statistics tables of the report template and the methods that
 * fill them from the densified sheets. A table is an object whose cells are
 * rewritten in place; every fill method is specified cell by cell: a
 * reference function names the text a cell ends up holding, or None for a
 * cell the fill leaves alone.
 */
module ReportTables {
  import opened Wrappers
  import opened Cells
  import opened DocModel
  import opened Placeholders
  import opened ReplaceMaps

  /** The dash written where a limit does not apply. */
  const NOT_APPLICABLE := "—"

  /** Sheet columns of the six statistics (average and 95 % value of three phases). */
  const PHASE_COLUMNS: seq<nat> := [3, 5, 8, 10, 13, 15]
  /** Sheet column of the limit values. */
  const LIMIT_COLUMN := 17
  /** Sheet rows: the fundamental, the 2nd to 25th harmonics, the total distortion. */
  const FUNDAMENTAL_ROW := 9
  const FIRST_HARMONIC_ROW := 10
  const LAST_HARMONIC_ROW := 33
  const THD_ROW := 59
  /** Table rows: the fundamental row, the first harmonic row, the distortion row. */
  const TABLE_FUNDAMENTAL_ROW := 2
  const TABLE_FIRST_HARMONIC_ROW := 3
  const TABLE_THD_ROW := 27

  /** A cell after a fill: rewritten by setCellText, or as it was. */
  function CellAfter(before: CellBody, text: Option<string>): CellBody {
    if text.Some? then CellWithText(text.value) else before
  }

  /** XWPFTable: the rows of cells the fill methods rewrite. */
  class TemplateTable {
    var rows: Rows

    constructor (initial: Rows)
      ensures rows == initial
    {
      rows := initial;
    }

    /** setCellText: the cell's paragraphs are replaced by one centred run of the text. */
    method SetCellText(r: nat, c: nat, text: string)
      requires HasTableCell(rows, r, c)
      modifies this
      ensures rows == old(rows)[r := old(rows)[r][c := CellWithText(text)]]
    {
      rows := rows[r := rows[r][c := CellWithText(text)]];
    }

    /**
     * The guard every harmonic-table write carries: the row must exist and
     * have more than `minCells` cells.
     */
    method SetCellTextIf(r: nat, c: nat, minCells: nat, text: string)
      requires c <= minCells
      modifies this
      ensures SameTableShape(old(rows), rows)
      ensures forall i, j :: HasTableCell(rows, i, j) ==>
        rows[i][j] == if i == r && j == c && |rows| > r && |rows[r]| > minCells then CellWithText(text) else old(rows)[i][j]
    {
      if |rows| > r && |rows[r]| > minCells {
        SetCellText(r, c, text);
      }
    }

    /**
     * A column loop: the i-th value goes to row 3 + i of table column `col`,
     * for every such row that exists and reaches that column.
     */
    method FillColumn(ops: FloatOps, col: nat, values: seq<Double>)
      modifies this
      ensures SameTableShape(old(rows), rows)
      ensures forall r, c :: HasTableCell(rows, r, c) ==>
        rows[r][c] == CellAfter(old(rows)[r][c], ColumnCellText(ops, col, values, r, c))
    {
      ghost var before := rows;
      var i := 0;
      while i < |values|
        invariant 0 <= i <= |values|
        invariant SameTableShape(before, rows)
        invariant forall r, c :: HasTableCell(rows, r, c) ==>
          rows[r][c] == CellAfter(before[r][c], ColumnCellText(ops, col, values[..i], r, c))
      {
        SetCellTextIf(TABLE_FIRST_HARMONIC_ROW + i, col, col, ops.format2(values[i]));
        assert forall k :: 0 <= k < i ==> values[..i + 1][k] == values[..i][k];
        i := i + 1;
      }
      assert values[..i] == values;
    }

    /**
     * The table half of replacePlaceholders: every run of every paragraph
     * of every cell, row by row and cell by cell.
     */
    method SubstitutePlaceholders(entries: Entries)
      modifies this
      ensures rows == SubstituteRows(old(rows), entries)
    {
      ghost var before := rows;
      var r := 0;
      while r < |rows|
        invariant 0 <= r <= |rows| == |before|
        invariant forall i :: 0 <= i < r ==> rows[i] == SubstituteRowCells(before[i], entries)
        invariant forall i :: r <= i < |rows| ==> rows[i] == before[i]
      {
        var c := 0;
        while c < |rows[r]|
          invariant |rows| == |before| && r < |rows|
          invariant 0 <= c <= |rows[r]| == |before[r]|
          invariant forall i :: 0 <= i < r ==> rows[i] == SubstituteRowCells(before[i], entries)
          invariant forall i :: r < i < |rows| ==> rows[i] == before[i]
          invariant forall j :: 0 <= j < c ==> rows[r][j] == SubstituteCell(before[r][j], entries)
          invariant forall j :: c <= j < |rows[r]| ==> rows[r][j] == before[r][j]
        {
          var cell := SubstituteCellParagraphs(rows[r][c], entries);
          rows := rows[r := rows[r][c := cell]];
          c := c + 1;
        }
        assert rows[r] == SubstituteRowCells(before[r], entries);
        r := r + 1;
      }
      assert rows == SubstituteRows(before, entries);
    }
  }

  /** The text FillColumn writes into a cell, if any. */
  function ColumnCellText(ops: FloatOps, col: nat, values: seq<Double>, r: int, c: int): Option<string> {
    if c == col && TABLE_FIRST_HARMONIC_ROW <= r < TABLE_FIRST_HARMONIC_ROW + |values|
    then Some(ops.format2(values[r - TABLE_FIRST_HARMONIC_ROW]))
    else None
  }

  // ---------------------------------------------------------------------
  // Harmonic voltage table and harmonic current table
  // ---------------------------------------------------------------------

  /** Every sheet cell the two harmonic fills read exists. */
  predicate HarmonicSheet(data: Grid) {
    |data| > THD_ROW && |data[FUNDAMENTAL_ROW]| > PHASE_COLUMNS[5] && |data[THD_ROW]| > LIMIT_COLUMN &&
    forall i :: FIRST_HARMONIC_ROW <= i <= LAST_HARMONIC_ROW ==> |data[i]| > LIMIT_COLUMN
  }

  /** The sheet column a harmonic-table column 2..8 takes its values from. */
  function HarmonicSource(c: int): nat
    requires 2 <= c <= 8
  {
    if c == 8 then LIMIT_COLUMN else PHASE_COLUMNS[c - 2]
  }

  /**
   * The harmonic block shared by both harmonic tables: table row 3 + i holds
   * harmonic i (sheet row 10 + i) and table column c holds statistic
   * c - 2, column 8 the limit; a cell is written exactly when it exists.
   */
  function HarmonicBlockText(ops: FloatOps, data: Grid, rows: Rows, r: int, c: int): Option<string>
    requires HarmonicSheet(data)
  {
    if TABLE_FIRST_HARMONIC_ROW <= r < TABLE_THD_ROW && 2 <= c <= 8 && HasTableCell(rows, r, c)
    then Some(ops.format2(GetDoubleValue(ops, data[r + FIRST_HARMONIC_ROW - TABLE_FIRST_HARMONIC_ROW][HarmonicSource(c)])))
    else None
  }

  /**
   * fillVoltageHarmonicTable, cell by cell: row 2 columns 1..6 hold the six
   * fundamentals in kilovolts and column 7 the dash; rows 3..26 the harmonic
   * block; row 27 columns 1..6 the six distortions and column 7 the
   * distortion limit. Each row-2 and row-27 statistic is written only when
   * its row has a cell beyond it, like the source's guards.
   */
  function VoltageHarmonicText(ops: FloatOps, data: Grid, rows: Rows, r: int, c: int): Option<string>
    requires HarmonicSheet(data)
  {
    if r == TABLE_FUNDAMENTAL_ROW && 1 <= c <= 6 && |rows| > r && |rows[r]| > c + 1 then
      Some(ops.format2(ops.perThousand(GetDoubleValue(ops, data[FUNDAMENTAL_ROW][PHASE_COLUMNS[c - 1]]))))
    else if r == TABLE_FUNDAMENTAL_ROW && c == 7 then Some(NOT_APPLICABLE)
    else if r == TABLE_THD_ROW && 1 <= c <= 6 && |rows| > r && |rows[r]| > c + 1 then
      Some(ops.format2(GetDoubleValue(ops, data[THD_ROW][PHASE_COLUMNS[c - 1]])))
    else if r == TABLE_THD_ROW && c == 7 then Some(ops.format2(GetDoubleValue(ops, data[THD_ROW][LIMIT_COLUMN])))
    else HarmonicBlockText(ops, data, rows, r, c)
  }

  /** The text one phase block of fillVoltageHarmonicTable writes into a cell. */
  function PhaseCellText(ops: FloatOps, col: nat, fundamental: string, harmonics: seq<Double>, thd: string,
                         rows: Rows, r: int, c: int): Option<string>
    requires col >= 1
  {
    if r == TABLE_FUNDAMENTAL_ROW && c == col - 1 && |rows| > r && |rows[r]| > col then Some(fundamental)
    else if r == TABLE_THD_ROW && c == col - 1 && |rows| > r && |rows[r]| > col then Some(thd)
    else ColumnCellText(ops, col, harmonics, r, c)
  }

  /**
   * One of the six phase blocks: the fundamental into row 2, the harmonics
   * down table column `col`, the distortion into row 27, the fundamental
   * and distortion one column to the left of the harmonics.
   */
  method FillVoltagePhase(table: TemplateTable, ops: FloatOps, col: nat, fundamental: string, harmonics: seq<Double>, thd: string)
    requires col >= 1 && |harmonics| == 24
    modifies table
    ensures SameTableShape(old(table.rows), table.rows)
    ensures forall r, c :: HasTableCell(table.rows, r, c) ==>
      table.rows[r][c] == CellAfter(old(table.rows)[r][c], PhaseCellText(ops, col, fundamental, harmonics, thd, old(table.rows), r, c))
  {
    table.SetCellTextIf(TABLE_FUNDAMENTAL_ROW, col - 1, col, fundamental);
    table.FillColumn(ops, col, harmonics);
    table.SetCellTextIf(TABLE_THD_ROW, col - 1, col, thd);
  }

  /**
   * fillVoltageHarmonicTable. The source writes the six statistic blocks out
   * one after the other; here they are one loop over PHASE_COLUMNS, in the
   * same order. The source reads every sheet value first and writes
   * afterwards; the sheet is never written, so reading each block's values
   * just before writing them gives the same texts. The dash into (2, 7) and the distortion
   * limit into (27, 7) are written unguarded, so those cells must exist.
   */
  method FillVoltageHarmonicTable(table: TemplateTable, ops: FloatOps, data: Grid)
    requires HarmonicSheet(data)
    requires |table.rows| > TABLE_THD_ROW && |table.rows[TABLE_FUNDAMENTAL_ROW]| > 7 && |table.rows[TABLE_THD_ROW]| > 7
    modifies table
    ensures SameTableShape(old(table.rows), table.rows)
    ensures forall r, c :: HasTableCell(table.rows, r, c) ==>
      table.rows[r][c] == CellAfter(old(table.rows)[r][c], VoltageHarmonicText(ops, data, old(table.rows), r, c))
  {
    ghost var before := table.rows;
    NoPhaseYet(ops, data, before);
    var p := 0;
    while p < 6
      invariant 0 <= p <= 6
      invariant table.rows == VoltagePhasesTable(ops, data, before, p)
    {
      FillVoltagePhaseBlock(table, ops, data, before, p);
      p := p + 1;
    }
    var limits := ReadColumnRange(ops, data, LIMIT_COLUMN, FIRST_HARMONIC_ROW, LAST_HARMONIC_ROW);
    var limitThd := GetDoubleValue(ops, data[THD_ROW][LIMIT_COLUMN]);
    FinishVoltageTable(table, ops, data, before, limits, limitThd);
  }

  /**
   * The block of statistic `p`: its fundamental, its harmonic column and its
   * distortion are read from the sheet and written into the table.
   */
  method FillVoltagePhaseBlock(table: TemplateTable, ops: FloatOps, data: Grid, ghost before: Rows, p: nat)
    requires HarmonicSheet(data) && p < 6
    requires table.rows == VoltagePhasesTable(ops, data, before, p)
    modifies table
    ensures table.rows == VoltagePhasesTable(ops, data, before, p + 1)
  {
    var fundamental, harmonics, thd := ReadPhase(ops, data, p);
    ghost var mid := table.rows;
    FillVoltagePhase(table, ops, p + 2, ops.format2(ops.perThousand(fundamental)), harmonics, ops.format2(thd));
    VoltagePhaseStep(ops, data, before, mid, table.rows, p, (fundamental, harmonics, thd));
  }

  /** The last phase block's table, with the limit column and the two unguarded cells still to come. */
  method FinishVoltageTable(table: TemplateTable, ops: FloatOps, data: Grid, ghost before: Rows, limits: seq<Double>, limitThd: Double)
    requires HarmonicSheet(data) && table.rows == VoltagePhasesTable(ops, data, before, 6)
    requires |limits| == 24 && forall i :: 0 <= i < 24 ==> limits[i] == GetDoubleValue(ops, data[FIRST_HARMONIC_ROW + i][LIMIT_COLUMN])
    requires limitThd == GetDoubleValue(ops, data[THD_ROW][LIMIT_COLUMN])
    requires |before| > TABLE_THD_ROW && |before[TABLE_FUNDAMENTAL_ROW]| > 7 && |before[TABLE_THD_ROW]| > 7
    modifies table
    ensures SameTableShape(before, table.rows)
    ensures forall r, c :: HasTableCell(table.rows, r, c) ==>
      table.rows[r][c] == CellAfter(before[r][c], VoltageHarmonicText(ops, data, before, r, c))
  {
    ghost var mid := table.rows;
    table.FillColumn(ops, 8, limits);
    table.SetCellText(TABLE_FUNDAMENTAL_ROW, 7, NOT_APPLICABLE);
    table.SetCellText(TABLE_THD_ROW, 7, ops.format2(limitThd));
    VoltageFinish(ops, data, before, mid, table.rows, limits);
  }

  /** The table after the first `n` phase blocks. */
  ghost function VoltagePhasesTable(ops: FloatOps, data: Grid, before: Rows, n: nat): (t: Rows)
    requires HarmonicSheet(data)
    ensures SameTableShape(before, t)
  {
    seq(|before|, r requires 0 <= r < |before| =>
      seq(|before[r]|, c requires 0 <= c < |before[r]| => CellAfter(before[r][c], VoltagePhasesText(ops, data, before, n, r, c))))
  }

  /** Before the first phase block nothing is written. */
  lemma NoPhaseYet(ops: FloatOps, data: Grid, before: Rows)
    requires HarmonicSheet(data)
    ensures VoltagePhasesTable(ops, data, before, 0) == before
  {
    var t := VoltagePhasesTable(ops, data, before, 0);
    forall r | 0 <= r < |before| ensures t[r] == before[r] {
    }
  }

  /** The later of two writes wins. */
  function Overlay(later: Option<string>, earlier: Option<string>): Option<string> {
    if later.Some? then later else earlier
  }

  /** One more phase block adds exactly that block's cells to the reference text. */
  lemma PhaseTextStep(ops: FloatOps, data: Grid, rows: Rows, p: nat, read: (Double, seq<Double>, Double), r: int, c: int)
    requires HarmonicSheet(data) && p < 6 && read == PhaseValues(ops, data, p) && HasTableCell(rows, r, c)
    ensures VoltagePhasesText(ops, data, rows, p + 1, r, c) ==
      Overlay(PhaseCellText(ops, p + 2, ops.format2(ops.perThousand(read.0)), read.1, ops.format2(read.2), rows, r, c),
              VoltagePhasesText(ops, data, rows, p, r, c))
  {
  }

  /** One more phase block keeps the table in step with the reference text. */
  lemma VoltagePhaseStep(ops: FloatOps, data: Grid, before: Rows, mid: Rows, now: Rows, p: nat, read: (Double, seq<Double>, Double))
    requires HarmonicSheet(data) && p < 6 && read == PhaseValues(ops, data, p)
    requires mid == VoltagePhasesTable(ops, data, before, p)
    requires SameTableShape(mid, now)
    requires forall r, c :: HasTableCell(now, r, c) ==>
      now[r][c] == CellAfter(mid[r][c], PhaseCellText(ops, p + 2, ops.format2(ops.perThousand(read.0)), read.1, ops.format2(read.2), mid, r, c))
    ensures now == VoltagePhasesTable(ops, data, before, p + 1)
  {
    var t := VoltagePhasesTable(ops, data, before, p + 1);
    forall r | 0 <= r < |now| ensures now[r] == t[r] {
      forall c | 0 <= c < |now[r]| ensures now[r][c] == t[r][c] {
        assert HasTableCell(now, r, c);
        PhaseTextStep(ops, data, before, p, read, r, c);
        assert |before| > TABLE_FUNDAMENTAL_ROW ==> |mid[TABLE_FUNDAMENTAL_ROW]| == |before[TABLE_FUNDAMENTAL_ROW]|;
        assert |before| > TABLE_THD_ROW ==> |mid[TABLE_THD_ROW]| == |before[TABLE_THD_ROW]|;
      }
    }
  }

  /** The limit column and the two unguarded cells complete the table. */
  lemma VoltageFinish(ops: FloatOps, data: Grid, before: Rows, mid: Rows, now: Rows, limits: seq<Double>)
    requires HarmonicSheet(data) && mid == VoltagePhasesTable(ops, data, before, 6)
    requires |limits| == 24 && forall i :: 0 <= i < 24 ==> limits[i] == GetDoubleValue(ops, data[FIRST_HARMONIC_ROW + i][LIMIT_COLUMN])
    requires |before| > TABLE_THD_ROW && |before[TABLE_FUNDAMENTAL_ROW]| > 7 && |before[TABLE_THD_ROW]| > 7
    requires SameTableShape(mid, now)
    requires forall r, c :: HasTableCell(now, r, c) ==>
      now[r][c] == if r == TABLE_FUNDAMENTAL_ROW && c == 7 then CellWithText(NOT_APPLICABLE)
                   else if r == TABLE_THD_ROW && c == 7 then CellWithText(ops.format2(GetDoubleValue(ops, data[THD_ROW][LIMIT_COLUMN])))
                   else CellAfter(mid[r][c], ColumnCellText(ops, 8, limits, r, c))
    ensures SameTableShape(before, now)
    ensures forall r, c :: HasTableCell(now, r, c) ==>
      now[r][c] == CellAfter(before[r][c], VoltageHarmonicText(ops, data, before, r, c))
  {
    forall r, c | HasTableCell(now, r, c)
      ensures now[r][c] == CellAfter(before[r][c], VoltageHarmonicText(ops, data, before, r, c))
    {
    }
  }

  /** The three reads of one phase block: fundamental, harmonic column, distortion. */
  method ReadPhase(ops: FloatOps, data: Grid, p: nat) returns (fundamental: Double, harmonics: seq<Double>, thd: Double)
    requires HarmonicSheet(data) && p < 6
    ensures (fundamental, harmonics, thd) == PhaseValues(ops, data, p)
  {
    fundamental := GetDoubleValue(ops, data[FUNDAMENTAL_ROW][PHASE_COLUMNS[p]]);
    harmonics := ReadColumnRange(ops, data, PHASE_COLUMNS[p], FIRST_HARMONIC_ROW, LAST_HARMONIC_ROW);
    thd := GetDoubleValue(ops, data[THD_ROW][PHASE_COLUMNS[p]]);
    assert HarmonicSource(p + 2) == PHASE_COLUMNS[p];
    forall i | 0 <= i < 24 ensures harmonics[i] == HarmonicColumnValues(ops, data, p)[i] {
      assert harmonics[i] == GetDoubleValue(ops, data[FIRST_HARMONIC_ROW + i][PHASE_COLUMNS[p]]);
    }
    assert harmonics == HarmonicColumnValues(ops, data, p);
  }

  /** The 24 harmonic values of table column k + 2 (k = 0..6): sheet rows 10..33 of its source column. */
  function HarmonicColumnValues(ops: FloatOps, data: Grid, k: nat): (values: seq<Double>)
    requires HarmonicSheet(data) && k < 7
    ensures |values| == 24
  {
    seq(24, i requires 0 <= i < 24 => GetDoubleValue(ops, data[FIRST_HARMONIC_ROW + i][HarmonicSource(k + 2)]))
  }

  /** The values one phase block reads: fundamental, harmonic column, distortion. */
  function PhaseValues(ops: FloatOps, data: Grid, p: nat): (read: (Double, seq<Double>, Double))
    requires HarmonicSheet(data) && p < 6
    ensures |read.1| == 24
  {
    (GetDoubleValue(ops, data[FUNDAMENTAL_ROW][PHASE_COLUMNS[p]]),
     HarmonicColumnValues(ops, data, p),
     GetDoubleValue(ops, data[THD_ROW][PHASE_COLUMNS[p]]))
  }

  /** What the first `n` phase blocks have written into a cell. */
  function VoltagePhasesText(ops: FloatOps, data: Grid, rows: Rows, n: nat, r: int, c: int): Option<string>
    requires HarmonicSheet(data)
  {
    if (r == TABLE_FUNDAMENTAL_ROW || r == TABLE_THD_ROW) && 1 <= c <= n && c <= 6 then VoltageHarmonicText(ops, data, rows, r, c)
    else if TABLE_FIRST_HARMONIC_ROW <= r < TABLE_THD_ROW && 2 <= c < n + 2 && c <= 7 then HarmonicBlockText(ops, data, rows, r, c)
    else None
  }

  /**
   * fillCurrentHarmonicTable, cell by cell: row 2 columns 1..6 hold the six
   * fundamentals as read (no unit change) and column 7 the dash; rows 3..26
   * hold the harmonic block. The distortion row is read but never written.
   */
  function CurrentHarmonicText(ops: FloatOps, data: Grid, rows: Rows, r: int, c: int): Option<string>
    requires HarmonicSheet(data)
  {
    if r == TABLE_FUNDAMENTAL_ROW && 1 <= c <= 6 && |rows| > r && |rows[r]| > c + 1 then
      Some(ops.format2(GetDoubleValue(ops, data[FUNDAMENTAL_ROW][PHASE_COLUMNS[c - 1]])))
    else if r == TABLE_FUNDAMENTAL_ROW && c == 7 then Some(NOT_APPLICABLE)
    else HarmonicBlockText(ops, data, rows, r, c)
  }

  /**
   * The reads of fillCurrentHarmonicTable: the six fundamentals, and the
   * seven harmonic columns (six statistics, then the limits). The six
   * distortions and the distortion limit are read too, and then not used.
   */
  method ReadCurrentSheet(ops: FloatOps, data: Grid) returns (fundamentals: seq<Double>, columns: seq<seq<Double>>)
    requires HarmonicSheet(data)
    ensures |fundamentals| == 6 && |columns| == 7
    ensures forall p :: 0 <= p < 6 ==> fundamentals[p] == GetDoubleValue(ops, data[FUNDAMENTAL_ROW][PHASE_COLUMNS[p]])
    ensures forall k :: 0 <= k < 7 ==> columns[k] == HarmonicColumnValues(ops, data, k)
  {
    fundamentals := [];
    columns := [];
    var p := 0;
    while p < 6
      invariant 0 <= p <= 6 && |fundamentals| == p && |columns| == p
      invariant forall q :: 0 <= q < p ==> fundamentals[q] == GetDoubleValue(ops, data[FUNDAMENTAL_ROW][PHASE_COLUMNS[q]])
      invariant forall k :: 0 <= k < p ==> columns[k] == HarmonicColumnValues(ops, data, k)
    {
      var fundamental, harmonics, thd := ReadPhase(ops, data, p);
      fundamentals := fundamentals + [fundamental];
      columns := columns + [harmonics];
      p := p + 1;
    }
    var limits := ReadColumnRange(ops, data, LIMIT_COLUMN, FIRST_HARMONIC_ROW, LAST_HARMONIC_ROW);
    var limitThd := GetDoubleValue(ops, data[THD_ROW][LIMIT_COLUMN]);
    forall i | 0 <= i < 24 ensures limits[i] == HarmonicColumnValues(ops, data, 6)[i] {
      assert limits[i] == GetDoubleValue(ops, data[FIRST_HARMONIC_ROW + i][LIMIT_COLUMN]);
    }
    assert limits == HarmonicColumnValues(ops, data, 6);
    columns := columns + [limits];
  }

  /**
   * One pass of the row loop: harmonic `i` of the seven columns goes to
   * table row 3 + i, columns 2..8, each cell written when it exists.
   */
  method FillCurrentRow(table: TemplateTable, ops: FloatOps, i: nat, values: seq<Double>)
    requires |values| == 7
    modifies table
    ensures SameTableShape(old(table.rows), table.rows)
    ensures forall r, c :: HasTableCell(table.rows, r, c) ==>
      table.rows[r][c] == if r == TABLE_FIRST_HARMONIC_ROW + i && 2 <= c <= 8 then CellWithText(ops.format2(values[c - 2])) else old(table.rows)[r][c]
  {
    ghost var before := table.rows;
    var k := 0;
    while k < 7
      invariant 0 <= k <= 7
      invariant SameTableShape(before, table.rows)
      invariant forall r, c :: HasTableCell(table.rows, r, c) ==>
        table.rows[r][c] == if r == TABLE_FIRST_HARMONIC_ROW + i && 2 <= c < k + 2 then CellWithText(ops.format2(values[c - 2])) else before[r][c]
    {
      table.SetCellTextIf(TABLE_FIRST_HARMONIC_ROW + i, k + 2, k + 2, ops.format2(values[k]));
      k := k + 1;
    }
  }

  /**
   * fillCurrentHarmonicTable: the six fundamentals (written out one by one in
   * the source, a loop here), the row loop over the 24 harmonics, and the
   * dash into (2, 7), which is written unguarded.
   */
  method FillCurrentHarmonicTable(table: TemplateTable, ops: FloatOps, data: Grid)
    requires HarmonicSheet(data)
    requires |table.rows| > TABLE_FUNDAMENTAL_ROW && |table.rows[TABLE_FUNDAMENTAL_ROW]| > 7
    modifies table
    ensures SameTableShape(old(table.rows), table.rows)
    ensures forall r, c :: HasTableCell(table.rows, r, c) ==>
      table.rows[r][c] == CellAfter(old(table.rows)[r][c], CurrentHarmonicText(ops, data, old(table.rows), r, c))
  {
    ghost var before := table.rows;
    var fundamentals, columns := ReadCurrentSheet(ops, data);
    FillCurrentFundamentals(table, ops, data, fundamentals);
    FillCurrentRows(table, ops, data, before, columns);
    table.SetCellText(TABLE_FUNDAMENTAL_ROW, 7, NOT_APPLICABLE);
  }

  /** The six fundamentals into row 2, columns 1..6, each guarded by a cell beyond it. */
  method FillCurrentFundamentals(table: TemplateTable, ops: FloatOps, data: Grid, fundamentals: seq<Double>)
    requires HarmonicSheet(data) && |fundamentals| == 6
    requires forall p :: 0 <= p < 6 ==> fundamentals[p] == GetDoubleValue(ops, data[FUNDAMENTAL_ROW][PHASE_COLUMNS[p]])
    modifies table
    ensures SameTableShape(old(table.rows), table.rows)
    ensures forall r, c :: HasTableCell(table.rows, r, c) ==>
      table.rows[r][c] == CellAfter(old(table.rows)[r][c], CurrentRowsText(ops, data, old(table.rows), 0, r, c))
  {
    ghost var before := table.rows;
    var p := 0;
    while p < 6
      invariant 0 <= p <= 6
      invariant SameTableShape(before, table.rows)
      invariant forall r, c :: HasTableCell(table.rows, r, c) ==>
        table.rows[r][c] == CellAfter(before[r][c], if r == TABLE_FUNDAMENTAL_ROW && c <= p then CurrentHarmonicText(ops, data, before, r, c) else None)
    {
      table.SetCellTextIf(TABLE_FUNDAMENTAL_ROW, p + 1, p + 2, ops.format2(fundamentals[p]));
      p := p + 1;
    }
  }

  /** The row loop over the 24 harmonics, after the fundamentals. */
  method FillCurrentRows(table: TemplateTable, ops: FloatOps, data: Grid, ghost before: Rows, columns: seq<seq<Double>>)
    requires HarmonicSheet(data) && |columns| == 7
    requires forall k :: 0 <= k < 7 ==> columns[k] == HarmonicColumnValues(ops, data, k)
    requires SameTableShape(before, table.rows)
    requires forall r, c :: HasTableCell(table.rows, r, c) ==>
      table.rows[r][c] == CellAfter(before[r][c], CurrentRowsText(ops, data, before, 0, r, c))
    modifies table
    ensures SameTableShape(before, table.rows)
    ensures forall r, c :: HasTableCell(table.rows, r, c) ==>
      table.rows[r][c] == CellAfter(before[r][c], CurrentRowsText(ops, data, before, 24, r, c))
  {
    var i := 0;
    while i < 24
      invariant 0 <= i <= 24
      invariant SameTableShape(before, table.rows)
      invariant forall r, c :: HasTableCell(table.rows, r, c) ==>
        table.rows[r][c] == CellAfter(before[r][c], CurrentRowsText(ops, data, before, i, r, c))
    {
      var values := [columns[0][i], columns[1][i], columns[2][i], columns[3][i], columns[4][i], columns[5][i], columns[6][i]];
      ghost var mid := table.rows;
      FillCurrentRow(table, ops, i, values);
      CurrentRowStep(ops, data, before, mid, table.rows, i, values);
      i := i + 1;
    }
  }

  /** What the fundamentals and the first `i` passes of the row loop have written. */
  function CurrentRowsText(ops: FloatOps, data: Grid, rows: Rows, i: nat, r: int, c: int): Option<string>
    requires HarmonicSheet(data)
  {
    if r == TABLE_FUNDAMENTAL_ROW && c <= 6 then CurrentHarmonicText(ops, data, rows, r, c)
    else if TABLE_FIRST_HARMONIC_ROW <= r < TABLE_FIRST_HARMONIC_ROW + i then HarmonicBlockText(ops, data, rows, r, c)
    else None
  }

  /** One more pass of the row loop writes exactly the next harmonic row. */
  lemma CurrentRowStep(ops: FloatOps, data: Grid, before: Rows, mid: Rows, now: Rows, i: nat, values: seq<Double>)
    requires HarmonicSheet(data) && i < 24 && |values| == 7
    requires forall k :: 0 <= k < 7 ==> values[k] == GetDoubleValue(ops, data[FIRST_HARMONIC_ROW + i][HarmonicSource(k + 2)])
    requires SameTableShape(before, mid) && SameTableShape(mid, now)
    requires forall r, c :: HasTableCell(mid, r, c) ==>
      mid[r][c] == CellAfter(before[r][c], CurrentRowsText(ops, data, before, i, r, c))
    requires forall r, c :: HasTableCell(now, r, c) ==>
      now[r][c] == if r == TABLE_FIRST_HARMONIC_ROW + i && 2 <= c <= 8 then CellWithText(ops.format2(values[c - 2])) else mid[r][c]
    ensures forall r, c :: HasTableCell(now, r, c) ==>
      now[r][c] == CellAfter(before[r][c], CurrentRowsText(ops, data, before, i + 1, r, c))
  {
    forall r, c | HasTableCell(now, r, c)
      ensures now[r][c] == CellAfter(before[r][c], CurrentRowsText(ops, data, before, i + 1, r, c))
    {
      assert HasTableCell(mid, r, c) && HasTableCell(before, r, c);
    }
  }

  // ---------------------------------------------------------------------
  // Frequency deviation, voltage unbalance and long-term flicker table
  // ---------------------------------------------------------------------

  /** Power-sheet rows: frequency, voltage unbalance; voltage-sheet row: long-term flicker. */
  const FREQUENCY_ROW := 15
  const UNBALANCE_ROW := 16
  const FLICKER_ROW := 61

  /** Every power-sheet cell the fill reads exists, and the frequency limit is not null. */
  predicate PowerSheet(power: Grid) {
    |power| > UNBALANCE_ROW && |power[FREQUENCY_ROW]| > LIMIT_COLUMN && |power[UNBALANCE_ROW]| > LIMIT_COLUMN &&
    !power[FREQUENCY_ROW][LIMIT_COLUMN].Empty?
  }

  predicate FlickerSheet(voltage: Grid) {
    |voltage| > FLICKER_ROW && |voltage[FLICKER_ROW]| > LIMIT_COLUMN
  }

  /** The cells the fill writes through getRow/getCell, which must exist. */
  predicate FrequencyTableShape(rows: Rows) {
    |rows| > 5 && |rows[1]| > 5 && |rows[2]| > 5 && |rows[3]| > 6 && |rows[4]| > 6 && |rows[5]| > 6
  }

  /**
   * fillFrequencyDeviationAndVoltageUnbalanceAndLongTermFlickerTable, cell by
   * cell: row 1 holds frequency max, average, min and 95 % value less 50 Hz,
   * then the limit text as the sheet has it; row 2 the four unbalance values
   * and their limit; rows 3, 4, 5 the four flicker values of phase pair AB,
   * BC, AC (sheet columns 2..5, 7..10, 12..15) in columns 2..5 and the flicker
   * limit in column 6.
   */
  function FrequencyText(ops: FloatOps, voltage: Grid, power: Grid, r: int, c: int): Option<string>
    requires PowerSheet(power) && FlickerSheet(voltage)
  {
    if r == 1 && 1 <= c <= 4 then Some(ops.format2(ops.minusFifty(GetDoubleValue(ops, power[FREQUENCY_ROW][c + 1]))))
    else if r == 1 && c == 5 then Some(CellString(ops, power[FREQUENCY_ROW][LIMIT_COLUMN]))
    else if r == 2 && 1 <= c <= 4 then Some(ops.format2(GetDoubleValue(ops, power[UNBALANCE_ROW][c + 1])))
    else if r == 2 && c == 5 then Some(ops.format2(GetDoubleValue(ops, power[UNBALANCE_ROW][LIMIT_COLUMN])))
    else if 3 <= r <= 5 && 2 <= c <= 5 then Some(ops.format2(GetDoubleValue(ops, voltage[FLICKER_ROW][c + 5 * (r - 3)])))
    else if 3 <= r <= 5 && c == 6 then Some(ops.format2(GetDoubleValue(ops, voltage[FLICKER_ROW][LIMIT_COLUMN])))
    else None
  }

  /** A row after texts[j] has been written into its cell firstCol + j, for each j. */
  function RowWithTexts(row: seq<CellBody>, firstCol: nat, texts: seq<string>): (out: seq<CellBody>)
    ensures |out| == |row|
  {
    seq(|row|, c requires 0 <= c < |row| => if firstCol <= c < firstCol + |texts| then CellWithText(texts[c - firstCol]) else row[c])
  }

  /** Consecutive unguarded writes along one row: texts[j] into (r, firstCol + j). */
  method SetRowTexts(table: TemplateTable, r: nat, firstCol: nat, texts: seq<string>)
    requires r < |table.rows| && firstCol + |texts| <= |table.rows[r]|
    modifies table
    ensures table.rows == old(table.rows)[r := RowWithTexts(old(table.rows)[r], firstCol, texts)]
  {
    ghost var before := table.rows;
    assert RowWithTexts(before[r], firstCol, texts[..0]) == before[r];
    var j := 0;
    while j < |texts|
      invariant 0 <= j <= |texts|
      invariant table.rows == before[r := RowWithTexts(before[r], firstCol, texts[..j])]
    {
      table.SetCellText(r, firstCol + j, texts[j]);
      assert table.rows[r] == RowWithTexts(before[r], firstCol, texts[..j + 1]);
      j := j + 1;
    }
    assert texts[..j] == texts;
  }

  /** The first table column a row of the frequency table is written from. */
  function FrequencyFirstColumn(r: int): nat {
    if r <= 2 then 1 else 2
  }

  /** The texts written along table row r = 1..5, left to right. */
  function FrequencyRowTexts(ops: FloatOps, voltage: Grid, power: Grid, r: int): (texts: seq<string>)
    requires PowerSheet(power) && FlickerSheet(voltage) && 1 <= r <= 5
    ensures |texts| == 5
  {
    if r == 1 then
      seq(4, k requires 0 <= k < 4 => ops.format2(ops.minusFifty(GetDoubleValue(ops, power[FREQUENCY_ROW][k + 2])))) +
      [CellString(ops, power[FREQUENCY_ROW][LIMIT_COLUMN])]
    else if r == 2 then
      seq(4, k requires 0 <= k < 4 => ops.format2(GetDoubleValue(ops, power[UNBALANCE_ROW][k + 2]))) +
      [ops.format2(GetDoubleValue(ops, power[UNBALANCE_ROW][LIMIT_COLUMN]))]
    else
      seq(4, k requires 0 <= k < 4 => ops.format2(GetDoubleValue(ops, voltage[FLICKER_ROW][k + 2 + 5 * (r - 3)]))) +
      [ops.format2(GetDoubleValue(ops, voltage[FLICKER_ROW][LIMIT_COLUMN]))]
  }

  /** The row texts agree with the cell-by-cell description. */
  lemma FrequencyRowCell(ops: FloatOps, voltage: Grid, power: Grid, r: int, c: int)
    requires PowerSheet(power) && FlickerSheet(voltage)
    ensures 1 <= r <= 5 && FrequencyFirstColumn(r) <= c < FrequencyFirstColumn(r) + 5 ==>
      FrequencyText(ops, voltage, power, r, c) == Some(FrequencyRowTexts(ops, voltage, power, r)[c - FrequencyFirstColumn(r)])
    ensures !(1 <= r <= 5 && FrequencyFirstColumn(r) <= c < FrequencyFirstColumn(r) + 5) ==>
      FrequencyText(ops, voltage, power, r, c) == None
  {
  }

  /**
   * The frequency, unbalance and flicker fill. The source writes its 25
   * cells one call at a time; here each table row's five calls are one
   * SetRowTexts, in the same order.
   */
  method FillFrequencyTable(table: TemplateTable, ops: FloatOps, voltage: Grid, power: Grid)
    requires PowerSheet(power) && FlickerSheet(voltage) && FrequencyTableShape(table.rows)
    modifies table
    ensures SameTableShape(old(table.rows), table.rows)
    ensures forall r, c :: HasTableCell(table.rows, r, c) ==>
      table.rows[r][c] == CellAfter(old(table.rows)[r][c], FrequencyText(ops, voltage, power, r, c))
  {
    ghost var before := table.rows;
    SetRowTexts(table, 1, 1, FrequencyRowTexts(ops, voltage, power, 1));
    SetRowTexts(table, 2, 1, FrequencyRowTexts(ops, voltage, power, 2));
    SetRowTexts(table, 3, 2, FrequencyRowTexts(ops, voltage, power, 3));
    SetRowTexts(table, 4, 2, FrequencyRowTexts(ops, voltage, power, 4));
    SetRowTexts(table, 5, 2, FrequencyRowTexts(ops, voltage, power, 5));
    FrequencyCells(ops, voltage, power, before, table.rows);
  }

  /** Once all five rows are written, every cell holds what FrequencyText says. */
  lemma FrequencyCells(ops: FloatOps, voltage: Grid, power: Grid, before: Rows, now: Rows)
    requires PowerSheet(power) && FlickerSheet(voltage) && FrequencyTableShape(before)
    requires now == before[1 := RowWithTexts(before[1], 1, FrequencyRowTexts(ops, voltage, power, 1))]
                          [2 := RowWithTexts(before[2], 1, FrequencyRowTexts(ops, voltage, power, 2))]
                          [3 := RowWithTexts(before[3], 2, FrequencyRowTexts(ops, voltage, power, 3))]
                          [4 := RowWithTexts(before[4], 2, FrequencyRowTexts(ops, voltage, power, 4))]
                          [5 := RowWithTexts(before[5], 2, FrequencyRowTexts(ops, voltage, power, 5))]
    ensures SameTableShape(before, now)
    ensures forall r, c :: HasTableCell(now, r, c) ==>
      now[r][c] == CellAfter(before[r][c], FrequencyText(ops, voltage, power, r, c))
  {
    forall r, c | HasTableCell(now, r, c)
      ensures now[r][c] == CellAfter(before[r][c], FrequencyText(ops, voltage, power, r, c))
    {
      FrequencyRowCell(ops, voltage, power, r, c);
      if 1 <= r <= 5 {
        assert now[r] == RowWithTexts(before[r], FrequencyFirstColumn(r), FrequencyRowTexts(ops, voltage, power, r));
      }
    }
  }

  // ---------------------------------------------------------------------
  // Voltage deviation table
  // ---------------------------------------------------------------------

  /** Voltage-sheet rows of the upper and the lower deviation. */
  const UP_DEVIATION_ROW := 63
  const DOWN_DEVIATION_ROW := 64
  /** Sheet columns of max and min of phase pairs AB, BC and AC. */
  const DEVIATION_COLUMNS: seq<nat> := [2, 4, 7, 9, 12, 14]
  const MAX_VOLTAGE_DEVIATION_KEY := "maxVoltageDeviation"

  /** Both deviation rows exist, and the lower limit is a number once a minus sign is put in front. */
  predicate DeviationSheet(ops: FloatOps, voltage: Grid) {
    |voltage| > DOWN_DEVIATION_ROW && |voltage[UP_DEVIATION_ROW]| > LIMIT_COLUMN && |voltage[DOWN_DEVIATION_ROW]| > LIMIT_COLUMN &&
    !voltage[DOWN_DEVIATION_ROW][LIMIT_COLUMN].Empty? &&
    ops.parse("-" + CellString(ops, voltage[DOWN_DEVIATION_ROW][LIMIT_COLUMN])).Some?
  }

  /** Double.parseDouble("-" + the limit cell's text): the lower limit as a negative number. */
  function DownLimit(ops: FloatOps, voltage: Grid): Double
    requires DeviationSheet(ops, voltage)
  {
    ops.parse("-" + CellString(ops, voltage[DOWN_DEVIATION_ROW][LIMIT_COLUMN])).value
  }

  /** The largest upper-deviation maximum of the three phase pairs, as Math.max nests it. */
  function MaxUpDeviation(ops: FloatOps, voltage: Grid): Double
    requires DeviationSheet(ops, voltage)
  {
    var up := voltage[UP_DEVIATION_ROW];
    ops.max(GetDoubleValue(ops, up[DEVIATION_COLUMNS[0]]),
            ops.max(GetDoubleValue(ops, up[DEVIATION_COLUMNS[2]]), GetDoubleValue(ops, up[DEVIATION_COLUMNS[4]])))
  }

  /**
   * fillVoltageDeviationTable, cell by cell: row 2 holds the six upper
   * deviations (max and min of AB, BC, AC) and the upper limit; row 3 the six
   * lower deviations and the negated lower limit.
   */
  function DeviationText(ops: FloatOps, voltage: Grid, r: int, c: int): Option<string>
    requires DeviationSheet(ops, voltage)
  {
    if r == 2 && 1 <= c <= 6 then Some(ops.format2(GetDoubleValue(ops, voltage[UP_DEVIATION_ROW][DEVIATION_COLUMNS[c - 1]])))
    else if r == 2 && c == 7 then Some(ops.format2(GetDoubleValue(ops, voltage[UP_DEVIATION_ROW][LIMIT_COLUMN])))
    else if r == 3 && 1 <= c <= 6 then Some(ops.format2(GetDoubleValue(ops, voltage[DOWN_DEVIATION_ROW][DEVIATION_COLUMNS[c - 1]])))
    else if r == 3 && c == 7 then Some(ops.format2(DownLimit(ops, voltage)))
    else None
  }

  /** The seven texts written along table row 2 (upper) or 3 (lower), from column 1. */
  function DeviationRowTexts(ops: FloatOps, voltage: Grid, r: int): (texts: seq<string>)
    requires DeviationSheet(ops, voltage) && 2 <= r <= 3
    ensures |texts| == 7
  {
    var sheetRow := if r == 2 then UP_DEVIATION_ROW else DOWN_DEVIATION_ROW;
    var limit := if r == 2 then ops.format2(GetDoubleValue(ops, voltage[UP_DEVIATION_ROW][LIMIT_COLUMN]))
                 else ops.format2(DownLimit(ops, voltage));
    seq(6, k requires 0 <= k < 6 => ops.format2(GetDoubleValue(ops, voltage[sheetRow][DEVIATION_COLUMNS[k]]))) + [limit]
  }

  /** The row texts agree with the cell-by-cell description. */
  lemma DeviationRowCell(ops: FloatOps, voltage: Grid, r: int, c: int)
    requires DeviationSheet(ops, voltage)
    ensures 2 <= r <= 3 && 1 <= c <= 7 ==>
      DeviationText(ops, voltage, r, c) == Some(DeviationRowTexts(ops, voltage, r)[c - 1])
    ensures !(2 <= r <= 3 && 1 <= c <= 7) ==> DeviationText(ops, voltage, r, c) == None
  {
  }

  /**
   * fillVoltageDeviationTable: fourteen unguarded writes (one SetRowTexts per
   * table row here), then the largest upper deviation is put into the
   * replacement map.
   */
  method FillVoltageDeviationTable(table: TemplateTable, ops: FloatOps, voltage: Grid, replaceMap: ReplaceMap)
    requires DeviationSheet(ops, voltage)
    requires |table.rows| > 3 && |table.rows[2]| > 7 && |table.rows[3]| > 7
    requires DistinctKeys(replaceMap.entries)
    modifies table, replaceMap
    ensures SameTableShape(old(table.rows), table.rows)
    ensures forall r, c :: HasTableCell(table.rows, r, c) ==>
      table.rows[r][c] == CellAfter(old(table.rows)[r][c], DeviationText(ops, voltage, r, c))
    ensures replaceMap.entries == PutEntry(old(replaceMap.entries), MAX_VOLTAGE_DEVIATION_KEY, ops.format2(MaxUpDeviation(ops, voltage)))
    ensures DistinctKeys(replaceMap.entries)
  {
    ghost var before := table.rows;
    SetRowTexts(table, 2, 1, DeviationRowTexts(ops, voltage, 2));
    SetRowTexts(table, 3, 1, DeviationRowTexts(ops, voltage, 3));
    DeviationCells(ops, voltage, before, table.rows);
    replaceMap.Put(MAX_VOLTAGE_DEVIATION_KEY, ops.format2(MaxUpDeviation(ops, voltage)));
  }

  /** Once both rows are written, every cell holds what DeviationText says. */
  lemma DeviationCells(ops: FloatOps, voltage: Grid, before: Rows, now: Rows)
    requires DeviationSheet(ops, voltage)
    requires |before| > 3 && |before[2]| > 7 && |before[3]| > 7
    requires now == before[2 := RowWithTexts(before[2], 1, DeviationRowTexts(ops, voltage, 2))]
                          [3 := RowWithTexts(before[3], 1, DeviationRowTexts(ops, voltage, 3))]
    ensures SameTableShape(before, now)
    ensures forall r, c :: HasTableCell(now, r, c) ==>
      now[r][c] == CellAfter(before[r][c], DeviationText(ops, voltage, r, c))
  {
    forall r, c | HasTableCell(now, r, c)
      ensures now[r][c] == CellAfter(before[r][c], DeviationText(ops, voltage, r, c))
    {
      DeviationRowCell(ops, voltage, r, c);
      if 2 <= r <= 3 {
        assert now[r] == RowWithTexts(before[r], 1, DeviationRowTexts(ops, voltage, r));
      }
    }
  }

  // ---------------------------------------------------------------------
  // Properties of the fills
  // ---------------------------------------------------------------------

  /**
   * Both harmonic fills write every existing cell of the harmonic block, and
   * neither touches the header rows 0 and 1, the label column 0, a column
   * beyond the limit column 8 or a row below the distortion row 27.
   */
  lemma HarmonicFillsCoverBlock(ops: FloatOps, data: Grid, rows: Rows, r: int, c: int)
    requires HarmonicSheet(data)
    ensures TABLE_FIRST_HARMONIC_ROW <= r < TABLE_THD_ROW && 2 <= c <= 8 && HasTableCell(rows, r, c) ==>
      VoltageHarmonicText(ops, data, rows, r, c).Some? && CurrentHarmonicText(ops, data, rows, r, c).Some?
    ensures r < TABLE_FUNDAMENTAL_ROW || r > TABLE_THD_ROW || c < 1 || c > 8 ==>
      VoltageHarmonicText(ops, data, rows, r, c) == None && CurrentHarmonicText(ops, data, rows, r, c) == None
    ensures CurrentHarmonicText(ops, data, rows, TABLE_THD_ROW, c) == None
  {
  }

  /** The two harmonic tables share their harmonic block: the same sheet cells give the same texts. */
  lemma HarmonicBlocksAgree(ops: FloatOps, data: Grid, rows: Rows, r: int, c: int)
    requires HarmonicSheet(data)
    requires TABLE_FIRST_HARMONIC_ROW <= r < TABLE_THD_ROW
    ensures VoltageHarmonicText(ops, data, rows, r, c) == CurrentHarmonicText(ops, data, rows, r, c)
  {
  }

  /** Math.max returns one of its two arguments. */
  ghost predicate MaxSelects(ops: FloatOps) {
    forall x, y :: ops.max(x, y) == x || ops.max(x, y) == y
  }

  /** The maximum put into the map is the upper deviation of one of the three phase pairs. */
  lemma MaxUpDeviationIsAPhaseMaximum(ops: FloatOps, voltage: Grid)
    requires DeviationSheet(ops, voltage) && MaxSelects(ops)
    ensures MaxUpDeviation(ops, voltage) == GetDoubleValue(ops, voltage[UP_DEVIATION_ROW][2]) ||
            MaxUpDeviation(ops, voltage) == GetDoubleValue(ops, voltage[UP_DEVIATION_ROW][7]) ||
            MaxUpDeviation(ops, voltage) == GetDoubleValue(ops, voltage[UP_DEVIATION_ROW][12])
  {
    var up := voltage[UP_DEVIATION_ROW];
    var inner := ops.max(GetDoubleValue(ops, up[7]), GetDoubleValue(ops, up[12]));
    assert inner == GetDoubleValue(ops, up[7]) || inner == GetDoubleValue(ops, up[12]);
    assert MaxUpDeviation(ops, voltage) == ops.max(GetDoubleValue(ops, up[2]), inner);
  }

  /**
   * Under any transitive order of which Math.max gives an upper bound, the
   * maximum put into the map bounds all three upper deviations.
   */
  lemma MaxUpDeviationBoundsPhaseMaxima(ops: FloatOps, voltage: Grid, le: (Double, Double) -> bool)
    requires DeviationSheet(ops, voltage)
    requires forall x, y :: le(x, ops.max(x, y)) && le(y, ops.max(x, y))
    requires forall x, y, z :: le(x, y) && le(y, z) ==> le(x, z)
    ensures le(GetDoubleValue(ops, voltage[UP_DEVIATION_ROW][2]), MaxUpDeviation(ops, voltage))
    ensures le(GetDoubleValue(ops, voltage[UP_DEVIATION_ROW][7]), MaxUpDeviation(ops, voltage))
    ensures le(GetDoubleValue(ops, voltage[UP_DEVIATION_ROW][12]), MaxUpDeviation(ops, voltage))
  {
    var up := voltage[UP_DEVIATION_ROW];
    var a, b, d := GetDoubleValue(ops, up[2]), GetDoubleValue(ops, up[7]), GetDoubleValue(ops, up[12]);
    var inner := ops.max(b, d);
    assert MaxUpDeviation(ops, voltage) == ops.max(a, inner);
    assert le(inner, ops.max(a, inner));
    assert le(b, inner) && le(d, inner);
  }
}
