/**
 * Spreadsheet cells as the reader hands them over (a ragged list of rows of
 * objects), and the field extractor's coercion of a cell to a number.
 *
 * Floating point is kept abstract: a `Double` is only a 64-bit pattern, and
 * every operation the engine performs on it is a field of `FloatOps`, so the
 * model says where values go and never what their digits are.
 */
module Cells {
  import opened Wrappers

  /** An IEEE 754 binary64 value, by its bit pattern. */
  datatype Double = Double(bits: bv64)

  /** The literal 0.0 (positive zero). */
  const ZERO: Double := Double(0)

  /** The floating-point operations the engine calls, left uninterpreted. */
  datatype FloatOps = FloatOps(
    /** Double.parseDouble: None where it throws NumberFormatException. */
    parse: string -> Option<Double>,
    /** toString() of a numeric cell value. */
    show: Double -> string,
    /** formatDouble(value, 2): BigDecimal rounding half-up to two places, then toString(). */
    format2: Double -> string,
    /** value / 1000 (volts to kilovolts). */
    perThousand: Double -> Double,
    /** value - 50 (frequency to frequency deviation). */
    minusFifty: Double -> Double,
    /** Math.max. */
    max: (Double, Double) -> Double
  )

  /** A cell object: null, a number, or any other value (seen through its toString()). */
  datatype Cell = Empty | Num(v: Double) | Text(s: string)

  /** List<List<Object>>: rows of varying length. */
  type Grid = seq<seq<Cell>>

  predicate HasCell(g: Grid, r: int, c: int) {
    0 <= r < |g| && 0 <= c < |g[r]|
  }

  /** obj.toString() of a non-null cell. */
  function CellString(ops: FloatOps, c: Cell): string
    requires !c.Empty?
  {
    match c
    case Num(v) => ops.show(v)
    case Text(s) => s
  }

  /**
   * getDoubleValue: null, and any text the parser rejects, become 0.0; it
   * never fails.
   */
  function GetDoubleValue(ops: FloatOps, c: Cell): (r: Double)
    ensures c.Empty? ==> r == ZERO
    ensures !c.Empty? && ops.parse(CellString(ops, c)).None? ==> r == ZERO
    ensures !c.Empty? && ops.parse(CellString(ops, c)).Some? ==> r == ops.parse(CellString(ops, c)).value
  {
    if c.Empty? then ZERO
    else match ops.parse(CellString(ops, c))
      case None => ZERO
      case Some(v) => v
  }

  /**
   * readColumnRange: the loop that collects the coerced values of one column
   * over an inclusive row range. Every row in the range must exist and be
   * long enough (the source indexes them unguarded).
   */
  method ReadColumnRange(ops: FloatOps, data: Grid, colIndex: nat, startRow: nat, endRow: nat)
    returns (result: seq<Double>)
    requires startRow <= endRow ==> endRow < |data|
    requires forall i :: startRow <= i <= endRow && i < |data| ==> colIndex < |data[i]|
    ensures |result| == if endRow < startRow then 0 else endRow - startRow + 1
    ensures forall i :: 0 <= i < |result| ==> result[i] == GetDoubleValue(ops, data[startRow + i][colIndex])
  {
    result := [];
    var i := startRow;
    while i <= endRow
      invariant startRow <= i
      invariant i <= endRow + 1 || i == startRow
      invariant |result| == i - startRow
      invariant forall j :: 0 <= j < |result| ==> result[j] == GetDoubleValue(ops, data[startRow + j][colIndex])
    {
      result := result + [GetDoubleValue(ops, data[i][colIndex])];
      i := i + 1;
    }
  }
}
