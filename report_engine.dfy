/**
 * generateWordDocument up to the point where the document is written out:
 * the instrument list and the placeholders go into the template, the four
 * statistics tables get their titles and their values, and every uploaded
 * image replaces its placeholder paragraph.
 */
module ReportEngine {
  import opened Wrappers
  import opened Cells
  import opened DocModel
  import opened Placeholders
  import opened ReplaceMaps
  import opened ReportText
  import opened ReportTables
  import opened MergedCells
  import opened WordDocuments

  /** An uploaded image: its original file name (possibly null) and its bytes. */
  datatype ImageFile = ImageFile(originalFilename: Option<string>, bytes: seq<bv8>)

  const MEASUREMENT_KEY := "measurement"
  /** Every image is inserted as "image", 400 by 250 pixels. */
  const IMAGE_NAME := "image"
  const IMAGE_WIDTH_PX := 400
  const IMAGE_HEIGHT_PX := 250

  /** The picture one uploaded image becomes. */
  function PictureOf(file: ImageFile): Picture {
    Picture(DetectImageType(file.originalFilename), IMAGE_NAME, file.bytes, IMAGE_WIDTH_PX, IMAGE_HEIGHT_PX)
  }

  const TITLE_NUMBERS: seq<string> := ["表1.1  ", "表1.2  ", "表1.3  ", "表1.4  "]
  const TITLE_NAMES: seq<string> := ["谐波电压统计表", "谐波电流统计表", "频率偏差、三相电压不平衡度及长时间闪变统计表", "电压偏差统计表"]

  /** The title of statistics table k: its number, the monitor location, its name. */
  function TableTitle(k: nat, position: string): (t: string)
    requires k < 4
    ensures |t| == |TITLE_NUMBERS[k]| + |position| + |TITLE_NAMES[k]|
    ensures t[..|TITLE_NUMBERS[k]|] == TITLE_NUMBERS[k]
  {
    TITLE_NUMBERS[k] + position + TITLE_NAMES[k]
  }

  /** The label cell the monitor location is read from (row 1, column 0 of the voltage sheet). */
  predicate HasPositionLabel(voltage: Grid) {
    |voltage| > 1 && |voltage[1]| > 0 && !voltage[1][0].Empty?
  }

  /** The monitor location: the label's text after its last colon, trimmed. */
  function Position(ops: FloatOps, voltage: Grid): string
    requires HasPositionLabel(voltage)
  {
    MonitorPosition(CellString(ops, voltage[1][0]))
  }

  /** Every sheet cell the four fills read unguarded exists (and parses where the source parses it). */
  predicate SheetsReadable(ops: FloatOps, data: SheetData) {
    HarmonicSheet(data.voltageHarmonic) && HarmonicSheet(data.currentHarmonic) &&
    PowerSheet(data.power) && FlickerSheet(data.voltageHarmonic) && DeviationSheet(ops, data.voltageHarmonic)
  }

  /** Every table cell the four fills write unguarded exists. */
  predicate TablesFit(r0: Rows, r1: Rows, r2: Rows, r3: Rows) {
    |r0| > TABLE_THD_ROW && |r0[TABLE_FUNDAMENTAL_ROW]| > 7 && |r0[TABLE_THD_ROW]| > 7 &&
    |r1| > TABLE_FUNDAMENTAL_ROW && |r1[TABLE_FUNDAMENTAL_ROW]| > 7 &&
    FrequencyTableShape(r2) &&
    |r3| > 3 && |r3[2]| > 7 && |r3[3]| > 7
  }

  /** Each table after its fill, cell by cell against the fill's reference text. */
  ghost predicate VoltageTableFilled(ops: FloatOps, voltage: Grid, before: Rows, after: Rows)
    requires HarmonicSheet(voltage)
  {
    SameTableShape(before, after) &&
    forall r, c :: HasTableCell(after, r, c) ==> after[r][c] == CellAfter(before[r][c], VoltageHarmonicText(ops, voltage, before, r, c))
  }

  ghost predicate CurrentTableFilled(ops: FloatOps, current: Grid, before: Rows, after: Rows)
    requires HarmonicSheet(current)
  {
    SameTableShape(before, after) &&
    forall r, c :: HasTableCell(after, r, c) ==> after[r][c] == CellAfter(before[r][c], CurrentHarmonicText(ops, current, before, r, c))
  }

  ghost predicate FrequencyTableFilled(ops: FloatOps, voltage: Grid, power: Grid, before: Rows, after: Rows)
    requires PowerSheet(power) && FlickerSheet(voltage)
  {
    SameTableShape(before, after) &&
    forall r, c :: HasTableCell(after, r, c) ==> after[r][c] == CellAfter(before[r][c], FrequencyText(ops, voltage, power, r, c))
  }

  ghost predicate DeviationTableFilled(ops: FloatOps, voltage: Grid, before: Rows, after: Rows)
    requires DeviationSheet(ops, voltage)
  {
    SameTableShape(before, after) &&
    forall r, c :: HasTableCell(after, r, c) ==> after[r][c] == CellAfter(before[r][c], DeviationText(ops, voltage, r, c))
  }

  /** The four statistics tables, from rows b0..b3 to rows a0..a3. */
  ghost predicate StatisticsFilled(ops: FloatOps, data: SheetData, b0: Rows, b1: Rows, b2: Rows, b3: Rows,
                                   a0: Rows, a1: Rows, a2: Rows, a3: Rows)
    requires SheetsReadable(ops, data)
  {
    VoltageTableFilled(ops, data.voltageHarmonic, b0, a0) &&
    CurrentTableFilled(ops, data.currentHarmonic, b1, a1) &&
    FrequencyTableFilled(ops, data.voltageHarmonic, data.power, b2, a2) &&
    DeviationTableFilled(ops, data.voltageHarmonic, b3, a3)
  }

  /** The body after the four titles, in table order. */
  function TitledReport(body: seq<Block>, ts: seq<TemplateTable>, position: string): seq<Block>
    requires |ts| >= 4
  {
    var b1 := TitledBody(body, ts[0], TableTitle(0, position));
    var b2 := TitledBody(b1, ts[1], TableTitle(1, position));
    var b3 := TitledBody(b2, ts[2], TableTitle(2, position));
    TitledBody(b3, ts[3], TableTitle(3, position))
  }

  /** The body after images i, i + 1, ... have been inserted, each at its own placeholder. */
  function ImagesFrom(body: seq<Block>, files: seq<ImageFile>, i: nat, position: string): seq<Block>
    decreases |files| - i
  {
    if i >= |files| then body
    else ImagesFrom(ImagedBody(body, ImagePlaceholder(i), PictureOf(files[i]), position), files, i + 1, position)
  }

  /** The map entries replacePlaceholders works with: the input map after the "measurement" put. */
  function MapWithMeasurement(entries: Entries, list: Option<seq<Instrument>>): Entries {
    PutEntry(entries, MEASUREMENT_KEY, MeasurementText(list))
  }

  /** The whole body of the finished report. */
  function ReportBody(ops: FloatOps, data: SheetData, body: seq<Block>, entries: Entries,
                      list: Option<seq<Instrument>>, images: Option<seq<ImageFile>>): seq<Block>
    requires HasPositionLabel(data.voltageHarmonic)
  {
    var position := Position(ops, data.voltageHarmonic);
    var substituted := SubstituteBody(body, MapWithMeasurement(entries, list));
    var ts := Tables(substituted);
    var titled := if |ts| >= 4 then TitledReport(substituted, ts, position) else substituted;
    ImagesFrom(titled, if images.Some? then images.value else [], 0, position)
  }

  /** Titles and images never add or remove a table. */
  lemma TitledReportKeepsTables(body: seq<Block>, ts: seq<TemplateTable>, position: string)
    requires |ts| >= 4
    ensures Tables(TitledReport(body, ts, position)) == Tables(body)
  {
    var b1 := TitledBody(body, ts[0], TableTitle(0, position));
    var b2 := TitledBody(b1, ts[1], TableTitle(1, position));
    var b3 := TitledBody(b2, ts[2], TableTitle(2, position));
    TitleKeepsTables(body, ts[0], TableTitle(0, position));
    TitleKeepsTables(b1, ts[1], TableTitle(1, position));
    TitleKeepsTables(b2, ts[2], TableTitle(2, position));
    TitleKeepsTables(b3, ts[3], TableTitle(3, position));
  }

  lemma {:induction false} ImagesKeepTables(body: seq<Block>, files: seq<ImageFile>, i: nat, position: string)
    ensures Tables(ImagesFrom(body, files, i, position)) == Tables(body)
    decreases |files| - i
  {
    if i < |files| {
      var next := ImagedBody(body, ImagePlaceholder(i), PictureOf(files[i]), position);
      ImageKeepsTables(body, ImagePlaceholder(i), PictureOf(files[i]), position);
      ImagesKeepTables(next, files, i + 1, position);
    }
  }

  /** The report keeps the template's tables, in order. */
  lemma ReportKeepsTables(ops: FloatOps, data: SheetData, body: seq<Block>, entries: Entries,
                          list: Option<seq<Instrument>>, images: Option<seq<ImageFile>>)
    requires HasPositionLabel(data.voltageHarmonic)
    ensures Tables(ReportBody(ops, data, body, entries, list, images)) == Tables(body)
  {
    var position := Position(ops, data.voltageHarmonic);
    var substituted := SubstituteBody(body, MapWithMeasurement(entries, list));
    SubstituteBodyKeepsTables(body, MapWithMeasurement(entries, list));
    var ts := Tables(substituted);
    var titled := if |ts| >= 4 then TitledReport(substituted, ts, position) else substituted;
    if |ts| >= 4 {
      TitledReportKeepsTables(substituted, ts, position);
    }
    ImagesKeepTables(titled, if images.Some? then images.value else [], 0, position);
  }

  /**
   * generateWordDocument, without the template reading and the file
   * writing. The document's tables must be distinct objects, the voltage
   * sheet must hold the location label, and when the template has four
   * tables every unguarded read and write of the fills must be in range.
   */
  method GenerateWordDocument(doc: WordDocument, ops: FloatOps, data: SheetData, images: Option<seq<ImageFile>>,
                              replaceMap: ReplaceMap, measurementList: Option<seq<Instrument>>,
                              ghost ts: seq<TemplateTable>)
    requires ts == Tables(doc.body) && DistinctKeys(replaceMap.entries) && DistinctTables(doc.body)
    requires HasPositionLabel(data.voltageHarmonic)
    requires |ts| >= 4 ==> SheetsReadable(ops, data) && TablesFit(ts[0].rows, ts[1].rows, ts[2].rows, ts[3].rows)
    modifies doc, replaceMap, set t | t in ts
    ensures doc.body == ReportBody(ops, data, old(doc.body), old(replaceMap.entries), measurementList, images)
    ensures Tables(doc.body) == ts
    ensures replaceMap.Get(MEASUREMENT_KEY) == Some(MeasurementText(measurementList))
    ensures DistinctKeys(replaceMap.entries)
    ensures var entries := MapWithMeasurement(old(replaceMap.entries), measurementList);
      |ts| < 4 ==> replaceMap.entries == entries
    ensures var entries := MapWithMeasurement(old(replaceMap.entries), measurementList);
      |ts| >= 4 ==> replaceMap.entries == PutEntry(entries, MAX_VOLTAGE_DEVIATION_KEY, ops.format2(MaxUpDeviation(ops, data.voltageHarmonic)))
    ensures var entries := MapWithMeasurement(old(replaceMap.entries), measurementList);
      forall k :: 0 <= k < |ts| && (|ts| < 4 || k >= 4) ==> ts[k].rows == SubstituteRows(old(ts[k].rows), entries)
    ensures var entries := MapWithMeasurement(old(replaceMap.entries), measurementList);
      |ts| >= 4 ==>
        StatisticsFilled(ops, data,
          SubstituteRows(old(ts[0].rows), entries), SubstituteRows(old(ts[1].rows), entries),
          SubstituteRows(old(ts[2].rows), entries), SubstituteRows(old(ts[3].rows), entries),
          ts[0].rows, ts[1].rows, ts[2].rows, ts[3].rows)
  {
    DistinctTableList(doc.body);
    PrepareTemplate(doc, replaceMap, measurementList, ts);
    if |ts| >= 4 {
      ShapesSurviveSubstitution(old(ts[0].rows), old(ts[1].rows), old(ts[2].rows), old(ts[3].rows), replaceMap.entries);
    }
    var position := Position(ops, data.voltageHarmonic);
    FinishReport(doc, ops, data, images, position, replaceMap, ts);
  }

  /** The tables and the images, after the placeholders have been replaced. */
  method FinishReport(doc: WordDocument, ops: FloatOps, data: SheetData, images: Option<seq<ImageFile>>,
                      position: string, replaceMap: ReplaceMap, ghost ts: seq<TemplateTable>)
    requires ts == Tables(doc.body) && DistinctKeys(replaceMap.entries)
    requires forall k, l :: 0 <= k < l < |ts| ==> ts[k] != ts[l]
    requires |ts| >= 4 ==> SheetsReadable(ops, data) && TablesFit(ts[0].rows, ts[1].rows, ts[2].rows, ts[3].rows)
    modifies doc, replaceMap, set t | t in ts
    ensures doc.body == ImagesFrom(if |ts| >= 4 then TitledReport(old(doc.body), ts, position) else old(doc.body),
                                   if images.Some? then images.value else [], 0, position)
    ensures Tables(doc.body) == ts
    ensures DistinctKeys(replaceMap.entries)
    ensures replaceMap.Get(MEASUREMENT_KEY) == old(replaceMap.Get(MEASUREMENT_KEY))
    ensures |ts| < 4 ==> replaceMap.entries == old(replaceMap.entries)
    ensures |ts| >= 4 ==> replaceMap.entries == PutEntry(old(replaceMap.entries), MAX_VOLTAGE_DEVIATION_KEY, ops.format2(MaxUpDeviation(ops, data.voltageHarmonic)))
    ensures forall k :: 0 <= k < |ts| && (|ts| < 4 || k >= 4) ==> ts[k].rows == old(ts[k].rows)
    ensures |ts| >= 4 ==>
      StatisticsFilled(ops, data, old(ts[0].rows), old(ts[1].rows), old(ts[2].rows), old(ts[3].rows),
                       ts[0].rows, ts[1].rows, ts[2].rows, ts[3].rows)
  {
    FillStage(doc, ops, data, position, replaceMap, ts);
    ghost var titled := doc.body;
    var files := if images.Some? then images.value else [];
    InsertImages(doc, files, position);
    ImagesKeepTables(titled, files, 0, position);
  }

  /** The part of generateWordDocument that runs only when the template has at least four tables. */
  method FillStage(doc: WordDocument, ops: FloatOps, data: SheetData, position: string, replaceMap: ReplaceMap,
                   ghost ts: seq<TemplateTable>)
    requires ts == Tables(doc.body) && DistinctKeys(replaceMap.entries)
    requires forall k, l :: 0 <= k < l < |ts| ==> ts[k] != ts[l]
    requires |ts| >= 4 ==> SheetsReadable(ops, data) && TablesFit(ts[0].rows, ts[1].rows, ts[2].rows, ts[3].rows)
    modifies doc, replaceMap, set t | t in ts
    ensures doc.body == if |ts| >= 4 then TitledReport(old(doc.body), ts, position) else old(doc.body)
    ensures Tables(doc.body) == ts
    ensures DistinctKeys(replaceMap.entries)
    ensures replaceMap.Get(MEASUREMENT_KEY) == old(replaceMap.Get(MEASUREMENT_KEY))
    ensures |ts| < 4 ==> replaceMap.entries == old(replaceMap.entries)
    ensures |ts| >= 4 ==> replaceMap.entries == PutEntry(old(replaceMap.entries), MAX_VOLTAGE_DEVIATION_KEY, ops.format2(MaxUpDeviation(ops, data.voltageHarmonic)))
    ensures forall k :: 0 <= k < |ts| && (|ts| < 4 || k >= 4) ==> ts[k].rows == old(ts[k].rows)
    ensures |ts| >= 4 ==>
      StatisticsFilled(ops, data, old(ts[0].rows), old(ts[1].rows), old(ts[2].rows), old(ts[3].rows),
                       ts[0].rows, ts[1].rows, ts[2].rows, ts[3].rows)
  {
    var tables := Tables(doc.body);
    if |tables| >= 4 {
      FillFourTables(doc, ops, data, tables, position, replaceMap, replaceMap.entries);
    }
  }

  /** The four-table branch: titles and fills over the substituted tables, then the map holds both puts. */
  method FillFourTables(doc: WordDocument, ops: FloatOps, data: SheetData, tables: seq<TemplateTable>,
                        position: string, replaceMap: ReplaceMap, ghost entries: Entries)
    requires |tables| >= 4 && tables == Tables(doc.body)
    requires forall k, l :: 0 <= k < l < |tables| ==> tables[k] != tables[l]
    requires SheetsReadable(ops, data)
    requires TablesFit(tables[0].rows, tables[1].rows, tables[2].rows, tables[3].rows)
    requires replaceMap.entries == entries && DistinctKeys(entries)
    modifies doc, replaceMap, tables[0], tables[1], tables[2], tables[3]
    ensures doc.body == TitledReport(old(doc.body), tables, position)
    ensures Tables(doc.body) == tables
    ensures replaceMap.entries == PutEntry(entries, MAX_VOLTAGE_DEVIATION_KEY, ops.format2(MaxUpDeviation(ops, data.voltageHarmonic)))
    ensures DistinctKeys(replaceMap.entries)
    ensures replaceMap.Get(MEASUREMENT_KEY) == Lookup(entries, MEASUREMENT_KEY)
    ensures StatisticsFilled(ops, data, old(tables[0].rows), old(tables[1].rows), old(tables[2].rows), old(tables[3].rows),
                             tables[0].rows, tables[1].rows, tables[2].rows, tables[3].rows)
  {
    assert MEASUREMENT_KEY != MAX_VOLTAGE_DEVIATION_KEY by {
      assert MEASUREMENT_KEY[1] != MAX_VOLTAGE_DEVIATION_KEY[1];
    }
    PutThenLookup(entries, MAX_VOLTAGE_DEVIATION_KEY, ops.format2(MaxUpDeviation(ops, data.voltageHarmonic)), MEASUREMENT_KEY);
    FillReportTables(doc, ops, data, tables, position, replaceMap);
  }

  /**
   * The first half of generateWordDocument: the instrument list goes into the
   * map under "measurement", then the map's placeholders are replaced.
   */
  method PrepareTemplate(doc: WordDocument, replaceMap: ReplaceMap, measurementList: Option<seq<Instrument>>,
                         ghost ts: seq<TemplateTable>)
    requires ts == Tables(doc.body) && DistinctKeys(replaceMap.entries) && DistinctTables(doc.body)
    modifies doc, replaceMap, set t | t in ts
    ensures replaceMap.entries == MapWithMeasurement(old(replaceMap.entries), measurementList)
    ensures DistinctKeys(replaceMap.entries) && replaceMap.Get(MEASUREMENT_KEY) == Some(MeasurementText(measurementList))
    ensures doc.body == SubstituteBody(old(doc.body), replaceMap.entries)
    ensures Tables(doc.body) == ts
    ensures forall k :: 0 <= k < |ts| ==> ts[k].rows == SubstituteRows(old(ts[k].rows), replaceMap.entries)
  {
    var text := FlattenInstruments(measurementList);
    replaceMap.Put(MEASUREMENT_KEY, text);
    if replaceMap.entries != [] {
      doc.ReplacePlaceholders(replaceMap.entries, ts);
    }
  }

  /** Substitution keeps every cell the fills write unguarded. */
  lemma ShapesSurviveSubstitution(r0: Rows, r1: Rows, r2: Rows, r3: Rows, entries: Entries)
    requires TablesFit(r0, r1, r2, r3)
    ensures TablesFit(SubstituteRows(r0, entries), SubstituteRows(r1, entries), SubstituteRows(r2, entries), SubstituteRows(r3, entries))
  {
    SubstituteRowsKeepsStructure(r0, entries);
    SubstituteRowsKeepsStructure(r1, entries);
    SubstituteRowsKeepsStructure(r2, entries);
    SubstituteRowsKeepsStructure(r3, entries);
  }

  /** The four titles and fills, table by table, as the source writes them out. */
  method FillReportTables(doc: WordDocument, ops: FloatOps, data: SheetData, tables: seq<TemplateTable>,
                          position: string, replaceMap: ReplaceMap)
    requires |tables| >= 4 && tables == Tables(doc.body)
    requires forall k, l :: 0 <= k < l < |tables| ==> tables[k] != tables[l]
    requires SheetsReadable(ops, data) && TablesFit(tables[0].rows, tables[1].rows, tables[2].rows, tables[3].rows)
    requires DistinctKeys(replaceMap.entries)
    modifies doc, replaceMap, tables[0], tables[1], tables[2], tables[3]
    ensures doc.body == TitledReport(old(doc.body), tables, position)
    ensures Tables(doc.body) == tables
    ensures replaceMap.entries == PutEntry(old(replaceMap.entries), MAX_VOLTAGE_DEVIATION_KEY, ops.format2(MaxUpDeviation(ops, data.voltageHarmonic)))
    ensures DistinctKeys(replaceMap.entries)
    ensures StatisticsFilled(ops, data, old(tables[0].rows), old(tables[1].rows), old(tables[2].rows), old(tables[3].rows),
                             tables[0].rows, tables[1].rows, tables[2].rows, tables[3].rows)
  {
    TitledReportKeepsTables(doc.body, tables, position);
    doc.SetTableTitle(tables[0], TableTitle(0, position));
    FillVoltageHarmonicTable(tables[0], ops, data.voltageHarmonic);
    doc.SetTableTitle(tables[1], TableTitle(1, position));
    FillCurrentHarmonicTable(tables[1], ops, data.currentHarmonic);
    doc.SetTableTitle(tables[2], TableTitle(2, position));
    FillFrequencyTable(tables[2], ops, data.voltageHarmonic, data.power);
    doc.SetTableTitle(tables[3], TableTitle(3, position));
    FillVoltageDeviationTable(tables[3], ops, data.voltageHarmonic, replaceMap);
  }

  /** The image loop: image i looks for the placeholder {{image<i + 1>}}. */
  method InsertImages(doc: WordDocument, files: seq<ImageFile>, position: string)
    modifies doc
    ensures doc.body == ImagesFrom(old(doc.body), files, 0, position)
  {
    var i := 0;
    while i < |files|
      invariant 0 <= i <= |files|
      invariant ImagesFrom(doc.body, files, i, position) == ImagesFrom(old(doc.body), files, 0, position)
    {
      var placeholder := ImagePlaceholder(i);
      doc.InsertImageAndModifyCaption(placeholder, PictureOf(files[i]), position);
      i := i + 1;
    }
  }
}
