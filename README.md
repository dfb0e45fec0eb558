# Waveform-analysis report engine: a Dafny model with proofs

The service turns a power-quality export into a Word report. The export is a
workbook with three sheets: voltage harmonics, current harmonics and power.
The service reads the three sheets into grids and copies each merged region's
anchor value into the region's other cells. It then opens a `.docx` template and
flattens the instrument list into one `measurement` text. Every `{{key}}` token
in the body paragraphs and in the table cells is replaced from the replacement
map. When the template holds at least four tables, it titles and fills them:

- harmonic voltage;
- harmonic current;
- frequency deviation, voltage unbalance and long-term flicker;
- voltage deviation, which also puts the largest upper deviation into the map.

Finally it puts the uploaded pictures at `{{image1}}`, `{{image2}}` and so on,
and adds the monitor location to each picture's caption.

The model follows the single class that does all of this: the spreadsheet
service implementation.

- Values such as sheet cells, runs, paragraphs, cell bodies, merged regions and
  image files are datatypes.
- Things the source changes in place are classes:
  - the sheet grid (`MergedCells.SheetGrid`);
  - each template table (`ReportTables.TemplateTable`, whose cells `setCellText` rewrites);
  - the replacement map (`ReplaceMaps.ReplaceMap`, a `HashMap` as its entry sequence);
  - the document body (`WordDocuments.WordDocument`, a sequence of paragraphs, table objects and other elements).
- Each method is proved against a reference function:
  - `Densify` for the merged-cell pass;
  - `SubstituteBody`/`SubstituteRows` for placeholder replacement;
  - a per-cell text function for each fill (`VoltageHarmonicText`, `CurrentHarmonicText`, `FrequencyText`, `DeviationText`);
  - `TitledBody` for titles;
  - `ImagedBody` for picture insertion;
  - `ReportBody` for the whole document.
- Lemmas state what those functions promise. Examples: writes land only where the
  source writes, the table list is never changed, setting a title twice is setting it once,
  the merged-cell pass over disjoint regions is idempotent, text holding no `{{key}}` token is left
  unchanged by substitution, the caption splice can be undone, and image placeholders are distinct.

Java's double arithmetic and text conversions are not modelled bit by bit:

- `Double.parseDouble`;
- `formatDouble`, which is `BigDecimal` with half-up rounding to two places;
- `Double.toString` of a numeric cell;
- the division by 1000;
- the subtraction of 50 Hz;
- `Math.max`.

They are the fields of a `FloatOps` value that every operation receives. Every
proof holds for any choice of them. `Double` is the 64-bit pattern, and `0.0`
is the zero pattern.

Only the two harmonic tables' cell writes are guarded; a missing cell there is
skipped. Three groups of writes are unguarded and throw on a template of the
wrong shape:

- the dash and the distortion-limit cells (lines 331, 334 and 412);
- all of the frequency table's writes;
- all of the deviation table's writes.

The model states these cells as preconditions.

## Model

| member | source | states |
|---|---|---|
| JavaText.LeadingBlanks | src/main/java/com/example/guowangwaveformanalysis/service/impl/XlsServiceImpl.java:154 | the count of leading characters at or below U+0020, and the next character is not one |
| JavaText.TrailingBlanks | src/main/java/com/example/guowangwaveformanalysis/service/impl/XlsServiceImpl.java:154 | the count of trailing characters at or below U+0020, and the one before them is not one |
| JavaText.Trim | src/main/java/com/example/guowangwaveformanalysis/service/impl/XlsServiceImpl.java:154 | String.trim: the result is trimmed and is the slice of the input between an all-blank prefix and an all-blank suffix |
| JavaText.LeadingBlanksOfPadded | src/main/java/com/example/guowangwaveformanalysis/service/impl/XlsServiceImpl.java:154 | a blank prefix before a non-blank character is exactly the leading run |
| JavaText.TrailingBlanksOfPadded | src/main/java/com/example/guowangwaveformanalysis/service/impl/XlsServiceImpl.java:154 | a blank suffix after a non-blank character is exactly the trailing run |
| JavaText.TrimOfPadded | src/main/java/com/example/guowangwaveformanalysis/service/impl/XlsServiceImpl.java:154 | trimming a trimmed text padded with blanks on both sides gives the text back |
| JavaText.TrimIdempotent | src/main/java/com/example/guowangwaveformanalysis/service/impl/XlsServiceImpl.java:167 | trimming twice is trimming once |
| JavaText.ReplaceAllAbsent | src/main/java/com/example/guowangwaveformanalysis/service/impl/XlsServiceImpl.java:103-104 | String.replace of a target that does not occur changes nothing |
| JavaText.ReplaceAllTargetThen | src/main/java/com/example/guowangwaveformanalysis/service/impl/XlsServiceImpl.java:103-104 | a leading occurrence of the target becomes the replacement, and the rest is replaced independently |
| JavaText.IndexOfChar | src/main/java/com/example/guowangwaveformanalysis/service/impl/XlsServiceImpl.java:655 | String.indexOf: the first position holding the character, or -1 exactly when it is absent |
| JavaText.ToLower | src/main/java/com/example/guowangwaveformanalysis/service/impl/XlsServiceImpl.java:615 | toLowerCase keeps the length and lowers each character on its own |
| JavaText.ToLowerConcat | src/main/java/com/example/guowangwaveformanalysis/service/impl/XlsServiceImpl.java:615 | lowering distributes over concatenation |
| Cells.GetDoubleValue | src/main/java/com/example/guowangwaveformanalysis/service/impl/XlsServiceImpl.java:550-559 | null gives 0.0, text that does not parse gives 0.0, otherwise the parsed value |
| Cells.ReadColumnRange | src/main/java/com/example/guowangwaveformanalysis/service/impl/XlsServiceImpl.java:541-547 | endRow - startRow + 1 values (none for an empty range), value i being the cell of row startRow + i read by getDoubleValue |
| DocModel.Retitled | src/main/java/com/example/guowangwaveformanalysis/service/impl/XlsServiceImpl.java:576-583 | a paragraph rewritten to one run keeps its alignment and reads exactly as the new text |
| Placeholders.TokenInjective | src/main/java/com/example/guowangwaveformanalysis/service/impl/XlsServiceImpl.java:103 | different keys give different `{{key}}` tokens |
| Placeholders.SubstituteTextWithoutTokens | src/main/java/com/example/guowangwaveformanalysis/service/impl/XlsServiceImpl.java:102-106 | a text with no `{{key}}` of any entry is left unchanged |
| Placeholders.TokenAloneBecomesValue | src/main/java/com/example/guowangwaveformanalysis/service/impl/XlsServiceImpl.java:103-104 | the token alone becomes the entry's value |
| Placeholders.SubstituteRunTouchesOnlyFirstText | src/main/java/com/example/guowangwaveformanalysis/service/impl/XlsServiceImpl.java:99-108 | substitution rewrites only text 0 of a run; pictures, style and the other texts stay, and a run without text is untouched |
| Placeholders.SubstituteRunWithoutTokens | src/main/java/com/example/guowangwaveformanalysis/service/impl/XlsServiceImpl.java:100-108 | a run whose first text holds no token is unchanged |
| Placeholders.SubstituteParagraphWithoutTokens | src/main/java/com/example/guowangwaveformanalysis/service/impl/XlsServiceImpl.java:98-110 | a paragraph whose runs hold no token is unchanged |
| Placeholders.SubstituteRowsWithoutTokens | src/main/java/com/example/guowangwaveformanalysis/service/impl/XlsServiceImpl.java:112-130 | a table whose cells hold no token is unchanged |
| Placeholders.SubstituteRowsKeepsStructure | src/main/java/com/example/guowangwaveformanalysis/service/impl/XlsServiceImpl.java:112-130 | substitution keeps the table's rows, cells, paragraphs, alignments and run counts, and maps each run by SubstituteRun |
| Placeholders.SubstituteRuns | src/main/java/com/example/guowangwaveformanalysis/service/impl/XlsServiceImpl.java:99-109 | the loop over a paragraph's runs gives each run substituted, in order |
| Placeholders.SubstituteCellParagraphs | src/main/java/com/example/guowangwaveformanalysis/service/impl/XlsServiceImpl.java:115-127 | the loop over a cell's paragraphs gives the substituted cell |
| ReplaceMaps.Lookup | src/main/java/com/example/guowangwaveformanalysis/service/impl/XlsServiceImpl.java:185 | Map.get finds a value exactly when some entry has the key |
| ReplaceMaps.KeyIndex | src/main/java/com/example/guowangwaveformanalysis/service/impl/XlsServiceImpl.java:154 | the first position of the key, or the end when it is absent |
| ReplaceMaps.PutEntry | src/main/java/com/example/guowangwaveformanalysis/service/impl/XlsServiceImpl.java:154-156 | put keeps the size when the key is present and adds one entry when it is not |
| ReplaceMaps.PutThenLookup | src/main/java/com/example/guowangwaveformanalysis/service/impl/XlsServiceImpl.java:154-156 | after put the key maps to the new value and every other key keeps its value |
| ReplaceMaps.PutKeepsDistinct | src/main/java/com/example/guowangwaveformanalysis/service/impl/XlsServiceImpl.java:154-156 | put keeps the keys distinct |
| ReplaceMaps.LookupAt | src/main/java/com/example/guowangwaveformanalysis/service/impl/XlsServiceImpl.java:185 | with distinct keys, get of the key stored at a position returns the value stored there |
| ReplaceMaps.KeyIndexIsFirst | src/main/java/com/example/guowangwaveformanalysis/service/impl/XlsServiceImpl.java:154 | the first position holding the key is KeyIndex |
| ReplaceMaps.ReplaceMap.constructor | src/main/java/com/example/guowangwaveformanalysis/service/impl/XlsServiceImpl.java:138 | the map starts with the caller's entries |
| ReplaceMaps.ReplaceMap.Put | src/main/java/com/example/guowangwaveformanalysis/service/impl/XlsServiceImpl.java:154-156 | put overwrites in place or appends, keeps the keys distinct, makes get return the new value and leaves every other key's value alone |
| ReportTables.TemplateTable.constructor | src/main/java/com/example/guowangwaveformanalysis/service/impl/XlsServiceImpl.java:170 | a table object holds the template's rows |
| ReportTables.TemplateTable.SetCellText | src/main/java/com/example/guowangwaveformanalysis/service/impl/XlsServiceImpl.java:599-610 | setCellText replaces exactly the one cell with a single centred Times New Roman 10 pt paragraph of the text |
| ReportTables.TemplateTable.SetCellTextIf | src/main/java/com/example/guowangwaveformanalysis/service/impl/XlsServiceImpl.java:252-254 | the guarded write: the cell is rewritten exactly when the table has the row and more than minCells cells in it; nothing else changes |
| ReportTables.TemplateTable.FillColumn | src/main/java/com/example/guowangwaveformanalysis/service/impl/XlsServiceImpl.java:255-259 | value i goes into row i + 3 of the column where that cell exists; every other cell is unchanged |
| ReportTables.TemplateTable.SubstitutePlaceholders | src/main/java/com/example/guowangwaveformanalysis/service/impl/XlsServiceImpl.java:112-130 | every run of every cell paragraph of the table is substituted |
| ReportTables.FillVoltagePhase | src/main/java/com/example/guowangwaveformanalysis/service/impl/XlsServiceImpl.java:252-262 | one phase block: fundamental and distortion each one column left of the harmonics, each guarded, and the harmonics down the column |
| ReportTables.FillVoltageHarmonicTable | src/main/java/com/example/guowangwaveformanalysis/service/impl/XlsServiceImpl.java:220-335 | every cell ends up as VoltageHarmonicText says: kV fundamentals in row 2, harmonics 2..25 in rows 3..26, distortions in row 27, limits in column 8, the dash at (2, 7), the distortion limit at (27, 7); the shape is kept and every other cell is untouched |
| ReportTables.FillVoltagePhaseBlock | src/main/java/com/example/guowangwaveformanalysis/service/impl/XlsServiceImpl.java:252-322 | each of the six blocks adds that statistic's cells to the table of the blocks before it |
| ReportTables.FinishVoltageTable | src/main/java/com/example/guowangwaveformanalysis/service/impl/XlsServiceImpl.java:324-334 | the limit column and the two unguarded cells complete the voltage table |
| ReportTables.VoltagePhasesTable | src/main/java/com/example/guowangwaveformanalysis/service/impl/XlsServiceImpl.java:252-322 | the table after some phase blocks has the template's shape |
| ReportTables.NoPhaseYet | src/main/java/com/example/guowangwaveformanalysis/service/impl/XlsServiceImpl.java:251 | before the first block the table is the template's |
| ReportTables.PhaseTextStep | src/main/java/com/example/guowangwaveformanalysis/service/impl/XlsServiceImpl.java:252-322 | one more block overlays exactly its own cells on what the earlier blocks wrote |
| ReportTables.VoltagePhaseStep | src/main/java/com/example/guowangwaveformanalysis/service/impl/XlsServiceImpl.java:252-322 | the table after a block's writes is the table of one more block |
| ReportTables.VoltageFinish | src/main/java/com/example/guowangwaveformanalysis/service/impl/XlsServiceImpl.java:324-334 | after the limit column and the two fixed cells, every cell is as VoltageHarmonicText says |
| ReportTables.ReadPhase | src/main/java/com/example/guowangwaveformanalysis/service/impl/XlsServiceImpl.java:223-245 | the reads of one statistic: its fundamental (row 9), its 24 harmonics (rows 10..33), its distortion (row 59) |
| ReportTables.HarmonicColumnValues | src/main/java/com/example/guowangwaveformanalysis/service/impl/XlsServiceImpl.java:224 | a harmonic column read is 24 values |
| ReportTables.PhaseValues | src/main/java/com/example/guowangwaveformanalysis/service/impl/XlsServiceImpl.java:223-245 | the reads of a phase carry 24 harmonics |
| ReportTables.ReadCurrentSheet | src/main/java/com/example/guowangwaveformanalysis/service/impl/XlsServiceImpl.java:341-366 | six fundamentals from row 9 of the statistic columns, and seven 24-value columns (six statistics and the limits) |
| ReportTables.FillCurrentRow | src/main/java/com/example/guowangwaveformanalysis/service/impl/XlsServiceImpl.java:388-410 | one loop pass: the seven values into columns 2..8 of row i + 3 where those cells exist |
| ReportTables.FillCurrentHarmonicTable | src/main/java/com/example/guowangwaveformanalysis/service/impl/XlsServiceImpl.java:338-413 | every cell ends up as CurrentHarmonicText says: fundamentals unscaled in row 2, the harmonic block, the dash at (2, 7), and the distortion row never written |
| ReportTables.FillCurrentFundamentals | src/main/java/com/example/guowangwaveformanalysis/service/impl/XlsServiceImpl.java:369-386 | the six guarded fundamental writes of row 2 |
| ReportTables.FillCurrentRows | src/main/java/com/example/guowangwaveformanalysis/service/impl/XlsServiceImpl.java:388-410 | the 24-pass loop writes the whole harmonic block over the fundamentals |
| ReportTables.CurrentRowStep | src/main/java/com/example/guowangwaveformanalysis/service/impl/XlsServiceImpl.java:388-410 | each pass adds exactly row i + 3 of the harmonic block |
| ReportTables.SetRowTexts | src/main/java/com/example/guowangwaveformanalysis/service/impl/XlsServiceImpl.java:450-454 | consecutive unguarded writes along a row rewrite exactly those cells |
| ReportTables.RowWithTexts | src/main/java/com/example/guowangwaveformanalysis/service/impl/XlsServiceImpl.java:450-454 | a row keeps its length when texts are written into it |
| ReportTables.FrequencyRowTexts | src/main/java/com/example/guowangwaveformanalysis/service/impl/XlsServiceImpl.java:450-482 | five texts per table row |
| ReportTables.FrequencyRowCell | src/main/java/com/example/guowangwaveformanalysis/service/impl/XlsServiceImpl.java:450-482 | FrequencyText of a cell is its row's text at that column, and None off rows 1..5 and their written columns |
| ReportTables.FillFrequencyTable | src/main/java/com/example/guowangwaveformanalysis/service/impl/XlsServiceImpl.java:416-483 | every cell ends up as FrequencyText says: frequency values less 50 Hz and the limit text as read in row 1, unbalance in row 2, the three flicker rows 3..5 with the flicker limit; everything else is untouched |
| ReportTables.FrequencyCells | src/main/java/com/example/guowangwaveformanalysis/service/impl/XlsServiceImpl.java:450-482 | the five row writes give the per-cell FrequencyText table |
| ReportTables.DeviationRowTexts | src/main/java/com/example/guowangwaveformanalysis/service/impl/XlsServiceImpl.java:508-523 | seven texts per deviation row |
| ReportTables.DeviationRowCell | src/main/java/com/example/guowangwaveformanalysis/service/impl/XlsServiceImpl.java:508-523 | DeviationText of a cell is its row's text at that column, and None outside rows 2..3 and columns 1..7 |
| ReportTables.FillVoltageDeviationTable | src/main/java/com/example/guowangwaveformanalysis/service/impl/XlsServiceImpl.java:486-530 | every cell ends up as DeviationText says (upper row 2, lower row 3 with the minus-signed lower limit), and the map gains maxVoltageDeviation with the formatted largest upper maximum, keys still distinct |
| ReportTables.DeviationCells | src/main/java/com/example/guowangwaveformanalysis/service/impl/XlsServiceImpl.java:508-523 | the two row writes give the per-cell DeviationText table |
| ReportTables.HarmonicFillsCoverBlock | src/main/java/com/example/guowangwaveformanalysis/service/impl/XlsServiceImpl.java:220-413 | both harmonic fills write every existing harmonic-block cell, never write outside rows 2..27 and columns 1..8, and the current fill never writes the distortion row |
| ReportTables.HarmonicBlocksAgree | src/main/java/com/example/guowangwaveformanalysis/service/impl/XlsServiceImpl.java:220-413 | the voltage and current fills write the same texts in rows 3..26 |
| ReportTables.MaxUpDeviationIsAPhaseMaximum | src/main/java/com/example/guowangwaveformanalysis/service/impl/XlsServiceImpl.java:526-527 | when Math.max picks one of its arguments, the stored maximum is the upper maximum of AB, BC or AC |
| ReportTables.MaxUpDeviationBoundsPhaseMaxima | src/main/java/com/example/guowangwaveformanalysis/service/impl/XlsServiceImpl.java:526-527 | under any transitive order that Math.max bounds, the stored maximum is at least each of the three |
| ReportText.AppendEntryAddsLine | src/main/java/com/example/guowangwaveformanalysis/service/impl/XlsServiceImpl.java:150-152 | the three appends add one `m  c  d\n` line |
| ReportText.MeasurementText | src/main/java/com/example/guowangwaveformanalysis/service/impl/XlsServiceImpl.java:144-157 | a missing or empty list gives the empty text, and the text is always trimmed |
| ReportText.FlattenInstruments | src/main/java/com/example/guowangwaveformanalysis/service/impl/XlsServiceImpl.java:144-157 | the StringBuilder loop computes MeasurementText |
| ReportText.InstrumentLinesAppend | src/main/java/com/example/guowangwaveformanalysis/service/impl/XlsServiceImpl.java:146-153 | the lines of two lists are the lines of each, concatenated |
| ReportText.MeasurementTextIsLinesWithoutFinalBreak | src/main/java/com/example/guowangwaveformanalysis/service/impl/XlsServiceImpl.java:144-154 | when the first field does not start with a blank and the last does not end with one, the text is the lines without the final line break |
| ReportText.TrimDropsFinalBreak | src/main/java/com/example/guowangwaveformanalysis/service/impl/XlsServiceImpl.java:154 | trimming a trimmed text plus a line break drops the break |
| ReportText.TwoInstrumentsScenario | src/main/java/com/example/guowangwaveformanalysis/service/impl/XlsServiceImpl.java:144-157 | two instruments give `m1  c1  d1\nm2  c2  d2` |
| ReportText.LastColon | src/main/java/com/example/guowangwaveformanalysis/service/impl/XlsServiceImpl.java:167 | the last full- or half-width colon, or -1, with none after it |
| ReportText.LineEnd | src/main/java/com/example/guowangwaveformanalysis/service/impl/XlsServiceImpl.java:167 | the first line terminator, before which the text is one line |
| ReportText.StripSingleLine | src/main/java/com/example/guowangwaveformanalysis/service/impl/XlsServiceImpl.java:167 | `.*[：:]` on a one-line label drops everything through the last colon |
| ReportText.MonitorPositionOfSingleLine | src/main/java/com/example/guowangwaveformanalysis/service/impl/XlsServiceImpl.java:166-167 | the location is the trimmed text after the last colon (or the whole trimmed label) and holds no colon |
| ReportText.ColonFreeAfterLastColon | src/main/java/com/example/guowangwaveformanalysis/service/impl/XlsServiceImpl.java:167 | nothing after the last colon is a colon |
| ReportText.TrimKeepsColonFree | src/main/java/com/example/guowangwaveformanalysis/service/impl/XlsServiceImpl.java:167 | trimming a colon-free text keeps it colon-free |
| ReportText.SingleLineEnd | src/main/java/com/example/guowangwaveformanalysis/service/impl/XlsServiceImpl.java:167 | a one-line text ends at its length |
| ReportText.LastColonBefore | src/main/java/com/example/guowangwaveformanalysis/service/impl/XlsServiceImpl.java:167 | the colon before a colon-free tail is the last one |
| ReportText.MonitorPositionAfterLabel | src/main/java/com/example/guowangwaveformanalysis/service/impl/XlsServiceImpl.java:166-167 | label, colon, blanks, site gives exactly the site |
| ReportText.FullWidthLabelScenario | src/main/java/com/example/guowangwaveformanalysis/service/impl/XlsServiceImpl.java:167 | a label with a full-width colon gives the site name |
| ReportText.MixedColonLabelScenario | src/main/java/com/example/guowangwaveformanalysis/service/impl/XlsServiceImpl.java:167 | in a label holding both colon kinds, the last colon wins and the site name after it remains |
| ReportText.SpliceIndex | src/main/java/com/example/guowangwaveformanalysis/service/impl/XlsServiceImpl.java:655-656 | the splice point lies within the caption |
| ReportText.CaptionSpliceInverse | src/main/java/com/example/guowangwaveformanalysis/service/impl/XlsServiceImpl.java:650-663 | a non-exempt caption gets `" " + position` inserted at the splice point, and removing it gives the caption back; exempt captions (trimmed start `图1.1`) are exactly the ones left unchanged |
| ReportText.CaptionSpliceShape | src/main/java/com/example/guowangwaveformanalysis/service/impl/XlsServiceImpl.java:654-662 | a non-exempt caption is its head, a space and the location, and its tail |
| ReportText.SpliceFollowsFirstToken | src/main/java/com/example/guowangwaveformanalysis/service/impl/XlsServiceImpl.java:655-659 | when the first space is not last, the splice follows the first space |
| ReportText.DetectImageTypeByExtension | src/main/java/com/example/guowangwaveformanalysis/service/impl/XlsServiceImpl.java:613-621 | a name ending in .png, .jpg, .jpeg, .bmp or .gif, in any case, gets that extension's type |
| ReportText.TypeOfLowerNameByExtension | src/main/java/com/example/guowangwaveformanalysis/service/impl/XlsServiceImpl.java:616-619 | a lowered name's extension decides its type |
| ReportText.JpgName | src/main/java/com/example/guowangwaveformanalysis/service/impl/XlsServiceImpl.java:617 | .jpg is JPEG |
| ReportText.JpegName | src/main/java/com/example/guowangwaveformanalysis/service/impl/XlsServiceImpl.java:617 | .jpeg is JPEG |
| ReportText.BmpName | src/main/java/com/example/guowangwaveformanalysis/service/impl/XlsServiceImpl.java:618 | .bmp is BMP |
| ReportText.GifName | src/main/java/com/example/guowangwaveformanalysis/service/impl/XlsServiceImpl.java:619 | .gif is GIF |
| ReportText.SuffixOfConcat | src/main/java/com/example/guowangwaveformanalysis/service/impl/XlsServiceImpl.java:616-619 | a suffix no longer than the tail is a suffix of the whole exactly when it is one of the tail |
| ReportText.UnknownSuffixIsPng | src/main/java/com/example/guowangwaveformanalysis/service/impl/XlsServiceImpl.java:620 | any other name is PNG |
| ReportText.DecimalString | src/main/java/com/example/guowangwaveformanalysis/service/impl/XlsServiceImpl.java:192 | Integer.toString: decimal digits, with a leading zero only for 0 |
| ReportText.DecimalRoundTrip | src/main/java/com/example/guowangwaveformanalysis/service/impl/XlsServiceImpl.java:192 | the digits read back as the number |
| ReportText.ImagePlaceholdersDistinct | src/main/java/com/example/guowangwaveformanalysis/service/impl/XlsServiceImpl.java:191-192 | different image numbers give different placeholders |
| MergedCells.ApplyRegion | src/main/java/com/example/guowangwaveformanalysis/service/impl/XlsServiceImpl.java:78-91 | one region's pass keeps the sheet's shape |
| MergedCells.Densify | src/main/java/com/example/guowangwaveformanalysis/service/impl/XlsServiceImpl.java:75-93 | the passes over all regions keep the sheet's shape |
| MergedCells.DensifyDisjoint | src/main/java/com/example/guowangwaveformanalysis/service/impl/XlsServiceImpl.java:75-93 | for disjoint regions, every existing cell of a region holds its anchor's value and every cell outside all regions is unchanged |
| MergedCells.DensifyInside | src/main/java/com/example/guowangwaveformanalysis/service/impl/XlsServiceImpl.java:83-90 | a cell inside one of disjoint regions ends up with that region's anchor value |
| MergedCells.DensifyOutside | src/main/java/com/example/guowangwaveformanalysis/service/impl/XlsServiceImpl.java:83-90 | a cell in no region is left alone |
| MergedCells.AnchorsInsideTail | src/main/java/com/example/guowangwaveformanalysis/service/impl/XlsServiceImpl.java:82 | after a pass, the remaining regions' anchors still exist |
| MergedCells.DisjointTail | src/main/java/com/example/guowangwaveformanalysis/service/impl/XlsServiceImpl.java:77 | the later regions stay pairwise disjoint and disjoint from the first |
| MergedCells.DensifyKeepsShape | src/main/java/com/example/guowangwaveformanalysis/service/impl/XlsServiceImpl.java:86-88 | the row count and every row length are kept |
| MergedCells.DensifyIdempotent | src/main/java/com/example/guowangwaveformanalysis/service/impl/XlsServiceImpl.java:75-93 | running the pass again over disjoint regions changes nothing |
| MergedCells.SheetGrid.constructor | src/main/java/com/example/guowangwaveformanalysis/service/impl/XlsServiceImpl.java:55 | the grid holds the rows read |
| MergedCells.SheetGrid.ProcessMergedCells | src/main/java/com/example/guowangwaveformanalysis/service/impl/XlsServiceImpl.java:75-93 | the nested loops leave the grid as Densify says |
| MergedCells.SheetGrid.FillRegion | src/main/java/com/example/guowangwaveformanalysis/service/impl/XlsServiceImpl.java:78-91 | one region's loops copy the anchor into the region's existing cells |
| MergedCells.ParseSheets | src/main/java/com/example/guowangwaveformanalysis/service/impl/XlsServiceImpl.java:50-72 | each of the three sheets is densified by its own regions |
| WordDocuments.ParagraphPositions | src/main/java/com/example/guowangwaveformanalysis/service/impl/XlsServiceImpl.java:633 | getParagraphs: positions of body paragraphs |
| WordDocuments.ParagraphPositionsInOrder | src/main/java/com/example/guowangwaveformanalysis/service/impl/XlsServiceImpl.java:633 | the positions increase, and every paragraph is listed |
| WordDocuments.TablesConcat | src/main/java/com/example/guowangwaveformanalysis/service/impl/XlsServiceImpl.java:170 | the tables of a concatenation are those of each part |
| WordDocuments.TablesInBody | src/main/java/com/example/guowangwaveformanalysis/service/impl/XlsServiceImpl.java:170 | every listed table stands in the body |
| WordDocuments.DistinctTableList | src/main/java/com/example/guowangwaveformanalysis/service/impl/XlsServiceImpl.java:170 | distinct table elements give distinct list entries |
| WordDocuments.SubstituteBody | src/main/java/com/example/guowangwaveformanalysis/service/impl/XlsServiceImpl.java:98-110 | substitution keeps the body length |
| WordDocuments.SubstituteBodyKeepsTables | src/main/java/com/example/guowangwaveformanalysis/service/impl/XlsServiceImpl.java:96-131 | paragraph substitution keeps the table list |
| WordDocuments.SubstituteBodyWithoutTokens | src/main/java/com/example/guowangwaveformanalysis/service/impl/XlsServiceImpl.java:98-110 | a body with no tokens is unchanged |
| WordDocuments.TableIndex | src/main/java/com/example/guowangwaveformanalysis/service/impl/XlsServiceImpl.java:571-572 | the first body position holding the table (by identity), or the end |
| WordDocuments.TitlePrecedesTable | src/main/java/com/example/guowangwaveformanalysis/service/impl/XlsServiceImpl.java:569-596 | after setTableTitle, the element before the table is a paragraph of one SimSun 12 pt run reading the title |
| WordDocuments.TableIndexAt | src/main/java/com/example/guowangwaveformanalysis/service/impl/XlsServiceImpl.java:571-572 | the first position holding the table is TableIndex |
| WordDocuments.TitleIdempotent | src/main/java/com/example/guowangwaveformanalysis/service/impl/XlsServiceImpl.java:573-583 | setting the same title twice is setting it once |
| WordDocuments.TablesAroundParagraph | src/main/java/com/example/guowangwaveformanalysis/service/impl/XlsServiceImpl.java:584-592 | inserting a paragraph adds no table |
| WordDocuments.NoTableInParagraph | src/main/java/com/example/guowangwaveformanalysis/service/impl/XlsServiceImpl.java:584-592 | a paragraph is no table |
| WordDocuments.ParagraphSwapKeepsTables | src/main/java/com/example/guowangwaveformanalysis/service/impl/XlsServiceImpl.java:573-583 | replacing a paragraph by a paragraph keeps the tables |
| WordDocuments.UpdateAsConcat | src/main/java/com/example/guowangwaveformanalysis/service/impl/XlsServiceImpl.java:573-583 | a one-position update is a concatenation around it |
| WordDocuments.ParagraphUpdateKeepsTables | src/main/java/com/example/guowangwaveformanalysis/service/impl/XlsServiceImpl.java:573-583 | updating a paragraph keeps the tables |
| WordDocuments.TitleKeepsTables | src/main/java/com/example/guowangwaveformanalysis/service/impl/XlsServiceImpl.java:569-596 | setTableTitle keeps the table list |
| WordDocuments.MatchIndex | src/main/java/com/example/guowangwaveformanalysis/service/impl/XlsServiceImpl.java:634-637 | the first paragraph whose text contains the placeholder, or the end |
| WordDocuments.ImagedBody | src/main/java/com/example/guowangwaveformanalysis/service/impl/XlsServiceImpl.java:633-675 | picture insertion keeps the body length |
| WordDocuments.ImageWithoutMatch | src/main/java/com/example/guowangwaveformanalysis/service/impl/XlsServiceImpl.java:633-675 | without a paragraph containing the placeholder, nothing changes |
| WordDocuments.ImageFrame | src/main/java/com/example/guowangwaveformanalysis/service/impl/XlsServiceImpl.java:633-675 | only the matched paragraph and the next one can change |
| WordDocuments.ImageReplacesPlaceholder | src/main/java/com/example/guowangwaveformanalysis/service/impl/XlsServiceImpl.java:637-643 | the matched paragraph keeps its alignment and holds just the picture run, with no text |
| WordDocuments.ImageRewritesCaption | src/main/java/com/example/guowangwaveformanalysis/service/impl/XlsServiceImpl.java:646-671 | the next paragraph becomes one SimSun 12 pt run of the spliced caption, with no paragraph between them |
| WordDocuments.NextParagraph | src/main/java/com/example/guowangwaveformanalysis/service/impl/XlsServiceImpl.java:646-647 | between consecutive paragraph positions there is no paragraph |
| WordDocuments.GapHoldsNoPosition | src/main/java/com/example/guowangwaveformanalysis/service/impl/XlsServiceImpl.java:646-647 | a position strictly between consecutive paragraph positions is not a paragraph position |
| WordDocuments.ImageKeepsTables | src/main/java/com/example/guowangwaveformanalysis/service/impl/XlsServiceImpl.java:624-676 | picture insertion keeps the table list |
| WordDocuments.ImageAtMatch | src/main/java/com/example/guowangwaveformanalysis/service/impl/XlsServiceImpl.java:633-674 | the rewrite at a match is the picture write, then the caption write when a next paragraph exists |
| WordDocuments.MatchIndexAt | src/main/java/com/example/guowangwaveformanalysis/service/impl/XlsServiceImpl.java:634-637 | the first matching paragraph is MatchIndex |
| WordDocuments.WordDocument.constructor | src/main/java/com/example/guowangwaveformanalysis/service/impl/XlsServiceImpl.java:141 | the document holds the template body |
| WordDocuments.WordDocument.ReplacePlaceholders | src/main/java/com/example/guowangwaveformanalysis/service/impl/XlsServiceImpl.java:96-131 | paragraphs are substituted, the table list is kept, and every table's cells are substituted |
| WordDocuments.WordDocument.SubstituteParagraphs | src/main/java/com/example/guowangwaveformanalysis/service/impl/XlsServiceImpl.java:98-110 | every body paragraph is substituted |
| WordDocuments.WordDocument.SetTableTitle | src/main/java/com/example/guowangwaveformanalysis/service/impl/XlsServiceImpl.java:569-596 | the body becomes TitledBody: rewrite the paragraph before the table, or insert one, or nothing when the table is absent |
| WordDocuments.WordDocument.InsertImageAndModifyCaption | src/main/java/com/example/guowangwaveformanalysis/service/impl/XlsServiceImpl.java:624-676 | the body becomes ImagedBody |
| WordDocuments.SubstituteTables | src/main/java/com/example/guowangwaveformanalysis/service/impl/XlsServiceImpl.java:112-130 | every distinct table's cells are substituted |
| ReportEngine.TableTitle | src/main/java/com/example/guowangwaveformanalysis/service/impl/XlsServiceImpl.java:174-183 | a title is its number, the location and its name |
| ReportEngine.TitledReportKeepsTables | src/main/java/com/example/guowangwaveformanalysis/service/impl/XlsServiceImpl.java:170-187 | titling the four tables keeps the table list |
| ReportEngine.ImagesKeepTables | src/main/java/com/example/guowangwaveformanalysis/service/impl/XlsServiceImpl.java:190-206 | inserting all pictures keeps the table list |
| ReportEngine.ReportKeepsTables | src/main/java/com/example/guowangwaveformanalysis/service/impl/XlsServiceImpl.java:134-217 | the finished body has the template's tables |
| ReportEngine.GenerateWordDocument | src/main/java/com/example/guowangwaveformanalysis/service/impl/XlsServiceImpl.java:134-217 | the body is ReportBody; the tables are the template's; measurement is stored; with four tables maxVoltageDeviation is put and the four tables are filled from the substituted template; extra tables, or all of them when fewer than four, are substituted only |
| ReportEngine.FinishReport | src/main/java/com/example/guowangwaveformanalysis/service/impl/XlsServiceImpl.java:169-206 | titles and fills (four tables or more), then the pictures; measurement is kept |
| ReportEngine.FillStage | src/main/java/com/example/guowangwaveformanalysis/service/impl/XlsServiceImpl.java:170-187 | with four tables the titles and fills, otherwise nothing |
| ReportEngine.FillFourTables | src/main/java/com/example/guowangwaveformanalysis/service/impl/XlsServiceImpl.java:171-186 | the four titled fills, keeping measurement |
| ReportEngine.PrepareTemplate | src/main/java/com/example/guowangwaveformanalysis/service/impl/XlsServiceImpl.java:143-163 | measurement is put, then every paragraph and table cell is substituted from the map |
| ReportEngine.ShapesSurviveSubstitution | src/main/java/com/example/guowangwaveformanalysis/service/impl/XlsServiceImpl.java:160-163 | substitution keeps every table shape the fills need |
| ReportEngine.FillReportTables | src/main/java/com/example/guowangwaveformanalysis/service/impl/XlsServiceImpl.java:172-185 | each table titled and filled as its text function says, plus the map's new entry |
| ReportEngine.InsertImages | src/main/java/com/example/guowangwaveformanalysis/service/impl/XlsServiceImpl.java:190-206 | the loop inserts picture i + 1 at `{{image<i+1>}}` in order |

## Left out

- Reading the workbook and the template, and writing the output file to disk (lines 50-72 and 208-216), are I/O. The model starts from grids, merged regions and a document body, and stops at the final body.
- The controller and the service interface are not part of this model.
- Java doubles are not modelled bit by bit. `parseDouble`, `formatDouble`, a numeric cell's `toString`, `/ 1000`, `- 50` and `Math.max` are the fields of `FloatOps`, and nothing assumes how they round.
- Cells.FloatOps.format2: `formatDouble` builds `new BigDecimal(value)` (line 563), which throws on NaN and ±Infinity, and the model treats it as total. `getDoubleValue` yields those values for cell texts such as "NaN", "Infinity" or "1e400", and `Math.max` passes NaN on. Where the source then throws on such a cell, the model still writes `format2` of it. Examples are the unguarded distortion limit at line 334, a guarded harmonic cell, and the put at line 527. The source writes no report in those cases.
- `HashMap` iteration order is unspecified in Java, so the map is its entry sequence in some fixed order. Substitution applies the entries in that order.
- ReplaceMaps.ReplaceMap.Put: a newly put key is appended, so it is iterated last; a `HashMap` places it by its hash. So unless the caller's map already holds `measurement`, that key is substituted after all of the caller's keys. The order matters only when one value holds another key's token. For example, an instrument named `{{a}}` with a caller entry `a → x` gives `{{a}}  c  d` in the model but may give `x  c  d` in the source.
- Exceptions the source lets escape become preconditions. These are:
  - a merged region whose anchor is missing (line 82);
  - a missing or null location label (line 166);
  - the unguarded sheet reads of the harmonic fills (lines 223-248 and 341-366, through line 544), stated by `HarmonicSheet`;
  - the power-sheet reads (lines 419-429), including `toString()` of a null frequency limit (line 423), stated by `PowerSheet`;
  - the flicker reads (lines 431-446), stated by `FlickerSheet`;
  - the deviation rows (lines 489-504), and a lower deviation limit that is null or does not parse (line 504), stated by `DeviationSheet`;
  - the unguarded table cells (lines 331, 334, 412 and 450-523).
- Four nulls cannot be expressed, because the map is a non-null object, its values are strings, and the lists hold values:
  - a null replacement map, which would throw at line 154 or 156;
  - a null value in the map, which would throw in `String.replace` at lines 104 and 121;
  - a null element of the instrument list, which throws at line 147 and escapes the report generation;
  - a null element of the image array, which throws at line 193; the catch at lines 202-204 swallows it, so that image is skipped.
- Failures while inserting an image take one of two paths in the source, and the model, which treats image bytes as given, models neither:
  - when `getInputStream` fails (line 193), the image is skipped;
  - when reading the stream fails inside `addPicture` (line 642), lines 639-641 have already removed the placeholder paragraph's runs and added an empty run, so the catch at lines 202-204 leaves that paragraph emptied and its caption unchanged.
- A null image array is modelled as an empty one.
- XmlCursor placement (lines 586-587) is modelled as inserting a paragraph before the table. `Units.toEMU` sizing (lines 642-643) is kept as 400 by 250 pixels. Template fonts and alignments are opaque tags.
- Tables nested inside cells, headers, footers and text boxes are not modelled.
- The strip `.*[：:]` is modelled for the line holding the label. Texts with line terminators are handled line by line, as `.` does not match them.
- JavaText.ToLower: lowers ASCII letters only. `toLowerCase()` uses the JVM's default locale. Under a Turkish locale `.GIF` lowers to `.gıf`, and `detectImageType` returns PNG where the model returns GIF.
- The copy-pasted write blocks of the two harmonic fills are rolled into loops over the six statistic columns, in the source's order. The voltage fill reads each block just before writing it. The sheet is never written, so the texts are the same.
- The `System.out.println` and log lines are output only.
- FillVoltagePhaseBlock, FinishVoltageTable, FillCurrentFundamentals, FillCurrentRows and FillFourTables: their ghost table and entry parameters are specification only.
