/**
 * The content of a report document as plain values: runs (text nodes,
 * embedded pictures, a style tag), paragraphs, and the ragged cell grid of a
 * table whose cells hold paragraphs. Serialisation is the document library's
 * business and is not modelled.
 */
module DocModel {
  import opened Wrappers

  /** The picture formats detectImageType can choose. */
  datatype PictureType = Png | Jpeg | Bmp | Gif

  /** An embedded picture with the pixel size it was asked to have. */
  datatype Picture = Picture(kind: PictureType, name: string, bytes: seq<bv8>, widthPx: nat, heightPx: nat)

  /** A run's font settings: none yet, the template's own, or a family and point size set by the engine. */
  datatype RunStyle = NoFont | TemplateFont(tag: nat) | Font(family: string, points: nat)

  /** A run: its text nodes in order, its pictures, and its font. */
  datatype Run = Run(texts: seq<string>, pictures: seq<Picture>, style: RunStyle)

  datatype Alignment = NoAlignment | TemplateAlignment(tag: nat) | Center

  datatype Paragraph = Paragraph(alignment: Alignment, runs: seq<Run>)

  /** A table cell holds paragraphs. */
  type CellBody = seq<Paragraph>

  /** A table: rows of cells, rows of varying length. */
  type Rows = seq<seq<CellBody>>

  /** XWPFRun.getText(0): the first text node, or null when the run has none. */
  function FirstText(run: Run): Option<string> {
    if run.texts == [] then None else Some(run.texts[0])
  }

  function Concat(parts: seq<string>): string {
    if parts == [] then "" else parts[0] + Concat(parts[1..])
  }

  /** All the text of a run. */
  function RunText(run: Run): string {
    Concat(run.texts)
  }

  /** XWPFParagraph.getText(): the paragraph's runs' text, concatenated. */
  function ParagraphText(p: Paragraph): string
    decreases |p.runs|
  {
    if p.runs == [] then ""
    else RunText(p.runs[0]) + ParagraphText(Paragraph(p.alignment, p.runs[1..]))
  }

  /** A fresh run holding one text in the given font. */
  function TextRun(text: string, family: string, points: nat): Run {
    Run([text], [], Font(family, points))
  }

  /** The font setTableTitle and the caption rewrite use: SimSun, 12 point. */
  const TITLE_FAMILY := "SimSun"
  const TITLE_POINTS := 12

  /** The font setCellText uses: Times New Roman, 10 point. */
  const CELL_FAMILY := "Times New Roman"
  const CELL_POINTS := 10

  /** A paragraph whose runs were all removed and replaced by one title-font run. */
  function Retitled(p: Paragraph, text: string): (q: Paragraph)
    ensures q.alignment == p.alignment
    ensures ParagraphText(q) == text
  {
    var q := Paragraph(p.alignment, [TextRun(text, TITLE_FAMILY, TITLE_POINTS)]);
    assert ParagraphText(q) == RunText(q.runs[0]) + ParagraphText(Paragraph(q.alignment, []));
    assert Concat([text]) == text + Concat([]);
    q
  }

  /** The content setCellText leaves: one centred paragraph with one run of the text. */
  function CellWithText(text: string): CellBody {
    [Paragraph(Center, [TextRun(text, CELL_FAMILY, CELL_POINTS)])]
  }

  predicate HasTableCell(rows: Rows, r: int, c: int) {
    0 <= r < |rows| && 0 <= c < |rows[r]|
  }

  predicate SameTableShape(a: Rows, b: Rows) {
    |a| == |b| && forall r :: 0 <= r < |a| ==> |a[r]| == |b[r]|
  }
}
