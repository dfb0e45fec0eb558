/**
 * Placeholder substitution (replacePlaceholders): in the first text node of
 * every run, each `{{key}}` of the replacement map is replaced by its value,
 * the map's entries taken one after the other in iteration order.
 */
module Placeholders {
  import opened Wrappers
  import opened JavaText
  import opened DocModel

  /** The replacement map's entries in iteration order; keys are distinct. */
  type Entries = seq<(string, string)>

  function Token(key: string): string {
    "{{" + key + "}}"
  }

  /** Different keys have different tokens: the key is what stands between the braces. */
  lemma TokenInjective(a: string, b: string)
    ensures Token(a) == Token(b) ==> a == b
  {
    if Token(a) == Token(b) {
      assert Token(a)[2..|Token(a)| - 2] == a;
      assert Token(b)[2..|Token(b)| - 2] == b;
    }
  }

  /** No entry's token occurs in `text`. */
  predicate FreeOfTokens(text: string, entries: Entries) {
    forall i :: 0 <= i < |entries| ==> !Contains(text, Token(entries[i].0))
  }

  /** The text after every entry has been applied, in order. */
  function SubstituteText(text: string, entries: Entries): string
    decreases |entries|
  {
    if entries == [] then text
    else
      var token := Token(entries[0].0);
      var next := if Contains(text, token) then ReplaceAll(text, token, entries[0].1) else text;
      SubstituteText(next, entries[1..])
  }

  /** A run with no text node is left alone; otherwise only its first text node is rewritten. */
  function SubstituteRun(run: Run, entries: Entries): Run {
    match FirstText(run)
    case None => run
    case Some(text) => run.(texts := run.texts[0 := SubstituteText(text, entries)])
  }

  function SubstituteAllRuns(runs: seq<Run>, entries: Entries): (out: seq<Run>)
    ensures |out| == |runs|
  {
    seq(|runs|, i requires 0 <= i < |runs| => SubstituteRun(runs[i], entries))
  }

  function SubstituteParagraph(p: Paragraph, entries: Entries): Paragraph {
    p.(runs := SubstituteAllRuns(p.runs, entries))
  }

  function SubstituteCell(cell: CellBody, entries: Entries): (out: CellBody)
    ensures |out| == |cell|
  {
    seq(|cell|, i requires 0 <= i < |cell| => SubstituteParagraph(cell[i], entries))
  }

  function SubstituteRowCells(row: seq<CellBody>, entries: Entries): (out: seq<CellBody>)
    ensures |out| == |row|
  {
    seq(|row|, i requires 0 <= i < |row| => SubstituteCell(row[i], entries))
  }

  /** Every paragraph of every cell of a table, substituted. */
  function SubstituteRows(rows: Rows, entries: Entries): (out: Rows)
    ensures |out| == |rows|
  {
    seq(|rows|, i requires 0 <= i < |rows| => SubstituteRowCells(rows[i], entries))
  }

  /** A text that holds no token of any entry comes out unchanged. */
  lemma {:induction false} SubstituteTextWithoutTokens(text: string, entries: Entries)
    requires FreeOfTokens(text, entries)
    ensures SubstituteText(text, entries) == text
    decreases |entries|
  {
    if entries != [] {
      assert !Contains(text, Token(entries[0].0));
      assert FreeOfTokens(text, entries[1..]) by {
        forall i | 0 <= i < |entries[1..]| ensures !Contains(text, Token(entries[1..][i].0)) {
          assert entries[1..][i] == entries[i + 1];
        }
      }
      SubstituteTextWithoutTokens(text, entries[1..]);
    }
  }

  /** A map with one entry turns a text that is exactly its token into its value. */
  lemma TokenAloneBecomesValue(key: string, value: string)
    ensures SubstituteText(Token(key), [(key, value)]) == value
  {
    var t := Token(key);
    assert StartsWith(t, t);
    assert Contains(t, t);
    ReplaceAllTargetThen(t, value, []);
    assert t + [] == t;
    assert value + [] == value;
    assert [(key, value)][1..] == [];
  }

  /**
   * Substitution touches only run text: a run keeps its pictures, its font and
   * the number of its text nodes, all text nodes but the first are untouched,
   * and a run without text is unchanged.
   */
  lemma SubstituteRunTouchesOnlyFirstText(run: Run, entries: Entries)
    ensures SubstituteRun(run, entries).pictures == run.pictures
    ensures SubstituteRun(run, entries).style == run.style
    ensures |SubstituteRun(run, entries).texts| == |run.texts|
    ensures forall i :: 1 <= i < |run.texts| ==> SubstituteRun(run, entries).texts[i] == run.texts[i]
    ensures run.texts == [] ==> SubstituteRun(run, entries) == run
    ensures run.texts != [] ==> SubstituteRun(run, entries).texts[0] == SubstituteText(run.texts[0], entries)
  {
  }

  /** A run whose first text node holds no token keeps identical text. */
  lemma {:induction false} SubstituteRunWithoutTokens(run: Run, entries: Entries)
    requires run.texts != [] ==> FreeOfTokens(run.texts[0], entries)
    ensures SubstituteRun(run, entries) == run
  {
    if run.texts != [] {
      SubstituteTextWithoutTokens(run.texts[0], entries);
      assert run.texts[0 := run.texts[0]] == run.texts;
    }
  }

  /** No first text node of any run of the paragraph holds a token. */
  predicate ParagraphFreeOfTokens(p: Paragraph, entries: Entries) {
    forall j :: 0 <= j < |p.runs| && p.runs[j].texts != [] ==> FreeOfTokens(p.runs[j].texts[0], entries)
  }

  predicate RowsFreeOfTokens(rows: Rows, entries: Entries) {
    forall r, c, k :: 0 <= r < |rows| && 0 <= c < |rows[r]| && 0 <= k < |rows[r][c]| ==>
      ParagraphFreeOfTokens(rows[r][c][k], entries)
  }

  /** A paragraph already free of tokens is a fixed point of substitution. */
  lemma {:induction false} SubstituteParagraphWithoutTokens(p: Paragraph, entries: Entries)
    requires ParagraphFreeOfTokens(p, entries)
    ensures SubstituteParagraph(p, entries) == p
  {
    var out := SubstituteAllRuns(p.runs, entries);
    forall j | 0 <= j < |p.runs| ensures out[j] == p.runs[j] {
      SubstituteRunWithoutTokens(p.runs[j], entries);
    }
    assert out == p.runs;
  }

  /** A table already free of tokens is a fixed point of substitution. */
  lemma {:induction false} SubstituteRowsWithoutTokens(rows: Rows, entries: Entries)
    requires RowsFreeOfTokens(rows, entries)
    ensures SubstituteRows(rows, entries) == rows
  {
    var out := SubstituteRows(rows, entries);
    forall r | 0 <= r < |rows| ensures out[r] == rows[r] {
      forall c | 0 <= c < |rows[r]| ensures out[r][c] == rows[r][c] {
        forall k | 0 <= k < |rows[r][c]| ensures out[r][c][k] == rows[r][c][k] {
          SubstituteParagraphWithoutTokens(rows[r][c][k], entries);
        }
      }
    }
  }

  /**
   * Substitution keeps the table's structure: the same rows, cells per row,
   * paragraphs per cell, runs per paragraph and alignments, and every run is
   * visited.
   */
  lemma {:induction false} SubstituteRowsKeepsStructure(rows: Rows, entries: Entries)
    ensures SameTableShape(rows, SubstituteRows(rows, entries))
    ensures forall r, c :: HasTableCell(rows, r, c) ==>
      |SubstituteRows(rows, entries)[r][c]| == |rows[r][c]|
    ensures forall r, c, k :: HasTableCell(rows, r, c) && 0 <= k < |rows[r][c]| ==>
      SubstituteRows(rows, entries)[r][c][k].alignment == rows[r][c][k].alignment &&
      |SubstituteRows(rows, entries)[r][c][k].runs| == |rows[r][c][k].runs|
    ensures forall r, c, k, j :: HasTableCell(rows, r, c) && 0 <= k < |rows[r][c]| && 0 <= j < |rows[r][c][k].runs| ==>
      SubstituteRows(rows, entries)[r][c][k].runs[j] == SubstituteRun(rows[r][c][k].runs[j], entries)
  {
  }

  /**
   * The loop over one paragraph's runs: each run's first text node is read,
   * rewritten entry by entry, and written back.
   */
  method SubstituteRuns(runs: seq<Run>, entries: Entries) returns (out: seq<Run>)
    ensures |out| == |runs|
    ensures forall i :: 0 <= i < |runs| ==> out[i] == SubstituteRun(runs[i], entries)
  {
    out := runs;
    var i := 0;
    while i < |out|
      invariant 0 <= i <= |out| == |runs|
      invariant forall j :: 0 <= j < i ==> out[j] == SubstituteRun(runs[j], entries)
      invariant forall j :: i <= j < |out| ==> out[j] == runs[j]
    {
      var run := out[i];
      if run.texts != [] {
        var text := run.texts[0];
        var k := 0;
        while k < |entries|
          invariant 0 <= k <= |entries|
          invariant SubstituteText(text, entries[k..]) == SubstituteText(run.texts[0], entries)
        {
          var token := Token(entries[k].0);
          assert entries[k..][1..] == entries[k + 1..];
          if Contains(text, token) {
            text := ReplaceAll(text, token, entries[k].1);
          }
          k := k + 1;
        }
        out := out[i := run.(texts := run.texts[0 := text])];
      }
      i := i + 1;
    }
  }

  /** The loop over a table cell's paragraphs, each paragraph's runs rewritten. */
  method SubstituteCellParagraphs(cell: CellBody, entries: Entries) returns (out: CellBody)
    ensures out == SubstituteCell(cell, entries)
  {
    out := cell;
    var k := 0;
    while k < |out|
      invariant 0 <= k <= |out| == |cell|
      invariant forall j :: 0 <= j < k ==> out[j] == SubstituteParagraph(cell[j], entries)
      invariant forall j :: k <= j < |out| ==> out[j] == cell[j]
    {
      var runs := SubstituteRuns(out[k].runs, entries);
      assert runs == SubstituteAllRuns(cell[k].runs, entries);
      out := out[k := out[k].(runs := runs)];
      k := k + 1;
    }
    assert out == SubstituteCell(cell, entries);
  }
}
