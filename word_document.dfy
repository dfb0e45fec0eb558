/**
 * The report document: its body is a sequence of top-level elements, each a
 * paragraph, a table, or some other element (a section break, say). Tables
 * are objects shared with the document's table list, so identity matters
 * where setTableTitle looks a table up; paragraphs are values held in the
 * body.
 */
module WordDocuments {
  import opened Wrappers
  import opened JavaText
  import opened DocModel
  import opened Placeholders
  import opened ReportText
  import opened ReportTables

  datatype Block = Para(p: Paragraph) | Tbl(table: TemplateTable) | Other(tag: nat)

  /** doc.getTables(): the top-level tables in body order. */
  function Tables(body: seq<Block>): (ts: seq<TemplateTable>)
    decreases |body|
  {
    if body == [] then []
    else
      var front := body[..|body| - 1];
      Tables(front) + (if body[|body| - 1].Tbl? then [body[|body| - 1].table] else [])
  }

  /** The positions of doc.getParagraphs(): the top-level paragraphs in body order. */
  function ParagraphPositions(body: seq<Block>): (ps: seq<nat>)
    ensures forall k :: 0 <= k < |ps| ==> ps[k] < |body| && body[ps[k]].Para?
    decreases |body|
  {
    if body == [] then []
    else
      var front := ParagraphPositions(body[..|body| - 1]);
      assert forall k :: 0 <= k < |front| ==> body[front[k]] == body[..|body| - 1][front[k]];
      if body[|body| - 1].Para? then front + [|body| - 1] else front
  }

  /** The positions are listed in body order, and every top-level paragraph is listed. */
  lemma {:induction false} ParagraphPositionsInOrder(body: seq<Block>)
    ensures var ps := ParagraphPositions(body);
      (forall k, l :: 0 <= k < l < |ps| ==> ps[k] < ps[l]) &&
      (forall j :: 0 <= j < |body| && body[j].Para? ==> j in ps)
    decreases |body|
  {
    if body != [] {
      var front := body[..|body| - 1];
      ParagraphPositionsInOrder(front);
      var fs := ParagraphPositions(front);
      forall j | 0 <= j < |body| - 1 && body[j].Para? ensures j in fs {
        assert front[j] == body[j];
      }
    }
  }

  /** No table object appears twice in the body. */
  predicate DistinctTables(body: seq<Block>) {
    forall i, j :: 0 <= i < j < |body| && body[i].Tbl? && body[j].Tbl? ==> body[i].table != body[j].table
  }

  /** Tables of a concatenation. */
  lemma {:induction false} TablesConcat(a: seq<Block>, b: seq<Block>)
    ensures Tables(a + b) == Tables(a) + Tables(b)
    decreases |b|
  {
    if b == [] {
      assert a + b == a;
    } else {
      var front := b[..|b| - 1];
      assert (a + b)[..|a + b| - 1] == a + front;
      TablesConcat(a, front);
    }
  }

  /** Every listed table stands in the body. */
  lemma {:induction false} TablesInBody(body: seq<Block>)
    ensures forall k :: 0 <= k < |Tables(body)| ==> Tbl(Tables(body)[k]) in body
    decreases |body|
  {
    if body != [] {
      var front := body[..|body| - 1];
      TablesInBody(front);
      assert forall b :: b in front ==> b in body;
    }
  }

  /** With no table object twice in the body, the table list holds no object twice. */
  lemma {:induction false} DistinctTableList(body: seq<Block>)
    requires DistinctTables(body)
    ensures forall k, l :: 0 <= k < l < |Tables(body)| ==> Tables(body)[k] != Tables(body)[l]
    decreases |body|
  {
    if body != [] {
      var front := body[..|body| - 1];
      assert DistinctTables(front) by {
        forall i, j | 0 <= i < j < |front| && front[i].Tbl? && front[j].Tbl?
          ensures front[i].table != front[j].table
        {
          assert front[i] == body[i] && front[j] == body[j];
        }
      }
      DistinctTableList(front);
      TablesInBody(front);
      var n := |Tables(front)|;
      forall k | 0 <= k < n && body[|body| - 1].Tbl? ensures Tables(front)[k] != body[|body| - 1].table {
        var j :| 0 <= j < |front| && front[j] == Tbl(Tables(front)[k]);
        assert body[j] == front[j];
      }
    }
  }

  // ---------------------------------------------------------------------
  // replacePlaceholders
  // ---------------------------------------------------------------------

  /** A top-level element after substitution: paragraphs rewritten, anything else kept. */
  function SubstituteBlock(b: Block, entries: Entries): Block {
    if b.Para? then Para(SubstituteParagraph(b.p, entries)) else b
  }

  function SubstituteBody(body: seq<Block>, entries: Entries): (out: seq<Block>)
    ensures |out| == |body|
  {
    seq(|body|, j requires 0 <= j < |body| => SubstituteBlock(body[j], entries))
  }

  /** Substitution rewrites paragraphs in place: the table list stays as it was. */
  lemma {:induction false} SubstituteBodyKeepsTables(body: seq<Block>, entries: Entries)
    ensures Tables(SubstituteBody(body, entries)) == Tables(body)
    decreases |body|
  {
    if body != [] {
      var out := SubstituteBody(body, entries);
      var front := body[..|body| - 1];
      assert out[..|out| - 1] == SubstituteBody(front, entries);
      SubstituteBodyKeepsTables(front, entries);
    }
  }

  /** A body already free of tokens is a fixed point of substitution. */
  lemma SubstituteBodyWithoutTokens(body: seq<Block>, entries: Entries)
    requires forall j :: 0 <= j < |body| && body[j].Para? ==> ParagraphFreeOfTokens(body[j].p, entries)
    ensures SubstituteBody(body, entries) == body
  {
    var out := SubstituteBody(body, entries);
    forall j | 0 <= j < |body| ensures out[j] == body[j] {
      if body[j].Para? {
        SubstituteParagraphWithoutTokens(body[j].p, entries);
      }
    }
  }

  // ---------------------------------------------------------------------
  // setTableTitle
  // ---------------------------------------------------------------------

  /** The first body position holding this very table object, or |body|. */
  function TableIndex(body: seq<Block>, table: TemplateTable): (n: nat)
    ensures n <= |body|
    ensures n < |body| ==> body[n] == Tbl(table)
    ensures forall j :: 0 <= j < n ==> body[j] != Tbl(table)
    decreases |body|
  {
    if body == [] then 0
    else if body[0] == Tbl(table) then 0
    else 1 + TableIndex(body[1..], table)
  }

  /** The paragraph insertNewParagraph puts before a table, holding one title run. */
  function TitleParagraph(title: string): Paragraph {
    Paragraph(NoAlignment, [TextRun(title, TITLE_FAMILY, TITLE_POINTS)])
  }

  /**
   * The body after setTableTitle: the paragraph right before the table is
   * retitled, or a title paragraph is inserted there when the table comes
   * first or follows something else; a table not in the body changes nothing.
   */
  function TitledBody(body: seq<Block>, table: TemplateTable, title: string): seq<Block> {
    var i := TableIndex(body, table);
    if i == |body| then body
    else if i > 0 && body[i - 1].Para? then body[i - 1 := Para(Retitled(body[i - 1].p, title))]
    else body[..i] + [Para(TitleParagraph(title))] + body[i..]
  }

  /** After setTableTitle, the table is preceded by a paragraph holding exactly the title, in SimSun 12. */
  lemma TitlePrecedesTable(body: seq<Block>, table: TemplateTable, title: string)
    requires TableIndex(body, table) < |body|
    ensures var out := TitledBody(body, table, title);
      var n := TableIndex(out, table);
      1 <= n < |out| && out[n - 1].Para? &&
      out[n - 1].p.runs == [TextRun(title, TITLE_FAMILY, TITLE_POINTS)] && ParagraphText(out[n - 1].p) == title
  {
    var i := TableIndex(body, table);
    var out := TitledBody(body, table, title);
    if i > 0 && body[i - 1].Para? {
      TableIndexAt(out, table, i);
    } else {
      assert out[i] == Para(TitleParagraph(title));
      TableIndexAt(out, table, i + 1);
      assert ParagraphText(TitleParagraph(title)) == ParagraphText(Retitled(TitleParagraph(title), title));
    }
  }

  /** A position holding the table, with no earlier one, is TableIndex. */
  lemma {:induction false} TableIndexAt(body: seq<Block>, table: TemplateTable, i: nat)
    requires i < |body| && body[i] == Tbl(table)
    requires forall j :: 0 <= j < i ==> body[j] != Tbl(table)
    ensures TableIndex(body, table) == i
    decreases i
  {
    if i > 0 {
      assert body[0] != Tbl(table);
      forall j | 0 <= j < i - 1 ensures body[1..][j] != Tbl(table) {
        assert body[1..][j] == body[j + 1];
      }
      TableIndexAt(body[1..], table, i - 1);
    }
  }

  /** Titling a table again with the same title changes nothing more. */
  lemma TitleIdempotent(body: seq<Block>, table: TemplateTable, title: string)
    ensures TitledBody(TitledBody(body, table, title), table, title) == TitledBody(body, table, title)
  {
    var i := TableIndex(body, table);
    var out := TitledBody(body, table, title);
    if i < |body| {
      if i > 0 && body[i - 1].Para? {
        TableIndexAt(out, table, i);
      } else {
        assert out[i] == Para(TitleParagraph(title));
        TableIndexAt(out, table, i + 1);
        assert Retitled(TitleParagraph(title), title) == TitleParagraph(title);
        assert out[i := Para(TitleParagraph(title))] == out;
      }
    }
  }

  /** A paragraph between two stretches of the body adds no table. */
  lemma TablesAroundParagraph(a: seq<Block>, q: Block, b: seq<Block>)
    requires q.Para?
    ensures Tables(a + [q] + b) == Tables(a) + Tables(b)
  {
    TablesConcat(a + [q], b);
    TablesConcat(a, [q]);
    NoTableInParagraph(q);
  }

  lemma NoTableInParagraph(q: Block)
    requires q.Para?
    ensures Tables([q]) == []
  {
    assert [q][..0] == [];
  }

  /** Exchanging one paragraph for another keeps the table list. */
  lemma ParagraphSwapKeepsTables(front: seq<Block>, x: Block, y: Block, tail: seq<Block>)
    requires x.Para? && y.Para?
    ensures Tables(front + [x] + tail) == Tables(front + [y] + tail)
  {
    TablesAroundParagraph(front, x, tail);
    TablesAroundParagraph(front, y, tail);
  }

  lemma UpdateAsConcat(s: seq<Block>, i: nat, x: Block)
    requires i < |s|
    ensures s[i := x] == s[..i] + [x] + s[i + 1..]
    ensures s == s[..i] + [s[i]] + s[i + 1..]
  {
  }

  /** Rewriting a paragraph as another paragraph keeps the table list. */
  lemma ParagraphUpdateKeepsTables(s: seq<Block>, i: nat, x: Block)
    requires i < |s| && s[i].Para? && x.Para?
    ensures Tables(s[i := x]) == Tables(s)
  {
    UpdateAsConcat(s, i, x);
    ParagraphSwapKeepsTables(s[..i], s[i], x, s[i + 1..]);
  }

  /** A title never adds or removes a table. */
  lemma TitleKeepsTables(body: seq<Block>, table: TemplateTable, title: string)
    ensures Tables(TitledBody(body, table, title)) == Tables(body)
  {
    var i := TableIndex(body, table);
    if i < |body| {
      if i > 0 && body[i - 1].Para? {
        var q := Para(Retitled(body[i - 1].p, title));
        UpdateAsConcat(body, i - 1, q);
        ParagraphSwapKeepsTables(body[..i - 1], body[i - 1], q, body[i..]);
      } else {
        assert body == body[..i] + body[i..];
        TablesConcat(body[..i], body[i..]);
        TablesAroundParagraph(body[..i], Para(TitleParagraph(title)), body[i..]);
      }
    }
  }

  // ---------------------------------------------------------------------
  // insertImageAndModifyCaption
  // ---------------------------------------------------------------------

  /** The first of the top-level paragraphs whose text contains the placeholder, or |ps|. */
  function MatchIndex(body: seq<Block>, ps: seq<nat>, placeholder: string): (k: nat)
    requires forall k :: 0 <= k < |ps| ==> ps[k] < |body| && body[ps[k]].Para?
    ensures k <= |ps|
    ensures k < |ps| ==> Contains(ParagraphText(body[ps[k]].p), placeholder)
    ensures forall l :: 0 <= l < k ==> !Contains(ParagraphText(body[ps[l]].p), placeholder)
    decreases |ps|
  {
    if ps == [] then 0
    else if Contains(ParagraphText(body[ps[0]].p), placeholder) then 0
    else 1 + MatchIndex(body, ps[1..], placeholder)
  }

  /** The placeholder paragraph after its runs are removed and one picture run is added. */
  function PictureParagraph(p: Paragraph, picture: Picture): Paragraph {
    p.(runs := [Run([], [picture], NoFont)])
  }

  /** The caption paragraph after its runs are replaced by the rewritten caption in the title font. */
  function CaptionParagraph(p: Paragraph, position: string): Paragraph {
    Retitled(p, CaptionWithPosition(ParagraphText(p), position))
  }

  /**
   * The body after insertImageAndModifyCaption: the first top-level
   * paragraph containing the placeholder holds only the picture, and the next
   * top-level paragraph, if there is one, becomes the rewritten caption.
   */
  function ImagedBody(body: seq<Block>, placeholder: string, picture: Picture, position: string): (out: seq<Block>)
    ensures |out| == |body|
  {
    var ps := ParagraphPositions(body);
    var k := MatchIndex(body, ps, placeholder);
    if k == |ps| then body
    else
      var withPicture := body[ps[k] := Para(PictureParagraph(body[ps[k]].p, picture))];
      if k + 1 < |ps| then withPicture[ps[k + 1] := Para(CaptionParagraph(body[ps[k + 1]].p, position))]
      else withPicture
  }

  /** Without a paragraph containing the placeholder, nothing changes. */
  lemma ImageWithoutMatch(body: seq<Block>, placeholder: string, picture: Picture, position: string)
    requires forall j :: 0 <= j < |body| && body[j].Para? ==> !Contains(ParagraphText(body[j].p), placeholder)
    ensures ImagedBody(body, placeholder, picture, position) == body
  {
  }

  /**
   * Only the first paragraph with the placeholder and the top-level
   * paragraph after it change.
   */
  lemma ImageFrame(body: seq<Block>, placeholder: string, picture: Picture, position: string, j: nat)
    requires j < |body|
    ensures var ps := ParagraphPositions(body);
      var k := MatchIndex(body, ps, placeholder);
      (k == |ps| || j != ps[k]) && (k + 1 >= |ps| || j != ps[k + 1]) ==>
        ImagedBody(body, placeholder, picture, position)[j] == body[j]
  {
  }

  /**
   * The first paragraph with the placeholder keeps its alignment and holds
   * the picture and no text.
   */
  lemma ImageReplacesPlaceholder(body: seq<Block>, placeholder: string, picture: Picture, position: string)
    requires MatchIndex(body, ParagraphPositions(body), placeholder) < |ParagraphPositions(body)|
    ensures var ps := ParagraphPositions(body);
      var k := MatchIndex(body, ps, placeholder);
      var out := ImagedBody(body, placeholder, picture, position);
      out[ps[k]].Para? && out[ps[k]].p.alignment == body[ps[k]].p.alignment &&
      out[ps[k]].p.runs == [Run([], [picture], NoFont)] && ParagraphText(out[ps[k]].p) == ""
  {
    var ps := ParagraphPositions(body);
    var k := MatchIndex(body, ps, placeholder);
    ParagraphPositionsInOrder(body);
    var q := PictureParagraph(body[ps[k]].p, picture);
    var withPicture := body[ps[k] := Para(q)];
    assert ImagedBody(body, placeholder, picture, position)[ps[k]] == withPicture[ps[k]] by {
      if k + 1 < |ps| {
        assert ps[k] < ps[k + 1];
      }
    }
    assert ParagraphText(q) == RunText(q.runs[0]) + ParagraphText(Paragraph(q.alignment, []));
  }

  /**
   * The paragraph after it, if any, is the next top-level paragraph (only
   * tables or other elements lie between) and holds the caption with the
   * location spliced in, in the title font.
   */
  lemma ImageRewritesCaption(body: seq<Block>, placeholder: string, picture: Picture, position: string)
    requires MatchIndex(body, ParagraphPositions(body), placeholder) + 1 < |ParagraphPositions(body)|
    ensures var ps := ParagraphPositions(body);
      var k := MatchIndex(body, ps, placeholder);
      var out := ImagedBody(body, placeholder, picture, position);
      var caption := CaptionWithPosition(ParagraphText(body[ps[k + 1]].p), position);
      out[ps[k + 1]].Para? && out[ps[k + 1]].p.runs == [TextRun(caption, TITLE_FAMILY, TITLE_POINTS)] &&
      ParagraphText(out[ps[k + 1]].p) == caption &&
      forall j :: ps[k] < j < ps[k + 1] ==> !body[j].Para?
  {
    var ps := ParagraphPositions(body);
    var k := MatchIndex(body, ps, placeholder);
    NextParagraph(body, ps, k);
  }

  /** Consecutive entries of the paragraph positions have no paragraph between them. */
  lemma NextParagraph(body: seq<Block>, ps: seq<nat>, k: nat)
    requires ps == ParagraphPositions(body) && k + 1 < |ps|
    ensures forall j :: ps[k] < j < ps[k + 1] ==> !body[j].Para?
  {
    ParagraphPositionsInOrder(body);
    forall j | ps[k] < j < ps[k + 1] ensures j !in ps {
      GapHoldsNoPosition(ps, k, j);
    }
  }

  /** Between two consecutive entries of an increasing sequence no entry lies. */
  lemma GapHoldsNoPosition(ps: seq<nat>, k: nat, j: nat)
    requires forall a, b :: 0 <= a < b < |ps| ==> ps[a] < ps[b]
    requires k + 1 < |ps| && ps[k] < j < ps[k + 1]
    ensures j !in ps
  {
    forall m | 0 <= m < |ps| ensures ps[m] != j {
      if m < k {
        assert ps[m] < ps[k];
      } else if m > k + 1 {
        assert ps[k + 1] < ps[m];
      }
    }
  }

  // ---------------------------------------------------------------------
  // The document object
  // ---------------------------------------------------------------------

  /** XWPFDocument: the body elements the engine reads and rewrites. */
  class WordDocument {
    var body: seq<Block>

    constructor (initial: seq<Block>)
      ensures body == initial
    {
      body := initial;
    }

    /**
     * replacePlaceholders: first every run of every top-level paragraph,
     * then every run of every cell paragraph of every top-level table. The
     * document library never lists one table twice.
     */
    method ReplacePlaceholders(entries: Entries, ghost tables: seq<TemplateTable>)
      requires tables == Tables(body) && DistinctTables(body)
      modifies this, set t | t in tables
      ensures body == SubstituteBody(old(body), entries)
      ensures Tables(body) == tables
      ensures forall k :: 0 <= k < |tables| ==> tables[k].rows == SubstituteRows(old(tables[k].rows), entries)
    {
      SubstituteParagraphs(entries);
      SubstituteBodyKeepsTables(old(body), entries);
      DistinctTableList(old(body));
      SubstituteTables(Tables(body), entries);
    }

    /** The paragraph half of replacePlaceholders: the runs of every top-level paragraph. */
    method SubstituteParagraphs(entries: Entries)
      modifies this
      ensures body == SubstituteBody(old(body), entries)
    {
      ghost var before := body;
      var j := 0;
      while j < |body|
        invariant 0 <= j <= |body| == |before|
        invariant forall i :: 0 <= i < j ==> body[i] == SubstituteBlock(before[i], entries)
        invariant forall i :: j <= i < |body| ==> body[i] == before[i]
      {
        if body[j].Para? {
          var runs := SubstituteRuns(body[j].p.runs, entries);
          assert runs == SubstituteAllRuns(before[j].p.runs, entries);
          body := body[j := Para(body[j].p.(runs := runs))];
        }
        j := j + 1;
      }
      assert body == SubstituteBody(before, entries);
    }

    /**
     * setTableTitle: find the body element that is this very table; retitle
     * the paragraph before it, or insert a title paragraph before it.
     */
    method SetTableTitle(table: TemplateTable, title: string)
      modifies this
      ensures body == TitledBody(old(body), table, title)
    {
      var i := 0;
      while i < |body|
        invariant 0 <= i <= |body|
        invariant forall j :: 0 <= j < i ==> body[j] != Tbl(table)
      {
        if body[i].Tbl? && body[i].table == table {
          TableIndexAt(body, table, i);
          if i > 0 && body[i - 1].Para? {
            body := body[i - 1 := Para(Retitled(body[i - 1].p, title))];
          } else {
            body := body[..i] + [Para(TitleParagraph(title))] + body[i..];
          }
          break;
        }
        i := i + 1;
      }
    }

    /**
     * insertImageAndModifyCaption: over the top-level paragraphs, the first
     * whose text contains the placeholder gets the picture and the next one
     * the rewritten caption; then it returns.
     */
    method InsertImageAndModifyCaption(placeholder: string, picture: Picture, position: string)
      modifies this
      ensures body == ImagedBody(old(body), placeholder, picture, position)
    {
      var paragraphs := ParagraphPositions(body);
      var i := 0;
      while i < |paragraphs|
        invariant 0 <= i <= |paragraphs| && body == old(body)
        invariant forall l :: 0 <= l < i ==> !Contains(ParagraphText(body[paragraphs[l]].p), placeholder)
      {
        var para := body[paragraphs[i]].p;
        if Contains(ParagraphText(para), placeholder) {
          ImageAtMatch(body, paragraphs, i, placeholder, picture, position);
          body := body[paragraphs[i] := Para(PictureParagraph(para, picture))];
          if i + 1 < |paragraphs| {
            var captionPara := body[paragraphs[i + 1]].p;
            body := body[paragraphs[i + 1] := Para(CaptionParagraph(captionPara, position))];
          }
          return;
        }
        i := i + 1;
      }
      MatchIndexAt(body, paragraphs, placeholder, i);
    }
  }

  /** Inserting an image rewrites paragraphs only: the table list stays as it was. */
  lemma ImageKeepsTables(body: seq<Block>, placeholder: string, picture: Picture, position: string)
    ensures Tables(ImagedBody(body, placeholder, picture, position)) == Tables(body)
  {
    var ps := ParagraphPositions(body);
    var k := MatchIndex(body, ps, placeholder);
    if k < |ps| {
      var withPicture := body[ps[k] := Para(PictureParagraph(body[ps[k]].p, picture))];
      ParagraphUpdateKeepsTables(body, ps[k], Para(PictureParagraph(body[ps[k]].p, picture)));
      if k + 1 < |ps| {
        ParagraphUpdateKeepsTables(withPicture, ps[k + 1], Para(CaptionParagraph(body[ps[k + 1]].p, position)));
      }
    }
  }

  /** ImagedBody once the matching paragraph is known: one or two updates of the body. */
  lemma ImageAtMatch(body: seq<Block>, ps: seq<nat>, i: nat, placeholder: string, picture: Picture, position: string)
    requires ps == ParagraphPositions(body) && i < |ps|
    requires Contains(ParagraphText(body[ps[i]].p), placeholder)
    requires forall l :: 0 <= l < i ==> !Contains(ParagraphText(body[ps[l]].p), placeholder)
    ensures i + 1 < |ps| ==> ps[i] < ps[i + 1]
    ensures var withPicture := body[ps[i] := Para(PictureParagraph(body[ps[i]].p, picture))];
      ImagedBody(body, placeholder, picture, position) ==
        if i + 1 < |ps| then withPicture[ps[i + 1] := Para(CaptionParagraph(body[ps[i + 1]].p, position))]
        else withPicture
  {
    MatchIndexAt(body, ps, placeholder, i);
    ParagraphPositionsInOrder(body);
  }

  /** The first position whose paragraph contains the placeholder, or the end, is MatchIndex. */
  lemma {:induction false} MatchIndexAt(body: seq<Block>, ps: seq<nat>, placeholder: string, i: nat)
    requires forall k :: 0 <= k < |ps| ==> ps[k] < |body| && body[ps[k]].Para?
    requires i <= |ps|
    requires i < |ps| ==> Contains(ParagraphText(body[ps[i]].p), placeholder)
    requires forall l :: 0 <= l < i ==> !Contains(ParagraphText(body[ps[l]].p), placeholder)
    ensures MatchIndex(body, ps, placeholder) == i
    decreases i
  {
    if i > 0 {
      forall l | 0 <= l < i - 1 ensures !Contains(ParagraphText(body[ps[1..][l]].p), placeholder) {
        assert ps[1..][l] == ps[l + 1];
      }
      MatchIndexAt(body, ps[1..], placeholder, i - 1);
    }
  }

  /** The table half of replacePlaceholders: each listed table in turn. */
  method SubstituteTables(tables: seq<TemplateTable>, entries: Entries)
    requires forall k, l :: 0 <= k < l < |tables| ==> tables[k] != tables[l]
    modifies set t | t in tables
    ensures forall k :: 0 <= k < |tables| ==> tables[k].rows == SubstituteRows(old(tables[k].rows), entries)
  {
    var k := 0;
    while k < |tables|
      invariant 0 <= k <= |tables|
      invariant forall l :: 0 <= l < k ==> tables[l].rows == SubstituteRows(old(tables[l].rows), entries)
      invariant forall l :: k <= l < |tables| ==> tables[l].rows == old(tables[l].rows)
    {
      tables[k].SubstitutePlaceholders(entries);
      k := k + 1;
    }
  }
}
