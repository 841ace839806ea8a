/**
 * The submissions report (`pdf_from_submissions`): a title, the total line,
 * and a four-column bordered table with one header row and one row per
 * display row, in input order.
 */
module SubmissionsPdf {
  import opened Text
  import opened Records
  import opened Layout
  import opened Frames

  const Columns: seq<string> := ["NRIC", "Customer Name", "Nationality", "Submitted On"]
  const Widths: seq<nat> := [40, 60, 50, 40]

  /** `f"Total Submissions: {len(df)}"`. */
  function TotalLine(n: nat): string {
    "Total Submissions: " + NatToDecimal(n)
  }

  /** Title, total line and the bold table font, before the table itself. */
  function PreambleOps(n: nat): seq<Op> {
    [ AddPageOp,
      SetFontOp(Font, "B", 16),
      CellOp(0, 10, " KYC ", false, 1, AlignCenter),
      LnOp(5),
      SetFontOp(Font, "", 12),
      CellOp(0, 8, TotalLine(n), false, 1, AlignLeft),
      LnOp(5),
      SetFontOp(Font, "B", 10) ]
  }

  function HeaderCell(j: nat): Op
    requires j < 4
  {
    CellOp(Widths[j], 8, Columns[j], true, 0, AlignLeft)
  }

  function HeaderCells(k: nat): seq<Op>
    requires k <= 4
  {
    if k == 0 then [] else HeaderCells(k - 1) + [HeaderCell(k - 1)]
  }

  /** The header row, its line break, and the regular table font. */
  function HeaderOps(): seq<Op> {
    HeaderCells(4) + [LnOp(8), SetFontOp(Font, "", 10)]
  }

  /** The four cell texts of a table row; the date is rendered `YYYY-MM-DD`. */
  function RowTexts(r: DisplayRow): seq<string> {
    [r.nric, r.customerName, r.nationality, FormatDate(r.submittedOn.date)]
  }

  /** Four bordered cells holding `texts`, in the column widths, then a line break. */
  function RowCells(texts: seq<string>): seq<Op>
    requires |texts| == 4
  {
    [ CellOp(Widths[0], 6, texts[0], true, 0, AlignLeft),
      CellOp(Widths[1], 6, texts[1], true, 0, AlignLeft),
      CellOp(Widths[2], 6, texts[2], true, 0, AlignLeft),
      CellOp(Widths[3], 6, texts[3], true, 0, AlignLeft),
      LnOp(6) ]
  }

  function RowOps(r: DisplayRow): seq<Op> {
    RowCells(RowTexts(r))
  }

  function RowsOps(rows: seq<DisplayRow>): seq<Op> {
    if rows == [] then [] else RowsOps(rows[..|rows| - 1]) + RowOps(rows[|rows| - 1])
  }

  /** The whole operation sequence of the submissions report. */
  function SubmissionsReportOps(rows: seq<DisplayRow>): seq<Op> {
    PreambleOps(|rows|) + HeaderOps() + RowsOps(rows)
  }

  /** Lays out the report for `rows` on a fresh document and returns what was laid out. */
  method PdfFromSubmissions(rows: seq<DisplayRow>) returns (doc: seq<Op>)
    ensures doc == SubmissionsReportOps(rows)
  {
    // This report never calls multi_cell, so the overflow outcome is never consulted.
    var pdf := new Pdf(n => false);
    EmitPreamble(pdf, |rows|);
    assert pdf.ops == PreambleOps(|rows|);
    EmitHeader(pdf);
    EmitRows(pdf, rows);
    doc := pdf.ops;
  }

  /** The bold header row of four bordered cells, then the regular table font. */
  method EmitHeader(pdf: Pdf)
    modifies pdf
    ensures pdf.ops == old(pdf.ops) + HeaderOps() && pdf.attempts == old(pdf.attempts)
  {
    ghost var ops0 := pdf.ops;
    for j := 0 to 4
      invariant pdf.ops == ops0 + HeaderCells(j) && pdf.attempts == old(pdf.attempts)
    {
      pdf.Cell(Widths[j], 8, Columns[j], true, 0, AlignLeft);
    }
    pdf.Ln(8);
    pdf.SetFont(Font, "", 10);
    AppendAssoc(ops0 + HeaderCells(4), [LnOp(8)], [SetFontOp(Font, "", 10)]);
    AppendAssoc(ops0, HeaderCells(4), [LnOp(8), SetFontOp(Font, "", 10)]);
  }

  /** One table row per display row, in order. */
  method EmitRows(pdf: Pdf, rows: seq<DisplayRow>)
    modifies pdf
    ensures pdf.ops == old(pdf.ops) + RowsOps(rows) && pdf.attempts == old(pdf.attempts)
  {
    ghost var ops0 := pdf.ops;
    for i := 0 to |rows|
      invariant pdf.ops == ops0 + RowsOps(rows[..i]) && pdf.attempts == old(pdf.attempts)
    {
      EmitRow(pdf, rows[i]);
      assert rows[..i + 1][..i] == rows[..i];
      AppendAssoc(ops0, RowsOps(rows[..i]), RowOps(rows[i]));
    }
    assert rows[..|rows|] == rows;
  }

  method EmitPreamble(pdf: Pdf, n: nat)
    modifies pdf
    ensures pdf.ops == old(pdf.ops) + PreambleOps(n) && pdf.attempts == old(pdf.attempts)
  {
    pdf.AddPage();
    pdf.SetFont(Font, "B", 16);
    pdf.Cell(0, 10, " KYC ", false, 1, AlignCenter);
    pdf.Ln(5);
    pdf.SetFont(Font, "", 12);
    pdf.Cell(0, 8, TotalLine(n), false, 1, AlignLeft);
    pdf.Ln(5);
    pdf.SetFont(Font, "B", 10);
  }

  /** One table row: four bordered cells, then a line break. */
  method EmitRow(pdf: Pdf, row: DisplayRow)
    modifies pdf
    ensures pdf.ops == old(pdf.ops) + RowOps(row) && pdf.attempts == old(pdf.attempts)
  {
    EmitCells(pdf, [row.nric, row.customerName, row.nationality, FormatDate(row.submittedOn.date)]);
  }

  method EmitCells(pdf: Pdf, texts: seq<string>)
    requires |texts| == 4
    modifies pdf
    ensures pdf.ops == old(pdf.ops) + RowCells(texts) && pdf.attempts == old(pdf.attempts)
  {
    pdf.Cell(Widths[0], 6, texts[0], true, 0, AlignLeft);
    pdf.Cell(Widths[1], 6, texts[1], true, 0, AlignLeft);
    pdf.Cell(Widths[2], 6, texts[2], true, 0, AlignLeft);
    pdf.Cell(Widths[3], 6, texts[3], true, 0, AlignLeft);
    pdf.Ln(6);
  }

  lemma {:induction false} RowsOpsLength(rows: seq<DisplayRow>)
    ensures |RowsOps(rows)| == 5 * |rows|
    decreases |rows|
  {
    if rows != [] {
      RowsOpsLength(rows[..|rows| - 1]);
    }
  }

  lemma {:induction false} RowsOpsAt(rows: seq<DisplayRow>, i: nat, j: nat)
    requires i < |rows| && j < 5
    ensures |RowsOps(rows)| == 5 * |rows|
    ensures RowsOps(rows)[5 * i + j] == RowOps(rows[i])[j]
    decreases |rows|
  {
    RowsOpsLength(rows);
    var init, last := rows[..|rows| - 1], rows[|rows| - 1];
    RowsOpsLength(init);
    var done, row := RowsOps(init), RowOps(last);
    assert RowsOps(rows) == done + row;
    if i < |init| {
      RowsOpsAt(init, i, j);
      assert init[i] == rows[i];
      assert (done + row)[5 * i + j] == done[5 * i + j];
    } else {
      assert i == |init| && rows[i] == last;
      assert 5 * i + j == |done| + j;
      assert (done + row)[|done| + j] == row[j];
    }
  }

  lemma HeaderCellsAt(k: nat, j: nat)
    requires j < k <= 4
    ensures |HeaderCells(k)| == k && HeaderCells(k)[j] == HeaderCell(j)
  {
    if j < k - 1 { HeaderCellsAt(k - 1, j); }
  }

  lemma ReportSplits(rows: seq<DisplayRow>)
    ensures |PreambleOps(|rows|) + HeaderOps()| == 14
    ensures |SubmissionsReportOps(rows)| == 14 + 5 * |rows|
    ensures SubmissionsReportOps(rows)[14..] == RowsOps(rows)
  {
    HeaderCellsAt(4, 0);
    RowsOpsLength(rows);
  }

  /** The five operations that lay out table row `i` of a submissions report. */
  function TableRow(doc: seq<Op>, i: nat): seq<Op>
    requires 14 + 5 * i + 5 <= |doc|
  {
    doc[14 + 5 * i..14 + 5 * i + 5]
  }

  /**
   * The report is a 14-operation preamble and header (the total line sixth,
   * the four bordered header cells with widths 40, 60, 50, 40 from the ninth),
   * then exactly five operations per input row, in input order: the four
   * bordered cells of `RowOps` holding the identifier, name, nationality and
   * date, and a line break.
   */
  lemma SubmissionsTable(rows: seq<DisplayRow>, doc: seq<Op>)
    requires doc == SubmissionsReportOps(rows)
    ensures |doc| == 14 + 5 * |rows|
    ensures doc[5] == CellOp(0, 8, TotalLine(|rows|), false, 1, AlignLeft)
    ensures forall j :: 0 <= j < 4 ==> doc[8 + j] == CellOp(Widths[j], 8, Columns[j], true, 0, AlignLeft)
    ensures forall i :: 0 <= i < |rows| ==> TableRow(doc, i) == RowOps(rows[i])
  {
    ReportSplits(rows);
    assert doc[5] == PreambleOps(|rows|)[5];
    forall j | 0 <= j < 4 ensures doc[8 + j] == CellOp(Widths[j], 8, Columns[j], true, 0, AlignLeft) {
      HeaderCellAt(rows, j);
    }
    forall i | 0 <= i < |rows| ensures TableRow(doc, i) == RowOps(rows[i]) {
      TableRowAt(rows, i);
    }
  }

  lemma TableRowAt(rows: seq<DisplayRow>, i: nat)
    requires i < |rows|
    ensures 14 + 5 * i + 5 <= |SubmissionsReportOps(rows)|
    ensures TableRow(SubmissionsReportOps(rows), i) == RowOps(rows[i])
  {
    var doc := SubmissionsReportOps(rows);
    ReportSplits(rows);
    forall j | 0 <= j < 5 ensures TableRow(doc, i)[j] == RowOps(rows[i])[j] {
      TableOpAt(rows, i, j);
    }
  }

  lemma HeaderCellAt(rows: seq<DisplayRow>, j: nat)
    requires j < 4
    ensures 8 + j < |SubmissionsReportOps(rows)|
    ensures SubmissionsReportOps(rows)[8 + j] == CellOp(Widths[j], 8, Columns[j], true, 0, AlignLeft)
  {
    HeaderCellsAt(4, j);
    var pre, cells := PreambleOps(|rows|), HeaderCells(4);
    var rest := [LnOp(8), SetFontOp(Font, "", 10)] + RowsOps(rows);
    assert |pre| == 8;
    assert SubmissionsReportOps(rows) == pre + cells + rest by {
      AppendAssoc(pre + cells, [LnOp(8), SetFontOp(Font, "", 10)], RowsOps(rows));
    }
    assert (pre + cells + rest)[8 + j] == cells[j];
  }

  lemma TableOpAt(rows: seq<DisplayRow>, i: nat, j: nat)
    requires i < |rows| && j < 5
    ensures 14 + 5 * i + j < |SubmissionsReportOps(rows)|
    ensures SubmissionsReportOps(rows)[14 + 5 * i + j] == RowOps(rows[i])[j]
  {
    ReportSplits(rows);
    RowsOpsAt(rows, i, j);
    var doc := SubmissionsReportOps(rows);
    assert doc[14 + 5 * i + j] == doc[14..][5 * i + j];
  }

  /** Each row's date cell is ten characters and reads back as the submission's calendar date. */
  lemma DateCellReadsBack(rows: seq<DisplayRow>, i: nat)
    requires i < |rows| && ValidDate(rows[i].submittedOn.date)
    ensures 14 + 5 * i + 5 <= |SubmissionsReportOps(rows)|
    ensures |OpText(TableRow(SubmissionsReportOps(rows), i)[3])| == 10
    ensures ParseDate(OpText(TableRow(SubmissionsReportOps(rows), i)[3])) == Some(rows[i].submittedOn.date)
  {
    TableRowAt(rows, i);
    FormatDateRoundTrip(rows[i].submittedOn.date);
  }

  /** The total line states the number of rows of the frame the report is given. */
  lemma TotalLineReadsBack(n: nat)
    ensures TotalLine(n)[..19] == "Total Submissions: "
    ensures AllDigits(TotalLine(n)[19..]) && ParseDecimal(TotalLine(n)[19..]) == n
  {
    assert TotalLine(n)[19..] == NatToDecimal(n);
    NatToDecimalRoundTrip(n);
  }

  /**
   * The report is built from the display frame, so its total is the number
   * of filtered rows capped at ten; past ten rows it differs from the
   * on-screen metric, which counts every filtered row.
   */
  lemma PdfTotalIsCapped(df: seq<Submission>)
    ensures SubmissionsReportOps(DisplayFrame(df))[5]
         == CellOp(0, 8, TotalLine(Min(|df|, DisplayLimit)), false, 1, AlignLeft)
    ensures |df| > DisplayLimit ==> TotalLine(|DisplayFrame(df)|) != TotalLine(|df|)
  {
    SubmissionsTable(DisplayFrame(df), SubmissionsReportOps(DisplayFrame(df)));
    TotalLineReadsBack(|df|);
    TotalLineReadsBack(DisplayLimit);
  }
}
