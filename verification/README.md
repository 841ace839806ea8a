# KYC dashboard reports — a Dafny model

The KYC dashboard (`app.py`) lists customer renewal submissions for a date
range. It counts them, charts them per day and offers two PDF downloads. The
first is a table of the displayed submissions. The second holds the details
and the Notice-of-Assessment (NoA) history of one customer. This project
models the data side of that dashboard and proves what it produces:

- **Loading** (`Frames`): the submissions whose creation day lies in the
  picked range, both ends included, in their original order. The display
  frame renames the columns, drops `id` and keeps at most ten rows. The
  chart data is one bucket per day, days ascending, each holding that day's
  count.
- **Submissions report** (`SubmissionsPdf`): a title and a
  "Total Submissions: n" line. Then a bold header of four bordered cells
  with widths 40, 60, 50 and 40. Then one bordered row per display row,
  with the date written `YYYY-MM-DD`.
- **Customer report** (`CustomerPdf`): a title, then thirteen label/value
  rows in a fixed order. A missing key shows "-". Newlines in a value become
  spaces. Then a heading and one line per NoA entry, reading
  "year type: Income amount", with "-" for a missing key.
- **Wrapping**: every value and NoA line is cut into 50-character chunks.
  Each chunk goes to `multi_cell`. When that raises the layout exception,
  the chunk goes to a line-breaking `cell` instead, and the loop carries on.

A PDF document is modelled as the sequence of layout operations issued on it
(`Layout.Op`). `Layout.Pdf` is a class whose methods append to that
sequence, and the report builders are imperative methods with loops, just as
the source is. Each builder is proved equal to a specification function
(`SubmissionsReportOps`, `CustomerReportOps`), and the lemmas state what
those functions lay out.

Whether a `multi_cell` call raises depends on page state the model does not
track. It is therefore a parameter: `overflow(n)` says whether the n-th
`multi_cell` call on the document raises. Every customer-report property
holds for every such oracle. A `multi_cell` call that raises is taken to lay
out nothing.

The customer record is a map from keys to JSON scalars (`Records.Value`)
plus an optional list of assessments. `str()` of a scalar is modelled
exactly: decimal integers with a minus sign, `True`/`False`, `None`.

Files: `text.dfy` (decimal rendering, zero padding, newline replacement,
chunking), `records.dfy` (dates, submissions, customers), `layout.dfy` (the
document), `frames.dfy` (filter, display frame, daily counts),
`submissions_pdf.dfy`, `customer_pdf.dfy`, and `fixtures.dfy` (the
dashboard's built-in mock data, with lemmas stating what the model makes
of it).

## Model

| member | source | states |
|---|---|---|
| Text.NatToDecimal | app.py:68 | a count renders as a non-empty digit string that starts with 0 only for zero |
| Text.NatToDecimalRoundTrip | app.py:68 | reading the rendered digits back gives the number |
| Text.IntToDecimal | app.py:132 | an integer renders non-empty, starting with '-' exactly when it is negative |
| Text.IntToDecimalRoundTrip | app.py:132 | reading a rendered integer back gives the integer, negatives included |
| Text.PaddedDecimal | app.py:83 | zero-padding a number below 10^width gives exactly width digits that read back as the number |
| Text.ReplaceNewlines | app.py:115 | same length; each '\n' becomes ' ' and every other character stays in place; no newline remains |
| Text.ChunksConcat | app.py:119-120 | joining the 50-character slices in order gives back the text |
| Text.ChunksShape | app.py:119-120 | ceil(L/50) chunks; all but the last have 50 characters, the last 1 to 50; no chunks exactly for the empty text |
| Text.ChunkAt | app.py:119-120 | chunk k exists exactly when 50k < L, and it is the slice from 50k clamped at the end of the text |
| Text.ChunksKeepNoNewline | app.py:115-120 | a newline-free text gives newline-free chunks |
| Records.PrecedesIsStrictTotalOrder | app.py:51-52 | date order is irreflexive, asymmetric, transitive and total |
| Records.FormatDateRoundTrip | app.py:83 | a valid date renders as 10 characters with dashes at 4 and 7 and parses back to the same date |
| Layout.Pdf.constructor | app.py:62 | a fresh document holds no operations and no multi_cell attempts |
| Layout.Pdf.AddPage | app.py:63 | a new page appends exactly one page operation; the multi_cell attempt count is unchanged |
| Layout.Pdf.SetFont | app.py:64 | a font change appends exactly one font operation with its family, style and size; the attempt count is unchanged |
| Layout.Pdf.Cell | app.py:65 | a cell appends exactly one cell operation with its width, height, text, border, line break and alignment |
| Layout.Pdf.Ln | app.py:66 | a line break appends exactly one break operation of its height; the attempt count is unchanged |
| Layout.Pdf.MultiCell | app.py:121-124 | one more attempt; on success exactly one multi_cell operation is appended, on overflow nothing |
| Frames.LoadSubmissions | app.py:46-54 | the result is no longer than the input and every kept record's day is in the range |
| Frames.LoadSubmissionsKeeps | app.py:50-54 | every in-range record is kept as often as it occurs and no out-of-range record is kept |
| Frames.LoadSubmissionsAppend | app.py:54 | filtering commutes with concatenation, so kept records keep their relative order |
| Frames.LoadSubmissionsIdempotent | app.py:50-54 | filtering an already filtered frame changes nothing |
| Frames.InvertedRangeIsEmpty | app.py:50-53 | with the start after the end nothing is kept |
| Frames.LoadSubmissionsAsWritten | app.py:47-49 | the loader raises KeyError exactly when the record source is empty; otherwise it returns a frame no longer than its input |
| Frames.EmptySourceRaises | app.py:47-49 | on an empty source the loader raises where an empty frame is intended |
| Frames.RenameColumns | app.py:218-222 | one display row per record, in order, carrying its NRIC, name, nationality and timestamp |
| Frames.DisplayFrame | app.py:217-224 | min(n, 10) rows, row i being record i renamed |
| Frames.DisplayFrameIgnoresTail | app.py:223 | rows after the tenth never reach the display frame |
| Frames.AddDay | app.py:232 | counting one more submission keeps the buckets ascending and positive, and adds one to that day's tally and to the total |
| Frames.DailyCounts | app.py:232 | buckets ascend and are positive, each day's tally equals that day's number of records, and the counts sum to the number of records |
| Frames.DailyCountsCorrect | app.py:232 | strictly ascending days; each bucket holds its day's count, which is positive; every day with a record has a bucket; the counts sum to the row count |
| SubmissionsPdf.PdfFromSubmissions | app.py:61-85 | the document laid out is exactly the submissions report of the rows |
| SubmissionsPdf.EmitPreamble | app.py:62-73 | page, title, total line and the bold table font are appended in source order; no multi_cell attempt is made |
| SubmissionsPdf.EmitHeader | app.py:74-78 | the four bordered header cells, a line break and the regular font are appended; no multi_cell attempt is made |
| SubmissionsPdf.EmitRows | app.py:79-84 | one row of operations per display row is appended, in input order; no multi_cell attempt is made |
| SubmissionsPdf.EmitRow | app.py:80-84 | a row appends the cells for NRIC, name, nationality and formatted date, then a line break; no multi_cell attempt is made |
| SubmissionsPdf.EmitCells | app.py:80-84 | four bordered cells in the column widths, then a 6-point line break; no multi_cell attempt is made |
| SubmissionsPdf.RowsOpsAt | app.py:79-84 | the rows section has five operations per row, and operation j of row i is the j-th of that row's operations |
| SubmissionsPdf.ReportSplits | app.py:62-84 | preamble and header take 14 operations, and the rest is the rows section |
| SubmissionsPdf.SubmissionsTable | app.py:62-84 | 14 + 5n operations; the total line is the sixth; the header cells 40/60/50/40 come next in order; table row i is the operations of input row i |
| SubmissionsPdf.TableRowAt | app.py:79-84 | table row i of the report is the operations of input row i |
| SubmissionsPdf.HeaderCellAt | app.py:74-75 | operation 8 + j is the bordered header cell of column j with its width |
| SubmissionsPdf.TableOpAt | app.py:79-84 | operation 14 + 5i + j is operation j of row i |
| SubmissionsPdf.DateCellReadsBack | app.py:83 | each row's date cell is ten characters and parses back to the submission's calendar date |
| SubmissionsPdf.TotalLineReadsBack | app.py:68 | the total line is the fixed caption followed by digits that read back as the count |
| SubmissionsPdf.PdfTotalIsCapped | app.py:217-225 | the report's total is min(filtered rows, 10), and past ten rows it differs from the on-screen metric's count |
| CustomerPdf.FieldEntries | app.py:99-113 | thirteen (label, value) pairs in report order; a present key shows str(value) and an absent key shows "-" |
| CustomerPdf.NoaLineSlots | app.py:132 | an assessment line is year, space, type, ": Income ", income in that order, with "-" in each slot whose key is missing and no slot for the income breakdown |
| CustomerPdf.NoaYearReadsBack | app.py:132 | an integer year is the start of its line, followed by a space, and reads back as the year |
| CustomerPdf.NoaIncomeReadsBack | app.py:132 | an integer assessable income ends its line, right after ": Income ", and reads back as the income |
| CustomerPdf.EmitTitle | app.py:92-96 | page, bold title font, centred title, a 5-point break and the 12-point font are appended |
| CustomerPdf.EmitLabel | app.py:116-118 | bold font, a 50-wide "label:" cell that stays on the line, then the regular font |
| CustomerPdf.EmitNoaHeading | app.py:127-130 | a 3-point break, the bold heading font, the heading cell and the regular font are appended |
| CustomerPdf.EmitWrapped | app.py:119-124 | one operation per chunk in order, multi_cell or the line-breaking fallback as the oracle decides, and one attempt per chunk |
| CustomerPdf.EmitChunk | app.py:121-124 | exactly one operation for the chunk: multi_cell, or a line-breaking cell when it overflowed; the call never aborts |
| CustomerPdf.FinishBlock | app.py:119-124 | wrapping the text of block k after its prefix yields the operations of the first k + 1 blocks |
| CustomerPdf.EmitFields | app.py:114-124 | the thirteen label/value rows are appended in order, each value newline-replaced and wrapped |
| CustomerPdf.EmitAssessments | app.py:131-138 | one wrapped line per NoA entry is appended, in order |
| CustomerPdf.PdfFromCustomer | app.py:90-139 | the document laid out is exactly the customer report for the record and the overflow oracle |
| CustomerPdf.FieldChunksHaveNoNewline | app.py:115-120 | a field's wrapped text is as long as its value and no chunk of it holds a newline |
| CustomerPdf.EmptyFieldEmitsLabelOnly | app.py:116-120 | a value that renders empty contributes its label operations only, and no multi_cell attempt |
| CustomerPdf.ChunkOpsAt | app.py:119-124 | one operation per chunk, and the k-th is chunk k by multi_cell, or by cell when attempt base + k overflows |
| CustomerPdf.ChunkOpsText | app.py:121-124 | whichever way each chunk is laid out, the chunks' text reaches the page in order |
| CustomerPdf.WrappedText | app.py:119-124 | the wrapped chunks put exactly the original text on the page, for any overflow outcome |
| CustomerPdf.BlocksOpsText | app.py:114-138 | the page text of a run of blocks is the concatenation of their lines |
| CustomerPdf.LabelText | app.py:117 | a label row shows the label followed by a colon |
| CustomerPdf.FieldLineAt | app.py:114-124 | field row i reads "label:" followed by the value with newlines as spaces |
| CustomerPdf.NoaBlockLines | app.py:131-138 | the NoA section shows exactly the NoA lines |
| CustomerPdf.FixedTexts | app.py:92-130 | the title operations show "Customer Details" and the heading operations show the NoA heading |
| CustomerPdf.CustomerReportText | app.py:90-138 | the page text is title, field rows, NoA heading and NoA lines in that order, the same for every overflow outcome |
| CustomerPdf.CustomerReportLength | app.py:90-138 | the report has 48 fixed operations plus one per chunk |
| CustomerPdf.CustomerReportIgnoresOtherData | app.py:99-132 | only the thirteen keys' values and each entry's year, type and assessable income affect the report; the income breakdown never does |
| Fixtures.DefaultRangeKeepsMockSubmissions | app.py:207-208 | with the default range 2025-01-01 to 2025-04-22, all three mock submissions are kept in order |
| Fixtures.EarlierRangeKeepsNothing | app.py:50-54 | a range ending 2025-04-20 keeps none of the mock submissions |
| Fixtures.MockDailyCounts | app.py:232 | the mock submissions make one bucket of three on 2025-04-21 |
| Fixtures.MockReportTotal | app.py:217-225 | three rows are displayed and the report's total cell reads "Total Submissions: 3" |
| Fixtures.MockDateCell | app.py:83 | the mock submission day renders as "2025-04-21" |
| Fixtures.MockAssessmentLines | app.py:131-132 | the mock customer's two entries give two lines, in the order listed |
| Fixtures.MockAssessmentTexts | app.py:132 | the lines read "2024 Normal Assessment: Income 95000" and "2023 Normal Assessment: Income 92000" |
| Fixtures.MockNumbers | app.py:132 | the mock years and incomes render as their decimal digits |
| Fixtures.MockFieldEntries | app.py:99-113 | the first row is Principal Name / John Doe and the last is Employer Name / Acme Solutions Pte Ltd |

## Left out

- The Streamlit page (app.py:144-317): CSS, banner, tabs, search box, download buttons and HTML table rendering. These are presentation only.
- The Altair bar chart (app.py:233-237). Only its data, the daily counts, is modelled.
- FPDF internals: font metrics, line wrapping inside `multi_cell`, page breaks, the PDF byte output and the latin-1 encoding (app.py:86-88, 140-142). A document is the sequence of operations asked of it.
- Layout.Pdf.MultiCell: which calls raise is an oracle argument (`overflow`) rather than page geometry. A call that raises is assumed to have laid out nothing.
- A `cell` call can itself raise, for example on a character outside the font. That is not modelled; the model's cells always succeed.
- JSON and pandas parsing (app.py:47-49, 57): records arrive already parsed. `created_at` is a calendar date plus a second of the day, in UTC.
- `load_customer` (app.py:56-58) ignores its query and returns the mock record. The model takes the customer record as a parameter.
- The `USE_MOCK` switch (app.py:12): the record list is a parameter. The mock records appear in `Fixtures`.
- `datetime.now()` in the footers (app.py:240, 317): a clock reading used only for display.
- Records.Show: values are JSON strings, integers, booleans and null. Floating-point numbers, nested lists and nested objects are not modelled, so their `str()` rendering is not either.
- Pandas' handling of a record that lacks one of the display columns is not modelled. Every submission carries all five keys.

## Findings

| source | as written | input that shows it | evidently intended | confidence | as-written member | corrected member |
|---|---|---|---|---|---|---|
| app.py:47-49 | an empty record list makes a frame with no columns, so `df["created_at"]` raises KeyError | no submissions at all, as with the mock data switched off | an empty frame, so the metric shows 0 and the reports are empty | not executed | Frames.LoadSubmissionsAsWritten | Frames.LoadSubmissions |
