/**
 * The customer report (`pdf_from_customer`): a title, thirteen label/value
 * rows, and one line per Notice-of-Assessment entry. Every value and line is
 * cut into 50-character chunks; each chunk is laid out with `multi_cell`,
 * and when that raises the layout exception the chunk is laid out with a
 * single `cell` that breaks the line instead.
 */
module CustomerPdf {
  import opened Text
  import opened Records
  import opened Layout

  /** The record keys read for the label/value rows, in report order. */
  const FieldKeys: seq<string> := [
    "principal_name", "alias_name", "nric_fin", "sex", "dob", "nationality",
    "residential_status", "pass_type", "pass_status", "pass_expiry_date",
    "occupation", "employment_sector", "employer_name"]

  /** The label printed before each of those values. */
  const FieldLabels: seq<string> := [
    "Principal Name", "Alias Name", "NRIC/FIN", "Sex", "Date of Birth", "Nationality",
    "Residential Status", "Pass Type", "Pass Status", "Pass Expiry Date",
    "Occupation", "Employment Sector", "Employer Name"]

  const FieldCount: nat := 13

  const Title: string := "Customer Details"
  const NoaHeading: string := "Notice of Assessment (Last 2 Years):"

  /** `str(cust.get(key, "-"))`. */
  function FieldValue(c: Customer, key: string): string {
    if key in c.fields then Show(c.fields[key]) else "-"
  }

  /** The thirteen (label, value) pairs in report order; an absent key gives "-". */
  function FieldEntries(c: Customer): (r: seq<(string, string)>)
    ensures |r| == FieldCount
    ensures forall i :: 0 <= i < FieldCount ==> r[i].0 == FieldLabels[i]
    ensures forall i :: 0 <= i < FieldCount && FieldKeys[i] !in c.fields ==> r[i].1 == "-"
    ensures forall i :: 0 <= i < FieldCount && FieldKeys[i] in c.fields ==> r[i].1 == Show(c.fields[FieldKeys[i]])
  {
    seq(FieldCount, i requires 0 <= i < FieldCount => (FieldLabels[i], FieldValue(c, FieldKeys[i])))
  }

  /** `cust.get("notice_of_assessment", [])`. */
  function Assessments(c: Customer): seq<Assessment> {
    match c.noticeOfAssessment
    case Some(entries) => entries
    case None => []
  }

  /** `f"{year} {type}: Income {assessable_income}"`, each missing key shown as "-". */
  function NoaLine(e: Assessment): string {
    ShowOr(e.year) + " " + ShowOr(e.kind) + ": Income " + ShowOr(e.assessableIncome)
  }

  function NoaLines(c: Customer): (r: seq<string>)
    ensures |r| == |Assessments(c)|
    ensures forall i :: 0 <= i < |r| ==> r[i] == NoaLine(Assessments(c)[i])
  {
    seq(|Assessments(c)|, i requires 0 <= i < |Assessments(c)| => NoaLine(Assessments(c)[i]))
  }

  /**
   * An assessment line is the year, a space, the type, ": Income " and the
   * assessable income, in that order; a slot whose key the entry lacks
   * shows "-". The income breakdown has no slot.
   */
  lemma NoaLineSlots(e: Assessment)
    ensures var y, k, i := ShowOr(e.year), ShowOr(e.kind), ShowOr(e.assessableIncome);
      && |NoaLine(e)| == |y| + |k| + |i| + 10
      && NoaLine(e)[..|y|] == y
      && NoaLine(e)[|y|..|y| + 1] == " "
      && NoaLine(e)[|y| + 1..|y| + 1 + |k|] == k
      && NoaLine(e)[|y| + 1 + |k|..|y| + |k| + 10] == ": Income "
      && NoaLine(e)[|y| + |k| + 10..] == i
    ensures e.year.None? ==> NoaLine(e)[..2] == "- "
    ensures e.kind.None? ==> NoaLine(e)[|ShowOr(e.year)|..|ShowOr(e.year)| + 4] == " -: "
    ensures e.assessableIncome.None? ==> NoaLine(e)[|NoaLine(e)| - 10..] == ": Income -"
  {
    var y, k, i := ShowOr(e.year), ShowOr(e.kind), ShowOr(e.assessableIncome);
    var line := y + " " + k + ": Income " + i;
    assert line[..|y|] == y;
    assert line[|y|..|y| + 1] == " ";
    assert line[|y| + 1..|y| + 1 + |k|] == k;
    assert line[|y| + 1 + |k|..|y| + |k| + 10] == ": Income ";
    assert line[|y| + |k| + 10..] == i;
  }

  /** An integer year reads back from the start of its assessment line. */
  lemma NoaYearReadsBack(e: Assessment, year: int)
    requires e.year == Some(Int(year))
    ensures |IntToDecimal(year)| < |NoaLine(e)| && NoaLine(e)[|IntToDecimal(year)|] == ' '
    ensures NoaLine(e)[..|IntToDecimal(year)|] == IntToDecimal(year)
    ensures ParseInt(NoaLine(e)[..|IntToDecimal(year)|]) == year
  {
    NoaLineSlots(e);
    IntToDecimalRoundTrip(year);
  }

  /** An integer assessable income reads back from the end of its assessment line. */
  lemma NoaIncomeReadsBack(e: Assessment, income: int)
    requires e.assessableIncome == Some(Int(income))
    ensures |IntToDecimal(income)| + 9 <= |NoaLine(e)|
    ensures NoaLine(e)[|NoaLine(e)| - |IntToDecimal(income)| - 9..|NoaLine(e)| - |IntToDecimal(income)|]
         == ": Income "
    ensures NoaLine(e)[|NoaLine(e)| - |IntToDecimal(income)|..] == IntToDecimal(income)
    ensures ParseInt(NoaLine(e)[|NoaLine(e)| - |IntToDecimal(income)|..]) == income
  {
    NoaLineSlots(e);
    IntToDecimalRoundTrip(income);
  }

  /** One chunk: `multi_cell(0, 6, chunk)`, or after its failure `cell(0, 6, chunk, ln=1)`. */
  function ChunkOp(chunk: string, failed: bool): Op {
    if failed then CellOp(0, 6, chunk, false, 1, AlignLeft) else MultiCellOp(0, 6, chunk)
  }

  /** The operations for `chunks`, the first being multi_cell attempt number `base`. */
  function ChunkOps(chunks: seq<string>, overflow: nat -> bool, base: nat): seq<Op> {
    if chunks == [] then []
    else ChunkOps(chunks[..|chunks| - 1], overflow, base) +
         [ChunkOp(chunks[|chunks| - 1], overflow(base + |chunks| - 1))]
  }

  /** A wrapped text together with the operations that precede it. */
  datatype Block = Block(prefix: seq<Op>, text: string)

  /** Bold label with a colon, ending on the same line, then the regular font back. */
  function LabelOps(caption: string): seq<Op> {
    [SetFontOp(Font, "B", 10), CellOp(50, 6, caption + ":", false, 0, AlignLeft), SetFontOp(Font, "", 10)]
  }

  /** Newlines in field values become spaces before chunking. */
  function FieldBlocks(c: Customer): seq<Block> {
    var entries := FieldEntries(c);
    seq(FieldCount, i requires 0 <= i < FieldCount =>
      Block(LabelOps(entries[i].0), ReplaceNewlines(entries[i].1)))
  }

  /** Assessment lines are chunked as they are, without newline replacement. */
  function NoaBlocks(c: Customer): seq<Block> {
    var lines := NoaLines(c);
    seq(|lines|, i requires 0 <= i < |lines| => Block([], lines[i]))
  }

  /** The number of chunks, hence of multi_cell attempts, of a run of blocks. */
  function ChunkTotal(blocks: seq<Block>): nat {
    if blocks == [] then 0
    else ChunkTotal(blocks[..|blocks| - 1]) + |Chunks(blocks[|blocks| - 1].text)|
  }

  function BlocksOps(blocks: seq<Block>, overflow: nat -> bool, base: nat): seq<Op> {
    if blocks == [] then []
    else
      var init, b := blocks[..|blocks| - 1], blocks[|blocks| - 1];
      BlocksOps(init, overflow, base) + b.prefix + ChunkOps(Chunks(b.text), overflow, base + ChunkTotal(init))
  }

  function TitleOps(): seq<Op> {
    [AddPageOp, SetFontOp(Font, "B", 16), CellOp(0, 10, Title, false, 1, AlignCenter), LnOp(5),
     SetFontOp(Font, "", 12)]
  }

  function NoaHeadingOps(): seq<Op> {
    [LnOp(3), SetFontOp(Font, "B", 12), CellOp(0, 6, NoaHeading, false, 1, AlignLeft), SetFontOp(Font, "", 10)]
  }

  /**
   * The operation sequence of the customer report when multi_cell attempt
   * number n raises exactly if `overflow(n)`.
   */
  function CustomerReportOps(c: Customer, overflow: nat -> bool): seq<Op> {
    TitleOps() + BlocksOps(FieldBlocks(c), overflow, 0) + NoaHeadingOps()
      + BlocksOps(NoaBlocks(c), overflow, ChunkTotal(FieldBlocks(c)))
  }

  lemma BlocksOpsSnoc(blocks: seq<Block>, b: Block, overflow: nat -> bool, base: nat)
    ensures BlocksOps(blocks + [b], overflow, base)
         == BlocksOps(blocks, overflow, base) + b.prefix + ChunkOps(Chunks(b.text), overflow, base + ChunkTotal(blocks))
    ensures ChunkTotal(blocks + [b]) == ChunkTotal(blocks) + |Chunks(b.text)|
  {
    assert (blocks + [b])[..|blocks|] == blocks;
  }

  /** Extending a prefix of blocks by one block appends that block's operations. */
  lemma BlocksOpsPrefix(blocks: seq<Block>, k: nat, overflow: nat -> bool, base: nat)
    requires k < |blocks|
    ensures BlocksOps(blocks[..k + 1], overflow, base)
         == BlocksOps(blocks[..k], overflow, base)
            + blocks[k].prefix + ChunkOps(Chunks(blocks[k].text), overflow, base + ChunkTotal(blocks[..k]))
    ensures ChunkTotal(blocks[..k + 1]) == ChunkTotal(blocks[..k]) + |Chunks(blocks[k].text)|
  {
    assert blocks[..k + 1] == blocks[..k] + [blocks[k]];
    BlocksOpsSnoc(blocks[..k], blocks[k], overflow, base);
  }

  lemma FieldBlockAt(c: Customer, f: nat)
    requires f < FieldCount
    ensures |FieldBlocks(c)| == FieldCount
    ensures FieldBlocks(c)[f] == Block(LabelOps(FieldEntries(c)[f].0), ReplaceNewlines(FieldEntries(c)[f].1))
  {
  }

  lemma NoaBlockAt(c: Customer, e: nat)
    requires e < |Assessments(c)|
    ensures |NoaBlocks(c)| == |Assessments(c)|
    ensures NoaBlocks(c)[e] == Block([], NoaLine(Assessments(c)[e]))
  {
  }

  /**
   * Lays out `text` in 50-character chunks. A chunk whose multi_cell raises
   * is laid out by a line-breaking cell instead, and the loop goes on.
   */
  method EmitWrapped(pdf: Pdf, text: string)
    modifies pdf
    ensures pdf.ops == old(pdf.ops) + ChunkOps(Chunks(text), pdf.overflow, old(pdf.attempts))
    ensures pdf.attempts == old(pdf.attempts) + |Chunks(text)|
  {
    ghost var chunks, ops0, base := Chunks(text), pdf.ops, pdf.attempts;
    ghost var k := 0;
    ChunkAt(text, 0);
    var i := 0;
    while i < |text|
      invariant i == ChunkWidth * k && k <= |chunks|
      invariant k < |chunks| <==> i < |text|
      invariant pdf.ops == ops0 + ChunkOps(chunks[..k], pdf.overflow, base)
      invariant pdf.attempts == base + k
    {
      ghost var done := ChunkOps(chunks[..k], pdf.overflow, base);
      var chunk := text[i..Min(i + ChunkWidth, |text|)];
      assert chunk == chunks[k] by { ChunkAt(text, k); }
      ghost var op := ChunkOp(chunk, pdf.overflow(base + k));
      EmitChunk(pdf, chunk);
      assert pdf.ops == ops0 + ChunkOps(chunks[..k + 1], pdf.overflow, base) by {
        ChunkOpsSnoc(chunks, k, pdf.overflow, base);
        AppendAssoc(ops0, done, [op]);
      }
      i, k := i + ChunkWidth, k + 1;
      assert k < |chunks| <==> i < |text| by { ChunkAt(text, k); }
    }
    assert chunks[..k] == chunks;
  }

  /** One chunk: multi_cell, or a line-breaking cell when multi_cell raises. */
  method EmitChunk(pdf: Pdf, chunk: string)
    modifies pdf
    ensures pdf.ops == old(pdf.ops) + [ChunkOp(chunk, pdf.overflow(old(pdf.attempts)))]
    ensures pdf.attempts == old(pdf.attempts) + 1
  {
    var ok := pdf.MultiCell(0, 6, chunk);
    if !ok {
      pdf.Cell(0, 6, chunk, false, 1, AlignLeft);
    }
  }

  lemma ChunkOpsSnoc(chunks: seq<string>, k: nat, overflow: nat -> bool, base: nat)
    requires k < |chunks|
    ensures ChunkOps(chunks[..k + 1], overflow, base)
         == ChunkOps(chunks[..k], overflow, base) + [ChunkOp(chunks[k], overflow(base + k))]
  {
    var upto := chunks[..k + 1];
    assert |upto| == k + 1 && upto[..k] == chunks[..k] && upto[k] == chunks[k];
  }

  method EmitTitle(pdf: Pdf)
    modifies pdf
    ensures pdf.ops == old(pdf.ops) + TitleOps() && pdf.attempts == old(pdf.attempts)
  {
    pdf.AddPage();
    pdf.SetFont(Font, "B", 16);
    pdf.Cell(0, 10, Title, false, 1, AlignCenter);
    pdf.Ln(5);
    pdf.SetFont(Font, "", 12);
  }

  method EmitLabel(pdf: Pdf, caption: string)
    modifies pdf
    ensures pdf.ops == old(pdf.ops) + LabelOps(caption) && pdf.attempts == old(pdf.attempts)
  {
    pdf.SetFont(Font, "B", 10);
    pdf.Cell(50, 6, caption + ":", false, 0, AlignLeft);
    pdf.SetFont(Font, "", 10);
  }

  method EmitNoaHeading(pdf: Pdf)
    modifies pdf
    ensures pdf.ops == old(pdf.ops) + NoaHeadingOps() && pdf.attempts == old(pdf.attempts)
  {
    pdf.Ln(3);
    pdf.SetFont(Font, "B", 12);
    pdf.Cell(0, 6, NoaHeading, false, 1, AlignLeft);
    pdf.SetFont(Font, "", 10);
  }

  /**
   * Lays out the report for `c` on a fresh document whose multi_cell attempt
   * number n raises exactly if `overflow(n)`, and returns what was laid out.
   */
  method PdfFromCustomer(c: Customer, overflow: nat -> bool) returns (doc: seq<Op>)
    ensures doc == CustomerReportOps(c, overflow)
  {
    var pdf := new Pdf(overflow);
    EmitTitle(pdf);
    assert pdf.ops == TitleOps();
    ghost var fieldBlocks, noaBlocks := FieldBlocks(c), NoaBlocks(c);
    EmitFields(pdf, c);
    assert pdf.ops == TitleOps() + BlocksOps(fieldBlocks, overflow, 0);
    assert pdf.attempts == ChunkTotal(fieldBlocks);
    EmitNoaHeading(pdf);
    EmitAssessments(pdf, c);
    assert pdf.ops == TitleOps() + BlocksOps(fieldBlocks, overflow, 0) + NoaHeadingOps()
      + BlocksOps(noaBlocks, overflow, ChunkTotal(fieldBlocks));
    doc := pdf.ops;
  }

  /**
   * Wraps the text of block `k` once its prefix is laid out: the document
   * then holds the operations of the first `k + 1` blocks.
   */
  method FinishBlock(pdf: Pdf, ghost blocks: seq<Block>, k: nat, text: string, ghost ops0: seq<Op>, ghost base: nat)
    requires k < |blocks| && blocks[k].text == text
    requires pdf.ops == ops0 + BlocksOps(blocks[..k], pdf.overflow, base) + blocks[k].prefix
    requires pdf.attempts == base + ChunkTotal(blocks[..k])
    modifies pdf
    ensures pdf.ops == ops0 + BlocksOps(blocks[..k + 1], pdf.overflow, base)
    ensures pdf.attempts == base + ChunkTotal(blocks[..k + 1])
  {
    ghost var done := BlocksOps(blocks[..k], pdf.overflow, base);
    EmitWrapped(pdf, text);
    BlocksOpsPrefix(blocks, k, pdf.overflow, base);
    AppendAssoc(ops0, done, blocks[k].prefix);
    AppendAssoc(ops0, done + blocks[k].prefix,
      ChunkOps(Chunks(text), pdf.overflow, base + ChunkTotal(blocks[..k])));
  }

  /** The thirteen label/value rows, in report order, each value newline-free and wrapped. */
  method EmitFields(pdf: Pdf, c: Customer)
    modifies pdf
    ensures pdf.ops == old(pdf.ops) + BlocksOps(FieldBlocks(c), pdf.overflow, old(pdf.attempts))
    ensures pdf.attempts == old(pdf.attempts) + ChunkTotal(FieldBlocks(c))
  {
    var fields := FieldEntries(c);
    ghost var blocks := FieldBlocks(c);
    ghost var ops0, base := pdf.ops, pdf.attempts;
    FieldBlockAt(c, 0);
    for f := 0 to FieldCount
      invariant pdf.ops == ops0 + BlocksOps(blocks[..f], pdf.overflow, base)
      invariant pdf.attempts == base + ChunkTotal(blocks[..f])
    {
      var (caption, value) := fields[f];
      EmitLabel(pdf, caption);
      FieldBlockAt(c, f);
      FinishBlock(pdf, blocks, f, ReplaceNewlines(value), ops0, base);
    }
    assert blocks[..FieldCount] == blocks;
  }

  /** One wrapped line per Notice-of-Assessment entry, in input order. */
  method EmitAssessments(pdf: Pdf, c: Customer)
    modifies pdf
    ensures pdf.ops == old(pdf.ops) + BlocksOps(NoaBlocks(c), pdf.overflow, old(pdf.attempts))
    ensures pdf.attempts == old(pdf.attempts) + ChunkTotal(NoaBlocks(c))
  {
    var entries := Assessments(c);
    ghost var blocks := NoaBlocks(c);
    ghost var ops0, base := pdf.ops, pdf.attempts;
    assert |blocks| == |entries|;
    for e := 0 to |entries|
      invariant pdf.ops == ops0 + BlocksOps(blocks[..e], pdf.overflow, base)
      invariant pdf.attempts == base + ChunkTotal(blocks[..e])
    {
      NoaBlockAt(c, e);
      assert pdf.ops + blocks[e].prefix == pdf.ops;
      FinishBlock(pdf, blocks, e, NoaLine(entries[e]), ops0, base);
    }
    assert blocks[..|entries|] == blocks;
  }

  // ----- What the customer report shows -----

  /** Field values are chunked after newline replacement, so no chunk of a label/value row holds a newline. */
  lemma FieldChunksHaveNoNewline(c: Customer, f: nat)
    requires f < FieldCount
    ensures |FieldBlocks(c)| == FieldCount
    ensures |FieldBlocks(c)[f].text| == |FieldValue(c, FieldKeys[f])|
    ensures forall k :: 0 <= k < |Chunks(FieldBlocks(c)[f].text)| ==> '\n' !in Chunks(FieldBlocks(c)[f].text)[k]
  {
    FieldBlockAt(c, f);
    ChunksKeepNoNewline(FieldBlocks(c)[f].text);
  }

  /** A value that renders as the empty string has no chunks: its row is the label alone. */
  lemma EmptyFieldEmitsLabelOnly(c: Customer, f: nat, overflow: nat -> bool, base: nat)
    requires f < FieldCount && FieldValue(c, FieldKeys[f]) == ""
    ensures |FieldBlocks(c)| == FieldCount
    ensures BlocksOps(FieldBlocks(c)[..f + 1], overflow, base)
         == BlocksOps(FieldBlocks(c)[..f], overflow, base) + LabelOps(FieldLabels[f])
    ensures ChunkTotal(FieldBlocks(c)[..f + 1]) == ChunkTotal(FieldBlocks(c)[..f])
  {
    FieldBlockAt(c, f);
    BlocksOpsPrefix(FieldBlocks(c), f, overflow, base);
    assert Chunks(FieldBlocks(c)[f].text) == [];
  }

  /**
   * Every chunk is laid out exactly once and in order: chunk k by
   * multi_cell, or by a line-breaking cell when multi_cell attempt number
   * `base + k` overflows.
   */
  lemma {:induction false} ChunkOpsAt(chunks: seq<string>, overflow: nat -> bool, base: nat, k: nat)
    requires k < |chunks|
    ensures |ChunkOps(chunks, overflow, base)| == |chunks|
    ensures ChunkOps(chunks, overflow, base)[k] == ChunkOp(chunks[k], overflow(base + k))
    decreases |chunks|
  {
    var init := chunks[..|chunks| - 1];
    if k < |init| {
      ChunkOpsAt(init, overflow, base, k);
    } else if init != [] {
      ChunkOpsAt(init, overflow, base, 0);
    }
  }

  /** Either way a chunk is laid out, its text reaches the page. */
  lemma {:induction false} ChunkOpsText(chunks: seq<string>, overflow: nat -> bool, base: nat)
    ensures OpsText(ChunkOps(chunks, overflow, base)) == Concat(chunks)
    decreases |chunks|
  {
    if chunks != [] {
      var init := chunks[..|chunks| - 1];
      ChunkOpsText(init, overflow, base);
      var ops := ChunkOps(chunks, overflow, base);
      assert ops[..|ops| - 1] == ChunkOps(init, overflow, base);
    }
  }

  /**
   * Wrapping loses and reorders nothing: the chunks of `text` put exactly
   * `text` on the page, whichever multi_cell attempts overflow.
   */
  lemma WrappedText(text: string, overflow: nat -> bool, base: nat)
    ensures OpsText(ChunkOps(Chunks(text), overflow, base)) == text
  {
    ChunkOpsText(Chunks(text), overflow, base);
    ChunksConcat(text);
  }

  /** The text of each block: what its prefix shows, then its wrapped text. */
  function BlockLines(blocks: seq<Block>): (r: seq<string>)
    ensures |r| == |blocks|
    ensures forall i :: 0 <= i < |blocks| ==> r[i] == OpsText(blocks[i].prefix) + blocks[i].text
  {
    seq(|blocks|, i requires 0 <= i < |blocks| => OpsText(blocks[i].prefix) + blocks[i].text)
  }

  lemma {:induction false} BlocksOpsText(blocks: seq<Block>, overflow: nat -> bool, base: nat)
    ensures OpsText(BlocksOps(blocks, overflow, base)) == Concat(BlockLines(blocks))
    decreases |blocks|
  {
    if blocks == [] {
      assert BlockLines(blocks) == [];
    } else {
      var init, b := blocks[..|blocks| - 1], blocks[|blocks| - 1];
      var done := BlocksOps(init, overflow, base);
      var chunkOps := ChunkOps(Chunks(b.text), overflow, base + ChunkTotal(init));
      var line := OpsText(b.prefix) + b.text;
      assert OpsText(b.prefix + chunkOps) == line by {
        OpsTextAppend(b.prefix, chunkOps);
        WrappedText(b.text, overflow, base + ChunkTotal(init));
      }
      assert BlocksOps(blocks, overflow, base) == done + (b.prefix + chunkOps) by {
        AppendAssoc(done, b.prefix, chunkOps);
      }
      OpsTextAppend(done, b.prefix + chunkOps);
      BlocksOpsText(init, overflow, base);
      assert BlockLines(blocks)[..|blocks| - 1] == BlockLines(init);
      assert BlockLines(blocks)[|blocks| - 1] == line;
    }
  }

  /** The label operations show the caption followed by a colon. */
  lemma LabelText(caption: string)
    ensures OpsText(LabelOps(caption)) == caption + ":"
  {
    var ops := LabelOps(caption);
    var one, two := ops[..1], ops[..2];
    assert one[..0] == [] && two[..1] == one;
    assert OpsText(one) == "";
    assert OpsText(two) == caption + ":";
  }

  /** Each label/value row reads "label:" followed by the value with its newlines turned into spaces. */
  lemma FieldLineAt(c: Customer, i: nat)
    requires i < FieldCount
    ensures |BlockLines(FieldBlocks(c))| == FieldCount
    ensures BlockLines(FieldBlocks(c))[i] == FieldLabels[i] + ":" + ReplaceNewlines(FieldValue(c, FieldKeys[i]))
  {
    FieldBlockAt(c, i);
    LabelText(FieldLabels[i]);
  }

  /** The assessment blocks show exactly the assessment lines. */
  lemma NoaBlockLines(c: Customer)
    ensures BlockLines(NoaBlocks(c)) == NoaLines(c)
  {
    var blocks := NoaBlocks(c);
    forall i | 0 <= i < |blocks| ensures BlockLines(blocks)[i] == NoaLines(c)[i] {
      assert blocks[i].prefix == [];
    }
  }

  /**
   * The text the customer report puts on the page: the title, the thirteen
   * label/value rows, the assessment heading and the assessment lines, in
   * that order. It is the same whichever multi_cell attempts overflow.
   */
  lemma CustomerReportText(c: Customer, overflow: nat -> bool)
    ensures OpsText(CustomerReportOps(c, overflow))
         == Title + Concat(BlockLines(FieldBlocks(c))) + NoaHeading + Concat(NoaLines(c))
  {
    var fields := BlocksOps(FieldBlocks(c), overflow, 0);
    var noa := BlocksOps(NoaBlocks(c), overflow, ChunkTotal(FieldBlocks(c)));
    calc {
      OpsText(TitleOps() + fields + NoaHeadingOps() + noa);
      { OpsTextAppend(TitleOps() + fields + NoaHeadingOps(), noa); }
      OpsText(TitleOps() + fields + NoaHeadingOps()) + OpsText(noa);
      { OpsTextAppend(TitleOps() + fields, NoaHeadingOps()); }
      OpsText(TitleOps() + fields) + OpsText(NoaHeadingOps()) + OpsText(noa);
      { OpsTextAppend(TitleOps(), fields); }
      OpsText(TitleOps()) + OpsText(fields) + OpsText(NoaHeadingOps()) + OpsText(noa);
      { FixedTexts(); }
      Title + OpsText(fields) + NoaHeading + OpsText(noa);
      { BlocksOpsText(FieldBlocks(c), overflow, 0); }
      Title + Concat(BlockLines(FieldBlocks(c))) + NoaHeading + OpsText(noa);
      { BlocksOpsText(NoaBlocks(c), overflow, ChunkTotal(FieldBlocks(c))); NoaBlockLines(c); }
      Title + Concat(BlockLines(FieldBlocks(c))) + NoaHeading + Concat(NoaLines(c));
    }
  }

  /** The title and the assessment heading each show their one line of text. */
  lemma FixedTexts()
    ensures OpsText(TitleOps()) == Title
    ensures OpsText(NoaHeadingOps()) == NoaHeading
  {
    var t := TitleOps();
    var t1, t2, t3, t4 := t[..1], t[..2], t[..3], t[..4];
    assert t1[..0] == [] && t2[..1] == t1 && t3[..2] == t2 && t4[..3] == t3;
    assert OpsText(t1) == "" + OpText(t[0]) == "";
    assert OpsText(t2) == OpsText(t1) + OpText(t[1]) == "";
    assert OpsText(t3) == Title;
    assert OpsText(t4) == Title;
    var h := NoaHeadingOps();
    var h1, h2, h3 := h[..1], h[..2], h[..3];
    assert h1[..0] == [] && h2[..1] == h1 && h3[..2] == h2;
    assert OpsText(h1) == "" + OpText(h[0]) == "";
    assert OpsText(h2) == OpsText(h1) + OpText(h[1]) == "";
    assert OpsText(h3) == NoaHeading;
  }

  /** The number of operations the prefixes of `blocks` contribute. */
  function PrefixTotal(blocks: seq<Block>): nat {
    if blocks == [] then 0 else PrefixTotal(blocks[..|blocks| - 1]) + |blocks[|blocks| - 1].prefix|
  }

  lemma {:induction false} BlocksOpsLength(blocks: seq<Block>, overflow: nat -> bool, base: nat)
    ensures |BlocksOps(blocks, overflow, base)| == PrefixTotal(blocks) + ChunkTotal(blocks)
    decreases |blocks|
  {
    if blocks != [] {
      var init, b := blocks[..|blocks| - 1], blocks[|blocks| - 1];
      BlocksOpsLength(init, overflow, base);
      if b.text != [] {
        ChunkOpsAt(Chunks(b.text), overflow, base + ChunkTotal(init), 0);
      } else {
        assert Chunks(b.text) == [];
      }
    }
  }

  lemma {:induction false} PrefixTotalUniform(blocks: seq<Block>, width: nat)
    requires forall i :: 0 <= i < |blocks| ==> |blocks[i].prefix| == width
    ensures PrefixTotal(blocks) == width * |blocks|
    decreases |blocks|
  {
    if blocks != [] {
      PrefixTotalUniform(blocks[..|blocks| - 1], width);
    }
  }

  /**
   * The report has 48 fixed operations (five for the title, three per label,
   * four for the assessment heading) and one per chunk, that is one per
   * multi_cell attempt.
   */
  lemma CustomerReportLength(c: Customer, overflow: nat -> bool)
    ensures |CustomerReportOps(c, overflow)| == 48 + ChunkTotal(FieldBlocks(c)) + ChunkTotal(NoaBlocks(c))
  {
    BlocksOpsLength(FieldBlocks(c), overflow, 0);
    BlocksOpsLength(NoaBlocks(c), overflow, ChunkTotal(FieldBlocks(c)));
    PrefixTotalUniform(FieldBlocks(c), 3);
    PrefixTotalUniform(NoaBlocks(c), 0);
  }

  /**
   * The report depends on nothing but the rendered values of the thirteen
   * keys and the year, type and assessable income of each assessment: other
   * keys and the income breakdowns never reach it.
   */
  lemma CustomerReportIgnoresOtherData(c: Customer, d: Customer, overflow: nat -> bool)
    requires forall i :: 0 <= i < FieldCount ==> FieldValue(c, FieldKeys[i]) == FieldValue(d, FieldKeys[i])
    requires |Assessments(c)| == |Assessments(d)|
    requires forall i :: 0 <= i < |Assessments(c)| ==>
      && Assessments(c)[i].year == Assessments(d)[i].year
      && Assessments(c)[i].kind == Assessments(d)[i].kind
      && Assessments(c)[i].assessableIncome == Assessments(d)[i].assessableIncome
    ensures CustomerReportOps(c, overflow) == CustomerReportOps(d, overflow)
  {
    assert FieldEntries(c) == FieldEntries(d);
    assert FieldBlocks(c) == FieldBlocks(d);
    assert NoaLines(c) == NoaLines(d);
    assert NoaBlocks(c) == NoaBlocks(d);
  }
}
