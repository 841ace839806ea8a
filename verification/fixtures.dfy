/**
 * The dashboard's built-in mock records, and what the model makes of them
 * with the default date range of the range control.
 */
module Fixtures {
  import opened Text
  import opened Records
  import opened Layout
  import opened Frames
  import opened SubmissionsPdf
  import opened CustomerPdf

  const ReportDay: Date := Date(2025, 4, 21)

  /** The three mock submission summaries, all created on 21 April 2025. */
  function MockSubmissions(): seq<Submission> {
    [ Submission("11111111-1111-1111-1111-111111111111", "S2342433Z", "John Doe", "SINGAPORE CITIZEN",
        Timestamp(ReportDay, 8 * 3600 + 21 * 60 + 39)),
      Submission("22222222-2222-2222-2222-222222222222", "S1234567J", "Tom Moddy", "SINGAPORE CITIZEN",
        Timestamp(ReportDay, 7 * 3600 + 55 * 60 + 47)),
      Submission("33333333-3333-3333-3333-333333333333", "S9876543B", "Yan Hu", "SINGAPORE CITIZEN",
        Timestamp(ReportDay, 4 * 3600 + 27 * 60 + 24)) ]
  }

  /** With the default range, 1 January to 22 April 2025, all three mock submissions are kept in order. */
  lemma DefaultRangeKeepsMockSubmissions()
    ensures LoadSubmissions(MockSubmissions(), Date(2025, 1, 1), Date(2025, 4, 22)) == MockSubmissions()
  {
    var subs := MockSubmissions();
    assert subs[..2][..1][..0] == [];
  }

  /** The three mock submissions make a single chart bar of three. */
  lemma MockDailyCounts()
    ensures DailyCounts(MockSubmissions()) == [DayCount(ReportDay, 3)]
  {
    var subs := MockSubmissions();
    assert subs[..2][..1][..0] == [];
    assert DailyCounts(subs[..1]) == [DayCount(ReportDay, 1)];
    assert DailyCounts(subs[..2]) == [DayCount(ReportDay, 2)];
  }

  /** All three are displayed, and the report states a total of three. */
  lemma MockReportTotal()
    ensures |DisplayFrame(MockSubmissions())| == 3
    ensures SubmissionsReportOps(DisplayFrame(MockSubmissions()))[5]
         == CellOp(0, 8, "Total Submissions: 3", false, 1, AlignLeft)
  {
    PdfTotalIsCapped(MockSubmissions());
    assert TotalLine(3) == "Total Submissions: 3" by {
      assert NatToDecimal(3) == "3";
    }
  }

  /** A range that ends the day before the mock submissions keeps none of them. */
  lemma EarlierRangeKeepsNothing()
    ensures LoadSubmissions(MockSubmissions(), Date(2025, 1, 1), Date(2025, 4, 20)) == []
  {
    var subs := MockSubmissions();
    assert subs[..2][..1][..0] == [];
  }

  /** A date cell of the submissions table. */
  lemma MockDateCell()
    ensures FormatDate(ReportDay) == "2025-04-21"
  {
    assert NatToDecimal(2025) == "2025";
    assert NatToDecimal(4) == "4" && NatToDecimal(21) == "21";
    assert ZeroPad("4", 2) == "04";
  }

  /** The mock customer record (John Doe), with two yearly assessments. */
  function MockCustomer(): Customer {
    Customer(
      map[
        "id" := Str("aaaaaaaa-aaaa-aaaa-aaaa-aaaaaaaaaaaa"),
        "session_id" := Str("bbbbbbbb-bbbb-bbbb-bbbb-bbbbbbbbbbbb"),
        "nric_fin" := Str("S2342433Z"),
        "principal_name" := Str("John Doe"),
        "alias_name" := Str("Johnny D"),
        "sex" := Str("Male"),
        "dob" := Str("1985-08-20"),
        "residential_status" := Str("Permanent Resident"),
        "nationality" := Str("Singaporean"),
        "country_of_birth" := Str("Singapore"),
        "pass_type" := Str("PR"),
        "pass_status" := Str("Active"),
        "pass_expiry_date" := Str("2030-08-20"),
        "employment_sector" := Str("Technology"),
        "employer_name" := Str("Acme Solutions Pte Ltd"),
        "occupation" := Str("Software Engineer"),
        "mobile_number" := Str("91230000"),
        "email_address" := Str("john.doe@example.com"),
        "registered_address" := Str("123 Alpha Street, #01-01, Singapore 123456"),
        "revised_mobile_number" := Str("98760000"),
        "revised_email_address" := Str("johnny.d@example.com"),
        "revised_registered_address" := Str("456 Beta Avenue, #02-02, Singapore 654321"),
        "residential_address" := Str("789 Gamma Road, #03-03, Singapore 789123"),
        "created_at" := Str("2025-01-10T09:00:00Z"),
        "updated_at" := Str("2025-04-22T11:19:45Z")],
      Some(MockAssessments()))
  }

  function MockAssessments(): seq<Assessment> {
    [ Assessment(Some(Int(2024)), Some(Str("Normal Assessment")), Some(Int(95000)),
        Some(IncomeBreakdown(90000, 2000, 1000, 0))),
      Assessment(Some(Int(2023)), Some(Str("Normal Assessment")), Some(Int(92000)),
        Some(IncomeBreakdown(88000, 2000, 1000, 0))) ]
  }

  /** The mock customer's two assessments give one line each, in the order listed. */
  lemma MockAssessmentLines()
    ensures NoaLines(MockCustomer()) == [NoaLine(MockAssessments()[0]), NoaLine(MockAssessments()[1])]
  {
    assert Assessments(MockCustomer()) == MockAssessments();
  }

  /** Each line shows year, type and assessable income; the income breakdown is left out. */
  lemma MockAssessmentTexts()
    ensures NoaLine(MockAssessments()[0]) == "2024" + " " + "Normal Assessment" + ": Income " + "95000"
    ensures NoaLine(MockAssessments()[1]) == "2023" + " " + "Normal Assessment" + ": Income " + "92000"
  {
    MockNumbers();
  }

  lemma MockNumbers()
    ensures IntToDecimal(2024) == "2024" && IntToDecimal(2023) == "2023"
    ensures IntToDecimal(95000) == "95000" && IntToDecimal(92000) == "92000"
  {
    assert NatToDecimal(2) == "2" && NatToDecimal(20) == "20" && NatToDecimal(202) == "202";
    assert NatToDecimal(9) == "9" && NatToDecimal(95) == "95" && NatToDecimal(92) == "92";
    assert NatToDecimal(950) == "950" && NatToDecimal(9500) == "9500";
    assert NatToDecimal(920) == "920" && NatToDecimal(9200) == "9200";
  }

  /** The first and last label/value rows of the mock customer. */
  lemma MockFieldEntries()
    ensures FieldEntries(MockCustomer())[0] == ("Principal Name", "John Doe")
    ensures FieldEntries(MockCustomer())[12] == ("Employer Name", "Acme Solutions Pte Ltd")
  {
  }
}
