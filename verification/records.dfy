/**
 * The record shapes the dashboard consumes: submission summaries and the
 * customer profile, with the calendar-date and value rendering the
 * reports apply to them.
 */
module Records {
  import opened Text

  datatype Option<T> = None | Some(value: T)

  /** A calendar date, the `.dt.date` of a timestamp or a date picked in the range control. */
  datatype Date = Date(year: nat, month: nat, day: nat)

  function DaysInMonth(year: nat, month: nat): nat {
    if month == 2 then (if (year % 4 == 0 && year % 100 != 0) || year % 400 == 0 then 29 else 28)
    else if month == 4 || month == 6 || month == 9 || month == 11 then 30
    else 31
  }

  /** Dates Python's `datetime.date` can hold (years 1 to 9999). */
  predicate ValidDate(d: Date) {
    1 <= d.year <= 9999 && 1 <= d.month <= 12 && 1 <= d.day <= DaysInMonth(d.year, d.month)
  }

  /** `a` is a strictly earlier calendar day than `b`. */
  predicate Precedes(a: Date, b: Date) {
    a.year < b.year
    || (a.year == b.year && a.month < b.month)
    || (a.year == b.year && a.month == b.month && a.day < b.day)
  }

  /** Python's `a <= b` on dates. */
  predicate NotAfter(a: Date, b: Date) {
    a == b || Precedes(a, b)
  }

  lemma PrecedesIsStrictTotalOrder(a: Date, b: Date, c: Date)
    ensures !Precedes(a, a)
    ensures Precedes(a, b) ==> !Precedes(b, a)
    ensures Precedes(a, b) && Precedes(b, c) ==> Precedes(a, c)
    ensures a != b ==> Precedes(a, b) || Precedes(b, a)
  {
  }

  /** A UTC timestamp: its calendar date and the second within that day. */
  datatype Timestamp = Timestamp(date: Date, secondOfDay: nat)

  /** One submission summary as the record source lists it. */
  datatype Submission = Submission(
    id: string,
    nricFin: string,
    principalName: string,
    nationality: string,
    createdAt: Timestamp)

  /**
   * `strftime("%Y-%m-%d")`: year padded to four digits, month and day to two.
   * Only the calendar date enters, never the time of day.
   */
  function FormatDate(d: Date): string {
    ZeroPad(NatToDecimal(d.year), 4) + "-" + ZeroPad(NatToDecimal(d.month), 2) + "-"
      + ZeroPad(NatToDecimal(d.day), 2)
  }

  /** Reads a `YYYY-MM-DD` string back into a date. */
  function ParseDate(s: string): Option<Date> {
    if |s| == 10 && s[4] == '-' && s[7] == '-'
       && AllDigits(s[..4]) && AllDigits(s[5..7]) && AllDigits(s[8..])
    then Some(Date(ParseDecimal(s[..4]), ParseDecimal(s[5..7]), ParseDecimal(s[8..])))
    else None
  }

  /** The rendered date is ten characters, dashes at positions 4 and 7, and reads back as the same date. */
  lemma FormatDateRoundTrip(d: Date)
    requires ValidDate(d)
    ensures |FormatDate(d)| == 10
    ensures FormatDate(d)[4] == '-' && FormatDate(d)[7] == '-'
    ensures ParseDate(FormatDate(d)) == Some(d)
  {
    var y, m, dd := ZeroPad(NatToDecimal(d.year), 4), ZeroPad(NatToDecimal(d.month), 2), ZeroPad(NatToDecimal(d.day), 2);
    assert |y| == 4 && AllDigits(y) && ParseDecimal(y) == d.year by {
      assert Pow10(4) == 10000 by { assert Pow10(2) == 100; }
      PaddedDecimal(d.year, 4);
    }
    assert |m| == 2 && AllDigits(m) && ParseDecimal(m) == d.month by {
      assert Pow10(2) == 100;
      PaddedDecimal(d.month, 2);
    }
    assert |dd| == 2 && AllDigits(dd) && ParseDecimal(dd) == d.day by {
      assert Pow10(2) == 100;
      PaddedDecimal(d.day, 2);
    }
    DashedFields(y, m, dd);
  }

  lemma DashedFields(y: string, m: string, dd: string)
    requires |y| == 4 && |m| == 2 && |dd| == 2
    requires AllDigits(y) && AllDigits(m) && AllDigits(dd)
    ensures |y + "-" + m + "-" + dd| == 10
    ensures (y + "-" + m + "-" + dd)[4] == '-' && (y + "-" + m + "-" + dd)[7] == '-'
    ensures ParseDate(y + "-" + m + "-" + dd) == Some(Date(ParseDecimal(y), ParseDecimal(m), ParseDecimal(dd)))
  {
    var s := y + "-" + m + "-" + dd;
    assert s[..4] == y && s[5..7] == m && s[8..] == dd;
  }

  /** A JSON scalar as a loosely typed record holds it. */
  datatype Value = Str(s: string) | Int(i: int) | Bool(b: bool) | Null

  /** Python's `str(v)` (equally the f-string rendering `{v}`). */
  function Show(v: Value): string {
    match v
    case Str(s) => s
    case Int(i) => IntToDecimal(i)
    case Bool(b) => if b then "True" else "False"
    case Null => "None"
  }

  /** `d.get(key, "-")` followed by `str(...)`. */
  function ShowOr(v: Option<Value>): string {
    match v
    case Some(x) => Show(x)
    case None => "-"
  }

  /** The four income sub-components of one assessment. */
  datatype IncomeBreakdown = IncomeBreakdown(employment: int, trade: int, rent: int, interest: int)

  /** One yearly Notice-of-Assessment entry; every key may be absent. */
  datatype Assessment = Assessment(
    year: Option<Value>,
    kind: Option<Value>,
    assessableIncome: Option<Value>,
    incomeBreakdown: Option<IncomeBreakdown>)

  /**
   * A customer profile: the scalar keys of the record, and the
   * `notice_of_assessment` list (absent when the record has no such key).
   */
  datatype Customer = Customer(fields: map<string, Value>, noticeOfAssessment: Option<seq<Assessment>>)
}
