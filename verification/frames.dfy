/**
 * The frame transformations of the dashboard: the inclusive date-range
 * filter of the loader, the renamed and capped display frame, and the
 * per-day submission counts that feed the chart.
 */
module Frames {
  import opened Text
  import opened Records

  /** `start_date <= d <= end_date` on calendar dates, both ends included. */
  predicate InRange(d: Date, start: Date, end: Date) {
    NotAfter(start, d) && NotAfter(d, end)
  }

  /**
   * The submissions whose `created_at` falls on a day in [start, end], in
   * their original order (`df.loc[mask].reset_index(drop=True)`). An empty
   * record list gives an empty frame.
   */
  function LoadSubmissions(records: seq<Submission>, start: Date, end: Date): (r: seq<Submission>)
    ensures |r| <= |records|
    ensures forall i :: 0 <= i < |r| ==> InRange(r[i].createdAt.date, start, end)
  {
    if records == [] then []
    else
      var init, last := records[..|records| - 1], records[|records| - 1];
      LoadSubmissions(init, start, end) + (if InRange(last.createdAt.date, start, end) then [last] else [])
  }

  /** Every record in range is kept as often as it occurs, and no other record is. */
  lemma {:induction false} LoadSubmissionsKeeps(records: seq<Submission>, start: Date, end: Date)
    ensures forall x ::
      multiset(LoadSubmissions(records, start, end))[x]
        == (if InRange(x.createdAt.date, start, end) then multiset(records)[x] else 0)
    decreases |records|
  {
    if records != [] {
      var init, last := records[..|records| - 1], records[|records| - 1];
      assert records == init + [last];
      LoadSubmissionsKeeps(init, start, end);
    }
  }

  /** Filtering commutes with concatenation: the relative order of kept records never changes. */
  lemma {:induction false} LoadSubmissionsAppend(a: seq<Submission>, b: seq<Submission>, start: Date, end: Date)
    ensures LoadSubmissions(a + b, start, end) == LoadSubmissions(a, start, end) + LoadSubmissions(b, start, end)
    decreases |b|
  {
    if b == [] {
      assert a + b == a;
    } else {
      var init, last := b[..|b| - 1], b[|b| - 1];
      assert (a + b)[..|a + b| - 1] == a + init;
      assert (a + b)[|a + b| - 1] == last;
      LoadSubmissionsAppend(a, init, start, end);
      AppendAssoc(LoadSubmissions(a, start, end), LoadSubmissions(init, start, end),
        if InRange(last.createdAt.date, start, end) then [last] else []);
    }
  }

  /** A record is kept exactly when its day lies in the range; filtering a filtered frame changes nothing. */
  lemma {:induction false} LoadSubmissionsIdempotent(records: seq<Submission>, start: Date, end: Date)
    ensures LoadSubmissions(LoadSubmissions(records, start, end), start, end) == LoadSubmissions(records, start, end)
    decreases |records|
  {
    if records != [] {
      var init, last := records[..|records| - 1], records[|records| - 1];
      LoadSubmissionsIdempotent(init, start, end);
      var kept := if InRange(last.createdAt.date, start, end) then [last] else [];
      LoadSubmissionsAppend(LoadSubmissions(init, start, end), kept, start, end);
      if kept != [] {
        assert LoadSubmissions(kept, start, end) == LoadSubmissions([], start, end) + kept;
      }
    }
  }

  /** With the start after the end no day qualifies. */
  lemma InvertedRangeIsEmpty(records: seq<Submission>, start: Date, end: Date)
    requires Precedes(end, start)
    ensures LoadSubmissions(records, start, end) == []
  {
    var r := LoadSubmissions(records, start, end);
    if r != [] {
      var d := r[0].createdAt.date;
      PrecedesIsStrictTotalOrder(start, d, end);
      PrecedesIsStrictTotalOrder(end, start, d);
    }
  }

  /** How `load_submissions` behaves as written; see `LoadSubmissions` for the intended behaviour. */
  datatype Loaded = Frame(rows: seq<Submission>) | KeyError(column: string)

  /**
   * `pd.DataFrame([])` has no `created_at` column, so the loader raises
   * `KeyError` when the source returns no records at all.
   */
  function LoadSubmissionsAsWritten(records: seq<Submission>, start: Date, end: Date): (r: Loaded)
    ensures r.KeyError? <==> records == []
    ensures r.Frame? ==> |r.rows| <= |records|
  {
    if records == [] then KeyError("created_at") else Frame(LoadSubmissions(records, start, end))
  }

  /** The discrepancy: an empty source raises instead of giving an empty frame. */
  lemma EmptySourceRaises(start: Date, end: Date)
    ensures LoadSubmissionsAsWritten([], start, end) == KeyError("created_at")
    ensures LoadSubmissions([], start, end) == []
  {
  }

  /** A row of the display frame: `id` dropped, columns renamed. */
  datatype DisplayRow = DisplayRow(nric: string, customerName: string, nationality: string, submittedOn: Timestamp)

  /** Rows beyond this many never reach the on-screen table or the PDF (`head(10)`). */
  const DisplayLimit: nat := 10

  function ToDisplayRow(s: Submission): DisplayRow {
    DisplayRow(s.nricFin, s.principalName, s.nationality, s.createdAt)
  }

  function RenameColumns(df: seq<Submission>): (r: seq<DisplayRow>)
    ensures |r| == |df|
    ensures forall i :: 0 <= i < |df| ==> r[i] == ToDisplayRow(df[i])
  {
    if df == [] then [] else [ToDisplayRow(df[0])] + RenameColumns(df[1..])
  }

  /** `df.rename(...).drop(columns=["id"]).head(10)`. */
  function DisplayFrame(df: seq<Submission>): (r: seq<DisplayRow>)
    ensures |r| == Min(|df|, DisplayLimit)
    ensures forall i :: 0 <= i < |r| ==> r[i] == ToDisplayRow(df[i])
  {
    var renamed := RenameColumns(df);
    renamed[..Min(|renamed|, DisplayLimit)]
  }

  /** Only the first ten rows matter: appending rows after ten changes nothing displayed. */
  lemma DisplayFrameIgnoresTail(a: seq<Submission>, b: seq<Submission>)
    requires |a| >= DisplayLimit
    ensures DisplayFrame(a + b) == DisplayFrame(a)
  {
    var l, r := DisplayFrame(a + b), DisplayFrame(a);
    assert |l| == |r|;
    forall i | 0 <= i < |l| ensures l[i] == r[i] {
      assert (a + b)[i] == a[i];
    }
  }

  /** One bar of the chart: a day and the number of submissions on it. */
  datatype DayCount = DayCount(day: Date, submissions: nat)

  /** Consecutive buckets are on strictly increasing days. */
  predicate Ascending(b: seq<DayCount>) {
    forall i :: 0 <= i < |b| - 1 ==> Precedes(b[i].day, b[i + 1].day)
  }

  predicate Positive(b: seq<DayCount>) {
    forall i :: 0 <= i < |b| ==> b[i].submissions > 0
  }

  /** The count the buckets record for day `x` (summed over all buckets of that day). */
  function Tally(b: seq<DayCount>, x: Date): nat {
    if b == [] then 0 else (if b[0].day == x then b[0].submissions else 0) + Tally(b[1..], x)
  }

  function Total(b: seq<DayCount>): nat {
    if b == [] then 0 else b[0].submissions + Total(b[1..])
  }

  /** The number of submissions created on day `x`. */
  function Occurrences(records: seq<Submission>, x: Date): nat {
    if records == [] then 0
    else Occurrences(records[..|records| - 1], x) + (if records[|records| - 1].createdAt.date == x then 1 else 0)
  }

  /** Counts one more submission on day `d`, keeping the buckets in day order. */
  function AddDay(b: seq<DayCount>, d: Date): (r: seq<DayCount>)
    requires Ascending(b)
    ensures Ascending(r)
    ensures r != [] && (r[0].day == d || (b != [] && r[0].day == b[0].day))
    ensures forall x :: Tally(r, x) == Tally(b, x) + (if x == d then 1 else 0)
    ensures Total(r) == Total(b) + 1
    ensures Positive(b) ==> Positive(r)
  {
    if b == [] then [DayCount(d, 1)]
    else if b[0].day == d then [DayCount(d, b[0].submissions + 1)] + b[1..]
    else if Precedes(d, b[0].day) then [DayCount(d, 1)] + b
    else
      PrecedesIsStrictTotalOrder(d, b[0].day, d);
      [b[0]] + AddDay(b[1..], d)
  }

  /**
   * `df.groupby(day).size()`: one bucket per day that has submissions,
   * days ascending, each holding the number of submissions of its day.
   */
  function DailyCounts(records: seq<Submission>): (r: seq<DayCount>)
    ensures Ascending(r) && Positive(r)
    ensures Total(r) == |records|
    ensures forall x :: Tally(r, x) == Occurrences(records, x)
  {
    if records == [] then []
    else AddDay(DailyCounts(records[..|records| - 1]), records[|records| - 1].createdAt.date)
  }

  /** In day order, no bucket before or after `x` can hold day `x`. */
  lemma {:induction false} TallyAfter(b: seq<DayCount>, x: Date)
    requires Ascending(b) && b != [] && Precedes(x, b[0].day)
    ensures Tally(b, x) == 0
    decreases |b|
  {
    if |b| > 1 {
      PrecedesIsStrictTotalOrder(x, b[0].day, b[1].day);
      TallyAfter(b[1..], x);
    }
  }

  lemma {:induction false} TallyAt(b: seq<DayCount>, i: nat)
    requires Ascending(b) && i < |b|
    ensures Tally(b, b[i].day) == b[i].submissions
    decreases |b|
  {
    if i == 0 {
      if |b| > 1 { TallyAfter(b[1..], b[0].day); }
    } else {
      TallyAt(b[1..], i - 1);
      AscendingPairwise(b, 0, i);
    }
  }

  lemma {:induction false} AscendingPairwise(b: seq<DayCount>, i: nat, j: nat)
    requires Ascending(b) && i < j < |b|
    ensures Precedes(b[i].day, b[j].day)
    decreases j - i
  {
    if i + 1 < j {
      AscendingPairwise(b, i + 1, j);
      PrecedesIsStrictTotalOrder(b[i].day, b[i + 1].day, b[j].day);
    }
  }

  lemma {:induction false} TallyPositiveHasBucket(b: seq<DayCount>, x: Date)
    requires Tally(b, x) > 0
    ensures exists i :: 0 <= i < |b| && b[i].day == x
    decreases |b|
  {
    if b[0].day != x {
      TallyPositiveHasBucket(b[1..], x);
      var i :| 0 <= i < |b[1..]| && b[1..][i].day == x;
      assert b[i + 1].day == x;
    }
  }

  /**
   * The daily buckets are exactly the days that have submissions, each with
   * its number of submissions, in strictly ascending day order, and their
   * counts sum to the number of filtered rows.
   */
  lemma DailyCountsCorrect(records: seq<Submission>)
    ensures forall i, j :: 0 <= i < j < |DailyCounts(records)| ==>
      Precedes(DailyCounts(records)[i].day, DailyCounts(records)[j].day)
    ensures forall i :: 0 <= i < |DailyCounts(records)| ==>
      DailyCounts(records)[i].submissions == Occurrences(records, DailyCounts(records)[i].day) > 0
    ensures forall x :: Occurrences(records, x) > 0 ==>
      exists i :: 0 <= i < |DailyCounts(records)| && DailyCounts(records)[i].day == x
    ensures Total(DailyCounts(records)) == |records|
  {
    var r := DailyCounts(records);
    forall i, j | 0 <= i < j < |r| ensures Precedes(r[i].day, r[j].day) {
      AscendingPairwise(r, i, j);
    }
    forall i | 0 <= i < |r| ensures r[i].submissions == Occurrences(records, r[i].day) {
      TallyAt(r, i);
    }
    forall x | Occurrences(records, x) > 0
      ensures exists i :: 0 <= i < |r| && r[i].day == x
    {
      TallyPositiveHasBucket(r, x);
    }
  }
}
