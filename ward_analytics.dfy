/** The ward CLABSI-rate derivation that the ward-analytics service performs on
    the rows it reads: a CLABSI rate per 1000 central-line days for each row,
    and the percent reduction from the oldest row's rate to the latest one's.
    The rows come from storage ordered by date, newest first.
 */
module WardAnalytics {
  import opened Rounding

  /** One ward_analytics row; the date is an abstract day number. */
  datatype WardRow = WardRow(date: int, clabsiCases: nat, totalCentralLineDays: int)

  /** derivedRate of a new record: cases * 1000 / line days, 0 without line days. */
  function DerivedRate(clabsiCases: nat, totalCentralLineDays: int): (r: real)
    ensures totalCentralLineDays <= 0 ==> r == 0.0
    ensures totalCentralLineDays > 0 ==> r * totalCentralLineDays as real == clabsiCases as real * 1000.0
    ensures r >= 0.0
  {
    if totalCentralLineDays > 0 then (clabsiCases * 1000) as real / totalCentralLineDays as real else 0.0
  }

  /** clabsiRate of a row read back: the same rule, with the value rounded by
      toFixed(2) when there are line days. */
  function RowRate(row: WardRow): (r: real)
    ensures r >= 0.0
    ensures row.totalCentralLineDays <= 0 ==> r == 0.0
  {
    if row.totalCentralLineDays > 0 then ToFixed2((row.clabsiCases * 1000) as real / row.totalCentralLineDays as real)
    else 0.0
  }

  /** The rate read back is the rate stored on creation, rounded to two decimals. */
  lemma RowRateIsRoundedDerivedRate(row: WardRow)
    ensures RowRate(row) == Round2(DerivedRate(row.clabsiCases, row.totalCentralLineDays))
  {
    Round2OfCents(0);
  }

  /** rows.map(row => ({ ...row, clabsiRate })): one rate per row, in order. */
  function ClabsiRates(rows: seq<WardRow>): (rates: seq<real>)
    ensures |rates| == |rows|
    ensures forall i :: 0 <= i < |rows| ==> rates[i] == RowRate(rows[i])
  {
    seq(|rows|, i requires 0 <= i < |rows| => RowRate(rows[i]))
  }

  /** ORDER BY date DESC: each row is no newer than the one before it. */
  predicate NewestFirst(rows: seq<WardRow>) {
    forall i :: 0 < i < |rows| ==> rows[i].date <= rows[i - 1].date
  }

  /** In a newest-first sequence the first row is the latest. */
  lemma {:induction false} FirstIsLatest(rows: seq<WardRow>, i: nat)
    requires NewestFirst(rows) && i < |rows|
    ensures rows[i].date <= rows[0].date
  {
    if i > 0 {
      FirstIsLatest(rows, i - 1);
    }
  }

  /** In a newest-first sequence the last row is the oldest. */
  lemma {:induction false} LastIsOldest(rows: seq<WardRow>, i: nat)
    requires NewestFirst(rows) && i < |rows|
    ensures rows[|rows| - 1].date <= rows[i].date
    decreases |rows| - i
  {
    if i < |rows| - 1 {
      LastIsOldest(rows, i + 1);
    }
  }

  /** Over date-descending rows, the two rates the reduction compares belong to
      the rows with the latest and the oldest dates. */
  lemma ReductionSpansDateRange(rows: seq<WardRow>)
    requires NewestFirst(rows)
    ensures forall i :: 0 <= i < |rows| ==> rows[|rows| - 1].date <= rows[i].date <= rows[0].date
  {
    forall i | 0 <= i < |rows|
      ensures rows[|rows| - 1].date <= rows[i].date <= rows[0].date
    {
      FirstIsLatest(rows, i);
      LastIsOldest(rows, i);
    }
  }

  /** What the GET handler returns besides the rows themselves. */
  datatype WardTrend = WardTrend(data: seq<real>, percentReduction: real, totalDays: nat)

  /** The derivation of GET: rates per row, then percentReduction, reassigned
      only when there are two rows or more and the oldest rate is positive. */
  method ComputeWardTrend(rows: seq<WardRow>) returns (t: WardTrend)
    ensures t.data == ClabsiRates(rows)
    ensures t.totalDays == |rows|
    ensures |rows| < 2 ==> t.percentReduction == 0.0
    ensures |rows| >= 2 && RowRate(rows[|rows| - 1]) <= 0.0 ==> t.percentReduction == 0.0
    ensures |rows| >= 2 && RowRate(rows[|rows| - 1]) > 0.0 ==>
              var oldest, latest := RowRate(rows[|rows| - 1]), RowRate(rows[0]);
              t.percentReduction == ToFixed2((oldest - latest) / oldest * 100.0)
    ensures t.percentReduction <= 100.0
    ensures t.percentReduction > 0.0 ==> |rows| >= 2 && RowRate(rows[0]) < RowRate(rows[|rows| - 1])
    ensures t.percentReduction < 0.0 ==> |rows| >= 2 && RowRate(rows[0]) > RowRate(rows[|rows| - 1])
  {
    var data := ClabsiRates(rows);
    var percentReduction := 0.0;
    if |data| > 1 {
      var oldestRate := data[|data| - 1];
      var latestRate := data[0];
      if oldestRate > 0.0 {
        var exact := (oldestRate - latestRate) / oldestRate * 100.0;
        ReductionFacts(oldestRate, latestRate);
        percentReduction := ToFixed2(exact);
      }
    }
    t := WardTrend(data, percentReduction, |data|);
  }

  /** (oldest - latest) / oldest * 100 for a positive oldest rate and a
      non-negative latest rate: at most 100 after rounding, and its sign is
      that of oldest - latest. */
  lemma ReductionFacts(oldest: real, latest: real)
    requires oldest > 0.0 && latest >= 0.0
    ensures var exact := (oldest - latest) / oldest * 100.0;
            && exact <= 100.0
            && (exact > 0.0 <==> latest < oldest)
            && (exact < 0.0 <==> latest > oldest)
            && ToFixed2(exact) <= 100.0
  {
    var exact := (oldest - latest) / oldest * 100.0;
    assert exact * oldest == (oldest - latest) * 100.0;
    assert exact * oldest <= 100.0 * oldest;
    ToFixed2AtMost100(exact);
  }

  /** The rounded reduction can be 0 although the latest rate is below the
      oldest: a drop from 100000 to 99999.99 is a reduction of 0.00001 percent. */
  lemma SmallDropRoundsToZero()
    ensures var rows := [WardRow(2, 9999999, 100000), WardRow(1, 100000, 1000)];
            RowRate(rows[0]) < RowRate(rows[1])
            && ToFixed2((RowRate(rows[1]) - RowRate(rows[0])) / RowRate(rows[1]) * 100.0) == 0.0
  {
    Round2OfCents(9999999);
    Round2OfCents(10000000);
    assert RowRate(WardRow(2, 9999999, 100000)) == 99999.99;
    assert RowRate(WardRow(1, 100000, 1000)) == 100000.0;
    var exact := (100000.0 - 99999.99) / 100000.0 * 100.0;
    assert exact == 0.00001;
    FloorIs(exact * 100.0 + 0.5, 0);
  }

  /** The demo ward data, newest first: rates 0, 20, 20.83 and 44.44 per 1000
      line days, so the reduction from the oldest row to the latest is 100 percent. */
  lemma ExampleDemoWard()
    ensures var rows := [WardRow(30, 0, 52), WardRow(20, 1, 50), WardRow(10, 1, 48), WardRow(0, 2, 45)];
            && NewestFirst(rows)
            && ClabsiRates(rows) == [0.0, 20.0, 20.83, 44.44]
            && var rates := ClabsiRates(rows);
               ToFixed2((rates[3] - rates[0]) / rates[3] * 100.0) == 100.0
  {
    Round2OfCents(0);
    Round2OfCents(2000);
    Round2OfCents(10000);
    FloorIs(1000.0 / 48.0 * 100.0 + 0.5, 2083);
    FloorIs(2000.0 / 45.0 * 100.0 + 0.5, 4444);
  }
}
