/**
 * AnalyticsService: the trailing moving average of a chronologically sorted
 * series, anomaly flags against the population standard deviation of the
 * whole input, and the summary built from both.
 *
 * The source builds a list of mutable AnalyticsResult objects and then
 * updates IsAnomaly, DeviationFromAverage and AnomalyReason on them in a
 * foreach loop.  Here a result is a value and the loop replaces the i-th
 * element of the list by its updated copy.
 */
module Analytics {
  import opened Numeric
  import opened EnergyReading
  import opened Series

  /** The two wordings of AnomalyReason; each carries the figures its message prints. */
  datatype AnomalyReason =
    | Above(amount: real)                       // "Consumption .. kWh above 7-day average"
    | Below(amount: real)                       // "Consumption .. kWh below 7-day average"
    | HighConsumption(amount: real, average: real)  // "High consumption: .. above .. (avg)"
    | LowConsumption(amount: real, average: real)   // "Low consumption: .. below .. (avg)"
  {
    predicate IsAbove() { Above? || HighConsumption? }
  }

  /** Which of the two marking loops wrote the reason. */
  datatype ReasonStyle = Brief | Detailed

  datatype AnalyticsResult = AnalyticsResult(
    date: int,
    kwhConsumption: real,
    movingAverage7Day: Option<real>,
    isAnomaly: bool,
    deviationFromAverage: Option<real>,
    anomalyReason: Option<AnomalyReason>)

  datatype AnalyticsSummary = AnalyticsSummary(
    totalEnergyUsed: real,
    averageDailyUse: real,
    numberOfAnomalies: int,
    dailyResults: seq<AnalyticsResult>,
    fromDate: int,
    toDate: int)

  const DefaultWindowSize: int := 7
  const DefaultThreshold: real := 1.5

  // ------------------------------------------------------------ specification

  /** Mean of the windowSize values ending at i (inclusive), unset while fewer precede it. */
  function MovingAverageAt(values: seq<real>, windowSize: int, i: int): Option<real>
    requires windowSize >= 1 && 0 <= i < |values|
  {
    if i < windowSize - 1 then None else Some(Mean(values[i - windowSize + 1..i + 1]))
  }

  function Reason(style: ReasonStyle, deviation: real, average: real): (r: AnomalyReason)
    ensures r.IsAbove() <==> deviation > 0.0
  {
    match style
    case Brief => if deviation > 0.0 then Above(deviation) else Below(Abs(deviation))
    case Detailed =>
      if deviation > 0.0 then HighConsumption(deviation, average) else LowConsumption(Abs(deviation), average)
  }

  /** The anomaly criterion: |deviation| > threshold * stdDev. */
  predicate Exceeds(deviation: real, threshold: real, stdDev: real)
  {
    Abs(deviation) > threshold * stdDev
  }

  /** What one pass of the marking loop leaves of result `before`. */
  ghost predicate Marked(before: AnalyticsResult, after: AnalyticsResult, threshold: real, stdDev: real, style: ReasonStyle)
  {
    && after.date == before.date
    && after.kwhConsumption == before.kwhConsumption
    && after.movingAverage7Day == before.movingAverage7Day
    && (before.movingAverage7Day.None? ==> after == before)
    && (before.movingAverage7Day.Some? ==>
          var dev := before.kwhConsumption - before.movingAverage7Day.value;
          && after.deviationFromAverage == Some(dev)
          && after.isAnomaly == (before.isAnomaly || Exceeds(dev, threshold, stdDev))
          && after.anomalyReason ==
               (if Exceeds(dev, threshold, stdDev)
                then Some(Reason(style, dev, before.movingAverage7Day.value))
                else before.anomalyReason))
  }

  /** The final record at a sorted position: moving average, then the anomaly fields. */
  function Annotated(reading: DailyReading, ma: Option<real>, threshold: real, stdDev: real, style: ReasonStyle): AnalyticsResult
  {
    match ma
    case None => AnalyticsResult(reading.date, reading.kwh, None, false, None, None)
    case Some(m) =>
      var dev := reading.kwh - m;
      var flagged := Exceeds(dev, threshold, stdDev);
      AnalyticsResult(reading.date, reading.kwh, Some(m), flagged, Some(dev),
                      if flagged then Some(Reason(style, dev, m)) else None)
  }

  /** The record at sorted position i of the anomaly-annotated series. */
  function AnnotatedAt(sorted: seq<DailyReading>, windowSize: int, threshold: real, stdDev: real, style: ReasonStyle, i: int): AnalyticsResult
    requires windowSize >= 1 && 0 <= i < |sorted|
  {
    Annotated(sorted[i], MovingAverageAt(Kwhs(sorted), windowSize, i), threshold, stdDev, style)
  }

  /** The record CalculateMovingAverageAsync makes at sorted position i: not yet examined for anomalies. */
  function MovingAverageResult(sorted: seq<DailyReading>, windowSize: int, i: int): AnalyticsResult
    requires windowSize >= 1 && 0 <= i < |sorted|
  {
    AnalyticsResult(sorted[i].date, sorted[i].kwh, MovingAverageAt(Kwhs(sorted), windowSize, i), false, None, None)
  }

  function CountAnomalies(results: seq<AnalyticsResult>): (n: nat)
    ensures n <= |results|
  {
    if |results| == 0 then 0
    else CountAnomalies(results[..|results| - 1]) + (if results[|results| - 1].isAnomaly then 1 else 0)
  }

  // ------------------------------------------------------------- operations

  /** CalculateMovingAverageAsync: one unflagged result per reading, in date order. */
  method CalculateMovingAverage(energyData: seq<DailyReading>, windowSize: int) returns (results: seq<AnalyticsResult>)
    requires windowSize >= 1 || |energyData| == 0
    ensures |results| == |energyData|
    ensures forall i, j :: 0 <= i < j < |results| ==> results[i].date <= results[j].date
    ensures forall i :: 0 <= i < |results| ==> results[i] == MovingAverageResult(SortByDate(energyData), windowSize, i)
  {
    results := [];
    var sortedData := SortByDate(energyData);
    for i := 0 to |sortedData|
      invariant |results| == i
      invariant forall j :: 0 <= j < i ==> results[j] == MovingAverageResult(sortedData, windowSize, j)
    {
      var current := sortedData[i];
      var movingAverage: Option<real> := None;
      if i >= windowSize - 1 {
        var window := sortedData[i - windowSize + 1..i + 1];
        movingAverage := Some(Mean(Kwhs(window)));
      }
      WindowMean(sortedData, windowSize, i);
      results := results + [AnalyticsResult(current.date, current.kwh, movingAverage, false, None, None)];
    }
  }

  /** The window of the loop is the slice MovingAverageAt averages. */
  lemma WindowMean(sorted: seq<DailyReading>, windowSize: int, i: int)
    requires windowSize >= 1 && 0 <= i < |sorted|
    ensures MovingAverageAt(Kwhs(sorted), windowSize, i) ==
      if i >= windowSize - 1 then Some(Mean(Kwhs(sorted[i - windowSize + 1..i + 1]))) else None
  {
    if i >= windowSize - 1 {
      KwhsSlice(sorted, i - windowSize + 1, i + 1);
    }
  }

  /** The foreach loop shared by DetectAnomaliesAsync and CalculateMovingAverageAndAnomaliesAsync. */
  method MarkAnomalies(results: seq<AnalyticsResult>, threshold: real, stdDev: real, style: ReasonStyle)
    returns (marked: seq<AnalyticsResult>)
    ensures |marked| == |results|
    ensures forall i :: 0 <= i < |results| ==> Marked(results[i], marked[i], threshold, stdDev, style)
  {
    marked := results;
    for i := 0 to |marked|
      invariant |marked| == |results|
      invariant forall j :: 0 <= j < i ==> Marked(results[j], marked[j], threshold, stdDev, style)
      invariant forall j :: i <= j < |marked| ==> marked[j] == results[j]
    {
      var result := marked[i];
      if result.movingAverage7Day.Some? {
        var deviation := result.kwhConsumption - result.movingAverage7Day.value;
        result := result.(deviationFromAverage := Some(deviation));
        if Abs(deviation) > threshold * stdDev {
          result := result.(isAnomaly := true,
                            anomalyReason := Some(Reason(style, deviation, result.movingAverage7Day.value)));
        }
        marked := marked[i := result];
      }
    }
  }

  /** DetectAnomaliesAsync: 7-day moving average, then flags at the caller's threshold. */
  method DetectAnomalies(energyData: seq<DailyReading>, threshold: real, stdDev: real)
    returns (results: seq<AnalyticsResult>)
    requires |energyData| > 0
    requires IsStdDev(stdDev, Kwhs(energyData))
    ensures |results| == |energyData|
    ensures var sorted := SortByDate(energyData);
      forall i :: 0 <= i < |results| ==>
        results[i] == AnnotatedAt(sorted, DefaultWindowSize, threshold, stdDev, Brief, i)
  {
    var averaged := CalculateMovingAverage(energyData, DefaultWindowSize);
    results := MarkAnomalies(averaged, threshold, stdDev, Brief);
    forall i | 0 <= i < |results|
      ensures results[i] == AnnotatedAt(SortByDate(energyData), DefaultWindowSize, threshold, stdDev, Brief, i)
    {
      MarkedIsAnnotated(SortByDate(energyData), DefaultWindowSize, threshold, stdDev, Brief, i, results[i]);
    }
  }

  /** CalculateMovingAverageAndAnomaliesAsync: the same with the threshold fixed at 1.5. */
  method CalculateMovingAverageAndAnomalies(energyData: seq<DailyReading>, stdDev: real)
    returns (results: seq<AnalyticsResult>)
    requires |energyData| > 0
    requires IsStdDev(stdDev, Kwhs(energyData))
    ensures |results| == |energyData|
    ensures var sorted := SortByDate(energyData);
      forall i :: 0 <= i < |results| ==>
        results[i] == AnnotatedAt(sorted, DefaultWindowSize, DefaultThreshold, stdDev, Detailed, i)
  {
    var averaged := CalculateMovingAverage(energyData, DefaultWindowSize);
    results := MarkAnomalies(averaged, DefaultThreshold, stdDev, Detailed);
    forall i | 0 <= i < |results|
      ensures results[i] == AnnotatedAt(SortByDate(energyData), DefaultWindowSize, DefaultThreshold, stdDev, Detailed, i)
    {
      MarkedIsAnnotated(SortByDate(energyData), DefaultWindowSize, DefaultThreshold, stdDev, Detailed, i, results[i]);
    }
  }

  /** Marking the fresh moving-average record yields the annotated record. */
  lemma MarkedIsAnnotated(sorted: seq<DailyReading>, windowSize: int, threshold: real, stdDev: real, style: ReasonStyle,
                          i: int, after: AnalyticsResult)
    requires windowSize >= 1 && 0 <= i < |sorted|
    requires Marked(MovingAverageResult(sorted, windowSize, i), after, threshold, stdDev, style)
    ensures after == AnnotatedAt(sorted, windowSize, threshold, stdDev, style, i)
  {
  }

  /** The summary every consumer relies on: totals over the raw input and a consistent anomaly count. */
  ghost predicate SummaryOf(summary: AnalyticsSummary, energyData: seq<DailyReading>)
  {
    && |summary.dailyResults| == |energyData|
    && summary.numberOfAnomalies == CountAnomalies(summary.dailyResults)
    && summary.totalEnergyUsed == Sum(Kwhs(energyData))
    && summary.averageDailyUse == (if |energyData| == 0 then 0.0 else Mean(Kwhs(energyData)))
  }

  /** AnalyzeEnergyDataAsync after the fetch. */
  method AnalyzeEnergyData(energyData: seq<DailyReading>, fromDate: int, toDate: int, stdDev: real)
    returns (summary: AnalyticsSummary)
    requires IsStdDev(stdDev, Kwhs(energyData))
    ensures summary.fromDate == fromDate && summary.toDate == toDate
    ensures SummaryOf(summary, energyData)
    ensures |energyData| == 0 ==>
      summary == AnalyticsSummary(0.0, 0.0, 0, [], fromDate, toDate)
    ensures var sorted := SortByDate(energyData);
      forall i :: 0 <= i < |summary.dailyResults| ==>
        summary.dailyResults[i] == AnnotatedAt(sorted, DefaultWindowSize, DefaultThreshold, stdDev, Detailed, i)
  {
    if |energyData| == 0 {
      return AnalyticsSummary(0.0, 0.0, 0, [], fromDate, toDate);
    }
    var results := CalculateMovingAverageAndAnomalies(energyData, stdDev);
    summary := AnalyticsSummary(
      Sum(Kwhs(energyData)),
      Mean(Kwhs(energyData)),
      CountAnomalies(results),
      results,
      fromDate,
      toDate);
  }

  // ----------------------------------------------------------------- lemmas

  /** Without a moving average a day is never flagged and keeps no deviation. */
  lemma NoAverageNoAnomaly(reading: DailyReading, threshold: real, stdDev: real, style: ReasonStyle)
    ensures var r := Annotated(reading, None, threshold, stdDev, style);
      !r.isAnomaly && r.deviationFromAverage.None? && r.anomalyReason.None?
  {
  }

  /** With a moving average m the deviation is consumption - m, flagged iff it exceeds threshold * sigma,
      and the reason says "above" exactly when the deviation is positive. */
  lemma AnomalyCriterion(reading: DailyReading, m: real, threshold: real, stdDev: real, style: ReasonStyle)
    ensures var r := Annotated(reading, Some(m), threshold, stdDev, style);
      && r.deviationFromAverage == Some(reading.kwh - m)
      && (r.isAnomaly <==> Abs(reading.kwh - m) > threshold * stdDev)
      && (r.anomalyReason.Some? <==> r.isAnomaly)
      && (r.isAnomaly ==> (r.anomalyReason.value.IsAbove() <==> reading.kwh > m))
  {
  }

  /** The first windowSize - 1 sorted positions have no moving average and are never flagged. */
  lemma EarlyDaysNeverFlagged(sorted: seq<DailyReading>, windowSize: int, threshold: real, stdDev: real, style: ReasonStyle, i: int)
    requires windowSize >= 1 && 0 <= i < |sorted| && i < windowSize - 1
    ensures !AnnotatedAt(sorted, windowSize, threshold, stdDev, style, i).isAnomaly
    ensures AnnotatedAt(sorted, windowSize, threshold, stdDev, style, i).movingAverage7Day.None?
  {
  }

  /** The count of flagged results, read position by position. */
  lemma {:induction false} CountAnomaliesZero(results: seq<AnalyticsResult>)
    ensures CountAnomalies(results) == 0 <==> forall i :: 0 <= i < |results| ==> !results[i].isAnomaly
  {
    if |results| > 0 {
      var front := results[..|results| - 1];
      CountAnomaliesZero(front);
      assert forall i :: 0 <= i < |front| ==> front[i] == results[i];
    }
  }

  /** With fewer than windowSize readings no anomaly can be reported. */
  lemma {:induction false} ShortSeriesHasNoAnomalies(summary: AnalyticsSummary, energyData: seq<DailyReading>, stdDev: real)
    requires SummaryOf(summary, energyData)
    requires |energyData| < DefaultWindowSize
    requires forall i :: 0 <= i < |summary.dailyResults| ==>
      summary.dailyResults[i] == AnnotatedAt(SortByDate(energyData), DefaultWindowSize, DefaultThreshold, stdDev, Detailed, i)
    ensures summary.numberOfAnomalies == 0
  {
    CountAnomaliesZero(summary.dailyResults);
  }

  /** A spike of 30 kWh after seven days at 10 kWh is flagged: the moving average at day 8 is 90/7
      (the window includes the day itself), the deviation 120/7, and 1.5 sigma is below 10. */
  lemma SpikeIsFlagged(sorted: seq<DailyReading>, stdDev: real)
    requires Kwhs(sorted) == [10.0, 10.0, 10.0, 10.0, 10.0, 10.0, 10.0, 30.0]
    requires IsStdDev(stdDev, Kwhs(sorted))
    ensures MovingAverageAt(Kwhs(sorted), DefaultWindowSize, 7) == Some(90.0 / 7.0)
    ensures AnnotatedAt(sorted, DefaultWindowSize, DefaultThreshold, stdDev, Detailed, 7).isAnomaly
  {
    var v := Kwhs(sorted);
    var w := v[1..8];
    assert w == [10.0, 10.0, 10.0, 10.0, 10.0, 10.0, 30.0];
    assert Sum(w) == 90.0 by {
      assert w[..6] == [10.0, 10.0, 10.0, 10.0, 10.0, 10.0];
      SumConstant(w[..6], 10.0);
    }
    assert Sum(v) == 100.0 by {
      assert v[..7] == [10.0, 10.0, 10.0, 10.0, 10.0, 10.0, 10.0];
      SumConstant(v[..7], 10.0);
    }
    assert SumSquaredDeviations(v, 12.5) == 350.0 by {
      assert v[..7] == [10.0, 10.0, 10.0, 10.0, 10.0, 10.0, 10.0];
      SevenEqualDeviations(v[..7]);
    }
    assert PopulationVariance(v) == 43.75;
    assert stdDev * stdDev == 43.75;
    assert stdDev < 7.0 by {
      assert (7.0 - stdDev) * (7.0 + stdDev) == 49.0 - stdDev * stdDev;
    }
  }

  lemma SevenEqualDeviations(s: seq<real>)
    requires s == [10.0, 10.0, 10.0, 10.0, 10.0, 10.0, 10.0]
    ensures SumSquaredDeviations(s, 12.5) == 43.75
  {
    SumSquaredDeviationsOfConstant(s, 10.0, 12.5);
  }
}
