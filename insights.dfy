/**
 * InsightsService: the rule-based synthesiser that turns a reading series,
 * its analytics summary, its forecast and a day-keyed weather map into a list
 * of typed insights, and the prioritised choice of an overall assessment.
 *
 * The four inputs are parameters: the source fetches them before it starts.
 * An insight's message is represented by its kind and the figures the message
 * prints; severities and trend directions are datatypes instead of strings.
 */
module Insights {
  import opened Numeric
  import opened EnergyReading
  import opened Series
  import opened Analytics
  import opened Forecasting
  import opened Weather

  datatype Severity = Info | Warning | Critical

  /** The three wordings of the forecast message. */
  datatype Outlook = Higher | Lower | Similar

  datatype InsightKind =
    | NoData
    | TotalConsumption(totalKwh: real, days: int)
    | AverageConsumption(avgKwh: real)
    | PeakConsumption(peakKwh: real, percentAboveAverage: real)
    | LowestConsumption(lowestKwh: real)
    | NoAnomalies
    | AnomalyDetected(anomalyCount: int)
    | SignificantAnomaly(deviation: real, consumption: real, reason: Option<AnomalyReason>)
    | WeatherImpact(avgTempHotDays: real, increasePercent: real, daysCount: int)
    | WeatherPattern(rainyDays: int, changePercent: real, higher: bool)
    | ConsumptionTrend(trend: TrendDirection, strength: real)
    | WeeklyComparison(lastWeekKwh: real, previousWeekKwh: real, weekChangePercent: real, increased: bool)
    | ForecastPrediction(avgForecastKwh: real, forecastChangePercent: real, outlook: Outlook)

  datatype Insight = Insight(kind: InsightKind, severity: Severity, relatedDate: Option<int>)

  /** The five assessment messages, with the figures they print. */
  datatype Assessment =
    | InsufficientData
    | CriticalAttention(criticalCount: int)
    | MonitorClosely(warningCount: int)
    | RisingTrend(averageDailyUse: real)
    | PositiveTrend(averageDailyUse: real)
    | NormalOperation(averageDailyUse: real, anomalies: int, days: int)

  datatype InsightsSummary = InsightsSummary(insights: seq<Insight>, overallAssessment: Assessment)

  const HotDayTemperature: real := 28.0

  /** (value / reference - 1) * 100, the percentage change every generator reports. */
  function PercentChange(value: real, reference: real): real
    requires reference != 0.0
  {
    (value / reference - 1.0) * 100.0
  }

  /** With a positive reference, the change exceeds t percent exactly when the value exceeds the
      reference scaled by 1 + t/100, and falls below -t percent exactly when the value is below the
      reference scaled by 1 - t/100. */
  lemma PercentChangeBands(value: real, reference: real, t: real)
    requires reference > 0.0
    ensures PercentChange(value, reference) > t <==> value > reference * (1.0 + t / 100.0)
    ensures PercentChange(value, reference) < -t <==> value < reference * (1.0 - t / 100.0)
  {
    var q := value / reference;
    assert value == q * reference;
    assert PercentChange(value, reference) == (q - 1.0) * 100.0;
    assert reference * (1.0 + t / 100.0) - value == reference * (1.0 + t / 100.0 - q);
    assert value - reference * (1.0 - t / 100.0) == reference * (q - 1.0 + t / 100.0);
    SignOfProduct(reference, 1.0 + t / 100.0 - q);
    SignOfProduct(reference, q - 1.0 + t / 100.0);
  }

  lemma SignOfProduct(a: real, b: real)
    requires a > 0.0
    ensures a * b > 0.0 <==> b > 0.0
  {
    if b > 0.0 {
      ProductPositive(a, b);
    } else if b < 0.0 {
      ProductPositive(a, -b);
    }
  }

  // ----------------------------------------------------------- selections

  /** OrderByDescending(k).First(): LINQ's sort is stable, so this is the first index of a maximum. */
  function FirstMax(keys: seq<real>): (k: int)
    requires |keys| > 0
    ensures 0 <= k < |keys|
    ensures forall j :: 0 <= j < |keys| ==> keys[j] <= keys[k]
    ensures forall j :: 0 <= j < k ==> keys[j] < keys[k]
  {
    if |keys| == 1 then 0
    else
      var front := keys[..|keys| - 1];
      var k := FirstMax(front);
      assert forall j :: 0 <= j < |front| ==> keys[j] == front[j];
      if keys[|keys| - 1] > keys[k] then |keys| - 1 else k
  }

  /** OrderBy(k).First(): the first index of a minimum. */
  function FirstMin(keys: seq<real>): (k: int)
    requires |keys| > 0
    ensures 0 <= k < |keys|
    ensures forall j :: 0 <= j < |keys| ==> keys[k] <= keys[j]
    ensures forall j :: 0 <= j < k ==> keys[k] < keys[j]
  {
    if |keys| == 1 then 0
    else
      var front := keys[..|keys| - 1];
      var k := FirstMin(front);
      assert forall j :: 0 <= j < |front| ==> keys[j] == front[j];
      if keys[|keys| - 1] < keys[k] then |keys| - 1 else k
  }

  /** Math.Abs(r.DeviationFromAverage ?? 0). */
  function Significance(r: AnalyticsResult): real
  {
    Abs(match r.deviationFromAverage case Some(d) => d case None => 0.0)
  }

  /** Where(r => r.IsAnomaly).OrderByDescending(Significance).FirstOrDefault(): the first flagged
      result of largest significance, None when nothing is flagged. */
  function SignificantIndex(results: seq<AnalyticsResult>): (k: Option<int>)
    ensures k.None? <==> forall j :: 0 <= j < |results| ==> !results[j].isAnomaly
    ensures k.Some? ==> 0 <= k.value < |results| && results[k.value].isAnomaly
    ensures k.Some? ==> forall j :: 0 <= j < |results| && results[j].isAnomaly ==>
      Significance(results[j]) <= Significance(results[k.value])
    ensures k.Some? ==> forall j :: 0 <= j < k.value && results[j].isAnomaly ==>
      Significance(results[j]) < Significance(results[k.value])
  {
    if |results| == 0 then None
    else
      var front := results[..|results| - 1];
      var last := results[|results| - 1];
      var k := SignificantIndex(front);
      assert forall j :: 0 <= j < |front| ==> results[j] == front[j];
      if !last.isAnomaly then k
      else if k.None? || Significance(last) > Significance(front[k.value]) then Some(|results| - 1)
      else k
  }

  // ------------------------------------------------------------ severities

  function CountSeverity(insights: seq<Insight>, s: Severity): (n: nat)
    ensures n <= |insights|
  {
    if |insights| == 0 then 0
    else CountSeverity(insights[..|insights| - 1], s) + (if insights[|insights| - 1].severity == s then 1 else 0)
  }

  predicate NoCritical(insights: seq<Insight>)
  {
    forall i :: 0 <= i < |insights| ==> insights[i].severity != Critical
  }

  lemma {:induction false} CountSeverityZero(insights: seq<Insight>, s: Severity)
    ensures CountSeverity(insights, s) == 0 <==> forall i :: 0 <= i < |insights| ==> insights[i].severity != s
  {
    if |insights| > 0 {
      var front := insights[..|insights| - 1];
      CountSeverityZero(front, s);
      assert forall i :: 0 <= i < |front| ==> insights[i] == front[i];
    }
  }

  lemma {:induction false} CountSeverityConcat(a: seq<Insight>, b: seq<Insight>, s: Severity)
    ensures CountSeverity(a + b, s) == CountSeverity(a, s) + CountSeverity(b, s)
  {
    if |b| == 0 {
      assert a + b == a;
    } else {
      assert (a + b)[..|a + b| - 1] == a + b[..|b| - 1];
      CountSeverityConcat(a, b[..|b| - 1], s);
    }
  }

  // ---------------------------------------------------- consumption insights

  /** GenerateConsumptionInsights: total, average, peak day and lowest day, all informational. */
  function ConsumptionInsights(energyData: seq<DailyReading>, analytics: AnalyticsSummary): (r: seq<Insight>)
    requires |energyData| > 0
    requires analytics.averageDailyUse != 0.0
    ensures |r| == 4 && NoCritical(r)
    ensures forall i :: 0 <= i < 4 ==> r[i].severity == Info
    ensures r[0].kind == TotalConsumption(analytics.totalEnergyUsed, |energyData|)
    ensures r[1].kind == AverageConsumption(analytics.averageDailyUse)
    ensures var p := energyData[FirstMax(Kwhs(energyData))];
      r[2] == Insight(PeakConsumption(p.kwh, PercentChange(p.kwh, analytics.averageDailyUse)), Info, Some(p.date))
    ensures var l := energyData[FirstMin(Kwhs(energyData))];
      r[3] == Insight(LowestConsumption(l.kwh), Info, Some(l.date))
  {
    var peakDay := energyData[FirstMax(Kwhs(energyData))];
    var lowestDay := energyData[FirstMin(Kwhs(energyData))];
    [ Insight(TotalConsumption(analytics.totalEnergyUsed, |energyData|), Info, None),
      Insight(AverageConsumption(analytics.averageDailyUse), Info, None),
      Insight(PeakConsumption(peakDay.kwh, PercentChange(peakDay.kwh, analytics.averageDailyUse)), Info, Some(peakDay.date)),
      Insight(LowestConsumption(lowestDay.kwh), Info, Some(lowestDay.date)) ]
  }

  /** The peak insight names a reading of largest consumption (the first of several), the lowest
      insight one of smallest consumption; over the summary of the same series the peak is at or
      above the average, so its percentage is not negative. */
  lemma ConsumptionExtremes(energyData: seq<DailyReading>, analytics: AnalyticsSummary)
    requires |energyData| > 0
    requires analytics.averageDailyUse == Mean(Kwhs(energyData)) > 0.0
    ensures var r := ConsumptionInsights(energyData, analytics);
      && r[3].kind.lowestKwh <= analytics.averageDailyUse <= r[2].kind.peakKwh
      && r[2].kind.percentAboveAverage >= 0.0
      && (forall j :: 0 <= j < |energyData| ==> r[3].kind.lowestKwh <= energyData[j].kwh <= r[2].kind.peakKwh)
      && (exists j :: 0 <= j < |energyData| && Some(energyData[j].date) == r[2].relatedDate && energyData[j].kwh == r[2].kind.peakKwh)
  {
    var ks := Kwhs(energyData);
    var hi, lo := FirstMax(ks), FirstMin(ks);
    MeanBounds(ks, ks[lo], ks[hi]);
    PercentChangeBands(ks[hi], analytics.averageDailyUse, 0.0);
    assert energyData[hi].kwh == ks[hi];
  }

  // -------------------------------------------------------- anomaly insights

  /** GenerateAnomalyInsights. */
  function AnomalyInsights(analytics: AnalyticsSummary): (r: seq<Insight>)
    ensures NoCritical(r) && 1 <= |r| <= 2
    ensures analytics.numberOfAnomalies == 0 <==> r[0].kind == NoAnomalies
    ensures analytics.numberOfAnomalies == 0 ==> r == [Insight(NoAnomalies, Info, None)]
    ensures analytics.numberOfAnomalies != 0 ==> r[0].kind == AnomalyDetected(analytics.numberOfAnomalies)
    ensures r[0].severity == Warning <==> analytics.numberOfAnomalies > 3
    ensures |r| == 2 <==> analytics.numberOfAnomalies != 0 && SignificantIndex(analytics.dailyResults).Some?
    ensures |r| == 2 ==>
      var a := analytics.dailyResults[SignificantIndex(analytics.dailyResults).value];
      && r[1].severity == Warning
      && r[1].relatedDate == Some(a.date)
      && r[1].kind == SignificantAnomaly(match a.deviationFromAverage case Some(d) => d case None => 0.0,
                                         a.kwhConsumption, a.anomalyReason)
  {
    if analytics.numberOfAnomalies == 0 then [Insight(NoAnomalies, Info, None)]
    else
      var detected := Insight(AnomalyDetected(analytics.numberOfAnomalies),
                              if analytics.numberOfAnomalies > 3 then Warning else Info, None);
      match SignificantIndex(analytics.dailyResults)
      case None => [detected]
      case Some(k) =>
        var a := analytics.dailyResults[k];
        [detected,
         Insight(SignificantAnomaly(match a.deviationFromAverage case Some(d) => d case None => 0.0,
                                    a.kwhConsumption, a.anomalyReason), Warning, Some(a.date))]
  }

  /** When the count is the number of flagged results, as AnalyzeEnergyDataAsync makes it, a
      non-zero count always brings the significant-anomaly insight, and its deviation is the
      largest among the flagged days. */
  lemma {:induction false} SignificantAnomalyReported(analytics: AnalyticsSummary)
    requires analytics.numberOfAnomalies == CountAnomalies(analytics.dailyResults) > 0
    ensures var r := AnomalyInsights(analytics);
      && |r| == 2
      && forall j :: 0 <= j < |analytics.dailyResults| && analytics.dailyResults[j].isAnomaly ==>
           Significance(analytics.dailyResults[j]) <= Abs(r[1].kind.deviation)
  {
    CountAnomaliesPositive(analytics.dailyResults);
  }

  lemma {:induction false} CountAnomaliesPositive(results: seq<AnalyticsResult>)
    requires CountAnomalies(results) > 0
    ensures exists j :: 0 <= j < |results| && results[j].isAnomaly
  {
    var front := results[..|results| - 1];
    if !results[|results| - 1].isAnomaly {
      CountAnomaliesPositive(front);
      var j :| 0 <= j < |front| && front[j].isAnomaly;
      assert results[j] == front[j];
    }
  }

  // -------------------------------------------------- weather correlation

  datatype Correlated = Correlated(energy: DailyReading, weather: WeatherData)

  /** Readings whose day is a key of the weather map, paired with that day's weather, in input order. */
  function Correlate(energyData: seq<DailyReading>, weather: map<int, WeatherData>): (c: seq<Correlated>)
    ensures |c| <= |energyData|
    ensures forall j :: 0 <= j < |c| ==> c[j].energy.date in weather && c[j].weather == weather[c[j].energy.date]
  {
    if |energyData| == 0 then []
    else
      var e := energyData[|energyData| - 1];
      Correlate(energyData[..|energyData| - 1], weather)
        + (if e.date in weather then [Correlated(e, weather[e.date])] else [])
  }

  /** Some correlated pair satisfies p exactly when some reading with a weather record does. */
  lemma CorrelateExists(energyData: seq<DailyReading>, weather: map<int, WeatherData>, p: Correlated -> bool)
    ensures (exists j :: 0 <= j < |Correlate(energyData, weather)| && p(Correlate(energyData, weather)[j]))
      <==> (exists i :: 0 <= i < |energyData| && energyData[i].date in weather
                     && p(Correlated(energyData[i], weather[energyData[i].date])))
  {
    var c := Correlate(energyData, weather);
    if exists j :: 0 <= j < |c| && p(c[j]) {
      var j :| 0 <= j < |c| && p(c[j]);
      CorrelateSound(energyData, weather, j);
    }
    if exists i :: 0 <= i < |energyData| && energyData[i].date in weather
                   && p(Correlated(energyData[i], weather[energyData[i].date])) {
      var i :| 0 <= i < |energyData| && energyData[i].date in weather
               && p(Correlated(energyData[i], weather[energyData[i].date]));
      CorrelateComplete(energyData, weather, i);
    }
  }

  /** Each correlated pair is a reading of the input with its day's weather. */
  lemma {:induction false} CorrelateSound(energyData: seq<DailyReading>, weather: map<int, WeatherData>, j: int)
    requires 0 <= j < |Correlate(energyData, weather)|
    ensures exists i :: (0 <= i < |energyData| && energyData[i].date in weather
                         && Correlate(energyData, weather)[j] == Correlated(energyData[i], weather[energyData[i].date]))
  {
    var front := energyData[..|energyData| - 1];
    var e := energyData[|energyData| - 1];
    var cf := Correlate(front, weather);
    var c := Correlate(energyData, weather);
    if j < |cf| {
      assert c[j] == cf[j];
      CorrelateSound(front, weather, j);
      var i :| 0 <= i < |front| && front[i].date in weather && cf[j] == Correlated(front[i], weather[front[i].date]);
      assert energyData[i] == front[i];
    } else {
      assert c[j] == Correlated(e, weather[e.date]);
      assert energyData[|energyData| - 1] == e;
    }
  }

  /** Each reading with a weather record has its pair in the correlated list. */
  lemma {:induction false} CorrelateComplete(energyData: seq<DailyReading>, weather: map<int, WeatherData>, i: int)
    requires 0 <= i < |energyData| && energyData[i].date in weather
    ensures Correlated(energyData[i], weather[energyData[i].date]) in Correlate(energyData, weather)
  {
    var front := energyData[..|energyData| - 1];
    var cf := Correlate(front, weather);
    var c := Correlate(energyData, weather);
    if i < |front| {
      assert front[i] == energyData[i];
      CorrelateComplete(front, weather, i);
      var j :| 0 <= j < |cf| && cf[j] == Correlated(front[i], weather[front[i].date]);
      assert c[j] == cf[j];
    } else {
      assert c[|cf|] == Correlated(energyData[i], weather[energyData[i].date]);
    }
  }

  /** A hot day of high consumption: above 28 degrees and above the overall mean consumption. */
  predicate IsHotHighDay(c: Correlated, overall: real)
  {
    c.weather.temperature > HotDayTemperature && c.energy.kwh > overall
  }

  /** Main.Contains("Rain", StringComparison.OrdinalIgnoreCase), for ASCII text. */
  predicate IsRainy(c: Correlated)
  {
    Contains(ToLower(c.weather.main), "rain")
  }

  /** String.Contains: sub occurs in s at some position. */
  predicate Contains(s: string, sub: string)
    decreases |s|
  {
    sub <= s || (|s| > 0 && Contains(s[1..], sub))
  }

  function Temperatures(c: seq<Correlated>): (t: seq<real>)
    ensures |t| == |c| && forall i :: 0 <= i < |c| ==> t[i] == c[i].weather.temperature
  {
    seq(|c|, i requires 0 <= i < |c| => c[i].weather.temperature)
  }

  function Consumptions(c: seq<Correlated>): (k: seq<real>)
    ensures |k| == |c| && forall i :: 0 <= i < |c| ==> k[i] == c[i].energy.kwh
  {
    seq(|c|, i requires 0 <= i < |c| => c[i].energy.kwh)
  }

  function HotDays(c: seq<Correlated>, overall: real): seq<Correlated>
  {
    Filter(c, (d: Correlated) => IsHotHighDay(d, overall))
  }

  function RainyDays(c: seq<Correlated>): seq<Correlated>
  {
    Filter(c, (d: Correlated) => IsRainy(d))
  }

  /** The two divisions by the overall mean (hot days, rainy days) happen only when their
      day lists are non-empty; the source does not guard them against a zero mean. */
  predicate WeatherDivisionsDefined(energyData: seq<DailyReading>, weather: map<int, WeatherData>)
  {
    |energyData| > 0 ==>
      var c := Correlate(energyData, weather);
      var overall := Mean(Kwhs(energyData));
      |c| > 0 && (|HotDays(c, overall)| > 0 || |RainyDays(c)| > 0) ==> overall != 0.0
  }

  /** The WeatherImpact insight, when there are hot days of high consumption. */
  function HotDayInsights(hot: seq<Correlated>, overall: real): (r: seq<Insight>)
    requires |hot| > 0 ==> overall != 0.0
    ensures |r| == (if |hot| > 0 then 1 else 0)
    ensures |r| == 1 ==> r[0] == Insight(WeatherImpact(Mean(Temperatures(hot)), PercentChange(Mean(Consumptions(hot)), overall), |hot|),
                                         Info, None)
  {
    if |hot| > 0 then
      var avgTempHotDays := Mean(Temperatures(hot));
      var increase := PercentChange(Mean(Consumptions(hot)), overall);
      [Insight(WeatherImpact(avgTempHotDays, increase, |hot|), Info, None)]
    else []
  }

  /** The WeatherPattern insight, when there are rainy days; it says "higher" iff the change is positive. */
  function RainyDayInsights(rainy: seq<Correlated>, overall: real): (r: seq<Insight>)
    requires |rainy| > 0 ==> overall != 0.0
    ensures |r| == (if |rainy| > 0 then 1 else 0)
    ensures |r| == 1 ==>
      var change := PercentChange(Mean(Consumptions(rainy)), overall);
      r[0] == Insight(WeatherPattern(|rainy|, change, change > 0.0), Info, None)
  {
    if |rainy| > 0 then
      var change := PercentChange(Mean(Consumptions(rainy)), overall);
      [Insight(WeatherPattern(|rainy|, change, change > 0.0), Info, None)]
    else []
  }

  /** GenerateWeatherCorrelationInsightsAsync. */
  function WeatherCorrelation(energyData: seq<DailyReading>, weather: map<int, WeatherData>): (r: seq<Insight>)
    requires WeatherDivisionsDefined(energyData, weather)
    ensures |r| <= 2 && forall i :: 0 <= i < |r| ==> r[i].severity == Info && r[i].relatedDate.None?
    ensures NoCritical(r)
    ensures |Correlate(energyData, weather)| == 0 ==> r == []
    ensures forall i :: 0 <= i < |r| ==> r[i].kind.WeatherImpact? || r[i].kind.WeatherPattern?
  {
    var c := Correlate(energyData, weather);
    if |c| == 0 then []
    else
      var overall := Mean(Kwhs(energyData));
      HotDayInsights(HotDays(c, overall), overall) + RainyDayInsights(RainyDays(c), overall)
  }

  predicate HasWeatherImpact(r: seq<Insight>)
  {
    exists i :: 0 <= i < |r| && r[i].kind.WeatherImpact?
  }

  predicate HasWeatherPattern(r: seq<Insight>)
  {
    exists i :: 0 <= i < |r| && r[i].kind.WeatherPattern?
  }

  /** Which of the two insights appear: WeatherImpact (first) iff there is a hot day of high
      consumption, WeatherPattern iff there is a rainy day. */
  lemma WeatherCorrelationParts(energyData: seq<DailyReading>, weather: map<int, WeatherData>)
    requires |energyData| > 0 && WeatherDivisionsDefined(energyData, weather)
    ensures var r, c, overall := WeatherCorrelation(energyData, weather), Correlate(energyData, weather), Mean(Kwhs(energyData));
      && (HasWeatherImpact(r) <==> |HotDays(c, overall)| > 0)
      && (HasWeatherPattern(r) <==> |RainyDays(c)| > 0)
      && (HasWeatherImpact(r) ==> r[0] == HotDayInsights(HotDays(c, overall), overall)[0])
  {
    var c, overall := Correlate(energyData, weather), Mean(Kwhs(energyData));
    if |c| > 0 {
      ImpactThenPattern(HotDayInsights(HotDays(c, overall), overall), RainyDayInsights(RainyDays(c), overall));
    }
  }

  /** At most one impact insight followed by at most one pattern insight. */
  lemma ImpactThenPattern(h: seq<Insight>, w: seq<Insight>)
    requires |h| <= 1 && |w| <= 1
    requires |h| == 1 ==> h[0].kind.WeatherImpact?
    requires |w| == 1 ==> w[0].kind.WeatherPattern?
    ensures HasWeatherImpact(h + w) <==> |h| == 1
    ensures HasWeatherPattern(h + w) <==> |w| == 1
    ensures |h| == 1 ==> (h + w)[0] == h[0]
  {
    var r := h + w;
    if |h| == 1 {
      assert r[0] == h[0];
    }
    if |w| == 1 {
      assert r[|h|] == w[0];
    }
    if HasWeatherImpact(r) {
      var i :| 0 <= i < |r| && r[i].kind.WeatherImpact?;
      if i >= |h| {
        assert r[i] == w[i - |h|];
      }
    }
    if HasWeatherPattern(r) {
      var i :| 0 <= i < |r| && r[i].kind.WeatherPattern?;
      if i < |h| {
        assert r[i] == h[i];
      }
    }
  }

  /** WeatherImpact appears exactly when some reading with a weather record is hotter than 28
      degrees and above the overall mean consumption. */
  lemma WeatherImpactCriterion(energyData: seq<DailyReading>, weather: map<int, WeatherData>)
    requires |energyData| > 0 && WeatherDivisionsDefined(energyData, weather)
    ensures HasWeatherImpact(WeatherCorrelation(energyData, weather)) <==>
      exists i :: 0 <= i < |energyData| && energyData[i].date in weather
        && weather[energyData[i].date].temperature > HotDayTemperature
        && energyData[i].kwh > Mean(Kwhs(energyData))
  {
    var overall := Mean(Kwhs(energyData));
    var p := (d: Correlated) => IsHotHighDay(d, overall);
    CorrelateExists(energyData, weather, p);
    FilterNonEmpty(Correlate(energyData, weather), p);
    WeatherCorrelationParts(energyData, weather);
  }

  /** WeatherPattern appears exactly when some reading with a weather record has "rain" in its
      main condition, in any letter case. */
  lemma WeatherPatternCriterion(energyData: seq<DailyReading>, weather: map<int, WeatherData>)
    requires |energyData| > 0 && WeatherDivisionsDefined(energyData, weather)
    ensures HasWeatherPattern(WeatherCorrelation(energyData, weather)) <==>
      exists i :: 0 <= i < |energyData| && energyData[i].date in weather
        && Contains(ToLower(weather[energyData[i].date].main), "rain")
  {
    var p := (d: Correlated) => IsRainy(d);
    CorrelateExists(energyData, weather, p);
    FilterNonEmpty(Correlate(energyData, weather), p);
    WeatherCorrelationParts(energyData, weather);
  }

  /** Hot days of high consumption average above the overall mean, so with a positive mean the
      reported increase is positive. */
  lemma WeatherImpactIsIncrease(energyData: seq<DailyReading>, weather: map<int, WeatherData>)
    requires |energyData| > 0 && WeatherDivisionsDefined(energyData, weather)
    requires Mean(Kwhs(energyData)) > 0.0
    ensures var r := WeatherCorrelation(energyData, weather);
      HasWeatherImpact(r) ==> r[0].kind.WeatherImpact? && r[0].kind.increasePercent > 0.0
  {
    var c := Correlate(energyData, weather);
    var overall := Mean(Kwhs(energyData));
    WeatherCorrelationParts(energyData, weather);
    var hot := HotDays(c, overall);
    if |hot| > 0 {
      HotDaysAboveOverall(hot, overall);
    }
  }

  lemma HotDaysAboveOverall(hot: seq<Correlated>, overall: real)
    requires |hot| > 0 && overall > 0.0
    requires forall i :: 0 <= i < |hot| ==> IsHotHighDay(hot[i], overall)
    ensures PercentChange(Mean(Consumptions(hot)), overall) > 0.0
  {
    var ks := Consumptions(hot);
    var lo := ks[FirstMin(ks)];
    MeanBounds(ks, lo, ks[FirstMax(ks)]);
    PercentChangeBands(Mean(ks), overall, 0.0);
  }

  /** With no day of the map above 28 degrees there is never a WeatherImpact insight. */
  lemma MildWeatherHasNoImpact(energyData: seq<DailyReading>, weather: map<int, WeatherData>)
    requires WeatherDivisionsDefined(energyData, weather)
    requires forall d :: d in weather ==> weather[d].temperature <= HotDayTemperature
    ensures !HasWeatherImpact(WeatherCorrelation(energyData, weather))
  {
    if |energyData| > 0 {
      NoHotDays(Correlate(energyData, weather), Mean(Kwhs(energyData)));
      WeatherCorrelationParts(energyData, weather);
    }
  }

  lemma NoHotDays(c: seq<Correlated>, overall: real)
    requires forall j :: 0 <= j < |c| ==> c[j].weather.temperature <= HotDayTemperature
    ensures HotDays(c, overall) == []
  {
    FilterNonEmpty(c, (d: Correlated) => IsHotHighDay(d, overall));
  }

  /** Over the keyed simulated weather (17.5 to 25.5 degrees) the hot-day rule never fires. */
  lemma SimulatedWeatherHasNoImpact(energyData: seq<DailyReading>, weatherData: seq<WeatherData>,
                                    fromDate: int, toDate: int, draws: seq<DayDraws>)
    requires IsSimulatedSeries(weatherData, fromDate, toDate, draws)
    requires forall i :: 0 <= i < |draws| ==> ValidDraws(draws[i])
    requires WeatherDictionary(weatherData).Some?
    requires WeatherDivisionsDefined(energyData, WeatherDictionary(weatherData).value)
    ensures !HasWeatherImpact(WeatherCorrelation(energyData, WeatherDictionary(weatherData).value))
  {
    var weather := WeatherDictionary(weatherData).value;
    WeatherDictionaryCharacterized(weatherData);
    SimulatedNeverHot(weatherData, fromDate, toDate, draws);
    forall d | d in weather
      ensures weather[d].temperature <= HotDayTemperature
    {
      var i :| 0 <= i < |weatherData| && weatherData[i].date == d;
      assert weather[d] == weatherData[i];
    }
    MildWeatherHasNoImpact(energyData, weather);
  }

  // ---------------------------------------------------------- trend insights

  /** Sum of the last 7 readings of the date-sorted series. */
  function LastWeek(energyData: seq<DailyReading>): real
    requires |energyData| >= 14
  {
    var sorted := SortByDate(energyData);
    Sum(Kwhs(sorted[|sorted| - 7..]))
  }

  /** Skip(Count - 14).Take(7): the sum of the 7 readings before those. */
  function PreviousWeek(energyData: seq<DailyReading>): real
    requires |energyData| >= 14
  {
    var sorted := SortByDate(energyData);
    Sum(Kwhs(sorted[|sorted| - 14..|sorted| - 7]))
  }

  /** The two weeks compared are consecutive slices of the date-sorted series: together they are
      its last 14 readings, and no reading of the previous week is dated after one of the last week. */
  lemma WeeksInOrder(energyData: seq<DailyReading>)
    requires |energyData| >= 14
    ensures var sorted := SortByDate(energyData); var n := |sorted|;
      && PreviousWeek(energyData) + LastWeek(energyData) == Sum(Kwhs(sorted[n - 14..]))
      && forall i, j :: n - 14 <= i < n - 7 <= j < n ==> sorted[i].date <= sorted[j].date
  {
    var sorted := SortByDate(energyData);
    var n := |sorted|;
    assert sorted[n - 14..] == sorted[n - 14..n - 7] + sorted[n - 7..];
    assert Kwhs(sorted[n - 14..]) == Kwhs(sorted[n - 14..n - 7]) + Kwhs(sorted[n - 7..]);
    SumConcat(Kwhs(sorted[n - 14..n - 7]), Kwhs(sorted[n - 7..]));
  }

  /** GenerateTrendInsights. */
  function TrendInsights(energyData: seq<DailyReading>, forecast: ForecastSummary): (r: seq<Insight>)
    requires |energyData| >= 14 ==> PreviousWeek(energyData) != 0.0
    ensures |r| == (if |energyData| >= 14 then 2 else 1) && NoCritical(r)
    ensures r[0].kind == ConsumptionTrend(forecast.trendDirection, forecast.trendStrength) && r[0].relatedDate.None?
    ensures r[0].severity == Warning <==> forecast.trendDirection == Increasing && forecast.trendStrength > 5.0
    ensures |energyData| >= 14 ==>
      var change := PercentChange(LastWeek(energyData), PreviousWeek(energyData));
      && r[1].kind == WeeklyComparison(LastWeek(energyData), PreviousWeek(energyData), change, change > 0.0)
      && (r[1].severity == Warning <==> Abs(change) > 15.0)
  {
    var trend := Insight(ConsumptionTrend(forecast.trendDirection, forecast.trendStrength),
                         if forecast.trendDirection == Increasing && forecast.trendStrength > 5.0 then Warning else Info,
                         None);
    if |energyData| >= 14 then
      var lastWeek := LastWeek(energyData);
      var previousWeek := PreviousWeek(energyData);
      var weekChange := PercentChange(lastWeek, previousWeek);
      [trend, Insight(WeeklyComparison(lastWeek, previousWeek, weekChange, weekChange > 0.0),
                      if Abs(weekChange) > 15.0 then Warning else Info, None)]
    else [trend]
  }

  /** With a positive previous week, the comparison says "increased" exactly when the last week
      used more, and warns exactly when the last week is above 115% or below 85% of the previous. */
  lemma WeeklyComparisonBands(energyData: seq<DailyReading>, forecast: ForecastSummary)
    requires |energyData| >= 14 && PreviousWeek(energyData) > 0.0
    ensures var r := TrendInsights(energyData, forecast);
      var last, prev := LastWeek(energyData), PreviousWeek(energyData);
      && (r[1].kind.increased <==> last > prev)
      && (r[1].severity == Warning <==> last > prev * 1.15 || last < prev * 0.85)
  {
    var last, prev := LastWeek(energyData), PreviousWeek(energyData);
    PercentChangeBands(last, prev, 0.0);
    PercentChangeBands(last, prev, 15.0);
  }

  // ------------------------------------------------------- forecast insights

  function PredictedKwhs(forecasts: seq<ForecastResult>): (p: seq<real>)
    ensures |p| == |forecasts| && forall i :: 0 <= i < |forecasts| ==> p[i] == forecasts[i].predictedKwh
  {
    seq(|forecasts|, i requires 0 <= i < |forecasts| => forecasts[i].predictedKwh)
  }

  /** GenerateForecastInsights. */
  function ForecastInsights(forecast: ForecastSummary, analytics: AnalyticsSummary): (r: seq<Insight>)
    requires |forecast.forecasts| > 0 ==> analytics.averageDailyUse != 0.0
    ensures |r| == (if |forecast.forecasts| > 0 then 1 else 0) && NoCritical(r)
    ensures |r| == 1 ==>
      var avgForecast := Mean(PredictedKwhs(forecast.forecasts));
      var change := PercentChange(avgForecast, analytics.averageDailyUse);
      && r[0].kind.ForecastPrediction?
      && r[0].kind.avgForecastKwh == avgForecast
      && r[0].kind.forecastChangePercent == change
      && (r[0].kind.outlook == Higher <==> change > 5.0)
      && (r[0].kind.outlook == Lower <==> change < -5.0)
      && (r[0].kind.outlook == Similar <==> -5.0 <= change <= 5.0)
      && (r[0].severity == Warning <==> change > 10.0)
      && r[0].relatedDate.None?
  {
    if |forecast.forecasts| == 0 then []
    else
      var avgForecast := Mean(PredictedKwhs(forecast.forecasts));
      var change := PercentChange(avgForecast, analytics.averageDailyUse);
      var outlook := if change > 5.0 then Higher else if change < -5.0 then Lower else Similar;
      [Insight(ForecastPrediction(avgForecast, change, outlook), if change > 10.0 then Warning else Info, None)]
  }

  /** With a positive average daily use: the outlook is "higher" exactly when the mean forecast
      exceeds 105% of it, "lower" exactly below 95%, and a warning is raised exactly above 110%;
      so every forecast warning comes with a "higher" outlook. */
  lemma ForecastOutlookBands(forecast: ForecastSummary, analytics: AnalyticsSummary)
    requires |forecast.forecasts| > 0 && analytics.averageDailyUse > 0.0
    ensures var r := ForecastInsights(forecast, analytics);
      var avgForecast, avg := Mean(PredictedKwhs(forecast.forecasts)), analytics.averageDailyUse;
      && (r[0].kind.outlook == Higher <==> avgForecast > avg * 1.05)
      && (r[0].kind.outlook == Lower <==> avgForecast < avg * 0.95)
      && (r[0].severity == Warning <==> avgForecast > avg * 1.1)
      && (r[0].severity == Warning ==> r[0].kind.outlook == Higher)
  {
    var avgForecast := Mean(PredictedKwhs(forecast.forecasts));
    PercentChangeBands(avgForecast, analytics.averageDailyUse, 5.0);
    PercentChangeBands(avgForecast, analytics.averageDailyUse, 10.0);
  }

  // ------------------------------------------------------ overall assessment

  /** GenerateOverallAssessment: the first rule that applies, in order of priority. */
  function OverallAssessment(analytics: AnalyticsSummary, forecast: ForecastSummary, insights: seq<Insight>): (a: Assessment)
    ensures var critical, warnings := CountSeverity(insights, Critical), CountSeverity(insights, Warning);
      && (a.CriticalAttention? <==> critical > 0)
      && (a.MonitorClosely? <==> critical == 0 && warnings > 2)
      && (a.RisingTrend? <==> critical == 0 && warnings <= 2
                              && forecast.trendDirection == Increasing && forecast.trendStrength > 10.0)
      && (a.PositiveTrend? <==> critical == 0 && warnings <= 2 && forecast.trendDirection == Decreasing)
      && (a.CriticalAttention? ==> a == CriticalAttention(critical))
      && (a.MonitorClosely? ==> a == MonitorClosely(warnings))
      && (a.RisingTrend? ==> a == RisingTrend(analytics.averageDailyUse))
      && (a.PositiveTrend? ==> a == PositiveTrend(analytics.averageDailyUse))
      && (a.NormalOperation? ==>
            a == NormalOperation(analytics.averageDailyUse, analytics.numberOfAnomalies, |analytics.dailyResults|))
      && !a.InsufficientData?
  {
    var criticalInsights := CountSeverity(insights, Critical);
    var warningInsights := CountSeverity(insights, Warning);
    if criticalInsights > 0 then CriticalAttention(criticalInsights)
    else if warningInsights > 2 then MonitorClosely(warningInsights)
    else if forecast.trendDirection == Increasing && forecast.trendStrength > 10.0 then RisingTrend(analytics.averageDailyUse)
    else if forecast.trendDirection == Decreasing then PositiveTrend(analytics.averageDailyUse)
    else NormalOperation(analytics.averageDailyUse, analytics.numberOfAnomalies, |analytics.dailyResults|)
  }

  // ------------------------------------------------------------ orchestration

  /** What the source divides by, and may not be zero, once the series is non-empty. */
  predicate InsightDivisionsDefined(energyData: seq<DailyReading>, weather: map<int, WeatherData>,
                                    analytics: AnalyticsSummary)
  {
    |energyData| > 0 ==>
      && analytics.averageDailyUse != 0.0
      && (|energyData| >= 14 ==> PreviousWeek(energyData) != 0.0)
      && (|weather| > 0 ==> WeatherDivisionsDefined(energyData, weather))
  }

  /** The insights of a non-empty series: the generators' lists in their fixed order, the weather
      ones only when the map has an entry. */
  function AllInsights(energyData: seq<DailyReading>, weather: map<int, WeatherData>,
                       analytics: AnalyticsSummary, forecast: ForecastSummary): seq<Insight>
    requires |energyData| > 0 && InsightDivisionsDefined(energyData, weather, analytics)
  {
    ConsumptionInsights(energyData, analytics)
      + AnomalyInsights(analytics)
      + (if |weather| > 0 then WeatherCorrelation(energyData, weather) else [])
      + TrendInsights(energyData, forecast)
      + ForecastInsights(forecast, analytics)
  }

  /** GenerateInsightsAsync after the fetch. */
  method GenerateInsights(energyData: seq<DailyReading>, weather: map<int, WeatherData>,
                          analytics: AnalyticsSummary, forecast: ForecastSummary)
    returns (summary: InsightsSummary)
    requires InsightDivisionsDefined(energyData, weather, analytics)
    ensures |energyData| == 0 ==> summary == InsightsSummary([Insight(NoData, Warning, None)], InsufficientData)
    ensures |energyData| > 0 ==>
      && summary.insights == AllInsights(energyData, weather, analytics, forecast)
      && summary.overallAssessment == OverallAssessment(analytics, forecast, summary.insights)
    ensures NoCritical(summary.insights)
    ensures !summary.overallAssessment.CriticalAttention?
  {
    var insights: seq<Insight> := [];
    if |energyData| == 0 {
      insights := insights + [Insight(NoData, Warning, None)];
      return InsightsSummary(insights, InsufficientData);
    }
    ghost var c, a := ConsumptionInsights(energyData, analytics), AnomalyInsights(analytics);
    ghost var w: seq<Insight> := [];
    insights := insights + ConsumptionInsights(energyData, analytics);
    assert insights == c;
    insights := insights + AnomalyInsights(analytics);
    if |weather| > 0 {
      w := WeatherCorrelation(energyData, weather);
      insights := insights + WeatherCorrelation(energyData, weather);
    } else {
      assert insights == c + a + w;
    }
    insights := insights + TrendInsights(energyData, forecast);
    insights := insights + ForecastInsights(forecast, analytics);
    assert insights == c + a + w + TrendInsights(energyData, forecast) + ForecastInsights(forecast, analytics);
    AllInsightsNoCritical(energyData, weather, analytics, forecast);
    var overallAssessment := OverallAssessment(analytics, forecast, insights);
    summary := InsightsSummary(insights, overallAssessment);
  }

  lemma NoCriticalConcat(a: seq<Insight>, b: seq<Insight>)
    requires NoCritical(a) && NoCritical(b)
    ensures NoCritical(a + b)
  {
  }

  lemma CountSeverityConcat5(c: seq<Insight>, a: seq<Insight>, w: seq<Insight>, t: seq<Insight>, f: seq<Insight>, s: Severity)
    ensures CountSeverity(c + a + w + t + f, s)
      == CountSeverity(c, s) + CountSeverity(a, s) + CountSeverity(w, s) + CountSeverity(t, s) + CountSeverity(f, s)
  {
    CountSeverityConcat(c, a, s);
    CountSeverityConcat(c + a, w, s);
    CountSeverityConcat(c + a + w, t, s);
    CountSeverityConcat(c + a + w + t, f, s);
  }

  lemma CountSeverityPair(x: Insight, y: Insight, s: Severity)
    ensures CountSeverity([x, y], s) == (if x.severity == s then 1 else 0) + (if y.severity == s then 1 else 0)
  {
    assert [x, y][..1] == [x];
    assert [x][..0] == [];
  }

  /** No generator emits a critical insight, so "critical attention" is never the assessment. */
  lemma AllInsightsNoCritical(energyData: seq<DailyReading>, weather: map<int, WeatherData>,
                              analytics: AnalyticsSummary, forecast: ForecastSummary)
    requires |energyData| > 0 && InsightDivisionsDefined(energyData, weather, analytics)
    ensures NoCritical(AllInsights(energyData, weather, analytics, forecast))
    ensures CountSeverity(AllInsights(energyData, weather, analytics, forecast), Critical) == 0
    ensures !OverallAssessment(analytics, forecast, AllInsights(energyData, weather, analytics, forecast)).CriticalAttention?
  {
    var c := ConsumptionInsights(energyData, analytics);
    var a := AnomalyInsights(analytics);
    var w := if |weather| > 0 then WeatherCorrelation(energyData, weather) else [];
    var t := TrendInsights(energyData, forecast);
    var f := ForecastInsights(forecast, analytics);
    NoCriticalConcat(c, a);
    NoCriticalConcat(c + a, w);
    NoCriticalConcat(c + a + w, t);
    NoCriticalConcat(c + a + w + t, f);
    CountSeverityZero(c + a + w + t + f, Critical);
  }

  /** The non-empty series always opens with total, average, peak and lowest, in that order, and
      closes with the trend insights and then the forecast insight. */
  lemma InsightOrder(energyData: seq<DailyReading>, weather: map<int, WeatherData>,
                     analytics: AnalyticsSummary, forecast: ForecastSummary)
    requires |energyData| > 0 && InsightDivisionsDefined(energyData, weather, analytics)
    ensures var r := AllInsights(energyData, weather, analytics, forecast);
      var t := if |energyData| >= 14 then 2 else 1;
      var f := if |forecast.forecasts| > 0 then 1 else 0;
      && |r| >= 4 + 1 + t + f
      && r[0].kind.TotalConsumption? && r[1].kind.AverageConsumption?
      && r[2].kind.PeakConsumption? && r[3].kind.LowestConsumption?
      && (r[4].kind.NoAnomalies? || r[4].kind.AnomalyDetected?)
      && r[|r| - f - t].kind.ConsumptionTrend?
      && (f == 1 ==> r[|r| - 1].kind.ForecastPrediction?)
  {
    var c := ConsumptionInsights(energyData, analytics);
    var a := AnomalyInsights(analytics);
    var w := if |weather| > 0 then WeatherCorrelation(energyData, weather) else [];
    var t := TrendInsights(energyData, forecast);
    var f := ForecastInsights(forecast, analytics);
    var r := c + a + w + t + f;
    assert r[..4] == c && r[4] == a[0];
    assert r[|r| - |f| - |t|] == t[0];
    assert |f| == 1 ==> r[|r| - 1] == f[0];
  }

  /** More than three anomalies with a consistent summary and a trend rising by more than 5% give
      three warnings (anomaly count, significant anomaly, trend), so the assessment is "monitor
      closely" whatever the other generators say. */
  lemma ManyAnomaliesRisingTrendMonitored(energyData: seq<DailyReading>, weather: map<int, WeatherData>,
                                          analytics: AnalyticsSummary, forecast: ForecastSummary)
    requires |energyData| > 0 && InsightDivisionsDefined(energyData, weather, analytics)
    requires analytics.numberOfAnomalies == CountAnomalies(analytics.dailyResults) > 3
    requires forecast.trendDirection == Increasing && forecast.trendStrength > 5.0
    ensures OverallAssessment(analytics, forecast, AllInsights(energyData, weather, analytics, forecast)).MonitorClosely?
  {
    var c := ConsumptionInsights(energyData, analytics);
    var a := AnomalyInsights(analytics);
    var w := if |weather| > 0 then WeatherCorrelation(energyData, weather) else [];
    var t := TrendInsights(energyData, forecast);
    var f := ForecastInsights(forecast, analytics);
    CountSeverityConcat5(c, a, w, t, f, Warning);
    AnomalyWarnings(analytics);
    TrendWarnings(energyData, forecast);
    AllInsightsNoCritical(energyData, weather, analytics, forecast);
  }

  lemma AnomalyWarnings(analytics: AnalyticsSummary)
    requires analytics.numberOfAnomalies == CountAnomalies(analytics.dailyResults) > 3
    ensures CountSeverity(AnomalyInsights(analytics), Warning) == 2
  {
    var a := AnomalyInsights(analytics);
    SignificantAnomalyReported(analytics);
    assert a == [a[0], a[1]];
    CountSeverityPair(a[0], a[1], Warning);
  }

  lemma TrendWarnings(energyData: seq<DailyReading>, forecast: ForecastSummary)
    requires |energyData| >= 14 ==> PreviousWeek(energyData) != 0.0
    requires forecast.trendDirection == Increasing && forecast.trendStrength > 5.0
    ensures CountSeverity(TrendInsights(energyData, forecast), Warning) >= 1
  {
    var t := TrendInsights(energyData, forecast);
    if |t| == 2 {
      assert t == [t[0], t[1]];
      CountSeverityPair(t[0], t[1], Warning);
    } else {
      assert t[..0] == [];
    }
  }
}
